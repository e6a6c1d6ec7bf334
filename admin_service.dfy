/**
 * The admin API wrappers: each attaches the stored token as a bearer header and
 * turns the HTTP result into what the views read. Some normalise failures into an
 * empty `{success: false, <field>: []}` shape; the others rethrow.
 */
module AdminService {
  import opened Wrappers
  import opened Js
  import Storage

  /** A record the views list: its identifier and, when it has one, its status string. */
  datatype Entry = Entry(id: string, status: Option<string>)

  /** A response body: null/undefined, some other non-object value, or an object with a truthy or
      falsy `success`, list-valued fields and an optional `message`. (An array body behaves as an
      object with none of these fields.) */
  datatype Body =
    | Nullish
    | Primitive
    | ObjectBody(success: bool, fields: map<string, JsList<Entry>>, message: Option<string>)

  /** What the HTTP client delivers: the body, or a rejection with its message. */
  datatype HttpResult = Ok(body: Body) | Err(message: string)

  /** `body.<name>`: an absent field reads as undefined. */
  function Field(b: Body, name: string): (v: JsList<Entry>)
    ensures !b.ObjectBody? ==> v == NonArray(false)
  {
    if b.ObjectBody? && name in b.fields then b.fields[name] else NonArray(false)
  }

  /** `body && body.success`. */
  predicate Succeeded(b: Body) {
    b.ObjectBody? && b.success
  }

  /** The `{success: false, <name>: []}` shape the normalising wrappers fall back to. */
  function EmptyResult(name: string): (r: Body)
    ensures !Succeeded(r) && Field(r, name) == Arr([])
  {
    ObjectBody(false, map[name := Arr([])], None)
  }

  /** `Authorization: Bearer ${localStorage.getItem("token")}`: a missing token prints as "null". */
  function AuthorizationHeader(store: map<string, string>): (h: string)
    ensures "token" in store ==> h == "Bearer " + store["token"]
    ensures "token" !in store ==> h == "Bearer null"
  {
    "Bearer " + Storage.Lookup(store, "token").GetOr("null")
  }

  /** The rule of getServiceRequests and getDeliveryDetails: an object body passes through
      unchanged; a non-object body or any failure gives `{success: false, <name>: []}`. */
  function ObjectOrEmpty(h: HttpResult, name: string): (r: Body)
    ensures r.ObjectBody?
    ensures h.Ok? && h.body.ObjectBody? ==> r == h.body
    ensures !(h.Ok? && h.body.ObjectBody?) ==> r == EmptyResult(name)
  {
    if h.Ok? && h.body.ObjectBody? then h.body else EmptyResult(name)
  }

  function GetServiceRequests(h: HttpResult): (r: Body)
    ensures r.ObjectBody?
    ensures h.Ok? && h.body.ObjectBody? ==> r == h.body
    ensures !(h.Ok? && h.body.ObjectBody?) ==> !Succeeded(r) && Field(r, "serviceRequests") == Arr([])
  {
    ObjectOrEmpty(h, "serviceRequests")
  }

  function GetDeliveryDetails(h: HttpResult): (r: Body)
    ensures r.ObjectBody?
    ensures h.Ok? && h.body.ObjectBody? ==> r == h.body
    ensures !(h.Ok? && h.body.ObjectBody?) ==> !Succeeded(r) && Field(r, "deliveryDetails") == Arr([])
  {
    ObjectOrEmpty(h, "deliveryDetails")
  }

  /** The rule of getServiceProviders and getPotentialProviders: a successful body gives
      `{success: true, <name>: list}` with a non-array list replaced by []; anything else gives
      `{success: false, <name>: []}`. The returned list is an array in every branch. */
  function SuccessListOrEmpty(h: HttpResult, name: string): (r: Body)
    ensures Field(r, name).Arr?
    ensures r.ObjectBody? && r.fields.Keys == {name} && r.message == None
    ensures Succeeded(r) <==> h.Ok? && Succeeded(h.body)
    ensures Succeeded(r) && Field(h.body, name).Arr? ==> Field(r, name) == Field(h.body, name)
    ensures !(Succeeded(r) && Field(h.body, name).Arr?) ==> Field(r, name) == Arr([])
  {
    if h.Ok? && Succeeded(h.body) then
      var list := Field(h.body, name);
      ObjectBody(true, map[name := if list.Arr? then list else Arr([])], None)
    else EmptyResult(name)
  }

  function GetServiceProviders(h: HttpResult): (r: Body)
    ensures Field(r, "serviceProviders").Arr?
    ensures Succeeded(r) <==> h.Ok? && Succeeded(h.body)
    ensures Succeeded(r) && Field(h.body, "serviceProviders").Arr? ==>
      Field(r, "serviceProviders") == Field(h.body, "serviceProviders")
  {
    SuccessListOrEmpty(h, "serviceProviders")
  }

  function GetPotentialProviders(h: HttpResult): (r: Body)
    ensures Field(r, "potentialProviders").Arr?
    ensures Succeeded(r) <==> h.Ok? && Succeeded(h.body)
    ensures Succeeded(r) && Field(h.body, "potentialProviders").Arr? ==>
      Field(r, "potentialProviders") == Field(h.body, "potentialProviders")
  {
    SuccessListOrEmpty(h, "potentialProviders")
  }

  /** The three payments getRecentPayments falls back to (id and status kept). */
  const SamplePayments: seq<Entry> :=
    [Entry("1", Some("success")), Entry("2", Some("success")), Entry("3", Some("pending"))]

  /** getRecentPayments: the body as received, or on failure a successful result holding the sample payments. */
  function GetRecentPayments(h: HttpResult): (r: Body)
    ensures h.Ok? ==> r == h.body
    ensures h.Err? ==> Succeeded(r) && Field(r, "payments") == Arr(SamplePayments) && |SamplePayments| == 3
  {
    match h
    case Ok(body) => body
    case Err(_) => ObjectBody(true, map["payments" := Arr(SamplePayments)], None)
  }

  /** The rethrowing wrappers (getActiveDeliveries, the support, payment, account and admin calls):
      the body is returned as received and a failure reaches the caller with its message. */
  function Rethrowing(h: HttpResult): (r: Call<Body>)
    ensures r.Returned? <==> h.Ok?
    ensures r.Returned? ==> r.value == h.body
    ensures r.Threw? ==> r.error.message == h.message
  {
    match h
    case Ok(body) => Returned(body)
    case Err(message) => Threw(JsError(message, None))
  }

  function GetActiveDeliveries(h: HttpResult): (r: Call<Body>)
    ensures r.Threw? <==> h.Err?
  {
    Rethrowing(h)
  }

  /** A normalising wrapper never rejects, so its caller's catch block is never entered on its account. */
  lemma NormalisingWrappersNeverReject(h: HttpResult)
    ensures GetServiceRequests(h).ObjectBody? && GetDeliveryDetails(h).ObjectBody?
    ensures GetServiceProviders(h).ObjectBody? && GetPotentialProviders(h).ObjectBody?
  {
  }
}
