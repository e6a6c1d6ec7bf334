/**
 * The Service Providers page: the status badge (text colour, dot colour and label), the
 * table-cell fallbacks and the fetch of current and potential providers.
 */
module ProvidersPage {
  import opened Wrappers
  import opened Js
  import opened Text
  import opened AdminService
  import opened ListFetch

  /** `String(status || '')`: a falsy status reads as the empty string. */
  function StatusText(status: JsValue): (s: string)
    ensures !Truthy(status) ==> s == ""
    ensures Truthy(status) ==> s == ToJsString(status)
  {
    ToJsString(Or(status, Str("")))
  }

  /** The lower-cased status text both colour switches look at. */
  function StatusKey(status: JsValue): (k: string)
    ensures !Truthy(status) ==> k == ""
  {
    ToLower(StatusText(status))
  }

  /** `getStatusColor`: the text colour class of a lower-cased status text. */
  function TextColor(k: string): string {
    if k == "active" || k == "verified" then "text-green-700"
    else if k == "waitlisted" || k == "pending" then "text-yellow-600"
    else if k == "reviewing" then "text-blue-600"
    else if k == "cancelled" || k == "rejected" || k == "inactive" then "text-red-600"
    else "text-gray-600"
  }

  /** `getStatusDotColor`: the dot's background class, from a switch of its own. */
  function DotColor(k: string): string {
    if k == "active" || k == "verified" then "bg-green-700"
    else if k == "waitlisted" || k == "pending" then "bg-yellow-600"
    else if k == "reviewing" then "bg-blue-600"
    else if k == "cancelled" || k == "rejected" || k == "inactive" then "bg-red-600"
    else "bg-gray-600"
  }

  /** The five text/dot class pairs of one shade each. */
  const ShadePairs: set<(string, string)> := {
    ("text-green-700", "bg-green-700"), ("text-yellow-600", "bg-yellow-600"),
    ("text-blue-600", "bg-blue-600"), ("text-red-600", "bg-red-600"), ("text-gray-600", "bg-gray-600")}

  /** The two switches classify every status alike: text and dot always show the same shade. */
  lemma TextAndDotAgree(k: string)
    ensures (TextColor(k), DotColor(k)) in ShadePairs
  {
  }

  /** A status with no text (absent or falsy) is gray, text and dot alike. */
  lemma FalsyStatusGray(status: JsValue)
    requires !Truthy(status)
    ensures TextColor(StatusKey(status)) == "text-gray-600" && DotColor(StatusKey(status)) == "bg-gray-600"
  {
  }

  /** `statusMap`: the label of each lower-cased status it names. */
  const StatusMap: map<string, string> := map[
    "verified" := "Active", "pending" := "Pending", "reviewing" := "Reviewing",
    "waitlisted" := "Waitlisted", "rejected" := "Rejected", "inactive" := "Inactive"]

  /** `formatStatus`: the mapped label, else the status text itself, else "Unknown". */
  function FormatStatus(status: JsValue): (shown: string)
    ensures shown != ""
    ensures StatusKey(status) in StatusMap ==> shown == StatusMap[StatusKey(status)]
    ensures StatusKey(status) !in StatusMap && StatusText(status) != "" ==> shown == StatusText(status)
    ensures StatusText(status) == "" ==> shown == "Unknown"
  {
    var s := StatusText(status);
    var k := StatusKey(status);
    if k in StatusMap then MappedLabelNonEmpty(k); StatusMap[k]
    else if s != "" then s
    else "Unknown"
  }

  lemma MappedLabelNonEmpty(k: string)
    requires k in StatusMap
    ensures StatusMap[k] != ""
  {
  }

  /** An absent, empty or otherwise falsy status is shown as "Unknown". */
  lemma FalsyStatusUnknown(status: JsValue)
    requires !Truthy(status)
    ensures FormatStatus(status) == "Unknown"
  {
    assert ToLower("") == "";
  }

  /** `safeString(value, fallback)`: null, undefined, "" and objects give the fallback; anything
      else its string form, which is never empty. */
  function SafeString(value: JsValue, fallback: string): (r: string)
    ensures value.Null? || value.Undefined? || value == Str("") || value.Object? ==> r == fallback
    ensures !(value.Null? || value.Undefined? || value == Str("") || value.Object?) ==>
      r == ToJsString(value) && r != ""
  {
    match value
    case Null => fallback
    case Undefined => fallback
    case Object => fallback
    case Str(s) => if s == "" then fallback else s
    case Int(i) => IntToString(i)
    case Bool(b) => if b then "true" else "false"
  }

  /** The ID cell: `safeString(provider.agentId || provider.id, 'N/A')`. */
  function IdCell(agentId: JsValue, id: JsValue): (r: string)
    ensures r != ""
    ensures Truthy(agentId) && !agentId.Object? ==> r == ToJsString(agentId)
    ensures agentId.Object? ==> r == "N/A"
    ensures !Truthy(agentId) && Truthy(id) && !id.Object? ==> r == ToJsString(id)
    ensures !Truthy(agentId) && (id.Null? || id.Undefined? || id == Str("") || id.Object?) ==> r == "N/A"
    ensures !Truthy(agentId) && (id.Int? || id.Bool?) ==> r == ToJsString(id)
  {
    SafeString(Or(agentId, id), "N/A")
  }

  /** The three sample providers (agent ids SP890221 to SP890223, all "Active"). */
  const SampleServiceProviders: seq<Entry> :=
    [Entry("SP890221", Some("Active")), Entry("SP890222", Some("Active")), Entry("SP890223", Some("Active"))]

  /** The three sample applicants, identified by name (they have no id). */
  const SamplePotentialProviders: seq<Entry> :=
    [Entry("Ajayi Suleiman", Some("Waitlisted")), Entry("Fatima Bello", Some("Reviewing")),
     Entry("Musa Abdullahi", Some("Pending"))]

  const LoadFailure := "Failed to load providers data"

  const Config := PageConfig("serviceProviders", SampleServiceProviders,
                             "potentialProviders", SamplePotentialProviders, LoadFailure)

  class ServiceProviders {
    var serviceProviders: JsList<Entry>
    var potentialProviders: JsList<Entry>
    var loadingProviders: bool
    var loadingPotential: bool
    var error: Option<string>
    var filterStatus: string

    constructor()
      ensures serviceProviders == Arr([]) && potentialProviders == Arr([])
      ensures loadingProviders && loadingPotential
      ensures error == None && filterStatus == ""
    {
      serviceProviders := Arr([]);
      potentialProviders := Arr([]);
      loadingProviders := true;
      loadingPotential := true;
      error := None;
      filterStatus := "";
    }

    /** `fetchData`, given how `getServiceProviders` and `getPotentialProviders` end. */
    method FetchData(providers: Call<Body>, potential: Call<Body>)
      modifies this
      ensures Lists(serviceProviders, potentialProviders, error) == AfterFetch(Config, providers, potential, old(error))
      ensures !loadingProviders && !loadingPotential
      ensures filterStatus == old(filterStatus)
    {
      match providers {
        case Threw(_) =>
          error := Some(LoadFailure);
          serviceProviders := Arr(SampleServiceProviders);
          potentialProviders := Arr(SamplePotentialProviders);
        case Returned(r) =>
          serviceProviders := PickList(r, "serviceProviders", SampleServiceProviders);
          match potential {
            case Threw(_) =>
              error := Some(LoadFailure);
              serviceProviders := Arr(SampleServiceProviders);
              potentialProviders := Arr(SamplePotentialProviders);
            case Returned(p) =>
              potentialProviders := PickList(p, "potentialProviders", SamplePotentialProviders);
          }
      }
      loadingProviders := false;
      loadingPotential := false;
    }

    /** The filter select's change handler; the effect refetches exactly when the value changed. */
    method SetFilter(status: string) returns (refetch: Option<Query>)
      modifies this
      ensures filterStatus == status
      ensures serviceProviders == old(serviceProviders) && potentialProviders == old(potentialProviders)
      ensures loadingProviders == old(loadingProviders) && loadingPotential == old(loadingPotential)
      ensures error == old(error)
      ensures refetch.Some? <==> status != old(filterStatus)
      ensures refetch.Some? ==> refetch.value == FilterQuery(status)
    {
      refetch := if status != filterStatus then Some(Query(50, status)) else None;
      filterStatus := status;
    }
  }

  /** With the real wrappers both lists are always arrays, so the displayed counts are the true
      list lengths, and the catch block is never entered. */
  lemma WrappedFetchShowsArrays(h1: HttpResult, h2: HttpResult, e: Option<string>)
    ensures var r := AfterFetch(Config, Returned(GetServiceProviders(h1)), Returned(GetPotentialProviders(h2)), e);
      r.first.Arr? && r.second.Arr? && r.error == e
  {
  }

  /** A backend whose calls fail shows three sample providers and three sample applicants. */
  lemma BackendDownShowsSamples(m1: string, m2: string, e: Option<string>)
    ensures var r := AfterFetch(Config, Returned(GetServiceProviders(Err(m1))), Returned(GetPotentialProviders(Err(m2))), e);
      r == Lists(Arr(SampleServiceProviders), Arr(SamplePotentialProviders), e) &&
      SafeLength(r.first) == 3 && SafeLength(r.second) == 3
  {
  }
}
