/**
 * The Services page: the status badge's colour and label, and the fetch of service requests and
 * delivery details with its sample-data fallback.
 */
module ServicesPage {
  import opened Wrappers
  import opened Js
  import opened Text
  import opened AdminService
  import opened ListFetch

  const GreenBadge := "text-green-600 bg-green-50 border border-green-200"
  const YellowBadge := "text-yellow-600 bg-yellow-50 border border-yellow-200"
  const OrangeBadge := "text-orange-600 bg-orange-50 border border-orange-200"
  const RedBadge := "text-red-600 bg-red-50 border border-red-200"
  const GrayBadge := "text-gray-600 bg-gray-50 border border-gray-200"

  /** The badge classes of each lower-cased status the colour switch names. */
  const BadgeColors: map<string, string> := map[
    "completed" := GreenBadge, "success" := GreenBadge,
    "in progress" := YellowBadge, "active" := YellowBadge, "accepted" := YellowBadge,
    "pending" := OrangeBadge,
    "cancelled" := RedBadge, "failed" := RedBadge, "rejected" := RedBadge]

  /** The label of each lower-cased status the label switch names. */
  const Labels: map<string, string> := map[
    "success" := "Completed",
    "active" := "In Progress", "accepted" := "In Progress",
    "pending" := "Pending",
    "cancelled" := "Cancelled",
    "failed" := "Failed"]

  /** `getStatusColor(status)`: switches on `status?.toLowerCase()`; an absent status is gray. */
  function StatusColor(status: Option<string>): (c: string)
    ensures status.None? ==> c == GrayBadge
    ensures status.Some? && ToLower(status.value) in BadgeColors ==> c == BadgeColors[ToLower(status.value)]
    ensures status.Some? && ToLower(status.value) !in BadgeColors ==> c == GrayBadge
  {
    if status.Some? && ToLower(status.value) in BadgeColors then BadgeColors[ToLower(status.value)] else GrayBadge
  }

  /** `formatStatus(status)`: the label of a known status, else the status exactly as given. */
  function FormatStatus(status: Option<string>): (shown: Option<string>)
    ensures status.None? ==> shown.None?
    ensures status.Some? && ToLower(status.value) in Labels ==> shown == Some(Labels[ToLower(status.value)])
    ensures status.Some? && ToLower(status.value) !in Labels ==> shown == status
  {
    if status.Some? && ToLower(status.value) in Labels then Some(Labels[ToLower(status.value)]) else status
  }

  /** Colour and label ignore letter case. */
  lemma {:induction false} StatusCaseInsensitive(s: string)
    ensures StatusColor(Some(s)) == StatusColor(Some(ToLower(s)))
    ensures ToLower(s) in Labels ==> FormatStatus(Some(s)) == FormatStatus(Some(ToLower(s)))
  {
    ToLowerIdempotent(s);
  }

  /** Every status the label switch renames gets a colour, and the colour agrees with what the
      label says: Completed is green, In Progress yellow, Pending orange, Cancelled and Failed red. */
  lemma LabelsAgreeWithColors(k: string)
    requires k in Labels
    ensures k in BadgeColors
    ensures Labels[k] == "Completed" ==> BadgeColors[k] == GreenBadge
    ensures Labels[k] == "In Progress" ==> BadgeColors[k] == YellowBadge
    ensures Labels[k] == "Pending" ==> BadgeColors[k] == OrangeBadge
    ensures Labels[k] == "Cancelled" || Labels[k] == "Failed" ==> BadgeColors[k] == RedBadge
  {
  }

  const SampleServiceRequests: seq<Entry> :=
    [Entry("IP-001", Some("In progress")), Entry("IP-002", Some("Completed")), Entry("IP-003", Some("Pending"))]

  /** The sample delivery details carry no status. */
  const SampleDeliveryDetails: seq<Entry> := [Entry("RP-267", None), Entry("RP-268", None)]

  const LoadFailure := "Failed to load services data"

  const Config := PageConfig("serviceRequests", SampleServiceRequests,
                             "deliveryDetails", SampleDeliveryDetails, LoadFailure)

  class Services {
    var serviceRequests: JsList<Entry>
    var deliveryDetails: JsList<Entry>
    var loadingRequests: bool
    var loadingDeliveries: bool
    var error: Option<string>
    var filterStatus: string

    constructor()
      ensures serviceRequests == Arr([]) && deliveryDetails == Arr([])
      ensures loadingRequests && loadingDeliveries
      ensures error == None && filterStatus == ""
    {
      serviceRequests := Arr([]);
      deliveryDetails := Arr([]);
      loadingRequests := true;
      loadingDeliveries := true;
      error := None;
      filterStatus := "";
    }

    /** `fetchData`, given how `getServiceRequests` and `getDeliveryDetails` end. */
    method FetchData(requests: Call<Body>, deliveries: Call<Body>)
      modifies this
      ensures Lists(serviceRequests, deliveryDetails, error) == AfterFetch(Config, requests, deliveries, old(error))
      ensures !loadingRequests && !loadingDeliveries
      ensures filterStatus == old(filterStatus)
    {
      match requests {
        case Threw(_) =>
          error := Some(LoadFailure);
          serviceRequests := Arr(SampleServiceRequests);
          deliveryDetails := Arr(SampleDeliveryDetails);
        case Returned(r) =>
          serviceRequests := PickList(r, "serviceRequests", SampleServiceRequests);
          match deliveries {
            case Threw(_) =>
              error := Some(LoadFailure);
              serviceRequests := Arr(SampleServiceRequests);
              deliveryDetails := Arr(SampleDeliveryDetails);
            case Returned(d) =>
              deliveryDetails := PickList(d, "deliveryDetails", SampleDeliveryDetails);
          }
      }
      loadingRequests := false;
      loadingDeliveries := false;
    }

    /** The filter select's change handler; the effect refetches exactly when the value changed. */
    method SetFilter(status: string) returns (refetch: Option<Query>)
      modifies this
      ensures filterStatus == status
      ensures serviceRequests == old(serviceRequests) && deliveryDetails == old(deliveryDetails)
      ensures loadingRequests == old(loadingRequests) && loadingDeliveries == old(loadingDeliveries)
      ensures error == old(error)
      ensures refetch.Some? <==> status != old(filterStatus)
      ensures refetch.Some? ==> refetch.value == FilterQuery(status)
    {
      refetch := if status != filterStatus then Some(Query(50, status)) else None;
      filterStatus := status;
    }
  }

  /** `getServiceRequests` and `getDeliveryDetails` never reject, so with them the catch block is
      never entered and the fetch never shows "Failed to load services data" of its own accord. */
  lemma WrappedFetchKeepsError(h1: HttpResult, h2: HttpResult, e: Option<string>)
    ensures AfterFetch(Config, Returned(GetServiceRequests(h1)), Returned(GetDeliveryDetails(h2)), e).error == e
  {
  }

  /** A backend whose two calls fail shows the three sample requests and the two sample deliveries. */
  lemma BackendDownShowsSamples(m1: string, m2: string, e: Option<string>)
    ensures var r := AfterFetch(Config, Returned(GetServiceRequests(Err(m1))), Returned(GetDeliveryDetails(Err(m2))), e);
      r == Lists(Arr(SampleServiceRequests), Arr(SampleDeliveryDetails), e) &&
      SafeLength(r.first) == 3 && SafeLength(r.second) == 2
  {
  }
}
