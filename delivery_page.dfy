/**
 * The Delivery page: the map marker per status, the "last updated" wording, the status badge,
 * the fetch of active deliveries with its sample fallback, and the overview counts.
 */
module DeliveryPage {
  import opened Wrappers
  import opened Js
  import opened Text
  import opened AdminService

  /** The three marker icons (the icon objects themselves are not modelled). */
  datatype Icon = InTransitIcon | PendingIcon | DeliveredIcon

  /** `deliveryIcons[status] || deliveryIcons['In Transit']`: an exact, case-sensitive lookup. */
  function DeliveryIcon(status: Option<string>): (icon: Icon)
    ensures icon == PendingIcon <==> status == Some("Pending")
    ensures icon == DeliveredIcon <==> status == Some("Delivered")
    ensures icon == InTransitIcon <==> status != Some("Pending") && status != Some("Delivered")
  {
    if status == Some("Pending") then PendingIcon
    else if status == Some("Delivered") then DeliveredIcon
    else InTransitIcon
  }

  /** `formatLastUpdated(date)`, given whether the date is truthy, the whole minutes elapsed
      since it and its locale date text. Minutes may be negative for a date in the future. */
  function FormatLastUpdated(hasDate: bool, diffMinutes: int, localeDate: string): (r: string)
    ensures !hasDate ==> r == "Unknown"
    ensures hasDate && diffMinutes < 1 ==> r == "Just now"
    ensures hasDate && 1 <= diffMinutes < 60 ==> r == NatToString(diffMinutes) + "m ago"
    ensures hasDate && 60 <= diffMinutes < 1440 ==>
      exists h: nat :: 1 <= h <= 23 && h * 60 <= diffMinutes < (h + 1) * 60 && r == NatToString(h) + "h ago"
    ensures hasDate && diffMinutes >= 1440 ==> r == localeDate
  {
    if !hasDate then "Unknown"
    else if diffMinutes < 1 then "Just now"
    else if diffMinutes < 60 then NatToString(diffMinutes) + "m ago"
    else if diffMinutes < 1440 then
      var h := diffMinutes / 60;
      assert 1 <= h <= 23 && h * 60 <= diffMinutes < (h + 1) * 60;
      NatToString(h) + "h ago"
    else localeDate
  }

  /** Two different minute counts under an hour never read alike. */
  lemma {:induction false} MinuteLabelsDistinct(d1: int, d2: int, date: string)
    requires 1 <= d1 < 60 && 1 <= d2 < 60
    requires FormatLastUpdated(true, d1, date) == FormatLastUpdated(true, d2, date)
    ensures d1 == d2
  {
    var a, b := NatToString(d1), NatToString(d2);
    assert a + "m ago" == b + "m ago";
    assert |a| == |b|;
    assert a == (a + "m ago")[..|a|];
    assert b == (b + "m ago")[..|b|];
    NatToStringInjective(d1, d2);
  }

  /** The status badge: green for Delivered, blue for In Transit, yellow for anything else. */
  function BadgeColor(status: Option<string>): (c: string)
    ensures status == Some("Delivered") ==> c == "bg-green-100 text-green-800"
    ensures status == Some("In Transit") ==> c == "bg-blue-100 text-blue-800"
    ensures status != Some("Delivered") && status != Some("In Transit") ==> c == "bg-yellow-100 text-yellow-800"
  {
    if status == Some("Delivered") then "bg-green-100 text-green-800"
    else if status == Some("In Transit") then "bg-blue-100 text-blue-800"
    else "bg-yellow-100 text-yellow-800"
  }

  /** The deliveries' statuses, in order. */
  function Statuses(ds: seq<Entry>): (ss: seq<Option<string>>)
    ensures |ss| == |ds|
  {
    seq(|ds|, i requires 0 <= i < |ds| => ds[i].status)
  }

  /** `deliveries.filter(d => d.status === status).length`: how many times the status occurs
      among the deliveries' statuses. */
  function CountStatus(ds: seq<Entry>, status: string): (n: nat)
    ensures n == multiset(Statuses(ds))[Some(status)]
    ensures n <= |ds|
    ensures n == 0 <==> forall i :: 0 <= i < |ds| ==> ds[i].status != Some(status)
  {
    if ds == [] then 0
    else
      assert Statuses(ds) == [ds[0].status] + Statuses(ds[1..]);
      (if ds[0].status == Some(status) then 1 else 0) + CountStatus(ds[1..], status)
  }

  /** The overview's four numbers. */
  datatype Overview = Overview(inTransit: nat, pending: nat, delivered: nat, total: nat)

  /** The overview, or None when the deliveries are not an array and rendering it throws. */
  function OverviewOf(deliveries: JsList<Entry>): (o: Option<Overview>)
    ensures o.Some? <==> deliveries.Arr?
    ensures o.Some? ==> o.value.total == |deliveries.items|
    ensures o.Some? ==> o.value.inTransit == multiset(Statuses(deliveries.items))[Some("In Transit")]
                        && o.value.pending == multiset(Statuses(deliveries.items))[Some("Pending")]
                        && o.value.delivered == multiset(Statuses(deliveries.items))[Some("Delivered")]
    ensures o.Some? ==> o.value.inTransit <= o.value.total && o.value.pending <= o.value.total
                        && o.value.delivered <= o.value.total
  {
    match deliveries
    case NonArray(_) => None
    case Arr(ds) =>
      Some(Overview(CountStatus(ds, "In Transit"), CountStatus(ds, "Pending"), CountStatus(ds, "Delivered"), |ds|))
  }

  /** The three status counts never add up to more than the total: a delivery has one status. */
  lemma {:induction false} CountsWithinTotal(ds: seq<Entry>)
    ensures CountStatus(ds, "In Transit") + CountStatus(ds, "Pending") + CountStatus(ds, "Delivered") <= |ds|
  {
    if ds != [] {
      CountsWithinTotal(ds[1..]);
    }
  }

  const SampleDeliveries: seq<Entry> :=
    [Entry("DL-001", Some("In Transit")), Entry("DL-002", Some("Pending")), Entry("DL-003", Some("Delivered"))]

  const LoadFailure := "Failed to load delivery data"

  /** What a fetch decides: the deliveries shown and the error banner. */
  datatype Shown = Shown(deliveries: JsList<Entry>, error: Option<string>)

  /** `fetchDeliveries`' outcome. A null or undefined body makes `response.success` throw, which
      lands in the catch block like a rejected call. A successful body's `deliveries` is used
      as is, even when it is not an array. */
  function AfterFetch(call: Call<Body>, error: Option<string>): (r: Shown)
    ensures call.Threw? || call == Returned(Nullish) ==> r == Shown(Arr(SampleDeliveries), Some(LoadFailure))
    ensures call.Returned? && Succeeded(call.value) ==> r == Shown(Field(call.value, "deliveries"), error)
    ensures call.Returned? && call.value != Nullish && !Succeeded(call.value) ==> r == Shown(Arr(SampleDeliveries), error)
  {
    match call
    case Threw(_) => Shown(Arr(SampleDeliveries), Some(LoadFailure))
    case Returned(Nullish) => Shown(Arr(SampleDeliveries), Some(LoadFailure))
    case Returned(b) =>
      if Succeeded(b) then Shown(Field(b, "deliveries"), error) else Shown(Arr(SampleDeliveries), error)
  }

  class Delivery {
    var deliveries: JsList<Entry>
    var loading: bool
    var error: Option<string>

    constructor()
      ensures deliveries == Arr([]) && loading && error == None
    {
      deliveries := Arr([]);
      loading := true;
      error := None;
    }

    /** `fetchDeliveries`, given how `getActiveDeliveries` ends. */
    method FetchDeliveries(call: Call<Body>)
      modifies this
      ensures Shown(deliveries, error) == AfterFetch(call, old(error))
      ensures !loading
    {
      loading := true;
      match call {
        case Threw(_) =>
          error := Some(LoadFailure);
          deliveries := Arr(SampleDeliveries);
        case Returned(b) =>
          if b.Nullish? {
            error := Some(LoadFailure);
            deliveries := Arr(SampleDeliveries);
          } else if Succeeded(b) {
            deliveries := Field(b, "deliveries");
          } else {
            deliveries := Arr(SampleDeliveries);
          }
      }
      loading := false;
    }
  }

  /** When the backend fails, the banner shows and the overview counts one delivery per status. */
  lemma BackendDownShowsSamples(m: string, e: Option<string>)
    ensures AfterFetch(GetActiveDeliveries(Err(m)), e) == Shown(Arr(SampleDeliveries), Some(LoadFailure))
    ensures OverviewOf(Arr(SampleDeliveries)) == Some(Overview(1, 1, 1, 3))
  {
    assert SampleDeliveries[1..][1..][1..] == [];
  }

  /** A successful body without a `deliveries` array leaves a non-array in state, and rendering
      the overview then throws: the success branch does not fall back to []. */
  lemma SuccessWithoutListBreaksOverview(e: Option<string>)
    ensures OverviewOf(AfterFetch(Returned(ObjectBody(true, map[], None)), e).deliveries).None?
  {
  }
}
