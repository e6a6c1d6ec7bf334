/**
 * The Dashboard page: fetching the overview with its error classification, the screen the page
 * shows, the opt-in sample data, the unused quick-stats fetch and the case status colours.
 */
module DashboardPage {
  import opened Wrappers
  import opened Js
  import opened Text
  import Storage

  /** The dashboard payload, kept abstract: the server's, or the built-in fallback. */
  datatype DashboardData = ServerDashboard(id: nat) | FallbackDashboard

  /** The overview body: null, some other non-object value, or an object. */
  datatype OverviewBody =
    | NullBody
    | OtherBody
    | OverviewObject(success: bool, dashboard: Option<DashboardData>, message: Option<string>)

  const NoTokenMessage := "No authentication token found. Please log in again."
  const UnauthorizedMessage := "Authentication failed. Please log in again."
  const ForbiddenMessage := "Access forbidden. " + "You do not have permission to view dashboard."
  const NotFoundMessage := "Dashboard endpoint not found. " + "Please check the API URL."
  const InvalidFormatMessage := "Invalid response format from server"

  /** The error thrown for a non-ok response status. */
  function StatusMessage(status: nat): (m: string)
    ensures status == 401 ==> m == UnauthorizedMessage
    ensures status == 403 ==> m == ForbiddenMessage
    ensures status == 404 ==> m == NotFoundMessage
    ensures status !in {401, 403, 404} ==> m == "Server error: " + NatToString(status)
  {
    if status == 401 then UnauthorizedMessage
    else if status == 403 then ForbiddenMessage
    else if status == 404 then NotFoundMessage
    else "Server error: " + NatToString(status)
  }

  /** The message names the status: different statuses never produce the same message. */
  lemma {:induction false} StatusMessageInjective(a: nat, b: nat)
    requires StatusMessage(a) == StatusMessage(b)
    ensures a == b
  {
    var p := "Server error: ";
    if a !in {401, 403, 404} && b !in {401, 403, 404} {
      var sa, sb := NatToString(a), NatToString(b);
      assert p + sa == p + sb;
      assert sa == (p + sa)[|p|..];
      assert sb == (p + sb)[|p|..];
      NatToStringInjective(a, b);
    } else if a !in {401, 403, 404} {
      assert StatusMessage(a)[0] == 'S';
      FixedMessageInitial(b);
    } else if b !in {401, 403, 404} {
      assert StatusMessage(b)[0] == 'S';
      FixedMessageInitial(a);
    }
  }

  /** The three fixed messages do not begin like "Server error: ". */
  lemma FixedMessageInitial(status: nat)
    requires status in {401, 403, 404}
    ensures StatusMessage(status)[0] != 'S'
  {
    if status == 401 {
      assert StatusMessage(status) == UnauthorizedMessage;
    } else if status == 403 {
      assert StatusMessage(status) == ForbiddenMessage;
    } else {
      assert StatusMessage(status) == NotFoundMessage;
    }
  }

  /** How one fetch ends: the dashboard is loaded, or an error message is shown. */
  datatype Outcome = Loaded(data: DashboardData) | Failed(message: string)

  /** `fetchDashboardData`'s outcome from the stored token and the exchange. A falsy token
      throws before any request; `data.success` on a null body throws a TypeError. */
  function FetchOutcome(token: Option<string>, reply: FetchReply<OverviewBody>): (o: Outcome)
    ensures !Present(token) ==> o == Failed(NoTokenMessage)
    ensures o.Loaded? <==>
      Present(token) && reply.Response? && reply.ok && reply.body.Parsed? &&
      reply.body.value.OverviewObject? && reply.body.value.success && reply.body.value.dashboard.Some?
    ensures o.Loaded? ==> o.data == reply.body.value.dashboard.value
    ensures Present(token) && reply.NetworkFailure? ==> o == Failed(reply.reason)
    ensures Present(token) && reply.Response? && !reply.ok ==> o == Failed(StatusMessage(reply.status))
    ensures Present(token) && reply.Response? && reply.ok && reply.body.NotJson? ==> o == Failed(reply.body.reason)
  {
    if !Present(token) then Failed(NoTokenMessage)
    else match reply
      case NetworkFailure(reason) => Failed(reason)
      case Response(ok, status, body) =>
        if !ok then Failed(StatusMessage(status))
        else match body
          case NotJson(reason) => Failed(reason)
          case Parsed(NullBody) => Failed(NullPropertyMessage)
          case Parsed(OtherBody) => Failed(InvalidFormatMessage)
          case Parsed(OverviewObject(success, dashboard, message)) =>
            if success && dashboard.Some? then Loaded(dashboard.value)
            else Failed(if Present(message) then message.value else InvalidFormatMessage)
  }

  /** An ok, parsed object that is not a success with a dashboard yields the server's message
      when it gives one, and the format message otherwise. */
  lemma RejectedBodyMessage(token: string, status: nat, b: OverviewBody)
    requires token != "" && b.OverviewObject? && !(b.success && b.dashboard.Some?)
    ensures FetchOutcome(Some(token), Response(true, status, Parsed(b))) ==
      Failed(if Present(b.message) then b.message.value else InvalidFormatMessage)
  {
  }

  /** What the page renders. */
  datatype Screen = Spinner | ErrorScreen(message: string) | Overview(liveData: bool)

  /** The quick-stats body: null, or an object whose `quickStats` is some value. */
  datatype QuickStatsBody = QuickNull | QuickObject(quickStats: JsValue)

  /** `fetchQuickStats` (defined, never called): `data.quickStats`, and null on any failure. */
  function FetchQuickStats(reply: FetchReply<QuickStatsBody>): (v: JsValue)
    ensures !(reply.Response? && reply.ok && reply.body.Parsed? && reply.body.value.QuickObject?) ==> v == Null
    ensures reply.Response? && reply.ok && reply.body.Parsed? && reply.body.value.QuickObject? ==>
      v == reply.body.value.quickStats
  {
    match reply
    case NetworkFailure(_) => Null
    case Response(ok, _, body) =>
      if !ok then Null
      else match body
        case NotJson(_) => Null
        case Parsed(QuickNull) => Null
        case Parsed(QuickObject(stats)) => stats
  }

  /** The quick-stats request reads "adminToken", a key the login never writes. */
  function QuickStatsAuthorization(store: map<string, string>): (h: string)
    ensures "adminToken" in store ==> h == "Bearer " + store["adminToken"]
    ensures "adminToken" !in store ==> h == "Bearer null"
  {
    "Bearer " + Storage.Lookup(store, "adminToken").GetOr("null")
  }

  /** `getStatusColor` for a recent case: an exact match on the status. */
  function CaseStatusColor(status: string): (c: string)
    ensures status == "Responded" ==> c == "bg-green-100 text-green-800"
    ensures status == "In Progress" ==> c == "bg-blue-100 text-blue-800"
    ensures status == "Resolved" ==> c == "bg-gray-100 text-gray-800"
    ensures status !in {"Responded", "In Progress", "Resolved"} ==> c == "bg-yellow-100 text-yellow-800"
  {
    if status == "Responded" then "bg-green-100 text-green-800"
    else if status == "In Progress" then "bg-blue-100 text-blue-800"
    else if status == "Resolved" then "bg-gray-100 text-gray-800"
    else "bg-yellow-100 text-yellow-800"
  }

  class Dashboard {
    var selectedTimeRange: string
    var dashboardData: Option<DashboardData>
    var loading: bool
    var error: Option<string>

    constructor()
      ensures selectedTimeRange == "week" && dashboardData == None && loading && error == None
    {
      selectedTimeRange := "week";
      dashboardData := None;
      loading := true;
      error := None;
    }

    /** `fetchDashboardData`, given the stored items and the exchange; `requested` tells
        whether a request went out. On failure the previous data is kept. */
    method FetchDashboardData(ls: Storage.KeyValueStore, reply: FetchReply<OverviewBody>) returns (requested: bool)
      modifies this
      ensures requested <==> Present(Storage.Lookup(ls.items, "token"))
      ensures !loading && selectedTimeRange == old(selectedTimeRange)
      ensures match FetchOutcome(Storage.Lookup(ls.items, "token"), reply)
        case Loaded(d) => dashboardData == Some(d) && error == None
        case Failed(m) => dashboardData == old(dashboardData) && error == Some(m)
    {
      loading := true;
      error := None;
      var token := ls.GetItem("token");
      requested := Present(token);
      var outcome := FetchOutcome(token, reply);
      match outcome {
        case Loaded(d) => dashboardData := Some(d);
        case Failed(m) => error := Some(m);
      }
      loading := false;
    }

    /** The "Use Sample Data" button. */
    method UseFallbackData()
      modifies this
      ensures dashboardData == Some(FallbackDashboard) && error == None
      ensures loading == old(loading) && selectedTimeRange == old(selectedTimeRange)
    {
      dashboardData := Some(FallbackDashboard);
      error := None;
    }

    /** The period selector; the effect refetches exactly when the value changed. */
    method SetTimeRange(range: string) returns (refetch: bool)
      modifies this
      ensures selectedTimeRange == range
      ensures dashboardData == old(dashboardData) && loading == old(loading) && error == old(error)
      ensures refetch <==> range != old(selectedTimeRange)
    {
      refetch := range != selectedTimeRange;
      selectedTimeRange := range;
    }
  }

  /** The page's screen: a spinner while loading, the error screen when an error is shown and
      no data is held, else the overview, with live data if any and the fallback otherwise. */
  function ScreenOf(loading: bool, error: Option<string>, data: Option<DashboardData>): (s: Screen)
    ensures loading ==> s == Spinner
    ensures s.ErrorScreen? <==> !loading && Present(error) && data.None?
    ensures s.ErrorScreen? ==> s.message == error.value
    ensures s.Overview? ==> s.liveData == data.Some?
  {
    if loading then Spinner
    else if Present(error) && data.None? then ErrorScreen(error.value)
    else Overview(data.Some?)
  }

  /** A first fetch that fails with a non-empty message shows the error screen (fallback data is
      never installed on its own); a failure after data has loaded keeps showing that data, and
      a success shows live data. */
  lemma ScreenAfterFetch(token: Option<string>, reply: FetchReply<OverviewBody>, held: Option<DashboardData>)
    ensures var o := FetchOutcome(token, reply);
      o.Failed? && o.message != "" && held.None? ==> ScreenOf(false, Some(o.message), held) == ErrorScreen(o.message)
    ensures var o := FetchOutcome(token, reply);
      o.Failed? && held.Some? ==> ScreenOf(false, Some(o.message), held) == Overview(true)
    ensures var o := FetchOutcome(token, reply);
      o.Loaded? ==> ScreenOf(false, None, Some(o.data)) == Overview(true)
  {
  }
}
