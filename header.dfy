/** The top bar: page title, unread-notification indicator, stored-user display, and logout. */
module Header {
  import opened Wrappers
  import opened Js
  import Storage
  import UserCodec

  const PageTitles: map<string, string> := map[
    "dashboard" := "Dashboard",
    "services" := "Services",
    "delivery" := "Delivery Tracking",
    "providers" := "Service Providers",
    "support" := "Customer Support Team",
    "payments" := "Payment History",
    "accounts" := "Accounts",
    "complaint" := "Complaint",
    "settings" := "Settings"
  ]

  const DefaultTitle: string := "Dashboard"
  const DefaultName: string := "Admin"
  const LogoutTarget: string := "/login"

  /** `pageTitles[activePage] || "Dashboard"`: the nine known ids have their own title; any other id
      is titled like the dashboard. (Keys inherited from Object.prototype are not modelled.) */
  function PageTitle(activePage: string): (t: string)
    ensures t != ""
    ensures activePage in PageTitles ==> t == PageTitles[activePage]
    ensures t == DefaultTitle <==> activePage == "dashboard" || activePage !in PageTitles
  {
    var v := Storage.Lookup(PageTitles, activePage);
    if Present(v) then v.value else DefaultTitle
  }

  /** A notification as the header reads it: only the truthiness of its `read` flag. */
  datatype Notification = Notification(read: bool)

  /** The notifications' `read` flags, in order. */
  function ReadFlags(ns: seq<Notification>): (flags: seq<bool>)
    ensures |flags| == |ns|
  {
    seq(|ns|, i requires 0 <= i < |ns| => ns[i].read)
  }

  /** `filter(n => !n.read).length`: how many of the read flags are false. */
  function CountUnread(ns: seq<Notification>): (n: nat)
    ensures n == multiset(ReadFlags(ns))[false]
    ensures n <= |ns|
    ensures n == 0 <==> forall i :: 0 <= i < |ns| ==> ns[i].read
  {
    if ns == [] then 0
    else
      var rest := CountUnread(ns[1..]);
      assert forall i :: 1 <= i < |ns| ==> ns[i] == ns[1..][i - 1];
      assert ReadFlags(ns) == [ns[0].read] + ReadFlags(ns[1..]);
      (if ns[0].read then 0 else 1) + rest
  }

  /** `unreadCount`: 0 unless the list is an array; never more than the list's length. */
  function UnreadCount(list: JsList<Notification>): (n: nat)
    ensures n <= SafeLength(list)
    ensures list.NonArray? ==> n == 0
    ensures list.Arr? ==> n == multiset(ReadFlags(list.items))[false]
    ensures n > 0 <==> list.Arr? && exists i :: 0 <= i < |list.items| && !list.items[i].read
  {
    if list.Arr? then CountUnread(list.items) else 0
  }

  /** The red dot is shown exactly when something is unread. */
  predicate ShowsUnreadDot(list: JsList<Notification>) {
    UnreadCount(list) > 0
  }

  /** The notifications reply body: an array, null, or an object (any other value reads as an
      object without a `notifications` field). */
  datatype NotificationsBody = BodyArray(items: seq<Notification>) | BodyNull | BodyObject(notifications: JsList<Notification>)

  /** `Array.isArray(data) ? data : data.notifications || []`; reading a field of null throws (None). */
  function NormalizeNotifications(body: NotificationsBody): (r: Option<JsList<Notification>>)
    ensures r.None? <==> body.BodyNull?
    ensures body.BodyArray? ==> r == Some(Arr(body.items))
    ensures r.Some? ==> r.value.Arr? || r.value.truthy
    ensures body.BodyObject? && body.notifications.Arr? ==> r == Some(body.notifications)
    ensures body.BodyObject? && body.notifications.NonArray? && !body.notifications.truthy ==> r == Some(Arr([]))
    ensures body.BodyObject? && body.notifications.NonArray? && body.notifications.truthy ==> r == Some(body.notifications)
  {
    match body
    case BodyArray(items) => Some(Arr(items))
    case BodyNull => None
    case BodyObject(field) => Some(OrEmpty(field))
  }

  /** The avatar: the bundled default image or a stored URL. */
  datatype Image = DefaultAvatar | ImageUrl(url: string)

  function DisplayName(u: UserCodec.JsonUser): (name: string)
    ensures name != ""
    ensures u.Record? && Present(u.profile.name) ==> name == u.profile.name.value
    ensures !(u.Record? && Present(u.profile.name)) ==> name == DefaultName
  {
    if u.Record? && Present(u.profile.name) then u.profile.name.value else DefaultName
  }

  function DisplayImage(u: UserCodec.JsonUser): (img: Image)
    ensures img == DefaultAvatar <==> !(u.Record? && Present(u.profile.image))
    ensures u.Record? && Present(u.profile.image) ==> img == ImageUrl(u.profile.image.value)
  {
    if u.Record? && Present(u.profile.image) then ImageUrl(u.profile.image.value) else DefaultAvatar
  }

  class HeaderState {
    var notifications: JsList<Notification>
    var userName: string
    var userImage: Image

    constructor ()
      ensures notifications == Arr([]) && userName == DefaultName && userImage == DefaultAvatar
    {
      notifications, userName, userImage := Arr([]), DefaultName, DefaultAvatar;
    }

    /** Loads the stored user: `JSON.parse(getItem("user"))`. A missing entry parses as null and
        leaves the defaults; a malformed one throws (reported as `threw`) and changes nothing. */
    method LoadStoredUser(ls: Storage.KeyValueStore) returns (threw: bool)
      modifies this
      ensures threw <==> "user" in ls.items && UserCodec.Parse(ls.items["user"]).Malformed?
      ensures notifications == old(notifications)
      ensures "user" in ls.items && UserCodec.Parse(ls.items["user"]).Parsed?
              && UserCodec.Parse(ls.items["user"]).value.Truthy() ==>
        userName == DisplayName(UserCodec.Parse(ls.items["user"]).value)
        && userImage == DisplayImage(UserCodec.Parse(ls.items["user"]).value)
      ensures threw || "user" !in ls.items || !UserCodec.Parse(ls.items["user"]).value.Truthy() ==>
        userName == old(userName) && userImage == old(userImage)
    {
      var stored := ls.GetItem("user");
      threw := false;
      if stored.Some? {
        var parsed := UserCodec.Parse(stored.value);
        if parsed.Malformed? {
          threw := true;
        } else if parsed.value.Truthy() {
          userName := DisplayName(parsed.value);
          userImage := DisplayImage(parsed.value);
        }
      }
    }

    /** Applies the notifications fetch: a rejected request or a null body (whose field read throws
        and is caught) keeps the current list; otherwise the normalised list replaces it. */
    method ApplyNotifications(reply: Call<NotificationsBody>)
      modifies this
      ensures userName == old(userName) && userImage == old(userImage)
      ensures reply.Threw? || reply.value.BodyNull? ==> notifications == old(notifications)
      ensures reply.Returned? && !reply.value.BodyNull? ==>
        notifications == NormalizeNotifications(reply.value).value
    {
      if reply.Returned? {
        var normalized := NormalizeNotifications(reply.value);
        if normalized.Some? {
          notifications := normalized.value;
        }
      }
    }
  }

  /** The header's logout: removes "token" and "user" only, then goes to "/login". */
  method HandleLogout(ls: Storage.KeyValueStore) returns (target: string)
    modifies ls
    ensures ls.items == old(ls.items) - {"token", "user"}
    ensures target == LogoutTarget
  {
    ls.RemoveItem("token");
    ls.RemoveItem("user");
    target := LogoutTarget;
  }
}
