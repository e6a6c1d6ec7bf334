/**
 * Properties of the session lifecycle that span several files: what a login writes, what the
 * route guard then decides, and what each logout leaves behind.
 */
module Session {
  import opened Wrappers
  import Js
  import Storage
  import UserCodec
  import Auth
  import AuthService
  import Login
  import ProtectedRoute
  import Header
  import App
  import Sidebar

  /** Every role the login form admits is on the guard's allow-list. */
  lemma LoginRolesAllowed()
    ensures Login.LoginRoles <= Auth.AllowedRoles
  {
  }

  /** The storage a successful login writes makes the guard render the protected page, whatever
      else was stored before. */
  lemma {:induction false} LoginThenGuardGrants(store: map<string, string>, reply: Js.FetchReply<AuthService.LoginData>)
    requires Login.SubmitOutcome(AuthService.LoginAdmin(reply)).Accepted?
    ensures var o := Login.SubmitOutcome(AuthService.LoginAdmin(reply));
      ProtectedRoute.Decide(store["token" := o.token]["user" := UserCodec.Serialize(o.user)]) == ProtectedRoute.RenderChildren
  {
    var call := AuthService.LoginAdmin(reply);
    var o := Login.SubmitOutcome(call);
    Login.AcceptedRoleIsLoginRole(call);
    var after := store["token" := o.token]["user" := UserCodec.Serialize(o.user)];
    UserCodec.ParseSerialize(o.user);
    assert Storage.Lookup(after, "token") == Some(o.token);
    assert Storage.Lookup(after, "user") == Some(UserCodec.Serialize(o.user));
    assert Auth.StoredUser(after) == UserCodec.Parsed(o.user);
    assert Auth.RoleAllowed(o.user);
  }

  /** The guard admits "admin_agent_service" while the login form rejects it: such a session
      can only come from storage written by something other than the login form. */
  lemma AgentRoleGuardOnly(name: Option<string>, image: Option<string>)
    ensures var u := UserCodec.Record(UserCodec.Profile(Some("admin_agent_service"), name, image));
      Auth.RoleAllowed(u) && !Login.LoginRoleAllowed(u)
  {
  }

  /** After the header's logout the guard sends every protected path, "/login" included, to "/"
      with no error. */
  lemma HeaderLogoutThenRedirect(store: map<string, string>, path: string)
    requires path != "/"
    ensures App.Visit(path, store - {"token", "user"}) == App.Guarded(ProtectedRoute.PlainRedirect)
  {
    var after := store - {"token", "user"};
    assert Storage.Lookup(after, "token") == None;
    assert Auth.StoredUser(after) == UserCodec.Parsed(UserCodec.Falsy);
  }

  /** After the sidebar's default logout the same holds: no protected page renders. */
  lemma SidebarLogoutThenRedirect(store: map<string, string>, path: string)
    requires path != "/"
    ensures App.Visit(path, store - {"token", "user", "authToken"}) == App.Guarded(ProtectedRoute.PlainRedirect)
  {
    var after := store - {"token", "user", "authToken"};
    assert Storage.Lookup(after, "token") == None;
    assert Auth.StoredUser(after) == UserCodec.Parsed(UserCodec.Falsy);
  }

  /** Every main menu id has a header title, and every one but "dashboard" selects a page of its
      own rather than the dashboard fallback. */
  lemma MenuIdsCovered(i: nat)
    requires i < |Sidebar.MainItemIds|
    ensures Sidebar.MainItemIds[i] in Header.PageTitles
    ensures Sidebar.MainItemIds[i] != "dashboard" ==> App.RenderPage(Sidebar.MainItemIds[i]) != App.DashboardPage
  {
  }
}
