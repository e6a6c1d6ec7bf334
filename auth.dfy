/** The auth hook: derives isAuthenticated and isAuthorized from the stored token and user. */
module Auth {
  import opened Wrappers
  import opened Js
  import Storage
  import UserCodec

  /** Roles admitted to the dashboard: four separate role names. */
  const AllowedRoles: set<string> :=
    {"super_admin", "admin_head", "admin_customer_service", "admin_agent_service"}

  /** `ALLOWED_ROLES.has(user.role)`. */
  predicate RoleAllowed(u: UserCodec.JsonUser) {
    u.Role().Some? && u.Role().value in AllowedRoles
  }

  datatype AuthState = AuthState(
    token: Option<string>,
    user: UserCodec.JsonUser,
    isAuthenticated: bool,
    isAuthorized: bool)

  /** The hook either evaluates or throws, because JSON.parse of the stored user is not guarded. */
  datatype AuthResult = Evaluated(state: AuthState) | ParseThrows

  /** The stored user as the hook reads it: an absent or empty entry is not parsed and reads as null. */
  function StoredUser(store: map<string, string>): (r: UserCodec.ParseResult)
    ensures !Present(Storage.Lookup(store, "user")) ==> r == UserCodec.Parsed(UserCodec.Falsy)
  {
    var userJson := Storage.Lookup(store, "user");
    if Present(userJson) then UserCodec.Parse(userJson.value) else UserCodec.Parsed(UserCodec.Falsy)
  }

  /** The hook's result for a storage snapshot; without a window nothing is read. */
  function UseAuth(hasWindow: bool, store: map<string, string>): (r: AuthResult)
    ensures !hasWindow ==> r.Evaluated? && !r.state.isAuthenticated && !r.state.isAuthorized
    ensures r.ParseThrows? <==> hasWindow && StoredUser(store).Malformed?
    ensures r.Evaluated? && r.state.isAuthenticated ==>
      Present(Storage.Lookup(store, "token")) && StoredUser(store).value.Truthy()
    ensures r.Evaluated? && r.state.isAuthorized ==>
      StoredUser(store).Parsed? && StoredUser(store).value.Truthy() && RoleAllowed(StoredUser(store).value)
  {
    if !hasWindow then
      Evaluated(AuthState(None, UserCodec.Falsy, false, false))
    else
      var token := Storage.Lookup(store, "token");
      match StoredUser(store)
      case Malformed => ParseThrows
      case Parsed(user) =>
        Evaluated(AuthState(token, user, Present(token) && user.Truthy(), user.Truthy() && RoleAllowed(user)))
  }

  /** Reading the auth state looks at storage and changes nothing. */
  method ReadAuthState(ls: Storage.KeyValueStore, hasWindow: bool) returns (r: AuthResult)
    ensures r == UseAuth(hasWindow, ls.items)
  {
    var token: Option<string> := None;
    var userJson: Option<string> := None;
    if hasWindow {
      token := ls.GetItem("token");
      userJson := ls.GetItem("user");
    }
    var parsed := if Present(userJson) then UserCodec.Parse(userJson.value) else UserCodec.Parsed(UserCodec.Falsy);
    if parsed.Malformed? {
      r := ParseThrows;
    } else {
      var user := parsed.value;
      r := Evaluated(AuthState(token, user, Present(token) && user.Truthy(), user.Truthy() && RoleAllowed(user)));
    }
  }

  /** Authenticated exactly when a non-empty token and a truthy user record are both stored. */
  lemma AuthenticatedIff(store: map<string, string>)
    requires UseAuth(true, store).Evaluated?
    ensures UseAuth(true, store).state.isAuthenticated <==>
      Present(Storage.Lookup(store, "token")) && StoredUser(store).value.Truthy()
  {
  }

  /** Authorized exactly when the stored user has an allowed role, whatever the token. */
  lemma AuthorizedIgnoresToken(store: map<string, string>, token: string)
    requires UseAuth(true, store).Evaluated?
    ensures UseAuth(true, store[ "token" := token ]).Evaluated?
    ensures UseAuth(true, store[ "token" := token ]).state.isAuthorized
      == UseAuth(true, store - {"token"}).state.isAuthorized
      == UseAuth(true, store).state.isAuthorized
    ensures UseAuth(true, store).state.isAuthorized <==>
      StoredUser(store).value.Truthy() && RoleAllowed(StoredUser(store).value)
  {
    assert StoredUser(store[ "token" := token ]) == StoredUser(store);
    assert StoredUser(store - {"token"}) == StoredUser(store);
  }

  /** With no token, or an empty one, the user is never authenticated. */
  lemma NoTokenNotAuthenticated(store: map<string, string>)
    requires !Present(Storage.Lookup(store, "token"))
    ensures UseAuth(true, store).Evaluated? ==> !UseAuth(true, store).state.isAuthenticated
  {
  }

  /** The allow-list holds separate role names; the comma-joined string is not one of them. */
  lemma CommaJoinedRoleNotAllowed()
    ensures "admin_head,admin_customer_service,admin_agent_service" !in AllowedRoles
    ensures |AllowedRoles| == 4
  {
  }
}
