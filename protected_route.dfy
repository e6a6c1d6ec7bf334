/** The route guard: redirect, revoke-and-redirect, or render the protected children. */
module ProtectedRoute {
  import opened Wrappers
  import opened Js
  import Storage
  import UserCodec
  import Auth

  const AccessDenied: string := "Access denied"

  /** What the guard renders: a redirect (path, history replace, error carried in the navigation
      state), the protected children, or nothing because the auth hook threw. */
  datatype Decision = Navigate(to: string, replace: bool, stateError: Option<string>) | RenderChildren | Throws

  const PlainRedirect: Decision := Navigate("/", true, None)
  const DeniedRedirect: Decision := Navigate("/", true, Some(AccessDenied))

  /** The guard's decision for a storage snapshot, characterised by what is stored. */
  function Decide(store: map<string, string>): (d: Decision)
    ensures d.Throws? <==> Auth.StoredUser(store).Malformed?
    ensures d == RenderChildren <==>
      Present(Storage.Lookup(store, "token")) && Auth.StoredUser(store).Parsed?
      && Auth.StoredUser(store).value.Truthy() && Auth.RoleAllowed(Auth.StoredUser(store).value)
    ensures d == DeniedRedirect <==>
      Present(Storage.Lookup(store, "token")) && Auth.StoredUser(store).Parsed?
      && Auth.StoredUser(store).value.Truthy() && !Auth.RoleAllowed(Auth.StoredUser(store).value)
    ensures !Present(Storage.Lookup(store, "token")) ==> d == PlainRedirect || d == Throws
    ensures d.Navigate? ==> d == PlainRedirect || d == DeniedRedirect
  {
    match Auth.UseAuth(true, store)
    case ParseThrows => Throws
    case Evaluated(a) =>
      if !a.isAuthenticated then PlainRedirect
      else if !a.isAuthorized then DeniedRedirect
      else RenderChildren
  }

  /** Runs the guard: storage changes only on the revoke branch, and then only "token" and "user" go. */
  method Guard(ls: Storage.KeyValueStore) returns (d: Decision)
    modifies ls
    ensures d == Decide(old(ls.items))
    ensures d == DeniedRedirect ==> ls.items == old(ls.items) - {"token", "user"}
    ensures d != DeniedRedirect ==> ls.items == old(ls.items)
  {
    var auth := Auth.ReadAuthState(ls, true);
    match auth
    case ParseThrows =>
      d := Throws;
    case Evaluated(a) =>
      if !a.isAuthenticated {
        d := PlainRedirect;
      } else if !a.isAuthorized {
        ls.RemoveItem("token");
        ls.RemoveItem("user");
        d := DeniedRedirect;
      } else {
        d := RenderChildren;
      }
  }

  /** After a revocation the guard, run again, sees no session: a plain redirect with no error. */
  lemma RevokedThenPlainRedirect(store: map<string, string>)
    requires Decide(store) == DeniedRedirect
    ensures Decide(store - {"token", "user"}) == PlainRedirect
  {
    var after := store - {"token", "user"};
    assert Storage.Lookup(after, "token") == None;
    assert Auth.StoredUser(after) == UserCodec.Parsed(UserCodec.Falsy);
  }

  /** Revocation touches only the two session keys. */
  lemma RevocationKeepsOtherKeys(store: map<string, string>, key: string)
    requires key != "token" && key != "user"
    ensures Storage.Lookup(store - {"token", "user"}, key) == Storage.Lookup(store, key)
  {
  }
}
