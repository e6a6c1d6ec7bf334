/** The login form: submit validates the reply, gates on role, stores the session and navigates. */
module Login {
  import opened Wrappers
  import opened Js
  import Storage
  import UserCodec
  import AuthService

  /** Roles that may complete login: narrower than the dashboard allow-list, and kept separate from it. */
  const LoginRoles: set<string> := {"super_admin", "admin_head"}

  const InvalidResponse: string := "Invalid response from server."
  const NotAuthorized: string := "Access denied: You are not authorized to use this portal."
  const LoginFailed: string := "Login failed. Try again."
  const LandingPath: string := "/dashboard"

  datatype Navigation = Navigation(to: string, replace: bool)

  /** How a submit ends: the session to store, or the message to show. */
  datatype Outcome = Accepted(token: string, user: UserCodec.JsonUser) | Rejected(message: string)

  predicate LoginRoleAllowed(u: UserCodec.JsonUser) {
    u.Role().Some? && u.Role().value in LoginRoles
  }

  /** The catch block's message: the HTTP response's message, else the error's own, else a default. */
  function CatchMessage(e: JsError): (m: string)
    ensures m != ""
    ensures Present(e.responseMessage) ==> m == e.responseMessage.value
    ensures !Present(e.responseMessage) && e.message != "" ==> m == e.message
    ensures !Present(e.responseMessage) && e.message == "" ==> m == LoginFailed
  {
    if Present(e.responseMessage) then e.responseMessage.value
    else if e.message != "" then e.message
    else LoginFailed
  }

  /** The outcome of a submit, given how loginAdmin ended. Destructuring a null body throws
      and lands in the catch block. */
  function SubmitOutcome(call: Call<AuthService.LoginData>): (o: Outcome)
    ensures o.Accepted? <==>
      call.Returned? && call.value.LoginData? && Present(call.value.token)
      && call.value.user.Truthy() && LoginRoleAllowed(call.value.user)
    ensures o.Accepted? ==> o.token == call.value.token.value && o.user == call.value.user
    ensures (call.Returned? && call.value.LoginData?
             && (!Present(call.value.token) || !call.value.user.Truthy())) ==> o == Rejected(InvalidResponse)
    ensures (call.Returned? && call.value.LoginData? && Present(call.value.token)
             && call.value.user.Truthy() && !LoginRoleAllowed(call.value.user)) ==> o == Rejected(NotAuthorized)
    ensures call.Threw? ==> o == Rejected(CatchMessage(call.error))
  {
    match call
    case Threw(e) => Rejected(CatchMessage(e))
    case Returned(data) =>
      match data
      case NullData => Rejected(CatchMessage(JsError(NullPropertyMessage, None)))
      case LoginData(token, user, _) =>
        if !user.Truthy() || !Present(token) then Rejected(InvalidResponse)
        else if !LoginRoleAllowed(user) then Rejected(NotAuthorized)
        else Accepted(token.value, user)
  }

  /** Every role admitted at login has a name and is one of the two login roles. */
  lemma AcceptedRoleIsLoginRole(call: Call<AuthService.LoginData>)
    requires SubmitOutcome(call).Accepted?
    ensures SubmitOutcome(call).user.Record? && SubmitOutcome(call).user.profile.role.Some?
    ensures SubmitOutcome(call).user.profile.role.value in LoginRoles
    ensures SubmitOutcome(call).token != ""
  {
  }

  class LoginForm {
    var identifier: string
    var password: string
    var loading: bool
    var error: string
    var navigation: Option<Navigation>

    constructor ()
      ensures identifier == "" && password == "" && !loading && error == "" && navigation == None
    {
      identifier, password, loading, error, navigation := "", "", false, "", None;
    }

    /** An error carried in the navigation state is shown as the form error. */
    method ShowStateError(stateError: Option<string>)
      modifies this
      ensures error == if Present(stateError) then stateError.value else old(error)
      ensures identifier == old(identifier) && password == old(password)
      ensures loading == old(loading) && navigation == old(navigation)
    {
      if Present(stateError) {
        error := stateError.value;
      }
    }

    /** The submit button is enabled only while no submit is in flight. */
    predicate SubmitEnabled()
      reads this
    {
      !loading
    }

    /** Both inputs carry `required`: the browser submits the form only when neither is empty. */
    predicate FieldsFilled()
      reads this
    {
      identifier != "" && password != ""
    }

    /** Starting a submit: with the button disabled or a required field empty nothing happens;
        otherwise the error is cleared, loading is set, and the trimmed credentials are posted. */
    method Submit() returns (sent: Option<AuthService.LoginRequest>)
      modifies this
      ensures sent.Some? <==> old(SubmitEnabled()) && old(FieldsFilled())
      ensures sent.Some? ==> sent.value == AuthService.BuildLoginRequest(identifier, password)
      ensures sent.Some? ==> error == "" && loading && !SubmitEnabled()
      ensures sent.None? ==> error == old(error) && loading == old(loading)
      ensures identifier == old(identifier) && password == old(password) && navigation == old(navigation)
    {
      if !loading && identifier != "" && password != "" {
        error := "";
        loading := true;
        sent := Some(AuthService.BuildLoginRequest(identifier, password));
      } else {
        sent := None;
      }
    }

    /** Settling an in-flight submit with the server's reply. On acceptance the token and the
        serialised user are stored and the app navigates to the landing page, replacing history;
        otherwise only the error changes. Loading ends either way; the fields are kept. */
    method Complete(ls: Storage.KeyValueStore, reply: FetchReply<AuthService.LoginData>)
      requires loading
      modifies this, ls
      ensures !loading
      ensures identifier == old(identifier) && password == old(password)
      ensures match SubmitOutcome(AuthService.LoginAdmin(reply))
        case Accepted(token, user) =>
          && ls.items == old(ls.items)[ "token" := token ][ "user" := UserCodec.Serialize(user) ]
          && navigation == Some(Navigation(LandingPath, true))
          && error == old(error)
        case Rejected(message) =>
          && ls.items == old(ls.items)
          && navigation == old(navigation)
          && error == message
    {
      var call := AuthService.LoginAdmin(reply);
      match call {
        case Threw(e) =>
          error := CatchMessage(e);
        case Returned(data) =>
          if data.NullData? {
            error := CatchMessage(JsError(NullPropertyMessage, None));
          } else if !data.user.Truthy() || !Present(data.token) {
            error := InvalidResponse;
          } else if !LoginRoleAllowed(data.user) {
            error := NotAuthorized;
          } else {
            ls.SetItem("token", data.token.value);
            ls.SetItem("user", UserCodec.Serialize(data.user));
            navigation := Some(Navigation(LandingPath, true));
          }
      }
      loading := false;
    }
  }
}
