/** The login call: trims the credentials, posts them, and classifies the reply. */
module AuthService {
  import opened Wrappers
  import opened Js
  import Text
  import UserCodec

  const LoginPath: string := "/api/auth/login"

  /** The request loginAdmin sends (the host name is not modelled). */
  datatype LoginRequest = LoginRequest(
    httpMethod: string, path: string, contentType: string, identifier: string, password: string)

  /** The parsed reply body: `null`, or an object with the fields the login flow reads. */
  datatype LoginData =
    | NullData
    | LoginData(token: Option<string>, user: UserCodec.JsonUser, message: Option<string>)

  /** The request body carries both credentials trimmed. */
  function BuildLoginRequest(identifier: string, password: string): (req: LoginRequest)
    ensures req.httpMethod == "POST" && req.path == LoginPath && req.contentType == "application/json"
    ensures req.identifier == Text.Trim(identifier) && req.password == Text.Trim(password)
  {
    LoginRequest("POST", LoginPath, "application/json", Text.Trim(identifier), Text.Trim(password))
  }

  /** The credentials in the body carry no surrounding white space; trimming them again changes nothing. */
  lemma RequestCredentialsTrimmed(identifier: string, password: string)
    ensures var req := BuildLoginRequest(identifier, password);
      Text.Trim(req.identifier) == req.identifier && Text.Trim(req.password) == req.password
  {
    Text.TrimIdempotent(identifier);
    Text.TrimIdempotent(password);
  }

  /** Credentials padded with a space on each side (" admin@x.com ", " secret ") are sent without the padding. */
  lemma PaddedCredentialsTrimmed(id: string, pw: string)
    requires id != [] && !Text.IsSpace(id[0]) && !Text.IsSpace(id[|id| - 1])
    requires pw != [] && !Text.IsSpace(pw[0]) && !Text.IsSpace(pw[|pw| - 1])
    ensures BuildLoginRequest(" " + id + " ", " " + pw + " ").identifier == id
    ensures BuildLoginRequest(" " + id + " ", " " + pw + " ").password == pw
  {
    TrimPadded(id);
    TrimPadded(pw);
  }

  lemma TrimPadded(w: string)
    requires w != [] && !Text.IsSpace(w[0]) && !Text.IsSpace(w[|w| - 1])
    ensures Text.Trim(" " + w + " ") == w
  {
    TrimStartPadded(w);
    TrimEndPadded(w);
  }

  lemma TrimStartPadded(w: string)
    requires w != [] && !Text.IsSpace(w[0])
    ensures Text.TrimStart(" " + w + " ") == w + " "
  {
    var padded := " " + w + " ";
    assert padded[0] == ' ';
    assert padded[1..] == w + " ";
    assert (w + " ")[0] == w[0];
  }

  lemma TrimEndPadded(w: string)
    requires w != [] && !Text.IsSpace(w[|w| - 1])
    ensures Text.TrimEnd(w + " ") == w
  {
    var s := w + " ";
    assert s[|s| - 1] == ' ';
    assert s[..|s| - 1] == w;
  }

  /** loginAdmin: the parsed body of an ok reply is returned unchanged; anything else rejects, a
      network or parse error with its own message. */
  function LoginAdmin(reply: FetchReply<LoginData>): (r: Call<LoginData>)
    ensures r.Returned? <==> reply.Response? && reply.ok && reply.body.Parsed?
    ensures r.Returned? ==> r.value == reply.body.value
    ensures r.Threw? ==> r.error.responseMessage == None
    ensures reply.NetworkFailure? ==> r == Threw(JsError(reply.reason, None))
    ensures reply.Response? && reply.body.NotJson? ==> r == Threw(JsError(reply.body.reason, None))
    ensures reply.Response? && !reply.ok && reply.body.Parsed? && reply.body.value.LoginData? ==>
      r.error.message == (if Present(reply.body.value.message) then reply.body.value.message.value
                          else "HTTP " + Text.NatToString(reply.status))
  {
    match reply
    case NetworkFailure(reason) => Threw(JsError(reason, None))
    case Response(ok, status, body) =>
      match body
      case NotJson(reason) => Threw(JsError(reason, None))
      case Parsed(data) =>
        if ok then Returned(data)
        else match data
          case NullData => Threw(JsError(NullPropertyMessage, None))
          case LoginData(_, _, message) =>
            Threw(JsError(if Present(message) then message.value else "HTTP " + Text.NatToString(status), None))
  }

  /** A non-ok reply without a message reports its status, and different statuses give different messages. */
  lemma StatusMessagesDistinct(a: nat, b: nat)
    requires "HTTP " + Text.NatToString(a) == "HTTP " + Text.NatToString(b)
    ensures a == b
  {
    assert Text.NatToString(a) == ("HTTP " + Text.NatToString(a))[5..];
    Text.NatToStringInjective(a, b);
  }
}
