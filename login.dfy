/** The login page: a schema-checked username and password, a hard-coded pair
    that logs in without the server, and otherwise a POST to the auth endpoint
    whose answer decides whether an access token is stored. */
module Login {
  import opened Common
  import opened Server

  datatype Credentials = Credentials(username: string, password: string)

  const BypassUsername: string := "tungnt@aptech"
  const BypassPassword: string := "123456789"

  const LoginPath: string := "/auth/login"
  const TokenKey: string := "access_token"

  /** The two navigation targets, as passed to the router (the first one relative). */
  const BypassTarget: string := "./main"
  const MainTarget: string := "/main"

  const LoginOk: string := "LOGIN OK"
  const AsyncOk: string := "LOGIN OK (ASYNC / AWAIT)"
  const AsyncFailed: string := "LOGIN FAILED (ASYNC / AWAIT)"
  const Failed401: string := "LOGIN FAILED (401)"
  const GenericFailure: string := "An error occurred during login. Please check the console for details."

  datatype LoginField = Username | Password

  /** The schema: the username is required and an email address (the address
      format is the parameter `isEmail`); the password is required and 3 to 20
      characters long. */
  function Violations(c: Credentials, isEmail: string -> bool): (failing: set<LoginField>)
    ensures Username in failing <==> c.username == "" || !isEmail(c.username)
    ensures Password in failing <==> |c.password| < 3 || 20 < |c.password|
  {
    (if c.username == "" || !isEmail(c.username) then {Username} else {})
    + (if c.password == "" || |c.password| < 3 || 20 < |c.password| then {Password} else {})
  }

  /** The hard-coded pair reaches the handler whenever the address check accepts its username. */
  lemma BypassPassesSchema(isEmail: string -> bool)
    requires isEmail(BypassUsername)
    ensures Violations(Credentials(BypassUsername, BypassPassword), isEmail) == {}
  {
    assert |BypassPassword| == 9;
  }

  predicate IsBypass(c: Credentials) {
    c.username == BypassUsername && c.password == BypassPassword
  }

  /** What the auth endpoint answers: whether a user is logged in, and the token. */
  datatype LoginBody = LoginBody(loggedInUser: bool, accessToken: string)

  /** A thrown error whose response carries status 401. */
  predicate Unauthorized(e: HttpError) {
    e.response.Some? && e.response.value.status == 401
  }

  /** What a submit did: blocked by the schema (the failing fields; the handler does
      not run), or handled, with the request it sent (if any), the alert it showed
      and where it navigated (if anywhere). */
  datatype LoginResult =
    | Blocked(failing: set<LoginField>)
    | Handled(request: Option<Request>, alert: string, navigation: Option<string>)

  /** The browser's localStorage. */
  class LocalStorage {
    var items: map<string, string>

    constructor (items: map<string, string>)
      ensures this.items == items
    {
      this.items := items;
    }

    method SetItem(key: string, value: string)
      modifies this
      ensures items == old(items)[key := value]
    {
      items := items[key := value];
    }
  }

  /** The submit handler. The hard-coded pair shows the OK alert and navigates
      without any request or token write. Any other pair is POSTed; a logged-in
      answer stores its token under `access_token` and navigates to the main page,
      any other answer or error only shows an alert. */
  method OnSubmit(storage: LocalStorage, c: Credentials, isEmail: string -> bool, reply: Reply<LoginBody>)
    returns (r: LoginResult)
    modifies storage
    ensures Violations(c, isEmail) != {} ==> r == Blocked(Violations(c, isEmail)) && unchanged(storage)
    ensures Violations(c, isEmail) == {} && IsBypass(c) ==>
              r == Handled(None, LoginOk, Some(BypassTarget)) && unchanged(storage)
    ensures Violations(c, isEmail) == {} && !IsBypass(c) ==>
              r.Handled? && r.request == Some(Request(Post, LoginPath))
    ensures Violations(c, isEmail) == {} && !IsBypass(c) && reply.Answered? && reply.body.loggedInUser ==>
              r.alert == AsyncOk && r.navigation == Some(MainTarget) &&
              storage.items == old(storage.items)[TokenKey := reply.body.accessToken]
    ensures Violations(c, isEmail) == {} && !IsBypass(c) && reply.Answered? && !reply.body.loggedInUser ==>
              r.alert == AsyncFailed && r.navigation == None && unchanged(storage)
    ensures Violations(c, isEmail) == {} && !IsBypass(c) && reply.Threw? ==>
              r.alert == (if Unauthorized(reply.error) then Failed401 else GenericFailure) &&
              r.navigation == None && unchanged(storage)
  {
    var failing := Violations(c, isEmail);
    if failing != {} {
      return Blocked(failing);
    }
    if c.username == BypassUsername && c.password == BypassPassword {
      return Handled(None, LoginOk, Some(BypassTarget));
    }
    var request := Request(Post, LoginPath);
    match reply
    case Answered(_, body) =>
      if body.loggedInUser {
        storage.SetItem(TokenKey, body.accessToken);
        r := Handled(Some(request), AsyncOk, Some(MainTarget));
      } else {
        r := Handled(Some(request), AsyncFailed, None);
      }
    case Threw(e) =>
      if e.response.Some? && e.response.value.status == 401 {
        r := Handled(Some(request), Failed401, None);
      } else {
        r := Handled(Some(request), GenericFailure, None);
      }
  }

  /** Only a logged-in answer from the server ever changes the stored token: two
      submits with the same credentials, the first refused, leave the token exactly
      as the second answer sets it. */
  method RefusedThenAccepted(storage: LocalStorage, c: Credentials, isEmail: string -> bool,
                             refused: Reply<LoginBody>, accepted: Reply<LoginBody>)
    returns (r1: LoginResult, r2: LoginResult)
    requires Violations(c, isEmail) == {} && !IsBypass(c)
    requires refused.Threw? || (refused.Answered? && !refused.body.loggedInUser)
    requires accepted.Answered? && accepted.body.loggedInUser
    modifies storage
    ensures r1.Handled? && r1.navigation == None
    ensures r2 == Handled(Some(Request(Post, LoginPath)), AsyncOk, Some(MainTarget))
    ensures storage.items == old(storage.items)[TokenKey := accepted.body.accessToken]
  {
    r1 := OnSubmit(storage, c, isEmail, refused);
    r2 := OnSubmit(storage, c, isEmail, accepted);
  }
}
