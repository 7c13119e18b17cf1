/** The login screen: a valid form posts admin e-mail credentials and
    navigates home on success, or shows the backend's message. */
module Login {
  import opened Values
  import opened Http
  import ApiService
  import AuthService

  datatype Screen = Screen(
    email: Option<string>,
    password: Option<string>,
    loading: bool,
    error: Option<string>,
    navigation: Option<seq<string>>)

  function Initial(): (s: Screen)
    ensures !s.loading && s.error.None? && s.email == Some("") && s.password == Some("")
  {
    Screen(Some(""), Some(""), false, None, None)
  }

  /** The form's validators: `email` required and well formed, `password`
      required and at least 6 characters. Whether the address is well formed
      is the e-mail validator's verdict, passed in as `emailWellFormed`. */
  predicate Valid(s: Screen, emailWellFormed: bool)
    ensures Valid(s, emailWellFormed) <==>
      emailWellFormed && s.email.Some? && s.email.value != ""
      && s.password.Some? && |s.password.value| >= 6
  {
    Truthy(s.email) && emailWellFormed && Truthy(s.password) && |s.password.value| >= 6
  }

  /** The credentials sent: the form's e-mail and password, `loginType`
      `email` and `role` `admin`. */
  function CredentialsOf(s: Screen): (c: AuthService.Credentials)
    requires Truthy(s.email) && Truthy(s.password)
    ensures c.email == s.email.value && c.password == s.password.value
    ensures c.loginType == "email" && c.role == "admin"
  {
    AuthService.Credentials(s.email.value, "email", "admin", s.password.value)
  }

  /** `onSubmit`, first half: an invalid form does nothing; otherwise the
      spinner comes on, the error is cleared and the login is posted. */
  function Submit(s: Screen, baseUrl: string, emailWellFormed: bool): (r: (Screen, Option<ApiService.Dispatch<AuthService.Credentials>>))
    ensures r.1.Some? <==> Valid(s, emailWellFormed)
    ensures !Valid(s, emailWellFormed) ==> r.0 == s
    ensures Valid(s, emailWellFormed) ==> r.0 == s.(loading := true, error := None)
    ensures Valid(s, emailWellFormed) ==> r.1.value == AuthService.LoginStart(baseUrl, CredentialsOf(s))
  {
    if Valid(s, emailWellFormed) then
      (s.(loading := true, error := None), Some(AuthService.LoginStart(baseUrl, CredentialsOf(s))))
    else (s, None)
  }

  /** `err.error?.message`: the message of the failed reply's payload, when
      there is one. */
  function PayloadMessage(reason: Reason): (m: Option<string>)
    ensures reason.Thrown? ==> m.None?
    ensures reason.Transport? && reason.error.payload.NoPayload? ==> m.None?
  {
    match reason
    case Thrown(_) => None
    case Transport(e) =>
      match e.payload
      case ClientEvent(msg) => Some(msg)
      case Json(msg) => msg
      case NoPayload => None
  }

  /** `onSubmit`, second half: success navigates home (the spinner stays on
      while the router leaves the screen); a failure shows the payload's
      message, or `Login failed`, and stops the spinner. */
  function SubmitFinish(s: Screen, outcome: Outcome<AuthService.User>): (r: Screen)
    ensures outcome.Next? ==> r == s.(navigation := Some(["/"]))
    ensures outcome.Error? ==> !r.loading && r.error == Some(StrOr(PayloadMessage(outcome.reason), "Login failed"))
    ensures outcome.Error? ==> r.navigation == s.navigation && r.email == s.email && r.password == s.password
  {
    match outcome
    case Next(_) => s.(navigation := Some(["/"]))
    case Error(e) => s.(loading := false, error := Some(StrOr(PayloadMessage(e), "Login failed")))
  }

  /** A failed login always leaves a non-empty error on the screen, and the
      backend's own message whenever it sent a non-empty one. */
  lemma FailureAlwaysExplained(s: Screen, e: HttpError, msg: string)
    ensures SubmitFinish(s, Error(Transport(e))).error.value != ""
    ensures e.payload == Http.Json(Some(msg)) && msg != "" ==>
      SubmitFinish(s, Error(Transport(e))).error == Some(msg)
  {
  }

  /** A submit followed by its reply, when the login succeeds, leaves the
      session holding the returned user and the screen on its way home. */
  lemma SubmitThenLogin(s: Screen, baseUrl: string, session: AuthService.Session, resp: AuthService.LoginResponse)
    requires Valid(s, true)
    ensures var (session', user) := AuthService.LoginFinish(session, Next(resp));
            SubmitFinish(Submit(s, baseUrl, true).0, user).navigation == Some(["/"])
            && session'.currentUser == Some(resp.user)
  {
  }
}
