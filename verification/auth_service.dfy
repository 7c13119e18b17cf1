/** The authentication state: the token kept in browser storage under
    `auth_token` and the current user, set by a login and cleared by a logout. */
module AuthService {
  import opened Values
  import opened Http
  import ApiService

  const TokenKey := "auth_token"

  datatype User = User(id: string, email: string, name: string, role: string)

  datatype Credentials = Credentials(email: string, loginType: string, role: string, password: string)

  /** The body of a successful login reply. */
  datatype LoginResponse = LoginResponse(user: User, token: string)

  /** `storedToken` is the value of `auth_token` in storage; `navigation` the
      last route the service asked for. */
  datatype Session = Session(storedToken: Option<string>, currentUser: Option<User>, navigation: Option<seq<string>>)

  /** The constructor: whatever token storage holds stays, but no user is
      restored from it. */
  function Construct(stored: Option<string>): (s: Session)
    ensures s.storedToken == stored && s.currentUser.None? && s.navigation.None?
  {
    Session(stored, None, None)
  }

  /** `getToken`. */
  function Token(s: Session): Option<string> {
    s.storedToken
  }

  /** `isAuthenticated`: `!!getToken()`, so an empty stored string does not count. */
  predicate IsAuthenticated(s: Session)
    ensures IsAuthenticated(s) <==> s.storedToken.Some? && s.storedToken.value != ""
  {
    Truthy(Token(s))
  }

  /** `hasRole`: `currentUser?.role === role`, so without a current user no
      role is held, whatever the stored token. */
  predicate HasRole(s: Session, role: string)
    ensures s.currentUser.None? ==> !HasRole(s, role)
    ensures s.currentUser.Some? ==> (HasRole(s, role) <==> s.currentUser.value.role == role)
  {
    s.currentUser.Some? && s.currentUser.value.role == role
  }

  /** `getToken` reads what storage holds: whatever the session was built
      with, the token of the last login, nothing after a logout. */
  lemma TokenFollowsStorage(stored: Option<string>, s: Session, resp: LoginResponse)
    ensures Token(Construct(stored)) == stored
    ensures Token(LoginFinish(s, Next(resp)).0) == Some(resp.token)
    ensures Token(Logout(s)).None?
  {
  }

  /** A session restored from a stored token counts as authenticated while it
      knows no user, so it holds no role at all. */
  lemma AuthenticatedWithoutUser(stored: string, role: string)
    requires stored != ""
    ensures IsAuthenticated(Construct(Some(stored)))
    ensures Construct(Some(stored)).currentUser.None?
    ensures !HasRole(Construct(Some(stored)), role)
  {
  }

  /** `login`, first half: the credentials are posted to `/admin/login`. */
  function LoginStart(baseUrl: string, credentials: Credentials): (d: ApiService.Dispatch<Credentials>)
    ensures d == ApiService.Sent(Call(POST, baseUrl + "/admin/login", Some(credentials)), [])
  {
    ApiService.Post(baseUrl, "/admin/login", credentials)
  }

  /** `login`, second half: a reply stores its token, makes its user current
      and yields that user; a failure passes through and changes nothing. */
  function LoginFinish(s: Session, outcome: Outcome<LoginResponse>): (r: (Session, Outcome<User>))
    ensures outcome.Next? ==> r.0 == s.(storedToken := Some(outcome.value.token), currentUser := Some(outcome.value.user))
    ensures outcome.Next? ==> r.1 == Next(outcome.value.user)
    ensures outcome.Error? ==> r == (s, Error(outcome.reason))
  {
    match outcome
    case Next(resp) => (s.(storedToken := Some(resp.token), currentUser := Some(resp.user)), Next(resp.user))
    case Error(e) => (s, Error(e))
  }

  /** After a login the session is authenticated exactly when the token
      received is non-empty, and holds the role of the user received. */
  lemma LoginAuthenticates(s: Session, resp: LoginResponse)
    ensures IsAuthenticated(LoginFinish(s, Next(resp)).0) <==> resp.token != ""
    ensures HasRole(LoginFinish(s, Next(resp)).0, resp.user.role)
    ensures LoginFinish(s, Next(resp)).1.value == LoginFinish(s, Next(resp)).0.currentUser.value
  {
  }

  /** `logout`: the token is removed, the user cleared, `/login` requested. */
  function Logout(s: Session): (r: Session)
    ensures r.storedToken.None? && r.currentUser.None?
    ensures r.navigation == Some(["/login"])
  {
    Session(None, None, Some(["/login"]))
  }

  /** After a logout no session is authenticated or holds any role, whatever
      preceded it; a logout undoes a login. */
  lemma LogoutUndoesLogin(s: Session, resp: LoginResponse, role: string)
    ensures !IsAuthenticated(Logout(s)) && !HasRole(Logout(s), role)
    ensures Logout(LoginFinish(s, Next(resp)).0) == Logout(s)
  {
  }
}
