/**
 * The authentication use cases: each one awaits a single call on the authentication
 * repository and translates what it throws. The repository call's settlement is the
 * parameter `outcome`; a use case's own settlement is its result.
 */
module AuthUseCases {
  import opened Common
  import opened AuthEntities

  const LoginFailed := AuthenticationError("Login failed", "LOGIN_FAILED", None)
  const LoginError := AuthenticationError("An unexpected error occurred during login", "LOGIN_ERROR", Some(500))
  const RegistrationFailed := AuthenticationError("Registration failed. Please try again.", "REGISTRATION_FAILED", None)
  const TokenRefreshFailed := AuthenticationError("Failed to refresh authentication token", "TOKEN_REFRESH_FAILED", None)

  /**
   * `LoginUseCase.execute`: an unauthenticated session is refused inside the `try`, an
   * `AuthenticationError` leaves the `catch` unchanged and anything else becomes `LOGIN_ERROR`.
   */
  function Login(outcome: Result<AuthSession, Thrown>): (r: Result<AuthSession, Thrown>)
    ensures r.Ok? <==> outcome.Ok? && outcome.value.isAuthenticated
    ensures r.Ok? ==> r == outcome
    ensures outcome.Ok? && !outcome.value.isAuthenticated ==> r == Err(LoginFailed)
    ensures outcome.Err? && outcome.error.AuthenticationError? ==> r == outcome
    ensures outcome.Err? && !outcome.error.AuthenticationError? ==> r == Err(LoginError)
    ensures r.Err? ==> r.error.AuthenticationError?
  {
    var attempt :=
      if outcome.Err? then outcome
      else if !outcome.value.isAuthenticated then Err(LoginFailed)
      else outcome;
    if attempt.Err? && !attempt.error.AuthenticationError? then Err(LoginError) else attempt
  }

  /** `LogoutUseCase.execute`: a failed repository logout is logged and swallowed. */
  function Logout(outcome: Result<(), Thrown>): (r: Result<(), Thrown>)
    ensures r.Ok?
  {
    match outcome
    case Ok(_) => outcome
    case Err(_) => Ok(())
  }

  /** `RegisterUseCase.execute`: every failure becomes `REGISTRATION_FAILED`. */
  function Register(outcome: Result<(), Thrown>): (r: Result<(), Thrown>)
    ensures r.Ok? <==> outcome.Ok?
    ensures r.Err? ==> r.error == RegistrationFailed
  {
    match outcome
    case Ok(_) => outcome
    case Err(_) => Err(RegistrationFailed)
  }

  /** `InitializeAuthUseCase.execute`: resolves to the repository's flag, or to false when it rejects. */
  function InitializeAuth(outcome: Result<bool, Thrown>): (r: Result<bool, Thrown>)
    ensures r.Ok?
    ensures r.value <==> outcome == Ok(true)
  {
    match outcome
    case Ok(authenticated) => Ok(authenticated)
    case Err(_) => Ok(false)
  }

  /**
   * `CheckAuthStatusUseCase.execute` over the repository's `getCurrentSession()`, which
   * may throw (`session` is then an error): the use case has no `try`, so the exception
   * reaches its caller unchanged.
   */
  function CheckAuthStatus(session: Result<Option<AuthSession>, Thrown>): (r: Result<AuthStatus, Thrown>)
    ensures r.Err? <==> session.Err?
    ensures session.Err? ==> r == Err(session.error)
    ensures r == Ok(AUTHENTICATED) <==> session.Ok? && session.value.Some? && session.value.value.isAuthenticated
    ensures r.Ok? ==> r.value == AUTHENTICATED || r.value == UNAUTHENTICATED
  {
    match session
    case Err(e) => Err(e)
    case Ok(current) =>
      if current.None? then Ok(UNAUTHENTICATED)
      else if current.value.isAuthenticated then Ok(AUTHENTICATED)
      else Ok(UNAUTHENTICATED)
  }

  /** `RefreshTokenUseCase.execute`: every failure becomes `TOKEN_REFRESH_FAILED`. */
  function RefreshToken(outcome: Result<string, Thrown>): (r: Result<string, Thrown>)
    ensures r.Ok? <==> outcome.Ok?
    ensures r.Ok? ==> r == outcome
    ensures r.Err? ==> r.error == TokenRefreshFailed
  {
    match outcome
    case Ok(_) => outcome
    case Err(_) => Err(TokenRefreshFailed)
  }
}
