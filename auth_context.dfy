/**
 * The client's authentication context: the provider component's state slots and the
 * actions that update them. Each action runs the matching use case on the
 * repository's settlement (a parameter) and ends with `isLoading` false.
 */
module AuthContext {
  import opened Common
  import opened UserEntity
  import opened AuthEntities
  import AuthUseCases
  import opened ApiGateway

  /** `err instanceof Error ? err.message : fallback`. */
  function ErrorMessage(err: Thrown, fallback: string): (m: string)
    ensures err.IsError() ==> m == err.message
    ensures !err.IsError() ==> m == fallback
  {
    if err.IsError() then err.message else fallback
  }

  /** The message the `catch` of an action records for a use case's rejection. */
  function RejectionMessage<T>(r: Result<T, Thrown>, fallback: string): (m: string)
    ensures r.Err? ==> m == ErrorMessage(r.error, fallback)
  {
    if r.Err? then ErrorMessage(r.error, fallback) else fallback
  }

  class AuthProvider {
    var user: Option<User>
    var isAuthenticated: bool
    var isLoading: bool
    var status: AuthStatus
    var error: Option<string>
    const api: ApiService

    /** Unauthenticated means signed out; authenticated means the flag is set. */
    predicate Consistent()
      reads this
    {
      (status == UNAUTHENTICATED ==> !isAuthenticated && user.None?) &&
      (status == AUTHENTICATED ==> isAuthenticated)
    }

    /** The initial state: no user, not authenticated, loading. */
    constructor (api: ApiService)
      ensures this.api == api
      ensures user == None && !isAuthenticated && isLoading && status == LOADING && error == None
      ensures Consistent()
    {
      this.api := api;
      user := None;
      isAuthenticated := false;
      isLoading := true;
      status := LOADING;
      error := None;
    }

    /**
     * `initializeAuth()`: `initOutcome` is how the repository's `initialize()` settled,
     * `currentUser` and `token` what the repository reports right after. The use case
     * swallows every failure, so the `catch` branch never runs and ERROR is not reached.
     */
    method InitializeAuth(initOutcome: Result<bool, Thrown>, currentUser: Option<User>, token: Option<string>)
      modifies this, api
      ensures !isLoading && status != ERROR && error == None && Consistent()
      ensures initOutcome == Ok(true) ==> status == AUTHENTICATED && isAuthenticated && user == currentUser
      ensures initOutcome == Ok(true) && Truthy(token) ==> api.GetCurrentAuthHeader() == Some("Bearer " + token.value)
      ensures initOutcome == Ok(true) && !Truthy(token) ==> api.defaultAuthorization == old(api.defaultAuthorization)
      ensures initOutcome != Ok(true) ==> status == UNAUTHENTICATED && user == None && api.GetCurrentAuthHeader() == None
      ensures api.authRepository == old(api.authRepository)
    {
      isLoading := true;
      status := LOADING;
      error := None;

      var authenticated := AuthUseCases.InitializeAuth(initOutcome);
      var newUser, newAuthenticated, newStatus, newError := user, isAuthenticated, status, error;
      if authenticated.Ok? && authenticated.value {
        newUser, newAuthenticated, newStatus := currentUser, true, AUTHENTICATED;
        if Truthy(token) {
          api.SetAuthToken(token.value);
        }
      } else if authenticated.Ok? {
        newUser, newAuthenticated, newStatus := None, false, UNAUTHENTICATED;
        api.ClearAuthToken();
      } else {
        // catch
        newError := Some(RejectionMessage(authenticated, "Authentication initialization failed"));
        newStatus, newAuthenticated, newUser := ERROR, false, None;
      }
      user, isAuthenticated, status, error := newUser, newAuthenticated, newStatus, newError;
      isLoading := false;
    }

    /**
     * The listener registered with `onAuthStateChanged`: the state is replaced from the
     * session, or cleared by null, and the API header follows it.
     */
    method OnAuthStateChanged(session: Option<AuthSession>)
      modifies this, api
      ensures !isLoading && error == old(error)
      ensures session.Some? ==> user == Some(session.value.user) && isAuthenticated == session.value.isAuthenticated &&
                                status == AUTHENTICATED && api.GetCurrentAuthHeader() == Some("Bearer " + session.value.token.accessToken)
      ensures session.None? ==> user == None && !isAuthenticated && status == UNAUTHENTICATED && api.GetCurrentAuthHeader() == None
      ensures session.None? || session.value.isAuthenticated ==> Consistent()
      ensures api.authRepository == old(api.authRepository)
    {
      if session.Some? {
        user := Some(session.value.user);
        isAuthenticated := session.value.isAuthenticated;
        status := AUTHENTICATED;
        api.SetAuthToken(session.value.token.accessToken);
      } else {
        user := None;
        isAuthenticated := false;
        status := UNAUTHENTICATED;
        api.ClearAuthToken();
      }
      isLoading := false;
    }

    /**
     * `login()` over the repository's login settlement: success authenticates with the
     * session's user; failure records the message and ERROR and keeps user and flag.
     */
    method Login(loginOutcome: Result<AuthSession, Thrown>)
      modifies this
      ensures !isLoading && Consistent()
      ensures AuthUseCases.Login(loginOutcome).Ok? ==>
        user == Some(loginOutcome.value.user) && isAuthenticated && status == AUTHENTICATED && error == None
      ensures AuthUseCases.Login(loginOutcome).Err? ==>
        status == ERROR && error == Some(AuthUseCases.Login(loginOutcome).error.message) &&
        user == old(user) && isAuthenticated == old(isAuthenticated)
    {
      isLoading := true;
      error := None;
      var session := AuthUseCases.Login(loginOutcome);
      if session.Ok? {
        user := Some(session.value.user);
        isAuthenticated := session.value.isAuthenticated;
        status := AUTHENTICATED;
      } else {
        error := Some(ErrorMessage(session.error, "Login failed"));
        status := ERROR;
      }
      isLoading := false;
    }

    /** `logout()`: the use case never fails, so the state always ends signed out. */
    method Logout(logoutOutcome: Result<(), Thrown>)
      modifies this
      ensures !isLoading && user == None && !isAuthenticated && status == UNAUTHENTICATED && error == None
      ensures Consistent()
    {
      isLoading := true;
      error := None;
      var done := AuthUseCases.Logout(logoutOutcome);
      var newUser, newAuthenticated, newStatus, newError := user, isAuthenticated, status, error;
      if done.Ok? {
        newUser, newAuthenticated, newStatus := None, false, UNAUTHENTICATED;
      } else {
        // catch
        newError := Some(RejectionMessage(done, "Logout failed"));
      }
      user, isAuthenticated, status, error := newUser, newAuthenticated, newStatus, newError;
      isLoading := false;
    }

    /** `register()`: failure sets the message and ERROR; success changes neither user nor status. */
    method Register(registerOutcome: Result<(), Thrown>)
      modifies this
      ensures !isLoading && user == old(user) && isAuthenticated == old(isAuthenticated)
      ensures registerOutcome.Ok? ==> status == old(status) && error == None
      ensures registerOutcome.Err? ==> status == ERROR && error == Some(AuthUseCases.RegistrationFailed.message)
    {
      isLoading := true;
      error := None;
      var done := AuthUseCases.Register(registerOutcome);
      if done.Err? {
        error := Some(ErrorMessage(done.error, "Registration failed"));
        status := ERROR;
      }
      isLoading := false;
    }

    /** `clearError()`: only the error is reset. */
    method ClearError()
      modifies this`error
      ensures error == None
    {
      error := None;
    }
  }
}
