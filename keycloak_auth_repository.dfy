/**
 * The Keycloak adapter of the client: one-time initialisation shared by concurrent
 * callers, login/logout/register/refresh against the identity provider, the
 * claims-to-user mapping and two listener registries.
 *
 * The identity provider is an oracle: each provider call is given as a `Reply`,
 * i.e. how the call settled and the provider's state afterwards.
 */
module KeycloakAuth {
  import opened Common
  import opened UserEntity
  import opened AuthEntities
  import AuthUseCases

  /** The parsed access-token claims the adapter reads (`realmRoles` is `realm_access?.roles`). */
  datatype Claims = Claims(
    sub: Option<string>,
    preferredUsername: Option<string>,
    email: Option<string>,
    givenName: Option<string>,
    familyName: Option<string>,
    name: Option<string>,
    realmRoles: Option<seq<string>>,
    groups: Option<seq<string>>,
    organization: Option<string>,
    tenantId: Option<string>,
    emailVerified: Option<bool>,
    exp: Option<int>)

  /** The provider object's observable fields. */
  datatype ProviderState = ProviderState(
    authenticated: Option<bool>,
    token: Option<string>,
    tokenParsed: Option<Claims>,
    refreshToken: Option<string>,
    sessionId: Option<string>)

  /** A freshly constructed provider: nothing known yet. */
  const FreshProvider := ProviderState(None, None, None, None, None)

  /** How a provider call settled, and the provider's state once it had. */
  datatype Reply<T> = Reply(outcome: Result<T, Thrown>, after: ProviderState)

  /** The provider calls the adapter makes. */
  datatype ProviderCall = Init | LoginRedirect | LogoutRedirect | RegisterRedirect | UpdateToken(minValidity: int)

  /** `initializationPromise`: absent, in flight, or settled with its value. */
  datatype InitPromise = NoPromise | Pending | Settled(value: Result<bool, Thrown>)

  /** What `initialize()` hands its caller: a value at once, or the shared in-flight promise. */
  datatype InitCall = Returned(flag: bool) | AwaitShared

  const InitFailed := AuthenticationError("Failed to initialize authentication service", "INIT_FAILED", None)
  const LoginFailed := AuthenticationError("Login failed", "LOGIN_FAILED", None)
  const RegistrationFailed := AuthenticationError("Registration failed", "REGISTRATION_FAILED", None)
  const TokenRefreshFailed := AuthenticationError("Failed to refresh token", "TOKEN_REFRESH_FAILED", None)
  const NoUserData := AuthenticationError("No user data available", "NO_USER_DATA", None)
  const NoUser := AuthenticationError("No authenticated user", "NO_USER", None)

  /** The minimum validity, in seconds, the adapter asks the provider to guarantee when refreshing. */
  const RefreshMinValidity := 70

  /** `getCurrentUser`'s mapping of the token claims; `now` stands for both `new Date()` calls. */
  function UserFromClaims(c: Claims, now: int): (u: User)
    ensures Truthy(c.sub) ==> u.id == c.sub.value
    ensures !Truthy(c.sub) ==> u.id == ""
    ensures Truthy(c.preferredUsername) ==> u.username == c.preferredUsername.value
    ensures !Truthy(c.preferredUsername) ==> u.username == ""
    ensures c.realmRoles.Some? ==> u.roles == c.realmRoles.value
    ensures c.realmRoles.None? ==> u.roles == []
    ensures Truthy(c.email) ==> u.email == c.email.value
    ensures !Truthy(c.email) ==> u.email == ""
    ensures c.groups.Some? ==> u.groups == Some(c.groups.value)
    ensures c.groups.None? ==> u.groups == Some([])
    ensures u.isActive
    ensures u.emailVerified == Some(c.emailVerified == Some(true))
    ensures u.firstName == c.givenName && u.lastName == c.familyName && u.name == c.name
    ensures u.organization == c.organization && u.tenantId == c.tenantId
    ensures u.createdAt == now && u.updatedAt == now
  {
    User(
      id := OrElse(c.sub, ""),
      username := OrElse(c.preferredUsername, ""),
      email := OrElse(c.email, ""),
      firstName := c.givenName,
      lastName := c.familyName,
      name := c.name,
      roles := SeqOrEmpty(c.realmRoles),
      groups := Some(SeqOrEmpty(c.groups)),
      organization := c.organization,
      tenantId := c.tenantId,
      isActive := true,
      emailVerified := Some(OrFalse(c.emailVerified)),
      createdAt := now,
      updatedAt := now)
  }

  /** `isAuthenticated()`: initialised and the provider says authenticated. */
  predicate Authenticated(k: ProviderState, initialized: bool) {
    initialized && OrFalse(k.authenticated)
  }

  /** `getCurrentUser()` for a given provider state. */
  function CurrentUser(k: ProviderState, initialized: bool, now: int): (u: Option<User>)
    ensures u.Some? <==> Authenticated(k, initialized) && k.tokenParsed.Some?
    ensures u.Some? ==> u.value.isActive && u.value.id == OrElse(k.tokenParsed.value.sub, "")
  {
    if !Authenticated(k, initialized) || k.tokenParsed.None? then None
    else Some(UserFromClaims(k.tokenParsed.value, now))
  }

  /** `(tokenParsed?.exp || 0) * 1000`: the expiry in milliseconds. */
  function ExpiresAt(claims: Option<Claims>): (ms: int)
    ensures ms % 1000 == 0
    ensures ms == 0 <==> claims.None? || claims.value.exp.None? || claims.value.exp == Some(0)
    ensures claims.Some? && claims.value.exp.Some? ==> ms / 1000 == claims.value.exp.value
  {
    if claims.Some? && claims.value.exp.Some? then claims.value.exp.value * 1000 else 0
  }

  /** `buildAuthSession()`: fails with `NO_USER_DATA` exactly when there is no current user. */
  function BuildAuthSession(k: ProviderState, initialized: bool, now: int): (r: Result<AuthSession, Thrown>)
    ensures r.Ok? <==> CurrentUser(k, initialized, now).Some?
    ensures r.Err? ==> r.error == NoUserData
    ensures r.Ok? ==> r.value.isAuthenticated && r.value.user == CurrentUser(k, initialized, now).value
    ensures r.Ok? ==> r.value.token.tokenType == Bearer && r.value.token.expiresAt == ExpiresAt(k.tokenParsed)
    ensures r.Ok? ==> r.value.token.accessToken == OrElse(k.token, "") && r.value.token.refreshToken == k.refreshToken
    ensures r.Ok? ==> r.value.sessionId == OrElse(k.sessionId, "")
  {
    match CurrentUser(k, initialized, now)
    case None => Err(NoUserData)
    case Some(user) =>
      var token := AuthToken(OrElse(k.token, ""), k.refreshToken, ExpiresAt(k.tokenParsed), Bearer);
      Ok(AuthSession(user, token, true, OrElse(k.sessionId, ""), now, now))
  }

  /** `getCurrentSession()`: null unless authenticated; may throw `NO_USER_DATA` when no claims are parsed. */
  function CurrentSession(k: ProviderState, initialized: bool, now: int): (r: Result<Option<AuthSession>, Thrown>)
    ensures r == Ok(None) <==> !Authenticated(k, initialized)
    ensures r.Err? <==> Authenticated(k, initialized) && k.tokenParsed.None?
    ensures r.Err? ==> r.error == NoUserData
    ensures r.Ok? && r.value.Some? ==> r.value.value.isAuthenticated && Some(r.value.value.user) == CurrentUser(k, initialized, now)
  {
    if !Authenticated(k, initialized) then Ok(None)
    else
      match BuildAuthSession(k, initialized, now)
      case Ok(session) => Ok(Some(session))
      case Err(e) => Err(e)
  }

  /**
   * The login use case hands the adapter's login outcome through unchanged: the adapter
   * only returns authenticated sessions and only fails with an `AuthenticationError`, so
   * neither the use case's own `LOGIN_FAILED` check nor its `LOGIN_ERROR` wrapping fires.
   */
  lemma LoginUseCaseKeepsAdapterOutcome(r: Result<AuthSession, Thrown>)
    requires r.Ok? ==> r.value.isAuthenticated
    requires r.Err? ==> r.error == LoginFailed
    ensures AuthUseCases.Login(r) == r
  {
  }

  /**
   * The status use case over this adapter: AUTHENTICATED with parsed claims,
   * UNAUTHENTICATED when not authenticated, and the adapter's NO_USER_DATA passed through
   * when authenticated without claims.
   */
  lemma StatusUseCaseOverAdapter(k: ProviderState, initialized: bool, now: int)
    ensures var r := AuthUseCases.CheckAuthStatus(CurrentSession(k, initialized, now));
      (r == Ok(AUTHENTICATED) <==> Authenticated(k, initialized) && k.tokenParsed.Some?) &&
      (r == Ok(UNAUTHENTICATED) <==> !Authenticated(k, initialized)) &&
      (r == Err(NoUserData) <==> Authenticated(k, initialized) && k.tokenParsed.None?)
  {
  }

  class KeycloakAuthRepository {
    var keycloak: ProviderState
    var authStateListeners: seq<ListenerId>
    var tokenRefreshListeners: seq<ListenerId>
    var initialized: bool
    var initializationPromise: InitPromise
    /** Every provider call made so far, in order. */
    var providerCalls: seq<ProviderCall>
    /** Every auth-state listener call made so far, in order. */
    var authDeliveries: seq<Delivery<Option<AuthSession>>>
    /** Every token-refresh listener call made so far, in order. */
    var tokenDeliveries: seq<Delivery<string>>

    /**
     * `initialized` is set exactly when the shared initialisation has settled, and the
     * provider's `init` is called at most once, when that promise is created.
     */
    ghost predicate Valid()
      reads this
    {
      (initialized <==> initializationPromise.Settled?) &&
      (initializationPromise.NoPromise? <==> Init !in providerCalls) &&
      forall i, j :: 0 <= i < j < |providerCalls| && providerCalls[i] == Init ==> providerCalls[j] != Init
    }

    constructor ()
      ensures Valid()
      ensures keycloak == FreshProvider && !initialized && initializationPromise == NoPromise
      ensures authStateListeners == [] && tokenRefreshListeners == []
      ensures providerCalls == [] && authDeliveries == [] && tokenDeliveries == []
    {
      keycloak := FreshProvider;
      authStateListeners := [];
      tokenRefreshListeners := [];
      initialized := false;
      initializationPromise := NoPromise;
      providerCalls := [];
      authDeliveries := [];
      tokenDeliveries := [];
    }

    /**
     * `initialize()`: once initialised it answers from the provider's flag without calling
     * the provider; otherwise every caller shares one in-flight initialisation.
     */
    method Initialize() returns (call: InitCall)
      requires Valid()
      modifies this
      ensures Valid()
      ensures old(initialized) ==> call == Returned(OrFalse(keycloak.authenticated)) && providerCalls == old(providerCalls)
      ensures !old(initialized) ==> call == AwaitShared && initializationPromise == Pending
      ensures old(initializationPromise) == NoPromise ==> providerCalls == old(providerCalls) + [Init]
      ensures old(initializationPromise) != NoPromise ==> providerCalls == old(providerCalls)
      ensures old(initializationPromise) != NoPromise ==> initializationPromise == old(initializationPromise)
      ensures initialized == old(initialized) && keycloak == old(keycloak)
      ensures authStateListeners == old(authStateListeners) && tokenRefreshListeners == old(tokenRefreshListeners)
      ensures authDeliveries == old(authDeliveries) && tokenDeliveries == old(tokenDeliveries)
    {
      if initialized {
        return Returned(OrFalse(keycloak.authenticated));
      }
      if initializationPromise.Pending? {
        return AwaitShared;
      }
      providerCalls := providerCalls + [Init];
      initializationPromise := Pending;
      call := AwaitShared;
    }

    /**
     * The provider's `init` settles (`performInitialization` after its `await`). The
     * adapter is initialised whatever happens; on success the listeners hear the initial
     * session (or null) once. The result is the value every awaiting caller receives.
     */
    method FinishInitialization(reply: Reply<bool>, now: int) returns (r: Result<bool, Thrown>)
      requires Valid() && initializationPromise.Pending?
      modifies this
      ensures Valid() && initialized && initializationPromise == Settled(r)
      ensures keycloak == reply.after
      ensures r.Ok? <==> reply.outcome.Ok? && (reply.outcome.value ==> BuildAuthSession(reply.after, true, now).Ok?)
      ensures r.Ok? ==> r == reply.outcome
      ensures r.Err? ==> r.error == InitFailed && authDeliveries == old(authDeliveries)
      ensures r == Ok(true) ==>
        authDeliveries == old(authDeliveries) + Deliveries(authStateListeners, Some(BuildAuthSession(reply.after, true, now).value))
      ensures r == Ok(false) ==> authDeliveries == old(authDeliveries) + Deliveries(authStateListeners, None)
      ensures providerCalls == old(providerCalls) && tokenDeliveries == old(tokenDeliveries)
      ensures authStateListeners == old(authStateListeners) && tokenRefreshListeners == old(tokenRefreshListeners)
    {
      keycloak := reply.after;
      initialized := true;
      if reply.outcome.Err? {
        r := Err(InitFailed);
      } else if !reply.outcome.value {
        NotifyAuthStateListeners(None);
        r := Ok(false);
      } else {
        var session := BuildAuthSession(keycloak, initialized, now);
        if session.Err? {
          r := Err(InitFailed);
        } else {
          NotifyAuthStateListeners(Some(session.value));
          r := Ok(true);
        }
      }
      initializationPromise := Settled(r);
    }

    /**
     * `login()`: initialises first when needed (settling the shared initialisation with
     * `initReply`), then asks the provider to log in. Success notifies the listeners with
     * the new session; every failure is `LOGIN_FAILED`.
     */
    method Login(initReply: Reply<bool>, loginReply: Reply<()>, now: int) returns (r: Result<AuthSession, Thrown>)
      requires Valid()
      modifies this
      ensures Valid() && initialized
      ensures r.Err? ==> r.error == LoginFailed
      ensures r.Ok? ==> keycloak == loginReply.after && loginReply.outcome.Ok?
      ensures r.Ok? ==> r == BuildAuthSession(loginReply.after, true, now)
      ensures r.Ok? ==> r.value.isAuthenticated && r.value.token.tokenType == Bearer
      ensures r.Ok? ==> r.value.token.expiresAt == ExpiresAt(loginReply.after.tokenParsed)
      ensures old(initialized) ==> providerCalls == old(providerCalls) + [LoginRedirect] && keycloak == loginReply.after
      ensures old(initialized) ==> (r.Ok? <==> loginReply.outcome.Ok? && BuildAuthSession(loginReply.after, true, now).Ok?)
      ensures old(initialized) && r.Ok? ==> authDeliveries == old(authDeliveries) + Deliveries(authStateListeners, Some(r.value))
      ensures old(initialized) && r.Err? ==> authDeliveries == old(authDeliveries)
      ensures !old(initialized) ==>
        (initializationPromise.value.Ok? <==>
          initReply.outcome.Ok? && (initReply.outcome.value ==> BuildAuthSession(initReply.after, true, now).Ok?))
      ensures !old(initialized) && initializationPromise.value.Ok? ==> initializationPromise.value == initReply.outcome
      ensures !old(initialized) && initializationPromise.value.Err? ==>
        r.Err? && keycloak == initReply.after && authDeliveries == old(authDeliveries) &&
        providerCalls == old(providerCalls) + (if old(initializationPromise) == NoPromise then [Init] else [])
      ensures !old(initialized) && initializationPromise.value.Ok? ==>
        providerCalls == old(providerCalls) + (if old(initializationPromise) == NoPromise then [Init] else []) + [LoginRedirect] &&
        keycloak == loginReply.after &&
        (r.Ok? <==> loginReply.outcome.Ok? && BuildAuthSession(loginReply.after, true, now).Ok?)
      ensures !old(initialized) && initializationPromise.value.Ok? ==>
        authDeliveries == old(authDeliveries) +
          Deliveries(authStateListeners,
            if initializationPromise.value == Ok(true) then Some(BuildAuthSession(initReply.after, true, now).value) else None) +
          (if r.Ok? then Deliveries(authStateListeners, Some(r.value)) else [])
      ensures authStateListeners == old(authStateListeners) && tokenRefreshListeners == old(tokenRefreshListeners)
      ensures tokenDeliveries == old(tokenDeliveries)
    {
      if !initialized {
        var call := Initialize();
        var settled := FinishInitialization(initReply, now);
        if settled.Err? {
          r := Err(LoginFailed);
          return;
        }
      }
      ghost var afterInit := authDeliveries;
      providerCalls := providerCalls + [LoginRedirect];
      keycloak := loginReply.after;
      if loginReply.outcome.Err? {
        r := Err(LoginFailed);
        assert authDeliveries == afterInit + [];
        return;
      }
      var session := BuildAuthSession(keycloak, initialized, now);
      if session.Err? {
        r := Err(LoginFailed);
        assert authDeliveries == afterInit + [];
        return;
      }
      NotifyAuthStateListeners(Some(session.value));
      r := session;
    }

    /** `logout()`: never fails; listeners hear null only once the provider's logout resolved. */
    method Logout(reply: Reply<()>)
      requires Valid()
      modifies this
      ensures Valid()
      ensures providerCalls == old(providerCalls) + [LogoutRedirect] && keycloak == reply.after
      ensures reply.outcome.Ok? ==> authDeliveries == old(authDeliveries) + Deliveries(authStateListeners, None)
      ensures reply.outcome.Err? ==> authDeliveries == old(authDeliveries)
      ensures initialized == old(initialized) && initializationPromise == old(initializationPromise)
      ensures authStateListeners == old(authStateListeners) && tokenRefreshListeners == old(tokenRefreshListeners)
      ensures tokenDeliveries == old(tokenDeliveries)
    {
      providerCalls := providerCalls + [LogoutRedirect];
      keycloak := reply.after;
      if reply.outcome.Ok? {
        NotifyAuthStateListeners(None);
      }
    }

    /** `register()`: any provider failure becomes `REGISTRATION_FAILED`. */
    method Register(reply: Reply<()>) returns (r: Result<(), Thrown>)
      requires Valid()
      modifies this
      ensures Valid()
      ensures r.Ok? <==> reply.outcome.Ok?
      ensures r.Err? ==> r.error == RegistrationFailed
      ensures providerCalls == old(providerCalls) + [RegisterRedirect] && keycloak == reply.after
      ensures initialized == old(initialized) && initializationPromise == old(initializationPromise)
      ensures authStateListeners == old(authStateListeners) && tokenRefreshListeners == old(tokenRefreshListeners)
      ensures authDeliveries == old(authDeliveries) && tokenDeliveries == old(tokenDeliveries)
    {
      providerCalls := providerCalls + [RegisterRedirect];
      keycloak := reply.after;
      r := if reply.outcome.Ok? then Ok(()) else Err(RegistrationFailed);
    }

    /**
     * `refreshToken()`: asks the provider for a token valid 70 more seconds and answers
     * with the current token; token listeners hear it only when the provider refreshed it.
     */
    method RefreshToken(reply: Reply<bool>) returns (r: Result<string, Thrown>)
      requires Valid()
      modifies this
      ensures Valid()
      ensures providerCalls == old(providerCalls) + [UpdateToken(RefreshMinValidity)] && keycloak == reply.after
      ensures r.Ok? <==> reply.outcome.Ok? && Truthy(reply.after.token)
      ensures r.Ok? ==> r.value == reply.after.token.value
      ensures r.Err? ==> r.error == TokenRefreshFailed
      ensures reply.outcome == Ok(true) && Truthy(reply.after.token) ==>
        tokenDeliveries == old(tokenDeliveries) + Deliveries(tokenRefreshListeners, reply.after.token.value)
      ensures !(reply.outcome == Ok(true) && Truthy(reply.after.token)) ==> tokenDeliveries == old(tokenDeliveries)
      ensures initialized == old(initialized) && initializationPromise == old(initializationPromise)
      ensures authStateListeners == old(authStateListeners) && tokenRefreshListeners == old(tokenRefreshListeners)
      ensures authDeliveries == old(authDeliveries)
    {
      providerCalls := providerCalls + [UpdateToken(RefreshMinValidity)];
      keycloak := reply.after;
      if reply.outcome.Err? {
        r := Err(TokenRefreshFailed);
      } else if reply.outcome.value && Truthy(keycloak.token) {
        NotifyTokenRefreshListeners(keycloak.token.value);
        r := Ok(keycloak.token.value);
      } else if Truthy(keycloak.token) {
        r := Ok(keycloak.token.value);
      } else {
        // 'No token available', caught and translated
        r := Err(TokenRefreshFailed);
      }
    }

    /** `isAuthenticated()`. */
    function IsAuthenticated(): (b: bool)
      reads this
      ensures b <==> initialized && keycloak.authenticated == Some(true)
    {
      Authenticated(keycloak, initialized)
    }

    /** `getCurrentSession()`. */
    function GetCurrentSession(now: int): (r: Result<Option<AuthSession>, Thrown>)
      reads this
      ensures r == Ok(None) <==> !IsAuthenticated()
      ensures r.Ok? && r.value.Some? ==> r.value.value.isAuthenticated && Some(r.value.value.user) == GetCurrentUser(now)
    {
      CurrentSession(keycloak, initialized, now)
    }

    /** `getCurrentUser()`. */
    function GetCurrentUser(now: int): (u: Option<User>)
      reads this
      ensures u.Some? ==> IsAuthenticated() && keycloak.tokenParsed.Some?
      ensures u.Some? ==> u.value == UserFromClaims(keycloak.tokenParsed.value, now)
    {
      CurrentUser(keycloak, initialized, now)
    }

    /** `getCurrentUserId()`: the `sub` claim, or null when it is missing or empty. */
    function GetCurrentUserId(): (id: Option<string>)
      reads this
      ensures id.Some? <==> IsAuthenticated() && keycloak.tokenParsed.Some? && Truthy(keycloak.tokenParsed.value.sub)
      ensures id.Some? ==> id == keycloak.tokenParsed.value.sub && id.value != ""
    {
      if !IsAuthenticated() || keycloak.tokenParsed.None? then None
      else if Truthy(keycloak.tokenParsed.value.sub) then keycloak.tokenParsed.value.sub
      else None
    }

    /** `updateUserProfile()`: answers with the current user, or `NO_USER` without one. */
    function UpdateUserProfile(now: int): (r: Result<User, Thrown>)
      reads this
      ensures r.Ok? <==> GetCurrentUser(now).Some?
      ensures r.Ok? ==> r.value == GetCurrentUser(now).value
      ensures r.Err? ==> r.error == NoUser
    {
      match CurrentUser(keycloak, initialized, now)
      case None => Err(NoUser)
      case Some(user) => Ok(user)
    }

    /** `getAccessToken()`: the token, or null when it is missing or empty. */
    function GetAccessToken(): (t: Option<string>)
      reads this
      ensures t.Some? <==> Truthy(keycloak.token)
      ensures t.Some? ==> t == keycloak.token
    {
      if Truthy(keycloak.token) then keycloak.token else None
    }

    /** `validateToken(token)`: strict equality with the provider's current token. */
    function ValidateToken(token: string): (ok: bool)
      reads this
      ensures ok <==> keycloak.token == Some(token)
    {
      keycloak.token.Some? && token == keycloak.token.value
    }

    /** `onAuthStateChanged(callback)`: appends the callback, duplicates included. */
    method OnAuthStateChanged(listener: ListenerId)
      modifies this`authStateListeners
      ensures authStateListeners == old(authStateListeners) + [listener]
    {
      authStateListeners := authStateListeners + [listener];
    }

    /** The function `onAuthStateChanged` returns: removes the first registration, if any remains. */
    method UnsubscribeAuthState(listener: ListenerId)
      modifies this`authStateListeners
      ensures authStateListeners == RemoveFirst(old(authStateListeners), listener)
    {
      authStateListeners := RemoveFirst(authStateListeners, listener);
    }

    /** `onTokenRefresh(callback)`. */
    method OnTokenRefresh(listener: ListenerId)
      modifies this`tokenRefreshListeners
      ensures tokenRefreshListeners == old(tokenRefreshListeners) + [listener]
    {
      tokenRefreshListeners := tokenRefreshListeners + [listener];
    }

    /** The function `onTokenRefresh` returns. */
    method UnsubscribeTokenRefresh(listener: ListenerId)
      modifies this`tokenRefreshListeners
      ensures tokenRefreshListeners == RemoveFirst(old(tokenRefreshListeners), listener)
    {
      tokenRefreshListeners := RemoveFirst(tokenRefreshListeners, listener);
    }

    /** `notifyAuthStateListeners`: each listener once, in order; a throwing listener stops nothing. */
    method NotifyAuthStateListeners(session: Option<AuthSession>)
      modifies this`authDeliveries
      ensures authDeliveries == old(authDeliveries) + Deliveries(authStateListeners, session)
    {
      var i := 0;
      while i < |authStateListeners|
        invariant 0 <= i <= |authStateListeners|
        invariant authDeliveries == old(authDeliveries) + Deliveries(authStateListeners[..i], session)
      {
        authDeliveries := authDeliveries + [Delivery(authStateListeners[i], session)];
        i := i + 1;
      }
      assert authStateListeners[..i] == authStateListeners;
    }

    /** `notifyTokenRefreshListeners`. */
    method NotifyTokenRefreshListeners(token: string)
      modifies this`tokenDeliveries
      ensures tokenDeliveries == old(tokenDeliveries) + Deliveries(tokenRefreshListeners, token)
    {
      var i := 0;
      while i < |tokenRefreshListeners|
        invariant 0 <= i <= |tokenRefreshListeners|
        invariant tokenDeliveries == old(tokenDeliveries) + Deliveries(tokenRefreshListeners[..i], token)
      {
        tokenDeliveries := tokenDeliveries + [Delivery(tokenRefreshListeners[i], token)];
        i := i + 1;
      }
      assert tokenRefreshListeners[..i] == tokenRefreshListeners;
    }
  }
}
