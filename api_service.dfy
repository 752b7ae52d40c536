/**
 * The client's HTTP gateway: a default `Authorization` header, a request interceptor
 * that refreshes a token about to expire, a response interceptor that normalises
 * failures into `ApiError`, and endpoint methods that turn every outcome into an
 * `ApiResponse` envelope instead of throwing.
 *
 * The transport is an oracle: an endpoint is given how the exchange ended.
 */
module ApiGateway {
  import opened Common
  import opened UserEntity
  import opened AuthEntities
  import opened KeycloakAuth

  const DefaultBaseUrl := "http://localhost:8081/api"

  /** Refresh when the token expires within this many milliseconds. */
  const RefreshWindowMs := 5 * 60 * 1000

  /** A response that arrived; `data` is absent for an empty body. */
  datatype HttpResponse<D> = HttpResponse(status: int, data: Option<D>)

  /** A failed exchange as the HTTP client reports it. */
  datatype HttpFailure =
    | WithResponse(status: int, bodyMessage: Option<string>, bodyCode: Option<string>)  // the server answered with an error status
    | NoResponse                                                                       // the request went out, nothing came back
    | Other(message: Option<string>)                                                   // the request could not be made

  /** `ApiResponse`: what every endpoint method resolves to. */
  datatype ApiResponse<D> = ApiResponse(data: Option<D>, error: Option<string>, message: Option<string>, statusCode: Option<int>)

  /** `handleApiError`: the normalised failure; its message and code are never empty. */
  function HandleApiError(f: HttpFailure): (e: ApiError)
    ensures e.message != "" && e.code != ""
    ensures f.WithResponse? ==> e.statusCode == f.status
    ensures f.WithResponse? && Truthy(f.bodyMessage) ==> e.message == f.bodyMessage.value
    ensures f.WithResponse? && !Truthy(f.bodyMessage) ==> e.message == "An error occurred"
    ensures f.WithResponse? && Truthy(f.bodyCode) ==> e.code == f.bodyCode.value
    ensures f.WithResponse? && !Truthy(f.bodyCode) ==> e.code == "UNKNOWN_ERROR"
    ensures f.NoResponse? ==> e == ApiError("Network error - please check your connection", "NETWORK_ERROR", 0)
    ensures f.Other? ==> e.code == "UNKNOWN_ERROR" && e.statusCode == 0
    ensures f.Other? ==> e.message == (if Truthy(f.message) then f.message.value else "An unexpected error occurred")
  {
    match f
    case WithResponse(status, bodyMessage, bodyCode) =>
      ApiError(OrElse(bodyMessage, "An error occurred"), OrElse(bodyCode, "UNKNOWN_ERROR"), status)
    case NoResponse =>
      ApiError("Network error - please check your connection", "NETWORK_ERROR", 0)
    case Other(message) =>
      ApiError(OrElse(message, "An unexpected error occurred"), "UNKNOWN_ERROR", 0)
  }

  /**
   * The response interceptor: a response passes through, and every failure, a 401
   * included, is rejected once as its normalised `ApiError` with no retry.
   */
  function InterceptResponse<D>(exchange: Result<HttpResponse<D>, HttpFailure>): (r: Result<HttpResponse<D>, ApiError>)
    ensures r.Ok? <==> exchange.Ok?
    ensures r.Ok? ==> r.value == exchange.value
    ensures r.Err? ==> r.error == HandleApiError(exchange.error)
  {
    match exchange
    case Ok(response) => Ok(response)
    case Err(failure) => Err(HandleApiError(failure))
  }

  /** The HTTP verbs the gateway uses. */
  datatype Verb = GET | POST | PUT | DELETE

  /** The body an endpoint sends. */
  datatype Body =
    | NoBody
    | RegistrationBody(registration: UserRegistrationData)
    | InvitationBody(username: string, email: string, firstName: string, lastName: string, password: string)
    | CallerBody

  datatype HttpRequest = HttpRequest(verb: Verb, path: string, body: Body)

  /** The endpoint methods and their arguments; the generic ones take the caller's path. */
  datatype Endpoint =
    | RegisterUser(userData: UserRegistrationData)
    | ValidateUser(username: string)
    | GetCurrentUser
    | GetUserById(userId: string)
    | GetAllUsers(page: nat, size: nat)
    | InviteUser(invitation: UserInvitation)
    | UpdateUserProfile
    | Get(path: string)
    | Post(path: string)
    | Put(path: string)
    | Delete(path: string)

  /** The request each endpoint method sends. */
  function RequestOf(e: Endpoint): (req: HttpRequest)
    ensures e.InviteUser? ==> req.body == InvitationBody(e.invitation.username, e.invitation.email,
                                e.invitation.firstName, e.invitation.lastName, e.invitation.password)
    ensures e.Delete? ==> req == HttpRequest(DELETE, e.path, NoBody)
  {
    match e
    case RegisterUser(userData) => HttpRequest(POST, "/auth/register", RegistrationBody(userData))
    case ValidateUser(username) => HttpRequest(GET, "/auth/validate/" + username, NoBody)
    case GetCurrentUser => HttpRequest(GET, "/users/me", NoBody)
    case GetUserById(userId) => HttpRequest(GET, "/v1/users/" + userId, NoBody)
    case GetAllUsers(page, size) =>
      HttpRequest(GET, "/v1/users?page=" + NatToString(page) + "&size=" + NatToString(size), NoBody)
    case InviteUser(i) =>
      HttpRequest(POST, "/v1/accounts/admin/invite", InvitationBody(i.username, i.email, i.firstName, i.lastName, i.password))
    case UpdateUserProfile => HttpRequest(PUT, "/users/me", CallerBody)
    case Get(path) => HttpRequest(GET, path, NoBody)
    case Post(path) => HttpRequest(POST, path, CallerBody)
    case Put(path) => HttpRequest(PUT, path, CallerBody)
    case Delete(path) => HttpRequest(DELETE, path, NoBody)
  }

  /** The fixed success message of an endpoint, for the three that have one. */
  function SuccessMessage(e: Endpoint): (m: Option<string>)
    ensures m.Some? <==> e.RegisterUser? || e.InviteUser? || e.UpdateUserProfile?
    ensures m.Some? ==> m.value != ""
  {
    match e
    case RegisterUser(_) => Some("Registration successful")
    case InviteUser(_) => Some("User invited successfully")
    case UpdateUserProfile => Some("Profile updated successfully")
    case _ => None
  }

  /**
   * An endpoint method: it never throws. A response becomes `{data, statusCode}` (plus the
   * endpoint's fixed message); a failure becomes `{error: message, statusCode}`.
   */
  function Call<D>(e: Endpoint, exchange: Result<HttpResponse<D>, HttpFailure>): (r: ApiResponse<D>)
    ensures exchange.Ok? ==> r == ApiResponse(exchange.value.data, None, SuccessMessage(e), Some(exchange.value.status))
    ensures exchange.Err? ==> r.data.None? && r.message.None? && r.statusCode == Some(HandleApiError(exchange.error).statusCode)
    ensures exchange.Err? ==> r.error == Some(HandleApiError(exchange.error).message)
  {
    match InterceptResponse(exchange)
    case Ok(response) => ApiResponse(response.data, None, SuccessMessage(e), Some(response.status))
    case Err(apiError) => ApiResponse(None, Some(apiError.message), None, Some(apiError.statusCode))
  }

  /**
   * Callers test `response.error` for truthiness: that test is true exactly when the
   * exchange failed, because a normalised failure never has an empty message.
   */
  lemma ErrorFieldSignalsFailure<D>(e: Endpoint, exchange: Result<HttpResponse<D>, HttpFailure>)
    ensures Truthy(Call(e, exchange).error) <==> exchange.Err?
  {
  }

  /** `!tokenPayload || !tokenPayload.exp`: no usable expiry. A zero `exp` is falsy. */
  predicate HasExpiry(exp: Option<int>): (has: bool)
    ensures has ==> exp.Some?
    ensures exp == Some(0) ==> !has
  {
    exp.Some? && exp.value != 0
  }

  /** The pre-request check: the token expires (or expired) less than five minutes from `now`, in milliseconds. */
  predicate ExpiresSoon(exp: int, now: int): (soon: bool)
    ensures soon <==> now > exp * 1000 - 300000
  {
    exp * 1000 - now < RefreshWindowMs
  }

  /** Exactly at five minutes before expiry no refresh is made; one millisecond later it is. */
  lemma RefreshBoundaryIsStrict(exp: int)
    ensures !ExpiresSoon(exp, exp * 1000 - RefreshWindowMs)
    ensures ExpiresSoon(exp, exp * 1000 - RefreshWindowMs + 1)
  {
  }

  /** The header map of a request being sent. */
  datatype RequestConfig = RequestConfig(request: HttpRequest, headers: map<string, string>)

  class ApiService {
    const baseURL: string
    /** `httpClient.defaults.headers.common['Authorization']`. */
    var defaultAuthorization: Option<string>
    var authRepository: KeycloakAuthRepository?

    constructor (baseURL: string)
      ensures this.baseURL == baseURL && defaultAuthorization == None && authRepository == null
    {
      this.baseURL := baseURL;
      defaultAuthorization := None;
      authRepository := null;
    }

    /** `setAuthToken(token)`. */
    method SetAuthToken(token: string)
      modifies this`defaultAuthorization
      ensures GetCurrentAuthHeader() == Some("Bearer " + token)
    {
      defaultAuthorization := Some("Bearer " + token);
    }

    /** `clearAuthToken()`. */
    method ClearAuthToken()
      modifies this`defaultAuthorization
      ensures GetCurrentAuthHeader() == None
    {
      defaultAuthorization := None;
    }

    /** `getCurrentAuthHeader()`. */
    function GetCurrentAuthHeader(): (h: Option<string>)
      reads this
      ensures h == defaultAuthorization
    {
      defaultAuthorization
    }

    /** `setAuthRepository(repository)`. */
    method SetAuthRepository(repository: KeycloakAuthRepository?)
      modifies this`authRepository
      ensures authRepository == repository
    {
      authRepository := repository;
    }

    /**
     * `ensureValidToken()`: never fails. It refreshes through the repository exactly when
     * there is a repository, a token, a non-zero `exp` in its payload and that expiry is
     * less than five minutes away; a successful refresh becomes the default header.
     * `expOf` stands for `parseJwtPayload(token)?.exp`; `refreshReply` is the provider's
     * answer to the repository's refresh.
     */
    method EnsureValidToken(expOf: string -> Option<int>, now: int, refreshReply: Reply<bool>)
      requires authRepository != null ==> authRepository.Valid()
      modifies this`defaultAuthorization, authRepository
      ensures authRepository == old(authRepository)
      ensures authRepository != null ==> authRepository.Valid()
      ensures !old(ShouldRefresh(expOf, now)) ==> defaultAuthorization == old(defaultAuthorization)
      ensures !old(ShouldRefresh(expOf, now)) && authRepository != null ==>
        authRepository.providerCalls == old(authRepository.providerCalls) && authRepository.keycloak == old(authRepository.keycloak) &&
        authRepository.tokenDeliveries == old(authRepository.tokenDeliveries)
      ensures old(ShouldRefresh(expOf, now)) && refreshReply.outcome == Ok(true) && Truthy(refreshReply.after.token) ==>
        authRepository.tokenDeliveries ==
          old(authRepository.tokenDeliveries) + Deliveries(authRepository.tokenRefreshListeners, refreshReply.after.token.value)
      ensures old(ShouldRefresh(expOf, now)) && !(refreshReply.outcome == Ok(true) && Truthy(refreshReply.after.token)) ==>
        authRepository.tokenDeliveries == old(authRepository.tokenDeliveries)
      ensures old(ShouldRefresh(expOf, now)) ==>
        authRepository.providerCalls == old(authRepository.providerCalls) + [UpdateToken(RefreshMinValidity)] &&
        authRepository.keycloak == refreshReply.after
      ensures old(ShouldRefresh(expOf, now)) && refreshReply.outcome.Ok? && Truthy(refreshReply.after.token) ==>
        defaultAuthorization == Some("Bearer " + refreshReply.after.token.value)
      ensures old(ShouldRefresh(expOf, now)) && !(refreshReply.outcome.Ok? && Truthy(refreshReply.after.token)) ==>
        defaultAuthorization == old(defaultAuthorization)
      ensures authRepository != null ==>
        authRepository.initialized == old(authRepository.initialized) &&
        authRepository.authStateListeners == old(authRepository.authStateListeners) &&
        authRepository.tokenRefreshListeners == old(authRepository.tokenRefreshListeners) &&
        authRepository.authDeliveries == old(authRepository.authDeliveries)
    {
      if authRepository == null {
        return;
      }
      var currentToken := authRepository.GetAccessToken();
      if currentToken.None? {
        return;
      }
      var exp := expOf(currentToken.value);
      if !HasExpiry(exp) {
        return;
      }
      if ExpiresSoon(exp.value, now) {
        var newToken := authRepository.RefreshToken(refreshReply);
        if newToken.Ok? {
          SetAuthToken(newToken.value);
        }
      }
    }

    /** Whether `ensureValidToken` asks the repository for a refresh. */
    predicate ShouldRefresh(expOf: string -> Option<int>, now: int): (refresh: bool)
      reads this, authRepository
      ensures authRepository == null ==> !refresh
      ensures refresh ==>
        authRepository.GetAccessToken().Some? && expOf(authRepository.GetAccessToken().value).Some? &&
        now > expOf(authRepository.GetAccessToken().value).value * 1000 - 300000
      ensures authRepository != null && authRepository.GetAccessToken().Some? &&
        expOf(authRepository.GetAccessToken().value).Some? && expOf(authRepository.GetAccessToken().value).value != 0 &&
        now > expOf(authRepository.GetAccessToken().value).value * 1000 - 300000
        ==> refresh
    {
      authRepository != null &&
      var token := authRepository.GetAccessToken();
      token.Some? && HasExpiry(expOf(token.value)) && ExpiresSoon(expOf(token.value).value, now)
    }

    /**
     * The request interceptor: with a repository it first ensures a valid token, then sets
     * `Authorization` from the repository's (possibly refreshed) token when there is one;
     * without a repository the request is left as it is.
     */
    method InterceptRequest(config: RequestConfig, expOf: string -> Option<int>, now: int, refreshReply: Reply<bool>)
      returns (out: RequestConfig)
      requires authRepository != null ==> authRepository.Valid()
      modifies this`defaultAuthorization, authRepository
      ensures authRepository == old(authRepository)
      ensures authRepository != null ==> authRepository.Valid()
      ensures authRepository == null ==> out == config && defaultAuthorization == old(defaultAuthorization)
      ensures out.request == config.request
      ensures authRepository != null && Truthy(authRepository.keycloak.token) ==>
        out.headers == config.headers["Authorization" := "Bearer " + authRepository.keycloak.token.value]
      ensures authRepository != null && !Truthy(authRepository.keycloak.token) ==> out.headers == config.headers
      ensures !old(ShouldRefresh(expOf, now)) ==> defaultAuthorization == old(defaultAuthorization)
      ensures old(ShouldRefresh(expOf, now)) && refreshReply.outcome.Ok? && Truthy(refreshReply.after.token) ==>
        defaultAuthorization == Some("Bearer " + refreshReply.after.token.value)
      ensures old(ShouldRefresh(expOf, now)) && !(refreshReply.outcome.Ok? && Truthy(refreshReply.after.token)) ==>
        defaultAuthorization == old(defaultAuthorization)
    {
      out := config;
      if authRepository != null {
        EnsureValidToken(expOf, now, refreshReply);
        var token := authRepository.GetAccessToken();
        if token.Some? {
          out := out.(headers := out.headers["Authorization" := "Bearer " + token.value]);
        }
      }
    }
  }
}
