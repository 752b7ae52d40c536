/**
 * The user repository over the HTTP gateway: each method calls one endpoint, turns an
 * error envelope into a `RepositoryError`, maps the returned API user onto the `User`
 * entity with field fallbacks, and wraps anything else it catches.
 */
module UserRepository {
  import opened Common
  import opened UserEntity
  import opened AuthEntities
  import opened ApiGateway
  import UserUseCases

  /** The JSON user the back end or the token returns; snake-case claims have their own fields. */
  datatype ApiUser = ApiUser(
    id: Option<string>,
    sub: Option<string>,
    username: Option<string>,
    preferredUsername: Option<string>,
    email: Option<string>,
    firstName: Option<string>,
    givenName: Option<string>,
    lastName: Option<string>,
    familyName: Option<string>,
    name: Option<string>,
    roles: Option<seq<string>>,
    realmRoles: Option<seq<string>>,
    groups: Option<seq<string>>,
    organization: Option<string>,
    tenantId: Option<string>,
    isActive: Option<bool>,
    emailVerifiedClaim: Option<bool>,
    emailVerified: Option<bool>,
    createdAt: Option<int>,
    updatedAt: Option<int>)

  /** A JS date field: a truthy timestamp is kept, anything else becomes `now`. */
  function DateOr(t: Option<int>, now: int): (d: int)
    ensures t.Some? && t.value != 0 ==> d == t.value
    ensures t.None? || t == Some(0) ==> d == now
    ensures d == 0 ==> now == 0
  {
    if t.Some? && t.value != 0 then t.value else now
  }

  /**
   * `transformApiUserToEntity`. A string that is absent after its fallbacks is
   * represented by "" (the entity type has no `undefined`).
   */
  function TransformApiUserToEntity(a: ApiUser, now: int): (u: User)
    ensures Truthy(a.id) ==> u.id == a.id.value
    ensures !Truthy(a.id) ==> u.id == OrElse(a.sub, "")
    ensures Truthy(a.username) ==> u.username == a.username.value
    ensures !Truthy(a.username) ==> u.username == OrElse(a.preferredUsername, "")
    ensures u.firstName == Or(a.firstName, a.givenName) && u.lastName == Or(a.lastName, a.familyName)
    ensures a.roles.Some? ==> u.roles == a.roles.value
    ensures a.roles.None? && a.realmRoles.Some? ==> u.roles == a.realmRoles.value
    ensures a.roles.None? && a.realmRoles.None? ==> u.roles == []
    ensures u.groups == Some(SeqOrEmpty(a.groups))
    ensures !u.isActive <==> a.isActive == Some(false)
    ensures u.emailVerified == Some(a.emailVerifiedClaim == Some(true) || a.emailVerified == Some(true))
    ensures a.email.Some? ==> u.email == a.email.value
    ensures a.email.None? ==> u.email == ""
    ensures u.name == a.name && u.organization == a.organization && u.tenantId == a.tenantId
    ensures u.createdAt == DateOr(a.createdAt, now) && u.updatedAt == DateOr(a.updatedAt, now)
  {
    User(
      id := OrElse(Or(a.id, a.sub), ""),
      username := OrElse(Or(a.username, a.preferredUsername), ""),
      email := OrElse(a.email, ""),
      firstName := Or(a.firstName, a.givenName),
      lastName := Or(a.lastName, a.familyName),
      name := a.name,
      roles := if a.roles.Some? then a.roles.value else SeqOrEmpty(a.realmRoles),
      groups := Some(SeqOrEmpty(a.groups)),
      organization := a.organization,
      tenantId := a.tenantId,
      isActive := a.isActive != Some(false),
      emailVerified := Some(OrFalse(a.emailVerifiedClaim) || OrFalse(a.emailVerified)),
      createdAt := DateOr(a.createdAt, now),
      updatedAt := DateOr(a.updatedAt, now))
  }

  /** What reading a field of an absent response body throws (the engine's wording). */
  const UndefinedBody := PlainError("Cannot read properties of undefined (reading 'id')")

  /** The `catch` of every repository method: a `RepositoryError` passes, anything else is wrapped. */
  function Rethrow(error: Thrown, failureMessage: string, operation: string): (e: Thrown)
    ensures error.RepositoryError? ==> e == error
    ensures !error.RepositoryError? ==> e == RepositoryError(failureMessage, operation, Some(error))
    ensures e.RepositoryError?
  {
    if error.RepositoryError? then error else RepositoryError(failureMessage, operation, Some(error))
  }

  /** `throw new RepositoryError(response.error, operation, new Error(response.error))`. */
  function EnvelopeError(message: string, operation: string): (e: Thrown)
    ensures e.RepositoryError? && e.message == message && e.operation == operation
    ensures e.originalError.Some? && e.originalError.value.PlainError? && e.originalError.value.message == e.message
  {
    RepositoryError(message, operation, Some(PlainError(message)))
  }

  /** The body of `createUser`, `updateUser` and `inviteUser`: the envelope's user, mapped. */
  function UserFromEnvelope(response: ApiResponse<ApiUser>, operation: string, failureMessage: string, now: int): (r: Result<User, Thrown>)
    ensures Truthy(response.error) ==> r == Err(EnvelopeError(response.error.value, operation))
    ensures !Truthy(response.error) && response.data.None? ==>
      r == Err(RepositoryError(failureMessage, operation, Some(UndefinedBody)))
    ensures !Truthy(response.error) && response.data.Some? ==> r == Ok(TransformApiUserToEntity(response.data.value, now))
    ensures r.Err? ==> r.error.RepositoryError? && r.error.operation == operation
  {
    var attempt :=
      if Truthy(response.error) then Err(EnvelopeError(response.error.value, operation))
      else if response.data.None? then Err(UndefinedBody)
      else Ok(TransformApiUserToEntity(response.data.value, now));
    if attempt.Err? then Err(Rethrow(attempt.error, failureMessage, operation)) else attempt
  }

  /**
   * `getUserById(id)` over how the gateway's exchange ended: a failed exchange is a
   * `RepositoryError` with the normalised message, an empty body is null.
   */
  function GetUserById(id: string, exchange: Result<HttpResponse<ApiUser>, HttpFailure>, now: int): (r: Result<Option<User>, Thrown>)
    ensures exchange.Err? ==> r == Err(EnvelopeError(HandleApiError(exchange.error).message, "getUserById"))
    ensures exchange.Ok? && exchange.value.data.None? ==> r == Ok(None)
    ensures exchange.Ok? && exchange.value.data.Some? ==> r == Ok(Some(TransformApiUserToEntity(exchange.value.data.value, now)))
  {
    var response := Call(Endpoint.GetUserById(id), exchange);
    ErrorFieldSignalsFailure(Endpoint.GetUserById(id), exchange);
    var attempt :=
      if Truthy(response.error) then Err(EnvelopeError(response.error.value, "getUserById"))
      else if response.data.None? then Ok(None)
      else Ok(Some(TransformApiUserToEntity(response.data.value, now)));
    if attempt.Err? then Err(Rethrow(attempt.error, "Failed to fetch user by ID", "getUserById")) else attempt
  }

  /** `getUserByUsername`: the API has no such lookup; always null. */
  function GetUserByUsername(username: string): (r: Result<Option<User>, Thrown>)
    ensures r == Ok(None)
  {
    Ok(None)
  }

  /** `getUserByEmail`: the API has no such lookup; always null. */
  function GetUserByEmail(email: string): (r: Result<Option<User>, Thrown>)
    ensures r == Ok(None)
  {
    Ok(None)
  }

  /** `createUser(userData)` through the registration endpoint. */
  function CreateUser(userData: UserRegistrationData, exchange: Result<HttpResponse<ApiUser>, HttpFailure>, now: int): (r: Result<User, Thrown>)
    ensures exchange.Err? ==> r == Err(EnvelopeError(HandleApiError(exchange.error).message, "createUser"))
    ensures exchange.Ok? && exchange.value.data.None? ==>
      r == Err(RepositoryError("Failed to create user", "createUser", Some(UndefinedBody)))
    ensures exchange.Ok? && exchange.value.data.Some? ==> r == Ok(TransformApiUserToEntity(exchange.value.data.value, now))
  {
    ErrorFieldSignalsFailure(Endpoint.RegisterUser(userData), exchange);
    UserFromEnvelope(Call(Endpoint.RegisterUser(userData), exchange), "createUser", "Failed to create user", now)
  }

  /** `updateUser(id, userData)`: `id` is not used; the current user's profile is updated. */
  function UpdateUser(id: string, exchange: Result<HttpResponse<ApiUser>, HttpFailure>, now: int): (r: Result<User, Thrown>)
    ensures exchange.Err? ==> r == Err(EnvelopeError(HandleApiError(exchange.error).message, "updateUser"))
    ensures exchange.Ok? && exchange.value.data.None? ==>
      r == Err(RepositoryError("Failed to update user", "updateUser", Some(UndefinedBody)))
    ensures exchange.Ok? && exchange.value.data.Some? ==> r == Ok(TransformApiUserToEntity(exchange.value.data.value, now))
  {
    ErrorFieldSignalsFailure(Endpoint.UpdateUserProfile, exchange);
    UserFromEnvelope(Call(Endpoint.UpdateUserProfile, exchange), "updateUser", "Failed to update user", now)
  }

  /** `updateUser` answers the same whatever id it is given. */
  lemma UpdateUserIgnoresId(id: string, other: string, exchange: Result<HttpResponse<ApiUser>, HttpFailure>, now: int)
    ensures UpdateUser(id, exchange, now) == UpdateUser(other, exchange, now)
  {
  }

  /** The request `deleteUser(id)` sends. */
  function DeleteUserRequest(id: string): (req: HttpRequest)
    ensures req == HttpRequest(DELETE, "/v1/accounts/" + id, NoBody)
  {
    RequestOf(Endpoint.Delete("/v1/accounts/" + id))
  }

  /** `deleteUser(id)`. */
  function DeleteUser(id: string, exchange: Result<HttpResponse<ApiUser>, HttpFailure>): (r: Result<(), Thrown>)
    ensures r.Ok? <==> exchange.Ok?
    ensures exchange.Err? ==> r == Err(EnvelopeError(HandleApiError(exchange.error).message, "deleteUser"))
  {
    var response := Call(Endpoint.Delete("/v1/accounts/" + id), exchange);
    ErrorFieldSignalsFailure(Endpoint.Delete("/v1/accounts/" + id), exchange);
    if Truthy(response.error) then Err(Rethrow(EnvelopeError(response.error.value, "deleteUser"), "Failed to delete user", "deleteUser"))
    else Ok(())
  }

  /** `inviteUser(invitation, tenantId)`: `tenantId` is not used. */
  function InviteUser(invitation: UserInvitation, tenantId: Option<string>, exchange: Result<HttpResponse<ApiUser>, HttpFailure>, now: int)
    : (r: Result<User, Thrown>)
    ensures exchange.Err? ==> r == Err(EnvelopeError(HandleApiError(exchange.error).message, "inviteUser"))
    ensures exchange.Ok? && exchange.value.data.None? ==>
      r == Err(RepositoryError("Failed to invite user", "inviteUser", Some(UndefinedBody)))
    ensures exchange.Ok? && exchange.value.data.Some? ==> r == Ok(TransformApiUserToEntity(exchange.value.data.value, now))
  {
    ErrorFieldSignalsFailure(Endpoint.InviteUser(invitation), exchange);
    UserFromEnvelope(Call(Endpoint.InviteUser(invitation), exchange), "inviteUser", "Failed to invite user", now)
  }

  /** `searchUsers`: not backed by an endpoint; always []. */
  function SearchUsers(query: string): (r: Result<seq<User>, Thrown>)
    ensures r == Ok([])
  {
    Ok([])
  }

  /** `getUsersByOrganization`: not backed by an endpoint; always []. */
  function GetUsersByOrganization(organizationId: string): (r: Result<seq<User>, Thrown>)
    ensures r == Ok([])
  {
    Ok([])
  }

  /** `getUsersByRole`: not backed by an endpoint; always []. */
  function GetUsersByRole(role: string): (r: Result<seq<User>, Thrown>)
    ensures r == Ok([])
  {
    Ok([])
  }

  /**
   * Through this repository the search use case never fails: a blank query answers []
   * without a call, any other query is forwarded trimmed and answered with [].
   */
  lemma SearchThroughRepositoryIsEmpty(query: string)
    ensures UserUseCases.SearchUsers(query, SearchUsers(Trim(query))).result == Ok([])
  {
  }

  /**
   * Through this repository a failed invitation exchange reaches the caller of the use
   * case as "Failed to invite user: " followed by the normalised HTTP message.
   */
  lemma InviteFailureMessage(inv: UserInvitation, tenantId: Option<string>, f: HttpFailure, now: int)
    requires UserUseCases.ValidateInvitation(inv).None?
    ensures UserUseCases.InviteUser(inv, tenantId, InviteUser(inv, tenantId, Err(f), now)).result ==
      Err(PlainError("Failed to invite user: " + HandleApiError(f).message))
  {
  }
}
