# Zylo core, modelled in Dafny

Zylo is a multi-tenant chat application. This project models its core in three parts.

- **The React client.**
  - Its Keycloak session adapter, auth use cases and the `AuthProvider` status machine.
  - The axios request gateway (error normalisation, the five-minute pre-request token refresh, envelope conversion) and the user repository's mapping and error wrapping.
  - The `User` value objects, the route guard, and the user-list, invite and signup dialogs.
  - The WebSocket chat client, with its reconnect logic.
- **The chat service.**
  - The session registry: local sessions, and the Redis map from user to server.
  - The WebSocket handler, the broker listener and the Redis subscriber: deliver, drop or forward.
  - The handshake token check and the `ChannelMemberId` key.
- **The auth service.**
  - The tenant filter and the accounts repository: tenant resolution, and per-tenant uniqueness cached in Redis sets.
  - The Keycloak account flows and the admin service that chains them.

Code that works by changing state is modelled as classes whose fields the methods update: the adapters, the socket client, the dialogs, the session manager, the handlers and the repository. Each such method's `ensures` ties its new state and result to a pure function of the old state. The properties are proved about those functions as lemmas. Pure code (validators, mappers, decision tables) is modelled as functions and lemmas.

Environment outcomes are parameters of the operations that meet them:
- a provider's `init` or `updateToken`, an HTTP response, a socket event or a timer firing;
- a database id, a Keycloak `Response`, or a decoder's verdict.

Asynchronous operations are split into the call and its completion wherever the code's state can change in between.

Where the code and its documentation disagree, the model follows the code.
- `connect()` of the chat client runs `disconnect()` after setting `isConnecting`. That clears the flag and the attempt counter, so the documented reconnect cap and the connect timeout never take effect. The model keeps this as written and records it under Findings.
- The tenant filter's "no tenant found" branch is documented as running the chain without a tenant. It cannot be reached, because `getTenantIdByName` uses `getSingleResult`, which throws instead of returning null. `TenantFiltering.JwtAlwaysResolvesOrFails` proves this.
- `InitializeAuthUseCase` swallows errors, so `AuthProvider`'s error branch in `initializeAuth` cannot be reached through it. `AuthContext.AuthProvider.InitializeAuth` states this.

## Model

| member | source | states |
|---|---|---|
| Common.TrimEmptyIffBlank | client/src/core/use-cases/UserUseCases.ts:40 | `!s.trim()` holds exactly for the strings made of JavaScript whitespace only, the test every blank-field check relies on |
| Common.RemoveFirstSpec | client/src/infrastructure/auth/KeycloakAuthRepository.ts:205-211 | the splice-based unsubscribe is a no-op when the callback is absent and otherwise removes exactly one occurrence (length and multiset) |
| Common.SubscribeThenUnsubscribe | client/src/infrastructure/auth/KeycloakAuthRepository.ts:202-212 | subscribing a new callback and calling its unsubscribe restores the registry exactly |
| Common.Deliveries | client/src/infrastructure/auth/KeycloakAuthRepository.ts:265-273 | notification calls every listener exactly once, in registration order, with the same payload |
| Common.GroupPathOrgName | auth-service/src/main/java/com/zylo/authservice/config/TenantFilter.java:48-49 | for a group path "/org" or "/org/…" the second `split("/")` component is the organization |
| Common.IndexOf | client/src/infrastructure/auth/KeycloakAuthRepository.ts:207-208 | `indexOf`: none exactly when the element is absent; otherwise the position of its first occurrence |
| Common.Lower | client/src/presentation/components/UserListDialog.tsx:148 | `toLowerCase`: same length, each character lower-cased |
| Common.Upper | client/src/presentation/components/UserListDialog.tsx:128 | `toUpperCase`: same length, each character upper-cased |
| Common.SplitAll | client/src/presentation/components/UserListDialog.tsx:131 | `split` on one character always gives at least one piece |
| Common.SplitJoin | client/src/presentation/components/UserListDialog.tsx:131 | splitting pieces joined by a separator they do not contain gives back exactly those pieces |
| Common.NatToString | client/src/infrastructure/api/ApiService.ts:260 | a page or size number is printed as decimal digits without a leading zero |
| UserEntity.EmailRegexTestCorrect | client/src/core/entities/User.ts:66-69 | the executable test accepts exactly the language of `^[^\s@]+@[^\s@]+\.[^\s@]+$` |
| UserEntity.EmailRegexTest | client/src/core/entities/User.ts:66-69 | an accepted email has at least five characters, does not start with '@' and contains '@'; the exact language is `EmailRegexTestCorrect` |
| UserEntity.Email.ToString | client/src/core/entities/User.ts:71-73 | the string the value object was created from |
| UserEntity.Username.ToString | client/src/core/entities/User.ts:90-92 | the string the value object was created from |
| UserEntity.AcceptedEmailShape | client/src/core/entities/User.ts:67 | an accepted email has exactly one '@' with text on both sides and a '.' strictly inside the domain |
| UserEntity.CreateEmail | client/src/core/entities/User.ts:59-73 | `Email.create` succeeds iff the pattern matches, keeps the string for `toString`, and otherwise fails with 'Invalid email format' |
| UserEntity.CreateUsername | client/src/core/entities/User.ts:79-92 | `Username.create` succeeds iff the UTF-16 length is within 3..20, keeps the string for `toString`, and otherwise fails with the length message |
| UserEntity.UsernameBmpLength | client/src/core/entities/User.ts:86-88 | for strings in the Basic Multilingual Plane the username bound is on the number of characters |
| AuthUseCases.Login | client/src/core/use-cases/AuthUseCases.ts:13-36 | succeeds iff the repository returns an authenticated session, which it passes on; an unauthenticated session gives LOGIN_FAILED, an AuthenticationError passes unchanged, anything else becomes LOGIN_ERROR; every failure is an AuthenticationError |
| AuthUseCases.Logout | client/src/core/use-cases/AuthUseCases.ts:42-49 | never fails |
| AuthUseCases.Register | client/src/core/use-cases/AuthUseCases.ts:55-64 | succeeds iff the repository does; every failure is REGISTRATION_FAILED |
| AuthUseCases.InitializeAuth | client/src/core/use-cases/AuthUseCases.ts:70-77 | never fails, and answers true iff the repository resolved to true |
| AuthUseCases.CheckAuthStatus | client/src/core/use-cases/AuthUseCases.ts:91-103 | an exception of `getCurrentSession` reaches the caller unchanged (there is no `try`); otherwise AUTHENTICATED iff a session exists and is authenticated, UNAUTHENTICATED otherwise, never LOADING or ERROR |
| AuthUseCases.RefreshToken | client/src/core/use-cases/AuthUseCases.ts:109-118 | passes a refreshed token on; every failure is TOKEN_REFRESH_FAILED |
| UserUseCases.Wrap | client/src/core/use-cases/UserUseCases.ts:20 | always a plain `Error`; its message starts with the prefix, and what follows the prefix is the original error's message, or 'Unknown error' when what was thrown is not an `Error` |
| UserUseCases.Forward | client/src/core/use-cases/UserUseCases.ts:32-36 | exactly one repository call, the one given; it succeeds iff the repository did, passing its value on unchanged, and a failure becomes the wrapped error under the prefix |
| UserUseCases.GetUserById | client/src/core/use-cases/UserUseCases.ts:12-22 | an empty id fails with 'User ID is required' and no repository call; otherwise one call with the id and tenant, its failure wrapped as "Failed to get user: …" |
| UserUseCases.ValidateInvitation | client/src/core/use-cases/UserUseCases.ts:39-70 | passes iff all seven checks hold; each of the seven messages (username, email, first name, last name required; password under 8; 'Invalid email format'; the 3-20 length) is given exactly when its check is the first to fail, in the source's order |
| UserUseCases.ValidInvitationHasValueObjects | client/src/core/use-cases/UserUseCases.ts:61-69 | an invitation that passes validation makes a valid `Email` and a valid `Username` |
| UserUseCases.InviteUser | client/src/core/use-cases/UserUseCases.ts:28-37 | an invalid invitation fails with its validation message and no repository call; a valid one makes exactly one call, its failure wrapped as "Failed to invite user: …" |
| UserUseCases.SearchUsers | client/src/core/use-cases/UserUseCases.ts:76-86 | a blank query answers [] with no call; otherwise the trimmed, non-empty query is searched once |
| UserUseCases.GetUsersByOrganization | client/src/core/use-cases/UserUseCases.ts:92-102 | a blank id fails before any call; otherwise the id is forwarded untrimmed in one call |
| UserUseCases.GetUsersByRole | client/src/core/use-cases/UserUseCases.ts:108-118 | a blank role fails before any call; otherwise the role is forwarded untrimmed in one call |
| KeycloakAuth.UserFromClaims | client/src/infrastructure/auth/KeycloakAuthRepository.ts:147-164 | the claim mapping, every field: id ← sub or "", username ← preferred_username or "", email ← email or "", roles ← realm roles or [], groups ← groups or [], organization and tenant id copied, isActive true, emailVerified true only for a true claim, names copied, both dates the current time |
| KeycloakAuth.CurrentUser | client/src/infrastructure/auth/KeycloakAuthRepository.ts:142-146 | a user exists iff the adapter is initialised, the provider is authenticated and claims are parsed |
| KeycloakAuth.BuildAuthSession | client/src/infrastructure/auth/KeycloakAuthRepository.ts:225-246 | fails with NO_USER_DATA exactly when there is no current user; otherwise an authenticated Bearer session for that user with `expiresAt = exp * 1000` |
| KeycloakAuth.ExpiresAt | client/src/infrastructure/auth/KeycloakAuthRepository.ts:234 | `(exp \|\| 0) * 1000`: a whole number of seconds in milliseconds, 0 exactly when there are no claims, no `exp` or `exp` 0, otherwise `exp` seconds |
| KeycloakAuth.CurrentSession | client/src/infrastructure/auth/KeycloakAuthRepository.ts:108-114 | null iff not authenticated; throws NO_USER_DATA iff authenticated without parsed claims; a session carries the current user |
| KeycloakAuth.StatusUseCaseOverAdapter | client/src/core/use-cases/AuthUseCases.ts:91-103 | over this adapter's `getCurrentSession`, the status use case answers AUTHENTICATED exactly with parsed claims, UNAUTHENTICATED exactly when not authenticated, and passes NO_USER_DATA through exactly when authenticated without claims |
| KeycloakAuth.LoginUseCaseKeepsAdapterOutcome | client/src/core/use-cases/AuthUseCases.ts:13-36 | the use case passes the adapter's login outcome through unchanged, so its own LOGIN_FAILED and LOGIN_ERROR branches never fire behind this adapter |
| KeycloakAuth.KeycloakAuthRepository.constructor | client/src/infrastructure/auth/KeycloakAuthRepository.ts:11-24 | an uninitialised adapter with no promise, no listeners and no calls |
| KeycloakAuth.KeycloakAuthRepository.Initialize | client/src/infrastructure/auth/KeycloakAuthRepository.ts:26-38 | once initialised it answers `authenticated \|\| false` without calling the provider; otherwise all callers share one promise and the provider's init is called only when that promise is created |
| KeycloakAuth.KeycloakAuthRepository.FinishInitialization | client/src/infrastructure/auth/KeycloakAuthRepository.ts:40-64 | the adapter is initialised whatever happens; failure is INIT_FAILED with no notification; success notifies the listeners once, with the session iff authenticated and null otherwise |
| KeycloakAuth.KeycloakAuthRepository.Login | client/src/infrastructure/auth/KeycloakAuthRepository.ts:66-85 | initialises first when needed: a failed init fails the login with no provider login and no notification; otherwise the provider login runs; success returns and broadcasts the built session (after the init's own broadcast); every failure, NO_USER_DATA included, is LOGIN_FAILED |
| KeycloakAuth.KeycloakAuthRepository.Logout | client/src/infrastructure/auth/KeycloakAuthRepository.ts:87-95 | never fails; listeners hear null exactly when the provider logout resolved |
| KeycloakAuth.KeycloakAuthRepository.Register | client/src/infrastructure/auth/KeycloakAuthRepository.ts:97-106 | succeeds iff the provider does; otherwise REGISTRATION_FAILED |
| KeycloakAuth.KeycloakAuthRepository.RefreshToken | client/src/infrastructure/auth/KeycloakAuthRepository.ts:116-136 | asks `updateToken(70)`; answers the current token iff the call resolved and a token exists, else TOKEN_REFRESH_FAILED; token listeners hear it only when refreshed |
| KeycloakAuth.KeycloakAuthRepository.IsAuthenticated | client/src/infrastructure/auth/KeycloakAuthRepository.ts:138-140 | initialised and the provider flag is true |
| KeycloakAuth.KeycloakAuthRepository.GetCurrentSession | client/src/infrastructure/auth/KeycloakAuthRepository.ts:108-114 | null iff not authenticated; a session's user is the current user |
| KeycloakAuth.KeycloakAuthRepository.GetCurrentUser | client/src/infrastructure/auth/KeycloakAuthRepository.ts:142-165 | a user only when authenticated with parsed claims, mapped from those claims |
| KeycloakAuth.KeycloakAuthRepository.GetCurrentUserId | client/src/infrastructure/auth/KeycloakAuthRepository.ts:167-174 | the `sub` claim when authenticated and it is non-empty, null otherwise |
| KeycloakAuth.KeycloakAuthRepository.UpdateUserProfile | client/src/infrastructure/auth/KeycloakAuthRepository.ts:176-187 | answers the current user unchanged, or NO_USER when there is none |
| KeycloakAuth.KeycloakAuthRepository.GetAccessToken | client/src/infrastructure/auth/KeycloakAuthRepository.ts:189-191 | the token when it is non-empty, null otherwise |
| KeycloakAuth.KeycloakAuthRepository.ValidateToken | client/src/infrastructure/auth/KeycloakAuthRepository.ts:193-200 | true iff the token equals the provider's current token |
| KeycloakAuth.KeycloakAuthRepository.OnAuthStateChanged | client/src/infrastructure/auth/KeycloakAuthRepository.ts:202-203 | appends the callback |
| KeycloakAuth.KeycloakAuthRepository.UnsubscribeAuthState | client/src/infrastructure/auth/KeycloakAuthRepository.ts:205-211 | removes the first registration of the callback, if any |
| KeycloakAuth.KeycloakAuthRepository.OnTokenRefresh | client/src/infrastructure/auth/KeycloakAuthRepository.ts:214-215 | appends the callback |
| KeycloakAuth.KeycloakAuthRepository.UnsubscribeTokenRefresh | client/src/infrastructure/auth/KeycloakAuthRepository.ts:217-222 | removes the first registration of the callback, if any |
| KeycloakAuth.KeycloakAuthRepository.NotifyAuthStateListeners | client/src/infrastructure/auth/KeycloakAuthRepository.ts:265-273 | every auth listener is called once, in order, with the session |
| KeycloakAuth.KeycloakAuthRepository.NotifyTokenRefreshListeners | client/src/infrastructure/auth/KeycloakAuthRepository.ts:275-283 | every token listener is called once, in order, with the token |
| ApiGateway.HandleApiError | client/src/infrastructure/api/ApiService.ts:165-189 | with a response: message ← body.message or 'An error occurred', code ← body.code or 'UNKNOWN_ERROR', statusCode ← the HTTP status; no response gives NETWORK_ERROR/0; anything else UNKNOWN_ERROR/0; message and code are never empty |
| ApiGateway.InterceptResponse | client/src/infrastructure/api/ApiService.ts:78-88 | a response passes unchanged; every failure, a 401 included, is rejected once as its normalised error, with no retry |
| ApiGateway.RequestOf | client/src/infrastructure/api/ApiService.ts:274-282 | the invitation endpoint sends exactly username, email, first and last name and password; `delete` sends no body to the caller's path |
| ApiGateway.Call | client/src/infrastructure/api/ApiService.ts:192-377 | an endpoint never throws: success gives `{data, statusCode}` plus the fixed message of register/invite/update; failure gives `{error: message, statusCode}` with no data |
| ApiGateway.ErrorFieldSignalsFailure | client/src/infrastructure/api/ApiService.ts:200-205 | a caller's truthiness test on `response.error` holds exactly when the exchange failed |
| ApiGateway.RefreshBoundaryIsStrict | client/src/infrastructure/api/ApiService.ts:128-136 | the five-minute comparison is strict: no refresh exactly five minutes before expiry, a refresh one millisecond later |
| ApiGateway.ExpiresSoon | client/src/infrastructure/api/ApiService.ts:128-136 | `exp*1000 − now < 5 min` holds exactly when now is past five minutes before the expiry |
| ApiGateway.HasExpiry | client/src/infrastructure/api/ApiService.ts:123 | a token counts as having an expiry only when `exp` is present and not 0 |
| ApiGateway.SuccessMessage | client/src/infrastructure/api/ApiService.ts:192-302 | a fixed, non-empty success message exactly for register, invite and profile update, none for the other endpoints |
| ApiGateway.ApiService.constructor | client/src/infrastructure/api/ApiService.ts:19-29 | no default Authorization header and no repository |
| ApiGateway.ApiService.SetAuthToken | client/src/infrastructure/api/ApiService.ts:32-36 | the current auth header becomes "Bearer " + token |
| ApiGateway.ApiService.ClearAuthToken | client/src/infrastructure/api/ApiService.ts:38-41 | the current auth header becomes undefined |
| ApiGateway.ApiService.SetAuthRepository | client/src/infrastructure/api/ApiService.ts:47-49 | the repository is the one given |
| ApiGateway.ApiService.GetCurrentAuthHeader | client/src/infrastructure/api/ApiService.ts:43-45 | the default `Authorization` header as `setAuthToken` or `clearAuthToken` last left it |
| ApiGateway.ApiService.EnsureValidToken | client/src/infrastructure/api/ApiService.ts:105-146 | never fails; the repository refreshes (`updateToken(70)`) exactly when there is a repository, a token, a non-zero `exp` and `exp*1000 − now < 300000`; a successful refresh becomes the default header, anything else leaves it; token-refresh listeners hear the new token exactly when the refresh resolved true with a token, and nothing otherwise |
| ApiGateway.ApiService.ShouldRefresh | client/src/infrastructure/api/ApiService.ts:105-136 | true only with a repository, a token and a parsed `exp` that is less than five minutes away; and true whenever all of that holds with a non-zero `exp` |
| ApiGateway.ApiService.InterceptRequest | client/src/infrastructure/api/ApiService.ts:54-73 | without a repository the request is unchanged; with one, `Authorization` is set to "Bearer " + token only when the (possibly refreshed) token is non-empty, and the default header changes only through a successful refresh |
| AuthContext.ErrorMessage | client/src/presentation/contexts/AuthContext.tsx:119 | an `Error`'s own message, otherwise the action's fallback text |
| AuthContext.RejectionMessage | client/src/presentation/contexts/AuthContext.tsx:118-121 | a rejected use case is recorded with its error's message, or the fallback |
| AuthContext.AuthProvider.constructor | client/src/presentation/contexts/AuthContext.tsx:35-39 | the initial state: user null, not authenticated, loading, status LOADING, no error |
| AuthContext.AuthProvider.InitializeAuth | client/src/presentation/contexts/AuthContext.tsx:71-106 | true gives AUTHENTICATED with the current user and pushes the token only when non-empty; anything else gives UNAUTHENTICATED, user null and a cleared header; loading ends and, because the use case swallows failures, ERROR is never reached |
| AuthContext.AuthProvider.OnAuthStateChanged | client/src/presentation/contexts/AuthContext.tsx:51-66 | a session replaces user, flag and status (AUTHENTICATED) and sets the header from its token; null clears user, flag and header (UNAUTHENTICATED); loading ends either way |
| AuthContext.AuthProvider.Login | client/src/presentation/contexts/AuthContext.tsx:108-125 | success gives AUTHENTICATED with the session's user; failure records the message and ERROR and keeps user and flag |
| AuthContext.AuthProvider.Logout | client/src/presentation/contexts/AuthContext.tsx:127-143 | always ends signed out: user null, not authenticated, UNAUTHENTICATED, no error |
| AuthContext.AuthProvider.Register | client/src/presentation/contexts/AuthContext.tsx:145-158 | failure records 'Registration failed' and ERROR; success leaves user and status; user and flag are never changed |
| AuthContext.AuthProvider.ClearError | client/src/presentation/contexts/AuthContext.tsx:160-162 | only the error is reset |
| UserRepository.TransformApiUserToEntity | client/src/infrastructure/api/UserRepository.ts:218-235 | id ← id or sub, username ← username or preferred_username, first/last name ← the camel-case field or the claim, roles ← roles or realm roles or [], groups ← groups or [], email, name, organization and tenant id copied, isActive false only for an explicit false, emailVerified ← either flag or false, createdAt and updatedAt ← the given truthy timestamp or now |
| UserRepository.DateOr | client/src/infrastructure/api/UserRepository.ts:232-233 | a truthy timestamp is kept, an absent or 0 one becomes the current time |
| UserRepository.EnvelopeError | client/src/infrastructure/api/UserRepository.ts:22-27 | the error an error envelope is thrown as: a `RepositoryError` with the envelope's message and the operation, wrapping a plain `Error` with the same message |
| UserRepository.Rethrow | client/src/infrastructure/api/UserRepository.ts:36-45 | a `RepositoryError` is rethrown unchanged; anything else is wrapped with the method's message and operation name |
| UserRepository.UserFromEnvelope | client/src/infrastructure/api/UserRepository.ts:76-99 | an error envelope becomes a `RepositoryError` carrying its message; a missing body is wrapped with the method's failure message; otherwise the mapped user; every failure names the operation |
| UserRepository.GetUserById | client/src/infrastructure/api/UserRepository.ts:14-46 | a failed exchange is a `RepositoryError` 'getUserById' with the normalised message; an empty body is null; otherwise the mapped user |
| UserRepository.GetUserByUsername | client/src/infrastructure/api/UserRepository.ts:48-60 | always null |
| UserRepository.GetUserByEmail | client/src/infrastructure/api/UserRepository.ts:62-74 | always null |
| UserRepository.CreateUser | client/src/infrastructure/api/UserRepository.ts:76-99 | a failed registration exchange is a `RepositoryError` 'createUser'; a success is the mapped user |
| UserRepository.UpdateUser | client/src/infrastructure/api/UserRepository.ts:101-124 | a failed exchange is a `RepositoryError` 'updateUser' with the normalised message; a success with no body is 'Failed to update user' wrapping the undefined-body error; a body is mapped to the user |
| UserRepository.UpdateUserIgnoresId | client/src/infrastructure/api/UserRepository.ts:101-103 | `updateUser` answers the same whatever id it is given |
| UserRepository.DeleteUserRequest | client/src/infrastructure/api/UserRepository.ts:128 | `deleteUser` sends DELETE to `/v1/accounts/{id}` |
| UserRepository.DeleteUser | client/src/infrastructure/api/UserRepository.ts:126-147 | succeeds iff the exchange does; a failure is a `RepositoryError` 'deleteUser' |
| UserRepository.InviteUser | client/src/infrastructure/api/UserRepository.ts:149-176 | a failed exchange is a `RepositoryError` 'inviteUser'; a success is the mapped user; the tenant id is not used |
| UserRepository.SearchUsers | client/src/infrastructure/api/UserRepository.ts:178-190 | always [] |
| UserRepository.GetUsersByOrganization | client/src/infrastructure/api/UserRepository.ts:192-203 | always [] |
| UserRepository.GetUsersByRole | client/src/infrastructure/api/UserRepository.ts:205-216 | always [] |
| UserRepository.SearchThroughRepositoryIsEmpty | client/src/core/use-cases/UserUseCases.ts:76-86 | the search use case over this repository always answers [] |
| UserRepository.InviteFailureMessage | client/src/core/use-cases/UserUseCases.ts:32-36 | a failed invitation exchange reaches the use case's caller as "Failed to invite user: " plus the normalised HTTP message |
| ProtectedRoute.Guard | client/src/presentation/components/ProtectedRoute.tsx:23-63 | loading iff isLoading or status LOADING; otherwise redirect iff not authenticated or UNAUTHENTICATED; otherwise denied iff a role is required, a user exists and lacks it (exact match); otherwise the children, a required role with no user included |
| ProtectedRoute.EmptyRoleIsNoRequirement | client/src/presentation/components/ProtectedRoute.tsx:43 | an empty required role decides exactly as no required role |
| UserListDialog.LoadPage | client/src/presentation/components/UserListDialog.tsx:61-91 | a page is installed iff the exchange succeeded with a body, with `content \|\| []`, `totalPages \|\| 0`, `totalElements \|\| 0` and the requested page; a failed exchange toasts the gateway's message, a missing body the generic message |
| UserListDialog.Filter | client/src/presentation/components/UserListDialog.tsx:146-156 | an empty term keeps every user; otherwise exactly the users one of whose five fields contains the lower-cased term; never more users than loaded |
| UserListDialog.Matches | client/src/presentation/components/UserListDialog.tsx:147-155 | an empty term matches every user, a username or email equal to the term ignoring case always matches, and a match on a non-empty term means one of the five fields contains the lower-cased term |
| UserListDialog.FilterAppend | client/src/presentation/components/UserListDialog.tsx:146 | filtering keeps order: the filter of a concatenation is the concatenation of the filters |
| UserListDialog.LeadingSpaceInitials | client/src/presentation/components/UserListDialog.tsx:130-134 | as written, the name " Ann" gives the ten-character initials "UNDEFINEDA" |
| UserListDialog.InitialsAsWritten | client/src/presentation/components/UserListDialog.tsx:126-137 | as written: at least one character; first and last name give their first letters; with no truthy name, username, email, 'U'; a one-word name gives its first letter |
| UserListDialog.Words | client/src/presentation/components/UserListDialog.tsx:131 | the non-empty pieces of the split name, never more than the pieces |
| UserListDialog.Initials | client/src/presentation/components/UserListDialog.tsx:126-137 | one or two characters: with first and last name, their first letters; otherwise, with a name, the first letters of its first and last non-empty words (one word: one letter); otherwise the first letter of the username, else of the email, else 'U'; upper-cased |
| UserListDialog.InitialsAgreeOnWellSpacedNames | client/src/presentation/components/UserListDialog.tsx:130-134 | where the name has no empty pieces the corrected initials equal the source's |
| UserListDialog.DisplayName | client/src/presentation/components/UserListDialog.tsx:139-144 | "first last" when both are set, else the first truthy of name, username, email |
| UserListDialog.RangeLabel | client/src/presentation/components/UserListDialog.tsx:237 | the label starts at `currentPage*10+1`, spans at most one page, a full page when enough elements remain, and ends at `totalElements` on the last page |
| UserListDialog.UserListDialog.constructor | client/src/presentation/components/UserListDialog.tsx:50-56 | closed, empty, not loading, page 0 |
| UserListDialog.UserListDialog.Visible | client/src/presentation/components/UserListDialog.tsx:146-156 | the users shown are exactly the loaded users matching the search term |
| UserListDialog.UserListDialog.PaginationShown | client/src/presentation/components/UserListDialog.tsx:234 | the bar is shown exactly when not loading with at least two pages, and then one of Previous and Next is enabled |
| UserListDialog.UserListDialog.FetchUsers | client/src/presentation/components/UserListDialog.tsx:61-91 | one request for the page; a success installs `LoadPage`'s state, a failure keeps list and page and adds one toast; loading ends |
| UserListDialog.UserListDialog.NextPage | client/src/presentation/components/UserListDialog.tsx:114-118 | fetches the next page only when `currentPage < totalPages − 1`, otherwise changes nothing |
| UserListDialog.UserListDialog.PrevPage | client/src/presentation/components/UserListDialog.tsx:120-124 | fetches the previous page only when `currentPage > 0`, otherwise changes nothing |
| UserListDialog.UserListDialog.SetOpen | client/src/presentation/components/UserListDialog.tsx:93-97 | opening a closed dialog fetches page 0; anything else sends no request |
| UserListDialog.UserListDialog.SearchChanged | client/src/presentation/components/UserListDialog.tsx:99-107 | a changed term reloads page 0 while the dialog is open; otherwise no request |
| UserListDialog.UserListDialog.SelectUser | client/src/presentation/components/UserListDialog.tsx:109-112 | the user goes to the callback when one is given, and the dialog closes |
| InviteUserDialog.SetField | client/src/presentation/components/InviteUserDialog.tsx:58-61 | the edited field takes the value and every other field, tenant, roles and groups included, is unchanged |
| InviteUserDialog.BuildRandomPassword | client/src/presentation/components/InviteUserDialog.tsx:67-72 | twelve characters, the i-th being the alphabet's character at the i-th draw, all from the fixed 70-character alphabet |
| InviteUserDialog.GeneratedPasswordIsLongEnough | client/src/presentation/components/InviteUserDialog.tsx:70 | a generated password passes the eight-character check of the dialog and of the use case |
| InviteUserDialog.ValidateForm | client/src/presentation/components/InviteUserDialog.tsx:76-112 | passes iff all seven checks hold; each of the seven messages is given exactly when its check is the first to fail, in the dialog's order (first name, last name, username, email, password, pattern, username length) |
| InviteUserDialog.DialogAndUseCaseAgree | client/src/core/use-cases/UserUseCases.ts:39-70 | the dialog and the invite use case accept exactly the same invitations, although their check orders differ |
| InviteUserDialog.ValidFormSettlement | client/src/presentation/components/InviteUserDialog.tsx:122-123 | a form the dialog accepts reaches the repository once and settles as it did, a rejection under the prefix "Failed to invite user: " |
| InviteUserDialog.InvitedDescription | client/src/presentation/components/InviteUserDialog.tsx:128 | the first name, one space, the last name, then " has been invited to join the team." |
| InviteUserDialog.FailureMessage | client/src/presentation/components/InviteUserDialog.tsx:139 | the message the dialog shows for a rejected invitation is the use case's "Failed to invite user: " wrapping of the repository error |
| InviteUserDialog.InviteUserDialog.constructor | client/src/presentation/components/InviteUserDialog.tsx:37-51 | closed, the empty form, no error, no success |
| InviteUserDialog.InviteUserDialog.HandleInputChange | client/src/presentation/components/InviteUserDialog.tsx:56-65 | only the edited field changes and any shown error is cleared |
| InviteUserDialog.InviteUserDialog.GenerateRandomPassword | client/src/presentation/components/InviteUserDialog.tsx:67-74 | only the password changes, to twelve drawn characters |
| InviteUserDialog.InviteUserDialog.HandleSubmit | client/src/presentation/components/InviteUserDialog.tsx:114-149 | an invalid form only shows its first failing message; a valid one is submitted once; success sets `success`, toasts the title and "first last has been invited…", hands the user to the callback if any and starts the reset timer; failure shows and toasts "Failed to invite user: …"; loading ends |
| InviteUserDialog.InviteUserDialog.ShowSettlement | client/src/presentation/components/InviteUserDialog.tsx:119-148 | success sets `success`, toasts the title as the source text reads it (the mis-decoded "ðŸŽ‰") with the invited name, hands the user to the callback and starts the reset; failure records and toasts the message |
| InviteUserDialog.InviteUserDialog.ResetForm | client/src/presentation/components/InviteUserDialog.tsx:151-164 | the empty form, no error, no success |
| InviteUserDialog.InviteUserDialog.ResetTimerFires | client/src/presentation/components/InviteUserDialog.tsx:134-137 | the two-second timer resets the form and closes the dialog |
| InviteUserDialog.InviteUserDialog.HandleClose | client/src/presentation/components/InviteUserDialog.tsx:166-169 | resets the form and closes; a pending reset timer is not cancelled |
| InviteUserDialog.InviteUserDialog.SetOpen | client/src/presentation/components/InviteUserDialog.tsx:172 | `onOpenChange`: the dialog's open flag becomes the value given |
| SignupForm.SetField | client/src/presentation/components/SignupForm.tsx:40-43 | the edited field takes the value and every other field is unchanged |
| SignupForm.ValidateForm | client/src/presentation/components/SignupForm.tsx:49-83 | passes iff all seven checks hold; each of the seven messages is given exactly when its check is the first to fail (first name, last name, username, email, password, organization, pattern); no username length bound |
| SignupForm.SignupAcceptsShortUsernames | client/src/presentation/components/SignupForm.tsx:49-83 | a form signup accepts stays accepted with the username "ab", which the invite dialog refuses with its length message |
| SignupForm.SignupForm.constructor | client/src/presentation/components/SignupForm.tsx:22-33 | the empty form, not loading, no error, no success |
| SignupForm.SignupForm.HandleInputChange | client/src/presentation/components/SignupForm.tsx:38-47 | only the edited field changes and any shown error is cleared |
| SignupForm.SignupForm.HandleSubmit | client/src/presentation/components/SignupForm.tsx:85-107 | an invalid form makes no request and shows its message; a valid one is posted once; an error envelope shows its message, otherwise success is set and `onSuccess` called |
| ChatSocketClient.HexDigit | client/src/infrastructure/websocket/ChatWebSocketService.ts:55 | a hexadecimal digit of a percent escape is itself left alone by `encodeURIComponent` |
| ChatSocketClient.Utf8 | client/src/infrastructure/websocket/ChatWebSocketService.ts:55 | a code point becomes one to four bytes, a single byte exactly for ASCII |
| ChatSocketClient.PercentBytes | client/src/infrastructure/websocket/ChatWebSocketService.ts:55 | three characters per byte, each unreserved or '%' |
| ChatSocketClient.EncodeURIComponent | client/src/infrastructure/websocket/ChatWebSocketService.ts:55 | the result has only unreserved characters and '%', is never shorter, and leaves a string of unreserved characters unchanged |
| ChatSocketClient.WithDefaults | client/src/infrastructure/websocket/ChatWebSocketService.ts:31-38 | every option is set; each given option is kept; each absent one takes its default: ws://localhost:8081, 3000 ms and 5 |
| ChatSocketClient.ReconnectCap | client/src/infrastructure/websocket/ChatWebSocketService.ts:93 | `maxReconnectAttempts \|\| 5`: a given non-zero cap is kept, an absent or 0 cap gives 5, so never 0 |
| ChatSocketClient.ConnectParams | client/src/infrastructure/websocket/ChatWebSocketService.ts:51-56 | the query is `userId=…&targetUserId=…`, with `token=` and the encoded token appended exactly when the token is truthy |
| ChatSocketClient.Normalize | client/src/infrastructure/websocket/ChatWebSocketService.ts:71-79 | each field takes the first truthy of its spellings, then its fallback: id ← id or the current time; content ← content, message, ""; senderId ← senderId, from, ""; senderName ← senderName, fromName, 'Unknown'; targetUserId ← targetUserId or to (both directions); timestamp ← timestamp or now; type ← a truthy type, else "text" |
| ChatSocketClient.EchoRoundTrip | client/src/infrastructure/websocket/ChatWebSocketService.ts:158-164 | a frame this client sends, read back by its own `onmessage`, is received as the same message |
| ChatSocketClient.ChatSocketService.constructor | client/src/infrastructure/websocket/ChatWebSocketService.ts:22-38 | defaults merged, no socket, no timer, no handlers, zero attempts |
| ChatSocketClient.ChatSocketService.CloseCurrent | client/src/infrastructure/websocket/ChatWebSocketService.ts:136-144 | the timer is cleared and the current socket, if any, is asked to close normally and dropped; its own close and error events still arrive later (see ReplacedSocketClosed and ReplacedSocketError) |
| ChatSocketClient.ChatSocketService.Disconnect | client/src/infrastructure/websocket/ChatWebSocketService.ts:135-149 | no socket, no timer, not connecting, zero attempts, and the handlers are told false even when already disconnected |
| ChatSocketClient.ChatSocketService.OpenSocket | client/src/infrastructure/websocket/ChatWebSocketService.ts:50-58 | a new CONNECTING socket on the connect URL, or, when the constructor throws, no socket, not connecting and a rejected promise |
| ChatSocketClient.ChatSocketService.ConnectAsWritten | client/src/infrastructure/websocket/ChatWebSocketService.ts:40-118 | resolves at once and changes nothing iff already connecting or open; otherwise the clean-up closes the old socket, tells the handlers, and leaves `isConnecting` false and the attempts at 0 before the new socket opens |
| ChatSocketClient.ChatSocketService.Connect | client/src/infrastructure/websocket/ChatWebSocketService.ts:40-118 | as `connect` evidently intends: the same guard and clean-up, but `isConnecting` stays set while the socket opens and the attempt count is kept |
| ChatSocketClient.ChatSocketService.SocketOpened | client/src/infrastructure/websocket/ChatWebSocketService.ts:60-66 | the socket is open, not connecting, attempts 0, every connection handler told true, the promise resolved |
| ChatSocketClient.ChatSocketService.SocketMessage | client/src/infrastructure/websocket/ChatWebSocketService.ts:68-85 | a parsed frame is normalised and handed to every message handler once; an unparsable one reaches no handler |
| ChatSocketClient.ChatSocketService.SocketClosed | client/src/infrastructure/websocket/ChatWebSocketService.ts:87-96 | handlers told false; a reconnect is scheduled exactly when the code is not 1000 and the attempts are under the cap; a bounded retry state stays bounded |
| ChatSocketClient.ChatSocketService.ReplacedSocketClosed | client/src/infrastructure/websocket/ChatWebSocketService.ts:87-96 | the close of a replaced socket clears `isConnecting` and tells the handlers false; with a code other than 1000 (the 1006 of a socket closed while connecting) and the attempt count under the cap it schedules a reconnect to the arguments that socket captured; the retry bound is kept |
| ChatSocketClient.ChatSocketService.ReplacedSocketError | client/src/infrastructure/websocket/ChatWebSocketService.ts:98-103 | the error of a replaced socket clears `isConnecting` and tells the handlers false; the promise it rejects is that socket's own |
| ChatSocketClient.ChatSocketService.DisconnectWhileConnecting | client/src/infrastructure/websocket/ChatWebSocketService.ts:87-96 | `disconnect()` of a socket still connecting resets the attempt count, so that socket's abnormal close schedules a reconnect to the old arguments |
| ChatSocketClient.ChatSocketService.SocketError | client/src/infrastructure/websocket/ChatWebSocketService.ts:98-103 | not connecting, handlers told false, the promise rejected if still pending |
| ChatSocketClient.ChatSocketService.ConnectTimeout | client/src/infrastructure/websocket/ChatWebSocketService.ts:106-111 | a connect still in progress is rejected with the timeout; otherwise nothing changes |
| ChatSocketClient.ChatSocketService.ScheduleReconnect | client/src/infrastructure/websocket/ChatWebSocketService.ts:120-125 | any waiting reconnect is replaced, so at most one is pending |
| ChatSocketClient.ChatSocketService.ReconnectTimerFiresAsWritten | client/src/infrastructure/websocket/ChatWebSocketService.ts:125-132 | as written, the attempt counted by the timer is reset to 0 by the `connect` it starts |
| ChatSocketClient.ChatSocketService.ReconnectTimerFires | client/src/infrastructure/websocket/ChatWebSocketService.ts:125-132 | as intended, the attempt is counted, survives the new `connect`, and never exceeds the cap |
| ChatSocketClient.ChatSocketService.SendMessage | client/src/infrastructure/websocket/ChatWebSocketService.ts:151-170 | true and the frame with its id and timestamp sent exactly when the socket is open and `send` does not throw; otherwise false and nothing sent |
| ChatSocketClient.ChatSocketService.OnMessage | client/src/infrastructure/websocket/ChatWebSocketService.ts:176-177 | appends the handler |
| ChatSocketClient.ChatSocketService.UnsubscribeMessage | client/src/infrastructure/websocket/ChatWebSocketService.ts:180-185 | removes the first registration of the handler, if any |
| ChatSocketClient.ChatSocketService.OnConnectionChange | client/src/infrastructure/websocket/ChatWebSocketService.ts:188-189 | appends the handler |
| ChatSocketClient.ChatSocketService.UnsubscribeConnection | client/src/infrastructure/websocket/ChatWebSocketService.ts:192-197 | removes the first registration of the handler, if any |
| ChatSocketClient.ChatSocketService.NotifyMessageHandlers | client/src/infrastructure/websocket/ChatWebSocketService.ts:200-208 | every message handler once, in registration order |
| ChatSocketClient.ChatSocketService.NotifyConnectionHandlers | client/src/infrastructure/websocket/ChatWebSocketService.ts:210-218 | every connection handler once, in registration order |
| ChatSocketClient.RetriesForeverAsWritten | client/src/infrastructure/websocket/ChatWebSocketService.ts:120-131 | as written, against a server that always closes abnormally, a reconnect is still pending after any number of failures although the cap is 1 |
| ChatSocketClient.RetriesStop | client/src/infrastructure/websocket/ChatWebSocketService.ts:87-96 | as intended, after `cap` failed reconnects none is pending |
| Sessions.SessionKeyInjective | chat-service/src/main/java/com/zylo/chatservice/websocket/SessionManager.java:21-28 | distinct user ids never share a `user_session:` key |
| Sessions.SessionKey | chat-service/src/main/java/com/zylo/chatservice/websocket/SessionManager.java:21-28 | `user_session:` followed by the user id as Java prints it, "null" for a null id |
| Sessions.NullIdSharesKeyWithUserNull | chat-service/src/main/java/com/zylo/chatservice/websocket/SessionManager.java:38 | a null user id is looked up under the same key as the user whose id is the text "null" |
| Sessions.KeyValueStore.constructor | chat-service/src/main/java/com/zylo/chatservice/websocket/SessionManager.java:12-13 | the shared store starts empty |
| Sessions.SessionManager.constructor | chat-service/src/main/java/com/zylo/chatservice/websocket/SessionManager.java:13-21 | the given server id and store, no local sessions |
| Sessions.SessionManager.GetSession | chat-service/src/main/java/com/zylo/chatservice/websocket/SessionManager.java:32-34 | a session exactly when one is stored locally for the user, and that one |
| Sessions.SessionManager.GetSessionServerId | chat-service/src/main/java/com/zylo/chatservice/websocket/SessionManager.java:37-40 | the server the shared store names for the key, null exactly when the key is missing |
| Sessions.SessionManager.AddSession | chat-service/src/main/java/com/zylo/chatservice/websocket/SessionManager.java:24-29 | afterwards the user's session is found here and the store names this server; every other user's session and server are unchanged |
| Sessions.SessionManager.RemoveSession | chat-service/src/main/java/com/zylo/chatservice/websocket/SessionManager.java:43-46 | afterwards the user has no session here and no server in the store, whoever had written it; other users are unchanged |
| Sessions.SessionManager.RemoveSessionOf | chat-service/src/main/java/com/zylo/chatservice/websocket/SessionManager.java:43-46 | as intended: removal happens only for the session still registered, and the store key only while it names this server; other users are unchanged |
| Sessions.SessionManager.IsUserOnThisServer | chat-service/src/main/java/com/zylo/chatservice/websocket/SessionManager.java:49-52 | true exactly when the shared store has the user's key and it names this server |
| ChatHandler.CastString | chat-service/src/main/java/com/zylo/chatservice/config/ChatWebSocketHandler.java:58-63 | `(String)` throws exactly on a non-string, non-null value and gives null exactly for a missing key or JSON null |
| ChatHandler.Serialize | client/src/infrastructure/websocket/ChatWebSocketService.ts:158-164 | `JSON.stringify` of a sent frame: the message fields plus id and timestamp, all strings, with `targetUserId` only when set |
| ChatHandler.ToDto | chat-service/src/main/java/com/zylo/chatservice/config/ChatWebSocketHandler.java:57-63 | fails exactly when a read field is neither string nor null; otherwise each field is copied, `targetUserId` becomes the receiver, and `type` is "text" only when the key is missing |
| ChatHandler.ClientFrameMapsToDto | chat-service/src/main/java/com/zylo/chatservice/config/ChatWebSocketHandler.java:54-63 | the frame the client's `sendMessage` writes (client/src/infrastructure/websocket/ChatWebSocketService.ts:158-164) arrives as a DTO with the same content, sender, timestamp and type, its target as receiver |
| ChatHandler.ChatWebSocketHandler.constructor | chat-service/src/main/java/com/zylo/chatservice/config/ChatWebSocketHandler.java:20-23 | the given session manager, nothing published |
| ChatHandler.ChatWebSocketHandler.AfterConnectionEstablished | chat-service/src/main/java/com/zylo/chatservice/config/ChatWebSocketHandler.java:26-34 | a session with a user id is registered under it; without one nothing changes; a single server keeps every user's newest open session reachable |
| ChatHandler.ChatWebSocketHandler.AfterConnectionClosedAsWritten | chat-service/src/main/java/com/zylo/chatservice/config/ChatWebSocketHandler.java:37-45 | as written, the close of any session of the user removes the user's registration |
| ChatHandler.ChatWebSocketHandler.AfterConnectionClosed | chat-service/src/main/java/com/zylo/chatservice/config/ChatWebSocketHandler.java:37-45 | as intended, only the closing session's own registration is removed, so every user's newest open session stays reachable |
| ChatHandler.ChatWebSocketHandler.HandleTextMessage | chat-service/src/main/java/com/zylo/chatservice/config/ChatWebSocketHandler.java:48-72 | a parsable frame whose fields cast is published once on the chat exchange and routing key; anything else is caught and publishes nothing |
| ChatHandler.StaleCloseAsWritten | chat-service/src/main/java/com/zylo/chatservice/config/ChatWebSocketHandler.java:37-45 | as written, a user with a newer open session is unreachable after the older session closes |
| ChatHandler.StaleClose | chat-service/src/main/java/com/zylo/chatservice/config/ChatWebSocketHandler.java:37-45 | as intended, the same events leave the newer session registered on this server |
| ChatHandler.MovedUserAsWritten | chat-service/src/main/java/com/zylo/chatservice/websocket/SessionManager.java:43-46 | as written, server A's close of a user's old session erases the key server B wrote for the user's new session |
| ChatHandler.MovedUser | chat-service/src/main/java/com/zylo/chatservice/websocket/SessionManager.java:43-46 | as intended, A's close leaves B owning the user |
| ChatRouting.LocalRoute | chat-service/src/main/java/com/zylo/chatservice/config/ChatMessageListener.java:29-37 | delivered exactly when the receiver has a session here and it is open, and to that session; a null receiver fails; never forwarded |
| ChatRouting.AsReceived | chat-service/src/main/java/com/zylo/chatservice/config/ChatMessageListener.java:33 | the DTO the server writes reaches the client with its content, sender, timestamp and type, and no id, target or alternative spellings |
| ChatRouting.RelayedMessageLosesTargetAndId | chat-service/src/main/java/com/zylo/chatservice/config/ChatMessageListener.java:33 | a client frame relayed by the server reaches the receiving client with no target and a locally made id, its content intact |
| ChatRouting.ChatMessageListener.constructor | chat-service/src/main/java/com/zylo/chatservice/config/ChatMessageListener.java:14-23 | nothing sent, nothing forwarded |
| ChatRouting.ChatMessageListener.HandleMessage | chat-service/src/main/java/com/zylo/chatservice/config/ChatMessageListener.java:25-43 | forwarded on `chat_channel` exactly when the store does not name this server; otherwise routed locally, writing one frame only on delivery |
| ChatRouting.ConnectedReceiverGetsIt | chat-service/src/main/java/com/zylo/chatservice/config/ChatMessageListener.java:29-34 | a receiver connected here with an open session gets the message on that session |
| RedisRelay.RedisChatSubscriber.constructor | chat-service/src/main/java/com/zylo/chatservice/config/RedisChatSubscriber.java:14-18 | nothing sent |
| RedisRelay.RedisChatSubscriber.OnMessage | chat-service/src/main/java/com/zylo/chatservice/config/RedisChatSubscriber.java:20-44 | never forwards again; an unparsable body or a receiver owned elsewhere is dropped; otherwise routed locally, writing one frame only on delivery |
| RedisRelay.ForwardedReachesOwner | chat-service/src/main/java/com/zylo/chatservice/config/RedisChatSubscriber.java:30-35 | a message for a user on another server is forwarded by this one, delivered by the owner, and dropped by this one's own subscriber |
| HandshakeAuth.HexValue | chat-service/src/main/java/com/zylo/chatservice/config/AuthHandshakeInterceptor.java:38 | a hexadecimal digit's value is below 16 |
| HandshakeAuth.HexDigitValue | chat-service/src/main/java/com/zylo/chatservice/config/AuthHandshakeInterceptor.java:38 | decoding reads back every digit `encodeURIComponent` writes |
| HandshakeAuth.UrlDecode | chat-service/src/main/java/com/zylo/chatservice/config/AuthHandshakeInterceptor.java:38 | the decoded parameter is never longer than its encoding |
| HandshakeAuth.UrlDecodePlain | chat-service/src/main/java/com/zylo/chatservice/config/AuthHandshakeInterceptor.java:38 | text without `%` or `+` decodes to itself |
| HandshakeAuth.SplitPair | chat-service/src/main/java/com/zylo/chatservice/config/AuthHandshakeInterceptor.java:38 | a query piece without '=' is a name with an empty value; otherwise the name has no '=' and name, '=', value give back the piece |
| HandshakeAuth.FirstValue | chat-service/src/main/java/com/zylo/chatservice/config/AuthHandshakeInterceptor.java:38 | none exactly when no piece has the name; otherwise the decoded value of the first piece that has it |
| HandshakeAuth.GetParameter | chat-service/src/main/java/com/zylo/chatservice/config/AuthHandshakeInterceptor.java:38 | the query split on '&': none exactly when no piece has the name; a query of one piece answers its decoded value exactly when it has the name |
| HandshakeAuth.TokenOf | chat-service/src/main/java/com/zylo/chatservice/config/AuthHandshakeInterceptor.java:33-39 | a token only for a servlet request, and for one exactly when some query piece is named `token` |
| HandshakeAuth.FirstValueSkips | chat-service/src/main/java/com/zylo/chatservice/config/AuthHandshakeInterceptor.java:38 | `getParameter` passes over a piece under another name |
| HandshakeAuth.FirstValueFinds | chat-service/src/main/java/com/zylo/chatservice/config/AuthHandshakeInterceptor.java:38 | `getParameter` returns the first piece under the name |
| HandshakeAuth.Handshake.constructor | chat-service/src/main/java/com/zylo/chatservice/config/AuthHandshakeInterceptor.java:27-31 | the given attributes, no status |
| HandshakeAuth.Handshake.BeforeHandshake | chat-service/src/main/java/com/zylo/chatservice/config/AuthHandshakeInterceptor.java:27-54 | accepted exactly when a servlet request carries a non-blank `token` the decoder accepts, storing its subject as `userId`; otherwise 401 and attributes unchanged |
| HandshakeAuth.DecodeEncodeAscii | chat-service/src/main/java/com/zylo/chatservice/config/AuthHandshakeInterceptor.java:38 | decoding undoes the client's `encodeURIComponent` (client/src/infrastructure/websocket/ChatWebSocketService.ts:55) on ASCII text |
| HandshakeAuth.EncodedHasNoAmpersand | client/src/infrastructure/websocket/ChatWebSocketService.ts:55 | an encoded token cannot split the query |
| HandshakeAuth.ConnectQueryPieces | client/src/infrastructure/websocket/ChatWebSocketService.ts:51-56 | the server splits the connect query into exactly the pieces the client joined |
| HandshakeAuth.ClientTokenReachesServer | chat-service/src/main/java/com/zylo/chatservice/config/AuthHandshakeInterceptor.java:36-39 | the server reads the very token the client put in the connect URL (client/src/infrastructure/websocket/ChatWebSocketService.ts:51-56) |
| HandshakeAuth.NoTokenIsRefused | chat-service/src/main/java/com/zylo/chatservice/config/AuthHandshakeInterceptor.java:41-44 | a client without a token presents none, so it is refused whatever user ids it claims |
| ChannelMembers.EqualsIsEquivalence | chat-service/src/main/java/com/zylo/chatservice/entity/ChannelMemberId.java:31-38 | `equals` is reflexive, symmetric and transitive, and false for null and other classes |
| ChannelMembers.Equals | chat-service/src/main/java/com/zylo/chatservice/entity/ChannelMemberId.java:31-38 | true only for another `ChannelMemberId`, and for one exactly when channel ids and user ids are equal (null equal to null) |
| ChannelMembers.SameUuid | chat-service/src/main/java/com/zylo/chatservice/entity/ChannelMemberId.java:36-37 | `Objects.equals` on two UUIDs: true exactly when both are null or both are the same UUID |
| ChannelMembers.UuidsWithSameHalves | chat-service/src/main/java/com/zylo/chatservice/entity/ChannelMemberId.java:36-37 | UUIDs with the same two halves are the same UUID, as `UUID.equals` compares them |
| ChannelMembers.EqualIdsHashAlike | chat-service/src/main/java/com/zylo/chatservice/entity/ChannelMemberId.java:40-43 | equal ids have equal hash codes |
| ChannelMembers.HashCode | chat-service/src/main/java/com/zylo/chatservice/entity/ChannelMemberId.java:40-43 | `Objects.hash(channelId, userId)` is `Arrays.hashCode` of the two element hashes, with 32-bit wrap-around |
| ChannelMembers.UuidHash | chat-service/src/main/java/com/zylo/chatservice/entity/ChannelMemberId.java:42 | `UUID.hashCode` folds the exclusive-or of the two halves: swapping the halves keeps the hash, and equal halves hash to 0 |
| ChannelMembers.NullChannelHash | chat-service/src/main/java/com/zylo/chatservice/entity/ChannelMemberId.java:40-43 | an id without a channel hashes to 961 plus its user's hash; with neither, to 961 |
| Accounts.WithId | auth-service/src/main/java/com/zylo/authservice/repository/AccountsRepository.java:49 | exactly the tenants whose id matches: every one of them, none invented, empty exactly when none matches |
| Accounts.WithName | auth-service/src/main/java/com/zylo/authservice/repository/AccountsRepository.java:58-63 | exactly the tenants whose name matches exactly |
| Accounts.WithLowerName | auth-service/src/main/java/com/zylo/authservice/repository/AccountsRepository.java:127 | exactly the tenants whose lower-cased name matches: every one of them, none invented, empty exactly when none matches |
| Accounts.SingleResult | auth-service/src/main/java/com/zylo/authservice/repository/AccountsRepository.java:52 | `getSingleResult`: the one row when there is exactly one, NoResult for none, NonUniqueResult for more |
| Accounts.TenantIdByName | auth-service/src/main/java/com/zylo/authservice/repository/AccountsRepository.java:123-130 | an id exactly when one tenant's name equals the name ignoring case; an exception, never null, when none does |
| Accounts.TenantById | auth-service/src/main/java/com/zylo/authservice/repository/AccountsRepository.java:106-112 | the tenant with that id, failing exactly when no tenant has it or the id is null |
| Accounts.CaseVariantsBreakLookup | auth-service/src/main/java/com/zylo/authservice/repository/AccountsRepository.java:127-128 | two tenants whose names differ only in case make the lookup of either throw |
| Accounts.LookupIgnoresCase | auth-service/src/main/java/com/zylo/authservice/repository/AccountsRepository.java:127 | an upper-cased name finds the same tenant |
| Accounts.AddMember | auth-service/src/main/java/com/zylo/authservice/repository/AccountsRepository.java:95-102 | `SADD` puts the value in that tenant's set and leaves every other tenant's set alone |
| Accounts.ResolveTenant | auth-service/src/main/java/com/zylo/authservice/repository/AccountsRepository.java:39-73 | a context id in the `tenants` set selects that tenant, failing unless exactly one row has it, with nothing changed; otherwise an existing tenant of that exact name is reused with the table unchanged, or, when none, `Tenant(freshId, name)` is appended; it joins the set, fills an empty context and enables the filter; users and caches untouched |
| Accounts.Joined | auth-service/src/main/java/com/zylo/authservice/repository/AccountsRepository.java:53 | `user.setTenant`: the user with the tenant's id and name and every other field unchanged |
| Accounts.RegisterAsWritten | auth-service/src/main/java/com/zylo/authservice/repository/AccountsRepository.java:75-103 | as written: created exactly when neither value is cached for the tenant and no visible user has the username or email; then appended and both values cached; a rejection keeps the users |
| Accounts.Register | auth-service/src/main/java/com/zylo/authservice/repository/AccountsRepository.java:75-103 | corrected: created exactly when neither value is cached and no user of the tenant has either; a rejection caches only the values a user of the tenant holds |
| Accounts.CreateUserOnAsWritten | auth-service/src/main/java/com/zylo/authservice/repository/AccountsRepository.java:38-104 | as written: a failed resolution changes nothing; a created user is the request joined to the resolved tenant, appended once, its tenant in the `tenants` set; a rejection keeps the users |
| Accounts.CreateUserOn | auth-service/src/main/java/com/zylo/authservice/repository/AccountsRepository.java:38-104 | corrected: the same resolution and creation facts as the as-written version |
| Accounts.CachedValueRejected | auth-service/src/main/java/com/zylo/authservice/repository/AccountsRepository.java:78-83 | a username or email already in the tenant's sets is rejected with nothing persisted or cached, in both versions |
| Accounts.CreatedUserIsStored | auth-service/src/main/java/com/zylo/authservice/repository/AccountsRepository.java:100-103 | a created user is appended once, in the resolved tenant, and both its values are cached for that tenant |
| Accounts.CacheOnlyGrows | auth-service/src/main/java/com/zylo/authservice/repository/AccountsRepository.java:95-102 | the username and email sets only ever grow |
| Accounts.CorrectedCacheOnlyGrows | auth-service/src/main/java/com/zylo/authservice/repository/AccountsRepository.java:95-102 | the corrected version keeps that property |
| Accounts.HoldingsGrow | auth-service/src/main/java/com/zylo/authservice/repository/AccountsRepository.java:100 | persisting a user keeps every username and email a tenant already holds |
| Accounts.CreateUserKeepsCacheSound | auth-service/src/main/java/com/zylo/authservice/repository/AccountsRepository.java:85-103 | with the corrected duplicate check every cached value stays backed by a user of its tenant |
| Accounts.CreateUserRejectsExactlyDuplicates | auth-service/src/main/java/com/zylo/authservice/repository/AccountsRepository.java:78-98 | with a sound cache, the corrected `createUser` rejects exactly the users whose username or email a user of the tenant already has |
| Accounts.FalseDuplicateAsWritten | auth-service/src/main/java/com/zylo/authservice/repository/AccountsRepository.java:94-98 | as written, a rejected request caches an email nobody holds, and a later request with that email is wrongly rejected |
| Accounts.FalseDuplicateCorrected | auth-service/src/main/java/com/zylo/authservice/repository/AccountsRepository.java:94-98 | as intended, the same two requests: the first rejected, the second created |
| Accounts.Database.constructor | auth-service/src/main/java/com/zylo/authservice/repository/AccountsRepository.java:28-29 | the given tables, no session filter |
| Accounts.Redis.constructor | auth-service/src/main/java/com/zylo/authservice/repository/AccountsRepository.java:31-36 | all sets and values empty |
| Accounts.TenantContext.constructor | auth-service/src/main/java/com/zylo/authservice/repository/AccountsRepository.java:68-69 | no tenant in the context |
| Accounts.AccountsRepository.constructor | auth-service/src/main/java/com/zylo/authservice/repository/AccountsRepository.java:24-26 | the given database, Redis and context |
| Accounts.AccountsRepository.ResolveTenantStep | auth-service/src/main/java/com/zylo/authservice/repository/AccountsRepository.java:39-73 | the new state and tenant are those of `ResolveTenant`; a failure changes nothing |
| Accounts.AccountsRepository.CreateUserAsWritten | auth-service/src/main/java/com/zylo/authservice/repository/AccountsRepository.java:38-104 | the new state and outcome are those of the as-written `createUser` |
| Accounts.AccountsRepository.CreateUser | auth-service/src/main/java/com/zylo/authservice/repository/AccountsRepository.java:38-104 | the new state and outcome are those of the corrected `createUser`, which keeps the cache sound |
| TenantFiltering.OrgName | auth-service/src/main/java/com/zylo/authservice/config/TenantFilter.java:48-49 | the organization exactly when `groups` is present, non-empty and its first entry has a second path component; a missing claim is its own error |
| TenantFiltering.CacheKey | auth-service/src/main/java/com/zylo/authservice/config/TenantFilter.java:50 | "tenant:" followed by the organization name |
| TenantFiltering.SessionStart | auth-service/src/main/java/com/zylo/authservice/entity/User.java:17-18 | each request starts on a fresh Hibernate session, so the tenant filter is off, while the thread-bound context carries over |
| TenantFiltering.FilterBefore | auth-service/src/main/java/com/zylo/authservice/config/TenantFilter.java:37-63 | the tables and sets are untouched and cached tenants kept; a resolved tenant is in the context and the filter; any other step leaves the fresh session as it began; the anonymous pass exactly for no or anonymous authentication |
| TenantFiltering.FilterAfter | auth-service/src/main/java/com/zylo/authservice/config/TenantFilter.java:64-66 | after a chain run with a tenant the context and filter are cleared and nothing else changes; after any other step nothing changes |
| TenantFiltering.FilterExit | auth-service/src/main/java/com/zylo/authservice/config/TenantFilter.java:65-66 | as intended on every exit: context and filter cleared, nothing else changed |
| TenantFiltering.UnauthenticatedPassesThrough | auth-service/src/main/java/com/zylo/authservice/config/TenantFilter.java:39-46 | no authentication and the anonymous user run the chain without resolving a tenant, on the request's fresh session (filter off) with the thread's context as it was |
| TenantFiltering.JwtAlwaysResolvesOrFails | auth-service/src/main/java/com/zylo/authservice/config/TenantFilter.java:51-56 | a JWT request never reaches the "no tenant" branch: it resolves a tenant or throws |
| TenantFiltering.ResolvedTenantIsInContext | auth-service/src/main/java/com/zylo/authservice/config/TenantFilter.java:50-63 | while the chain runs after a resolution, the context and the session filter hold the tenant cached under `tenant:<name>` |
| TenantFiltering.CacheHitSkipsDatabase | auth-service/src/main/java/com/zylo/authservice/config/TenantFilter.java:50-51 | on a cache hit the tenants table does not affect the outcome |
| TenantFiltering.CacheMissLooksUp | auth-service/src/main/java/com/zylo/authservice/config/TenantFilter.java:51-57 | on a miss the chain runs exactly when the case-insensitive lookup succeeds, whose id is then cached and put in the context; no match rejects |
| TenantFiltering.AfterClearsWhatItSet | auth-service/src/main/java/com/zylo/authservice/config/TenantFilter.java:64-66 | after a normal return the context and filter are cleared whenever the filter set them |
| TenantFiltering.TenantFilter.constructor | auth-service/src/main/java/com/zylo/authservice/config/TenantFilter.java:29-30 | the given repository |
| TenantFiltering.TenantFilter.BeforeChain | auth-service/src/main/java/com/zylo/authservice/config/TenantFilter.java:37-63 | the new state and step are those of `FilterBefore` |
| TenantFiltering.TenantFilter.AfterChain | auth-service/src/main/java/com/zylo/authservice/config/TenantFilter.java:65-66 | the new state is that of `FilterAfter` |
| TenantFiltering.TenantFilter.Exit | auth-service/src/main/java/com/zylo/authservice/config/TenantFilter.java:65-66 | as intended, the context and filter are cleared however the request ends |
| KeycloakAccounts.AfterLastSlash | auth-service/src/main/java/com/zylo/authservice/service/AccountsService.java:46 | the suffix after the last '/', with no '/' in it |
| KeycloakAccounts.AfterLastSlashOfSegment | auth-service/src/main/java/com/zylo/authservice/service/AccountsService.java:46 | a path ending in `/<id>` gives `<id>` |
| KeycloakAccounts.LastSegmentOfLocation | auth-service/src/main/java/com/zylo/authservice/service/AccountsService.java:46 | the id at the end of a `Location` path comes back out |
| KeycloakAccounts.LastSegmentKeepsOtherPaths | auth-service/src/main/java/com/zylo/authservice/service/AccountsService.java:46 | a path with no '/' or ending in '/' is left unchanged by the `replaceAll` |
| KeycloakAccounts.LastSegment | auth-service/src/main/java/com/zylo/authservice/service/AccountsService.java:46 | `replaceAll(".*/([^/]+)$", "$1")`: for a path with a '/' and not ending in one, the non-empty suffix after the last '/'; any other path unchanged |
| KeycloakAccounts.FirstUserNamed | auth-service/src/main/java/com/zylo/authservice/service/AccountsService.java:107 | the first user whose username is exactly the name (no earlier user has it), none exactly when no user has it |
| KeycloakAccounts.FirstGroupNamed | auth-service/src/main/java/com/zylo/authservice/service/AccountsService.java:98 | the first group named exactly the organization (no earlier group has the name), none exactly when no group has it |
| KeycloakAccounts.InviteGroup | auth-service/src/main/java/com/zylo/authservice/service/AccountsService.java:68-75 | with an inviter's username, the first group of the first user with that name; InviterNotFound exactly when no user has the name, InviterHasNoGroup exactly when that user has no group; otherwise the id of the first group named after the organization, OrganizationGroupNotFound exactly when none is; neither given is an error |
| KeycloakAccounts.InviterDecides | auth-service/src/main/java/com/zylo/authservice/service/AccountsService.java:69-72 | once the inviter's username is given the organization does not matter |
| KeycloakAccounts.OrganizationCheckedFirst | auth-service/src/main/java/com/zylo/authservice/service/AccountsService.java:35-37 | a missing or empty organization is refused before any call on the realm |
| KeycloakAccounts.PasswordCredential | auth-service/src/main/java/com/zylo/authservice/service/AccountsService.java:122-128 | a password credential with the request's password, not temporary |
| KeycloakAccounts.Representation | auth-service/src/main/java/com/zylo/authservice/service/AccountsService.java:130-144 | the request's username, email and names, enabled, email not verified, exactly the one role under client `zylo-web`, and the one password credential |
| KeycloakAccounts.GroupsOf | auth-service/src/main/java/com/zylo/authservice/service/AccountsService.java:111 | the groups the directory lists for the user, none for an unknown user |
| KeycloakAccounts.FinishAccount | auth-service/src/main/java/com/zylo/authservice/service/AccountsService.java:47-48 | the join is always made and the verification email only after a successful join; it succeeds exactly when both do, a failed join and a failed email giving their own errors |
| KeycloakAccounts.RootSignup | auth-service/src/main/java/com/zylo/authservice/service/AccountsService.java:31-49 | no organization: no call and an error; otherwise the group is created first, a failed group stops there, a failed user creation after two calls; success exactly when group, user, join and email all succeed; the only user created is the T_ADMIN representation |
| KeycloakAccounts.Invitation | auth-service/src/main/java/com/zylo/authservice/service/AccountsService.java:61-90 | an unusable token makes no call; any call made starts with creating the T_USER representation, after the group was found; success exactly when the user is created and join and email succeed |
| KeycloakAccounts.RootSignupCreatesAdmin | auth-service/src/main/java/com/zylo/authservice/service/AccountsService.java:38-48 | a successful root signup makes four calls: the group, one enabled T_ADMIN user with the request's password, the join by the ids at the end of the two `Location` paths, the verification email |
| KeycloakAccounts.SuccessfulRootSignupCalls | auth-service/src/main/java/com/zylo/authservice/service/AccountsService.java:38-48 | a successful root signup makes exactly the group, user, join and email calls, the ids taken from the `Location` paths |
| KeycloakAccounts.FollowUpFailureKeepsCreatedUser | auth-service/src/main/java/com/zylo/authservice/service/AccountsService.java:42-48 | a failed join or verification email fails the signup although the Keycloak user was already created |
| KeycloakAccounts.InvitationNeedsOrganizationClaim | auth-service/src/main/java/com/zylo/authservice/service/AccountsService.java:118-120 | an invitation whose token names no organization fails before any call, even when the inviter is known |
| KeycloakAccounts.InvitationCreatesUser | auth-service/src/main/java/com/zylo/authservice/service/AccountsService.java:77-89 | a successful invitation creates one T_USER user, joins it to the group chosen for the inviter, and sends the email |
| KeycloakAccounts.AccountsService.constructor | auth-service/src/main/java/com/zylo/authservice/service/AccountsService.java:23-27 | no calls made yet |
| KeycloakAccounts.AccountsService.CreateUserInAccounts | auth-service/src/main/java/com/zylo/authservice/service/AccountsService.java:31-49 | the calls made and the outcome are those of `RootSignup`, the join and verify-email outcomes included |
| KeycloakAccounts.AccountsService.RegisterInvitedUser | auth-service/src/main/java/com/zylo/authservice/service/AccountsService.java:61-90 | the calls made and the outcome are those of `Invitation`, the join and verify-email outcomes included |
| AdminServices.RootUserJoinsOrganization | auth-service/src/main/java/com/zylo/authservice/service/AdminService.java:28-40 | with `createUser` as written, a created root user is an ADMIN of the tenant named after its organization, unless the context already names a cached tenant |
| AdminServices.UserFor | auth-service/src/main/java/com/zylo/authservice/service/AdminService.java:42-52 | the user carries the request's fields, the role and the tenant, and its full name is the first and last names around one space |
| AdminServices.RootUser | auth-service/src/main/java/com/zylo/authservice/service/AdminService.java:36-40 | an ADMIN user of a new tenant named after the organization, with no id |
| AdminServices.InvitedUser | auth-service/src/main/java/com/zylo/authservice/service/AdminService.java:62-65 | a USER of the looked-up tenant, with its id and name |
| AdminServices.RootOn | auth-service/src/main/java/com/zylo/authservice/service/AdminService.java:28-33 | the database side of `createRootUser`, through `createUser` as written: a created user is an ADMIN with the request's username, appended once; a failure is the repository's and keeps the users |
| AdminServices.InviteOn | auth-service/src/main/java/com/zylo/authservice/service/AdminService.java:54-65 | the database side of `registerInvitedUser`, through `createUser` as written: a failed tenant lookup changes nothing; a created user is a USER with the request's username, appended once; a failure keeps the users |
| AdminServices.CreatedJoinsResolved | auth-service/src/main/java/com/zylo/authservice/repository/AccountsRepository.java:53-67 | with `createUser` as written, a created user is joined to the tenant the resolution picked |
| AdminServices.ResolvesContextTenant | auth-service/src/main/java/com/zylo/authservice/repository/AccountsRepository.java:44-56 | when the context holds a known tenant's id, the resolution picks that tenant |
| AdminServices.FirstSignupOnFresh | auth-service/src/main/java/com/zylo/authservice/repository/AccountsRepository.java:57-73 | with `createUser` as written, the first root signup on an empty store creates its tenant, is its only user, puts the tenant id in the context and caches only its own values |
| AdminServices.SignupJoinsContextTenant | auth-service/src/main/java/com/zylo/authservice/repository/AccountsRepository.java:44-56 | with `createUser` as written and the session filter off, a second signup whose thread context still holds the first tenant passes the duplicate check and joins that tenant |
| AdminServices.SignupBesideOneTenant | auth-service/src/main/java/com/zylo/authservice/repository/AccountsRepository.java:57-73 | with `createUser` as written and an empty context, a second signup for another organization gets a new tenant of its own |
| AdminServices.InvitedUserJoinsContextTenant | auth-service/src/main/java/com/zylo/authservice/service/AdminService.java:54-65 | with `createUser` as written, a created invited user is a USER of exactly the tenant whose id the context holds |
| AdminServices.SecondSignupJoinsFirstTenantAsWritten | auth-service/src/main/java/com/zylo/authservice/config/TenantFilter.java:43-46 | with the filter and `createUser` as written, a second anonymous signup on the same thread joins the first signup's tenant instead of creating its own |
| AdminServices.SecondSignupGetsOwnTenant | auth-service/src/main/java/com/zylo/authservice/config/TenantFilter.java:65-66 | with the context cleared on every exit of the filter and `createUser` still as written, the second signup gets a tenant of its own organization |
| AdminServices.AdminService.constructor | auth-service/src/main/java/com/zylo/authservice/service/AdminService.java:22-26 | the given accounts service and repository |
| AdminServices.AdminService.CreateRootUser | auth-service/src/main/java/com/zylo/authservice/service/AdminService.java:28-33 | the database is written only after the whole Keycloak step succeeded (join and verification email included), and then as `createUser`, as written, of an ADMIN user; a Keycloak failure leaves it alone |
| AdminServices.AdminService.RegisterInvitedUser | auth-service/src/main/java/com/zylo/authservice/service/AdminService.java:54-59 | the Keycloak step first (join and verification email included), then the context's tenant by id, then `createUser`, as written, of a USER; a failure of an earlier step leaves the database alone |

## Left out

- Page and layout rendering (ChatPage, HomePage, LoginPage, App): JSX, routing and toasts carry no state the core depends on.
- ChatPage's own initials and display-name helpers (ChatPage.tsx:201-219) are not modelled. They follow `UserListDialog`'s with two differences: optional chaining on the user, and a display name that falls back to 'Unknown User' where `UserListDialog` gives undefined.
- The dependency-injection container: lazy singletons with no behaviour to state.
- keycloak-js, axios, the browser WebSocket, timers and the clock: their outcomes are parameters of the operations (`init`, `updateToken`, HTTP responses, socket events, timer firings, `Date.now`), not models.
- The 60-second background token refresh loop of the Keycloak adapter: it is a timer around `refreshToken`, which is modelled.
- `parseJwtPayload` (base64url, percent-decoding and JSON) is opaque: only the `exp` it yields, or its absence, is an input.
- The `isRefreshing`, `failedQueue` and `processQueue` members of the API service: they are never used.
- `Math.random` in password generation is replaced by the sequence of drawn indices.
- JPA queries, Hibernate filters, Redis, RabbitMQ, the Keycloak admin client and JWT signature checking become sequences, maps, sets and given outcomes.
- The Hibernate session is per request: every request starts with the tenant filter off (`TenantFiltering.SessionStart`), while `TenantContext`, bound to the thread, carries over.
- Keycloak's `joinGroup` and `sendVerifyEmail` are given outcomes (`FollowUps`). A failure of either fails the flow, after the Keycloak user was created, so the database write is skipped and the Keycloak user remains; the model does not undo it, and neither does the source.
- Transaction rollback is not modelled: Redis writes are not undone by `@Transactional`, and the database writes of a failed `createUser` are kept.
- The database's own unique constraints, such as a globally unique email, are not modelled: only the checks the code makes are.
- `UUID.fromString` failing on a malformed cached tenant id is not modelled: tenant ids are opaque text.
- Redis keys are modelled per role (`tenants`, per-tenant username and email sets, `tenant:<name>` values), not as formatted strings.
- Persisting a tenant that already has an id, and a null username or email in a request, are not modelled.
- `UserRegistrationRequest` and `InviteUserRequest` are one `Request` datatype whose organization is absent for an invitation.
- The Keycloak user search is modelled as an exact-name scan over all users, and a response's status text is not kept.
- Concurrency is not modelled: `ConcurrentHashMap`, interleaved requests and multi-server pub/sub timing. Each event is one atomic step.
- Broker and Redis failures are not modelled, nor the I/O exceptions of `sendMessage` on a server session.
- Decoding of percent escapes for non-ASCII text is not modelled: UTF-8 decoding is not checked, and the round trip is proved for ASCII tokens, which JWTs are.
- Spring configuration and bootstrap: security, CORS, WebSocket and Redis wiring, the random server id, the Keycloak client component.
- Controllers and `UserService`, which only delegate.
- JPA entities, DTOs and response builders are datatypes only.
- `AccountsRepository.getUserById` is not called by the modelled flows.
- The `TenantContext` class is not part of this model's source. It is modelled as one per-thread slot that survives between requests served by the same thread, as a `ThreadLocal` does.
- ChatSocketClient.ChatSocketService.ConnectTimeout: the timer is attributed to the latest `connect`, not to the connect that started it.
- KeycloakAccounts.LastSegment: line terminators in a `Location` path are not modelled (`.` in the pattern does not match them).
- UserRepository.TransformApiUserToEntity: an id, username or email still absent after the fallbacks is "" rather than `undefined` (the source copies `email` with no fallback, so a missing email stays undefined there).
- AdminServices.RootOn: requires an organization, which the Keycloak step has already checked by the time it runs.
- The `tenantId` and `search` arguments that some client repository methods accept and never use are not modelled.
- Unicode case mapping is not modelled: `toLowerCase` and `toUpperCase` change ASCII letters only.

## Findings

Where the auth service's operations are composed, they are composed as written: the admin service calls `createUser` as written (`Accounts.CreateUserOnAsWritten`, `Accounts.AccountsRepository.CreateUserAsWritten`), and the signup scenarios run the filter as written. The corrected definitions stand beside them with their own properties proved. `AdminServices.SecondSignupGetsOwnTenant` changes only the filter's exit, so it isolates the filter fix.

| source | as written | input that shows it | evidently intended | confidence | as-written member | corrected member |
|---|---|---|---|---|---|---|
| client/src/presentation/components/UserListDialog.tsx:130-134 | initials from `name` take the first letter of the first and last space-separated words, and an empty word gives `undefined` | a user with no first name and name " Ann" gets "UNDEFINEDA" | the first letters of the first and last non-empty words, "A" | high; not executed | UserListDialog.LeadingSpaceInitials | UserListDialog.InitialsAgreeOnWellSpacedNames |
| client/src/infrastructure/websocket/ChatWebSocketService.ts:146-147 | the reconnect started at line 129 runs `connect`, whose `disconnect` sets `reconnectAttempts` back to 0, so the cap test at line 93 always passes | cap 1, a server that always closes with 1006: a reconnect is pending after any number of failures | stop after `maxReconnectAttempts` failed reconnects | high; not executed | ChatSocketClient.RetriesForeverAsWritten | ChatSocketClient.RetriesStop |
| client/src/infrastructure/websocket/ChatWebSocketService.ts:47-48 | `isConnecting` is set and then cleared by `disconnect` (line 146) before the socket opens, so the 10-second timeout at lines 106-111 finds it false | any connect to a server that never answers: the promise never settles | the timeout rejects a connect still in progress | high; not executed | ChatSocketClient.ChatSocketService.ConnectAsWritten | ChatSocketClient.ChatSocketService.Connect |
| chat-service/src/main/java/com/zylo/chatservice/config/ChatWebSocketHandler.java:37-45 | the close of any session removes the user's registration and shared key | user "u" opens session 1, then session 2; session 1 closes: "u" is unreachable with session 2 open | remove only the closing session's own registration | high; not executed | ChatHandler.StaleCloseAsWritten | ChatHandler.StaleClose |
| auth-service/src/main/java/com/zylo/authservice/repository/AccountsRepository.java:94-98 | a database match on username OR email caches BOTH values | alice exists; a request with her username and a new email is rejected and caches the new email; a request with a new username and that email is then rejected | cache only values a user of the tenant holds, and look for the clash among the resolved tenant's own users rather than among the users the session filter lets through (all of them when the filter is off) | high; not executed | Accounts.FalseDuplicateAsWritten | Accounts.FalseDuplicateCorrected |
| auth-service/src/main/java/com/zylo/authservice/config/TenantFilter.java:43-46 | an anonymous request returns before the clearing at line 65, and `createUser` sets the context when it is empty | two root signups for different organizations served by the same thread: the second joins the first tenant | clear the context on every exit, so each signup gets its own tenant | medium (depends on `TenantContext` being thread-bound); not executed | AdminServices.SecondSignupJoinsFirstTenantAsWritten | AdminServices.SecondSignupGetsOwnTenant |
