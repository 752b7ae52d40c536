/**
 * The user use cases: argument guards, one call on the user repository, and
 * rethrowing its failures with a use-case prefix. A run records the repository
 * calls it made, so that "rejected before the repository is called" can be stated.
 */
module UserUseCases {
  import opened Common
  import opened UserEntity
  import opened AuthEntities

  /** A call on the user repository, with the arguments it received. */
  datatype RepositoryCall =
    | GetUserByIdCall(id: string, tenantId: Option<string>)
    | InviteUserCall(invitation: UserInvitation, tenantId: Option<string>)
    | SearchUsersCall(query: string)
    | GetUsersByOrganizationCall(organizationId: string)
    | GetUsersByRoleCall(role: string)

  /** The repository calls a use case made and how the use case settled. */
  datatype Run<T> = Run(calls: seq<RepositoryCall>, result: Result<T, Thrown>)

  /** `throw new Error(prefix + (error instanceof Error ? error.message : 'Unknown error'))`. */
  function Wrap(prefix: string, error: Thrown): (e: Thrown)
    ensures e.PlainError? && e.IsError()
    ensures |e.message| >= |prefix| && e.message[..|prefix|] == prefix
    ensures error.IsError() ==> e.message[|prefix|..] == error.message
    ensures !error.IsError() ==> e.message[|prefix|..] == "Unknown error"
  {
    PlainError(prefix + error.MessageOrUnknown())
  }

  /** Settles a use case after its single repository call. */
  function Forward<T>(call: RepositoryCall, outcome: Result<T, Thrown>, prefix: string): (run: Run<T>)
    ensures run.calls == [call]
    ensures run.result.Ok? <==> outcome.Ok?
    ensures outcome.Ok? ==> run.result == outcome
    ensures outcome.Err? ==> run.result.error.PlainError? && run.result.error == Wrap(prefix, outcome.error)
  {
    Run([call], if outcome.Ok? then outcome else Err(Wrap(prefix, outcome.error)))
  }

  /** `GetUserByIdUseCase.execute`: an empty id is refused before the repository is asked. */
  function GetUserById(userId: string, tenantId: Option<string>, outcome: Result<Option<User>, Thrown>): (run: Run<Option<User>>)
    ensures userId == "" ==> run == Run([], Err(PlainError("User ID is required")))
    ensures userId != "" ==> run.calls == [GetUserByIdCall(userId, tenantId)]
    ensures userId != "" && outcome.Ok? ==> run.result == outcome
    ensures userId != "" && outcome.Err? ==>
      run.result == Err(PlainError("Failed to get user: " + outcome.error.MessageOrUnknown()))
  {
    if userId == "" then Run([], Err(PlainError("User ID is required")))
    else Forward(GetUserByIdCall(userId, tenantId), outcome, "Failed to get user: ")
  }

  /** The invite use case's validation messages. */
  const FirstNameRequired := "First name is required"
  const LastNameRequired := "Last name is required"
  const UsernameRequired := "Username is required"
  const EmailRequired := "Email is required"
  const PasswordTooShort := "Password must be at least 8 characters long"
  const InvalidEmailFormat := "Invalid email format"
  const UsernameLength := "Username must be between 3 and 20 characters"

  /** `validateInvitation`: the message of the first failing check, or nothing when all pass. */
  function ValidateInvitation(inv: UserInvitation): (err: Option<string>)
    ensures err.None? <==>
      !IsBlank(inv.username) && !IsBlank(inv.email) && !IsBlank(inv.firstName) && !IsBlank(inv.lastName) &&
      JsLength(inv.password) >= 8 && MatchesEmailPattern(inv.email) && 3 <= JsLength(inv.username) <= 20
    ensures err == Some(UsernameRequired) <==> IsBlank(inv.username)
    ensures err == Some(EmailRequired) <==> !IsBlank(inv.username) && IsBlank(inv.email)
    ensures err == Some(FirstNameRequired) <==>
      !IsBlank(inv.username) && !IsBlank(inv.email) && IsBlank(inv.firstName)
    ensures err == Some(LastNameRequired) <==>
      !IsBlank(inv.username) && !IsBlank(inv.email) && !IsBlank(inv.firstName) && IsBlank(inv.lastName)
    ensures err == Some(PasswordTooShort) <==>
      !IsBlank(inv.username) && !IsBlank(inv.email) && !IsBlank(inv.firstName) && !IsBlank(inv.lastName) &&
      JsLength(inv.password) < 8
    ensures err == Some(InvalidEmailFormat) <==>
      !IsBlank(inv.username) && !IsBlank(inv.email) && !IsBlank(inv.firstName) && !IsBlank(inv.lastName) &&
      JsLength(inv.password) >= 8 && !MatchesEmailPattern(inv.email)
    ensures err == Some(UsernameLength) <==>
      !IsBlank(inv.username) && !IsBlank(inv.email) && !IsBlank(inv.firstName) && !IsBlank(inv.lastName) &&
      JsLength(inv.password) >= 8 && MatchesEmailPattern(inv.email) && !(3 <= JsLength(inv.username) <= 20)
  {
    TrimEmptyIffBlank(inv.username);
    TrimEmptyIffBlank(inv.email);
    TrimEmptyIffBlank(inv.firstName);
    TrimEmptyIffBlank(inv.lastName);
    EmailRegexTestCorrect(inv.email);
    if Trim(inv.username) == "" then Some(UsernameRequired)
    else if Trim(inv.email) == "" then Some(EmailRequired)
    else if Trim(inv.firstName) == "" then Some(FirstNameRequired)
    else if Trim(inv.lastName) == "" then Some(LastNameRequired)
    else if inv.password == "" || JsLength(inv.password) < 8 then Some(PasswordTooShort)
    else if !EmailRegexTest(inv.email) then Some(InvalidEmailFormat)
    else if JsLength(inv.username) < 3 || JsLength(inv.username) > 20 then Some(UsernameLength)
    else None
  }

  /** An invitation that passes validation holds a valid `Email` and a valid `Username`. */
  lemma ValidInvitationHasValueObjects(inv: UserInvitation)
    requires ValidateInvitation(inv).None?
    ensures CreateEmail(inv.email) == Ok(Email(inv.email))
    ensures CreateUsername(inv.username) == Ok(Username(inv.username))
  {
  }

  /** `InviteUserUseCase.execute`: an invalid invitation never reaches the repository. */
  function InviteUser(inv: UserInvitation, tenantId: Option<string>, outcome: Result<User, Thrown>): (run: Run<User>)
    ensures ValidateInvitation(inv).Some? ==> run == Run([], Err(PlainError(ValidateInvitation(inv).value)))
    ensures ValidateInvitation(inv).None? ==> run.calls == [InviteUserCall(inv, tenantId)]
    ensures ValidateInvitation(inv).None? && outcome.Ok? ==> run.result == outcome
    ensures ValidateInvitation(inv).None? && outcome.Err? ==>
      run.result == Err(PlainError("Failed to invite user: " + outcome.error.MessageOrUnknown()))
  {
    match ValidateInvitation(inv)
    case Some(message) => Run([], Err(PlainError(message)))
    case None => Forward(InviteUserCall(inv, tenantId), outcome, "Failed to invite user: ")
  }

  /** `SearchUsersUseCase.execute`: a blank query answers [] at once; otherwise the trimmed query is searched. */
  function SearchUsers(query: string, outcome: Result<seq<User>, Thrown>): (run: Run<seq<User>>)
    ensures IsBlank(query) ==> run == Run([], Ok([]))
    ensures !IsBlank(query) ==> run.calls == [SearchUsersCall(Trim(query))] && Trim(query) != ""
    ensures !IsBlank(query) && outcome.Ok? ==> run.result == outcome
    ensures !IsBlank(query) && outcome.Err? ==>
      run.result == Err(PlainError("Failed to search users: " + outcome.error.MessageOrUnknown()))
  {
    TrimEmptyIffBlank(query);
    if Trim(query) == "" then Run([], Ok([]))
    else Forward(SearchUsersCall(Trim(query)), outcome, "Failed to search users: ")
  }

  /** `GetUsersByOrganizationUseCase.execute`: a blank id is refused; the id is forwarded untrimmed. */
  function GetUsersByOrganization(organizationId: string, outcome: Result<seq<User>, Thrown>): (run: Run<seq<User>>)
    ensures IsBlank(organizationId) ==> run == Run([], Err(PlainError("Organization ID is required")))
    ensures !IsBlank(organizationId) ==> run.calls == [GetUsersByOrganizationCall(organizationId)]
    ensures !IsBlank(organizationId) && outcome.Ok? ==> run.result == outcome
    ensures !IsBlank(organizationId) && outcome.Err? ==>
      run.result == Err(PlainError("Failed to get users by organization: " + outcome.error.MessageOrUnknown()))
  {
    TrimEmptyIffBlank(organizationId);
    if Trim(organizationId) == "" then Run([], Err(PlainError("Organization ID is required")))
    else Forward(GetUsersByOrganizationCall(organizationId), outcome, "Failed to get users by organization: ")
  }

  /** `GetUsersByRoleUseCase.execute`: a blank role is refused; the role is forwarded untrimmed. */
  function GetUsersByRole(role: string, outcome: Result<seq<User>, Thrown>): (run: Run<seq<User>>)
    ensures IsBlank(role) ==> run == Run([], Err(PlainError("Role is required")))
    ensures !IsBlank(role) ==> run.calls == [GetUsersByRoleCall(role)]
    ensures !IsBlank(role) && outcome.Ok? ==> run.result == outcome
    ensures !IsBlank(role) && outcome.Err? ==>
      run.result == Err(PlainError("Failed to get users by role: " + outcome.error.MessageOrUnknown()))
  {
    TrimEmptyIffBlank(role);
    if Trim(role) == "" then Run([], Err(PlainError("Role is required")))
    else Forward(GetUsersByRoleCall(role), outcome, "Failed to get users by role: ")
  }
}
