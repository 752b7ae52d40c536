/**
 * The Keycloak half of account creation. A root signup creates the organization's group,
 * then the user with client role T_ADMIN, then joins the user to the group and sends a
 * verification email. An invitation finds the group through the inviting user (or the
 * organization name) and does the same with role T_USER. The admin client's calls are
 * kept as a log; its responses are inputs.
 */
module KeycloakAccounts {
  import opened Common
  import TenantFiltering

  /** The text after the last '/', or all of `s` when it has none. */
  function AfterLastSlash(s: string): (r: string)
    ensures '/' !in r && |r| <= |s| && r == s[|s| - |r|..]
    ensures |r| < |s| ==> s[|s| - |r| - 1] == '/'
  {
    if s == [] || s[|s| - 1] == '/' then [] else AfterLastSlash(s[..|s| - 1]) + [s[|s| - 1]]
  }

  // `path.replaceAll(".*/([^/]+)$", "$1")`: a path with a '/' and a non-empty last
  // segment becomes that segment; any other path is left as it is.
  function LastSegment(path: string): (r: string)
    ensures '/' in path && path[|path| - 1] != '/' ==>
      r != "" && '/' !in r && |r| < |path| && path[|path| - |r| - 1] == '/' && path[|path| - |r|..] == r
    ensures !('/' in path && path[|path| - 1] != '/') ==> r == path
  {
    if '/' in path && path[|path| - 1] != '/' then AfterLastSlash(path) else path
  }

  lemma {:induction false} AfterLastSlashOfSegment(prefix: string, id: string)
    requires '/' !in id
    ensures AfterLastSlash(prefix + "/" + id) == id
    decreases |id|
  {
    var s := prefix + "/" + id;
    if id == [] {
      assert s[|s| - 1] == '/';
    } else {
      assert s[..|s| - 1] == prefix + "/" + id[..|id| - 1];
      assert id[|id| - 1] in id;
      AfterLastSlashOfSegment(prefix, id[..|id| - 1]);
      assert id[..|id| - 1] + [id[|id| - 1]] == id;
    }
  }

  /** The id at the end of a `Location` path comes back out: `/admin/realms/r/users/<id>` gives `<id>`. */
  lemma LastSegmentOfLocation(prefix: string, id: string)
    requires id != "" && '/' !in id
    ensures LastSegment(prefix + "/" + id) == id
  {
    var s := prefix + "/" + id;
    assert s[|prefix|] == '/';
    assert s[|s| - 1] == id[|id| - 1];
    assert id[|id| - 1] in id;
    AfterLastSlashOfSegment(prefix, id);
  }

  /** A path ending in '/', or with no '/', comes back unchanged. */
  lemma LastSegmentKeepsOtherPaths(path: string)
    requires path == "" || path[|path| - 1] == '/' || '/' !in path
    ensures LastSegment(path) == path
  {
  }

  // ---------------------------------------------------------------------------
  // Representations
  // ---------------------------------------------------------------------------

  /** `UserRegistrationRequest` and `InviteUserRequest`; an invitation has no organization. */
  datatype Request = Request(username: string, email: string, firstName: Option<string>, lastName: Option<string>,
                             password: Option<string>, organization: Option<string>)

  /** `CredentialRepresentation.PASSWORD`. */
  const PasswordKind := "password"

  datatype Credential = Credential(kind: string, value: Option<string>, temporary: bool)

  const ClientId := "zylo-web"
  const AdminRole := "T_ADMIN"
  const InvitedRole := "T_USER"

  datatype UserRepresentation = UserRepresentation(
    username: string, email: string, firstName: Option<string>, lastName: Option<string>,
    enabled: bool, emailVerified: bool, clientRoles: map<string, seq<string>>, credentials: seq<Credential>)

  /** `getCredentialRepresentation`. */
  function PasswordCredential(request: Request): (c: Credential)
    ensures c.kind == PasswordKind && c.value == request.password && !c.temporary
  {
    Credential(PasswordKind, request.password, false)
  }

  /** `getAdminUserRepresentation(request, role)` with the password credential attached. */
  function Representation(request: Request, role: string): (u: UserRepresentation)
    ensures u.username == request.username && u.email == request.email &&
      u.firstName == request.firstName && u.lastName == request.lastName
    ensures u.enabled && !u.emailVerified
    ensures u.clientRoles.Keys == {ClientId} && u.clientRoles[ClientId] == [role]
    ensures |u.credentials| == 1 && u.credentials[0].value == request.password && !u.credentials[0].temporary
  {
    UserRepresentation(request.username, request.email, request.firstName, request.lastName, true, false,
                       map[ClientId := [role]], [PasswordCredential(request)])
  }

  // ---------------------------------------------------------------------------
  // The admin client
  // ---------------------------------------------------------------------------

  /** A call made on the realm. */
  datatype AdminCall =
    | AddGroup(name: string)
    | CreateUser(user: UserRepresentation)
    | JoinGroup(userId: string, groupId: string)
    | SendVerifyEmail(userId: string)

  /** A `Response`: its status and the path of its `Location` header. */
  datatype Response = Response(status: int, locationPath: string)

  const Created := 201

  /** The exceptions of the two flows. */
  datatype AccountsError =
    | OrganizationRequired           // InsufficientInfoException
    | GroupCreationFailed            // "Failed to create tenant"
    | UserCreationFailed(status: int)
    | ClaimUnusable                  // a missing or malformed `groups` or `preferred_username` claim
    | InviterNotFound(username: string)
    | InviterHasNoGroup(username: string)
    | OrganizationGroupNotFound(org: string)
    | NoInviterOrOrganization
    | JoinGroupFailed                // `joinGroup` threw
    | VerifyEmailFailed              // `sendVerifyEmail` threw

  /** How the two calls made once the user exists end: `joinGroup`, then `sendVerifyEmail`. Each throws on failure. */
  datatype FollowUps = FollowUps(joinSucceeds: bool, emailSucceeds: bool)

  /** The users and groups of the realm, and each user's groups in the order Keycloak lists them. */
  datatype KcUser = KcUser(id: string, username: string)
  datatype KcGroup = KcGroup(id: string, name: string)
  datatype Directory = Directory(users: seq<KcUser>, groups: seq<KcGroup>, memberOf: map<string, seq<string>>)

  /** The claims of the caller's token the invitation reads. */
  datatype Claims = Claims(groups: Option<seq<string>>, preferredUsername: Option<string>)

  /** The first user whose username is exactly `name`. */
  function FirstUserNamed(users: seq<KcUser>, name: string): (r: Option<KcUser>)
    ensures r.Some? ==> r.value in users && r.value.username == name
    ensures r.None? <==> forall i :: 0 <= i < |users| ==> users[i].username != name
    ensures r.Some? ==>
      exists i :: 0 <= i < |users| && users[i] == r.value && (forall j :: 0 <= j < i ==> users[j].username != name)
  {
    if users == [] then None
    else if users[0].username == name then Some(users[0])
    else FirstUserNamed(users[1..], name)
  }

  /** The first group whose name is exactly `name`. */
  function FirstGroupNamed(groups: seq<KcGroup>, name: string): (r: Option<KcGroup>)
    ensures r.Some? ==> r.value in groups && r.value.name == name
    ensures r.None? <==> forall i :: 0 <= i < |groups| ==> groups[i].name != name
    ensures r.Some? ==>
      exists i :: 0 <= i < |groups| && groups[i] == r.value && (forall j :: 0 <= j < i ==> groups[j].name != name)
  {
    if groups == [] then None
    else if groups[0].name == name then Some(groups[0])
    else FirstGroupNamed(groups[1..], name)
  }

  /** The groups Keycloak lists for a user; a user without an entry is in none. */
  function GroupsOf(dir: Directory, userId: string): (gs: seq<string>)
    ensures userId in dir.memberOf ==> gs == dir.memberOf[userId]
    ensures userId !in dir.memberOf ==> gs == []
  {
    if userId in dir.memberOf then dir.memberOf[userId] else []
  }

  /**
   * The group an invited user joins: the first group of the inviting user when its
   * username is non-empty, otherwise the first group named after the organization.
   */
  function InviteGroup(dir: Directory, orgName: string, username: string): (r: Result<string, AccountsError>)
    ensures username != "" ==>
      (r == Err(InviterNotFound(username)) <==> forall i :: 0 <= i < |dir.users| ==> dir.users[i].username != username)
    ensures username != "" && r.Ok? ==>
      exists i :: 0 <= i < |dir.users| && dir.users[i].username == username && r.value in GroupsOf(dir, dir.users[i].id)
    ensures username != "" && r.Ok? ==>
      FirstUserNamed(dir.users, username).Some? && GroupsOf(dir, FirstUserNamed(dir.users, username).value.id) != [] &&
      r.value == GroupsOf(dir, FirstUserNamed(dir.users, username).value.id)[0]
    ensures username != "" ==>
      (r == Err(InviterHasNoGroup(username)) <==>
        FirstUserNamed(dir.users, username).Some? && GroupsOf(dir, FirstUserNamed(dir.users, username).value.id) == [])
    ensures username != "" ==> r.Ok? || r == Err(InviterNotFound(username)) || r == Err(InviterHasNoGroup(username))
    ensures username == "" && orgName != "" && r.Ok? ==>
      exists i :: 0 <= i < |dir.groups| && dir.groups[i].name == orgName && dir.groups[i].id == r.value
    ensures username == "" && orgName != "" ==>
      (r.Err? <==> forall i :: 0 <= i < |dir.groups| ==> dir.groups[i].name != orgName)
    ensures username == "" && orgName != "" ==>
      (r.Ok? ==> r.value == FirstGroupNamed(dir.groups, orgName).value.id) &&
      (r.Err? ==> r == Err(OrganizationGroupNotFound(orgName)))
    ensures username == "" && orgName == "" ==> r == Err(NoInviterOrOrganization)
  {
    if username != "" then
      match FirstUserNamed(dir.users, username)
      case None => Err(InviterNotFound(username))
      case Some(inviter) =>
        var groups := GroupsOf(dir, inviter.id);
        if groups == [] then Err(InviterHasNoGroup(username)) else Ok(groups[0])
    else if orgName != "" then
      match FirstGroupNamed(dir.groups, orgName)
      case None => Err(OrganizationGroupNotFound(orgName))
      case Some(g) => Ok(g.id)
    else Err(NoInviterOrOrganization)
  }

  /** The inviter's username takes precedence: the organization name does not matter once it is given. */
  lemma InviterDecides(dir: Directory, org1: string, org2: string, username: string)
    requires username != ""
    ensures InviteGroup(dir, org1, username) == InviteGroup(dir, org2, username)
  {
  }

  /**
   * The end of both flows once the user exists: join the group, then send the verification
   * email; a join that throws skips the email, and either failure fails the flow.
   */
  function FinishAccount(userId: string, groupId: string, after: FollowUps): (out: (seq<AdminCall>, Result<(), AccountsError>))
    ensures out.0 == [JoinGroup(userId, groupId)] + (if after.joinSucceeds then [SendVerifyEmail(userId)] else [])
    ensures out.1.Ok? <==> after.joinSucceeds && after.emailSucceeds
    ensures !after.joinSucceeds ==> out.1 == Err(JoinGroupFailed)
    ensures after.joinSucceeds && !after.emailSucceeds ==> out.1 == Err(VerifyEmailFailed)
  {
    if !after.joinSucceeds then ([JoinGroup(userId, groupId)], Err(JoinGroupFailed))
    else if !after.emailSucceeds then ([JoinGroup(userId, groupId), SendVerifyEmail(userId)], Err(VerifyEmailFailed))
    else ([JoinGroup(userId, groupId), SendVerifyEmail(userId)], Ok(()))
  }

  /**
   * The calls a root signup makes and how it ends: nothing without an organization; the
   * group, then the T_ADMIN user, each stopping the flow on a status other than 201;
   * then the join and the verification email, with ids taken from the Location paths;
   * a join or email that throws fails the signup.
   */
  function RootSignup(request: Request, groupResponse: Response, userResponse: Response, after: FollowUps)
    : (out: (seq<AdminCall>, Result<(), AccountsError>))
    ensures !Truthy(request.organization) ==> out == ([], Err(OrganizationRequired))
    ensures Truthy(request.organization) ==> out.0 != [] && out.0[0] == AddGroup(request.organization.value)
    ensures Truthy(request.organization) && groupResponse.status != Created ==>
      out == ([AddGroup(request.organization.value)], Err(GroupCreationFailed))
    ensures Truthy(request.organization) && groupResponse.status == Created && userResponse.status != Created ==>
      |out.0| == 2 && out.1 == Err(UserCreationFailed(userResponse.status))
    ensures out.1.Ok? <==>
      Truthy(request.organization) && groupResponse.status == Created &&
      userResponse.status == Created && after.joinSucceeds && after.emailSucceeds
    ensures forall i :: 0 <= i < |out.0| && out.0[i].CreateUser? ==> i == 1 && out.0[i].user == Representation(request, AdminRole)
  {
    if !Truthy(request.organization) then ([], Err(OrganizationRequired))
    else
      var group := AddGroup(request.organization.value);
      if groupResponse.status != Created then ([group], Err(GroupCreationFailed))
      else
        var user := CreateUser(Representation(request, AdminRole));
        if userResponse.status != Created then ([group, user], Err(UserCreationFailed(userResponse.status)))
        else
          var (rest, r) := FinishAccount(LastSegment(userResponse.locationPath), LastSegment(groupResponse.locationPath), after);
          ([group, user] + rest, r)
  }

  /**
   * The calls an invitation makes and how it ends: the organization and the username are
   * read from the token first, then the group is chosen, then the T_USER user is created,
   * joined and sent the verification email, either of which may throw.
   */
  function Invitation(claims: Claims, dir: Directory, request: Request, userResponse: Response, after: FollowUps)
    : (out: (seq<AdminCall>, Result<(), AccountsError>))
    ensures TenantFiltering.OrgName(claims.groups).Err? || claims.preferredUsername.None? ==> out == ([], Err(ClaimUnusable))
    ensures out.0 != [] ==> out.0[0] == CreateUser(Representation(request, InvitedRole))
    ensures out.0 != [] ==>
      TenantFiltering.OrgName(claims.groups).Ok? && claims.preferredUsername.Some? &&
      InviteGroup(dir, TenantFiltering.OrgName(claims.groups).value, claims.preferredUsername.value).Ok?
    ensures out.1.Ok? <==> out.0 != [] && userResponse.status == Created && after.joinSucceeds && after.emailSucceeds
  {
    match TenantFiltering.OrgName(claims.groups)
    case Err(_) => ([], Err(ClaimUnusable))
    case Ok(orgName) =>
      if claims.preferredUsername.None? then ([], Err(ClaimUnusable))
      else match InviteGroup(dir, orgName, claims.preferredUsername.value)
        case Err(e) => ([], Err(e))
        case Ok(groupId) =>
          var user := CreateUser(Representation(request, InvitedRole));
          if userResponse.status != Created then ([user], Err(UserCreationFailed(userResponse.status)))
          else
            var (rest, r) := FinishAccount(LastSegment(userResponse.locationPath), groupId, after);
            ([user] + rest, r)
  }

  /** A missing or empty organization is refused before any group or user is created. */
  lemma OrganizationCheckedFirst(request: Request, groupResponse: Response, userResponse: Response, after: FollowUps)
    requires request.organization.None? || request.organization == Some("")
    ensures RootSignup(request, groupResponse, userResponse, after) == ([], Err(OrganizationRequired))
  {
  }

  /**
   * A successful root signup creates exactly one T_ADMIN user on `zylo-web`, enabled,
   * email not verified, with one non-temporary password credential from the request,
   * and joins it to the group it created, by the ids in the two Location paths.
   */
  lemma RootSignupCreatesAdmin(request: Request, groupResponse: Response, userResponse: Response, after: FollowUps,
                               userPath: string, userId: string, groupPath: string, groupId: string)
    requires RootSignup(request, groupResponse, userResponse, after).1.Ok?
    requires userId != "" && '/' !in userId && groupId != "" && '/' !in groupId
    requires userResponse.locationPath == userPath + "/" + userId
    requires groupResponse.locationPath == groupPath + "/" + groupId
    ensures var calls := RootSignup(request, groupResponse, userResponse, after).0;
      |calls| == 4 && calls[0] == AddGroup(request.organization.value) &&
      calls[1].CreateUser? && calls[1].user.clientRoles == map[ClientId := [AdminRole]] &&
      calls[1].user.enabled && !calls[1].user.emailVerified &&
      calls[1].user.credentials == [Credential(PasswordKind, request.password, false)] &&
      calls[2] == JoinGroup(userId, groupId) && calls[3] == SendVerifyEmail(userId)
  {
    LastSegmentOfLocation(userPath, userId);
    LastSegmentOfLocation(groupPath, groupId);
    SuccessfulRootSignupCalls(request, groupResponse, userResponse, after);
    var user := Representation(request, AdminRole);
    assert user.clientRoles == map[ClientId := [AdminRole]];
    assert user.credentials == [Credential(PasswordKind, request.password, false)];
  }

  lemma SuccessfulRootSignupCalls(request: Request, groupResponse: Response, userResponse: Response, after: FollowUps)
    requires RootSignup(request, groupResponse, userResponse, after).1.Ok?
    ensures RootSignup(request, groupResponse, userResponse, after).0 ==
      [AddGroup(request.organization.value), CreateUser(Representation(request, AdminRole)),
       JoinGroup(LastSegment(userResponse.locationPath), LastSegment(groupResponse.locationPath)),
       SendVerifyEmail(LastSegment(userResponse.locationPath))]
  {
  }

  /** An invitation whose token names no usable organization fails before any call, whatever the inviter. */
  lemma InvitationNeedsOrganizationClaim(claims: Claims, dir: Directory, request: Request, userResponse: Response, after: FollowUps)
    requires TenantFiltering.OrgName(claims.groups).Err?
    ensures Invitation(claims, dir, request, userResponse, after) == ([], Err(ClaimUnusable))
  {
  }

  /** A successful invitation creates one T_USER user and joins it to the group chosen for the inviter. */
  lemma InvitationCreatesUser(claims: Claims, dir: Directory, request: Request, userResponse: Response, after: FollowUps)
    requires Invitation(claims, dir, request, userResponse, after).1.Ok?
    ensures var calls := Invitation(claims, dir, request, userResponse, after).0;
      var groupId := InviteGroup(dir, TenantFiltering.OrgName(claims.groups).value, claims.preferredUsername.value);
      groupId.Ok? && |calls| == 3 && calls[0] == CreateUser(Representation(request, InvitedRole)) &&
      calls[0].user.clientRoles == map[ClientId := [InvitedRole]] &&
      calls[1] == JoinGroup(LastSegment(userResponse.locationPath), groupId.value) &&
      calls[2] == SendVerifyEmail(LastSegment(userResponse.locationPath))
  {
  }

  /**
   * A join or email that throws fails the signup although the Keycloak user was already
   * created: the user creation is in the call log and nothing undoes it.
   */
  lemma FollowUpFailureKeepsCreatedUser(request: Request, groupResponse: Response, userResponse: Response, after: FollowUps)
    requires Truthy(request.organization) && groupResponse.status == Created && userResponse.status == Created
    requires !(after.joinSucceeds && after.emailSucceeds)
    ensures RootSignup(request, groupResponse, userResponse, after).1.Err?
    ensures CreateUser(Representation(request, AdminRole)) in RootSignup(request, groupResponse, userResponse, after).0
  {
    var calls := RootSignup(request, groupResponse, userResponse, after).0;
    assert calls[1] == CreateUser(Representation(request, AdminRole));
  }

  class AccountsService {
    /** The calls made on the realm, oldest first. */
    var calls: seq<AdminCall>

    constructor ()
      ensures calls == []
    {
      calls := [];
    }

    /** `createUserInAccounts`. */
    method CreateUserInAccounts(request: Request, groupResponse: Response, userResponse: Response, after: FollowUps)
        returns (r: Result<(), AccountsError>)
      modifies this
      ensures calls == old(calls) + RootSignup(request, groupResponse, userResponse, after).0
      ensures r == RootSignup(request, groupResponse, userResponse, after).1
    {
      if request.organization.None? || request.organization.value == "" {
        return Err(OrganizationRequired);
      }
      calls := calls + [AddGroup(request.organization.value)];
      if groupResponse.status != Created {
        return Err(GroupCreationFailed);
      }
      var groupId := LastSegment(groupResponse.locationPath);
      calls := calls + [CreateUser(Representation(request, AdminRole))];
      if userResponse.status != Created {
        return Err(UserCreationFailed(userResponse.status));
      }
      var userId := LastSegment(userResponse.locationPath);
      calls := calls + [JoinGroup(userId, groupId)];
      if !after.joinSucceeds {
        return Err(JoinGroupFailed);
      }
      calls := calls + [SendVerifyEmail(userId)];
      if !after.emailSucceeds {
        return Err(VerifyEmailFailed);
      }
      r := Ok(());
    }

    /** `registerInvitedUser`. */
    method RegisterInvitedUser(claims: Claims, dir: Directory, request: Request, userResponse: Response, after: FollowUps)
        returns (r: Result<(), AccountsError>)
      modifies this
      ensures calls == old(calls) + Invitation(claims, dir, request, userResponse, after).0
      ensures r == Invitation(claims, dir, request, userResponse, after).1
    {
      var orgName := TenantFiltering.OrgName(claims.groups);
      if orgName.Err? {
        return Err(ClaimUnusable);
      }
      if claims.preferredUsername.None? {
        return Err(ClaimUnusable);
      }
      var groupId := InviteGroup(dir, orgName.value, claims.preferredUsername.value);
      if groupId.Err? {
        return Err(groupId.error);
      }
      calls := calls + [CreateUser(Representation(request, InvitedRole))];
      if userResponse.status != Created {
        return Err(UserCreationFailed(userResponse.status));
      }
      var userId := LastSegment(userResponse.locationPath);
      calls := calls + [JoinGroup(userId, groupId.value)];
      if !after.joinSucceeds {
        return Err(JoinGroupFailed);
      }
      calls := calls + [SendVerifyEmail(userId)];
      if !after.emailSucceeds {
        return Err(VerifyEmailFailed);
      }
      r := Ok(());
    }
  }
}
