/**
 * Account creation end to end: the Keycloak account first, then the database user. A
 * root signup makes an ADMIN user whose tenant is named after the organization; an
 * invitation makes a USER in the tenant the request's context names.
 */
module AdminServices {
  import opened Common
  import opened Accounts
  import opened TenantFiltering
  import KC = KeycloakAccounts

  const AdminRoleName := "ADMIN"
  const UserRoleName := "USER"

  /**
   * `getUser(request, role, tenant)`: the entity the request describes. The request's
   * fields are copied, and the full name is the first and last names around one space.
   */
  function UserFor(request: KC.Request, role: string, tenant: TenantRef): (u: User)
    ensures u.username == request.username && u.email == request.email && u.firstName == request.firstName &&
      u.lastName == request.lastName && u.role == role && u.tenant == tenant
    ensures |u.fullName| == |JavaStr(request.firstName)| + 1 + |JavaStr(request.lastName)|
    ensures u.fullName[..|JavaStr(request.firstName)|] == JavaStr(request.firstName) &&
      u.fullName[|JavaStr(request.firstName)|] == ' ' &&
      u.fullName[|JavaStr(request.firstName)| + 1..] == JavaStr(request.lastName)
  {
    User(request.username, request.email, JavaStr(request.firstName) + " " + JavaStr(request.lastName),
         request.firstName, request.lastName, role, tenant)
  }

  /** `getUserAdminUser`: an ADMIN of a new tenant named after the organization. */
  function RootUser(request: KC.Request): (u: User)
    requires request.organization.Some?
    ensures u.role == AdminRoleName && u.tenant == TenantRef(None, request.organization.value)
    ensures u.username == request.username && u.email == request.email
  {
    UserFor(request, AdminRoleName, TenantRef(None, request.organization.value))
  }

  /** `getUser(request)`: a USER of the tenant loaded for the context. */
  function InvitedUser(request: KC.Request, tenant: Tenant): (u: User)
    ensures u.role == UserRoleName && u.tenant == TenantRef(Some(tenant.id), tenant.name)
    ensures u.username == request.username && u.email == request.email
  {
    UserFor(request, UserRoleName, TenantRef(Some(tenant.id), tenant.name))
  }

  /** Why account creation failed. */
  datatype AdminError =
    | AccountsFailed(accountsError: KC.AccountsError)
    | TenantLookupFailed(lookupError: LookupError)
    | RepositoryFailed(createError: CreateError)

  function Lift(r: Result<User, CreateError>): Result<User, AdminError> {
    if r.Ok? then Ok(r.value) else Err(RepositoryFailed(r.error))
  }

  /** The database half of `createRootUser`: `createUser` as written, on the root user. */
  function RootOn(s: Store, request: KC.Request, freshId: TenantId): (out: (Store, Result<User, AdminError>))
    requires request.organization.Some?
    ensures out.1.Ok? ==>
      out.1.value.role == AdminRoleName && out.1.value.username == request.username &&
      out.0.users == s.users + [out.1.value]
    ensures out.1.Err? ==> out.1.error.RepositoryFailed? && out.0.users == s.users
  {
    var (s1, r) := CreateUserOnAsWritten(s, RootUser(request), freshId);
    (s1, Lift(r))
  }

  /** The database half of `registerInvitedUser`: the context's tenant by id, then `createUser` as written. */
  function InviteOn(s: Store, request: KC.Request, freshId: TenantId): (out: (Store, Result<User, AdminError>))
    ensures TenantById(s.tenants, s.context).Err? ==> out == (s, Err(TenantLookupFailed(TenantById(s.tenants, s.context).error)))
    ensures out.1.Ok? ==>
      out.1.value.role == UserRoleName && out.1.value.username == request.username &&
      out.0.users == s.users + [out.1.value]
    ensures out.1.Err? ==> out.0.users == s.users
  {
    match TenantById(s.tenants, s.context)
    case Err(e) => (s, Err(TenantLookupFailed(e)))
    case Ok(t) =>
      var (s1, r) := CreateUserOnAsWritten(s, InvitedUser(request, t), freshId);
      (s1, Lift(r))
  }

  /** A root user is an ADMIN of the tenant named after its organization, unless the context already names a cached tenant. */
  lemma RootUserJoinsOrganization(s: Store, request: KC.Request, freshId: TenantId)
    requires request.organization.Some? && RootOn(s, request, freshId).1.Ok?
    requires !(s.context.Some? && s.context.value in s.tenantSet)
    ensures RootOn(s, request, freshId).1.value.role == AdminRoleName
    ensures RootOn(s, request, freshId).1.value.tenant.name == request.organization.value
  {
  }

  /** A created user points at the tenant `createUser` resolved for it. */
  lemma CreatedJoinsResolved(s: Store, user: User, freshId: TenantId)
    requires CreateUserOnAsWritten(s, user, freshId).1.Ok?
    ensures ResolveTenant(s, user.tenant.name, freshId).Ok?
    ensures CreateUserOnAsWritten(s, user, freshId).1.value == Joined(user, ResolveTenant(s, user.tenant.name, freshId).value.1)
  {
  }

  /** A tenant of the table that the context names is the one `createUser` resolves by its name. */
  lemma ResolvesContextTenant(s: Store, t: Tenant, freshId: TenantId)
    requires t in s.tenants && s.context == Some(t.id)
    requires ResolveTenant(s, t.name, freshId).Ok?
    ensures ResolveTenant(s, t.name, freshId).value.1.id == t.id
  {
    if s.context.value !in s.tenantSet {
      var i :| 0 <= i < |s.tenants| && s.tenants[i] == t;
      var named := WithName(s.tenants, t.name);
      assert t in named;
      assert |named| == 1 && named[0] == t;
    }
  }

  /** An invited user is a USER of exactly the tenant whose id the context holds. */
  lemma InvitedUserJoinsContextTenant(s: Store, request: KC.Request, freshId: TenantId)
    requires InviteOn(s, request, freshId).1.Ok?
    ensures InviteOn(s, request, freshId).1.value.role == UserRoleName
    ensures InviteOn(s, request, freshId).1.value.tenant.id == s.context
  {
    var t := TenantById(s.tenants, s.context).value;
    var user := InvitedUser(request, t);
    assert InviteOn(s, request, freshId).1 == Lift(CreateUserOnAsWritten(s, user, freshId).1);
    CreatedJoinsResolved(s, user, freshId);
    ResolvesContextTenant(s, t, freshId);
  }

  // ---------------------------------------------------------------------------
  // The context outlives an anonymous signup
  // ---------------------------------------------------------------------------

  /** The database and caches before anyone signs up. */
  function Fresh(): Store {
    Store([], [], None, {}, map[], map[], map[], None)
  }

  /**
   * As written: the signup endpoint is anonymous, so the filter neither sets nor clears
   * the context; `createUser` sets it to the new tenant, and the next signup served by
   * the same thread joins that tenant instead of creating its own.
   */
  lemma SecondSignupJoinsFirstTenantAsWritten(request1: KC.Request, request2: KC.Request, id1: TenantId, id2: TenantId)
    requires request1.organization.Some? && request2.organization.Some?
    requires request1.organization != request2.organization
    requires request1.username != request2.username && request1.email != request2.email
    ensures var (before1, step1) := FilterBefore(Fresh(), Authenticated(AnonymousUser));
      var (after1, r1) := RootOn(before1, request1, id1);
      var (before2, step2) := FilterBefore(FilterAfter(after1, step1), Authenticated(AnonymousUser));
      var (after2, r2) := RootOn(before2, request2, id2);
      r1.Ok? && r1.value.tenant == TenantRef(Some(id1), request1.organization.value) &&
      before2.context == Some(id1) &&
      r2.Ok? && r2.value.tenant == TenantRef(Some(id1), request1.organization.value)
  {
    var (before1, step1) := FilterBefore(Fresh(), Authenticated(AnonymousUser));
    assert before1 == Fresh() && step1 == Proceed(false);
    FirstSignupOnFresh(request1, id1);
    var (after1, r1) := RootOn(before1, request1, id1);
    var (before2, step2) := FilterBefore(FilterAfter(after1, step1), Authenticated(AnonymousUser));
    assert before2 == SessionStart(after1);
    SignupJoinsContextTenant(before2, request1, request2, id1, id2);
  }

  /** With the first tenant's id left in the context, a signup for another organization joins that tenant. */
  lemma SignupJoinsContextTenant(s: Store, request1: KC.Request, request2: KC.Request, id1: TenantId, id2: TenantId)
    requires request1.organization.Some? && request2.organization.Some?
    requires request1.username != request2.username && request1.email != request2.email
    requires s.context == Some(id1) && id1 in s.tenantSet && s.filter == None
    requires s.tenants == [Tenant(id1, request1.organization.value)]
    requires s.users == [Joined(RootUser(request1), Tenant(id1, request1.organization.value))]
    requires forall o :: Members(s.usernames, o) <= {request1.username}
    requires forall o :: Members(s.emails, o) <= {request1.email}
    ensures RootOn(s, request2, id2).1.Ok?
    ensures RootOn(s, request2, id2).1.value.tenant == TenantRef(Some(id1), request1.organization.value)
  {
    var user2 := RootUser(request2);
    var t1 := Tenant(id1, request1.organization.value);
    assert WithId(s.tenants, id1) == [t1];
    var (s1, t) := ResolveTenant(s, request2.organization.value, id2).value;
    assert t == t1 && s1 == s;
    assert !VisibleClash(s1.users, s1.filter, user2.username, user2.email) by {
      assert forall i :: 0 <= i < |s1.users| ==> s1.users[i] == Joined(RootUser(request1), t1);
    }
  }

  /**
   * Corrected: with the context cleared on every exit from the filter, the second signup
   * starts from an empty context and gets a tenant of its own organization.
   */
  lemma SecondSignupGetsOwnTenant(request1: KC.Request, request2: KC.Request, id1: TenantId, id2: TenantId)
    requires request1.organization.Some? && request2.organization.Some?
    requires request1.organization != request2.organization
    requires request1.username != request2.username && request1.email != request2.email
    ensures var (before1, step1) := FilterBefore(Fresh(), Authenticated(AnonymousUser));
      var (after1, r1) := RootOn(before1, request1, id1);
      var (before2, step2) := FilterBefore(FilterExit(after1), Authenticated(AnonymousUser));
      var (after2, r2) := RootOn(before2, request2, id2);
      r1.Ok? && r1.value.tenant == TenantRef(Some(id1), request1.organization.value) &&
      before2.context == None &&
      r2.Ok? && r2.value.tenant == TenantRef(Some(id2), request2.organization.value)
  {
    var (before1, step1) := FilterBefore(Fresh(), Authenticated(AnonymousUser));
    assert before1 == Fresh();
    FirstSignupOnFresh(request1, id1);
    var (after1, r1) := RootOn(before1, request1, id1);
    var (before2, step2) := FilterBefore(FilterExit(after1), Authenticated(AnonymousUser));
    assert before2 == SessionStart(FilterExit(after1));
    SignupBesideOneTenant(before2, request1, request2, id1, id2);
  }

  /** The first signup on an empty database creates its tenant and is that tenant's only user. */
  lemma FirstSignupOnFresh(request: KC.Request, id: TenantId)
    requires request.organization.Some?
    ensures var (after, r) := RootOn(Fresh(), request, id);
      var t := Tenant(id, request.organization.value);
      r.Ok? && r.value == Joined(RootUser(request), t) && r.value.tenant == TenantRef(Some(id), t.name) &&
      after.tenants == [t] && after.users == [r.value] && after.context == Some(id) && id in after.tenantSet &&
      (forall o :: Members(after.usernames, o) <= {request.username}) &&
      (forall o :: Members(after.emails, o) <= {request.email})
  {
    var user := RootUser(request);
    var t := Tenant(id, request.organization.value);
    assert WithName(Fresh().tenants, t.name) == [];
    var (s1, resolved) := ResolveTenant(Fresh(), t.name, id).value;
    assert resolved == t && s1.tenants == [t] && s1.users == [];
    assert !VisibleClash(s1.users, s1.filter, user.username, user.email);
  }

  /** With the context cleared, a signup for a second organization gets a tenant of its own. */
  lemma SignupBesideOneTenant(s: Store, request1: KC.Request, request2: KC.Request, id1: TenantId, id2: TenantId)
    requires request1.organization.Some? && request2.organization.Some?
    requires request1.organization != request2.organization
    requires request1.username != request2.username && request1.email != request2.email
    requires s.context == None
    requires s.tenants == [Tenant(id1, request1.organization.value)]
    requires s.users == [Joined(RootUser(request1), Tenant(id1, request1.organization.value))]
    requires forall o :: Members(s.usernames, o) <= {request1.username}
    requires forall o :: Members(s.emails, o) <= {request1.email}
    ensures RootOn(s, request2, id2).1.Ok?
    ensures RootOn(s, request2, id2).1.value.tenant == TenantRef(Some(id2), request2.organization.value)
  {
    var user2 := RootUser(request2);
    var org2 := request2.organization.value;
    assert WithName(s.tenants, org2) == [];
    var (s1, t) := ResolveTenant(s, org2, id2).value;
    assert t == Tenant(id2, org2) && s1.users == s.users;
    assert !VisibleClash(s1.users, s1.filter, user2.username, user2.email) by {
      assert forall i :: 0 <= i < |s1.users| ==> s1.users[i] == Joined(RootUser(request1), Tenant(id1, request1.organization.value));
    }
  }

  // ---------------------------------------------------------------------------
  // The service
  // ---------------------------------------------------------------------------

  class AdminService {
    const accounts: KC.AccountsService
    const repository: AccountsRepository

    constructor (accounts: KC.AccountsService, repository: AccountsRepository)
      ensures this.accounts == accounts && this.repository == repository
    {
      this.accounts := accounts;
      this.repository := repository;
    }

    /** `createRootUser`: the database is written only after the Keycloak account exists. */
    method CreateRootUser(request: KC.Request, groupResponse: KC.Response, userResponse: KC.Response, after: KC.FollowUps,
                          freshId: TenantId)
        returns (r: Result<User, AdminError>)
      modifies accounts, repository.db, repository.redis, repository.context
      ensures accounts.calls == old(accounts.calls) + KC.RootSignup(request, groupResponse, userResponse, after).0
      ensures KC.RootSignup(request, groupResponse, userResponse, after).1.Err? ==>
        r == Err(AccountsFailed(KC.RootSignup(request, groupResponse, userResponse, after).1.error)) &&
        repository.Snapshot() == old(repository.Snapshot())
      ensures KC.RootSignup(request, groupResponse, userResponse, after).1.Ok? ==>
        request.organization.Some? && (repository.Snapshot(), r) == RootOn(old(repository.Snapshot()), request, freshId)
    {
      var created := accounts.CreateUserInAccounts(request, groupResponse, userResponse, after);
      if created.Err? {
        return Err(AccountsFailed(created.error));
      }
      var user := RootUser(request);
      var saved := repository.CreateUserAsWritten(user, freshId);
      r := Lift(saved);
    }

    /** `registerInvitedUser`: the Keycloak account, then the context's tenant, then the database user. */
    method RegisterInvitedUser(claims: KC.Claims, dir: KC.Directory, request: KC.Request, userResponse: KC.Response,
                               after: KC.FollowUps, freshId: TenantId)
        returns (r: Result<User, AdminError>)
      modifies accounts, repository.db, repository.redis, repository.context
      ensures accounts.calls == old(accounts.calls) + KC.Invitation(claims, dir, request, userResponse, after).0
      ensures KC.Invitation(claims, dir, request, userResponse, after).1.Err? ==>
        r == Err(AccountsFailed(KC.Invitation(claims, dir, request, userResponse, after).1.error)) &&
        repository.Snapshot() == old(repository.Snapshot())
      ensures KC.Invitation(claims, dir, request, userResponse, after).1.Ok? ==>
        (repository.Snapshot(), r) == InviteOn(old(repository.Snapshot()), request, freshId)
    {
      var created := accounts.RegisterInvitedUser(claims, dir, request, userResponse, after);
      if created.Err? {
        return Err(AccountsFailed(created.error));
      }
      var tenant := TenantById(repository.db.tenants, repository.context.tenantId);
      if tenant.Err? {
        return Err(TenantLookupFailed(tenant.error));
      }
      var user := InvitedUser(request, tenant.value);
      var saved := repository.CreateUserAsWritten(user, freshId);
      r := Lift(saved);
    }
  }
}
