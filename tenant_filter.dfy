/**
 * The auth service's tenant filter: for a request authenticated by a JWT it reads the
 * organization from the first `groups` claim entry, resolves the tenant's id through the
 * `tenant:<name>` cache (falling back to a case-insensitive lookup, whose answer it
 * caches), and runs the rest of the chain with the tenant in the context and the
 * session's tenant filter enabled, clearing both when the chain returns.
 */
module TenantFiltering {
  import opened Common
  import opened Accounts

  /** What `getPrincipal()` holds. */
  datatype Principal =
    | AnonymousUser                              // the string "anonymousUser"
    | JwtPrincipal(groups: Option<seq<string>>)  // a JWT; `groups` is null when the claim is missing
    | OtherPrincipal                             // anything else, which the cast to `Jwt` rejects

  datatype Authentication = NoAuthentication | Authenticated(principal: Principal)

  /** The exceptions that end the request before the chain runs. */
  datatype FilterError =
    | NotAJwt                    // ClassCastException
    | GroupsMissing              // a missing claim: `get(0)` on null throws
    | GroupsEmpty                // IndexOutOfBoundsException on `get(0)`
    | NoOrganization             // ArrayIndexOutOfBoundsException on `split("/")[1]`
    | LookupFailed(e: LookupError)

  /** How the filter let the request through, if it did. */
  datatype FilterStep =
    | Proceed(resolved: bool)  // the chain runs; `resolved` when the tenant was set first
    | Rejected(e: FilterError)

  /** `groups.get(0).toString().split("/")[1]`: the organization a group path such as "/acme" names. */
  function OrgName(groups: Option<seq<string>>): (r: Result<string, FilterError>)
    ensures r.Ok? <==> groups.Some? && |groups.value| > 0 && SecondPathComponent(groups.value[0]).Some?
    ensures r.Ok? ==> r.value == SecondPathComponent(groups.value[0]).value
    ensures r == Err(GroupsMissing) <==> groups.None?
  {
    if groups.None? then Err(GroupsMissing)
    else if |groups.value| == 0 then Err(GroupsEmpty)
    else match SecondPathComponent(groups.value[0])
      case None => Err(NoOrganization)
      case Some(name) => Ok(name)
  }

  /** The Redis key caching a tenant's id by organization name. */
  function CacheKey(name: string): (k: string)
    ensures |k| == |name| + 7 && k[..7] == "tenant:" && k[7..] == name
  {
    "tenant:" + name
  }

  /** The context takes the tenant and the session filter is enabled for it. */
  function Enter(s: Store, id: TenantId): Store {
    s.(context := Some(id), filter := Some(id))
  }

  /**
   * A request begins on a session of its own, on which no filter is enabled; the tenant
   * context, held by the thread, carries over from the thread's previous request.
   */
  function SessionStart(s: Store): (s0: Store)
    ensures s0.filter.None? && s0.context == s.context
    ensures s0.(filter := s.filter) == s
  {
    s.(filter := None)
  }

  /**
   * `doFilterInternal` up to the call of the chain, on the request's fresh session: the
   * store the chain starts from and whether it runs at all.
   */
  function FilterBefore(s0: Store, auth: Authentication): (out: (Store, FilterStep))
    ensures out.0.tenants == s0.tenants && out.0.users == s0.users && out.0.tenantSet == s0.tenantSet &&
      out.0.usernames == s0.usernames && out.0.emails == s0.emails
    ensures forall k :: k in s0.tenantCache ==> k in out.0.tenantCache && out.0.tenantCache[k] == s0.tenantCache[k]
    ensures out.1 == Proceed(true) ==> out.0.context.Some? && out.0.filter == out.0.context
    ensures out.1 != Proceed(true) ==> out.0 == SessionStart(s0)
    ensures out.1 == Proceed(false) <==> auth.NoAuthentication? || auth == Authenticated(AnonymousUser)
  {
    var s := SessionStart(s0);
    match auth
    case NoAuthentication => (s, Proceed(false))
    case Authenticated(AnonymousUser) => (s, Proceed(false))
    case Authenticated(OtherPrincipal) => (s, Rejected(NotAJwt))
    case Authenticated(JwtPrincipal(groups)) =>
      match OrgName(groups)
      case Err(e) => (s, Rejected(e))
      case Ok(name) =>
        if CacheKey(name) in s.tenantCache then (Enter(s, s.tenantCache[CacheKey(name)]), Proceed(true))
        else match TenantIdByName(s.tenants, name)
          case Err(e) => (s, Rejected(LookupFailed(e)))
          case Ok(None) => (s, Proceed(false))
          case Ok(Some(id)) => (Enter(s.(tenantCache := s.tenantCache[CacheKey(name) := id]), id), Proceed(true))
  }

  /** The two statements after the chain, reached only when it returns normally: clear the context and disable the filter. */
  function FilterAfter(s: Store, step: FilterStep): (r: Store)
    ensures step == Proceed(true) ==> r.context.None? && r.filter.None? && r.(context := s.context, filter := s.filter) == s
    ensures step != Proceed(true) ==> r == s
  {
    if step == Proceed(true) then s.(context := None, filter := None) else s
  }

  /** The evidently intended exit: the context and the filter are cleared however the request ends. */
  function FilterExit(s: Store): (r: Store)
    ensures r.context.None? && r.filter.None?
    ensures r.(context := s.context, filter := s.filter) == s
  {
    s.(context := None, filter := None)
  }

  // ---------------------------------------------------------------------------
  // Properties of the filter
  // ---------------------------------------------------------------------------

  /** Without authentication, or for the anonymous user, the chain runs on the store as it is. */
  lemma UnauthenticatedPassesThrough(s: Store, auth: Authentication)
    requires auth.NoAuthentication? || auth == Authenticated(AnonymousUser)
    ensures FilterBefore(s, auth) == (SessionStart(s), Proceed(false))
  {
  }

  /** A JWT is never let through without a tenant: the "no tenant found" branch cannot be taken. */
  lemma JwtAlwaysResolvesOrFails(s: Store, groups: Option<seq<string>>)
    ensures FilterBefore(s, Authenticated(JwtPrincipal(groups))).1 != Proceed(false)
  {
  }

  /** While the chain runs after a resolution, the context holds the tenant and the filter restricts to it. */
  lemma ResolvedTenantIsInContext(s: Store, auth: Authentication)
    requires FilterBefore(s, auth).1 == Proceed(true)
    ensures var s1 := FilterBefore(s, auth).0;
      auth.Authenticated? && auth.principal.JwtPrincipal? && OrgName(auth.principal.groups).Ok? &&
      s1.context.Some? && s1.filter == s1.context &&
      CacheKey(OrgName(auth.principal.groups).value) in s1.tenantCache &&
      s1.context.value == s1.tenantCache[CacheKey(OrgName(auth.principal.groups).value)]
  {
  }

  /** A cache hit decides the tenant without the database: any tenants table gives the same outcome. */
  lemma CacheHitSkipsDatabase(s: Store, groups: Option<seq<string>>, tenants: seq<Tenant>)
    requires OrgName(groups).Ok? && CacheKey(OrgName(groups).value) in s.tenantCache
    ensures FilterBefore(s.(tenants := tenants), Authenticated(JwtPrincipal(groups))) ==
      (FilterBefore(s, Authenticated(JwtPrincipal(groups))).0.(tenants := tenants),
       FilterBefore(s, Authenticated(JwtPrincipal(groups))).1)
  {
  }

  /**
   * A miss looks the organization up ignoring case: a single match is cached under the
   * key and put in the context; no match rejects the request.
   */
  lemma CacheMissLooksUp(s: Store, groups: Option<seq<string>>)
    requires OrgName(groups).Ok? && CacheKey(OrgName(groups).value) !in s.tenantCache
    ensures var name := OrgName(groups).value;
      var (s1, step) := FilterBefore(s, Authenticated(JwtPrincipal(groups)));
      (step == Proceed(true) <==> TenantIdByName(s.tenants, name).Ok?) &&
      (step == Proceed(true) ==> s1.tenantCache == s.tenantCache[CacheKey(name) := TenantIdByName(s.tenants, name).value.value] &&
                                 s1.context == TenantIdByName(s.tenants, name).value) &&
      ((forall i :: 0 <= i < |s.tenants| ==> Lower(s.tenants[i].name) != Lower(name)) ==> step == Rejected(LookupFailed(NoResult)))
  {
  }

  /** After a normal return the context is empty whenever the filter had set it. */
  lemma AfterClearsWhatItSet(s: Store, auth: Authentication, chained: Store)
    requires FilterBefore(s, auth).1 == Proceed(true)
    ensures FilterAfter(chained, FilterBefore(s, auth).1).context.None?
    ensures FilterAfter(chained, FilterBefore(s, auth).1).filter.None?
  {
  }

  // ---------------------------------------------------------------------------
  // The filter object
  // ---------------------------------------------------------------------------

  class TenantFilter {
    const repository: AccountsRepository

    constructor (repository: AccountsRepository)
      ensures this.repository == repository
    {
      this.repository := repository;
    }

    /** `doFilterInternal` up to the chain. */
    method BeforeChain(auth: Authentication) returns (step: FilterStep)
      modifies repository.db, repository.redis, repository.context
      ensures (repository.Snapshot(), step) == FilterBefore(old(repository.Snapshot()), auth)
    {
      repository.db.filter := None;
      if auth.NoAuthentication? {
        return Proceed(false);
      }
      if auth.principal.AnonymousUser? {
        return Proceed(false);
      }
      if auth.principal.OtherPrincipal? {
        return Rejected(NotAJwt);
      }
      var name := OrgName(auth.principal.groups);
      if name.Err? {
        return Rejected(name.error);
      }
      var key := CacheKey(name.value);
      var tenantId: TenantId;
      if key in repository.redis.tenantCache {
        tenantId := repository.redis.tenantCache[key];
      } else {
        var found := TenantIdByName(repository.db.tenants, name.value);
        if found.Err? {
          return Rejected(LookupFailed(found.error));
        }
        if found.value.None? {
          return Proceed(false);
        }
        tenantId := found.value.value;
        repository.redis.tenantCache := repository.redis.tenantCache[key := tenantId];
      }
      repository.context.tenantId := Some(tenantId);
      repository.db.filter := Some(tenantId);
      step := Proceed(true);
    }

    /** The statements after the chain, run when it returns normally. */
    method AfterChain(step: FilterStep)
      modifies repository.db, repository.context
      ensures repository.Snapshot() == FilterAfter(old(repository.Snapshot()), step)
    {
      if step == Proceed(true) {
        repository.context.tenantId := None;
        repository.db.filter := None;
      }
    }

    /** The corrected exit, run however the request ends. */
    method Exit()
      modifies repository.db, repository.context
      ensures repository.Snapshot() == FilterExit(old(repository.Snapshot()))
    {
      repository.context.tenantId := None;
      repository.db.filter := None;
    }
  }
}
