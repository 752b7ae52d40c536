/**
 * The auth service's account store: tenants and users in the relational database, the
 * Redis sets that cache which tenants exist and which usernames and emails each tenant
 * already holds, and the tenant context of the current request.
 *
 * `createUser` resolves the tenant (by the context's id when the `tenants` set holds it,
 * otherwise by name, persisting a new tenant when none has the name), then rejects a
 * username or email already cached for the tenant, then rejects one the database already
 * holds (caching it), and otherwise persists the user and caches both values.
 */
module Accounts {
  import opened Common

  /** A tenant's UUID, as text. */
  type TenantId = string

  /** A `tenants` row. */
  datatype Tenant = Tenant(id: TenantId, name: string)

  /** The tenant a `User` entity points at: `id` is null until the tenant is persisted. */
  datatype TenantRef = TenantRef(id: Option<TenantId>, name: string)

  /** A `users` row, or the entity about to become one. */
  datatype User = User(username: string, email: string, fullName: string, firstName: Option<string>,
                       lastName: Option<string>, role: string, tenant: TenantRef)

  /**
   * Everything `createUser` and the tenant filter read or write: the database tables and
   * the session's `tenantFilter` (the tenant user queries are restricted to, when
   * enabled), the Redis `tenants` set, per-tenant username and email sets and the
   * `tenant:<name>` values, and the tenant context.
   */
  datatype Store = Store(tenants: seq<Tenant>, users: seq<User>, filter: Option<TenantId>,
                         tenantSet: set<TenantId>, usernames: map<TenantId, set<string>>,
                         emails: map<TenantId, set<string>>, tenantCache: map<string, TenantId>,
                         context: Option<TenantId>)

  /** Why `createUser` threw. */
  datatype CreateError =
    | TenantNotFound(id: TenantId) // "Tenant not found in database for ID: " + id
    | TenantNameNotUnique          // `getSingleResult` on several tenants of that name
    | DuplicateUser                // "User with same username or email already exists in tenant"

  /** Why `getSingleResult` threw. */
  datatype LookupError = NoResult | NonUniqueResult

  // ---------------------------------------------------------------------------
  // Queries
  // ---------------------------------------------------------------------------

  /** The tenants whose id is `id`. */
  function WithId(ts: seq<Tenant>, id: TenantId): (r: seq<Tenant>)
    ensures forall t :: t in r ==> t in ts && t.id == id
    ensures forall i :: 0 <= i < |ts| && ts[i].id == id ==> ts[i] in r
    ensures r == [] <==> forall i :: 0 <= i < |ts| ==> ts[i].id != id
  {
    if ts == [] then [] else (if ts[0].id == id then [ts[0]] else []) + WithId(ts[1..], id)
  }

  /** The tenants named exactly `name`. */
  function WithName(ts: seq<Tenant>, name: string): (r: seq<Tenant>)
    ensures forall t :: t in r ==> t in ts && t.name == name
    ensures forall i :: 0 <= i < |ts| && ts[i].name == name ==> ts[i] in r
    ensures r == [] <==> forall i :: 0 <= i < |ts| ==> ts[i].name != name
  {
    if ts == [] then [] else (if ts[0].name == name then [ts[0]] else []) + WithName(ts[1..], name)
  }

  /** The tenants whose lower-cased name is `key`. */
  function WithLowerName(ts: seq<Tenant>, key: string): (r: seq<Tenant>)
    ensures forall t :: t in r ==> t in ts && Lower(t.name) == key
    ensures forall i :: 0 <= i < |ts| && Lower(ts[i].name) == key ==> ts[i] in r
    ensures r == [] <==> forall i :: 0 <= i < |ts| ==> Lower(ts[i].name) != key
  {
    if ts == [] then [] else (if Lower(ts[0].name) == key then [ts[0]] else []) + WithLowerName(ts[1..], key)
  }

  /** `getSingleResult`: the only row, or the exception for none or several. */
  function SingleResult(rows: seq<Tenant>): (r: Result<Tenant, LookupError>)
    ensures r.Ok? <==> |rows| == 1
    ensures r.Ok? ==> rows == [r.value]
    ensures r == Err(NoResult) <==> rows == []
    ensures r == Err(NonUniqueResult) <==> |rows| > 1
  {
    if |rows| == 0 then Err(NoResult) else if |rows| > 1 then Err(NonUniqueResult) else Ok(rows[0])
  }

  /**
   * `getTenantIdByName`: the id of the one tenant whose name equals `name` ignoring case.
   * `getSingleResult` throws when there is none, so the `null` the method would return is
   * never produced.
   */
  function TenantIdByName(ts: seq<Tenant>, name: string): (r: Result<Option<TenantId>, LookupError>)
    ensures r.Ok? ==> r.value.Some?
    ensures r.Ok? ==> exists i :: 0 <= i < |ts| && Lower(ts[i].name) == Lower(name) && ts[i].id == r.value.value
    ensures r == Err(NoResult) <==> forall i :: 0 <= i < |ts| ==> Lower(ts[i].name) != Lower(name)
  {
    match SingleResult(WithLowerName(ts, Lower(name)))
    case Err(e) => Err(e)
    case Ok(t) => Ok(Some(t.id))
  }

  /** `getTenantById`: the one tenant with that id; a null id matches nothing. */
  function TenantById(ts: seq<Tenant>, id: Option<TenantId>): (r: Result<Tenant, LookupError>)
    ensures r.Ok? ==> id == Some(r.value.id) && r.value in ts
    ensures r == Err(NoResult) <==> id.None? || forall i :: 0 <= i < |ts| ==> ts[i].id != id.value
  {
    if id.None? then Err(NoResult) else SingleResult(WithId(ts, id.value))
  }

  /** Two tenants whose names differ only in case make every lookup of either name throw. */
  lemma CaseVariantsBreakLookup(ts: seq<Tenant>, i: nat, j: nat, name: string)
    requires i < j < |ts| && Lower(ts[i].name) == Lower(name) && Lower(ts[j].name) == Lower(name)
    ensures TenantIdByName(ts, name) == Err(NonUniqueResult)
  {
    TwoMatches(ts, i, j, Lower(name));
  }

  lemma {:induction false} TwoMatches(ts: seq<Tenant>, i: nat, j: nat, key: string)
    requires i < j < |ts| && Lower(ts[i].name) == key && Lower(ts[j].name) == key
    ensures |WithLowerName(ts, key)| >= 2
  {
    if i == 0 {
      assert ts[1..][j - 1] == ts[j];
      assert WithLowerName(ts[1..], key) != [];
    } else {
      assert ts[1..][i - 1] == ts[i] && ts[1..][j - 1] == ts[j];
      TwoMatches(ts[1..], i - 1, j - 1, key);
    }
  }

  lemma {:induction false} LowerUpper(s: string)
    ensures Lower(Upper(s)) == Lower(s)
  {
    if s != [] {
      LowerUpper(s[1..]);
      assert Upper(s) == [UpperChar(s[0])] + Upper(s[1..]);
    }
  }

  /** The lookup ignores case: an upper-cased name finds the same tenant. */
  lemma LookupIgnoresCase(ts: seq<Tenant>, name: string)
    ensures TenantIdByName(ts, Upper(name)) == TenantIdByName(ts, name)
  {
    LowerUpper(name);
  }

  // ---------------------------------------------------------------------------
  // createUser, as a function of the store
  // ---------------------------------------------------------------------------

  /** The members of a tenant's Redis set; a missing key is the empty set. */
  function Members(m: map<TenantId, set<string>>, t: TenantId): set<string> {
    if t in m then m[t] else {}
  }

  /** `SADD` of `x` to a tenant's set. */
  function AddMember(m: map<TenantId, set<string>>, t: TenantId, x: string): (r: map<TenantId, set<string>>)
    ensures Members(r, t) == Members(m, t) + {x}
    ensures forall o :: o != t ==> Members(r, o) == Members(m, o)
  {
    m[t := Members(m, t) + {x}]
  }

  /** A user with the same username or the same email. */
  predicate Clashes(u: User, username: string, email: string) {
    u.username == username || u.email == email
  }

  /** The user query of `createUser`: a clashing user among those the session's filter lets through. */
  predicate VisibleClash(users: seq<User>, filter: Option<TenantId>, username: string, email: string) {
    exists i :: 0 <= i < |users| && (filter.None? || users[i].tenant.id == filter) && Clashes(users[i], username, email)
  }

  /** Some user of tenant `t` has this username. */
  predicate HoldsUsername(users: seq<User>, t: TenantId, username: string) {
    exists i :: 0 <= i < |users| && users[i].tenant.id == Some(t) && users[i].username == username
  }

  /** Some user of tenant `t` has this email. */
  predicate HoldsEmail(users: seq<User>, t: TenantId, email: string) {
    exists i :: 0 <= i < |users| && users[i].tenant.id == Some(t) && users[i].email == email
  }

  /** A user of tenant `t` with the same username or the same email. */
  predicate TenantClash(users: seq<User>, t: TenantId, username: string, email: string) {
    HoldsUsername(users, t, username) || HoldsEmail(users, t, email)
  }

  /**
   * The first half of `createUser`: the tenant the user joins and the store afterwards. A context id in the
   * `tenants` set selects that tenant by id (failing when the database has no single
   * tenant with it); otherwise the tenant is found by exact name or persisted with the
   * database-generated `freshId`, its id joins the `tenants` set, the context takes it
   * when empty, and the session filter is enabled for it.
   */
  function ResolveTenant(s: Store, tenantName: string, freshId: TenantId): (r: Result<(Store, Tenant), CreateError>)
    ensures r.Ok? ==> r.value.0.users == s.users && r.value.0.usernames == s.usernames &&
                      r.value.0.emails == s.emails && r.value.0.tenantCache == s.tenantCache
    ensures r.Ok? ==> r.value.1 in r.value.0.tenants
    ensures s.context.Some? && s.context.value in s.tenantSet ==>
      (r.Ok? <==> |WithId(s.tenants, s.context.value)| == 1) &&
      (r.Ok? ==> r.value.0 == s && r.value.1.id == s.context.value) &&
      (r.Err? ==> r.error == TenantNotFound(s.context.value))
    ensures !(s.context.Some? && s.context.value in s.tenantSet) ==>
      (r.Ok? <==> |WithName(s.tenants, tenantName)| <= 1) &&
      (r.Ok? ==> r.value.1.name == tenantName && r.value.1.id in r.value.0.tenantSet &&
                 r.value.0.context == Some(if s.context.Some? then s.context.value else r.value.1.id) &&
                 r.value.0.filter == Some(r.value.1.id) && r.value.0.tenantSet == s.tenantSet + {r.value.1.id})
    ensures !(s.context.Some? && s.context.value in s.tenantSet) && |WithName(s.tenants, tenantName)| == 1 ==>
      r.Ok? && r.value.1 == WithName(s.tenants, tenantName)[0] && r.value.0.tenants == s.tenants
    ensures !(s.context.Some? && s.context.value in s.tenantSet) && WithName(s.tenants, tenantName) == [] ==>
      r.Ok? && r.value.1 == Tenant(freshId, tenantName) && r.value.0.tenants == s.tenants + [Tenant(freshId, tenantName)]
  {
    if s.context.Some? && s.context.value in s.tenantSet then
      match SingleResult(WithId(s.tenants, s.context.value))
      case Err(_) => Err(TenantNotFound(s.context.value))
      case Ok(t) => Ok((s, t))
    else
      var byName := WithName(s.tenants, tenantName);
      if |byName| > 1 then Err(TenantNameNotUnique)
      else
        var t := if byName == [] then Tenant(freshId, tenantName) else byName[0];
        var tenants := if byName == [] then s.tenants + [t] else s.tenants;
        Ok((s.(tenants := tenants, tenantSet := s.tenantSet + {t.id},
               context := if s.context.None? then Some(t.id) else s.context,
               filter := Some(t.id)), t))
  }

  /** The user as persisted: the same fields, pointing at the resolved tenant. */
  function Joined(user: User, t: Tenant): (j: User)
    ensures j.tenant.id == Some(t.id) && j.tenant.name == t.name
    ensures j.username == user.username && j.email == user.email && j.fullName == user.fullName
    ensures j.firstName == user.firstName && j.lastName == user.lastName && j.role == user.role
  {
    user.(tenant := TenantRef(Some(t.id), t.name))
  }

  /**
   * The second half of `createUser` as written: a cached username or email rejects; a clashing user the
   * session's filter lets through adds BOTH values to the tenant's sets and rejects;
   * otherwise the user is persisted and both values are added.
   */
  function RegisterAsWritten(s: Store, user: User, t: Tenant): (out: (Store, Result<User, CreateError>))
    ensures out.1.Ok? <==>
      !(user.username in Members(s.usernames, t.id) || user.email in Members(s.emails, t.id)) && !VisibleClash(s.users, s.filter, user.username, user.email)
    ensures out.1.Ok? ==>
      out.1.value == Joined(user, t) && out.0.users == s.users + [out.1.value] &&
      Members(out.0.usernames, t.id) == Members(s.usernames, t.id) + {user.username} &&
      Members(out.0.emails, t.id) == Members(s.emails, t.id) + {user.email}
    ensures out.1.Err? ==> out.1 == Err(DuplicateUser) && out.0.users == s.users
    ensures out.0.tenants == s.tenants && out.0.filter == s.filter && out.0.tenantSet == s.tenantSet &&
      out.0.tenantCache == s.tenantCache && out.0.context == s.context
  {
    if user.username in Members(s.usernames, t.id) || user.email in Members(s.emails, t.id) then
      (s, Err(DuplicateUser))
    else if VisibleClash(s.users, s.filter, user.username, user.email) then
      (s.(usernames := AddMember(s.usernames, t.id, user.username),
          emails := AddMember(s.emails, t.id, user.email)), Err(DuplicateUser))
    else
      (s.(users := s.users + [Joined(user, t)],
          usernames := AddMember(s.usernames, t.id, user.username),
          emails := AddMember(s.emails, t.id, user.email)), Ok(Joined(user, t)))
  }

  /** `createUser` as written. */
  function CreateUserOnAsWritten(s: Store, user: User, freshId: TenantId): (out: (Store, Result<User, CreateError>))
    ensures ResolveTenant(s, user.tenant.name, freshId).Err? ==> out == (s, Err(ResolveTenant(s, user.tenant.name, freshId).error))
    ensures out.1.Ok? ==>
      ResolveTenant(s, user.tenant.name, freshId).Ok? &&
      out.1.value == Joined(user, ResolveTenant(s, user.tenant.name, freshId).value.1) &&
      out.0.users == s.users + [out.1.value] && out.1.value.tenant.id.value in out.0.tenantSet
    ensures out.1.Err? ==> out.0.users == s.users
  {
    match ResolveTenant(s, user.tenant.name, freshId)
    case Err(e) => (s, Err(e))
    case Ok((s1, t)) => RegisterAsWritten(s1, user, t)
  }

  /**
   * The second half of `createUser` as evidently intended: the database check looks at the tenant's own
   * users, and a clash caches only the value that some user of the tenant actually holds.
   */
  function Register(s: Store, user: User, t: Tenant): (out: (Store, Result<User, CreateError>))
    ensures out.1.Ok? <==>
      !(user.username in Members(s.usernames, t.id) || user.email in Members(s.emails, t.id)) && !TenantClash(s.users, t.id, user.username, user.email)
    ensures out.1.Ok? ==>
      out.1.value == Joined(user, t) && out.0.users == s.users + [out.1.value] &&
      Members(out.0.usernames, t.id) == Members(s.usernames, t.id) + {user.username} &&
      Members(out.0.emails, t.id) == Members(s.emails, t.id) + {user.email}
    ensures out.1.Err? ==> out.1 == Err(DuplicateUser) && out.0.users == s.users
    ensures out.0.tenants == s.tenants && out.0.filter == s.filter && out.0.tenantSet == s.tenantSet &&
      out.0.tenantCache == s.tenantCache && out.0.context == s.context
    ensures out.1.Err? && !(user.username in Members(s.usernames, t.id) || user.email in Members(s.emails, t.id)) ==>
      (user.username in Members(out.0.usernames, t.id) <==> HoldsUsername(s.users, t.id, user.username)) &&
      (user.email in Members(out.0.emails, t.id) <==> HoldsEmail(s.users, t.id, user.email))
  {
    if user.username in Members(s.usernames, t.id) || user.email in Members(s.emails, t.id) then
      (s, Err(DuplicateUser))
    else if TenantClash(s.users, t.id, user.username, user.email) then
      var nameTaken := HoldsUsername(s.users, t.id, user.username);
      var emailTaken := HoldsEmail(s.users, t.id, user.email);
      (s.(usernames := if nameTaken then AddMember(s.usernames, t.id, user.username) else s.usernames,
          emails := if emailTaken then AddMember(s.emails, t.id, user.email) else s.emails), Err(DuplicateUser))
    else
      (s.(users := s.users + [Joined(user, t)],
          usernames := AddMember(s.usernames, t.id, user.username),
          emails := AddMember(s.emails, t.id, user.email)), Ok(Joined(user, t)))
  }

  /** `createUser` with the corrected duplicate check. */
  function CreateUserOn(s: Store, user: User, freshId: TenantId): (out: (Store, Result<User, CreateError>))
    ensures ResolveTenant(s, user.tenant.name, freshId).Err? ==> out == (s, Err(ResolveTenant(s, user.tenant.name, freshId).error))
    ensures out.1.Ok? ==>
      ResolveTenant(s, user.tenant.name, freshId).Ok? &&
      out.1.value == Joined(user, ResolveTenant(s, user.tenant.name, freshId).value.1) &&
      out.0.users == s.users + [out.1.value] && out.1.value.tenant.id.value in out.0.tenantSet
    ensures out.1.Err? ==> out.0.users == s.users
  {
    match ResolveTenant(s, user.tenant.name, freshId)
    case Err(e) => (s, Err(e))
    case Ok((s1, t)) => Register(s1, user, t)
  }

  // ---------------------------------------------------------------------------
  // Properties of createUser
  // ---------------------------------------------------------------------------

  /** Whoever has a username in a tenant's set, and whoever has an email in it, is a user of that tenant. */
  ghost predicate CacheSound(s: Store) {
    (forall t, n :: n in Members(s.usernames, t) ==> HoldsUsername(s.users, t, n)) &&
    (forall t, e :: e in Members(s.emails, t) ==> HoldsEmail(s.users, t, e))
  }

  /** A username or email in the tenant's sets rejects the user before anything is persisted or cached. */
  lemma CachedValueRejected(s: Store, user: User, freshId: TenantId)
    requires ResolveTenant(s, user.tenant.name, freshId).Ok?
    requires var (s1, t) := ResolveTenant(s, user.tenant.name, freshId).value;
      user.username in Members(s1.usernames, t.id) || user.email in Members(s1.emails, t.id)
    ensures CreateUserOnAsWritten(s, user, freshId) == (ResolveTenant(s, user.tenant.name, freshId).value.0, Err(DuplicateUser))
    ensures CreateUserOn(s, user, freshId) == CreateUserOnAsWritten(s, user, freshId)
  {
  }

  /** A created user is persisted once, in the resolved tenant, and both its values are cached for that tenant. */
  lemma CreatedUserIsStored(s: Store, user: User, freshId: TenantId)
    requires CreateUserOnAsWritten(s, user, freshId).1.Ok?
    ensures var (s2, r) := CreateUserOnAsWritten(s, user, freshId);
      var t := ResolveTenant(s, user.tenant.name, freshId).value.1;
      s2.users == s.users + [r.value] && r.value == Joined(user, t) &&
      user.username in Members(s2.usernames, t.id) && user.email in Members(s2.emails, t.id)
  {
  }

  /** The username and email sets only ever grow. */
  lemma CacheOnlyGrows(s: Store, user: User, freshId: TenantId, t: TenantId)
    ensures Members(s.usernames, t) <= Members(CreateUserOnAsWritten(s, user, freshId).0.usernames, t)
    ensures Members(s.emails, t) <= Members(CreateUserOnAsWritten(s, user, freshId).0.emails, t)
  {
    match ResolveTenant(s, user.tenant.name, freshId)
    case Err(_) =>
    case Ok((s1, t1)) =>
      var s2 := RegisterAsWritten(s1, user, t1).0;
      assert Members(s.usernames, t) <= Members(s2.usernames, t);
      assert Members(s.emails, t) <= Members(s2.emails, t);
  }

  /** The corrected `createUser` also only grows the sets. */
  lemma CorrectedCacheOnlyGrows(s: Store, user: User, freshId: TenantId, t: TenantId)
    ensures Members(s.usernames, t) <= Members(CreateUserOn(s, user, freshId).0.usernames, t)
    ensures Members(s.emails, t) <= Members(CreateUserOn(s, user, freshId).0.emails, t)
  {
    match ResolveTenant(s, user.tenant.name, freshId)
    case Err(_) =>
    case Ok((s1, t1)) =>
      var s2 := Register(s1, user, t1).0;
      assert Members(s.usernames, t) <= Members(s2.usernames, t);
      assert Members(s.emails, t) <= Members(s2.emails, t);
  }

  /** Appending a user keeps every username and email a tenant already holds. */
  lemma HoldingsGrow(users: seq<User>, u: User)
    ensures forall t, n :: HoldsUsername(users, t, n) ==> HoldsUsername(users + [u], t, n)
    ensures forall t, e :: HoldsEmail(users, t, e) ==> HoldsEmail(users + [u], t, e)
  {
    forall t, n | HoldsUsername(users, t, n)
      ensures HoldsUsername(users + [u], t, n)
    {
      var i :| 0 <= i < |users| && users[i].tenant.id == Some(t) && users[i].username == n;
      assert (users + [u])[i] == users[i];
    }
    forall t, e | HoldsEmail(users, t, e)
      ensures HoldsEmail(users + [u], t, e)
    {
      var i :| 0 <= i < |users| && users[i].tenant.id == Some(t) && users[i].email == e;
      assert (users + [u])[i] == users[i];
    }
  }

  /** The corrected `createUser` keeps every cached value backed by a user of its tenant. */
  lemma CreateUserKeepsCacheSound(s: Store, user: User, freshId: TenantId)
    requires CacheSound(s)
    ensures CacheSound(CreateUserOn(s, user, freshId).0)
  {
    match ResolveTenant(s, user.tenant.name, freshId)
    case Err(_) =>
    case Ok((s1, t)) =>
      assert CacheSound(s1);
      var (s2, r) := Register(s1, user, t);
      if r.Ok? {
        var users := s1.users + [Joined(user, t)];
        assert users[|s1.users|] == Joined(user, t);
        assert HoldsUsername(users, t.id, user.username);
        assert HoldsEmail(users, t.id, user.email);
        HoldingsGrow(s1.users, Joined(user, t));
      }
  }

  /**
   * With a sound cache, the corrected `createUser` rejects a user, once its tenant is
   * resolved, exactly when a user of that tenant already has its username or email.
   */
  lemma CreateUserRejectsExactlyDuplicates(s: Store, user: User, freshId: TenantId)
    requires CacheSound(s) && ResolveTenant(s, user.tenant.name, freshId).Ok?
    ensures var t := ResolveTenant(s, user.tenant.name, freshId).value.1;
      CreateUserOn(s, user, freshId).1 == Err(DuplicateUser) <==> TenantClash(s.users, t.id, user.username, user.email)
    ensures CreateUserOn(s, user, freshId).1.Ok? <==> CreateUserOn(s, user, freshId).1 != Err(DuplicateUser)
  {
    var (s1, t) := ResolveTenant(s, user.tenant.name, freshId).value;
    if user.username in Members(s1.usernames, t.id) {
      assert HoldsUsername(s.users, t.id, user.username);
    } else if user.email in Members(s1.emails, t.id) {
      assert HoldsEmail(s.users, t.id, user.email);
    }
  }

  /** The store of the scenarios below: one tenant whose only user is `alice`, nothing cached, no context. */
  function OneUserStore(id: TenantId, org: string, alice: User): Store {
    Store([Tenant(id, org)], [alice], None, {}, map[], map[], map[], None)
  }

  /**
   * As written: a request reusing alice's username with a new email is rejected and
   * caches the new email; a second request with a new username and that email is then
   * rejected too, although no user of the tenant has either value.
   */
  lemma FalseDuplicateAsWritten(id: TenantId, org: string, alice: User, newEmail: string, carol: string, freshId: TenantId)
    requires alice.tenant == TenantRef(Some(id), org)
    requires newEmail != alice.email && carol != alice.username
    ensures var first := alice.(email := newEmail, tenant := TenantRef(None, org));
      var (s1, r1) := CreateUserOnAsWritten(OneUserStore(id, org, alice), first, freshId);
      r1 == Err(DuplicateUser) && newEmail in Members(s1.emails, id) &&
      !HoldsUsername(s1.users, id, carol) && !HoldsEmail(s1.users, id, newEmail) &&
      CreateUserOnAsWritten(s1, first.(username := carol), freshId).1 == Err(DuplicateUser)
  {
    var s0 := OneUserStore(id, org, alice);
    var first := alice.(email := newEmail, tenant := TenantRef(None, org));
    assert WithName(s0.tenants, org) == [Tenant(id, org)];
    var s1 := ResolveTenant(s0, org, freshId).value.0;
    assert ResolveTenant(s0, org, freshId).value.1 == Tenant(id, org);
    assert s1.users == [alice] && s1.filter == Some(id);
    assert VisibleClash(s1.users, s1.filter, first.username, first.email) by {
      assert s1.users[0] == alice;
    }
    var s2 := CreateUserOnAsWritten(s0, first, freshId).0;
    assert s2.users == [alice] && s2.context == Some(id) && id in s2.tenantSet;
    assert WithId(s2.tenants, id) == [Tenant(id, org)];
  }

  /**
   * Corrected: the same two requests; the first is rejected without caching the new
   * email, and the second is created.
   */
  lemma FalseDuplicateCorrected(id: TenantId, org: string, alice: User, newEmail: string, carol: string, freshId: TenantId)
    requires alice.tenant == TenantRef(Some(id), org)
    requires newEmail != alice.email && carol != alice.username
    ensures var first := alice.(email := newEmail, tenant := TenantRef(None, org));
      var (s1, r1) := CreateUserOn(OneUserStore(id, org, alice), first, freshId);
      r1 == Err(DuplicateUser) && newEmail !in Members(s1.emails, id) &&
      CreateUserOn(s1, first.(username := carol), freshId).1.Ok?
  {
    var s0 := OneUserStore(id, org, alice);
    var first := alice.(email := newEmail, tenant := TenantRef(None, org));
    assert WithName(s0.tenants, org) == [Tenant(id, org)];
    assert ResolveTenant(s0, org, freshId).value.1 == Tenant(id, org);
    var s1 := ResolveTenant(s0, org, freshId).value.0;
    assert s1.users == [alice];
    assert HoldsUsername(s1.users, id, first.username) by {
      assert s1.users[0] == alice;
    }
    assert !HoldsEmail(s1.users, id, newEmail) by {
      assert forall i :: 0 <= i < |s1.users| ==> s1.users[i] == alice;
    }
    var s2 := CreateUserOn(s0, first, freshId).0;
    assert s2.users == [alice] && s2.context == Some(id) && id in s2.tenantSet;
    assert Members(s2.emails, id) == {};
    assert Members(s2.usernames, id) == {alice.username};
    assert WithId(s2.tenants, id) == [Tenant(id, org)];
    var second := first.(username := carol);
    assert !TenantClash(s2.users, id, carol, newEmail) by {
      assert forall i :: 0 <= i < |s2.users| ==> s2.users[i] == alice;
    }
  }

  // ---------------------------------------------------------------------------
  // The repository and the state it works on
  // ---------------------------------------------------------------------------

  /** The database tables and the current session's `tenantFilter`. */
  class Database {
    var tenants: seq<Tenant>
    var users: seq<User>
    var filter: Option<TenantId>

    constructor (tenants: seq<Tenant>, users: seq<User>)
      ensures this.tenants == tenants && this.users == users && filter == None
    {
      this.tenants := tenants;
      this.users := users;
      filter := None;
    }
  }

  /** The Redis data the auth service uses. */
  class Redis {
    /** The `tenants` set. */
    var tenantSet: set<TenantId>
    /** `tenant:<id>:usernames` and `tenant:<id>:emails`, by tenant id. */
    var usernames: map<TenantId, set<string>>
    var emails: map<TenantId, set<string>>
    /** The `tenant:<name>` values, by whole key. */
    var tenantCache: map<string, TenantId>

    constructor ()
      ensures tenantSet == {} && usernames == map[] && emails == map[] && tenantCache == map[]
    {
      tenantSet := {};
      usernames := map[];
      emails := map[];
      tenantCache := map[];
    }
  }

  /** The tenant of the request the current thread serves. */
  class TenantContext {
    var tenantId: Option<TenantId>

    constructor ()
      ensures tenantId == None
    {
      tenantId := None;
    }
  }

  class AccountsRepository {
    const db: Database
    const redis: Redis
    const context: TenantContext

    constructor (db: Database, redis: Redis, context: TenantContext)
      ensures this.db == db && this.redis == redis && this.context == context
    {
      this.db := db;
      this.redis := redis;
      this.context := context;
    }

    function Snapshot(): Store
      reads db, redis, context
    {
      Store(db.tenants, db.users, db.filter, redis.tenantSet, redis.usernames, redis.emails,
            redis.tenantCache, context.tenantId)
    }

    /** The tenant half of `createUser`; `freshId` is the id the database generates for a new tenant. */
    method ResolveTenantStep(tenantName: string, freshId: TenantId) returns (r: Result<Tenant, CreateError>)
      modifies db, redis, context
      ensures var expected := ResolveTenant(old(Snapshot()), tenantName, freshId);
        (r.Ok? <==> expected.Ok?) &&
        (r.Ok? ==> Snapshot() == expected.value.0 && r.value == expected.value.1) &&
        (r.Err? ==> Snapshot() == old(Snapshot()) && r.error == expected.error)
    {
      var tenantId := context.tenantId;
      var tenantExistsInCache := tenantId.Some? && tenantId.value in redis.tenantSet;
      var tenant: Tenant;
      if tenantExistsInCache {
        var found := SingleResult(WithId(db.tenants, tenantId.value));
        if found.Err? {
          return Err(TenantNotFound(tenantId.value));
        }
        tenant := found.value;
      } else {
        var byName := WithName(db.tenants, tenantName);
        if byName == [] {
          tenant := Tenant(freshId, tenantName);
          db.tenants := db.tenants + [tenant];
        } else if |byName| > 1 {
          return Err(TenantNameNotUnique);
        } else {
          tenant := byName[0];
        }
        redis.tenantSet := redis.tenantSet + {tenant.id};
        if context.tenantId.None? {
          context.tenantId := Some(tenant.id);
        }
        db.filter := Some(tenant.id);
      }
      r := Ok(tenant);
    }

    /** `createUser` as written. */
    method CreateUserAsWritten(user: User, freshId: TenantId) returns (r: Result<User, CreateError>)
      modifies db, redis, context
      ensures (Snapshot(), r) == CreateUserOnAsWritten(old(Snapshot()), user, freshId)
    {
      var resolved := ResolveTenantStep(user.tenant.name, freshId);
      if resolved.Err? {
        return Err(resolved.error);
      }
      var tenant := resolved.value;
      if user.username in Members(redis.usernames, tenant.id) || user.email in Members(redis.emails, tenant.id) {
        return Err(DuplicateUser);
      }
      if VisibleClash(db.users, db.filter, user.username, user.email) {
        redis.usernames := AddMember(redis.usernames, tenant.id, user.username);
        redis.emails := AddMember(redis.emails, tenant.id, user.email);
        return Err(DuplicateUser);
      }
      var saved := Joined(user, tenant);
      db.users := db.users + [saved];
      redis.usernames := AddMember(redis.usernames, tenant.id, user.username);
      redis.emails := AddMember(redis.emails, tenant.id, user.email);
      r := Ok(saved);
    }

    /** `createUser` with the duplicate check scoped to the tenant and caching only the values it found. */
    method CreateUser(user: User, freshId: TenantId) returns (r: Result<User, CreateError>)
      modifies db, redis, context
      ensures (Snapshot(), r) == CreateUserOn(old(Snapshot()), user, freshId)
    {
      var resolved := ResolveTenantStep(user.tenant.name, freshId);
      if resolved.Err? {
        return Err(resolved.error);
      }
      var tenant := resolved.value;
      if user.username in Members(redis.usernames, tenant.id) || user.email in Members(redis.emails, tenant.id) {
        return Err(DuplicateUser);
      }
      var nameTaken := HoldsUsername(db.users, tenant.id, user.username);
      var emailTaken := HoldsEmail(db.users, tenant.id, user.email);
      if nameTaken || emailTaken {
        if nameTaken {
          redis.usernames := AddMember(redis.usernames, tenant.id, user.username);
        }
        if emailTaken {
          redis.emails := AddMember(redis.emails, tenant.id, user.email);
        }
        return Err(DuplicateUser);
      }
      var saved := Joined(user, tenant);
      db.users := db.users + [saved];
      redis.usernames := AddMember(redis.usernames, tenant.id, user.username);
      redis.emails := AddMember(redis.emails, tenant.id, user.email);
      r := Ok(saved);
    }
  }
}
