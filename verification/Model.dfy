/** The tables behind roles and permissions, and what a member's effective permissions are. */
module Model {

  datatype Option<+T> = None | Some(value: T)

  type UserId = string
  type TenantId = string
  type RoleId = string
  type InviteId = string
  type PermName = string

  const TENANT_ADMIN_ROLE := "tenant_admin"
  const PLATFORM_ADMIN := "admin:*"

  /** A catalogue entry. Names are unique and never change, so the catalogue is keyed by name. */
  datatype Permission = Permission(
    active: bool,
    grantable: bool,
    source: Option<string>,
    description: Option<string>,
    group: Option<string>)

  datatype Role = Role(tenant: Option<TenantId>, name: string, perms: set<PermName>)

  datatype Key = Key(user: UserId, tenant: TenantId)

  datatype Membership = Membership(role: Option<RoleId>, owner: bool, enabled: bool)

  /** `(scope_type, scope_id)` of a row or of a query. */
  datatype Scope = Scope(kind: Option<string>, id: Option<string>)

  const GLOBAL := Scope(None, None)

  /** The bucket a query looks in: without a `scope_type` only the NULL/NULL rows. */
  function Bucket(q: Scope): Scope
  {
    if q.kind.None? then GLOBAL else q
  }

  datatype RoleRow = RoleRow(user: UserId, tenant: TenantId, role: RoleId, scope: Scope)

  datatype PermRow = PermRow(user: UserId, tenant: TenantId, perm: PermName, scope: Scope)

  datatype Account = Account(email: string, active: bool)

  /** An invitation; its token is its identifier here. Times are instants. */
  datatype Invite = Invite(
    tenant: TenantId,
    role: Option<RoleId>,
    invitedBy: UserId,
    email: string,
    expires: int,
    used: Option<int>,
    active: bool)

  datatype Db = Db(
    catalogue: map<PermName, Permission>,
    roles: map<RoleId, Role>,
    members: map<Key, Membership>,
    roleRows: set<RoleRow>,
    permRows: set<PermRow>,
    invites: map<InviteId, Invite>,
    accounts: map<UserId, Account>,
    slugs: map<TenantId, string>,
    seen: set<string>,   // every role, tenant and invite identifier that ever occurred: a new uuid is outside it
    enforcesForeignKeys: bool)

  /** Role `r` counts for the member in scope `q`: the primary role, a global row, or a row of exactly this scope. */
  predicate Holds(db: Db, u: UserId, t: TenantId, r: RoleId, q: Scope)
  {
    || (Key(u, t) in db.members && db.members[Key(u, t)].role == Some(r))
    || RoleRow(u, t, r, GLOBAL) in db.roleRows
    || (q.kind.Some? && RoleRow(u, t, r, q) in db.roleRows)
  }

  predicate GrantedDirectly(db: Db, u: UserId, t: TenantId, n: PermName, q: Scope)
  {
    || PermRow(u, t, n, GLOBAL) in db.permRows
    || (q.kind.Some? && PermRow(u, t, n, q) in db.permRows)
  }

  predicate IsActive(db: Db, n: PermName)
  {
    n in db.catalogue && db.catalogue[n].active
  }

  /** Role `r` exists, counts for the member in scope `q` and carries `n`. */
  ghost predicate GivesThrough(db: Db, u: UserId, t: TenantId, q: Scope, n: PermName, r: RoleId)
  {
    Holds(db, u, t, r, q) && r in db.roles && n in db.roles[r].perms
  }

  ghost predicate GrantedByRole(db: Db, u: UserId, t: TenantId, q: Scope, n: PermName)
  {
    exists r :: GivesThrough(db, u, t, q, n, r)
  }

  /** Permission `n` is effective for user `u` in tenant `t` and scope `q`. */
  ghost predicate Effective(db: Db, u: UserId, t: TenantId, q: Scope, n: PermName)
  {
    && Key(u, t) in db.members
    && IsActive(db, n)
    && (GrantedDirectly(db, u, t, n, q) || GrantedByRole(db, u, t, q, n))
  }

  /** The declarative resolution: all effective permissions. */
  ghost function Resolve(db: Db, u: UserId, t: TenantId, q: Scope): set<PermName>
  {
    set n | n in db.catalogue.Keys && Effective(db, u, t, q, n)
  }

  /** The member refers to role `r` in some way: as primary role or by a row of any scope. */
  ghost predicate RefersTo(db: Db, u: UserId, t: TenantId, r: RoleId)
  {
    || (Key(u, t) in db.members && db.members[Key(u, t)].role == Some(r))
    || (exists sc :: RoleRow(u, t, r, sc) in db.roleRows)
  }

  // ---- Well-formed databases ----

  predicate SeenRole(db: Db, r: Option<RoleId>)
  {
    r.Some? ==> r.value in db.seen
  }

  /** Referential facts the schema and fresh identifiers give. */
  ghost predicate WellFormed(db: Db)
  {
    && "" !in db.seen
    && db.slugs.Keys <= db.seen
    && (forall r :: r in db.roles ==> r in db.seen && SeenRole(db, db.roles[r].tenant) && db.roles[r].perms <= db.catalogue.Keys)
    && (forall k :: k in db.members ==> k.tenant in db.seen && SeenRole(db, db.members[k].role))
    && (forall row :: row in db.roleRows ==> row.tenant in db.seen && row.role in db.seen)
    && (forall row :: row in db.permRows ==> row.tenant in db.seen && row.perm in db.catalogue)
    && (forall i :: i in db.invites ==> i in db.seen && db.invites[i].tenant in db.seen && SeenRole(db, db.invites[i].role))
  }

  // ---- Tenant isolation ----

  /** Role `r` exists and belongs to a tenant other than `t`. */
  predicate Foreign(db: Db, t: TenantId, r: RoleId)
  {
    r in db.roles && db.roles[r].tenant != None && db.roles[r].tenant != Some(t)
  }

  /** No role of one tenant is held, or offered by an invitation, in another tenant. */
  ghost predicate Isolated(db: Db)
  {
    && (forall k :: k in db.members && db.members[k].role.Some? ==> !Foreign(db, k.tenant, db.members[k].role.value))
    && (forall row :: row in db.roleRows ==> !Foreign(db, row.tenant, row.role))
    && (forall i :: i in db.invites && db.invites[i].role.Some? ==> !Foreign(db, db.invites[i].tenant, db.invites[i].role.value))
  }

  // ---- When two databases look alike to one member ----

  ghost predicate SameRole(a: Db, b: Db, r: RoleId)
  {
    && (r in a.roles <==> r in b.roles)
    && (r in a.roles ==> a.roles[r].perms == b.roles[r].perms)
  }

  /** Nothing that the resolution for `(u, t)` reads differs between `a` and `b`. */
  ghost predicate SameView(a: Db, b: Db, u: UserId, t: TenantId)
  {
    && a.catalogue == b.catalogue
    && (Key(u, t) in a.members <==> Key(u, t) in b.members)
    && (Key(u, t) in a.members ==> a.members[Key(u, t)].role == b.members[Key(u, t)].role)
    && (forall r, sc :: RoleRow(u, t, r, sc) in a.roleRows <==> RoleRow(u, t, r, sc) in b.roleRows)
    && (forall n, sc :: PermRow(u, t, n, sc) in a.permRows <==> PermRow(u, t, n, sc) in b.permRows)
    && (forall r :: RefersTo(a, u, t, r) ==> SameRole(a, b, r))
  }

  lemma HoldsRefers(db: Db, u: UserId, t: TenantId, r: RoleId, q: Scope)
    requires Holds(db, u, t, r, q)
    ensures RefersTo(db, u, t, r)
  {
  }

  /** Role-given permissions only depend on the view. */
  lemma SameViewRoles(a: Db, b: Db, u: UserId, t: TenantId, q: Scope, n: PermName)
    requires SameView(a, b, u, t)
    ensures GrantedByRole(a, u, t, q, n) <==> GrantedByRole(b, u, t, q, n)
  {
    if GrantedByRole(a, u, t, q, n) {
      var r :| GivesThrough(a, u, t, q, n, r);
      HoldsRefers(a, u, t, r, q);
      assert GivesThrough(b, u, t, q, n, r);
    }
    if GrantedByRole(b, u, t, q, n) {
      var r :| GivesThrough(b, u, t, q, n, r);
      assert Holds(a, u, t, r, q);
      HoldsRefers(a, u, t, r, q);
      assert GivesThrough(a, u, t, q, n, r);
    }
  }

  /** The resolution reads nothing but the view. */
  lemma SameViewResolves(a: Db, b: Db, u: UserId, t: TenantId, q: Scope)
    requires SameView(a, b, u, t)
    ensures Resolve(a, u, t, q) == Resolve(b, u, t, q)
  {
    forall n ensures Effective(a, u, t, q, n) <==> Effective(b, u, t, q, n) {
      SameViewRoles(a, b, u, t, q, n);
    }
  }

  /** What holds globally holds in every scope. */
  lemma GlobalInEveryScope(db: Db, u: UserId, t: TenantId, q: Scope)
    ensures Resolve(db, u, t, GLOBAL) <= Resolve(db, u, t, q)
  {
    forall n | n in Resolve(db, u, t, GLOBAL) ensures n in Resolve(db, u, t, q) {
      if GrantedByRole(db, u, t, GLOBAL, n) {
        var r :| GivesThrough(db, u, t, GLOBAL, n, r);
        assert GivesThrough(db, u, t, q, n, r);
      }
    }
  }

  /** Without a scope kind a query is the global query, whatever scope identifier it carries. */
  lemma KindlessIsGlobal(db: Db, u: UserId, t: TenantId, q: Scope)
    requires q.kind.None?
    ensures Resolve(db, u, t, q) == Resolve(db, u, t, GLOBAL)
  {
    forall n ensures Effective(db, u, t, q, n) <==> Effective(db, u, t, GLOBAL, n) {
      if GrantedByRole(db, u, t, q, n) {
        var r :| GivesThrough(db, u, t, q, n, r);
        assert GivesThrough(db, u, t, GLOBAL, n, r);
      }
      if GrantedByRole(db, u, t, GLOBAL, n) {
        var r :| GivesThrough(db, u, t, GLOBAL, n, r);
        assert GivesThrough(db, u, t, q, n, r);
      }
    }
  }
}
