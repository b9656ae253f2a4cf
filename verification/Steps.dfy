/** The service operations that change who may do what, as transitions of (database, permission cache). */
module Steps {
  import opened Listing
  import opened Model

  type PermCache = map<Key, seq<PermName>>

  datatype State = State(db: Db, cache: PermCache)

  /** What an operation leaves behind; a refused one leaves the database as it was. */
  datatype Outcome = Outcome(ok: bool, state: State)

  function Refused(s: State): Outcome { Outcome(false, s) }

  /** The tenant-level operations of the role, member, permission, invitation and tenant services. */
  datatype Op =
    | Read(user: UserId, tenant: TenantId)
    | Expire(keys: set<Key>)
    | AssignPrimary(user: UserId, tenant: TenantId, role: RoleId)
    | ClearPrimary(user: UserId, tenant: TenantId)
    | SetStatus(user: UserId, tenant: TenantId, enabled: bool)
    | AddRole(user: UserId, tenant: TenantId, role: RoleId, scope: Scope)
    | RemoveRole(user: UserId, tenant: TenantId, role: RoleId, scope: Scope)
    | GrantPerm(user: UserId, tenant: TenantId, perm: PermName, entitled: Option<set<string>>)
    | RevokePerm(user: UserId, tenant: TenantId, perm: PermName)
    | RemoveMember(user: UserId, tenant: TenantId)
    | CreateRole(tenant: TenantId, id: RoleId, name: string, perms: seq<PermName>, entitled: Option<set<string>>)
    | RenameRole(tenant: TenantId, role: RoleId, name: string)
    | AddPermToRole(tenant: TenantId, role: RoleId, perm: PermName, entitled: Option<set<string>>)
    | RemovePermFromRole(tenant: TenantId, role: RoleId, perm: PermName)
    | DeleteRole(tenant: TenantId, role: RoleId)
    | CreateInvite(tenant: TenantId, id: InviteId, inviter: UserId, email: string, offered: Option<RoleId>, expires: int)
    | RevokeInvite(invite: InviteId, requester: UserId, privileged: bool)
    | AcceptInvite(invite: InviteId, user: UserId, now: int)
    | JoinByInvite(invite: InviteId, user: UserId, now: int)
    | SweepInvites(now: int)
    | CreateTenant(user: UserId, tenant: TenantId, slug: string, ownerRole: Option<RoleId>)

  // ---- Decisions ----

  /** Roles a tenant may modify or delete: its own. */
  predicate Owned(db: Db, t: TenantId, r: RoleId)
  {
    r in db.roles && db.roles[r].tenant == Some(t)
  }

  predicate IsGlobalNamed(db: Db, r: RoleId, name: string)
  {
    r in db.roles && db.roles[r].tenant == None && db.roles[r].name == name
  }

  /** Roles a tenant may hand to a member: its own, and the global `tenant_admin`. */
  predicate Assignable(db: Db, t: TenantId, r: RoleId)
  {
    Owned(db, t, r) || IsGlobalNamed(db, r, TENANT_ADMIN_ROLE)
  }

  predicate Entitled(p: Permission, entitled: Option<set<string>>)
  {
    entitled.None? || p.source.None? || p.source.value in entitled.value
  }

  /** Permissions a tenant may delegate. */
  predicate Delegable(db: Db, n: PermName)
  {
    n in db.catalogue && db.catalogue[n].active && db.catalogue[n].grantable
  }

  predicate Grantable(db: Db, n: PermName, entitled: Option<set<string>>)
  {
    Delegable(db, n) && Entitled(db.catalogue[n], entitled)
  }

  /** The role an invitation offers follows the rule of assignment, and may not carry `admin:*`. */
  predicate Offerable(db: Db, t: TenantId, offered: Option<RoleId>)
  {
    offered.Some? ==> Assignable(db, t, offered.value) && PLATFORM_ADMIN !in db.roles[offered.value].perms
  }

  /** An invitation that can still be used at `now`. */
  predicate Usable(db: Db, i: InviteId, now: int)
  {
    i in db.invites && db.invites[i].active && db.invites[i].used.None? && !(db.invites[i].expires < now)
  }

  function LowerChar(c: char): char
  {
    if 'A' <= c <= 'Z' then c + (('a' as int - 'A' as int) as char) else c
  }

  /** `str.lower()` on ASCII letters. */
  function Lower(s: string): (r: string)
    ensures |r| == |s|
  {
    seq(|s|, i requires 0 <= i < |s| => LowerChar(s[i]))
  }

  // ---- Cache ----

  function Evict(cache: PermCache, keys: set<Key>): PermCache
  {
    map k | k in cache && k !in keys :: cache[k]
  }

  function MembersOf(db: Db, t: TenantId): set<Key>
  {
    set k | k in db.members && k.tenant == t
  }

  /** Members of the tenant, and former members, that hold role `r` in it. */
  function HoldersIn(db: Db, t: TenantId, r: RoleId): set<Key>
  {
    (set k | k in db.members && k.tenant == t && db.members[k].role == Some(r))
    + (set row | row in db.roleRows && row.tenant == t && row.role == r :: Key(row.user, t))
  }

  /** `get_permissions_for_user` without scope: the cached list, else the resolution, which is then cached. */
  ghost function ReadList(s: State, u: UserId, t: TenantId): seq<PermName>
  {
    if Key(u, t) in s.cache then s.cache[Key(u, t)]
    else Sorted(Resolve(s.db, u, t, GLOBAL))
  }

  ghost function AfterRead(s: State, u: UserId, t: TenantId): State
  {
    if Key(u, t) in s.cache || Key(u, t) !in s.db.members then s
    else s.(cache := s.cache[Key(u, t) := Sorted(Resolve(s.db, u, t, GLOBAL))])
  }

  // ---- Members ----

  /** The membership changes and the member's cache entry goes. */
  function UpdateMember(s: State, k: Key, m: Membership): State
  {
    State(s.db.(members := s.db.members[k := m]), Evict(s.cache, {k}))
  }

  function DoAssignPrimary(s: State, u: UserId, t: TenantId, r: RoleId): Outcome
  {
    var k := Key(u, t);
    if k !in s.db.members || !Assignable(s.db, t, r) then Refused(s)
    else Outcome(true, UpdateMember(s, k, s.db.members[k].(role := Some(r))))
  }

  function DoClearPrimary(s: State, u: UserId, t: TenantId): Outcome
  {
    var k := Key(u, t);
    if k !in s.db.members then Refused(s)
    else Outcome(true, UpdateMember(s, k, s.db.members[k].(role := None)))
  }

  function DoSetStatus(s: State, u: UserId, t: TenantId, enabled: bool): Outcome
  {
    var k := Key(u, t);
    if k !in s.db.members then Refused(s)
    else Outcome(true, UpdateMember(s, k, s.db.members[k].(enabled := enabled)))
  }

  function DoAddRole(s: State, u: UserId, t: TenantId, r: RoleId, sc: Scope): Outcome
  {
    if !Assignable(s.db, t, r) || Key(u, t) !in s.db.members then Refused(s)
    else if RoleRow(u, t, r, Bucket(sc)) in s.db.roleRows then Outcome(true, s)
    else Outcome(true, State(s.db.(roleRows := s.db.roleRows + {RoleRow(u, t, r, sc)}), Evict(s.cache, {Key(u, t)})))
  }

  predicate IsPrimary(db: Db, u: UserId, t: TenantId, r: RoleId)
  {
    Key(u, t) in db.members && db.members[Key(u, t)].role == Some(r)
  }

  /** `remove_role_from_member` found something to remove. */
  predicate RemovesRole(db: Db, u: UserId, t: TenantId, r: RoleId, sc: Scope)
  {
    RoleRow(u, t, r, Bucket(sc)) in db.roleRows || (sc.kind.None? && IsPrimary(db, u, t, r))
  }

  function DoRemoveRole(s: State, u: UserId, t: TenantId, r: RoleId, sc: Scope): Outcome
  {
    var k := Key(u, t);
    var members := if sc.kind.None? && IsPrimary(s.db, u, t, r) then s.db.members[k := s.db.members[k].(role := None)] else s.db.members;
    var cache := if RemovesRole(s.db, u, t, r, sc) then Evict(s.cache, {k}) else s.cache;
    Outcome(true, State(s.db.(roleRows := s.db.roleRows - {RoleRow(u, t, r, Bucket(sc))}, members := members), cache))
  }

  function DoGrantPerm(s: State, u: UserId, t: TenantId, n: PermName, entitled: Option<set<string>>): Outcome
  {
    if !Grantable(s.db, n, entitled) || Key(u, t) !in s.db.members then Refused(s)
    else if PermRow(u, t, n, GLOBAL) in s.db.permRows then Outcome(true, s)
    else Outcome(true, State(s.db.(permRows := s.db.permRows + {PermRow(u, t, n, GLOBAL)}), Evict(s.cache, {Key(u, t)})))
  }

  /** `revoke_permission_from_member` found something to revoke. */
  predicate RevokesPerm(db: Db, u: UserId, t: TenantId, n: PermName)
  {
    n in db.catalogue && PermRow(u, t, n, GLOBAL) in db.permRows
  }

  function DoRevokePerm(s: State, u: UserId, t: TenantId, n: PermName): Outcome
  {
    if !RevokesPerm(s.db, u, t, n) then Outcome(true, s)
    else Outcome(true, State(s.db.(permRows := s.db.permRows - {PermRow(u, t, n, GLOBAL)}), Evict(s.cache, {Key(u, t)})))
  }

  /** Only the membership goes: the member's role and permission rows stay behind. */
  function DoRemoveMember(s: State, u: UserId, t: TenantId): Outcome
  {
    var k := Key(u, t);
    if k !in s.db.members then Refused(s)
    else Outcome(true, State(s.db.(members := s.db.members - {k}), Evict(s.cache, {k})))
  }

  // ---- Roles ----

  function UpdateRole(db: Db, r: RoleId, role: Role): Db
  {
    db.(roles := db.roles[r := role])
  }

  predicate IsFresh(db: Db, id: string)
  {
    id !in db.seen && id != ""
  }

  function DoCreateRole(s: State, t: TenantId, id: RoleId, name: string, perms: seq<PermName>, entitled: Option<set<string>>): Outcome
  {
    if !IsFresh(s.db, id) || t == "" || t == id || exists n :: n in perms && !Grantable(s.db, n, entitled) then Refused(s)
    else Outcome(true, s.(db := UpdateRole(s.db, id, Role(Some(t), name, Elements(perms))).(seen := s.db.seen + {id, t})))
  }

  function DoRenameRole(s: State, t: TenantId, r: RoleId, name: string): Outcome
  {
    if !Owned(s.db, t, r) then Refused(s)
    else Outcome(true, s.(db := UpdateRole(s.db, r, s.db.roles[r].(name := name))))
  }

  function DoAddPermToRole(s: State, t: TenantId, r: RoleId, n: PermName, entitled: Option<set<string>>): Outcome
  {
    if !Owned(s.db, t, r) || !Grantable(s.db, n, entitled) then Refused(s)
    else Outcome(true, State(UpdateRole(s.db, r, s.db.roles[r].(perms := s.db.roles[r].perms + {n})), Evict(s.cache, MembersOf(s.db, t))))
  }

  function DoRemovePermFromRole(s: State, t: TenantId, r: RoleId, n: PermName): Outcome
  {
    if !Owned(s.db, t, r) then Refused(s)
    else Outcome(true, State(UpdateRole(s.db, r, s.db.roles[r].(perms := s.db.roles[r].perms - (if n in s.db.catalogue then {n} else {}))), Evict(s.cache, MembersOf(s.db, t))))
  }

  /** Deleting a role row clears it as primary role wherever it is one. */
  function WithoutPrimary(members: map<Key, Membership>, r: RoleId): map<Key, Membership>
  {
    map k | k in members :: if members[k].role == Some(r) then members[k].(role := None) else members[k]
  }

  function WithoutRows(rows: set<RoleRow>, t: TenantId, r: RoleId): set<RoleRow>
  {
    set row | row in rows && !(row.tenant == t && row.role == r)
  }

  /** A foreign key still points at role `r` once tenant `t` has let go of it. */
  predicate StillReferenced(db: Db, t: TenantId, r: RoleId)
  {
    || (exists i :: i in db.invites && db.invites[i].role == Some(r))
    || (exists row :: row in db.roleRows && row.role == r && row.tenant != t)
  }

  function DoDeleteRole(s: State, t: TenantId, r: RoleId): Outcome
  {
    if !Owned(s.db, t, r) then Refused(s)
    else
      var cache := Evict(s.cache, HoldersIn(s.db, t, r));
      if s.db.enforcesForeignKeys && StillReferenced(s.db, t, r) then Refused(State(s.db, cache))
      else Outcome(true, State(s.db.(members := WithoutPrimary(s.db.members, r),
                                     roleRows := WithoutRows(s.db.roleRows, t, r),
                                     roles := s.db.roles - {r}), cache))
  }

  // ---- Invitations and tenants ----

  function DoCreateInvite(s: State, t: TenantId, id: InviteId, inviter: UserId, email: string, offered: Option<RoleId>, expires: int): Outcome
  {
    if !IsFresh(s.db, id) || t == "" || t == id || !Offerable(s.db, t, offered) then Refused(s)
    else Outcome(true, s.(db := s.db.(invites := s.db.invites[id := Invite(t, offered, inviter, email, expires, None, true)],
                                      seen := s.db.seen + {id, t})))
  }

  function DoRevokeInvite(s: State, i: InviteId, requester: UserId, privileged: bool): Outcome
  {
    if i !in s.db.invites || (!privileged && s.db.invites[i].invitedBy != requester) then Refused(s)
    else Outcome(true, s.(db := s.db.(invites := s.db.invites[i := s.db.invites[i].(active := false)])))
  }

  /** The invitation becomes a membership and is used up. */
  function Consume(s: State, i: InviteId, u: UserId, now: int): State
    requires i in s.db.invites
  {
    var inv := s.db.invites[i];
    s.(db := s.db.(members := s.db.members[Key(u, inv.tenant) := Membership(inv.role, false, true)],
                   invites := s.db.invites[i := inv.(used := Some(now), active := false)]))
  }

  function DoAcceptInvite(s: State, i: InviteId, u: UserId, now: int): Outcome
  {
    if !Usable(s.db, i, now) || !Offerable(s.db, s.db.invites[i].tenant, s.db.invites[i].role) || Key(u, s.db.invites[i].tenant) in s.db.members
    then Refused(s)
    else Outcome(true, Consume(s, i, u, now))
  }

  /** The onboarding path: for the invited address only, and without looking at the offered role again. */
  function DoJoinByInvite(s: State, i: InviteId, u: UserId, now: int): Outcome
  {
    if u !in s.db.accounts || !Usable(s.db, i, now) || Lower(s.db.invites[i].email) != Lower(s.db.accounts[u].email) || Key(u, s.db.invites[i].tenant) in s.db.members
    then Refused(s)
    else Outcome(true, Consume(s, i, u, now))
  }

  function Swept(invites: map<InviteId, Invite>, now: int): map<InviteId, Invite>
  {
    map i | i in invites :: if invites[i].active && invites[i].expires < now then invites[i].(active := false) else invites[i]
  }

  /** `ownerRole` is what the lookup of the global role by name returned. */
  predicate OwnerRoleFound(db: Db, ownerRole: Option<RoleId>)
  {
    match ownerRole
    case Some(r) => IsGlobalNamed(db, r, TENANT_ADMIN_ROLE)
    case None => forall r :: r in db.roles ==> !IsGlobalNamed(db, r, TENANT_ADMIN_ROLE)
  }

  function DoCreateTenant(s: State, u: UserId, t: TenantId, slug: string, ownerRole: Option<RoleId>): Outcome
  {
    if !IsFresh(s.db, t) || slug in s.db.slugs.Values || !OwnerRoleFound(s.db, ownerRole) then Refused(s)
    else Outcome(true, s.(db := s.db.(slugs := s.db.slugs[t := slug],
                                      members := s.db.members[Key(u, t) := Membership(ownerRole, true, true)],
                                      seen := s.db.seen + {t})))
  }

  // ---- One operation ----

  ghost function Do(s: State, op: Op): Outcome
  {
    match op
    case Read(u, t) => Outcome(true, AfterRead(s, u, t))
    case Expire(keys) => Outcome(true, s.(cache := Evict(s.cache, keys)))
    case AssignPrimary(u, t, r) => DoAssignPrimary(s, u, t, r)
    case ClearPrimary(u, t) => DoClearPrimary(s, u, t)
    case SetStatus(u, t, e) => DoSetStatus(s, u, t, e)
    case AddRole(u, t, r, sc) => DoAddRole(s, u, t, r, sc)
    case RemoveRole(u, t, r, sc) => DoRemoveRole(s, u, t, r, sc)
    case GrantPerm(u, t, n, e) => DoGrantPerm(s, u, t, n, e)
    case RevokePerm(u, t, n) => DoRevokePerm(s, u, t, n)
    case RemoveMember(u, t) => DoRemoveMember(s, u, t)
    case CreateRole(t, id, name, perms, e) => DoCreateRole(s, t, id, name, perms, e)
    case RenameRole(t, r, name) => DoRenameRole(s, t, r, name)
    case AddPermToRole(t, r, n, e) => DoAddPermToRole(s, t, r, n, e)
    case RemovePermFromRole(t, r, n) => DoRemovePermFromRole(s, t, r, n)
    case DeleteRole(t, r) => DoDeleteRole(s, t, r)
    case CreateInvite(t, id, inviter, email, offered, expires) => DoCreateInvite(s, t, id, inviter, email, offered, expires)
    case RevokeInvite(i, req, priv) => DoRevokeInvite(s, i, req, priv)
    case AcceptInvite(i, u, now) => DoAcceptInvite(s, i, u, now)
    case JoinByInvite(i, u, now) => DoJoinByInvite(s, i, u, now)
    case SweepInvites(now) => Outcome(true, s.(db := s.db.(invites := Swept(s.db.invites, now))))
    case CreateTenant(u, t, slug, r) => DoCreateTenant(s, u, t, slug, r)
  }

  /** The tenant an operation acts in. */
  function ActsIn(db: Db, op: Op): Option<TenantId>
  {
    match op
    case Read(_, _) | Expire(_) | SweepInvites(_) => None
    case RevokeInvite(i, _, _) => if i in db.invites then Some(db.invites[i].tenant) else None
    case AcceptInvite(i, _, _) => if i in db.invites then Some(db.invites[i].tenant) else None
    case JoinByInvite(i, _, _) => if i in db.invites then Some(db.invites[i].tenant) else None
    case _ => Some(op.tenant)
  }
}
