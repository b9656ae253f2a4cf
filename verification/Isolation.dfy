/** What every tenant-level operation keeps: well-formedness, tenant isolation, and everybody else's view. */
module Isolation {
  import opened Listing
  import opened Model
  import opened Steps

  ghost predicate Sound(db: Db)
  {
    WellFormed(db) && Isolated(db)
  }

  predicate IsMemberOp(op: Op)
  {
    || op.AssignPrimary? || op.ClearPrimary? || op.SetStatus? || op.AddRole? || op.RemoveRole?
    || op.GrantPerm? || op.RevokePerm? || op.RemoveMember?
  }

  predicate IsRoleOp(op: Op)
  {
    op.CreateRole? || op.RenameRole? || op.AddPermToRole? || op.RemovePermFromRole? || op.DeleteRole?
  }

  lemma MemberUpdateStaysSound(s: State, k: Key, m: Membership)
    requires Sound(s.db) && k.tenant in s.db.seen
    requires m.role.Some? ==> m.role.value in s.db.seen && !Foreign(s.db, k.tenant, m.role.value)
    ensures Sound(UpdateMember(s, k, m).db)
  {
  }

  /** Rows that were there or name a known role of this tenant; members that at most lose their primary role. */
  lemma RoleRowsChange(db: Db, members: map<Key, Membership>, rows: set<RoleRow>)
    requires Sound(db)
    requires forall k :: k in members ==> k in db.members && (members[k].role == None || members[k].role == db.members[k].role)
    requires forall row :: row in rows ==>
               row in db.roleRows || (row.tenant in db.seen && row.role in db.seen && !Foreign(db, row.tenant, row.role))
    ensures Sound(db.(members := members, roleRows := rows))
  {
  }

  lemma RoleRowsStaySound(s: State, op: Op)
    requires Sound(s.db) && (op.AddRole? || op.RemoveRole?)
    ensures Sound(Do(s, op).state.db)
  {
    var after := Do(s, op).state.db;
    RoleRowsChange(s.db, after.members, after.roleRows);
  }

  /** Fewer members, and rows that were there or name a known tenant and permission. */
  lemma PermRowsChange(db: Db, members: map<Key, Membership>, rows: set<PermRow>)
    requires Sound(db)
    requires forall k :: k in members ==> k in db.members && members[k] == db.members[k]
    requires forall row :: row in rows ==> row in db.permRows || (row.tenant in db.seen && row.perm in db.catalogue)
    ensures Sound(db.(members := members, permRows := rows))
  {
  }

  lemma PermRowsStaySound(s: State, op: Op)
    requires Sound(s.db) && (op.GrantPerm? || op.RevokePerm? || op.RemoveMember?)
    ensures Sound(Do(s, op).state.db)
  {
    var after := Do(s, op).state.db;
    PermRowsChange(s.db, after.members, after.permRows);
  }

  lemma MemberOpsStaySound(s: State, op: Op)
    requires Sound(s.db) && IsMemberOp(op)
    ensures Sound(Do(s, op).state.db)
  {
    if op.AddRole? || op.RemoveRole? {
      RoleRowsStaySound(s, op);
    } else if op.GrantPerm? || op.RevokePerm? || op.RemoveMember? {
      PermRowsStaySound(s, op);
    } else {
      var k := Key(op.user, op.tenant);
      if Do(s, op).ok {
        MemberUpdateStaysSound(s, k, Do(s, op).state.db.members[k]);
      }
    }
  }

  lemma FewerRolesStaySound(db: Db, r: RoleId)
    requires Sound(db)
    ensures Sound(db.(roles := db.roles - {r}))
  {
  }

  lemma DeleteRoleStaysSound(s: State, t: TenantId, r: RoleId)
    requires Sound(s.db)
    ensures Sound(DoDeleteRole(s, t, r).state.db)
  {
    RoleRowsChange(s.db, WithoutPrimary(s.db.members, r), WithoutRows(s.db.roleRows, t, r));
    FewerRolesStaySound(s.db.(members := WithoutPrimary(s.db.members, r), roleRows := WithoutRows(s.db.roleRows, t, r)), r);
  }

  /** More identifiers that were seen. */
  lemma SeenMoreStaysSound(db: Db, seen: set<string>)
    requires Sound(db) && db.seen <= seen && "" !in seen
    ensures Sound(db.(seen := seen))
  {
  }

  lemma RolePutStaysSound(db: Db, r: RoleId, role: Role)
    requires Sound(db) && r in db.seen && SeenRole(db, role.tenant) && role.perms <= db.catalogue.Keys
    requires role.tenant.Some? ==> forall t :: t != role.tenant.value ==> !RoleNamed(db, t, r)
    ensures Sound(UpdateRole(db, r, role))
  {
    PutKeepsIsolated(db, r, role);
  }

  lemma PutKeepsIsolated(db: Db, r: RoleId, role: Role)
    requires Isolated(db)
    requires role.tenant.Some? ==> forall t :: t != role.tenant.value ==> !RoleNamed(db, t, r)
    ensures Isolated(UpdateRole(db, r, role))
  {
    var after := UpdateRole(db, r, role);
    forall k | k in after.members && after.members[k].role.Some? ensures !Foreign(after, k.tenant, after.members[k].role.value) {
      assert after.members[k].role.value == r ==> RoleNamed(db, k.tenant, r);
    }
    forall row | row in after.roleRows ensures !Foreign(after, row.tenant, row.role) {
      assert row.role == r ==> RoleNamed(db, row.tenant, r);
    }
    forall i | i in after.invites && after.invites[i].role.Some? ensures !Foreign(after, after.invites[i].tenant, after.invites[i].role.value) {
      assert after.invites[i].role.value == r ==> RoleNamed(db, after.invites[i].tenant, r);
    }
  }

  /** Somebody in tenant `t`, or an invitation there, refers to role `r`. */
  ghost predicate RoleNamed(db: Db, t: TenantId, r: RoleId)
  {
    || (exists k :: k in db.members && k.tenant == t && db.members[k].role == Some(r))
    || (exists row :: row in db.roleRows && row.tenant == t && row.role == r)
    || (exists i :: i in db.invites && db.invites[i].tenant == t && db.invites[i].role == Some(r))
  }

  lemma CreateRoleStaysSound(s: State, t: TenantId, id: RoleId, name: string, perms: seq<PermName>, entitled: Option<set<string>>)
    requires Sound(s.db)
    ensures Sound(DoCreateRole(s, t, id, name, perms, entitled).state.db)
  {
    if DoCreateRole(s, t, id, name, perms, entitled).ok {
      var seen := s.db.seen + {id, t};
      assert forall x :: !RoleNamed(s.db, x, id);
      SeenMoreStaysSound(s.db, seen);
      RolePutStaysSound(s.db.(seen := seen), id, Role(Some(t), name, Elements(perms)));
    }
  }

  lemma RoleUpdateStaysSound(db: Db, r: RoleId, role: Role)
    requires Sound(db) && r in db.roles && role.tenant == db.roles[r].tenant && role.perms <= db.catalogue.Keys
    ensures Sound(UpdateRole(db, r, role))
  {
    if role.tenant.Some? {
      assert forall t :: t != role.tenant.value ==> Foreign(db, t, r);
    }
    RolePutStaysSound(db, r, role);
  }

  lemma RoleOpsStaySound(s: State, op: Op)
    requires Sound(s.db) && IsRoleOp(op)
    ensures Sound(Do(s, op).state.db)
  {
    if op.DeleteRole? {
      DeleteRoleStaysSound(s, op.tenant, op.role);
    } else if op.CreateRole? {
      CreateRoleStaysSound(s, op.tenant, op.id, op.name, op.perms, op.entitled);
    } else if Owned(s.db, op.tenant, op.role) {
      RoleUpdateStaysSound(s.db, op.role, Do(s, op).state.db.roles[op.role]);
    }
  }

  lemma ConsumeStaysSound(s: State, i: InviteId, u: UserId, now: int)
    requires Sound(s.db) && i in s.db.invites
    ensures Sound(Consume(s, i, u, now).db)
  {
  }

  lemma CreateInviteStaysSound(s: State, t: TenantId, id: InviteId, inviter: UserId, email: string, offered: Option<RoleId>, expires: int)
    requires Sound(s.db)
    ensures Sound(DoCreateInvite(s, t, id, inviter, email, offered, expires).state.db)
  {
  }

  /** Marks on invitations that leave tenant and role alone. */
  lemma InviteMarksStaySound(db: Db, invites: map<InviteId, Invite>)
    requires Sound(db) && invites.Keys == db.invites.Keys
    requires forall i :: i in invites ==> invites[i].tenant == db.invites[i].tenant && invites[i].role == db.invites[i].role
    ensures Sound(db.(invites := invites))
  {
  }

  lemma InviteFlagsStaySound(s: State, op: Op)
    requires Sound(s.db) && (op.RevokeInvite? || op.SweepInvites?)
    ensures Sound(Do(s, op).state.db)
  {
    if op.SweepInvites? {
      InviteMarksStaySound(s.db, Swept(s.db.invites, op.now));
    } else if op.invite in s.db.invites {
      InviteMarksStaySound(s.db, s.db.invites[op.invite := s.db.invites[op.invite].(active := false)]);
    }
  }

  lemma CreateTenantStaysSound(s: State, u: UserId, t: TenantId, slug: string, ownerRole: Option<RoleId>)
    requires Sound(s.db)
    ensures Sound(DoCreateTenant(s, u, t, slug, ownerRole).state.db)
  {
  }

  /** Every operation keeps the database well formed and every held or offered role within its tenant. */
  lemma StaysSound(s: State, op: Op)
    requires Sound(s.db)
    ensures Sound(Do(s, op).state.db)
  {
    if IsMemberOp(op) {
      MemberOpsStaySound(s, op);
    } else if IsRoleOp(op) {
      RoleOpsStaySound(s, op);
    } else {
      match op
      case CreateTenant(u, t, slug, r) => CreateTenantStaysSound(s, u, t, slug, r);
      case CreateInvite(t, id, inviter, email, offered, expires) => CreateInviteStaysSound(s, t, id, inviter, email, offered, expires);
      case AcceptInvite(i, u, now) => if i in s.db.invites { ConsumeStaysSound(s, i, u, now); }
      case JoinByInvite(i, u, now) => if i in s.db.invites { ConsumeStaysSound(s, i, u, now); }
      case RevokeInvite(_, _, _) => InviteFlagsStaySound(s, op);
      case SweepInvites(_) => InviteFlagsStaySound(s, op);
      case _ =>
    }
  }

  /** The members whose resolution an operation may change. */
  predicate Touches(db: Db, op: Op, k: Key)
  {
    match op
    case AssignPrimary(u, t, _) => k == Key(u, t)
    case ClearPrimary(u, t) => k == Key(u, t)
    case AddRole(u, t, r, sc) => k == Key(u, t) && RoleRow(u, t, r, Bucket(sc)) !in db.roleRows
    case RemoveRole(u, t, r, sc) => k == Key(u, t) && RemovesRole(db, u, t, r, sc)
    case GrantPerm(u, t, n, _) => k == Key(u, t) && PermRow(u, t, n, GLOBAL) !in db.permRows
    case RevokePerm(u, t, n) => k == Key(u, t) && RevokesPerm(db, u, t, n)
    case RemoveMember(u, t) => k == Key(u, t)
    case AddPermToRole(t, _, _, _) => k.tenant == t
    case RemovePermFromRole(t, _, _) => k.tenant == t
    case DeleteRole(t, r) => k in HoldersIn(db, t, r)
    case AcceptInvite(i, u, _) => i in db.invites && k == Key(u, db.invites[i].tenant)
    case JoinByInvite(i, u, _) => i in db.invites && k == Key(u, db.invites[i].tenant)
    case CreateTenant(_, t, _, _) => k.tenant == t
    case _ => false
  }

  /** The touched members all belong to the tenant the operation acts in. */
  lemma TouchesActingTenant(db: Db, op: Op, k: Key)
    requires Touches(db, op, k)
    ensures ActsIn(db, op) == Some(k.tenant)
  {
  }

  /** Under isolation nobody outside tenant `t` refers to a role of `t`. */
  lemma OwnRolesStayHome(db: Db, t: TenantId, r: RoleId, u: UserId, other: TenantId)
    requires Isolated(db) && Owned(db, t, r) && other != t
    ensures !RefersTo(db, u, other, r)
  {
  }

  lemma DeleteRoleUntouched(s: State, t: TenantId, r: RoleId, u: UserId, other: TenantId)
    requires Sound(s.db)
    requires Owned(s.db, t, r) && Key(u, other) !in HoldersIn(s.db, t, r)
    ensures SameView(s.db, DoDeleteRole(s, t, r).state.db, u, other)
  {
    if other != t {
      OwnRolesStayHome(s.db, t, r, u, other);
    } else {
      NonHolderRefersNot(s.db, t, r, u);
    }
    DeletionKeepsView(s, t, r, u, other);
  }

  lemma NonHolderRefersNot(db: Db, t: TenantId, r: RoleId, u: UserId)
    requires Key(u, t) !in HoldersIn(db, t, r)
    ensures !RefersTo(db, u, t, r)
  {
    assert forall sc :: RoleRow(u, t, r, sc) in db.roleRows ==> Key(u, t) in HoldersIn(db, t, r);
  }

  lemma DeletionKeepsView(s: State, t: TenantId, r: RoleId, u: UserId, other: TenantId)
    requires !RefersTo(s.db, u, other, r)
    ensures SameView(s.db, DoDeleteRole(s, t, r).state.db, u, other)
  {
    HoldingsKeepView(s.db, WithoutPrimary(s.db.members, r), WithoutRows(s.db.roleRows, t, r), s.db.roles - {r}, u, other, r);
  }

  lemma HoldingsKeepView(db: Db, members: map<Key, Membership>, rows: set<RoleRow>, roles: map<RoleId, Role>, u: UserId, t: TenantId, r: RoleId)
    requires !RefersTo(db, u, t, r)
    requires Key(u, t) in members <==> Key(u, t) in db.members
    requires Key(u, t) in members && db.members[Key(u, t)].role != Some(r) ==> members[Key(u, t)] == db.members[Key(u, t)]
    requires forall x, sc :: x != r ==> (RoleRow(u, t, x, sc) in rows <==> RoleRow(u, t, x, sc) in db.roleRows)
    requires rows <= db.roleRows && roles == db.roles - {r}
    ensures SameView(db, db.(members := members, roleRows := rows, roles := roles), u, t)
  {
    assert forall sc :: RoleRow(u, t, r, sc) !in db.roleRows;
  }

  lemma RoleUpdateUntouched(db: Db, r: RoleId, role: Role, u: UserId, t: TenantId)
    requires r in db.roles
    requires role.perms == db.roles[r].perms || !RefersTo(db, u, t, r)
    ensures SameView(db, UpdateRole(db, r, role), u, t)
  {
  }

  lemma CreateRoleUntouched(s: State, op: Op, u: UserId, t: TenantId)
    requires Sound(s.db) && op.CreateRole?
    ensures SameView(s.db, Do(s, op).state.db, u, t)
  {
  }

  lemma RoleOpUntouched(s: State, op: Op, u: UserId, t: TenantId)
    requires Sound(s.db) && IsRoleOp(op)
    requires !Touches(s.db, op, Key(u, t))
    ensures SameView(s.db, Do(s, op).state.db, u, t)
  {
    if op.CreateRole? {
      CreateRoleUntouched(s, op, u, t);
    } else if Owned(s.db, op.tenant, op.role) {
      if op.DeleteRole? {
        DeleteRoleUntouched(s, op.tenant, op.role, u, t);
      } else {
        if !op.RenameRole? { OwnRolesStayHome(s.db, op.tenant, op.role, u, t); }
        RoleUpdateUntouched(s.db, op.role, Do(s, op).state.db.roles[op.role], u, t);
      }
    }
  }

  /** Nothing but the membership and the rows of one member differs. */
  ghost predicate OthersSame(a: Db, b: Db, u: UserId, t: TenantId)
  {
    && b == a.(members := b.members, roleRows := b.roleRows, permRows := b.permRows)
    && (forall k :: k != Key(u, t) ==> (k in a.members <==> k in b.members) && (k in a.members ==> a.members[k] == b.members[k]))
    && (forall row: RoleRow :: Key(row.user, row.tenant) != Key(u, t) ==> (row in a.roleRows <==> row in b.roleRows))
    && (forall row: PermRow :: Key(row.user, row.tenant) != Key(u, t) ==> (row in a.permRows <==> row in b.permRows))
  }

  lemma MembershipOpOthers(s: State, op: Op)
    requires op.AssignPrimary? || op.ClearPrimary? || op.SetStatus? || op.RemoveMember?
    ensures OthersSame(s.db, Do(s, op).state.db, op.user, op.tenant)
  {
  }

  lemma RowOpOthers(s: State, op: Op)
    requires op.AddRole? || op.RemoveRole? || op.GrantPerm? || op.RevokePerm?
    ensures OthersSame(s.db, Do(s, op).state.db, op.user, op.tenant)
  {
  }

  /** A member operation leaves all other members and their rows alone. */
  lemma MemberOpOthers(s: State, op: Op)
    requires IsMemberOp(op)
    ensures OthersSame(s.db, Do(s, op).state.db, op.user, op.tenant)
  {
    if op.AddRole? || op.RemoveRole? || op.GrantPerm? || op.RevokePerm? {
      RowOpOthers(s, op);
    } else {
      MembershipOpOthers(s, op);
    }
  }

  lemma OthersKeepView(a: Db, b: Db, u: UserId, t: TenantId, other: UserId, where: TenantId)
    requires OthersSame(a, b, u, t) && Key(other, where) != Key(u, t)
    ensures SameView(a, b, other, where)
  {
  }

  /** An operation on a member that it does not touch leaves the rows alone, and of the membership at most the status changes. */
  lemma OwnRowsUntouched(s: State, op: Op)
    requires IsMemberOp(op) && !Touches(s.db, op, Key(op.user, op.tenant))
    ensures Do(s, op).state.db.roleRows == s.db.roleRows && Do(s, op).state.db.permRows == s.db.permRows
    ensures !op.SetStatus? ==> Do(s, op).state.db.members == s.db.members
  {
    if op.AddRole? || op.RemoveRole? {
      assert op.RemoveRole? ==> s.db.roleRows - {RoleRow(op.user, op.tenant, op.role, Bucket(op.scope))} == s.db.roleRows;
    }
  }

  lemma OwnUntouched(s: State, op: Op)
    requires IsMemberOp(op) && !Touches(s.db, op, Key(op.user, op.tenant))
    ensures SameView(s.db, Do(s, op).state.db, op.user, op.tenant)
  {
    MemberOpOthers(s, op);
    OwnRowsUntouched(s, op);
  }

  lemma MemberOpUntouched(s: State, op: Op, u: UserId, t: TenantId)
    requires IsMemberOp(op)
    requires !Touches(s.db, op, Key(u, t))
    ensures SameView(s.db, Do(s, op).state.db, u, t)
  {
    if Key(u, t) == Key(op.user, op.tenant) {
      OwnUntouched(s, op);
    } else {
      MemberOpOthers(s, op);
      OthersKeepView(s.db, Do(s, op).state.db, op.user, op.tenant, u, t);
    }
  }

  lemma InviteOpUntouched(s: State, op: Op, u: UserId, t: TenantId)
    requires op.CreateInvite? || op.RevokeInvite? || op.AcceptInvite? || op.JoinByInvite? || op.SweepInvites?
    requires !Touches(s.db, op, Key(u, t))
    ensures SameView(s.db, Do(s, op).state.db, u, t)
  {
    if op.AcceptInvite? || op.JoinByInvite? {
      TakingConsumes(s, op);
      if Do(s, op).ok { ConsumeUntouched(s, op.invite, op.user, op.now, u, t); }
    } else {
      InviteOpFrame(s, op);
      MembersUntouched(s.db, s.db.members, Do(s, op).state.db.invites, Do(s, op).state.db.seen, u, t);
    }
  }

  lemma InviteOpFrame(s: State, op: Op)
    requires op.CreateInvite? || op.RevokeInvite? || op.SweepInvites?
    ensures Do(s, op).state.db.members == s.db.members
    ensures Do(s, op).state.db == s.db.(invites := Do(s, op).state.db.invites, seen := Do(s, op).state.db.seen)
  {
  }

  /** Either path consumes the invitation or changes nothing. */
  lemma TakingConsumes(s: State, op: Op)
    requires op.AcceptInvite? || op.JoinByInvite?
    ensures if Do(s, op).ok then op.invite in s.db.invites && Do(s, op).state == Consume(s, op.invite, op.user, op.now)
            else Do(s, op).state == s
  {
  }

  lemma ConsumeUntouched(s: State, i: InviteId, user: UserId, now: int, u: UserId, t: TenantId)
    requires i in s.db.invites && Key(u, t) != Key(user, s.db.invites[i].tenant)
    ensures SameView(s.db, Consume(s, i, user, now).db, u, t)
  {
    var after := Consume(s, i, user, now).db;
    MembersUntouched(s.db, after.members, after.invites, after.seen, u, t);
  }

  lemma MembersUntouched(db: Db, members: map<Key, Membership>, invites: map<InviteId, Invite>, seen: set<string>, u: UserId, t: TenantId)
    requires Key(u, t) in members <==> Key(u, t) in db.members
    requires Key(u, t) in members ==> members[Key(u, t)] == db.members[Key(u, t)]
    ensures SameView(db, db.(members := members, invites := invites, seen := seen), u, t)
  {
  }

  /** Whoever an operation does not touch resolves as before: its view is unchanged. */
  lemma Untouched(s: State, op: Op, u: UserId, t: TenantId)
    requires Sound(s.db)
    requires !Touches(s.db, op, Key(u, t))
    ensures SameView(s.db, Do(s, op).state.db, u, t)
  {
    if IsRoleOp(op) {
      RoleOpUntouched(s, op, u, t);
    } else if IsMemberOp(op) {
      MemberOpUntouched(s, op, u, t);
    } else if op.CreateInvite? || op.RevokeInvite? || op.AcceptInvite? || op.JoinByInvite? || op.SweepInvites? {
      InviteOpUntouched(s, op, u, t);
    } else if op.CreateTenant? {
      NewTenantUntouched(s, op, u, t);
    }
  }

  lemma NewTenantUntouched(s: State, op: Op, u: UserId, t: TenantId)
    requires op.CreateTenant? && t != op.tenant
    ensures SameView(s.db, Do(s, op).state.db, u, t)
  {
  }

  /** Non-interference: an operation acting in one tenant leaves every resolution in every other tenant unchanged. */
  lemma OtherTenantsUnaffected(s: State, op: Op, u: UserId, t: TenantId, q: Scope)
    requires Sound(s.db)
    requires ActsIn(s.db, op) != Some(t)
    ensures Resolve(Do(s, op).state.db, u, t, q) == Resolve(s.db, u, t, q)
  {
    if Touches(s.db, op, Key(u, t)) {
      TouchesActingTenant(s.db, op, Key(u, t));
      assert false;
    }
    Untouched(s, op, u, t);
    SameViewResolves(s.db, Do(s, op).state.db, u, t, q);
  }
}
