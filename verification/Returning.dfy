/** Leaving an organisation and coming back: what a former member's rows are worth later. */
module Returning {
  import opened Model
  import opened Steps
  import opened Isolation
  import opened Requests
  import opened Runs
  import opened MemberAccess
  import opened RoleEdits
  import opened Effects

  /**
   * Requests that leave the former member where they are: neither the explicit removal of one of their rows, nor the deletion
   * of a role of the tenant without looking for holders, nor their coming back. All access-management requests are among them.
   */
  predicate Spares(req: Request, u: UserId, t: TenantId)
  {
    req.Plain? ==>
      && !((req.op.RemoveRole? || req.op.RevokePerm?) && req.op.user == u && req.op.tenant == t)
      && !((req.op.DeleteRole? || req.op.CreateTenant?) && req.op.tenant == t)
      && !((req.op.AcceptInvite? || req.op.JoinByInvite?) && req.op.user == u)
  }

  /** The former member is still none, with the same rows. */
  ghost predicate Spared(a: Db, b: Db, u: UserId, t: TenantId)
  {
    Key(u, t) !in a.members && Key(u, t) !in b.members && SameRows(a, b, u, t)
  }

  lemma OpSpares(s: State, op: Op, u: UserId, t: TenantId)
    requires Spares(Plain(op), u, t) && Key(u, t) !in s.db.members
    ensures Spared(s.db, Do(s, op).state.db, u, t)
  {
    if IsMemberOp(op) {
      MemberOpSpares(s, op, u, t);
    } else if IsRoleOp(op) {
      RoleOpSpares(s, op, u, t);
    } else {
      OtherOpSpares(s, op, u, t);
    }
  }

  lemma OtherOpSpares(s: State, op: Op, u: UserId, t: TenantId)
    requires !IsMemberOp(op) && !IsRoleOp(op) && Spares(Plain(op), u, t) && Key(u, t) !in s.db.members
    ensures Spared(s.db, Do(s, op).state.db, u, t)
  {
    if op.AcceptInvite? || op.JoinByInvite? {
      TakingConsumes(s, op);
    } else if op.CreateInvite? || op.RevokeInvite? || op.SweepInvites? {
      InviteOpFrame(s, op);
    } else {
      NewTenantSpares(s, op, u, t);
    }
  }

  lemma NewTenantSpares(s: State, op: Op, u: UserId, t: TenantId)
    requires op.CreateTenant? || op.Read? || op.Expire?
    requires Spares(Plain(op), u, t) && Key(u, t) !in s.db.members
    ensures Spared(s.db, Do(s, op).state.db, u, t)
  {
  }

  lemma MemberOpSpares(s: State, op: Op, u: UserId, t: TenantId)
    requires IsMemberOp(op) && Spares(Plain(op), u, t) && Key(u, t) !in s.db.members
    ensures Spared(s.db, Do(s, op).state.db, u, t)
  {
    if Key(u, t) == Key(op.user, op.tenant) {
      NonMemberOpRefused(s, op);
    } else {
      MemberOpOthers(s, op);
      OthersSpare(s.db, Do(s, op).state.db, op.user, op.tenant, u, t);
    }
  }

  lemma NonMemberOpRefused(s: State, op: Op)
    requires IsMemberOp(op) && !op.RemoveRole? && !op.RevokePerm? && Key(op.user, op.tenant) !in s.db.members
    ensures Do(s, op) == Refused(s)
  {
  }

  lemma OthersSpare(a: Db, b: Db, other: UserId, where: TenantId, u: UserId, t: TenantId)
    requires OthersSame(a, b, other, where) && Key(u, t) != Key(other, where) && Key(u, t) !in a.members
    ensures Spared(a, b, u, t)
  {
  }

  lemma RoleOpSpares(s: State, op: Op, u: UserId, t: TenantId)
    requires IsRoleOp(op) && Spares(Plain(op), u, t) && Key(u, t) !in s.db.members
    ensures Spared(s.db, Do(s, op).state.db, u, t)
  {
    if op.DeleteRole? {
      DeletionSpares(s, op.tenant, op.role, u, t);
    } else {
      EditKeepsTables(s, op);
    }
  }

  lemma DeletionSpares(s: State, where: TenantId, r: RoleId, u: UserId, t: TenantId)
    requires where != t && Key(u, t) !in s.db.members
    ensures Spared(s.db, DoDeleteRole(s, where, r).state.db, u, t)
  {
  }

  // ---- Access-management requests ----

  predicate EditsRole(op: Op)
  {
    op.CreateRole? || op.RenameRole? || op.AddPermToRole? || op.RemovePermFromRole?
  }

  /** Members and rows are the same. */
  predicate SameTables(a: Db, b: Db)
  {
    a.members == b.members && a.roleRows == b.roleRows && a.permRows == b.permRows
  }

  lemma EditKeepsTables(s: State, op: Op)
    requires EditsRole(op)
    ensures SameTables(s.db, Do(s, op).state.db)
  {
  }

  lemma {:induction false} EditsKeepTables(s: State, plan: seq<Op>)
    requires forall op :: op in plan ==> EditsRole(op)
    ensures SameTables(s.db, RunPlan(s, plan).state.db)
    decreases |plan|
  {
    if plan != [] {
      EditKeepsTables(s, plan[0]);
      EditsKeepTables(Do(s, plan[0]).state, plan[1..]);
    }
  }

  lemma EditPlanEdits(db: Db, t: TenantId, r: RoleId, name: string, perms: seq<PermName>)
    requires r in db.roles
    ensures forall op :: op in EditPlan(db, t, r, name, perms) ==> EditsRole(op)
  {
  }

  lemma RoleSaveEdits(db: Db, req: Request, who: Authority)
    requires req.RoleSave?
    ensures DecideRoleSave(db, req, who).Perform? ==> forall op :: op in DecideRoleSave(db, req, who).plan ==> EditsRole(op)
  {
    if req.role.Some? && req.role.value in db.roles {
      EditPlanEdits(db, req.tenant, req.role.value, Strip(req.name), req.perms);
    }
  }

  lemma CarryOutKeepsTables(s: State, t: TenantId, decision: Decision)
    requires decision.Perform? ==> forall op :: op in decision.plan ==> EditsRole(op)
    ensures SameTables(s.db, CarryOut(s, t, decision).state.db)
  {
    if decision.Perform? { EditsKeepTables(s, decision.plan); }
  }

  lemma RoleSaveKeepsTables(s: State, req: Request)
    requires req.RoleSave?
    ensures SameTables(s.db, Exec(s, req).state.db)
  {
    var who := AuthorityOf(s, req.actor, req.tenant);
    RoleSaveEdits(s.db, req, who);
    CarryOutKeepsTables(AfterRead(s, req.actor, req.tenant), req.tenant, Decide(s.db, req, who));
  }

  lemma MemberSaveSpares(s: State, req: Request, u: UserId, t: TenantId)
    requires WellFormed(s.db) && req.MemberSave? && Key(u, t) !in s.db.members
    ensures Spared(s.db, Exec(s, req).state.db, u, t)
  {
    MemberSaveMeetsRequest(s, req);
    OnlyMemberSpares(s.db, Exec(s, req).state.db, req.user, req.tenant, u, t);
  }

  lemma OnlyMemberSpares(a: Db, b: Db, other: UserId, where: TenantId, u: UserId, t: TenantId)
    requires Key(u, t) !in a.members && (a == b || (OnlyMember(a, b, other, where) && Key(other, where) in a.members))
    ensures Spared(a, b, u, t)
  {
  }

  lemma RoleDeleteSpares(s: State, req: Request, u: UserId, t: TenantId)
    requires Sound(s.db) && req.RoleDelete? && Key(u, t) !in s.db.members
    ensures Spared(s.db, Exec(s, req).state.db, u, t)
  {
    RoleDeleteOutcome(s, req);
  }

  lemma RequestSpares(s: State, req: Request, u: UserId, t: TenantId)
    requires Sound(s.db) && Spares(req, u, t) && Key(u, t) !in s.db.members
    ensures Spared(s.db, Exec(s, req).state.db, u, t)
  {
    match req
    case Plain(op) => OpSpares(s, op, u, t);
    case MemberSave(_, _, _, _, _, _, _) => MemberSaveSpares(s, req, u, t);
    case MemberRemove(_, _, _) => RemovalSpares(s, req, u, t);
    case RoleSave(_, _, _, _, _, _, _) => RoleSaveKeepsTables(s, req);
    case RoleDelete(_, _, _) => RoleDeleteSpares(s, req, u, t);
  }

  lemma RemovalSpares(s: State, req: Request, u: UserId, t: TenantId)
    requires req.MemberRemove? && Key(u, t) !in s.db.members
    ensures Spared(s.db, Exec(s, req).state.db, u, t)
  {
    RemovalOutcome(s, req);
  }

  /** `member_remove` deletes one membership or nothing. */
  lemma RemovalOutcome(s: State, req: Request)
    requires req.MemberRemove?
    ensures Exec(s, req).state.db == s.db || Exec(s, req).state.db == s.db.(members := s.db.members - {Key(req.user, req.tenant)})
  {
    SinglePlan(AfterRead(s, req.actor, req.tenant), RemoveMember(req.user, req.tenant));
  }

  // ---- Runs ----

  lemma {:induction false} RunSpares(s: State, reqs: seq<Request>, u: UserId, t: TenantId)
    requires Sound(s.db) && Key(u, t) !in s.db.members && forall req :: req in reqs ==> Spares(req, u, t)
    ensures Spared(s.db, Run(s, reqs).db, u, t)
    decreases |reqs|
  {
    if reqs != [] {
      RequestSpares(s, reqs[0], u, t);
      RequestStaysSound(s, reqs[0]);
      RunSpares(Exec(s, reqs[0]).state, reqs[1..], u, t);
    }
  }

  lemma AwaySpares(s: State, u: UserId, t: TenantId, away: seq<Request>)
    requires Sound(s.db) && DoRemoveMember(s, u, t).ok && forall req :: req in away ==> Spares(req, u, t)
    ensures var back := Run(DoRemoveMember(s, u, t).state, away).db;
            Key(u, t) !in back.members && SameRows(s.db, back, u, t)
  {
    StaysSound(s, RemoveMember(u, t));
    RunSpares(DoRemoveMember(s, u, t).state, away, u, t);
  }

  /**
   * However long a removed member stays away: meanwhile they have nothing, and on joining by an invitation they have, besides
   * what the invitation's role gives, all that the rows of the former membership give.
   */
  lemma ReturningRevivesRows(s: State, u: UserId, t: TenantId, away: seq<Request>, i: InviteId, now: int, q: Scope)
    requires Sound(s.db) && DoRemoveMember(s, u, t).ok && forall req :: req in away ==> Spares(req, u, t)
    requires var back := Run(DoRemoveMember(s, u, t).state, away).db; i in back.invites && back.invites[i].tenant == t
    ensures var back := Run(DoRemoveMember(s, u, t).state, away);
            var offered := back.db.invites[i].role;
            && Resolve(back.db, u, t, q) == {}
            && Resolve(Consume(back, i, u, now).db, u, t, q)
               == RowsGive(back.db, s.db, u, t, q) + (if offered.Some? then ActivePermsOf(back.db, offered.value) else {})
  {
    var back := Run(DoRemoveMember(s, u, t).state, away);
    AwaySpares(s, u, t, away);
    NonMemberHasNothing(back.db, u, t, q);
    JoiningAddsToRows(back, i, u, now, q);
    RowsGiveTheSame(back.db, s.db, back.db, u, t, q);
  }

  /** If catalogue and roles did not change meanwhile, that is everything the member had but for the former primary role. */
  lemma ReturningRestores(s: State, u: UserId, t: TenantId, away: seq<Request>, i: InviteId, now: int, q: Scope)
    requires Sound(s.db) && DoRemoveMember(s, u, t).ok && forall req :: req in away ==> Spares(req, u, t)
    requires var back := Run(DoRemoveMember(s, u, t).state, away).db;
             && i in back.invites && back.invites[i].tenant == t && back.catalogue == s.db.catalogue
             && forall r, sc :: RoleRow(u, t, r, sc) in s.db.roleRows ==> SameRole(back, s.db, r)
    ensures var back := Run(DoRemoveMember(s, u, t).state, away);
            var offered := back.db.invites[i].role;
            Resolve(Consume(back, i, u, now).db, u, t, q)
            == Resolve(DoClearPrimary(s, u, t).state.db, u, t, q) + (if offered.Some? then ActivePermsOf(back.db, offered.value) else {})
  {
    ReturningRevivesRows(s, u, t, away, i, now, q);
    RowsGiveAsBefore(s, Run(DoRemoveMember(s, u, t).state, away).db, u, t, q);
  }
}
