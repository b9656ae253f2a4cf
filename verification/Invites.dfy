/** The life of an invitation over whole runs: two ways to accept it, revocation, expiry, and the sweep of expired ones. */
module Invites {
  import opened Model
  import opened Steps
  import opened Isolation
  import opened Requests
  import opened Runs

  predicate TakesInvite(req: Request, i: InviteId)
  {
    req.Plain? && (req.op.AcceptInvite? || req.op.JoinByInvite?) && req.op.invite == i
  }

  /** The moment a request happens, for the operations that look at the clock. */
  predicate NotBefore(req: Request, t: int)
  {
    req.Plain? && (req.op.AcceptInvite? || req.op.JoinByInvite? || req.op.SweepInvites?) ==> t <= req.op.now
  }

  /** A run in which the clock does not go back behind `t`. */
  ghost predicate RunsFrom(reqs: seq<Request>, t: int)
  {
    forall req :: req in reqs ==> NotBefore(req, t)
  }

  // ---- Invitations only ever wear out ----

  predicate WornFrom(a: Invite, b: Invite)
  {
    && b == a.(used := b.used, active := b.active)
    && (a.used.Some? ==> b.used.Some?)
    && (!a.active ==> !b.active)
  }

  ghost predicate InvitesWear(a: Db, b: Db)
  {
    forall i :: i in a.invites ==> i in b.invites && WornFrom(a.invites[i], b.invites[i])
  }

  lemma OpWears(s: State, op: Op)
    requires WellFormed(s.db)
    ensures InvitesWear(s.db, Do(s, op).state.db)
  {
    if IsMemberOp(op) || IsRoleOp(op) {
      OpKeepsInvites(s, op);
    } else if op.CreateInvite? {
      assert op.id !in s.db.seen ==> op.id !in s.db.invites;
    } else if op.SweepInvites? {
      SweepWears(s, op.now);
    } else {
      OneInviteWears(s, op);
    }
  }

  lemma SweepWears(s: State, now: int)
    ensures InvitesWear(s.db, Do(s, SweepInvites(now)).state.db)
  {
  }

  lemma OneInviteWears(s: State, op: Op)
    requires op.RevokeInvite? || op.AcceptInvite? || op.JoinByInvite? || op.CreateTenant? || op.Read? || op.Expire?
    ensures InvitesWear(s.db, Do(s, op).state.db)
  {
    if op.AcceptInvite? || op.JoinByInvite? {
      TakingConsumes(s, op);
    }
  }

  predicate KeepsInvites(op: Op)
  {
    IsMemberOp(op) || IsRoleOp(op)
  }

  lemma OpKeepsInvites(s: State, op: Op)
    requires KeepsInvites(op)
    ensures Do(s, op).state.db.invites == s.db.invites
  {
  }

  lemma {:induction false} PlanKeepsInvites(s: State, plan: seq<Op>)
    requires forall op :: op in plan ==> KeepsInvites(op)
    ensures RunPlan(s, plan).state.db.invites == s.db.invites
    decreases |plan|
  {
    if plan != [] {
      OpKeepsInvites(s, plan[0]);
      PlanKeepsInvites(Do(s, plan[0]).state, plan[1..]);
    }
  }

  lemma CarryOutKeepsInvites(s: State, t: TenantId, decision: Decision)
    requires decision.Perform? ==> InTenant(decision.plan, t)
    ensures CarryOut(s, t, decision).state.db.invites == s.db.invites
  {
    if decision.Perform? { PlanKeepsInvites(s, decision.plan); }
  }

  lemma SameInvitesWear(a: Db, b: Db)
    requires b.invites == a.invites
    ensures InvitesWear(a, b)
  {
  }

  lemma RequestWears(s: State, req: Request)
    requires WellFormed(s.db)
    ensures InvitesWear(s.db, Exec(s, req).state.db)
    ensures !req.Plain? ==> Exec(s, req).state.db.invites == s.db.invites
  {
    if req.Plain? {
      OpWears(s, req.op);
    } else {
      var who := AuthorityOf(s, req.actor, req.tenant);
      DecisionInTenant(s.db, req, who);
      CarryOutKeepsInvites(AfterRead(s, req.actor, req.tenant), req.tenant, Decide(s.db, req, who));
      SameInvitesWear(s.db, Exec(s, req).state.db);
    }
  }

  // ---- At most one membership ----

  /** Nobody can use invitation `i` any more: revoked, used or expired. */
  predicate Dead(db: Db, i: InviteId, now: int)
  {
    i in db.invites && (!db.invites[i].active || db.invites[i].used.Some? || db.invites[i].expires < now)
  }

  /** How many memberships the run makes out of invitation `i`. */
  ghost function Joins(s: State, reqs: seq<Request>, i: InviteId): nat
    decreases |reqs|
  {
    if reqs == [] then 0
    else (if TakesInvite(reqs[0], i) && Exec(s, reqs[0]).ok then 1 else 0) + Joins(Exec(s, reqs[0]).state, reqs[1..], i)
  }

  lemma DeadStays(s: State, req: Request, i: InviteId, now: int)
    requires WellFormed(s.db) && Dead(s.db, i, now) && NotBefore(req, now)
    ensures Dead(Exec(s, req).state.db, i, now)
    ensures TakesInvite(req, i) ==> !Exec(s, req).ok
  {
    RequestWears(s, req);
  }

  lemma UsedStays(s: State, req: Request, i: InviteId)
    requires WellFormed(s.db) && i in s.db.invites && s.db.invites[i].used.Some?
    ensures i in Exec(s, req).state.db.invites && Exec(s, req).state.db.invites[i].used.Some?
    ensures TakesInvite(req, i) ==> !Exec(s, req).ok
  {
    RequestWears(s, req);
  }

  /** A revoked, used or expired invitation creates no membership, whatever follows. */
  lemma {:induction false} DeadInvitesCreateNothing(s: State, reqs: seq<Request>, i: InviteId, now: int)
    requires Sound(s.db) && Dead(s.db, i, now) && RunsFrom(reqs, now)
    ensures Joins(s, reqs, i) == 0
    decreases |reqs|
  {
    if reqs != [] {
      RequestStaysSound(s, reqs[0]);
      assert NotBefore(reqs[0], now);
      DeadStays(s, reqs[0], i, now);
      DeadInvitesCreateNothing(Exec(s, reqs[0]).state, reqs[1..], i, now);
    }
  }

  /** Each success makes the invited user, and nobody else, a plain member with the offered role, and uses the invitation up. */
  lemma TakingUsesUp(s: State, req: Request, i: InviteId)
    requires TakesInvite(req, i) && Exec(s, req).ok
    ensures Usable(s.db, i, req.op.now) && Key(req.op.user, s.db.invites[i].tenant) !in s.db.members
    ensures Exec(s, req).state.db.members
         == s.db.members[Key(req.op.user, s.db.invites[i].tenant) := Membership(s.db.invites[i].role, false, true)]
    ensures forall now :: Dead(Exec(s, req).state.db, i, now)
  {
  }

  lemma TakenIsUsed(s: State, req: Request, i: InviteId)
    requires TakesInvite(req, i) && Exec(s, req).ok
    ensures i in Exec(s, req).state.db.invites && Exec(s, req).state.db.invites[i].used.Some?
  {
  }

  /** Across both acceptance paths an invitation creates at most one membership over any run, whatever the clock does. */
  lemma {:induction false} AtMostOneMembership(s: State, reqs: seq<Request>, i: InviteId)
    requires Sound(s.db)
    ensures Joins(s, reqs, i) <= 1
    decreases |reqs|
  {
    if reqs != [] {
      RequestStaysSound(s, reqs[0]);
      if TakesInvite(reqs[0], i) && Exec(s, reqs[0]).ok {
        TakenIsUsed(s, reqs[0], i);
        UsedInvitesCreateNothing(Exec(s, reqs[0]).state, reqs[1..], i);
      } else {
        AtMostOneMembership(Exec(s, reqs[0]).state, reqs[1..], i);
      }
    }
  }

  lemma {:induction false} UsedInvitesCreateNothing(s: State, reqs: seq<Request>, i: InviteId)
    requires Sound(s.db) && i in s.db.invites && s.db.invites[i].used.Some?
    ensures Joins(s, reqs, i) == 0
    decreases |reqs|
  {
    if reqs != [] {
      RequestStaysSound(s, reqs[0]);
      UsedStays(s, reqs[0], i);
      UsedInvitesCreateNothing(Exec(s, reqs[0]).state, reqs[1..], i);
    }
  }

  // ---- The sweep cannot be observed ----

  /** `b` is `a`, possibly marked inactive although it had expired before `t` anyway. */
  predicate SweptFrom(a: Invite, b: Invite, t: int)
  {
    b == a || (b == a.(active := false) && a.expires < t)
  }

  predicate InvitesSwept(a: map<InviteId, Invite>, b: map<InviteId, Invite>, t: int)
  {
    a.Keys == b.Keys && forall i :: i in a ==> SweptFrom(a[i], b[i], t)
  }

  function WithInvites(s: State, invites: map<InviteId, Invite>): State
  {
    s.(db := s.db.(invites := invites))
  }

  /** The two states differ in such marks only. */
  ghost predicate AlikeButSwept(a: State, b: State, t: int)
  {
    b == WithInvites(a, b.db.invites) && InvitesSwept(a.db.invites, b.db.invites, t)
  }

  lemma ResolveIgnoresInvites(a: Db, invites: map<InviteId, Invite>, u: UserId, t: TenantId, q: Scope)
    ensures Resolve(a.(invites := invites), u, t, q) == Resolve(a, u, t, q)
  {
    SameViewResolves(a, a.(invites := invites), u, t, q);
  }

  lemma TakeAlike(a: State, b: State, op: Op, t: int)
    requires AlikeButSwept(a, b, t) && (op.AcceptInvite? || op.JoinByInvite?) && t <= op.now
    ensures Do(a, op).ok == Do(b, op).ok
    ensures AlikeButSwept(Do(a, op).state, Do(b, op).state, t)
  {
    assert Usable(a.db, op.invite, op.now) == Usable(b.db, op.invite, op.now);
    if Usable(a.db, op.invite, op.now) {
      assert a.db.invites[op.invite] == b.db.invites[op.invite];
      assert Offerable(a.db, a.db.invites[op.invite].tenant, a.db.invites[op.invite].role)
          == Offerable(b.db, a.db.invites[op.invite].tenant, a.db.invites[op.invite].role);
    }
  }

  lemma SweptAlike(a: map<InviteId, Invite>, b: map<InviteId, Invite>, now: int, t: int)
    requires InvitesSwept(a, b, t) && t <= now
    ensures InvitesSwept(Swept(a, now), Swept(b, now), t)
  {
    forall i | i in a ensures SweptFrom(Swept(a, now)[i], Swept(b, now)[i], t) {
      assert SweptFrom(a[i], b[i], t);
    }
  }

  lemma SweepAlike(a: State, b: State, now: int, t: int)
    requires AlikeButSwept(a, b, t) && t <= now
    ensures AlikeButSwept(Do(a, SweepInvites(now)).state, Do(b, SweepInvites(now)).state, t)
  {
    SweptAlike(a.db.invites, b.db.invites, now, t);
    assert Do(b, SweepInvites(now)).state == WithInvites(Do(a, SweepInvites(now)).state, Swept(b.db.invites, now));
  }

  lemma CreateOrRevokeAlike(a: State, b: State, op: Op, t: int)
    requires AlikeButSwept(a, b, t) && (op.CreateInvite? || op.RevokeInvite?)
    ensures Do(a, op).ok == Do(b, op).ok
    ensures AlikeButSwept(Do(a, op).state, Do(b, op).state, t)
  {
    if op.CreateInvite? {
      CreateAlike(a, b, op, t);
    } else {
      RevokeAlike(a, b, op.invite, op.requester, op.privileged, t);
    }
  }

  lemma CreateAlike(a: State, b: State, op: Op, t: int)
    requires AlikeButSwept(a, b, t) && op.CreateInvite?
    ensures Do(a, op).ok == Do(b, op).ok
    ensures AlikeButSwept(Do(a, op).state, Do(b, op).state, t)
  {
    assert Offerable(a.db, op.tenant, op.offered) == Offerable(b.db, op.tenant, op.offered);
  }

  lemma RevokeAlike(a: State, b: State, i: InviteId, requester: UserId, privileged: bool, t: int)
    requires AlikeButSwept(a, b, t)
    ensures DoRevokeInvite(a, i, requester, privileged).ok == DoRevokeInvite(b, i, requester, privileged).ok
    ensures AlikeButSwept(DoRevokeInvite(a, i, requester, privileged).state, DoRevokeInvite(b, i, requester, privileged).state, t)
  {
  }

  lemma RoleOpAlike(a: State, b: State, op: Op, t: int)
    requires AlikeButSwept(a, b, t) && IsRoleOp(op)
    ensures Do(a, op).ok == Do(b, op).ok
    ensures AlikeButSwept(Do(a, op).state, Do(b, op).state, t)
  {
    if op.DeleteRole? {
      DeleteRoleAlike(a, b, op.tenant, op.role, t);
    } else {
      RoleEditIgnoresInvites(a, b.db.invites, op);
    }
  }

  lemma DeleteRoleAlike(a: State, b: State, tenant: TenantId, r: RoleId, t: int)
    requires AlikeButSwept(a, b, t)
    ensures DoDeleteRole(a, tenant, r).ok == DoDeleteRole(b, tenant, r).ok
    ensures AlikeButSwept(DoDeleteRole(a, tenant, r).state, DoDeleteRole(b, tenant, r).state, t)
  {
    assert StillReferenced(a.db, tenant, r) <==> StillReferenced(b.db, tenant, r) by {
      assert forall i :: i in a.db.invites ==> a.db.invites[i].role == b.db.invites[i].role;
    }
    assert HoldersIn(a.db, tenant, r) == HoldersIn(b.db, tenant, r);
  }

  lemma RoleEditIgnoresInvites(a: State, invites: map<InviteId, Invite>, op: Op)
    requires IsRoleOp(op) && !op.DeleteRole?
    ensures Do(WithInvites(a, invites), op) == Outcome(Do(a, op).ok, WithInvites(Do(a, op).state, invites))
    ensures Do(a, op).state.db.invites == a.db.invites
  {
    var b := WithInvites(a, invites);
    if op.AddPermToRole? || op.RemovePermFromRole? {
      assert MembersOf(a.db, op.tenant) == MembersOf(b.db, op.tenant);
    }
  }

  lemma RowOpIgnoresInvites(a: State, invites: map<InviteId, Invite>, op: Op)
    requires op.AddRole? || op.RemoveRole?
    ensures Do(WithInvites(a, invites), op) == Outcome(Do(a, op).ok, WithInvites(Do(a, op).state, invites))
  {
  }

  lemma MemberOpIgnoresInvites(a: State, invites: map<InviteId, Invite>, op: Op)
    requires IsMemberOp(op)
    ensures Do(WithInvites(a, invites), op) == Outcome(Do(a, op).ok, WithInvites(Do(a, op).state, invites))
  {
    if op.AddRole? || op.RemoveRole? { RowOpIgnoresInvites(a, invites, op); }
  }

  lemma MemberOpAlike(a: State, b: State, op: Op, t: int)
    requires AlikeButSwept(a, b, t) && IsMemberOp(op)
    ensures Do(a, op).ok == Do(b, op).ok
    ensures AlikeButSwept(Do(a, op).state, Do(b, op).state, t)
  {
    MemberOpIgnoresInvites(a, b.db.invites, op);
    OpKeepsInvites(a, op);
  }

  lemma OpAlike(a: State, b: State, op: Op, t: int)
    requires AlikeButSwept(a, b, t)
    requires op.AcceptInvite? || op.JoinByInvite? || op.SweepInvites? ==> t <= op.now
    ensures Do(a, op).ok == Do(b, op).ok
    ensures AlikeButSwept(Do(a, op).state, Do(b, op).state, t)
  {
    if op.AcceptInvite? || op.JoinByInvite? {
      TakeAlike(a, b, op, t);
    } else if op.SweepInvites? {
      SweepAlike(a, b, op.now, t);
    } else if op.CreateInvite? || op.RevokeInvite? {
      CreateOrRevokeAlike(a, b, op, t);
    } else if IsRoleOp(op) {
      RoleOpAlike(a, b, op, t);
    } else if IsMemberOp(op) {
      MemberOpAlike(a, b, op, t);
    } else if op.Read? {
      ResolveIgnoresInvites(a.db, b.db.invites, op.user, op.tenant, GLOBAL);
    }
  }

  lemma {:induction false} PlanAlike(a: State, b: State, plan: seq<Op>, t: int)
    requires AlikeButSwept(a, b, t) && forall op :: op in plan ==> KeepsInvites(op)
    ensures RunPlan(a, plan).ok == RunPlan(b, plan).ok
    ensures AlikeButSwept(RunPlan(a, plan).state, RunPlan(b, plan).state, t)
    decreases |plan|
  {
    if plan != [] {
      assert KeepsInvites(plan[0]);
      OpAlike(a, b, plan[0], t);
      PlanAlike(Do(a, plan[0]).state, Do(b, plan[0]).state, plan[1..], t);
    }
  }

  lemma JudgedAlike(a: State, b: State, actor: UserId, tenant: TenantId, t: int)
    requires AlikeButSwept(a, b, t)
    ensures AuthorityOf(a, actor, tenant) == AuthorityOf(b, actor, tenant)
    ensures AlikeButSwept(AfterRead(a, actor, tenant), AfterRead(b, actor, tenant), t)
  {
    ResolveIgnoresInvites(a.db, b.db.invites, actor, tenant, GLOBAL);
    assert forall r :: RefersTo(a.db, actor, tenant, r) <==> RefersTo(b.db, actor, tenant, r);
    if HoldsNamed(a.db, actor, tenant, TENANT_ADMIN_ROLE) {
      var r :| RefersTo(a.db, actor, tenant, r) && r in a.db.roles && a.db.roles[r].name == TENANT_ADMIN_ROLE;
      assert RefersTo(b.db, actor, tenant, r);
    }
    if HoldsNamed(b.db, actor, tenant, TENANT_ADMIN_ROLE) {
      var r :| RefersTo(b.db, actor, tenant, r) && r in b.db.roles && b.db.roles[r].name == TENANT_ADMIN_ROLE;
      assert RefersTo(a.db, actor, tenant, r);
    }
  }

  lemma ListsIgnoreInvites(db: Db, invites: map<InviteId, Invite>, u: UserId, t: TenantId)
    ensures ListedRoles(db.(invites := invites), u, t) == ListedRoles(db, u, t)
    ensures DirectPerms(db.(invites := invites), u, t) == DirectPerms(db, u, t)
    ensures PrimaryOf(db.(invites := invites), u, t) == PrimaryOf(db, u, t)
  {
  }

  lemma MemberPlanIgnoresInvites(db: Db, invites: map<InviteId, Invite>, req: Request)
    requires req.MemberSave? && Key(req.user, req.tenant) in db.members
    ensures MemberPlan(db.(invites := invites), req) == MemberPlan(db, req)
  {
    var b := db.(invites := invites);
    ListsIgnoreInvites(db, invites, req.user, req.tenant);
    assert PrimaryPart(b, req) == PrimaryPart(db, req);
    assert StatusPart(b, req) == StatusPart(db, req);
    assert AddPart(b, req) == AddPart(db, req) && DropPart(b, req) == DropPart(db, req);
    assert GrantPart(b, req) == GrantPart(db, req) && RevokePart(b, req) == RevokePart(db, req);
  }

  lemma AllowanceIgnoresInvites(db: Db, invites: map<InviteId, Invite>, req: Request, admin: bool)
    requires req.MemberSave? && Key(req.user, req.tenant) in db.members
    ensures MemberSaveAllowed(db.(invites := invites), req, admin) == MemberSaveAllowed(db, req, admin)
  {
    ListsIgnoreInvites(db, invites, req.user, req.tenant);
  }

  lemma RoleSaveIgnoresInvites(db: Db, invites: map<InviteId, Invite>, req: Request, who: Authority)
    requires req.RoleSave?
    ensures DecideRoleSave(db.(invites := invites), req, who) == DecideRoleSave(db, req, who)
  {
    if req.role.Some? && Visible(db, req.tenant, req.role.value) && IsPlatformRole(db, req.role.value) {
      PlatformRoleIgnoresInvites(db, invites, req, who, req.role.value);
    } else {
      TenantRoleIgnoresInvites(db, invites, req);
    }
  }

  lemma TenantRoleIgnoresInvites(db: Db, invites: map<InviteId, Invite>, req: Request)
    requires req.RoleSave?
    ensures DecideTenantRole(db.(invites := invites), req) == DecideTenantRole(db, req)
  {
    var b := db.(invites := invites);
    assert AllDelegable(b, req.perms) == AllDelegable(db, req.perms);
    assert NameIsFree(b, req.tenant, Strip(req.name), req.role) == NameIsFree(db, req.tenant, Strip(req.name), req.role);
  }

  lemma PlatformRoleIgnoresInvites(db: Db, invites: map<InviteId, Invite>, req: Request, who: Authority, r: RoleId)
    requires req.RoleSave? && r in db.roles
    ensures DecidePlatformRole(db.(invites := invites), req, who, r) == DecidePlatformRole(db, req, who, r)
  {
  }

  lemma DecideIgnoresInvites(db: Db, invites: map<InviteId, Invite>, req: Request, who: Authority)
    requires !req.Plain?
    ensures Decide(db.(invites := invites), req, who) == Decide(db, req, who)
  {
    var b := db.(invites := invites);
    if req.MemberSave? {
      if Key(req.user, req.tenant) in db.members {
        MemberPlanIgnoresInvites(db, invites, req);
        AllowanceIgnoresInvites(db, invites, req, who.platformAdmin);
      }
    } else if req.RoleDelete? {
      assert HoldersIn(b, req.tenant, req.roleId) == HoldersIn(db, req.tenant, req.roleId);
    } else if req.RoleSave? {
      RoleSaveIgnoresInvites(db, invites, req, who);
    }
  }

  lemma CarryOutAlike(a: State, b: State, tenant: TenantId, decision: Decision, t: int)
    requires AlikeButSwept(a, b, t)
    requires decision.Perform? ==> InTenant(decision.plan, tenant)
    ensures CarryOut(a, tenant, decision).ok == CarryOut(b, tenant, decision).ok
    ensures AlikeButSwept(CarryOut(a, tenant, decision).state, CarryOut(b, tenant, decision).state, t)
  {
    if decision.Perform? {
      PlanAlike(a, b, decision.plan, t);
    } else if decision.EditPlatformRole? {
      assert MembersOf(a.db, tenant) == MembersOf(b.db, tenant);
    }
  }

  lemma RequestAlike(a: State, b: State, req: Request, t: int)
    requires AlikeButSwept(a, b, t) && NotBefore(req, t)
    ensures Exec(a, req).ok == Exec(b, req).ok
    ensures AlikeButSwept(Exec(a, req).state, Exec(b, req).state, t)
  {
    if req.Plain? {
      OpAlike(a, b, req.op, t);
    } else {
      var who := AuthorityOf(a, req.actor, req.tenant);
      JudgedAlike(a, b, req.actor, req.tenant, t);
      DecideIgnoresInvites(a.db, b.db.invites, req, who);
      DecisionInTenant(a.db, req, who);
      CarryOutAlike(AfterRead(a, req.actor, req.tenant), AfterRead(b, req.actor, req.tenant), req.tenant, Decide(a.db, req, who), t);
    }
  }

  ghost function Outcomes(s: State, reqs: seq<Request>): seq<bool>
    decreases |reqs|
  {
    if reqs == [] then [] else [Exec(s, reqs[0]).ok] + Outcomes(Exec(s, reqs[0]).state, reqs[1..])
  }

  lemma {:induction false} RunAlike(a: State, b: State, reqs: seq<Request>, t: int)
    requires AlikeButSwept(a, b, t) && RunsFrom(reqs, t)
    ensures Outcomes(a, reqs) == Outcomes(b, reqs)
    ensures AlikeButSwept(Run(a, reqs), Run(b, reqs), t)
    decreases |reqs|
  {
    if reqs != [] {
      assert NotBefore(reqs[0], t);
      RequestAlike(a, b, reqs[0], t);
      RunAlike(Exec(a, reqs[0]).state, Exec(b, reqs[0]).state, reqs[1..], t);
    }
  }

  /**
   * Sweeping expired invitations at any moment changes no later outcome, of accepting, joining or anything else, and no
   * membership: only marks on invitations that were expired already.
   */
  lemma SweepIsUnobservable(s: State, now: int, reqs: seq<Request>)
    requires RunsFrom(reqs, now)
    ensures Outcomes(Do(s, SweepInvites(now)).state, reqs) == Outcomes(s, reqs)
    ensures AlikeButSwept(Run(s, reqs), Run(Do(s, SweepInvites(now)).state, reqs), now)
  {
    RunAlike(s, Do(s, SweepInvites(now)).state, reqs, now);
  }
}
