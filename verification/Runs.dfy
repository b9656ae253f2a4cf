/** Theorems over every run of tenant-level requests, handled one at a time. */
module Runs {
  import opened Listing
  import opened Model
  import opened Steps
  import opened Isolation
  import opened Coherence
  import opened Requests

  // ---- Plans ----

  /** The operations a plan is made of. */
  predicate InTenant(plan: seq<Op>, t: TenantId)
  {
    forall op :: op in plan ==> (IsMemberOp(op) || IsRoleOp(op)) && op.tenant == t
  }

  lemma {:induction false} PlanStaysGood(s: State, plan: seq<Op>)
    requires Good(s)
    ensures Good(RunPlan(s, plan).state)
    decreases |plan|
  {
    if plan != [] {
      StaysGood(s, plan[0]);
      PlanStaysGood(Do(s, plan[0]).state, plan[1..]);
    }
  }

  lemma {:induction false} PlanOnlyEvicts(s: State, plan: seq<Op>, t: TenantId)
    requires InTenant(plan, t)
    ensures SubCache(RunPlan(s, plan).state.cache, s.cache)
    decreases |plan|
  {
    if plan != [] {
      WritesOnlyEvict(s, plan[0]);
      PlanOnlyEvicts(Do(s, plan[0]).state, plan[1..], t);
    }
  }

  lemma {:induction false} PlanKeepsOtherTenants(s: State, plan: seq<Op>, t: TenantId, u: UserId, other: TenantId, q: Scope)
    requires Good(s) && InTenant(plan, t) && other != t
    ensures Resolve(RunPlan(s, plan).state.db, u, other, q) == Resolve(s.db, u, other, q)
    decreases |plan|
  {
    if plan != [] {
      OtherTenantsUnaffected(s, plan[0], u, other, q);
      StaysGood(s, plan[0]);
      PlanKeepsOtherTenants(Do(s, plan[0]).state, plan[1..], t, u, other, q);
    }
  }

  /** What an atomic plan promises, whether it is carried out or rolled back. */
  lemma AtomicKeeps(s: State, plan: seq<Op>, t: TenantId)
    requires Good(s) && InTenant(plan, t)
    ensures Good(Atomic(s, plan).state)
    ensures forall u, other, q :: other != t ==> Resolve(Atomic(s, plan).state.db, u, other, q) == Resolve(s.db, u, other, q)
  {
    PlanStaysGood(s, plan);
    PlanOnlyEvicts(s, plan, t);
    SubCacheStaysCoherent(s, RunPlan(s, plan).state.cache);
    forall u, other, q | other != t
      ensures Resolve(RunPlan(s, plan).state.db, u, other, q) == Resolve(s.db, u, other, q)
    {
      PlanKeepsOtherTenants(s, plan, t, u, other, q);
    }
  }

  // ---- One request ----

  lemma ReadKeeps(s: State, u: UserId, t: TenantId)
    requires Good(s)
    ensures Good(AfterRead(s, u, t)) && AfterRead(s, u, t).db == s.db
  {
    StaysGood(s, Read(u, t));
  }

  lemma InTenantConcat(a: seq<Op>, b: seq<Op>, t: TenantId)
    requires InTenant(a, t) && InTenant(b, t)
    ensures InTenant(a + b, t)
  {
  }

  lemma PartsInTenant(db: Db, req: Request)
    requires req.MemberSave? && Key(req.user, req.tenant) in db.members
    ensures InTenant(PrimaryPart(db, req), req.tenant) && InTenant(StatusPart(db, req), req.tenant)
    ensures InTenant(AddPart(db, req), req.tenant) && InTenant(DropPart(db, req), req.tenant)
    ensures InTenant(GrantPart(db, req), req.tenant) && InTenant(RevokePart(db, req), req.tenant)
  {
    MembershipPartsInTenant(db, req);
    RolePartsInTenant(db, req);
    PermPartsInTenant(db, req);
  }

  lemma MembershipPartsInTenant(db: Db, req: Request)
    requires req.MemberSave? && Key(req.user, req.tenant) in db.members
    ensures InTenant(PrimaryPart(db, req), req.tenant) && InTenant(StatusPart(db, req), req.tenant)
  {
  }

  lemma RolePartsInTenant(db: Db, req: Request)
    requires req.MemberSave?
    ensures InTenant(AddPart(db, req), req.tenant) && InTenant(DropPart(db, req), req.tenant)
  {
  }

  lemma PermPartsInTenant(db: Db, req: Request)
    requires req.MemberSave?
    ensures InTenant(GrantPart(db, req), req.tenant) && InTenant(RevokePart(db, req), req.tenant)
  {
  }

  lemma MemberPlanInTenant(db: Db, req: Request)
    requires req.MemberSave? && Key(req.user, req.tenant) in db.members
    ensures InTenant(MemberPlan(db, req), req.tenant)
  {
    var a, b, c, d, e, f := PrimaryPart(db, req), StatusPart(db, req), AddPart(db, req), DropPart(db, req), GrantPart(db, req), RevokePart(db, req);
    PartsInTenant(db, req);
    InTenantConcat(a, b, req.tenant);
    InTenantConcat(c, d, req.tenant);
    InTenantConcat(e, f, req.tenant);
    InTenantConcat(a + b, c + d, req.tenant);
    InTenantConcat((a + b) + (c + d), e + f, req.tenant);
  }

  lemma EditPlanInTenant(db: Db, t: TenantId, r: RoleId, name: string, perms: seq<PermName>)
    requires r in db.roles
    ensures InTenant(EditPlan(db, t, r, name, perms), t)
  {
    var gone, added := Sorted(db.roles[r].perms - Elements(perms)), Sorted(Elements(perms) - db.roles[r].perms);
    EditsInTenant(t, r, name, gone, added);
    InTenantConcat([RenameRole(t, r, name)], Taking(t, r, gone), t);
    InTenantConcat([RenameRole(t, r, name)] + Taking(t, r, gone), Giving(t, r, added), t);
  }

  lemma EditsInTenant(t: TenantId, r: RoleId, name: string, gone: seq<PermName>, added: seq<PermName>)
    ensures InTenant([RenameRole(t, r, name)], t) && InTenant(Taking(t, r, gone), t) && InTenant(Giving(t, r, added), t)
  {
  }

  /** Whatever xauth decides to do for a request stays within its tenant, but for edits of platform roles. */
  lemma DecisionInTenant(db: Db, req: Request, who: Authority)
    requires !req.Plain?
    ensures Decide(db, req, who).Perform? ==> InTenant(Decide(db, req, who).plan, req.tenant)
    ensures TenantLevel(db, req) ==> !Decide(db, req, who).EditPlatformRole?
  {
    if req.MemberSave? {
      if Key(req.user, req.tenant) in db.members { MemberPlanInTenant(db, req); }
    } else if req.RoleSave? && req.role.Some? && req.role.value in db.roles {
      EditPlanInTenant(db, req.tenant, req.role.value, Strip(req.name), req.perms);
    }
  }

  /** Non-interference and the invariants, for one request. */
  lemma RequestKeeps(s: State, req: Request)
    requires Good(s) && TenantLevel(s.db, req)
    ensures Good(Exec(s, req).state)
    ensures forall u, other, q :: RequestActsIn(s.db, req) != Some(other)
              ==> Resolve(Exec(s, req).state.db, u, other, q) == Resolve(s.db, u, other, q)
  {
    if req.Plain? {
      StaysGood(s, req.op);
      forall u, other, q | ActsIn(s.db, req.op) != Some(other)
        ensures Resolve(Do(s, req.op).state.db, u, other, q) == Resolve(s.db, u, other, q)
      {
        OtherTenantsUnaffected(s, req.op, u, other, q);
      }
    } else {
      ReadKeeps(s, req.actor, req.tenant);
      var who := AuthorityOf(s, req.actor, req.tenant);
      DecisionInTenant(s.db, req, who);
      if Decide(s.db, req, who).Perform? {
        AtomicKeeps(AfterRead(s, req.actor, req.tenant), Decide(s.db, req, who).plan, req.tenant);
      }
    }
  }

  // ---- Soundness needs no coherent cache ----

  lemma {:induction false} PlanStaysSound(s: State, plan: seq<Op>)
    requires Sound(s.db)
    ensures Sound(RunPlan(s, plan).state.db)
    decreases |plan|
  {
    if plan != [] {
      StaysSound(s, plan[0]);
      PlanStaysSound(Do(s, plan[0]).state, plan[1..]);
    }
  }

  lemma PlatformSaveStaysSound(s: State, t: TenantId, r: RoleId, perms: seq<PermName>)
    requires Sound(s.db) && IsPlatformRole(s.db, r)
    requires forall n :: n in perms ==> IsActive(s.db, n)
    ensures Sound(DoPlatformSave(s, t, r, perms).db)
  {
    RoleUpdateStaysSound(s.db, r, s.db.roles[r].(perms := Elements(perms)));
  }

  lemma CarryOutStaysSound(s: State, t: TenantId, decision: Decision)
    requires Sound(s.db)
    requires decision.EditPlatformRole? ==> IsPlatformRole(s.db, decision.role) && forall n :: n in decision.perms ==> IsActive(s.db, n)
    ensures Sound(CarryOut(s, t, decision).state.db)
  {
    if decision.Perform? {
      PlanStaysSound(s, decision.plan);
    } else if decision.EditPlatformRole? {
      PlatformSaveStaysSound(s, t, decision.role, decision.perms);
    }
  }

  /** Every request, edits of platform roles included, keeps well-formedness and isolation. */
  lemma RequestStaysSound(s: State, req: Request)
    requires Sound(s.db)
    ensures Sound(Exec(s, req).state.db)
  {
    if req.Plain? {
      StaysSound(s, req.op);
    } else {
      CarryOutStaysSound(AfterRead(s, req.actor, req.tenant), req.tenant, Decide(s.db, req, AuthorityOf(s, req.actor, req.tenant)));
    }
  }

  // ---- Runs ----

  ghost function Run(s: State, reqs: seq<Request>): State
    decreases |reqs|
  {
    if reqs == [] then s else Run(Exec(s, reqs[0]).state, reqs[1..])
  }

  ghost predicate TenantRun(s: State, reqs: seq<Request>)
    decreases |reqs|
  {
    reqs == [] || (TenantLevel(s.db, reqs[0]) && TenantRun(Exec(s, reqs[0]).state, reqs[1..]))
  }

  /** No request of the run acts in tenant `t`. */
  ghost predicate KeepsOutOf(s: State, reqs: seq<Request>, t: TenantId)
    decreases |reqs|
  {
    reqs == [] || (RequestActsIn(s.db, reqs[0]) != Some(t) && KeepsOutOf(Exec(s, reqs[0]).state, reqs[1..], t))
  }

  /** Isolation and coherence hold in every state a run reaches. */
  lemma {:induction false} RunStaysGood(s: State, reqs: seq<Request>)
    requires Good(s) && TenantRun(s, reqs)
    ensures Good(Run(s, reqs))
    decreases |reqs|
  {
    if reqs != [] {
      RequestKeeps(s, reqs[0]);
      RunStaysGood(Exec(s, reqs[0]).state, reqs[1..]);
    }
  }

  /** After any run, cached and uncached resolution agree for every user and tenant. */
  lemma RunServesUncached(s: State, reqs: seq<Request>, u: UserId, t: TenantId)
    requires Good(s) && TenantRun(s, reqs)
    ensures ReadList(Run(s, reqs), u, t) == Uncached(Run(s, reqs).db, Key(u, t))
    ensures Key(u, t) in Run(s, reqs).cache ==> Key(u, t) in Run(s, reqs).db.members
  {
    RunStaysGood(s, reqs);
    CachedIsUncached(Run(s, reqs), u, t);
  }

  /** Tenant non-interference over whole runs: requests in other tenants never change a resolution in `t`, in any scope. */
  lemma {:induction false} RunKeepsOutside(s: State, reqs: seq<Request>, u: UserId, t: TenantId, q: Scope)
    requires Good(s) && TenantRun(s, reqs) && KeepsOutOf(s, reqs, t)
    ensures Resolve(Run(s, reqs).db, u, t, q) == Resolve(s.db, u, t, q)
    decreases |reqs|
  {
    if reqs != [] {
      RequestKeeps(s, reqs[0]);
      RunKeepsOutside(Exec(s, reqs[0]).state, reqs[1..], u, t, q);
    }
  }

  // ---- The cache refines no cache ----

  lemma DoIgnoresCache(s: State, cache: PermCache, op: Op)
    ensures Do(s, op).ok == Do(s.(cache := cache), op).ok
    ensures Do(s, op).state.db == Do(s.(cache := cache), op).state.db
  {
    if IsMemberOp(op) {
      MemberOpIgnoresCache(s, cache, op);
    } else if IsRoleOp(op) {
      RoleOpIgnoresCache(s, cache, op);
    } else {
      OtherOpIgnoresCache(s, cache, op);
    }
  }

  lemma MemberOpIgnoresCache(s: State, cache: PermCache, op: Op)
    requires IsMemberOp(op)
    ensures Do(s, op).ok == Do(s.(cache := cache), op).ok
    ensures Do(s, op).state.db == Do(s.(cache := cache), op).state.db
  {
  }

  lemma RoleOpIgnoresCache(s: State, cache: PermCache, op: Op)
    requires IsRoleOp(op)
    ensures Do(s, op).ok == Do(s.(cache := cache), op).ok
    ensures Do(s, op).state.db == Do(s.(cache := cache), op).state.db
  {
  }

  lemma OtherOpIgnoresCache(s: State, cache: PermCache, op: Op)
    requires !IsMemberOp(op) && !IsRoleOp(op)
    ensures Do(s, op).ok == Do(s.(cache := cache), op).ok
    ensures Do(s, op).state.db == Do(s.(cache := cache), op).state.db
  {
  }

  lemma {:induction false} PlanIgnoresCache(s: State, cache: PermCache, plan: seq<Op>)
    ensures RunPlan(s, plan).ok == RunPlan(s.(cache := cache), plan).ok
    ensures RunPlan(s, plan).state.db == RunPlan(s.(cache := cache), plan).state.db
    decreases |plan|
  {
    if plan != [] {
      DoIgnoresCache(s, cache, plan[0]);
      var a, b := Do(s, plan[0]).state, Do(s.(cache := cache), plan[0]).state;
      assert b == a.(cache := b.cache);
      PlanIgnoresCache(a, b.cache, plan[1..]);
    }
  }

  lemma AtomicIgnoresCache(s: State, other: State, plan: seq<Op>)
    requires s.db == other.db
    ensures Atomic(s, plan).ok == Atomic(other, plan).ok
    ensures Atomic(s, plan).state.db == Atomic(other, plan).state.db
  {
    assert other == s.(cache := other.cache);
    PlanIgnoresCache(s, other.cache, plan);
  }

  /** An actor is judged the same from any coherent cache. */
  lemma AuthorityIgnoresCache(s: State, other: State, actor: UserId, t: TenantId)
    requires Coherent(s) && Coherent(other) && s.db == other.db
    ensures AuthorityOf(s, actor, t) == AuthorityOf(other, actor, t)
  {
    CachedIsUncached(s, actor, t);
    CachedIsUncached(other, actor, t);
  }

  lemma CarryOutIgnoresCache(s: State, other: State, t: TenantId, decision: Decision)
    requires s.db == other.db
    ensures CarryOut(s, t, decision).ok == CarryOut(other, t, decision).ok
    ensures CarryOut(s, t, decision).state.db == CarryOut(other, t, decision).state.db
  {
    if decision.Perform? { AtomicIgnoresCache(s, other, decision.plan); }
  }

  lemma RequestIgnoresCache(s: State, other: State, req: Request)
    requires Coherent(s) && Coherent(other) && s.db == other.db
    ensures Exec(s, req).ok == Exec(other, req).ok
    ensures Exec(s, req).state.db == Exec(other, req).state.db
  {
    if req.Plain? {
      assert other == s.(cache := other.cache);
      DoIgnoresCache(s, other.cache, req.op);
    } else {
      AuthorityIgnoresCache(s, other, req.actor, req.tenant);
      CarryOutIgnoresCache(AfterRead(s, req.actor, req.tenant), AfterRead(other, req.actor, req.tenant), req.tenant,
                           Decide(s.db, req, AuthorityOf(s, req.actor, req.tenant)));
    }
  }

  /** The same requests served by a system that never caches. */
  ghost function UncachedRun(db: Db, reqs: seq<Request>): Db
    decreases |reqs|
  {
    if reqs == [] then db else UncachedRun(Exec(State(db, map[]), reqs[0]).state.db, reqs[1..])
  }

  /** Refinement: with the cache every request is decided, and changes the database, exactly as without it. */
  lemma {:induction false} CachedRunRefinesUncached(s: State, reqs: seq<Request>)
    requires Good(s) && TenantRun(s, reqs)
    ensures Run(s, reqs).db == UncachedRun(s.db, reqs)
    decreases |reqs|
  {
    if reqs != [] {
      RequestKeeps(s, reqs[0]);
      RequestIgnoresCache(s, State(s.db, map[]), reqs[0]);
      CachedRunRefinesUncached(Exec(s, reqs[0]).state, reqs[1..]);
    }
  }
}
