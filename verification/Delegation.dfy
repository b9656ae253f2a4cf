/**
 * What tenants can hand out. Runs of requests are interleaved with plugin declarations and unloads; every
 * permission that ends up in a tenant's hands was delegable when it was added, and `admin:*` never is.
 */
module Delegation {
  import opened Model
  import opened Steps
  import opened Isolation
  import opened Requests
  import opened Runs
  import opened Grants
  import opened Seed

  /** A platform role other than the one tenants may hand out. */
  predicate IsReservedRole(db: Db, r: RoleId)
  {
    IsPlatformRole(db, r) && db.roles[r].name != TENANT_ADMIN_ROLE
  }

  /** No invitation offers a reserved role. */
  ghost predicate InvitesOfferNoReserved(db: Db)
  {
    forall i :: i in db.invites && db.invites[i].role.Some? ==> !IsReservedRole(db, db.invites[i].role.value)
  }

  /** Permission `n` of role `r` was there before. */
  predicate HadPerm(db: Db, r: RoleId, n: PermName)
  {
    r in db.roles && db.roles[r].tenant.Some? && n in db.roles[r].perms
  }

  /** Nothing went from `a` to `b` but what was delegable in `a`. */
  ghost predicate PermsConfined(a: Db, b: Db)
  {
    && (forall row :: row in b.permRows ==> row in a.permRows || Delegable(a, row.perm))
    && (forall r, n :: HadPerm(b, r, n) ==> HadPerm(a, r, n) || Delegable(a, n))
  }

  /** Platform roles neither appear, nor change their name, nor gain `admin:*`. */
  ghost predicate PlatformRolesStable(a: Db, b: Db)
  {
    forall r :: IsPlatformRole(b, r) ==>
      && IsPlatformRole(a, r)
      && b.roles[r].name == a.roles[r].name
      && (PLATFORM_ADMIN in b.roles[r].perms ==> PLATFORM_ADMIN in a.roles[r].perms)
  }

  /** Nobody newly holds a reserved role. */
  ghost predicate ReservedRolesKept(a: Db, b: Db)
  {
    && (forall u, t, r :: RefersTo(b, u, t, r) && IsReservedRole(b, r) ==> RefersTo(a, u, t, r))
    && InvitesOfferNoReserved(b)
  }

  ghost predicate Confined(a: Db, b: Db)
  {
    PermsConfined(a, b) && PlatformRolesStable(a, b) && ReservedRolesKept(a, b)
  }

  // ---- One operation ----

  lemma MemberOpConfined(s: State, op: Op)
    requires IsMemberOp(op) && InvitesOfferNoReserved(s.db)
    ensures Confined(s.db, Do(s, op).state.db)
  {
    if op.GrantPerm? || op.RevokePerm? {
      PermRowsConfined(s.db, Do(s, op).state.db);
    } else if op.AddRole? || op.RemoveRole? {
      RoleRowsConfined(s, op);
    } else {
      MembershipConfined(s, op);
    }
  }

  lemma PermRowsConfined(a: Db, b: Db)
    requires InvitesOfferNoReserved(a) && b == a.(permRows := b.permRows)
    requires forall row :: row in b.permRows ==> row in a.permRows || Delegable(a, row.perm)
    ensures Confined(a, b)
  {
  }

  lemma RoleRowsConfined(s: State, op: Op)
    requires (op.AddRole? || op.RemoveRole?) && InvitesOfferNoReserved(s.db)
    ensures Confined(s.db, Do(s, op).state.db)
  {
  }

  lemma MembershipConfined(s: State, op: Op)
    requires (op.AssignPrimary? || op.ClearPrimary? || op.SetStatus? || op.RemoveMember?) && InvitesOfferNoReserved(s.db)
    ensures Confined(s.db, Do(s, op).state.db)
  {
  }

  lemma DeleteRoleConfined(s: State, t: TenantId, r: RoleId)
    requires InvitesOfferNoReserved(s.db)
    ensures Confined(s.db, DoDeleteRole(s, t, r).state.db)
  {
  }

  lemma RoleUpdateConfined(db: Db, r: RoleId, role: Role)
    requires InvitesOfferNoReserved(db) && r in db.roles
    requires db.roles[r].tenant.Some? && role.tenant == db.roles[r].tenant
    requires forall n :: n in role.perms ==> n in db.roles[r].perms || Delegable(db, n)
    ensures Confined(db, UpdateRole(db, r, role))
  {
  }

  lemma CreateRoleConfined(s: State, op: Op)
    requires op.CreateRole? && Sound(s.db) && InvitesOfferNoReserved(s.db)
    ensures Confined(s.db, Do(s, op).state.db)
  {
  }

  lemma RoleOpConfined(s: State, op: Op)
    requires IsRoleOp(op) && Sound(s.db) && InvitesOfferNoReserved(s.db)
    ensures Confined(s.db, Do(s, op).state.db)
  {
    if op.DeleteRole? {
      DeleteRoleConfined(s, op.tenant, op.role);
    } else if op.CreateRole? {
      CreateRoleConfined(s, op);
    } else if Owned(s.db, op.tenant, op.role) {
      RoleUpdateConfined(s.db, op.role, Do(s, op).state.db.roles[op.role]);
    }
  }

  lemma ConsumeConfined(s: State, i: InviteId, u: UserId, now: int)
    requires i in s.db.invites && InvitesOfferNoReserved(s.db)
    ensures Confined(s.db, Consume(s, i, u, now).db)
  {
  }

  lemma OtherOpConfined(s: State, op: Op)
    requires !IsMemberOp(op) && !IsRoleOp(op) && !op.AcceptInvite? && !op.JoinByInvite? && InvitesOfferNoReserved(s.db)
    ensures Confined(s.db, Do(s, op).state.db)
  {
  }

  lemma OpKeepsCatalogue(s: State, op: Op)
    ensures Do(s, op).state.db.catalogue == s.db.catalogue
  {
  }

  lemma OpConfined(s: State, op: Op)
    requires Sound(s.db) && InvitesOfferNoReserved(s.db)
    ensures Confined(s.db, Do(s, op).state.db)
    ensures Do(s, op).state.db.catalogue == s.db.catalogue
  {
    OpKeepsCatalogue(s, op);
    if IsMemberOp(op) {
      MemberOpConfined(s, op);
    } else if IsRoleOp(op) {
      RoleOpConfined(s, op);
    } else if op.AcceptInvite? || op.JoinByInvite? {
      if op.invite in s.db.invites { ConsumeConfined(s, op.invite, op.user, op.now); }
    } else {
      OtherOpConfined(s, op);
    }
  }

  // ---- Plans and requests ----

  lemma ConfinedTransitive(a: Db, b: Db, c: Db)
    requires Confined(a, b) && Confined(b, c) && a.catalogue == b.catalogue
    ensures Confined(a, c)
  {
    forall u, t, r | RefersTo(c, u, t, r) && IsReservedRole(c, r) ensures RefersTo(a, u, t, r) {
      assert RefersTo(b, u, t, r);
    }
  }

  lemma {:induction false} PlanConfined(s: State, plan: seq<Op>)
    requires Sound(s.db) && InvitesOfferNoReserved(s.db)
    ensures Confined(s.db, RunPlan(s, plan).state.db)
    ensures RunPlan(s, plan).state.db.catalogue == s.db.catalogue
    decreases |plan|
  {
    if plan != [] {
      var next := Do(s, plan[0]).state;
      OpConfined(s, plan[0]);
      StaysSound(s, plan[0]);
      PlanConfined(next, plan[1..]);
      if Do(s, plan[0]).ok { ConfinedTransitive(s.db, next.db, RunPlan(next, plan[1..]).state.db); }
    }
  }

  lemma CarryOutConfined(s: State, t: TenantId, decision: Decision)
    requires Sound(s.db) && InvitesOfferNoReserved(s.db) && !decision.EditPlatformRole?
    ensures Confined(s.db, CarryOut(s, t, decision).state.db)
    ensures CarryOut(s, t, decision).state.db.catalogue == s.db.catalogue
  {
    if decision.Perform? { PlanConfined(s, decision.plan); }
  }

  lemma RequestConfined(s: State, req: Request)
    requires Sound(s.db) && InvitesOfferNoReserved(s.db) && TenantLevel(s.db, req)
    ensures Confined(s.db, Exec(s, req).state.db)
    ensures Exec(s, req).state.db.catalogue == s.db.catalogue
  {
    if req.Plain? {
      OpConfined(s, req.op);
    } else {
      var who := AuthorityOf(s, req.actor, req.tenant);
      DecisionInTenant(s.db, req, who);
      CarryOutConfined(AfterRead(s, req.actor, req.tenant), req.tenant, Decide(s.db, req, who));
    }
  }

  // ---- Runs interleaved with plugin events ----

  datatype Event =
    | Handle(req: Request)
    | Declares(d: Declaration, adminRole: string)
    | Unloads(plugin: string)

  /** Plugin events do not touch the permission cache. */
  ghost function After(s: State, e: Event): State
  {
    match e
    case Handle(req) => Exec(s, req).state
    case Declares(d, adminRole) => s.(db := Declare(s.db, d, adminRole))
    case Unloads(plugin) => s.(db := Unload(s.db, plugin))
  }

  lemma FurnishedStaysSound(db: Db, cat: map<PermName, Permission>, roles: map<RoleId, Role>)
    requires Sound(db) && db.catalogue.Keys <= cat.Keys && roles.Keys == db.roles.Keys
    requires forall r :: r in roles ==> roles[r].tenant == db.roles[r].tenant && roles[r].perms <= cat.Keys
    ensures Sound(db.(catalogue := cat, roles := roles))
  {
  }

  lemma DeclareStaysSound(db: Db, d: Declaration, adminRole: string)
    requires Sound(db)
    ensures Sound(Declare(db, d, adminRole))
  {
    FurnishedStaysSound(db, Declared(db, d, adminRole).catalogue, Declared(db, d, adminRole).roles);
  }

  lemma UnloadStaysSound(db: Db, plugin: string)
    requires Sound(db)
    ensures Sound(Unload(db, plugin))
  {
  }

  lemma PluginEventConfined(s: State, e: Event)
    requires !e.Handle? && InvitesOfferNoReserved(s.db)
    ensures Confined(s.db, After(s, e).db)
  {
    if e.Declares? { DesiredSparesAdmin(e.d); }
  }

  lemma EventConfined(s: State, e: Event)
    requires Sound(s.db) && InvitesOfferNoReserved(s.db)
    requires e.Handle? ==> TenantLevel(s.db, e.req)
    ensures Confined(s.db, After(s, e).db) && Sound(After(s, e).db)
  {
    match e
    case Handle(req) =>
      RequestStaysSound(s, req);
      RequestConfined(s, req);
    case Declares(d, adminRole) =>
      DeclareStaysSound(s.db, d, adminRole);
      PluginEventConfined(s, e);
    case Unloads(plugin) =>
      UnloadStaysSound(s.db, plugin);
      PluginEventConfined(s, e);
  }

  ghost function RunEvents(s: State, es: seq<Event>): State
    decreases |es|
  {
    if es == [] then s else RunEvents(After(s, es[0]), es[1..])
  }

  ghost predicate TenantEvents(s: State, es: seq<Event>)
    decreases |es|
  {
    es == [] || ((es[0].Handle? ==> TenantLevel(s.db, es[0].req)) && TenantEvents(After(s, es[0]), es[1..]))
  }

  /** Some event of the run adds this direct grant, and its permission was delegable just before that event. */
  ghost predicate GrantAddedDelegable(s: State, es: seq<Event>, row: PermRow)
    decreases |es|
  {
    es != [] &&
    ((row !in s.db.permRows && row in After(s, es[0]).db.permRows && Delegable(s.db, row.perm))
     || GrantAddedDelegable(After(s, es[0]), es[1..], row))
  }

  /** Some event of the run puts `n` into the organisation's role `r`, and `n` was delegable just before that event. */
  ghost predicate RolePermAddedDelegable(s: State, es: seq<Event>, r: RoleId, n: PermName)
    decreases |es|
  {
    es != [] &&
    ((!HadPerm(s.db, r, n) && HadPerm(After(s, es[0]).db, r, n) && Delegable(s.db, n))
     || RolePermAddedDelegable(After(s, es[0]), es[1..], r, n))
  }

  /** Each event of the run, and not only its end, adds nothing but what was delegable just before it. */
  ghost predicate EachEventConfined(s: State, es: seq<Event>)
    decreases |es|
  {
    es == [] || (Confined(s.db, After(s, es[0]).db) && EachEventConfined(After(s, es[0]), es[1..]))
  }

  /** What the rest of a run ends with, and its first event brought or found, the whole run brought or found. */
  lemma GrantAddedFirst(s: State, es: seq<Event>, row: PermRow)
    requires es != [] && Confined(s.db, After(s, es[0]).db)
    requires row in After(s, es[0]).db.permRows || GrantAddedDelegable(After(s, es[0]), es[1..], row)
    ensures row in s.db.permRows || GrantAddedDelegable(s, es, row)
  {
  }

  lemma RolePermAddedFirst(s: State, es: seq<Event>, r: RoleId, n: PermName)
    requires es != [] && Confined(s.db, After(s, es[0]).db)
    requires HadPerm(After(s, es[0]).db, r, n) || RolePermAddedDelegable(After(s, es[0]), es[1..], r, n)
    ensures HadPerm(s.db, r, n) || RolePermAddedDelegable(s, es, r, n)
  {
  }

  lemma ReservedRolesStayKept(a: Db, b: Db, c: Db)
    requires Confined(a, b) && PlatformRolesStable(b, c) && ReservedRolesKept(b, c)
    ensures PlatformRolesStable(a, c) && ReservedRolesKept(a, c)
  {
    forall u, t, r | RefersTo(c, u, t, r) && IsReservedRole(c, r) ensures RefersTo(a, u, t, r) {
      assert RefersTo(b, u, t, r);
    }
  }

  /**
   * Delegation confinement: over any run, each event adds only what was delegable just before it. So whatever an
   * organisation's role carries and whatever is granted directly at the end was there at the start, or was added by an event
   * of the run at whose moment it was delegable; and nobody comes to hold a platform role other than `tenant_admin`.
   */
  lemma {:induction false} RunConfined(s: State, es: seq<Event>)
    requires Sound(s.db) && InvitesOfferNoReserved(s.db) && TenantEvents(s, es)
    ensures EachEventConfined(s, es)
    ensures forall row :: row in RunEvents(s, es).db.permRows ==> row in s.db.permRows || GrantAddedDelegable(s, es, row)
    ensures forall r, n :: HadPerm(RunEvents(s, es).db, r, n) ==> HadPerm(s.db, r, n) || RolePermAddedDelegable(s, es, r, n)
    ensures PlatformRolesStable(s.db, RunEvents(s, es).db) && ReservedRolesKept(s.db, RunEvents(s, es).db)
    ensures Sound(RunEvents(s, es).db)
    decreases |es|
  {
    if es != [] {
      var next := After(s, es[0]);
      EventConfined(s, es[0]);
      RunConfined(next, es[1..]);
      var last := RunEvents(next, es[1..]).db;
      ReservedRolesStayKept(s.db, next.db, last);
      forall row | row in last.permRows ensures row in s.db.permRows || GrantAddedDelegable(s, es, row) {
        GrantAddedFirst(s, es, row);
      }
      forall r, n | HadPerm(last, r, n) ensures HadPerm(s.db, r, n) || RolePermAddedDelegable(s, es, r, n) {
        RolePermAddedFirst(s, es, r, n);
      }
    }
  }

  // ---- `admin:*` ----

  /** `admin:*` is no plugin's, not delegable, in no organisation's role, in no `tenant_admin` role and granted to nobody directly. */
  ghost predicate AdminGuarded(db: Db)
  {
    && (PLATFORM_ADMIN in db.catalogue ==> !db.catalogue[PLATFORM_ADMIN].grantable && db.catalogue[PLATFORM_ADMIN].source == None)
    && (forall r :: r in db.roles && !IsReservedRole(db, r) ==> PLATFORM_ADMIN !in db.roles[r].perms)
    && (forall row :: row in db.permRows ==> row.perm != PLATFORM_ADMIN)
  }

  /** The built-in catalogue does not offer `admin:*` to organisations. */
  predicate KeepsAdminBack(defs: seq<PermDef>)
  {
    && DistinctDefs(defs)
    && (forall d :: d in defs && d.name == PLATFORM_ADMIN ==> !d.grantable)
  }

  lemma SeedKeepsAdminBack(cat: map<PermName, Permission>, defs: seq<PermDef>)
    requires KeepsAdminBack(defs)
    requires PLATFORM_ADMIN in cat ==> !cat[PLATFORM_ADMIN].grantable && cat[PLATFORM_ADMIN].source == None
    ensures var after := SeededCatalogue(cat, defs);
            PLATFORM_ADMIN in after ==> !after[PLATFORM_ADMIN].grantable && after[PLATFORM_ADMIN].source == None
  {
    SeededCatalogueMeaning(cat, defs);
    if PLATFORM_ADMIN in NamesOf(defs) {
      var d :| d in defs && d.name == PLATFORM_ADMIN;
      assert SeededCatalogue(cat, defs)[PLATFORM_ADMIN] == SeedOne(cat, d)[PLATFORM_ADMIN];
    }
  }

  /** Seeding, on an empty database or again on a guarded one, leaves `admin:*` guarded. */
  lemma SeedKeepsGuard(db: Db, defs: seq<PermDef>, names: SeedNames, ids: RoleIds)
    requires AdminGuarded(db) && KeepsAdminBack(defs) && Apart(ids) && names.admin != TENANT_ADMIN_ROLE
    ensures AdminGuarded(Seeded(db, defs, names, ids))
  {
    var after := Seeded(db, defs, names, ids);
    SeedKeepsAdminBack(db.catalogue, defs);
    forall r | r in after.roles && !IsReservedRole(after, r) ensures PLATFORM_ADMIN !in after.roles[r].perms {
      if r !in {ids.admin, ids.user, ids.owner} { assert r in db.roles && after.roles[r] == db.roles[r]; }
    }
  }

  lemma DesiredSparesAdmin(d: Declaration)
    ensures PLATFORM_ADMIN !in Desired(d.plugin, d.grants)
  {
    PlatformAdminIsNoGrant(d.plugin);
  }

  lemma ConfinedKeepsGuard(a: Db, b: Db)
    requires AdminGuarded(a) && Confined(a, b)
    requires PLATFORM_ADMIN in b.catalogue ==> !b.catalogue[PLATFORM_ADMIN].grantable && b.catalogue[PLATFORM_ADMIN].source == None
    ensures AdminGuarded(b)
  {
    assert !Delegable(a, PLATFORM_ADMIN);
    forall r | r in b.roles && !IsReservedRole(b, r) ensures PLATFORM_ADMIN !in b.roles[r].perms {
      assert HadPerm(b, r, PLATFORM_ADMIN) ==> HadPerm(a, r, PLATFORM_ADMIN);
      if b.roles[r].tenant.None? { assert IsPlatformRole(b, r); }
    }
  }

  lemma AdminStaysGuarded(s: State, e: Event)
    requires Sound(s.db) && InvitesOfferNoReserved(s.db) && AdminGuarded(s.db)
    requires e.Handle? ==> TenantLevel(s.db, e.req)
    ensures AdminGuarded(After(s, e).db)
  {
    EventConfined(s, e);
    if e.Handle? {
      RequestConfined(s, e.req);
    } else if e.Declares? {
      DesiredSparesAdmin(e.d);
    }
    ConfinedKeepsGuard(s.db, After(s, e).db);
  }

  /** At some moment of the run, tenants can delegate `n`. */
  ghost predicate EverDelegable(s: State, es: seq<Event>, n: PermName)
    decreases |es|
  {
    Delegable(s.db, n) || (es != [] && EverDelegable(After(s, es[0]), es[1..], n))
  }

  lemma {:induction false} RunKeepsAdminGuarded(s: State, es: seq<Event>)
    requires Sound(s.db) && InvitesOfferNoReserved(s.db) && TenantEvents(s, es) && AdminGuarded(s.db)
    ensures AdminGuarded(RunEvents(s, es).db)
    ensures !EverDelegable(s, es, PLATFORM_ADMIN)
    decreases |es|
  {
    if es != [] {
      EventConfined(s, es[0]);
      AdminStaysGuarded(s, es[0]);
      RunKeepsAdminGuarded(After(s, es[0]), es[1..]);
    }
  }

  /**
   * No escalation: whoever has `admin:*` after a run, in any tenant and scope, already referred at its start to a platform
   * role other than `tenant_admin`, and has the permission from that role.
   */
  lemma NoEscalation(s: State, es: seq<Event>, u: UserId, t: TenantId, q: Scope) returns (r: RoleId)
    requires Sound(s.db) && InvitesOfferNoReserved(s.db) && TenantEvents(s, es) && AdminGuarded(s.db)
    requires PLATFORM_ADMIN in Resolve(RunEvents(s, es).db, u, t, q)
    ensures RefersTo(s.db, u, t, r) && IsReservedRole(s.db, r)
    ensures GivesThrough(RunEvents(s, es).db, u, t, q, PLATFORM_ADMIN, r)
  {
    var last := RunEvents(s, es).db;
    RunConfined(s, es);
    RunKeepsAdminGuarded(s, es);
    assert GrantedByRole(last, u, t, q, PLATFORM_ADMIN);
    r :| GivesThrough(last, u, t, q, PLATFORM_ADMIN, r);
    HoldsRefers(last, u, t, r, q);
    assert IsReservedRole(last, r);
  }
}
