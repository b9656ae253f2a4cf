/** Role names as seen by one tenant stay distinct, so that looking a role up by name is looking it up by identity. */
module RoleNames {
  import opened Listing
  import opened Model
  import opened Steps
  import opened Isolation
  import opened Requests
  import opened Runs
  import opened MemberAccess
  import opened RoleEdits

  /** Some tenant sees both roles. */
  predicate SeenTogether(db: Db, a: RoleId, b: RoleId)
    requires a in db.roles && b in db.roles
  {
    db.roles[a].tenant == None || db.roles[b].tenant == None || db.roles[a].tenant == db.roles[b].tenant
  }

  /** The names each tenant sees, its own and the platform's, are pairwise distinct ignoring case. */
  ghost predicate NamesDistinct(db: Db)
  {
    forall a, b :: a in db.roles && b in db.roles && a != b && SeenTogether(db, a, b)
      ==> Lower(db.roles[a].name) != Lower(db.roles[b].name)
  }

  /** Requests of the access-management service, and every plain operation that neither creates nor renames a role. */
  predicate ChecksNames(req: Request)
  {
    req.Plain? ==> !req.op.CreateRole? && !req.op.RenameRole?
  }

  /** No role appears, and none changes its tenant or name. */
  ghost predicate NoNewNames(a: Db, b: Db)
  {
    forall r :: r in b.roles ==> r in a.roles && b.roles[r].tenant == a.roles[r].tenant && b.roles[r].name == a.roles[r].name
  }

  lemma NoNewNamesStayDistinct(a: Db, b: Db)
    requires NamesDistinct(a) && NoNewNames(a, b)
    ensures NamesDistinct(b)
  {
    forall x, y | x in b.roles && y in b.roles && x != y && SeenTogether(b, x, y) ensures Lower(b.roles[x].name) != Lower(b.roles[y].name) {
      assert SeenTogether(a, x, y);
    }
  }

  lemma OpKeepsRoles(s: State, op: Op)
    requires !IsRoleOp(op)
    ensures Do(s, op).state.db.roles == s.db.roles
  {
  }

  lemma PlainKeepsNames(s: State, op: Op)
    requires !op.CreateRole? && !op.RenameRole?
    ensures NoNewNames(s.db, Do(s, op).state.db)
  {
    if !IsRoleOp(op) { OpKeepsRoles(s, op); }
  }

  /** A free name can be taken. */
  lemma FreeNameStaysDistinct(db: Db, t: TenantId, r: RoleId, role: Role, except: Option<RoleId>)
    requires NamesDistinct(db) && role.tenant == Some(t) && NameIsFree(db, t, role.name, except)
    requires except.Some? ==> except.value == r
    requires r in db.roles ==> except == Some(r)
    ensures NamesDistinct(UpdateRole(db, r, role))
  {
    var after := UpdateRole(db, r, role);
    forall x, y | x in after.roles && y in after.roles && x != y && SeenTogether(after, x, y)
      ensures Lower(after.roles[x].name) != Lower(after.roles[y].name)
    {
      if x != r && y != r { assert SeenTogether(db, x, y); }
    }
  }

  lemma SameNameStaysDistinct(db: Db, r: RoleId, role: Role)
    requires NamesDistinct(db) && r in db.roles && role.tenant == db.roles[r].tenant && role.name == db.roles[r].name
    ensures NamesDistinct(UpdateRole(db, r, role))
  {
    NoNewNamesStayDistinct(db, UpdateRole(db, r, role));
  }

  lemma PlatformEditKeepsNames(s: State, req: Request)
    requires NamesDistinct(s.db) && req.RoleSave? && req.role.Some? && IsPlatformRole(s.db, req.role.value)
    ensures NamesDistinct(Exec(s, req).state.db)
  {
    PlatformRoleMeetsRequest(s, req);
    if Exec(s, req).ok { SameNameStaysDistinct(s.db, req.role.value, Exec(s, req).state.db.roles[req.role.value]); }
  }

  lemma RoleUpdateKeepsNames(s: State, req: Request)
    requires WellFormed(s.db) && NamesDistinct(s.db) && req.RoleSave? && req.role.Some? && !IsPlatformRole(s.db, req.role.value)
    ensures NamesDistinct(Exec(s, req).state.db)
  {
    var r := req.role.value;
    RoleUpdateMeetsRequest(s, req);
    if Exec(s, req).ok {
      var role := Role(Some(req.tenant), Strip(req.name), Elements(req.perms));
      if Strip(req.name) == s.db.roles[r].name {
        SameNameStaysDistinct(s.db, r, role);
      } else {
        FreeNameStaysDistinct(s.db, req.tenant, r, role, Some(r));
      }
    }
  }

  lemma RoleCreateKeepsNames(s: State, req: Request)
    requires WellFormed(s.db) && NamesDistinct(s.db) && req.RoleSave? && req.role.None?
    ensures NamesDistinct(Exec(s, req).state.db)
  {
    if IsFresh(s.db, req.newId) && req.tenant != "" && req.tenant != req.newId {
      RoleCreateMeetsRequest(s, req);
      if Exec(s, req).ok {
        var role := Role(Some(req.tenant), Strip(req.name), Elements(req.perms));
        FreeNameStaysDistinct(s.db, req.tenant, req.newId, role, None);
        NoNewNamesStayDistinct(UpdateRole(s.db, req.newId, role), Exec(s, req).state.db);
      }
    } else {
      SinglePlan(AfterRead(s, req.actor, req.tenant), CreateRole(req.tenant, req.newId, Strip(req.name), Dedup(req.perms), None));
    }
  }

  lemma RoleSaveKeepsNames(s: State, req: Request)
    requires Sound(s.db) && NamesDistinct(s.db) && req.RoleSave?
    ensures NamesDistinct(Exec(s, req).state.db)
  {
    if req.role.None? {
      RoleCreateKeepsNames(s, req);
    } else if IsPlatformRole(s.db, req.role.value) {
      PlatformEditKeepsNames(s, req);
    } else {
      RoleUpdateKeepsNames(s, req);
    }
  }

  lemma RemovalKeepsNames(s: State, req: Request)
    requires NamesDistinct(s.db) && req.MemberRemove?
    ensures NamesDistinct(Exec(s, req).state.db)
  {
    SinglePlan(AfterRead(s, req.actor, req.tenant), RemoveMember(req.user, req.tenant));
    NoNewNamesStayDistinct(s.db, Exec(s, req).state.db);
  }

  lemma RequestKeepsNames(s: State, req: Request)
    requires Sound(s.db) && NamesDistinct(s.db) && ChecksNames(req)
    ensures NamesDistinct(Exec(s, req).state.db)
  {
    if req.Plain? {
      PlainKeepsNames(s, req.op);
      NoNewNamesStayDistinct(s.db, Exec(s, req).state.db);
    } else if req.RoleSave? {
      RoleSaveKeepsNames(s, req);
    } else if req.MemberSave? {
      MemberSaveOutcome(s, req);
      NoNewNamesStayDistinct(s.db, Exec(s, req).state.db);
    } else if req.MemberRemove? {
      RemovalKeepsNames(s, req);
    } else {
      RoleDeleteOutcome(s, req);
      NoNewNamesStayDistinct(s.db, Exec(s, req).state.db);
    }
  }

  /** Over every run of name-checking requests, edits of platform roles included, the visible names stay distinct. */
  lemma {:induction false} RunKeepsNames(s: State, reqs: seq<Request>)
    requires Sound(s.db) && NamesDistinct(s.db) && forall req :: req in reqs ==> ChecksNames(req)
    ensures Sound(Run(s, reqs).db) && NamesDistinct(Run(s, reqs).db)
    decreases |reqs|
  {
    if reqs != [] {
      RequestKeepsNames(s, reqs[0]);
      RequestStaysSound(s, reqs[0]);
      RunKeepsNames(Exec(s, reqs[0]).state, reqs[1..]);
    }
  }

  // ---- Platform roles persist ----

  lemma OpKeepsPlatformRole(s: State, op: Op, g: RoleId, name: string)
    requires WellFormed(s.db) && IsGlobalNamed(s.db, g, name)
    ensures IsGlobalNamed(Do(s, op).state.db, g, name)
  {
    if IsRoleOp(op) {
      RoleOpKeepsPlatformRole(s, op, g, name);
    } else {
      OpKeepsRoles(s, op);
    }
  }

  lemma RoleOpKeepsPlatformRole(s: State, op: Op, g: RoleId, name: string)
    requires WellFormed(s.db) && IsRoleOp(op) && IsGlobalNamed(s.db, g, name)
    ensures IsGlobalNamed(Do(s, op).state.db, g, name)
  {
  }

  lemma {:induction false} PlanKeepsPlatformRole(s: State, plan: seq<Op>, g: RoleId, name: string)
    requires Sound(s.db) && IsGlobalNamed(s.db, g, name)
    ensures IsGlobalNamed(RunPlan(s, plan).state.db, g, name)
    decreases |plan|
  {
    if plan != [] {
      OpKeepsPlatformRole(s, plan[0], g, name);
      StaysSound(s, plan[0]);
      PlanKeepsPlatformRole(Do(s, plan[0]).state, plan[1..], g, name);
    }
  }

  lemma CarryOutKeepsPlatformRole(s: State, t: TenantId, decision: Decision, g: RoleId, name: string)
    requires Sound(s.db) && IsGlobalNamed(s.db, g, name)
    ensures IsGlobalNamed(CarryOut(s, t, decision).state.db, g, name)
  {
    if decision.Perform? { PlanKeepsPlatformRole(s, decision.plan, g, name); }
  }

  /** No request deletes or renames a platform role. */
  lemma {:induction false} RunKeepsPlatformRoles(s: State, reqs: seq<Request>, g: RoleId, name: string)
    requires Sound(s.db) && IsGlobalNamed(s.db, g, name)
    ensures IsGlobalNamed(Run(s, reqs).db, g, name)
    decreases |reqs|
  {
    if reqs != [] {
      var req := reqs[0];
      RequestStaysSound(s, req);
      if req.Plain? {
        OpKeepsPlatformRole(s, req.op, g, name);
      } else {
        CarryOutKeepsPlatformRole(AfterRead(s, req.actor, req.tenant), req.tenant, Decide(s.db, req, AuthorityOf(s, req.actor, req.tenant)), g, name);
      }
      RunKeepsPlatformRoles(Exec(s, req).state, reqs[1..], g, name);
    }
  }

  /** `tenant_admin` is among a member's role names exactly when the member holds the global role of that name. */
  lemma TenantAdminByNameIsByIdentity(s: State, reqs: seq<Request>, u: UserId, t: TenantId, g: RoleId)
    requires Sound(s.db) && NamesDistinct(s.db) && forall req :: req in reqs ==> ChecksNames(req)
    requires IsGlobalNamed(s.db, g, TENANT_ADMIN_ROLE)
    ensures IsGlobalNamed(Run(s, reqs).db, g, TENANT_ADMIN_ROLE)
    ensures HoldsNamed(Run(s, reqs).db, u, t, TENANT_ADMIN_ROLE) <==> RefersTo(Run(s, reqs).db, u, t, g)
  {
    RunKeepsNames(s, reqs);
    RunKeepsPlatformRoles(s, reqs, g, TENANT_ADMIN_ROLE);
    var db := Run(s, reqs).db;
    if HoldsNamed(db, u, t, TENANT_ADMIN_ROLE) {
      var r :| RefersTo(db, u, t, r) && r in db.roles && db.roles[r].name == TENANT_ADMIN_ROLE;
      assert SeenTogether(db, r, g);
    }
  }
}
