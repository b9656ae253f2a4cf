/**
 * Who may manage an organisation, and what the access-management requests do, said of the rows and of the declarative
 * resolution alone.
 */
module Managers {
  import opened Listing
  import opened Model
  import opened Steps
  import opened Coherence
  import opened Requests
  import opened Runs
  import opened MemberAccess
  import opened RoleEdits
  import opened Returning
  import opened Conditions

  /** A member with `admin:*` among the effective permissions. */
  ghost predicate IsPlatformAdmin(db: Db, u: UserId, t: TenantId)
  {
    Key(u, t) in db.members && "admin:*" in Resolve(db, u, t, GLOBAL)
  }

  /** A member who owns the organisation, is a platform administrator, or refers to a role called `tenant_admin`. */
  ghost predicate MayManage(db: Db, u: UserId, t: TenantId)
  {
    && Key(u, t) in db.members
    && (|| db.members[Key(u, t)].owner
        || IsPlatformAdmin(db, u, t)
        || exists r :: RefersTo(db, u, t, r) && r in db.roles && db.roles[r].name == "tenant_admin")
  }

  /** The acting user is judged by the tables, whatever a coherent cache holds. */
  lemma JudgedByTables(s: State, actor: UserId, t: TenantId)
    requires Coherent(s)
    ensures AuthorityOf(s, actor, t).Manages() <==> MayManage(s.db, actor, t)
    ensures AuthorityOf(s, actor, t).platformAdmin <==> IsPlatformAdmin(s.db, actor, t)
  {
    CachedIsUncached(s, actor, t);
    var list := ReadList(s, actor, t);
    assert PLATFORM_ADMIN in list <==> PLATFORM_ADMIN in Elements(list);
    if Key(actor, t) in s.db.members { assert Elements(list) == Resolve(s.db, actor, t, GLOBAL); }
  }

  // ---- Nobody else acts ----

  /** A request that goes through was made by a manager; any other leaves all tables as they were. */
  lemma OnlyManagersAct(s: State, req: Request)
    requires Coherent(s) && !req.Plain? && !MayManage(s.db, req.actor, req.tenant)
    ensures !Exec(s, req).ok && Exec(s, req).state.db == s.db
    ensures Coherent(Exec(s, req).state)
  {
    JudgedByTables(s, req.actor, req.tenant);
    assert Decide(s.db, req, AuthorityOf(s, req.actor, req.tenant)) == Deny;
    StaysCoherentOnRead(s, req.actor, req.tenant);
  }

  lemma StaysCoherentOnRead(s: State, u: UserId, t: TenantId)
    requires Coherent(s)
    ensures Coherent(AfterRead(s, u, t))
  {
  }

  /** Requests of people who manage nothing. */
  ghost predicate Powerless(db: Db, req: Request)
  {
    !req.Plain? && !MayManage(db, req.actor, req.tenant)
  }

  /** A run of requests of people who manage nothing changes no table, however long. */
  lemma {:induction false} PowerlessRunChangesNothing(s: State, reqs: seq<Request>)
    requires Coherent(s) && forall req :: req in reqs ==> Powerless(s.db, req)
    ensures Run(s, reqs).db == s.db && Coherent(Run(s, reqs))
    decreases |reqs|
  {
    if reqs != [] {
      assert Powerless(s.db, reqs[0]);
      OnlyManagersAct(s, reqs[0]);
      PowerlessRunChangesNothing(Exec(s, reqs[0]).state, reqs[1..]);
    }
  }

  // ---- member_remove ----

  /** A manager removes any member but the owner and themselves; exactly that membership goes. */
  lemma MemberRemoveExactly(s: State, req: Request)
    requires Coherent(s) && req.MemberRemove?
    ensures Exec(s, req).ok <==>
              && MayManage(s.db, req.actor, req.tenant) && req.user != req.actor
              && Key(req.user, req.tenant) in s.db.members && !s.db.members[Key(req.user, req.tenant)].owner
    ensures Exec(s, req).state.db ==
              if Exec(s, req).ok then s.db.(members := s.db.members - {Key(req.user, req.tenant)}) else s.db
  {
    JudgedByTables(s, req.actor, req.tenant);
    RemovalIs(AfterRead(s, req.actor, req.tenant), req, AuthorityOf(s, req.actor, req.tenant));
  }

  lemma RemovalIs(s: State, req: Request, who: Authority)
    requires req.MemberRemove?
    ensures var k, out := Key(req.user, req.tenant), CarryOut(s, req.tenant, Decide(s.db, req, who));
            && (out.ok <==> who.Manages() && k in s.db.members && !s.db.members[k].owner && req.user != req.actor)
            && out.state.db == if out.ok then s.db.(members := s.db.members - {k}) else s.db
  {
    SinglePlan(s, RemoveMember(req.user, req.tenant));
  }

  // ---- role_delete ----

  /** A manager deletes an own role that nobody refers to in the organisation, unless an invitation stands in the way. */
  lemma RoleDeleteExactly(s: State, req: Request)
    requires Good(s) && req.RoleDelete?
    ensures Exec(s, req).ok <==>
              && MayManage(s.db, req.actor, req.tenant)
              && req.roleId in s.db.roles && s.db.roles[req.roleId].tenant == Some(req.tenant)
              && (forall u :: !RefersTo(s.db, u, req.tenant, req.roleId))
              && (s.db.enforcesForeignKeys ==> forall i :: i in s.db.invites ==> s.db.invites[i].role != Some(req.roleId))
  {
    JudgedByTables(s, req.actor, req.tenant);
    RoleDeleteOutcome(s, req);
    UnheldExactly(s.db, req.tenant, req.roleId);
  }

  // ---- role_save ----

  /** No role that the tenant sees, but for `except`, carries this name in any case. */
  predicate NobodyNamed(db: Db, t: TenantId, name: string, except: Option<RoleId>)
  {
    forall r :: r in db.roles && (db.roles[r].tenant == None || db.roles[r].tenant == Some(t)) && except != Some(r)
      ==> !SameButCase(db.roles[r].name, name)
  }

  lemma FreeIsNobodyNamed(db: Db, t: TenantId, name: string, except: Option<RoleId>)
    ensures NameIsFree(db, t, name, except) <==> NobodyNamed(db, t, name, except)
  {
    forall r | r in db.roles ensures Lower(db.roles[r].name) == Lower(name) <==> SameButCase(db.roles[r].name, name) {
      LowerIdentifies(db.roles[r].name, name);
    }
  }

  /** Name and description as they must be: 1 to 100 and at most 500 characters between the white space around them. */
  predicate Presentable(req: Request)
    requires req.RoleSave?
  {
    1 <= |Strip(req.name)| <= 100 && (req.desc.Some? ==> |Strip(req.desc.value)| <= 500)
  }

  lemma RoleCreateExactly(s: State, req: Request)
    requires Good(s) && req.RoleSave? && req.role.None?
    requires IsFresh(s.db, req.newId) && req.tenant != "" && req.tenant != req.newId
    ensures Exec(s, req).ok <==>
              && MayManage(s.db, req.actor, req.tenant) && Presentable(req)
              && (forall n :: n in req.perms ==> MayHandOut(s.db, n, None))
              && NobodyNamed(s.db, req.tenant, Strip(req.name), None)
  {
    JudgedByTables(s, req.actor, req.tenant);
    RoleCreateMeetsRequest(s, req);
    FreeIsNobodyNamed(s.db, req.tenant, Strip(req.name), None);
    assert forall n :: Delegable(s.db, n) <==> MayHandOut(s.db, n, None);
  }

  lemma RoleUpdateExactly(s: State, req: Request)
    requires Good(s) && req.RoleSave? && req.role.Some? && !(req.role.value in s.db.roles && s.db.roles[req.role.value].tenant == None)
    ensures Exec(s, req).ok <==>
              && MayManage(s.db, req.actor, req.tenant) && Presentable(req)
              && req.role.value in s.db.roles && s.db.roles[req.role.value].tenant == Some(req.tenant)
              && (forall n :: n in req.perms ==> MayHandOut(s.db, n, None))
              && (Strip(req.name) == s.db.roles[req.role.value].name || NobodyNamed(s.db, req.tenant, Strip(req.name), req.role))
  {
    JudgedByTables(s, req.actor, req.tenant);
    RoleUpdateMeetsRequest(s, req);
    FreeIsNobodyNamed(s.db, req.tenant, Strip(req.name), req.role);
    assert forall n :: Delegable(s.db, n) <==> MayHandOut(s.db, n, None);
  }

  lemma PlatformEditExactly(s: State, req: Request)
    requires Coherent(s) && req.RoleSave? && req.role.Some? && req.role.value in s.db.roles && s.db.roles[req.role.value].tenant == None
    ensures Exec(s, req).ok <==>
              && IsPlatformAdmin(s.db, req.actor, req.tenant) && Presentable(req)
              && Strip(req.name) == s.db.roles[req.role.value].name
              && (forall n :: n in req.perms ==> n in s.db.catalogue && s.db.catalogue[n].active)
  {
    JudgedByTables(s, req.actor, req.tenant);
    PlatformRoleMeetsRequest(s, req);
  }

  /** An edit of a platform role clears the cache of the asking organisation's members, and of nobody else. */
  lemma PlatformEditEvicts(s: State, req: Request, k: Key)
    requires req.RoleSave? && req.role.Some? && IsPlatformRole(s.db, req.role.value) && Exec(s, req).ok
    ensures k in s.db.members && k.tenant == req.tenant ==> k !in Exec(s, req).state.cache
    ensures k in s.cache && !(k in s.db.members && k.tenant == req.tenant) ==>
              k in Exec(s, req).state.cache && Exec(s, req).state.cache[k] == s.cache[k]
  {
  }

  // ---- member_save ----

  /** The requested primary role; the empty identifier asks for none. */
  function AskedPrimary(req: Request): Option<RoleId>
    requires req.MemberSave?
  {
    if req.primary == Some("") then None else req.primary
  }

  /** `r` is asked for as a further role. */
  predicate AskedExtra(req: Request, r: RoleId)
    requires req.MemberSave?
  {
    r in req.roles && AskedPrimary(req) != Some(r)
  }

  /** `r` is shown as a further role of the member: by a global row, and not as primary role. */
  predicate ShownExtra(db: Db, u: UserId, t: TenantId, r: RoleId)
  {
    RoleRow(u, t, r, GLOBAL) in db.roleRows && !(Key(u, t) in db.members && db.members[Key(u, t)].role == Some(r))
  }

  /** The request asks for another status than the member's record shows. */
  predicate AsksNewStatus(db: Db, req: Request)
    requires req.MemberSave? && Key(req.user, req.tenant) in db.members
  {
    var shown := db.members[Key(req.user, req.tenant)].enabled && (req.user in db.accounts ==> db.accounts[req.user].active);
    req.active.Some? && req.active.value != shown
  }

  /** The owner and oneself are not disabled; and one's own access is neither changed nor taken, but by the platform administrator. */
  ghost predicate Considerate(db: Db, req: Request)
    requires req.MemberSave? && Key(req.user, req.tenant) in db.members
  {
    var m := db.members[Key(req.user, req.tenant)];
    && (AsksNewStatus(db, req) ==> !m.owner && req.user != req.actor)
    && (req.user == req.actor && !IsPlatformAdmin(db, req.actor, req.tenant) ==>
          && AskedPrimary(req) == m.role
          && (forall r :: ShownExtra(db, req.user, req.tenant, r) ==> AskedExtra(req, r))
          && (forall n :: PermRow(req.user, req.tenant, n, GLOBAL) in db.permRows ==> n in req.perms))
  }

  /** What the member does not have yet may be handed out. */
  ghost predicate Affordable(db: Db, req: Request)
    requires req.MemberSave? && Key(req.user, req.tenant) in db.members
  {
    var u, t := req.user, req.tenant;
    && (AskedPrimary(req).Some? && AskedPrimary(req) != db.members[Key(u, t)].role ==> OwnOrTenantAdmin(db, t, AskedPrimary(req).value))
    && (forall r :: AskedExtra(req, r) && !ShownExtra(db, u, t, r) ==> OwnOrTenantAdmin(db, t, r))
    && (forall n :: n in req.perms && PermRow(u, t, n, GLOBAL) !in db.permRows ==> MayHandOut(db, n, None))
  }

  lemma ListedAreShown(db: Db, u: UserId, t: TenantId, r: RoleId)
    ensures r in ListedRoles(db, u, t) <==> ShownExtra(db, u, t, r)
  {
    RowsShowExtraRoles(db, u, t, r);
  }

  lemma DirectAreRows(db: Db, u: UserId, t: TenantId, n: PermName)
    ensures n in DirectPerms(db, u, t) <==> PermRow(u, t, n, GLOBAL) in db.permRows
  {
  }

  lemma WantedAreAsked(req: Request, r: RoleId)
    requires req.MemberSave?
    ensures r in Elements(WantedExtra(req)) <==> AskedExtra(req, r)
  {
  }

  lemma AllowedIsConsiderate(db: Db, req: Request)
    requires req.MemberSave? && Key(req.user, req.tenant) in db.members
    ensures MemberSaveAllowed(db, req, IsPlatformAdmin(db, req.actor, req.tenant)) <==> Considerate(db, req)
  {
    var u, t := req.user, req.tenant;
    forall r ensures r in DroppedRoles(db, req) <==> ShownExtra(db, u, t, r) && !AskedExtra(req, r) {
      ListedAreShown(db, u, t, r);
      WantedAreAsked(req, r);
    }
    forall n ensures n in DroppedPerms(db, req) <==> PermRow(u, t, n, GLOBAL) in db.permRows && n !in req.perms {
      DirectAreRows(db, u, t, n);
    }
  }

  lemma HandsOutIsAffordable(db: Db, req: Request)
    requires req.MemberSave? && Key(req.user, req.tenant) in db.members
    ensures HandsOutAllowed(db, req) <==> Affordable(db, req)
  {
    var u, t := req.user, req.tenant;
    forall r ensures r in AddedRoles(db, req) <==> AskedExtra(req, r) && !ShownExtra(db, u, t, r) {
      ListedAreShown(db, u, t, r);
      WantedAreAsked(req, r);
    }
    forall n ensures n in AddedPerms(db, req) <==> n in req.perms && PermRow(u, t, n, GLOBAL) !in db.permRows {
      DirectAreRows(db, u, t, n);
    }
    assert forall r :: Assignable(db, t, r) <==> OwnOrTenantAdmin(db, t, r);
    assert forall n :: Delegable(db, n) <==> MayHandOut(db, n, None);
  }

  /** A manager saves the access of a member, considerately, and within what the tenant may hand out. */
  lemma MemberSaveExactly(s: State, req: Request)
    requires Good(s) && req.MemberSave?
    ensures Exec(s, req).ok <==>
              && MayManage(s.db, req.actor, req.tenant)
              && Key(req.user, req.tenant) in s.db.members
              && Considerate(s.db, req) && Affordable(s.db, req)
  {
    JudgedByTables(s, req.actor, req.tenant);
    MemberSaveOutcome(s, req);
    if Key(req.user, req.tenant) in s.db.members {
      AllowedIsConsiderate(s.db, req);
      HandsOutIsAffordable(s.db, req);
    }
  }

  /** What it means that a member has what was asked for, row by row. */
  lemma AsRequestedMeans(db: Db, req: Request)
    requires req.MemberSave? && Key(req.user, req.tenant) in db.members
    ensures AsRequested(db, req) <==>
              var u, t, m := req.user, req.tenant, db.members[Key(req.user, req.tenant)];
              && m.role == AskedPrimary(req)
              && (forall r :: RoleRow(u, t, r, GLOBAL) in db.roleRows <==> AskedExtra(req, r))
              && (forall n :: PermRow(u, t, n, GLOBAL) in db.permRows <==> n in req.perms)
              && (req.active.Some? ==> m.enabled == req.active.value)
  {
    var u, t := req.user, req.tenant;
    forall r ensures (r in ExtraRoles(db, u, t) <==> RoleRow(u, t, r, GLOBAL) in db.roleRows)
                  && (r in Elements(WantedExtra(req)) <==> AskedExtra(req, r)) {
      RowsShowExtraRoles(db, u, t, r);
      WantedAreAsked(req, r);
    }
    forall n ensures n in DirectPerms(db, u, t) <==> PermRow(u, t, n, GLOBAL) in db.permRows {
      DirectAreRows(db, u, t, n);
    }
  }

  // ---- Owners and oneself ----

  /** The owner's membership survives a request, as owner, and neither enabled nor disabled. */
  ghost predicate OwnersKept(a: Db, b: Db)
  {
    forall k :: k in a.members && a.members[k].owner ==> k in b.members && b.members[k].owner && b.members[k].enabled == a.members[k].enabled
  }

  lemma SaveKeepsOwners(s: State, req: Request)
    requires Good(s) && req.MemberSave?
    ensures OwnersKept(s.db, Exec(s, req).state.db)
  {
    MemberSaveExactly(s, req);
    MemberSaveOutcome(s, req);
    if Exec(s, req).ok { SavedKeepsOwners(s.db, req); }
  }

  lemma SavedKeepsOwners(db: Db, req: Request)
    requires req.MemberSave? && Key(req.user, req.tenant) in db.members && Considerate(db, req)
    ensures OwnersKept(db, Saved(db, req))
  {
    SavedTouchesOnlyMember(db, req);
    StatusMoves(db, req);
  }

  /** The status moves only when asked to. */
  lemma StatusMoves(db: Db, req: Request)
    requires req.MemberSave? && Key(req.user, req.tenant) in db.members
    ensures var k := Key(req.user, req.tenant);
            && Saved(db, req).members[k].owner == db.members[k].owner
            && Saved(db, req).members[k].enabled == if AsksNewStatus(db, req) then req.active.value else db.members[k].enabled
  {
  }

  lemma RequestKeepsOwners(s: State, req: Request)
    requires Good(s) && !req.Plain?
    ensures OwnersKept(s.db, Exec(s, req).state.db)
  {
    match req
    case MemberSave(_, _, _, _, _, _, _) => SaveKeepsOwners(s, req);
    case MemberRemove(_, _, _) => RemovalKeepsOwners(s, req);
    case RoleSave(_, _, _, _, _, _, _) => RoleSaveKeepsTables(s, req);
    case RoleDelete(_, _, _) => DeletionKeepsOwners(s, req);
  }

  lemma RemovalKeepsOwners(s: State, req: Request)
    requires Good(s) && req.MemberRemove?
    ensures OwnersKept(s.db, Exec(s, req).state.db)
  {
    MemberRemoveExactly(s, req);
  }

  lemma DeletionKeepsOwners(s: State, req: Request)
    requires Good(s) && req.RoleDelete?
    ensures OwnersKept(s.db, Exec(s, req).state.db)
  {
    RoleDeleteOutcome(s, req);
  }

  /** Over any run of tenant-level access-management requests every owner stays owner, and nobody disables them. */
  lemma {:induction false} RunKeepsOwners(s: State, reqs: seq<Request>)
    requires Good(s) && TenantRun(s, reqs) && forall req :: req in reqs ==> !req.Plain?
    ensures OwnersKept(s.db, Run(s, reqs).db)
    decreases |reqs|
  {
    if reqs != [] {
      RequestKeepsOwners(s, reqs[0]);
      RequestKeeps(s, reqs[0]);
      RunKeepsOwners(Exec(s, reqs[0]).state, reqs[1..]);
    }
  }

  /** Who saves their own access, and is no platform administrator, loses no permission in any scope and stays enabled or not. */
  lemma OwnAccessIsKept(s: State, req: Request, q: Scope)
    requires Good(s) && req.MemberSave? && req.user == req.actor && !IsPlatformAdmin(s.db, req.actor, req.tenant)
    ensures Resolve(s.db, req.user, req.tenant, q) <= Resolve(Exec(s, req).state.db, req.user, req.tenant, q)
    ensures Exec(s, req).ok ==>
              Key(req.user, req.tenant) in Exec(s, req).state.db.members
              && Exec(s, req).state.db.members[Key(req.user, req.tenant)].enabled == s.db.members[Key(req.user, req.tenant)].enabled
  {
    MemberSaveExactly(s, req);
    MemberSaveOutcome(s, req);
    if Exec(s, req).ok {
      StatusMoves(s.db, req);
      KeptByOneself(s.db, req);
      MoreHoldsMore(s.db, Saved(s.db, req), req.user, req.tenant, q);
    }
  }

  lemma KeptByOneself(db: Db, req: Request)
    requires req.MemberSave? && Key(req.user, req.tenant) in db.members && Considerate(db, req)
    requires req.user == req.actor && !IsPlatformAdmin(db, req.actor, req.tenant)
    ensures var k, after := Key(req.user, req.tenant), Saved(db, req);
            && db.roleRows <= after.roleRows && db.permRows <= after.permRows && after.members[k].role == db.members[k].role
  {
    AllowedIsConsiderate(db, req);
    assert DroppedRoles(db, req) == {} && DroppedPerms(db, req) == {};
  }

  lemma MoreHoldsMore(a: Db, b: Db, u: UserId, t: TenantId, q: Scope)
    requires a.catalogue == b.catalogue && a.roles == b.roles && a.roleRows <= b.roleRows && a.permRows <= b.permRows
    requires Key(u, t) in a.members && Key(u, t) in b.members && a.members[Key(u, t)].role == b.members[Key(u, t)].role
    ensures Resolve(a, u, t, q) <= Resolve(b, u, t, q)
  {
    forall n | n in Resolve(a, u, t, q) ensures n in Resolve(b, u, t, q) {
      if GrantedByRole(a, u, t, q, n) {
        var r :| GivesThrough(a, u, t, q, n, r);
        assert GivesThrough(b, u, t, q, n, r);
      }
    }
  }

  // ---- A disabled membership ----

  /** Disabling a membership takes no permission from the member, in any scope, and not the right to manage either. */
  lemma DisablingTakesNothing(s: State, u: UserId, t: TenantId, enabled: bool, q: Scope)
    ensures Resolve(DoSetStatus(s, u, t, enabled).state.db, u, t, q) == Resolve(s.db, u, t, q)
    ensures MayManage(DoSetStatus(s, u, t, enabled).state.db, u, t) <==> MayManage(s.db, u, t)
  {
    var after := DoSetStatus(s, u, t, enabled).state.db;
    SameViewResolves(s.db, after, u, t, q);
    SameViewResolves(s.db, after, u, t, GLOBAL);
    assert forall r :: RefersTo(after, u, t, r) <==> RefersTo(s.db, u, t, r);
  }
}
