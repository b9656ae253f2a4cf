/** `role_save` reaches exactly the requested permission set, and `role_delete` takes nothing from anybody. */
module RoleEdits {
  import opened Listing
  import opened Model
  import opened Steps
  import opened Isolation
  import opened Requests
  import opened MemberAccess

  lemma TakingOne(s: State, t: TenantId, r: RoleId, n: PermName)
    requires Owned(s.db, t, r) && n in s.db.catalogue
    ensures DoRemovePermFromRole(s, t, r, n).ok
    ensures DoRemovePermFromRole(s, t, r, n).state.db == WithPerms(s.db, r, s.db.roles[r].perms - {n})
  {
  }

  lemma GivingOne(s: State, t: TenantId, r: RoleId, n: PermName)
    requires Owned(s.db, t, r) && Delegable(s.db, n)
    ensures DoAddPermToRole(s, t, r, n, None).ok
    ensures DoAddPermToRole(s, t, r, n, None).state.db == WithPerms(s.db, r, s.db.roles[r].perms + {n})
    ensures forall x :: Delegable(DoAddPermToRole(s, t, r, n, None).state.db, x) <==> Delegable(s.db, x)
  {
  }

  lemma WithPermsTwice(db: Db, r: RoleId, one: set<PermName>, two: set<PermName>)
    requires r in db.roles
    ensures WithPerms(WithPerms(db, r, one), r, two) == WithPerms(db, r, two)
  {
  }

  lemma {:induction false} TakingEffect(s: State, t: TenantId, r: RoleId, perms: seq<PermName>)
    requires Owned(s.db, t, r) && Elements(perms) <= s.db.catalogue.Keys
    ensures RunPlan(s, Taking(t, r, perms)).ok
    ensures RunPlan(s, Taking(t, r, perms)).state.db == WithPerms(s.db, r, s.db.roles[r].perms - Elements(perms))
    decreases |perms|
  {
    if perms == [] {
      assert s.db.roles[r].perms - Elements(perms) == s.db.roles[r].perms;
      assert s.db.roles[r := s.db.roles[r]] == s.db.roles;
    } else {
      assert perms[0] in Elements(perms);
      var first := DoRemovePermFromRole(s, t, r, perms[0]);
      TakingOne(s, t, r, perms[0]);
      assert Taking(t, r, perms)[1..] == Taking(t, r, perms[1..]);
      assert perms == [perms[0]] + perms[1..];
      ElementsOfConcat([perms[0]], perms[1..]);
      TakingEffect(first.state, t, r, perms[1..]);
      WithPermsTwice(s.db, r, s.db.roles[r].perms - {perms[0]}, s.db.roles[r].perms - {perms[0]} - Elements(perms[1..]));
      assert s.db.roles[r].perms - {perms[0]} - Elements(perms[1..]) == s.db.roles[r].perms - Elements(perms);
    }
  }

  lemma {:induction false} GivingEffect(s: State, t: TenantId, r: RoleId, perms: seq<PermName>)
    requires Owned(s.db, t, r) && forall n :: n in perms ==> Delegable(s.db, n)
    ensures RunPlan(s, Giving(t, r, perms)).ok
    ensures RunPlan(s, Giving(t, r, perms)).state.db == WithPerms(s.db, r, s.db.roles[r].perms + Elements(perms))
    decreases |perms|
  {
    if perms == [] {
      assert s.db.roles[r].perms + Elements(perms) == s.db.roles[r].perms;
      assert s.db.roles[r := s.db.roles[r]] == s.db.roles;
    } else {
      assert perms[0] in perms;
      var first := DoAddPermToRole(s, t, r, perms[0], None);
      assert Giving(t, r, perms)[1..] == Giving(t, r, perms[1..]);
      assert perms == [perms[0]] + perms[1..];
      ElementsOfConcat([perms[0]], perms[1..]);
      GivingOne(s, t, r, perms[0]);
      GivingEffect(first.state, t, r, perms[1..]);
      WithPermsTwice(s.db, r, s.db.roles[r].perms + {perms[0]}, s.db.roles[r].perms + {perms[0]} + Elements(perms[1..]));
      assert s.db.roles[r].perms + {perms[0]} + Elements(perms[1..]) == s.db.roles[r].perms + Elements(perms);
    }
  }

  lemma EditEffect(s: State, t: TenantId, r: RoleId, name: string, gone: seq<PermName>, added: seq<PermName>)
    requires Owned(s.db, t, r) && Elements(gone) <= s.db.catalogue.Keys && forall n :: n in added ==> Delegable(s.db, n)
    ensures RunPlan(s, ([RenameRole(t, r, name)] + Taking(t, r, gone)) + Giving(t, r, added)).ok
    ensures RunPlan(s, ([RenameRole(t, r, name)] + Taking(t, r, gone)) + Giving(t, r, added)).state.db
         == UpdateRole(s.db, r, Role(Some(t), name, s.db.roles[r].perms - Elements(gone) + Elements(added)))
  {
    var first := [RenameRole(t, r, name)] + Taking(t, r, gone);
    RenameAndTake(s, t, r, name, gone);
    PlanConcat(s, first, Giving(t, r, added));
    var s2 := RunPlan(s, first).state;
    assert forall n :: Delegable(s2.db, n) <==> Delegable(s.db, n);
    GivingEffect(s2, t, r, added);
  }

  lemma RenameAndTake(s: State, t: TenantId, r: RoleId, name: string, gone: seq<PermName>)
    requires Owned(s.db, t, r) && Elements(gone) <= s.db.catalogue.Keys
    ensures RunPlan(s, [RenameRole(t, r, name)] + Taking(t, r, gone)).ok
    ensures RunPlan(s, [RenameRole(t, r, name)] + Taking(t, r, gone)).state.db
         == UpdateRole(s.db, r, Role(Some(t), name, s.db.roles[r].perms - Elements(gone)))
  {
    PlanConcat(s, [RenameRole(t, r, name)], Taking(t, r, gone));
    SinglePlan(s, RenameRole(t, r, name));
    TakingEffect(DoRenameRole(s, t, r, name).state, t, r, gone);
  }

  lemma AddedDelegable(db: Db, perms: seq<PermName>, had: set<PermName>)
    requires AllDelegable(db, perms)
    ensures forall n :: n in Sorted(Elements(perms) - had) ==> Delegable(db, n)
  {
    var added := Sorted(Elements(perms) - had);
    forall n | n in added ensures Delegable(db, n) {
      assert n in Elements(added);
    }
  }

  lemma EditTo(s: State, t: TenantId, r: RoleId, name: string, perms: seq<PermName>, gone: seq<PermName>, added: seq<PermName>)
    requires WellFormed(s.db) && Owned(s.db, t, r) && forall n :: n in added ==> Delegable(s.db, n)
    requires Elements(gone) == s.db.roles[r].perms - Elements(perms) && Elements(added) == Elements(perms) - s.db.roles[r].perms
    ensures RunPlan(s, ([RenameRole(t, r, name)] + Taking(t, r, gone)) + Giving(t, r, added)).ok
    ensures RunPlan(s, ([RenameRole(t, r, name)] + Taking(t, r, gone)) + Giving(t, r, added)).state.db
         == UpdateRole(s.db, r, Role(Some(t), name, Elements(perms)))
  {
    var had := s.db.roles[r].perms;
    EditEffect(s, t, r, name, gone, added);
    assert had - (had - Elements(perms)) + (Elements(perms) - had) == Elements(perms);
  }

  lemma EditPlanEffect(s: State, t: TenantId, r: RoleId, name: string, perms: seq<PermName>)
    requires WellFormed(s.db) && Owned(s.db, t, r) && AllDelegable(s.db, perms)
    ensures RunPlan(s, EditPlan(s.db, t, r, name, perms)).ok
    ensures RunPlan(s, EditPlan(s.db, t, r, name, perms)).state.db == UpdateRole(s.db, r, Role(Some(t), name, Elements(perms)))
  {
    var had := s.db.roles[r].perms;
    var gone, added := Sorted(had - Elements(perms)), Sorted(Elements(perms) - had);
    AddedDelegable(s.db, perms, had);
    EditTo(s, t, r, name, perms, gone, added);
  }

  /** Updating an organisation's role: when it goes through, and exactly what it leaves. */
  lemma RoleUpdateMeetsRequest(s: State, req: Request)
    requires WellFormed(s.db) && req.RoleSave? && req.role.Some? && !IsPlatformRole(s.db, req.role.value)
    ensures Exec(s, req).ok <==>
              && AuthorityOf(s, req.actor, req.tenant).Manages()
              && CleanName(req.name) && CleanDescription(req.desc)
              && Owned(s.db, req.tenant, req.role.value)
              && AllDelegable(s.db, req.perms)
              && (Strip(req.name) != s.db.roles[req.role.value].name ==> NameIsFree(s.db, req.tenant, Strip(req.name), req.role))
    ensures Exec(s, req).state.db ==
              if Exec(s, req).ok then UpdateRole(s.db, req.role.value, Role(Some(req.tenant), Strip(req.name), Elements(req.perms))) else s.db
  {
    var s1 := AfterRead(s, req.actor, req.tenant);
    if Owned(s.db, req.tenant, req.role.value) && AllDelegable(s.db, req.perms) {
      EditPlanEffect(s1, req.tenant, req.role.value, Strip(req.name), req.perms);
    }
  }

  /** Creating an organisation's role: exactly the requested permissions, under a free name. */
  lemma RoleCreateMeetsRequest(s: State, req: Request)
    requires req.RoleSave? && req.role.None?
    requires IsFresh(s.db, req.newId) && req.tenant != "" && req.tenant != req.newId
    ensures Exec(s, req).ok <==>
              && AuthorityOf(s, req.actor, req.tenant).Manages()
              && CleanName(req.name) && CleanDescription(req.desc)
              && AllDelegable(s.db, req.perms)
              && NameIsFree(s.db, req.tenant, Strip(req.name), None)
    ensures Exec(s, req).state.db ==
              if !Exec(s, req).ok then s.db
              else s.db.(roles := s.db.roles[req.newId := Role(Some(req.tenant), Strip(req.name), Elements(req.perms))],
                         seen := s.db.seen + {req.newId, req.tenant})
  {
    var s1 := AfterRead(s, req.actor, req.tenant);
    SinglePlan(s1, CreateRole(req.tenant, req.newId, Strip(req.name), Dedup(req.perms), None));
    assert (exists n :: n in Dedup(req.perms) && !Grantable(s.db, n, None)) <==> !AllDelegable(s.db, req.perms) by {
      assert forall n :: n in Dedup(req.perms) <==> n in Elements(Dedup(req.perms));
      assert forall n :: n in req.perms <==> n in Elements(req.perms);
    }
  }

  /** Editing a platform role: the platform administrator only, under the same name, with active permissions. */
  lemma PlatformRoleMeetsRequest(s: State, req: Request)
    requires req.RoleSave? && req.role.Some? && IsPlatformRole(s.db, req.role.value)
    ensures Exec(s, req).ok <==>
              && AuthorityOf(s, req.actor, req.tenant).platformAdmin
              && CleanName(req.name) && CleanDescription(req.desc)
              && Strip(req.name) == s.db.roles[req.role.value].name
              && (forall n :: n in req.perms ==> IsActive(s.db, n))
    ensures Exec(s, req).state.db == if Exec(s, req).ok then WithPerms(s.db, req.role.value, Elements(req.perms)) else s.db
  {
  }

  /** A role nobody in the tenant refers to is referred to by nobody at all. */
  lemma UnheldIsUnreferenced(db: Db, t: TenantId, r: RoleId)
    requires Isolated(db) && Owned(db, t, r) && HoldersIn(db, t, r) == {}
    ensures forall u, other :: !RefersTo(db, u, other, r)
    ensures forall row :: row in db.roleRows ==> row.role != r
    ensures WithoutPrimary(db.members, r) == db.members && WithoutRows(db.roleRows, t, r) == db.roleRows
  {
    assert forall row :: row in db.roleRows && row.tenant == t && row.role == r ==> Key(row.user, t) in HoldersIn(db, t, r);
    assert forall k :: k in db.members && k.tenant == t && db.members[k].role == Some(r) ==> k in HoldersIn(db, t, r);
    assert forall row :: row in db.roleRows ==> row.role != r;
  }

  /** Deleting a role nobody holds removes the role row alone; only an invitation can stand in the way. */
  lemma UnheldDeletion(s: State, t: TenantId, r: RoleId)
    requires Isolated(s.db) && Owned(s.db, t, r) && HoldersIn(s.db, t, r) == {}
    ensures DoDeleteRole(s, t, r).ok
       <==> (s.db.enforcesForeignKeys ==> !exists i :: i in s.db.invites && s.db.invites[i].role == Some(r))
    ensures DoDeleteRole(s, t, r).state.db == if DoDeleteRole(s, t, r).ok then s.db.(roles := s.db.roles - {r}) else s.db
  {
    UnheldIsUnreferenced(s.db, t, r);
  }

  lemma UnheldDeletionTakesNothing(db: Db, t: TenantId, r: RoleId, u: UserId, other: TenantId, q: Scope)
    requires Isolated(db) && Owned(db, t, r) && HoldersIn(db, t, r) == {}
    ensures Resolve(db.(roles := db.roles - {r}), u, other, q) == Resolve(db, u, other, q)
  {
    UnheldIsUnreferenced(db, t, r);
    SameViewResolves(db, db.(roles := db.roles - {r}), u, other, q);
  }

  /** `role_delete` refuses a role that somebody holds, former members with left-over rows included. */
  lemma RoleDeleteOutcome(s: State, req: Request)
    requires Sound(s.db) && req.RoleDelete?
    ensures Exec(s, req).ok <==>
              && AuthorityOf(s, req.actor, req.tenant).Manages()
              && Owned(s.db, req.tenant, req.roleId)
              && HoldersIn(s.db, req.tenant, req.roleId) == {}
              && (s.db.enforcesForeignKeys ==> !exists i :: i in s.db.invites && s.db.invites[i].role == Some(req.roleId))
    ensures Exec(s, req).state.db == if Exec(s, req).ok then s.db.(roles := s.db.roles - {req.roleId}) else s.db
  {
    var s1 := AfterRead(s, req.actor, req.tenant);
    SinglePlan(s1, DeleteRole(req.tenant, req.roleId));
    if Owned(s.db, req.tenant, req.roleId) && HoldersIn(s.db, req.tenant, req.roleId) == {} {
      UnheldDeletion(s1, req.tenant, req.roleId);
    }
  }

  /** So a deletion changes no effective permission of any user, in any tenant and scope. */
  lemma RoleDeleteTakesNothing(s: State, req: Request)
    requires Sound(s.db) && req.RoleDelete?
    ensures forall u, t, q :: Resolve(Exec(s, req).state.db, u, t, q) == Resolve(s.db, u, t, q)
  {
    RoleDeleteOutcome(s, req);
    if Exec(s, req).ok {
      forall u, t, q ensures Resolve(Exec(s, req).state.db, u, t, q) == Resolve(s.db, u, t, q) {
        UnheldDeletionTakesNothing(s.db, req.tenant, req.roleId, u, t, q);
      }
    }
  }
}
