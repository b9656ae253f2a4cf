/** The access-management service: judges the actor, then changes roles and members step by step in one transaction. */
module Iam {
  import opened Listing
  import opened Model
  import opened Steps
  import opened Requests
  import opened Services

  lemma FirstOfPlan(s: State, op: Op, rest: seq<Op>)
    ensures RunPlan(s, [op] + rest) == if Do(s, op).ok then RunPlan(Do(s, op).state, rest) else Do(s, op)
  {
    assert ([op] + rest)[1..] == rest;
  }

  lemma NamesTellHeldRoles(db: Db, u: UserId, t: TenantId, name: string)
    requires Key(u, t) in db.members
    ensures name in NamesOfRoles(db, ReferredRoles(db, u, t)) <==> HoldsNamed(db, u, t, name)
  {
    if name in NamesOfRoles(db, ReferredRoles(db, u, t)) {
      var r :| r in ReferredRoles(db, u, t) && r in db.roles && db.roles[r].name == name;
      ReferredIsRefersTo(db, u, t, r);
    }
    if HoldsNamed(db, u, t, name) {
      var r :| RefersTo(db, u, t, r) && r in db.roles && db.roles[r].name == name;
      ReferredIsRefersTo(db, u, t, r);
    }
  }

  lemma SamePerms(db: Db, r: RoleId, perms: set<PermName>)
    requires r in db.roles && perms == db.roles[r].perms
    ensures WithPerms(db, r, perms) == db
  {
    assert db.roles[r := db.roles[r]] == db.roles;
  }

  lemma PermsTwice(db: Db, r: RoleId, perms: set<PermName>, n: PermName)
    requires r in db.roles
    ensures WithPerms(WithPerms(db, r, perms), r, perms + {n}) == WithPerms(db, r, perms + {n})
    ensures WithPerms(WithPerms(db, r, perms), r, perms - {n}) == WithPerms(db, r, perms - {n})
  {
  }

  lemma PlanInOrder(a: seq<Op>, b: seq<Op>, c: seq<Op>, d: seq<Op>, e: seq<Op>, f: seq<Op>)
    ensures (a + b) + (c + d) + (e + f) == a + (b + (c + (d + (e + f))))
  {
  }

  /** A deletion that is not denied is the one operation. */
  lemma DeletionIs(s: State, req: Request, who: Authority)
    requires req.RoleDelete? && who.Manages() && Visible(s.db, req.tenant, req.roleId) && !IsPlatformRole(s.db, req.roleId)
    requires |HoldersIn(s.db, req.tenant, req.roleId)| == 0
    ensures CarryOut(s, req.tenant, Decide(s.db, req, who)) == DoDeleteRole(s, req.tenant, req.roleId)
  {
    SinglePlan(s, DeleteRole(req.tenant, req.roleId));
    assert HoldersIn(s.db, req.tenant, req.roleId) == {};
  }

  class IamService {
    const services: AccessServices

    constructor (services: AccessServices)
      ensures this.services == services
    {
      this.services := services;
    }

    /** `authority` */
    method GetAuthority(t: TenantId, actor: UserId) returns (who: Authority)
      modifies services`cache
      ensures who == AuthorityOf(old(services.Now()), actor, t)
      ensures services.Now() == AfterRead(old(services.Now()), actor, t)
    {
      var k := Key(actor, t);
      if k !in services.db.members {
        return Authority(false, false, false, false);
      }
      var held := services.GetPermissionsForUser(actor, t, GLOBAL);
      var roles := services.GetRolesForUser(actor, t);
      NamesTellHeldRoles(services.db, actor, t, TENANT_ADMIN_ROLE);
      assert TENANT_ADMIN_ROLE in roles <==> TENANT_ADMIN_ROLE in Elements(roles);
      return Authority(PLATFORM_ADMIN in held, services.db.members[k].owner, true, TENANT_ADMIN_ROLE in roles);
    }

    // ---- Parts of a transaction: each runs its operations and stops at the first refusal ----

    method AddRoles(u: UserId, t: TenantId, roles: seq<RoleId>, ghost tail: seq<Op>) returns (ok: bool)
      modifies services
      ensures RunPlan(old(services.Now()), Adding(u, t, roles) + tail)
           == if ok then RunPlan(services.Now(), tail) else Outcome(false, services.Now())
    {
      ghost var s := services.Now();
      assert Adding(u, t, roles[0..]) == Adding(u, t, roles);
      for i := 0 to |roles|
        invariant RunPlan(s, Adding(u, t, roles) + tail) == RunPlan(services.Now(), Adding(u, t, roles[i..]) + tail)
      {
        assert Adding(u, t, roles[i..]) + tail == [AddRole(u, t, roles[i], GLOBAL)] + (Adding(u, t, roles[i + 1..]) + tail);
        FirstOfPlan(services.Now(), AddRole(u, t, roles[i], GLOBAL), Adding(u, t, roles[i + 1..]) + tail);
        var added := services.AddRoleToMember(u, t, roles[i], GLOBAL);
        if !added { return false; }
      }
      assert Adding(u, t, roles[|roles|..]) + tail == tail;
      return true;
    }

    method DropRoles(u: UserId, t: TenantId, roles: seq<RoleId>, ghost tail: seq<Op>)
      modifies services
      ensures RunPlan(old(services.Now()), Removing(u, t, roles) + tail) == RunPlan(services.Now(), tail)
    {
      ghost var s := services.Now();
      assert Removing(u, t, roles[0..]) == Removing(u, t, roles);
      for i := 0 to |roles|
        invariant RunPlan(s, Removing(u, t, roles) + tail) == RunPlan(services.Now(), Removing(u, t, roles[i..]) + tail)
      {
        assert Removing(u, t, roles[i..]) + tail == [RemoveRole(u, t, roles[i], GLOBAL)] + (Removing(u, t, roles[i + 1..]) + tail);
        FirstOfPlan(services.Now(), RemoveRole(u, t, roles[i], GLOBAL), Removing(u, t, roles[i + 1..]) + tail);
        var _ := services.RemoveRoleFromMember(u, t, roles[i], GLOBAL);
      }
      assert Removing(u, t, roles[|roles|..]) + tail == tail;
    }

    method GrantPerms(u: UserId, t: TenantId, perms: seq<PermName>, ghost tail: seq<Op>) returns (ok: bool)
      modifies services
      ensures RunPlan(old(services.Now()), Granting(u, t, perms) + tail)
           == if ok then RunPlan(services.Now(), tail) else Outcome(false, services.Now())
    {
      ghost var s := services.Now();
      assert Granting(u, t, perms[0..]) == Granting(u, t, perms);
      for i := 0 to |perms|
        invariant RunPlan(s, Granting(u, t, perms) + tail) == RunPlan(services.Now(), Granting(u, t, perms[i..]) + tail)
      {
        assert Granting(u, t, perms[i..]) + tail == [GrantPerm(u, t, perms[i], None)] + (Granting(u, t, perms[i + 1..]) + tail);
        FirstOfPlan(services.Now(), GrantPerm(u, t, perms[i], None), Granting(u, t, perms[i + 1..]) + tail);
        var granted := services.GrantPermissionToMember(u, t, perms[i], None);
        if !granted { return false; }
      }
      assert Granting(u, t, perms[|perms|..]) + tail == tail;
      return true;
    }

    method RevokePerms(u: UserId, t: TenantId, perms: seq<PermName>, ghost tail: seq<Op>)
      modifies services
      ensures RunPlan(old(services.Now()), Revoking(u, t, perms) + tail) == RunPlan(services.Now(), tail)
    {
      ghost var s := services.Now();
      assert Revoking(u, t, perms[0..]) == Revoking(u, t, perms);
      for i := 0 to |perms|
        invariant RunPlan(s, Revoking(u, t, perms) + tail) == RunPlan(services.Now(), Revoking(u, t, perms[i..]) + tail)
      {
        assert Revoking(u, t, perms[i..]) + tail == [RevokePerm(u, t, perms[i])] + (Revoking(u, t, perms[i + 1..]) + tail);
        FirstOfPlan(services.Now(), RevokePerm(u, t, perms[i]), Revoking(u, t, perms[i + 1..]) + tail);
        var _ := services.RevokePermissionFromMember(u, t, perms[i]);
      }
      assert Revoking(u, t, perms[|perms|..]) + tail == tail;
    }

    /** Primary role and status, where they change. */
    method SetPrimaryAndStatus(db: Db, req: Request, ghost tail: seq<Op>) returns (ok: bool)
      requires req.MemberSave? && Key(req.user, req.tenant) in db.members && services.db == db
      modifies services
      ensures RunPlan(old(services.Now()), PrimaryPart(db, req) + (StatusPart(db, req) + tail))
           == if ok then RunPlan(services.Now(), tail) else Outcome(false, services.Now())
    {
      ok := SetPrimary(db, req, StatusPart(db, req) + tail);
      if ok { ok := SetStatusOf(db, req, tail); }
    }

    method SetPrimary(db: Db, req: Request, ghost tail: seq<Op>) returns (ok: bool)
      requires req.MemberSave? && Key(req.user, req.tenant) in db.members && services.db == db
      modifies services
      ensures RunPlan(old(services.Now()), PrimaryPart(db, req) + tail) == if ok then RunPlan(services.Now(), tail) else Outcome(false, services.Now())
    {
      if !PrimaryChanges(db, req) {
        assert PrimaryPart(db, req) + tail == tail;
        return true;
      }
      match NonEmpty(req.primary)
      case None =>
        FirstOfPlan(services.Now(), ClearPrimary(req.user, req.tenant), tail);
        ok := services.ClearPrimaryRole(req.user, req.tenant);
      case Some(r) =>
        FirstOfPlan(services.Now(), AssignPrimary(req.user, req.tenant, r), tail);
        ok := services.AssignRoleToMember(req.user, req.tenant, r);
    }

    method SetStatusOf(db: Db, req: Request, ghost tail: seq<Op>) returns (ok: bool)
      requires req.MemberSave? && Key(req.user, req.tenant) in db.members
      modifies services
      ensures RunPlan(old(services.Now()), StatusPart(db, req) + tail) == if ok then RunPlan(services.Now(), tail) else Outcome(false, services.Now())
    {
      if !StatusChanges(db, req) {
        assert StatusPart(db, req) + tail == tail;
        return true;
      }
      FirstOfPlan(services.Now(), SetStatus(req.user, req.tenant, req.active.value), tail);
      ok := services.SetMemberStatus(req.user, req.tenant, req.active.value);
    }

    /** The changes of a member, all or none. */
    method ChangeMember(req: Request) returns (ok: bool)
      requires req.MemberSave? && Key(req.user, req.tenant) in services.db.members
      modifies services
      ensures Outcome(ok, services.Now()) == Atomic(old(services.Now()), MemberPlan(old(services.db), req))
    {
      var u, t := req.user, req.tenant;
      var before := services.db;
      var wantExtra := Without(Dedup(req.roles), Chosen(NonEmpty(req.primary)));
      var listed := SortNames(ListedRoles(before, u, t));
      var direct := SortNames(DirectPerms(before, u, t));
      var addRoles := Without(wantExtra, ListedRoles(before, u, t));
      var dropRoles := Without(listed, Elements(wantExtra));
      var addPerms := Without(Dedup(req.perms), DirectPerms(before, u, t));
      var dropPerms := Without(direct, Elements(req.perms));

      ghost var revoking := Revoking(u, t, dropPerms);
      ghost var granting := Granting(u, t, addPerms) + revoking;
      ghost var removing := Removing(u, t, dropRoles) + granting;
      ghost var adding := Adding(u, t, addRoles) + removing;
      PlanInOrder(PrimaryPart(before, req), StatusPart(before, req), Adding(u, t, addRoles), Removing(u, t, dropRoles), Granting(u, t, addPerms), revoking);

      ok := SetPrimaryAndStatus(before, req, adding);
      if ok { ok := AddRoles(u, t, addRoles, removing); }
      if ok {
        DropRoles(u, t, dropRoles, granting);
        ok := GrantPerms(u, t, addPerms, revoking);
      }
      if ok {
        assert revoking == revoking + [];
        RevokePerms(u, t, dropPerms, []);
      } else {
        services.db := before;
      }
    }

    /** `member_save` */
    method MemberSave(req: Request) returns (ok: bool)
      requires req.MemberSave?
      modifies services
      ensures Outcome(ok, services.Now()) == Exec(old(services.Now()), req)
    {
      var who := GetAuthority(req.tenant, req.actor);
      ok := SaveAllowed(req, who);
    }

    method SaveAllowed(req: Request, who: Authority) returns (ok: bool)
      requires req.MemberSave?
      modifies services
      ensures Outcome(ok, services.Now()) == CarryOut(old(services.Now()), req.tenant, Decide(old(services.db), req, who))
    {
      if !who.Manages() { return false; }
      if Key(req.user, req.tenant) !in services.db.members { return false; }
      if !MemberSaveAllowed(services.db, req, who.platformAdmin) { return false; }
      ok := ChangeMember(req);
    }

    /** `member_remove` */
    method MemberRemove(req: Request) returns (ok: bool)
      requires req.MemberRemove?
      modifies services
      ensures Outcome(ok, services.Now()) == Exec(old(services.Now()), req)
    {
      var k := Key(req.user, req.tenant);
      var who := GetAuthority(req.tenant, req.actor);
      if !who.Manages() { return false; }
      if k !in services.db.members { return false; }
      if services.db.members[k].owner { return false; }
      if req.user == req.actor { return false; }
      SinglePlan(services.Now(), RemoveMember(req.user, req.tenant));
      ok := services.RemoveMembership(req.user, req.tenant);
    }

    /** `role_delete` */
    method RoleDelete(req: Request) returns (ok: bool)
      requires req.RoleDelete?
      modifies services
      ensures Outcome(ok, services.Now()) == Exec(old(services.Now()), req)
    {
      var who := GetAuthority(req.tenant, req.actor);
      ok := DeleteUnheld(req, who);
    }

    method DeleteUnheld(req: Request, who: Authority) returns (ok: bool)
      requires req.RoleDelete?
      modifies services
      ensures Outcome(ok, services.Now()) == CarryOut(old(services.Now()), req.tenant, Decide(old(services.db), req, who))
    {
      var t, r := req.tenant, req.roleId;
      if !who.Manages() { return false; }
      if !Visible(services.db, t, r) { return false; }
      if services.db.roles[r].tenant == None { return false; }
      var holders := services.Holders(t, r);
      if holders > 0 { return false; }
      DeletionIs(services.Now(), req, who);
      ok := services.DeleteTenantRole(t, r);
    }

    // ---- role_save ----

    /** `_grantable`: which of the names may not be delegated. */
    method Undelegable(perms: seq<PermName>) returns (unknown: set<PermName>)
      ensures unknown == set n | n in perms && !Delegable(services.db, n)
    {
      unknown := {};
      for i := 0 to |perms|
        invariant unknown == set n | n in perms[..i] && !Delegable(services.db, n)
      {
        assert perms[..i + 1] == perms[..i] + [perms[i]];
        if !Delegable(services.db, perms[i]) { unknown := unknown + {perms[i]}; }
      }
      assert perms[..|perms|] == perms;
    }

    /** `_name_is_free`: walks over the roles the tenant sees. */
    method IsNameFree(t: TenantId, name: string, except: Option<RoleId>) returns (free: bool)
      ensures free == NameIsFree(services.db, t, name, except)
    {
      var rest := services.db.roles.Keys;
      while rest != {}
        invariant rest <= services.db.roles.Keys
        invariant forall r :: r in services.db.roles.Keys - rest && Visible(services.db, t, r) && Some(r) != except
                    ==> Lower(services.db.roles[r].name) != Lower(name)
        decreases |rest|
      {
        var r :| r in rest;
        if Visible(services.db, t, r) && Some(r) != except && Lower(services.db.roles[r].name) == Lower(name) { return false; }
        rest := rest - {r};
      }
      return true;
    }

    method TakePerms(t: TenantId, r: RoleId, perms: seq<PermName>, ghost tail: seq<Op>) returns (ok: bool)
      modifies services
      ensures RunPlan(old(services.Now()), Taking(t, r, perms) + tail)
           == if ok then RunPlan(services.Now(), tail) else Outcome(false, services.Now())
    {
      ghost var s := services.Now();
      assert Taking(t, r, perms[0..]) == Taking(t, r, perms);
      for i := 0 to |perms|
        invariant RunPlan(s, Taking(t, r, perms) + tail) == RunPlan(services.Now(), Taking(t, r, perms[i..]) + tail)
      {
        assert Taking(t, r, perms[i..]) + tail == [RemovePermFromRole(t, r, perms[i])] + (Taking(t, r, perms[i + 1..]) + tail);
        FirstOfPlan(services.Now(), RemovePermFromRole(t, r, perms[i]), Taking(t, r, perms[i + 1..]) + tail);
        var taken := services.RemovePermissionFromTenantRole(t, r, perms[i]);
        if !taken { return false; }
      }
      assert Taking(t, r, perms[|perms|..]) + tail == tail;
      return true;
    }

    method GivePerms(t: TenantId, r: RoleId, perms: seq<PermName>) returns (ok: bool)
      modifies services
      ensures RunPlan(old(services.Now()), Giving(t, r, perms)) == Outcome(ok, services.Now())
    {
      ghost var s := services.Now();
      assert perms[0..] == perms;
      for i := 0 to |perms|
        invariant RunPlan(s, Giving(t, r, perms)) == RunPlan(services.Now(), Giving(t, r, perms[i..]))
      {
        assert Giving(t, r, perms[i..]) == [AddPermToRole(t, r, perms[i], None)] + Giving(t, r, perms[i + 1..]);
        FirstOfPlan(services.Now(), AddPermToRole(t, r, perms[i], None), Giving(t, r, perms[i + 1..]));
        var given := services.AddPermissionToTenantRole(t, r, perms[i], None);
        if !given { return false; }
      }
      return true;
    }

    method RenameAndEdit(t: TenantId, r: RoleId, name: string, gone: seq<PermName>, added: seq<PermName>) returns (ok: bool)
      modifies services
      ensures Outcome(ok, services.Now()) == RunPlan(old(services.Now()), [RenameRole(t, r, name)] + (Taking(t, r, gone) + Giving(t, r, added)))
    {
      FirstOfPlan(services.Now(), RenameRole(t, r, name), Taking(t, r, gone) + Giving(t, r, added));
      ok := services.RenameTenantRole(t, r, name);
      if ok { ok := TakePerms(t, r, gone, Giving(t, r, added)); }
      if ok { ok := GivePerms(t, r, added); }
    }

    /** The edit of an organisation's role: new name, then the surplus is taken away, then what is missing is given. */
    method EditTenantRole(t: TenantId, r: RoleId, name: string, perms: seq<PermName>) returns (ok: bool)
      requires r in services.db.roles
      modifies services
      ensures Outcome(ok, services.Now()) == Atomic(old(services.Now()), EditPlan(old(services.db), t, r, name, perms))
    {
      var before := services.db;
      var gone := SortNames(before.roles[r].perms - Elements(perms));
      var added := SortNames(Elements(perms) - before.roles[r].perms);
      assert EditPlan(before, t, r, name, perms) == [RenameRole(t, r, name)] + (Taking(t, r, gone) + Giving(t, r, added));
      ok := RenameAndEdit(t, r, name, gone, added);
      if !ok { services.db := before; }
    }

    method TakeFromRole(r: RoleId, surplus: set<PermName>)
      requires r in services.db.roles
      modifies services`db
      ensures services.db == WithPerms(old(services.db), r, old(services.db).roles[r].perms - surplus)
    {
      ghost var before, had := services.db, services.db.roles[r].perms;
      var gone := surplus;
      SamePerms(before, r, had - (surplus - gone));
      while gone != {}
        invariant gone <= surplus && services.db == WithPerms(before, r, had - (surplus - gone))
        decreases |gone|
      {
        var n :| n in gone;
        PermsTwice(before, r, had - (surplus - gone), n);
        assert had - (surplus - gone) - {n} == had - (surplus - (gone - {n}));
        var _ := services.RemovePermissionFromRole(r, n);
        gone := gone - {n};
      }
      assert surplus - gone == surplus;
    }

    method GiveToRole(r: RoleId, wanted: set<PermName>)
      requires r in services.db.roles && wanted <= services.db.catalogue.Keys
      modifies services`db
      ensures services.db == WithPerms(old(services.db), r, old(services.db).roles[r].perms + wanted)
    {
      ghost var before, had := services.db, services.db.roles[r].perms;
      var missing := wanted;
      SamePerms(before, r, had + (wanted - missing));
      while missing != {}
        invariant missing <= wanted && services.db == WithPerms(before, r, had + (wanted - missing))
        decreases |missing|
      {
        var n :| n in missing;
        PermsTwice(before, r, had + (wanted - missing), n);
        assert had + (wanted - missing) + {n} == had + (wanted - (missing - {n}));
        var _ := services.AssignPermissionToRole(r, n);
        missing := missing - {n};
      }
      assert wanted - missing == wanted;
    }

    /** `_save_platform_role`, once the actor and the name are accepted: permissions taken and given one by one. */
    method SavePlatformRole(t: TenantId, r: RoleId, perms: seq<PermName>)
      requires r in services.db.roles && forall n :: n in perms ==> IsActive(services.db, n)
      modifies services
      ensures services.Now() == DoPlatformSave(old(services.Now()), t, r, perms)
    {
      var had := services.db.roles[r].perms;
      TakeFromRole(r, had - Elements(perms));
      GiveToRole(r, Elements(perms) - had);
      assert had - (had - Elements(perms)) + (Elements(perms) - had) == Elements(perms);
      services.InvalidateTenantCache(t);
    }

    /** Creating or editing an organisation's role, for an actor who manages it. */
    method SaveTenantRole(req: Request, title: string) returns (ok: bool)
      requires req.RoleSave? && title == Strip(req.name)
      requires req.role.None? ==> IsFresh(services.db, req.newId) && req.tenant != "" && req.tenant != req.newId
      requires req.role.Some? ==> Owned(services.db, req.tenant, req.role.value)
      modifies services
      ensures Outcome(ok, services.Now())
           == CarryOut(old(services.Now()), req.tenant, DecideTenantRole(old(services.db), req))
    {
      var t := req.tenant;
      var unknown := Undelegable(req.perms);
      if unknown != {} {
        assert !AllDelegable(services.db, req.perms);
        return false;
      }
      assert AllDelegable(services.db, req.perms) by {
        forall n | n in req.perms ensures Delegable(services.db, n) {
          assert n !in unknown;
        }
      }
      match req.role
      case None =>
        var free := IsNameFree(t, title, None);
        if !free { return false; }
        ghost var op := CreateRole(t, req.newId, title, Dedup(req.perms), None);
        SinglePlan(services.Now(), op);
        ok := services.CreateTenantRole(t, req.newId, title, Dedup(req.perms), None);
      case Some(r) =>
        if title != services.db.roles[r].name {
          var free := IsNameFree(t, title, Some(r));
          if !free { return false; }
        }
        ok := EditTenantRole(t, r, title, req.perms);
    }

    /** `role_save` */
    method RoleSave(req: Request) returns (ok: bool)
      requires req.RoleSave?
      requires req.role.None? ==> IsFresh(services.db, req.newId) && req.tenant != "" && req.tenant != req.newId
      modifies services
      ensures Outcome(ok, services.Now()) == Exec(old(services.Now()), req)
    {
      var who := GetAuthority(req.tenant, req.actor);
      ok := SaveRole(req, who);
    }

    method SaveRole(req: Request, who: Authority) returns (ok: bool)
      requires req.RoleSave?
      requires req.role.None? ==> IsFresh(services.db, req.newId) && req.tenant != "" && req.tenant != req.newId
      modifies services
      ensures Outcome(ok, services.Now()) == CarryOut(old(services.Now()), req.tenant, Decide(old(services.db), req, who))
    {
      if !who.Manages() { return false; }
      var title := Strip(req.name);
      if title == "" || |title| > MAX_NAME { return false; }
      if req.desc.Some? && |Strip(req.desc.value)| > MAX_DESCRIPTION { return false; }
      if req.role.Some? && !Visible(services.db, req.tenant, req.role.value) { return false; }
      if req.role.Some? && services.db.roles[req.role.value].tenant == None {
        ok := PlatformBranch(req, who, title);
      } else {
        ok := SaveTenantRole(req, title);
      }
    }

    method PlatformBranch(req: Request, who: Authority, title: string) returns (ok: bool)
      requires req.RoleSave? && req.role.Some? && IsPlatformRole(services.db, req.role.value)
      modifies services
      ensures ok <==>
                && who.platformAdmin
                && title == old(services.db).roles[req.role.value].name
                && forall n :: n in req.perms ==> IsActive(old(services.db), n)
      ensures services.Now() == if ok then DoPlatformSave(old(services.Now()), req.tenant, req.role.value, req.perms) else old(services.Now())
    {
      var r := req.role.value;
      if !who.platformAdmin { return false; }
      if title != services.db.roles[r].name { return false; }
      for i := 0 to |req.perms|
        invariant services.Now() == old(services.Now())
        invariant forall j :: 0 <= j < i ==> IsActive(services.db, req.perms[j])
      {
        if !IsActive(services.db, req.perms[i]) { return false; }
      }
      SavePlatformRole(req.tenant, r, req.perms);
      return true;
    }
  }
}
