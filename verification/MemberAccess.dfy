/**
 * `member_save` against what it is asked for: the primary role, the supplementary roles, the direct permissions and
 * the status of one member, given as a whole.
 */
module MemberAccess {
  import opened Listing
  import opened Model
  import opened Steps
  import opened Requests

  lemma {:induction false} PlanConcat(s: State, a: seq<Op>, b: seq<Op>)
    ensures RunPlan(s, a + b) == if RunPlan(s, a).ok then RunPlan(RunPlan(s, a).state, b) else RunPlan(s, a)
    decreases |a|
  {
    if a == [] {
      assert a + b == b;
    } else {
      assert (a + b)[1..] == a[1..] + b;
      PlanConcat(Do(s, a[0]).state, a[1..], b);
    }
  }

  function RowsFor(u: UserId, t: TenantId, roles: set<RoleId>): set<RoleRow>
  {
    set r | r in roles :: RoleRow(u, t, r, GLOBAL)
  }

  function PermRowsFor(u: UserId, t: TenantId, perms: set<PermName>): set<PermRow>
  {
    set n | n in perms :: PermRow(u, t, n, GLOBAL)
  }

  // ---- What each part of the plan does to the database ----

  lemma AddingOne(s: State, u: UserId, t: TenantId, r: RoleId)
    requires Key(u, t) in s.db.members
    ensures var first := DoAddRole(s, u, t, r, GLOBAL);
            && (first.ok <==> Assignable(s.db, t, r))
            && (first.ok ==> first.state.db == s.db.(roleRows := s.db.roleRows + {RoleRow(u, t, r, GLOBAL)}))
            && (forall x :: Assignable(first.state.db, t, x) <==> Assignable(s.db, t, x))
  {
    if RoleRow(u, t, r, GLOBAL) in s.db.roleRows {
      assert s.db.roleRows + {RoleRow(u, t, r, GLOBAL)} == s.db.roleRows;
    }
  }

  lemma {:induction false} AddingEffect(s: State, u: UserId, t: TenantId, roles: seq<RoleId>)
    requires Key(u, t) in s.db.members
    ensures RunPlan(s, Adding(u, t, roles)).ok <==> forall r :: r in roles ==> Assignable(s.db, t, r)
    ensures RunPlan(s, Adding(u, t, roles)).ok ==>
              RunPlan(s, Adding(u, t, roles)).state.db == s.db.(roleRows := s.db.roleRows + RowsFor(u, t, Elements(roles)))
    decreases |roles|
  {
    if roles == [] {
      assert RowsFor(u, t, Elements(roles)) == {};
    } else {
      var first := DoAddRole(s, u, t, roles[0], GLOBAL);
      AddingOne(s, u, t, roles[0]);
      assert Adding(u, t, roles)[1..] == Adding(u, t, roles[1..]);
      assert roles == [roles[0]] + roles[1..];
      ElementsOfConcat([roles[0]], roles[1..]);
      if first.ok {
        AddingEffect(first.state, u, t, roles[1..]);
        assert RowsFor(u, t, Elements(roles)) == {RoleRow(u, t, roles[0], GLOBAL)} + RowsFor(u, t, Elements(roles[1..]));
      }
    }
  }

  /** Removing a role that is the primary role also clears the primary role. */
  function ClearedIn(db: Db, u: UserId, t: TenantId, roles: set<RoleId>): map<Key, Membership>
  {
    var k := Key(u, t);
    if k in db.members && db.members[k].role.Some? && db.members[k].role.value in roles
    then db.members[k := db.members[k].(role := None)]
    else db.members
  }

  lemma {:induction false} RemovingEffect(s: State, u: UserId, t: TenantId, roles: seq<RoleId>)
    ensures RunPlan(s, Removing(u, t, roles)).ok
    ensures RunPlan(s, Removing(u, t, roles)).state.db
         == s.db.(roleRows := s.db.roleRows - RowsFor(u, t, Elements(roles)), members := ClearedIn(s.db, u, t, Elements(roles)))
    decreases |roles|
  {
    if roles == [] {
      assert RowsFor(u, t, Elements(roles)) == {};
    } else {
      var first := DoRemoveRole(s, u, t, roles[0], GLOBAL);
      assert Removing(u, t, roles)[1..] == Removing(u, t, roles[1..]);
      assert roles == [roles[0]] + roles[1..];
      ElementsOfConcat([roles[0]], roles[1..]);
      RemovingEffect(first.state, u, t, roles[1..]);
      assert RowsFor(u, t, Elements(roles)) == {RoleRow(u, t, roles[0], GLOBAL)} + RowsFor(u, t, Elements(roles[1..]));
    }
  }

  lemma PermRowsForCons(u: UserId, t: TenantId, perms: seq<PermName>)
    requires perms != []
    ensures PermRowsFor(u, t, Elements(perms)) == {PermRow(u, t, perms[0], GLOBAL)} + PermRowsFor(u, t, Elements(perms[1..]))
  {
    assert perms == [perms[0]] + perms[1..];
    ElementsOfConcat([perms[0]], perms[1..]);
  }

  lemma {:induction false} GrantingEffect(s: State, u: UserId, t: TenantId, perms: seq<PermName>)
    requires Key(u, t) in s.db.members
    ensures RunPlan(s, Granting(u, t, perms)).ok <==> forall n :: n in perms ==> Delegable(s.db, n)
    ensures RunPlan(s, Granting(u, t, perms)).ok ==>
              RunPlan(s, Granting(u, t, perms)).state.db == s.db.(permRows := s.db.permRows + PermRowsFor(u, t, Elements(perms)))
    decreases |perms|
  {
    if perms == [] {
      assert PermRowsFor(u, t, Elements(perms)) == {};
    } else {
      var first := DoGrantPerm(s, u, t, perms[0], None);
      assert Granting(u, t, perms)[1..] == Granting(u, t, perms[1..]);
      assert RunPlan(s, Granting(u, t, perms)) == if first.ok then RunPlan(first.state, Granting(u, t, perms[1..])) else first;
      assert forall n :: n in perms <==> n == perms[0] || n in perms[1..];
      if first.ok {
        assert first.state.db == s.db.(permRows := s.db.permRows + {PermRow(u, t, perms[0], GLOBAL)});
        GrantingEffect(first.state, u, t, perms[1..]);
        assert forall n :: Delegable(first.state.db, n) <==> Delegable(s.db, n);
        PermRowsForCons(u, t, perms);
      }
    }
  }

  lemma {:induction false} RevokingEffect(s: State, u: UserId, t: TenantId, perms: seq<PermName>)
    requires forall n :: n in perms ==> n in s.db.catalogue
    ensures RunPlan(s, Revoking(u, t, perms)).ok
    ensures RunPlan(s, Revoking(u, t, perms)).state.db == s.db.(permRows := s.db.permRows - PermRowsFor(u, t, Elements(perms)))
    decreases |perms|
  {
    if perms == [] {
      assert PermRowsFor(u, t, Elements(perms)) == {};
    } else {
      var first := DoRevokePerm(s, u, t, perms[0]);
      assert Revoking(u, t, perms)[1..] == Revoking(u, t, perms[1..]);
      assert perms == [perms[0]] + perms[1..];
      ElementsOfConcat([perms[0]], perms[1..]);
      RevokingEffect(first.state, u, t, perms[1..]);
      assert first.state.db.permRows == s.db.permRows - {PermRow(u, t, perms[0], GLOBAL)};
      assert PermRowsFor(u, t, Elements(perms)) == {PermRow(u, t, perms[0], GLOBAL)} + PermRowsFor(u, t, Elements(perms[1..]));
    }
  }

  // ---- The whole plan ----

  /** The member's roles and permissions that the plan adds. */
  function AddedRoles(db: Db, req: Request): set<RoleId>
    requires req.MemberSave?
  {
    Elements(WantedExtra(req)) - ListedRoles(db, req.user, req.tenant)
  }

  function AddedPerms(db: Db, req: Request): set<PermName>
    requires req.MemberSave?
  {
    Elements(req.perms) - DirectPerms(db, req.user, req.tenant)
  }

  /** Membership after the primary role and the status are set. */
  function Restated(db: Db, req: Request): Membership
    requires req.MemberSave? && Key(req.user, req.tenant) in db.members
  {
    var m := db.members[Key(req.user, req.tenant)];
    m.(role := NonEmpty(req.primary), enabled := if StatusChanges(db, req) then req.active.value else m.enabled)
  }

  /** The database a successful save leaves. */
  function Saved(db: Db, req: Request): Db
    requires req.MemberSave? && Key(req.user, req.tenant) in db.members
  {
    var u, t := req.user, req.tenant;
    var restated := db.(members := db.members[Key(u, t) := Restated(db, req)]);
    db.(members := ClearedIn(restated, u, t, DroppedRoles(db, req)),
        roleRows := db.roleRows + RowsFor(u, t, AddedRoles(db, req)) - RowsFor(u, t, DroppedRoles(db, req)),
        permRows := db.permRows + PermRowsFor(u, t, AddedPerms(db, req)) - PermRowsFor(u, t, DroppedPerms(db, req)))
  }

  /** Everything the request newly hands out may be handed out by this tenant. */
  predicate HandsOutAllowed(db: Db, req: Request)
    requires req.MemberSave?
  {
    && (PrimaryChanges(db, req) && NonEmpty(req.primary).Some? ==> Assignable(db, req.tenant, NonEmpty(req.primary).value))
    && (forall r :: r in AddedRoles(db, req) ==> Assignable(db, req.tenant, r))
    && (forall n :: n in AddedPerms(db, req) ==> Delegable(db, n))
  }

  /** The primary role is set as asked for, if that is allowed. */
  lemma PrimaryEffect(s: State, req: Request)
    requires req.MemberSave? && Key(req.user, req.tenant) in s.db.members
    ensures RunPlan(s, PrimaryPart(s.db, req)).ok
       <==> (PrimaryChanges(s.db, req) && NonEmpty(req.primary).Some? ==> Assignable(s.db, req.tenant, NonEmpty(req.primary).value))
    ensures RunPlan(s, PrimaryPart(s.db, req)).ok ==>
              RunPlan(s, PrimaryPart(s.db, req)).state.db == s.db.(members :=
                s.db.members[Key(req.user, req.tenant) := s.db.members[Key(req.user, req.tenant)].(role := NonEmpty(req.primary))])
  {
    var part := PrimaryPart(s.db, req);
    if part == [] {
      assert s.db.members == s.db.members[Key(req.user, req.tenant) := s.db.members[Key(req.user, req.tenant)].(role := NonEmpty(req.primary))];
    } else {
      assert part[1..] == [];
    }
  }

  lemma StatusEffect(s: State, db: Db, req: Request)
    requires req.MemberSave? && Key(req.user, req.tenant) in db.members && Key(req.user, req.tenant) in s.db.members
    ensures RunPlan(s, StatusPart(db, req)).ok
    ensures RunPlan(s, StatusPart(db, req)).state.db == if StatusChanges(db, req)
              then s.db.(members := s.db.members[Key(req.user, req.tenant) := s.db.members[Key(req.user, req.tenant)].(enabled := req.active.value)])
              else s.db
  {
    var part := StatusPart(db, req);
    if part != [] { assert part[1..] == []; }
  }

  lemma PrimaryAndStatusEffect(s: State, req: Request)
    requires req.MemberSave? && Key(req.user, req.tenant) in s.db.members
    ensures RunPlan(s, PrimaryPart(s.db, req) + StatusPart(s.db, req)).ok
       <==> (PrimaryChanges(s.db, req) && NonEmpty(req.primary).Some? ==> Assignable(s.db, req.tenant, NonEmpty(req.primary).value))
    ensures RunPlan(s, PrimaryPart(s.db, req) + StatusPart(s.db, req)).ok ==>
              RunPlan(s, PrimaryPart(s.db, req) + StatusPart(s.db, req)).state.db
              == s.db.(members := s.db.members[Key(req.user, req.tenant) := Restated(s.db, req)])
  {
    PlanConcat(s, PrimaryPart(s.db, req), StatusPart(s.db, req));
    PrimaryEffect(s, req);
    if RunPlan(s, PrimaryPart(s.db, req)).ok {
      var s1 := RunPlan(s, PrimaryPart(s.db, req)).state;
      StatusEffect(s1, s.db, req);
      RestatedInTwoSteps(s.db, req, s1.db.members, RunPlan(s1, StatusPart(s.db, req)).state.db.members);
    }
  }

  lemma RestatedInTwoSteps(db: Db, req: Request, one: map<Key, Membership>, two: map<Key, Membership>)
    requires req.MemberSave? && Key(req.user, req.tenant) in db.members
    requires var k := Key(req.user, req.tenant);
             && one == db.members[k := db.members[k].(role := NonEmpty(req.primary))]
             && two == if StatusChanges(db, req) then one[k := one[k].(enabled := req.active.value)] else one
    ensures two == db.members[Key(req.user, req.tenant) := Restated(db, req)]
  {
  }

  lemma RolePartEffect(s: State, u: UserId, t: TenantId, adds: seq<RoleId>, drops: seq<RoleId>)
    requires Key(u, t) in s.db.members
    ensures RunPlan(s, Adding(u, t, adds) + Removing(u, t, drops)).ok <==> forall r :: r in adds ==> Assignable(s.db, t, r)
    ensures RunPlan(s, Adding(u, t, adds) + Removing(u, t, drops)).ok ==>
              RunPlan(s, Adding(u, t, adds) + Removing(u, t, drops)).state.db
              == s.db.(roleRows := s.db.roleRows + RowsFor(u, t, Elements(adds)) - RowsFor(u, t, Elements(drops)),
                       members := ClearedIn(s.db, u, t, Elements(drops)))
  {
    PlanConcat(s, Adding(u, t, adds), Removing(u, t, drops));
    AddingEffect(s, u, t, adds);
    if RunPlan(s, Adding(u, t, adds)).ok {
      RemovingEffect(RunPlan(s, Adding(u, t, adds)).state, u, t, drops);
    }
  }

  lemma PermPartEffect(s: State, u: UserId, t: TenantId, adds: seq<PermName>, drops: seq<PermName>)
    requires Key(u, t) in s.db.members && forall n :: n in drops ==> n in s.db.catalogue
    ensures RunPlan(s, Granting(u, t, adds) + Revoking(u, t, drops)).ok <==> forall n :: n in adds ==> Delegable(s.db, n)
    ensures RunPlan(s, Granting(u, t, adds) + Revoking(u, t, drops)).ok ==>
              RunPlan(s, Granting(u, t, adds) + Revoking(u, t, drops)).state.db
              == s.db.(permRows := s.db.permRows + PermRowsFor(u, t, Elements(adds)) - PermRowsFor(u, t, Elements(drops)))
  {
    PlanConcat(s, Granting(u, t, adds), Revoking(u, t, drops));
    GrantingEffect(s, u, t, adds);
    if RunPlan(s, Granting(u, t, adds)).ok {
      RevokingEffect(RunPlan(s, Granting(u, t, adds)).state, u, t, drops);
    }
  }

  lemma DirectPermsInCatalogue(db: Db, u: UserId, t: TenantId)
    requires WellFormed(db)
    ensures DirectPerms(db, u, t) <= db.catalogue.Keys
  {
  }

  /** The sequences the plan walks through, by their elements. */
  lemma PartElements(db: Db, req: Request)
    requires req.MemberSave?
    ensures Elements(Without(WantedExtra(req), ListedRoles(db, req.user, req.tenant))) == AddedRoles(db, req)
    ensures Elements(Without(Sorted(ListedRoles(db, req.user, req.tenant)), Elements(WantedExtra(req)))) == DroppedRoles(db, req)
    ensures Elements(Without(Dedup(req.perms), DirectPerms(db, req.user, req.tenant))) == AddedPerms(db, req)
    ensures Elements(Without(Sorted(DirectPerms(db, req.user, req.tenant)), Elements(req.perms))) == DroppedPerms(db, req)
  {
  }

  lemma RowsEffect(s: State, u: UserId, t: TenantId, adds: seq<RoleId>, drops: seq<RoleId>, added: set<RoleId>, dropped: set<RoleId>)
    requires Key(u, t) in s.db.members && Elements(adds) == added && Elements(drops) == dropped
    ensures RunPlan(s, Adding(u, t, adds) + Removing(u, t, drops)).ok <==> forall r :: r in added ==> Assignable(s.db, t, r)
    ensures RunPlan(s, Adding(u, t, adds) + Removing(u, t, drops)).ok ==>
              RunPlan(s, Adding(u, t, adds) + Removing(u, t, drops)).state.db
              == s.db.(roleRows := s.db.roleRows + RowsFor(u, t, added) - RowsFor(u, t, dropped), members := ClearedIn(s.db, u, t, dropped))
  {
    RolePartEffect(s, u, t, adds, drops);
    assert forall r :: r in adds <==> r in added;
  }

  /** The rows half of the role changes, from a database where only memberships differ. */
  lemma RowsHalfEffect(s: State, db: Db, req: Request)
    requires req.MemberSave? && Key(req.user, req.tenant) in s.db.members
    requires s.db == db.(members := s.db.members)
    ensures RunPlan(s, AddPart(db, req) + DropPart(db, req)).ok <==> forall r :: r in AddedRoles(db, req) ==> Assignable(db, req.tenant, r)
    ensures RunPlan(s, AddPart(db, req) + DropPart(db, req)).ok ==>
              RunPlan(s, AddPart(db, req) + DropPart(db, req)).state.db
              == s.db.(roleRows := db.roleRows + RowsFor(req.user, req.tenant, AddedRoles(db, req)) - RowsFor(req.user, req.tenant, DroppedRoles(db, req)),
                       members := ClearedIn(s.db, req.user, req.tenant, DroppedRoles(db, req)))
  {
    var u, t := req.user, req.tenant;
    var extra := WantedExtra(req);
    var listed := ListedRoles(db, u, t);
    RowsEffect(s, u, t, Without(extra, listed), Without(Sorted(listed), Elements(extra)), Elements(extra) - listed, listed - Elements(extra));
    assert forall r :: Assignable(s.db, t, r) <==> Assignable(db, t, r);
  }

  /** The role half of the plan. */
  lemma RoleHalfEffect(s: State, req: Request)
    requires req.MemberSave? && Key(req.user, req.tenant) in s.db.members
    ensures RunPlan(s, RoleHalf(s.db, req)).ok <==>
              && (PrimaryChanges(s.db, req) && NonEmpty(req.primary).Some? ==> Assignable(s.db, req.tenant, NonEmpty(req.primary).value))
              && (forall r :: r in AddedRoles(s.db, req) ==> Assignable(s.db, req.tenant, r))
    ensures RunPlan(s, RoleHalf(s.db, req)).ok ==> RunPlan(s, RoleHalf(s.db, req)).state.db == Saved(s.db, req).(permRows := s.db.permRows)
  {
    var ab := PrimaryPart(s.db, req) + StatusPart(s.db, req);
    PlanConcat(s, ab, AddPart(s.db, req) + DropPart(s.db, req));
    PrimaryAndStatusEffect(s, req);
    if RunPlan(s, ab).ok {
      RowsHalfEffect(RunPlan(s, ab).state, s.db, req);
    }
  }

  ghost function RoleHalf(db: Db, req: Request): seq<Op>
    requires req.MemberSave? && Key(req.user, req.tenant) in db.members
  {
    (PrimaryPart(db, req) + StatusPart(db, req)) + (AddPart(db, req) + DropPart(db, req))
  }

  /** The plan goes through exactly when everything it hands out is allowed, and then leaves `Saved`. */
  lemma MemberPlanEffect(s: State, req: Request)
    requires WellFormed(s.db) && req.MemberSave? && Key(req.user, req.tenant) in s.db.members
    ensures RunPlan(s, MemberPlan(s.db, req)).ok <==> HandsOutAllowed(s.db, req)
    ensures RunPlan(s, MemberPlan(s.db, req)).ok ==> RunPlan(s, MemberPlan(s.db, req)).state.db == Saved(s.db, req)
  {
    var u, t := req.user, req.tenant;
    var grants := Without(Dedup(req.perms), DirectPerms(s.db, u, t));
    var revokes := Without(Sorted(DirectPerms(s.db, u, t)), Elements(req.perms));
    PlanConcat(s, RoleHalf(s.db, req), GrantPart(s.db, req) + RevokePart(s.db, req));
    PartElements(s.db, req);
    RoleHalfEffect(s, req);
    if RunPlan(s, RoleHalf(s.db, req)).ok {
      PermHalfEffect(s, RunPlan(s, RoleHalf(s.db, req)).state, req, grants, revokes);
    }
  }

  /** The permission half, after a role half that left catalogue, permission rows and the set of members alone. */
  lemma PermHalfEffect(s: State, s2: State, req: Request, grants: seq<PermName>, revokes: seq<PermName>)
    requires WellFormed(s.db) && req.MemberSave? && Key(req.user, req.tenant) in s2.db.members
    requires s2.db.catalogue == s.db.catalogue && s2.db.permRows == s.db.permRows
    requires Elements(grants) == AddedPerms(s.db, req) && Elements(revokes) == DroppedPerms(s.db, req)
    ensures var plan := Granting(req.user, req.tenant, grants) + Revoking(req.user, req.tenant, revokes);
            && (RunPlan(s2, plan).ok <==> forall n :: n in AddedPerms(s.db, req) ==> Delegable(s.db, n))
            && (RunPlan(s2, plan).ok ==> RunPlan(s2, plan).state.db == s2.db.(permRows :=
                  s.db.permRows + PermRowsFor(req.user, req.tenant, AddedPerms(s.db, req)) - PermRowsFor(req.user, req.tenant, DroppedPerms(s.db, req))))
  {
    DirectPermsInCatalogue(s.db, req.user, req.tenant);
    assert forall n :: n in grants <==> n in Elements(grants);
    assert forall n :: n in revokes ==> n in Elements(revokes);
    PermPartEffect(s2, req.user, req.tenant, grants, revokes);
    assert forall n :: Delegable(s2.db, n) <==> Delegable(s.db, n);
  }

  // ---- What the member has afterwards ----

  /** The old primary role was also a global row: that row is not listed, so it is never dropped. */
  predicate OldPrimaryDuplicated(db: Db, req: Request)
    requires req.MemberSave?
  {
    var p := PrimaryOf(db, req.user, req.tenant);
    p.Some? && p.value in ExtraRoles(db, req.user, req.tenant) && p.value !in Elements(WantedExtra(req))
  }

  /** The new primary role is currently a listed global row: dropping that row clears the primary role just set. */
  predicate NewPrimaryListed(db: Db, req: Request)
    requires req.MemberSave?
  {
    var w := NonEmpty(req.primary);
    w.Some? && w.value in ListedRoles(db, req.user, req.tenant)
  }

  predicate AccountInactive(db: Db, u: UserId)
  {
    u in db.accounts && !db.accounts[u].active
  }

  /** The account is inactive everywhere, so the member already shows as disabled and the membership is left enabled. */
  predicate InactiveLeftEnabled(db: Db, req: Request)
    requires req.MemberSave? && Key(req.user, req.tenant) in db.members
  {
    req.active == Some(false) && AccountInactive(db, req.user) && db.members[Key(req.user, req.tenant)].enabled
  }

  /** The membership is enabled or disabled as asked for. */
  predicate StatusAsRequested(db: Db, req: Request)
    requires req.MemberSave? && Key(req.user, req.tenant) in db.members
  {
    req.active.Some? ==> db.members[Key(req.user, req.tenant)].enabled == req.active.value
  }

  /** Membership and rows say what was asked for. */
  predicate AsRequested(db: Db, req: Request)
    requires req.MemberSave? && Key(req.user, req.tenant) in db.members
  {
    && PrimaryOf(db, req.user, req.tenant) == NonEmpty(req.primary)
    && ExtraRoles(db, req.user, req.tenant) == Elements(WantedExtra(req))
    && DirectPerms(db, req.user, req.tenant) == Elements(req.perms)
    && StatusAsRequested(db, req)
  }

  /** The status afterwards, in the membership and as the member's record shows it; without a request it stays. */
  lemma SavedStatus(db: Db, req: Request)
    requires req.MemberSave? && Key(req.user, req.tenant) in db.members
    ensures var before, after := db.members[Key(req.user, req.tenant)], Saved(db, req).members[Key(req.user, req.tenant)];
            && after.owner == before.owner
            && (req.active.None? ==> after.enabled == before.enabled)
            && (StatusAsRequested(Saved(db, req), req) <==> !InactiveLeftEnabled(db, req))
            && (req.active.Some? ==> (ShownActive(Saved(db, req), req.user, req.tenant) == req.active.value
                                      <==> !(req.active.value && AccountInactive(db, req.user))))
  {
  }

  lemma SavedPerms(db: Db, req: Request)
    requires req.MemberSave? && Key(req.user, req.tenant) in db.members
    ensures DirectPerms(Saved(db, req), req.user, req.tenant) == Elements(req.perms)
  {
    var u, t := req.user, req.tenant;
    forall n ensures n in DirectPerms(Saved(db, req), u, t) <==> n in Elements(req.perms) {
      assert n in DirectPerms(db, u, t) <==> PermRow(u, t, n, GLOBAL) in db.permRows;
      assert n in DirectPerms(Saved(db, req), u, t) <==> PermRow(u, t, n, GLOBAL) in Saved(db, req).permRows;
    }
  }

  lemma SavedRoles(db: Db, req: Request)
    requires req.MemberSave? && Key(req.user, req.tenant) in db.members
    ensures PrimaryOf(Saved(db, req), req.user, req.tenant) == if NewPrimaryListed(db, req) then None else NonEmpty(req.primary)
    ensures ExtraRoles(Saved(db, req), req.user, req.tenant)
         == Elements(WantedExtra(req)) + (if OldPrimaryDuplicated(db, req) then Chosen(PrimaryOf(db, req.user, req.tenant)) else {})
  {
    SavedPrimary(db, req);
    SavedExtraRoles(db, req);
  }

  lemma SavedPrimary(db: Db, req: Request)
    requires req.MemberSave? && Key(req.user, req.tenant) in db.members
    ensures PrimaryOf(Saved(db, req), req.user, req.tenant) == if NewPrimaryListed(db, req) then None else NonEmpty(req.primary)
  {
    assert NonEmpty(req.primary).Some? ==> NonEmpty(req.primary).value !in Elements(WantedExtra(req));
  }

  lemma RowsShowExtraRoles(db: Db, u: UserId, t: TenantId, r: RoleId)
    ensures r in ExtraRoles(db, u, t) <==> RoleRow(u, t, r, GLOBAL) in db.roleRows
  {
  }

  lemma SavedRows(db: Db, req: Request)
    requires req.MemberSave? && Key(req.user, req.tenant) in db.members
    ensures ExtraRoles(Saved(db, req), req.user, req.tenant) == ExtraRoles(db, req.user, req.tenant) + AddedRoles(db, req) - DroppedRoles(db, req)
  {
    var u, t := req.user, req.tenant;
    forall r ensures r in ExtraRoles(Saved(db, req), u, t) <==> r in ExtraRoles(db, u, t) + AddedRoles(db, req) - DroppedRoles(db, req) {
      RowsShowExtraRoles(db, u, t, r);
      RowsShowExtraRoles(Saved(db, req), u, t, r);
    }
  }

  lemma SavedExtraRoles(db: Db, req: Request)
    requires req.MemberSave? && Key(req.user, req.tenant) in db.members
    ensures ExtraRoles(Saved(db, req), req.user, req.tenant)
         == Elements(WantedExtra(req)) + (if OldPrimaryDuplicated(db, req) then Chosen(PrimaryOf(db, req.user, req.tenant)) else {})
  {
    var u, t := req.user, req.tenant;
    SavedRows(db, req);
    LeftOver(ExtraRoles(db, u, t), PrimaryOf(db, u, t), Elements(WantedExtra(req)));
  }

  /** Only the old primary role can stay as a row without being wanted. */
  lemma LeftOver(extra: set<RoleId>, primary: Option<RoleId>, wanted: set<RoleId>)
    ensures var listed := extra - Chosen(primary);
            extra + (wanted - listed) - (listed - wanted)
            == wanted + (if primary.Some? && primary.value in extra && primary.value !in wanted then Chosen(primary) else {})
  {
  }

  /** Nothing but this member's membership and global rows differs. */
  ghost predicate OnlyMember(a: Db, b: Db, u: UserId, t: TenantId)
  {
    && b == a.(members := b.members, roleRows := b.roleRows, permRows := b.permRows)
    && b.members.Keys == a.members.Keys
    && (forall k :: k in a.members && k != Key(u, t) ==> b.members[k] == a.members[k])
    && (forall row: RoleRow :: Key(row.user, row.tenant) != Key(u, t) || row.scope != GLOBAL ==> (row in b.roleRows <==> row in a.roleRows))
    && (forall row: PermRow :: Key(row.user, row.tenant) != Key(u, t) || row.scope != GLOBAL ==> (row in b.permRows <==> row in a.permRows))
  }

  lemma SavedTouchesOnlyMember(db: Db, req: Request)
    requires req.MemberSave? && Key(req.user, req.tenant) in db.members
    ensures OnlyMember(db, Saved(db, req), req.user, req.tenant)
  {
  }

  /** The exact outcome: when the request goes through, and the database it leaves. */
  lemma MemberSaveOutcome(s: State, req: Request)
    requires WellFormed(s.db) && req.MemberSave?
    ensures Exec(s, req).ok <==>
              && AuthorityOf(s, req.actor, req.tenant).Manages()
              && Key(req.user, req.tenant) in s.db.members
              && MemberSaveAllowed(s.db, req, AuthorityOf(s, req.actor, req.tenant).platformAdmin)
              && HandsOutAllowed(s.db, req)
    ensures Exec(s, req).state.db == if Exec(s, req).ok then Saved(s.db, req) else s.db
  {
    var s1 := AfterRead(s, req.actor, req.tenant);
    assert s1.db == s.db;
    if Key(req.user, req.tenant) in s.db.members {
      MemberPlanEffect(s1, req);
    }
  }

  /**
   * `member_save` succeeds exactly as `MemberSaveOutcome` says; then the member has what was asked for if and only if the
   * requested primary role was no listed supplementary role, the old primary role was not duplicated as one, and not an
   * enabled membership of an inactive account was to be disabled. Scoped rows, other members and everything else are
   * untouched, a status that is not asked for stays, and a refusal changes nothing.
   */
  lemma MemberSaveMeetsRequest(s: State, req: Request)
    requires WellFormed(s.db) && req.MemberSave?
    ensures Exec(s, req).ok ==> OnlyMember(s.db, Exec(s, req).state.db, req.user, req.tenant)
    ensures Exec(s, req).ok ==> DirectPerms(Exec(s, req).state.db, req.user, req.tenant) == Elements(req.perms)
    ensures Exec(s, req).ok ==>
              && Key(req.user, req.tenant) in s.db.members && Key(req.user, req.tenant) in Exec(s, req).state.db.members
              && (AsRequested(Exec(s, req).state.db, req)
                  <==> !NewPrimaryListed(s.db, req) && !OldPrimaryDuplicated(s.db, req) && !InactiveLeftEnabled(s.db, req))
    ensures Exec(s, req).ok && req.active.None? ==>
              Exec(s, req).state.db.members[Key(req.user, req.tenant)].enabled == s.db.members[Key(req.user, req.tenant)].enabled
    ensures !Exec(s, req).ok ==> Exec(s, req).state.db == s.db
  {
    MemberSaveOutcome(s, req);
    if Exec(s, req).ok {
      SavedMeetsRequest(s.db, req);
      SavedTouchesOnlyMember(s.db, req);
    }
  }

  lemma SavedMeetsRequest(db: Db, req: Request)
    requires req.MemberSave? && Key(req.user, req.tenant) in db.members
    ensures DirectPerms(Saved(db, req), req.user, req.tenant) == Elements(req.perms)
    ensures AsRequested(Saved(db, req), req)
       <==> !NewPrimaryListed(db, req) && !OldPrimaryDuplicated(db, req) && !InactiveLeftEnabled(db, req)
    ensures req.active.None? ==> Saved(db, req).members[Key(req.user, req.tenant)].enabled == db.members[Key(req.user, req.tenant)].enabled
  {
    SavedPerms(db, req);
    SavedRoles(db, req);
    SavedStatus(db, req);
  }

  // ---- Requests that are carried out and yet not met ----

  /** An organisation whose member holds `r` as supplementary role, and as primary role what is given. */
  function SampleDb(primary: Option<RoleId>, active: bool): Db
  {
    Db(map[],
       map["r" := Role(Some("t"), "Sales", {})],
       map[Key("boss", "t") := Membership(None, true, true), Key("ann", "t") := Membership(primary, false, true)],
       {RoleRow("ann", "t", "r", GLOBAL)},
       {}, map[], map["ann" := Account("ann@acme.org", active)], map["t" := "acme"], {"t", "r"}, false)
  }

  /** What the owner asks for the member. */
  function Ask(primary: Option<RoleId>, roles: seq<RoleId>, active: Option<bool>): Request
  {
    MemberSave("t", "boss", "ann", primary, roles, [], active)
  }

  lemma SampleIsWellFormed(primary: Option<RoleId>, active: bool)
    requires primary.Some? ==> primary.value == "r"
    ensures WellFormed(SampleDb(primary, active))
    ensures ExtraRoles(SampleDb(primary, active), "ann", "t") == {"r"}
  {
    assert RoleRow("ann", "t", "r", GLOBAL) in SampleDb(primary, active).roleRows;
  }

  /** The owner may hand out the organisation's own role, so each of the requests below goes through. */
  lemma AskGoesThrough(current: Option<RoleId>, account: bool, primary: Option<RoleId>, roles: seq<RoleId>, active: Option<bool>)
    requires current.Some? ==> current.value == "r"
    requires primary.Some? ==> primary.value == "r"
    requires Elements(roles) <= {"r"}
    ensures var s, req := State(SampleDb(current, account), map[]), Ask(primary, roles, active);
            Exec(s, req).ok && Exec(s, req).state.db == Saved(s.db, req)
  {
    var s, req := State(SampleDb(current, account), map[]), Ask(primary, roles, active);
    SampleIsWellFormed(current, account);
    OwnerManages(s, current, account);
    AskHandsOutAllowed(s.db, current, account, req, primary, roles, active);
    MemberSaveOutcome(s, req);
  }

  lemma OwnerManages(s: State, current: Option<RoleId>, account: bool)
    requires s.db == SampleDb(current, account)
    ensures AuthorityOf(s, "boss", "t").Manages()
  {
    assert s.db.members[Key("boss", "t")].owner;
  }

  lemma AskHandsOutAllowed(db: Db, current: Option<RoleId>, account: bool, req: Request, primary: Option<RoleId>, roles: seq<RoleId>, active: Option<bool>)
    requires db == SampleDb(current, account) && req == Ask(primary, roles, active)
    requires primary.Some? ==> primary.value == "r"
    requires Elements(roles) <= {"r"}
    ensures HandsOutAllowed(db, req)
  {
    assert Owned(db, "t", "r");
    assert Elements(req.perms) == {};
    forall r | r in AddedRoles(db, req) ensures Assignable(db, "t", r) {
      assert r in Elements(roles);
    }
  }

  /** Making a supplementary role the primary one is accepted, but leaves the member without it. */
  lemma PromotionLosesTheRole() returns (s: State, req: Request)
    ensures WellFormed(s.db) && req.MemberSave? && req.primary == Some("r") && Exec(s, req).ok
    ensures "r" in ExtraRoles(s.db, req.user, req.tenant)
    ensures PrimaryOf(Exec(s, req).state.db, req.user, req.tenant) == None
    ensures "r" !in ExtraRoles(Exec(s, req).state.db, req.user, req.tenant)
  {
    s, req := State(SampleDb(None, true), map[]), Ask(Some("r"), [], None);
    SampleIsWellFormed(None, true);
    assert Elements(req.roles) == {};
    AskGoesThrough(None, true, Some("r"), [], None);
    SavedRoles(s.db, req);
  }

  /** Taking the primary role away, and asking for no other, is accepted, but a duplicate row keeps the role with the member. */
  lemma DemotionKeepsTheRole() returns (s: State, req: Request)
    ensures WellFormed(s.db) && req.MemberSave? && req.primary == None && req.roles == [] && Exec(s, req).ok
    ensures PrimaryOf(s.db, req.user, req.tenant) == Some("r")
    ensures "r" in ExtraRoles(Exec(s, req).state.db, req.user, req.tenant)
  {
    s, req := State(SampleDb(Some("r"), true), map[]), Ask(None, [], None);
    SampleIsWellFormed(Some("r"), true);
    assert Elements(req.roles) == {};
    AskGoesThrough(Some("r"), true, None, [], None);
    SavedRoles(s.db, req);
  }

  /** Disabling the membership of an inactive account is accepted, but leaves the membership enabled. */
  lemma DisablingIsLost() returns (s: State, req: Request)
    ensures WellFormed(s.db) && req.MemberSave? && req.active == Some(false) && Exec(s, req).ok
    ensures Key(req.user, req.tenant) in Exec(s, req).state.db.members
    ensures Exec(s, req).state.db.members[Key(req.user, req.tenant)].enabled
  {
    s, req := State(SampleDb(None, false), map[]), Ask(None, ["r"], Some(false));
    SampleIsWellFormed(None, false);
    AskGoesThrough(None, false, None, ["r"], Some(false));
    SavedStatus(s.db, req);
  }
}
