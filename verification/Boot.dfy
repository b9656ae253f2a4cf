/** The first state: what the seed and the first declarations leave is a state that the run theorems start from. */
module Boot {
  import opened Model
  import opened Steps
  import opened Isolation
  import opened Coherence
  import opened Requests
  import opened Runs
  import opened Grants
  import opened Seed
  import opened Delegation
  import opened RoleNames

  // ---- The seed keeps the database sound ----

  lemma {:induction false} SeededKeys(cat: map<PermName, Permission>, defs: seq<PermDef>)
    ensures SeededCatalogue(cat, defs).Keys == cat.Keys + NamesOf(defs)
    decreases |defs|
  {
    if defs != [] {
      assert defs == [defs[0]] + defs[1..];
      assert NamesOf(defs) == {defs[0].name} + NamesOf(defs[1..]);
      SeededKeys(SeedOne(cat, defs[0]), defs[1..]);
    }
  }

  lemma CatalogueGrowthStaysSound(db: Db, cat: map<PermName, Permission>)
    requires Sound(db) && db.catalogue.Keys <= cat.Keys
    ensures Sound(db.(catalogue := cat))
  {
  }

  /** One role seed keeps soundness: the role is a platform role, found or new, and carries known permissions only. */
  lemma WithRoleStaysSound(db: Db, r: RoleId, name: string, target: set<PermName>, known: set<PermName>)
    requires Sound(db) && known <= db.catalogue.Keys && SeedsRole(db, r, name)
    ensures Sound(WithRole(db, r, name, target, known))
  {
    SeenMoreStaysSound(db, db.seen + {r});
    RolePutStaysSound(db.(seen := db.seen + {r}), r, SyncRole(db.roles, r, name, target, known)[r]);
  }

  lemma WithRoleIgnoresCatalogue(db: Db, cat: map<PermName, Permission>, r: RoleId, name: string)
    ensures SeedsRole(db.(catalogue := cat), r, name) <==> SeedsRole(db, r, name)
  {
    assert GlobalNamed(db.(catalogue := cat), name) == GlobalNamed(db, name);
  }

  /** The database after the seed is sound. */
  lemma SeededIsSound(db: Db, defs: seq<PermDef>, names: SeedNames, ids: RoleIds)
    requires Sound(db) && LookedUp(db, NamesOf(defs), names, ids)
    ensures Sound(Seeded(db, defs, names, ids))
  {
    var known, cat := NamesOf(defs), SeededCatalogue(db.catalogue, defs);
    var db0 := db.(catalogue := cat);
    var db1 := WithRole(db0, ids.admin, names.admin, known, known);
    var db2 := WithRole(db1, ids.user, names.user, USER_PERMISSIONS, known);
    SeededKeys(db.catalogue, defs);
    CatalogueGrowthStaysSound(db, cat);
    WithRoleIgnoresCatalogue(db, cat, ids.admin, names.admin);
    WithRoleStaysSound(db0, ids.admin, names.admin, known, known);
    WithRoleIgnoresCatalogue(WithRole(db, ids.admin, names.admin, known, known), cat, ids.user, names.user);
    WithRoleStaysSound(db1, ids.user, names.user, USER_PERMISSIONS, known);
    WithRoleIgnoresCatalogue(db2.(catalogue := db.catalogue), cat, ids.owner, TENANT_ADMIN_ROLE);
    WithRoleStaysSound(db2, ids.owner, TENANT_ADMIN_ROLE, TENANT_ADMIN_PERMISSIONS, known);
    SeededIsWithRoles(db, defs, names, ids);
  }

  // ---- Invitations and names ----

  /** Roles keep their names and tenants; the three seeded ones are platform roles under their names. */
  predicate RolesSeeded(db: Db, once: Db, names: SeedNames, ids: RoleIds)
  {
    && once.roles.Keys == db.roles.Keys + {ids.admin, ids.user, ids.owner}
    && (forall r :: r in db.roles ==> once.roles[r].name == db.roles[r].name && once.roles[r].tenant == db.roles[r].tenant)
    && IsGlobalNamed(once, ids.admin, names.admin) && IsGlobalNamed(once, ids.user, names.user)
    && IsGlobalNamed(once, ids.owner, TENANT_ADMIN_ROLE)
  }

  lemma SeededRolesAre(db: Db, defs: seq<PermDef>, names: SeedNames, ids: RoleIds)
    requires DistinctNames(names) && LookedUp(db, NamesOf(defs), names, ids)
    ensures RolesSeeded(db, Seeded(db, defs, names, ids), names, ids) && Apart(ids)
  {
    LookupsFromStart(db, NamesOf(defs), names, ids);
    ThreeRolesPut(db, Seeded(db, defs, names, ids), names, ids, NamesOf(defs), USER_PERMISSIONS, TENANT_ADMIN_PERMISSIONS);
  }

  lemma ThreeRolesPut(db: Db, once: Db, names: SeedNames, ids: RoleIds, known: set<PermName>, user: set<PermName>, owner: set<PermName>)
    requires Apart(ids)
    requires SeedsRole(db, ids.admin, names.admin) && SeedsRole(db, ids.user, names.user) && SeedsRole(db, ids.owner, TENANT_ADMIN_ROLE)
    requires once.roles == SyncRole(SyncRole(SyncRole(db.roles, ids.admin, names.admin, known, known), ids.user, names.user, user, known),
                                    ids.owner, TENANT_ADMIN_ROLE, owner, known)
    ensures RolesSeeded(db, once, names, ids)
  {
  }

  lemma OffersStay(db: Db, once: Db, names: SeedNames, ids: RoleIds)
    requires RolesSeeded(db, once, names, ids) && WellFormed(db) && InvitesOfferNoReserved(db) && once.invites == db.invites
    requires forall r :: r in {ids.admin, ids.user, ids.owner} && r !in db.roles ==> r !in db.seen
    ensures InvitesOfferNoReserved(once)
  {
    forall i | i in once.invites && once.invites[i].role.Some? ensures !IsReservedRole(once, once.invites[i].role.value) {
      assert once.invites[i].role.value in db.seen;
      assert !IsReservedRole(db, once.invites[i].role.value);
    }
  }

  /** The seed makes no invitation offer a reserved role. */
  lemma SeededOffersNoReserved(db: Db, defs: seq<PermDef>, names: SeedNames, ids: RoleIds)
    requires WellFormed(db) && InvitesOfferNoReserved(db) && DistinctNames(names) && LookedUp(db, NamesOf(defs), names, ids)
    ensures InvitesOfferNoReserved(Seeded(db, defs, names, ids))
  {
    SeededRolesAre(db, defs, names, ids);
    LookupsFromStart(db, NamesOf(defs), names, ids);
    OffersStay(db, Seeded(db, defs, names, ids), names, ids);
  }

  /** Nobody but the role that the seed found carries this name, ignoring case. */
  predicate NameUnused(db: Db, id: RoleId, name: string)
  {
    forall r :: r in db.roles && r != id ==> Lower(db.roles[r].name) != Lower(name)
  }

  predicate NamesTellApart(names: SeedNames)
  {
    && Lower(names.admin) != Lower(names.user)
    && Lower(names.admin) != Lower(TENANT_ADMIN_ROLE)
    && Lower(names.user) != Lower(TENANT_ADMIN_ROLE)
  }

  predicate SeedNamesFree(db: Db, names: SeedNames, ids: RoleIds)
  {
    && NameUnused(db, ids.admin, names.admin) && NameUnused(db, ids.user, names.user) && NameUnused(db, ids.owner, TENANT_ADMIN_ROLE)
    && NamesTellApart(names)
  }

  lemma SeededNeedsFree(db: Db, once: Db, id: RoleId, name: string)
    requires NamesDistinct(once) && IsGlobalNamed(once, id, name)
    requires forall r :: r in db.roles ==> r in once.roles && once.roles[r].name == db.roles[r].name
    ensures NameUnused(db, id, name)
  {
    forall r | r in db.roles && r != id ensures Lower(db.roles[r].name) != Lower(name) {
      assert SeenTogether(once, r, id);
    }
  }

  /** A role and its name after the seed: one of the database's own, or one of the three. */
  lemma TellApart(db: Db, once: Db, names: SeedNames, ids: RoleIds, x: RoleId, y: RoleId)
    requires RolesSeeded(db, once, names, ids) && NamesDistinct(db) && SeedNamesFree(db, names, ids)
    requires x in once.roles && y in once.roles && x != y && SeenTogether(once, x, y)
    requires x in db.roles
    ensures Lower(once.roles[x].name) != Lower(once.roles[y].name)
  {
    if y in db.roles { assert SeenTogether(db, x, y); }
  }

  /** The visible names are distinct after the seed exactly when the three names were free to be used. */
  lemma SeededNamesDistinct(db: Db, defs: seq<PermDef>, names: SeedNames, ids: RoleIds)
    requires DistinctNames(names) && LookedUp(db, NamesOf(defs), names, ids) && NamesDistinct(db)
    ensures NamesDistinct(Seeded(db, defs, names, ids)) <==> SeedNamesFree(db, names, ids)
  {
    SeededRolesAre(db, defs, names, ids);
    NamesDistinctIff(db, Seeded(db, defs, names, ids), names, ids);
  }

  lemma NamesDistinctIff(db: Db, once: Db, names: SeedNames, ids: RoleIds)
    requires RolesSeeded(db, once, names, ids) && Apart(ids) && NamesDistinct(db)
    ensures NamesDistinct(once) <==> SeedNamesFree(db, names, ids)
  {
    if NamesDistinct(once) {
      SeededNeedsFree(db, once, ids.admin, names.admin);
      SeededNeedsFree(db, once, ids.user, names.user);
      SeededNeedsFree(db, once, ids.owner, TENANT_ADMIN_ROLE);
      assert SeenTogether(once, ids.admin, ids.user) && SeenTogether(once, ids.admin, ids.owner) && SeenTogether(once, ids.user, ids.owner);
    }
    if SeedNamesFree(db, names, ids) { FreeNamesAreDistinct(db, once, names, ids); }
  }

  lemma FreeNamesAreDistinct(db: Db, once: Db, names: SeedNames, ids: RoleIds)
    requires RolesSeeded(db, once, names, ids) && NamesDistinct(db) && SeedNamesFree(db, names, ids)
    ensures NamesDistinct(once)
  {
    forall x, y | x in once.roles && y in once.roles && x != y && SeenTogether(once, x, y)
      ensures Lower(once.roles[x].name) != Lower(once.roles[y].name)
    {
      if x in db.roles {
        TellApart(db, once, names, ids, x, y);
      } else if y in db.roles {
        TellApart(db, once, names, ids, y, x);
      }
    }
  }

  // ---- The first declarations ----

  /** What the run theorems ask of the database they start from. */
  ghost predicate Ready(db: Db, g: RoleId)
  {
    && Sound(db) && InvitesOfferNoReserved(db) && AdminGuarded(db) && NamesDistinct(db)
    && IsGlobalNamed(db, g, TENANT_ADMIN_ROLE)
  }

  lemma DeclareStaysReady(db: Db, d: Declaration, adminRole: string, g: RoleId)
    requires Ready(db, g)
    ensures Ready(Declare(db, d, adminRole), g) && Declare(db, d, adminRole).members == db.members
    ensures Declare(db, d, adminRole).roleRows == db.roleRows
  {
    var s, e := State(db, map[]), Declares(d, adminRole);
    EventConfined(s, e);
    AdminStaysGuarded(s, e);
    DeclareKeepsNames(db, d, adminRole, g);
    DeclareKeepsHoldings(db, d, adminRole);
  }

  lemma DeclareKeepsHoldings(db: Db, d: Declaration, adminRole: string)
    ensures Declare(db, d, adminRole).members == db.members && Declare(db, d, adminRole).roleRows == db.roleRows
  {
  }

  lemma DeclareKeepsNames(db: Db, d: Declaration, adminRole: string, g: RoleId)
    requires NamesDistinct(db) && IsGlobalNamed(db, g, TENANT_ADMIN_ROLE)
    ensures NamesDistinct(Declare(db, d, adminRole)) && IsGlobalNamed(Declare(db, d, adminRole), g, TENANT_ADMIN_ROLE)
  {
    NoNewNamesStayDistinct(db, Declare(db, d, adminRole));
  }

  lemma {:induction false} DeclareAllStaysReady(db: Db, ds: seq<Declaration>, adminRole: string, g: RoleId)
    requires Ready(db, g)
    ensures Ready(DeclareAll(db, ds, adminRole), g) && DeclareAll(db, ds, adminRole).members == db.members
    ensures DeclareAll(db, ds, adminRole).roleRows == db.roleRows
    decreases |ds|
  {
    if ds != [] {
      DeclareStaysReady(db, ds[0], adminRole, g);
      DeclareAllStaysReady(Declare(db, ds[0], adminRole), ds[1..], adminRole, g);
    }
  }

  // ---- From an empty database ----

  function EmptyDb(enforcesForeignKeys: bool): Db
  {
    Db(map[], map[], map[], {}, {}, map[], map[], map[], {}, enforcesForeignKeys)
  }

  /** What the administrator of the installation is seeded with. */
  datatype Founder = Founder(user: UserId, email: string, tenant: TenantId, slug: string)

  /** `seed_default_tenant` and `seed_admin_user` on a database that has neither. */
  function Appointed(db: Db, f: Founder, adminRole: RoleId): Db
  {
    db.(slugs := db.slugs[f.tenant := f.slug],
        accounts := db.accounts[f.user := Account(f.email, true)],
        members := db.members[Key(f.user, f.tenant) := Membership(Some(adminRole), true, true)],
        seen := db.seen + {f.tenant})
  }

  lemma AppointedStaysReady(db: Db, f: Founder, adminRole: RoleId, g: RoleId)
    requires Ready(db, g) && adminRole in db.roles && db.roles[adminRole].tenant == None && IsFresh(db, f.tenant)
    ensures Ready(Appointed(db, f, adminRole), g)
  {
    AppointedStaysSound(db, f, adminRole);
    AppointedStaysGuarded(db, f, adminRole);
    NoNewNamesStayDistinct(db, Appointed(db, f, adminRole));
  }

  lemma AppointedStaysSound(db: Db, f: Founder, adminRole: RoleId)
    requires Sound(db) && adminRole in db.roles && db.roles[adminRole].tenant == None && IsFresh(db, f.tenant)
    ensures Sound(Appointed(db, f, adminRole))
  {
    assert Isolated(Appointed(db, f, adminRole));
  }

  lemma AppointedStaysGuarded(db: Db, f: Founder, adminRole: RoleId)
    requires InvitesOfferNoReserved(db) && AdminGuarded(db)
    ensures InvitesOfferNoReserved(Appointed(db, f, adminRole)) && AdminGuarded(Appointed(db, f, adminRole))
  {
    assert forall r :: IsReservedRole(Appointed(db, f, adminRole), r) <==> IsReservedRole(db, r);
  }

  /** A first start: seed, founder, declarations. */
  ghost function Booted(fk: bool, defs: seq<PermDef>, names: SeedNames, ids: RoleIds, f: Founder, ds: seq<Declaration>): Db
  {
    DeclareAll(Appointed(Seeded(EmptyDb(fk), defs, names, ids), f, ids.admin), ds, names.admin)
  }

  /** The configuration makes sense: distinct names ignoring case, new identifiers, `admin:*` not offered to organisations. */
  predicate ProperBoot(defs: seq<PermDef>, names: SeedNames, ids: RoleIds, f: Founder)
  {
    && KeepsAdminBack(defs) && Apart(ids) && "" !in {ids.admin, ids.user, ids.owner, f.tenant}
    && f.tenant !in {ids.admin, ids.user, ids.owner}
    && NamesTellApart(names)
  }

  lemma EmptyLookups(fk: bool, defs: seq<PermDef>, names: SeedNames, ids: RoleIds, f: Founder)
    requires ProperBoot(defs, names, ids, f)
    ensures DistinctNames(names) && LookedUp(EmptyDb(fk), NamesOf(defs), names, ids)
    ensures Sound(EmptyDb(fk)) && InvitesOfferNoReserved(EmptyDb(fk)) && NamesDistinct(EmptyDb(fk)) && AdminGuarded(EmptyDb(fk))
    ensures SeedNamesFree(EmptyDb(fk), names, ids)
  {
    LookupsFromStart(EmptyDb(fk), NamesOf(defs), names, ids);
  }

  lemma EmptySeeds(fk: bool, defs: seq<PermDef>, names: SeedNames, ids: RoleIds, f: Founder)
    requires ProperBoot(defs, names, ids, f)
    ensures Ready(Seeded(EmptyDb(fk), defs, names, ids), ids.owner) && LookedUp(EmptyDb(fk), NamesOf(defs), names, ids)
    ensures DistinctNames(names)
  {
    var db := EmptyDb(fk);
    EmptyLookups(fk, defs, names, ids, f);
    SeededIsSound(db, defs, names, ids);
    SeededOffersNoReserved(db, defs, names, ids);
    SeededNamesDistinct(db, defs, names, ids);
    SeededRolesAre(db, defs, names, ids);
    SeedKeepsGuard(db, defs, names, ids);
  }

  /** The state after a first start is one that every run theorem starts from, and one person refers to one role in it. */
  lemma FirstState(fk: bool, defs: seq<PermDef>, names: SeedNames, ids: RoleIds, f: Founder, ds: seq<Declaration>)
    requires ProperBoot(defs, names, ids, f)
    ensures var db := Booted(fk, defs, names, ids, f, ds);
            && Ready(db, ids.owner) && Good(State(db, map[]))
            && (forall u, t, r :: RefersTo(db, u, t, r) <==> u == f.user && t == f.tenant && r == ids.admin)
  {
    var seeded := Seeded(EmptyDb(fk), defs, names, ids);
    EmptySeeds(fk, defs, names, ids, f);
    SeededRolesAre(EmptyDb(fk), defs, names, ids);
    AppointedStaysReady(seeded, f, ids.admin, ids.owner);
    DeclareAllStaysReady(Appointed(seeded, f, ids.admin), ds, names.admin, ids.owner);
    OneReference(Booted(fk, defs, names, ids, f, ds), f, ids.admin);
  }

  lemma OneReference(db: Db, f: Founder, r: RoleId)
    requires db.roleRows == {} && db.members == map[Key(f.user, f.tenant) := Membership(Some(r), true, true)]
    ensures forall u, t, x :: RefersTo(db, u, t, x) <==> u == f.user && t == f.tenant && x == r
  {
  }

  /** From a first start on, every run of tenant-level requests serves what an uncached resolution would. */
  lemma BootedRunServesUncached(fk: bool, defs: seq<PermDef>, names: SeedNames, ids: RoleIds, f: Founder, ds: seq<Declaration>,
                                reqs: seq<Request>, u: UserId, t: TenantId)
    requires ProperBoot(defs, names, ids, f)
    requires TenantRun(State(Booted(fk, defs, names, ids, f, ds), map[]), reqs)
    ensures var last := Run(State(Booted(fk, defs, names, ids, f, ds), map[]), reqs);
            Good(last) && ReadList(last, u, t) == Uncached(last.db, Key(u, t))
  {
    FirstState(fk, defs, names, ids, f, ds);
    RunStaysGood(State(Booted(fk, defs, names, ids, f, ds), map[]), reqs);
    RunServesUncached(State(Booted(fk, defs, names, ids, f, ds), map[]), reqs, u, t);
  }

  /**
   * From a first start on, in every run of tenant-level requests, declarations and unloads, nobody has `admin:*` anywhere
   * but the founder in the founder's own organisation.
   */
  lemma OnlyTheFounder(fk: bool, defs: seq<PermDef>, names: SeedNames, ids: RoleIds, f: Founder, ds: seq<Declaration>,
                       es: seq<Event>, u: UserId, t: TenantId, q: Scope)
    requires ProperBoot(defs, names, ids, f)
    requires TenantEvents(State(Booted(fk, defs, names, ids, f, ds), map[]), es)
    requires PLATFORM_ADMIN in Resolve(RunEvents(State(Booted(fk, defs, names, ids, f, ds), map[]), es).db, u, t, q)
    ensures u == f.user && t == f.tenant
  {
    FirstState(fk, defs, names, ids, f, ds);
    var r := NoEscalation(State(Booted(fk, defs, names, ids, f, ds), map[]), es, u, t, q);
  }
}
