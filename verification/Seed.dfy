/** What the seed makes of the catalogue and of the platform roles, and where a boot ends. */
module Seed {
  import opened Model
  import opened Grants

  /** An entry of the built-in catalogue. */
  datatype PermDef = PermDef(name: PermName, description: string, group: string, grantable: bool)

  function NamesOf(defs: seq<PermDef>): set<PermName>
  {
    set d | d in defs :: d.name
  }

  predicate DistinctDefs(defs: seq<PermDef>)
  {
    forall i, j :: 0 <= i < j < |defs| ==> defs[i].name != defs[j].name
  }

  // ---- The catalogue ----

  /** A missing entry is created as a platform permission; an existing one keeps its source. */
  function SeedOne(cat: map<PermName, Permission>, d: PermDef): map<PermName, Permission>
  {
    cat[d.name := Permission(true, d.grantable, if d.name in cat then cat[d.name].source else None, Some(d.description), Some(d.group))]
  }

  function SeededCatalogue(cat: map<PermName, Permission>, defs: seq<PermDef>): map<PermName, Permission>
    decreases |defs|
  {
    if defs == [] then cat else SeededCatalogue(SeedOne(cat, defs[0]), defs[1..])
  }

  /** Later definitions of a name would win; with distinct names each definition is what the catalogue says. */
  lemma {:induction false} SeededCatalogueMeaning(cat: map<PermName, Permission>, defs: seq<PermDef>)
    requires DistinctDefs(defs)
    ensures SeededCatalogue(cat, defs).Keys == cat.Keys + NamesOf(defs)
    ensures forall n :: n in cat && n !in NamesOf(defs) ==> SeededCatalogue(cat, defs)[n] == cat[n]
    ensures forall d :: d in defs ==> SeededCatalogue(cat, defs)[d.name] == SeedOne(cat, d)[d.name]
    ensures forall d :: d in defs ==>
              SeededCatalogue(cat, defs)[d.name]
              == Permission(true, d.grantable, if d.name in cat then cat[d.name].source else None, Some(d.description), Some(d.group))
    decreases |defs|
  {
    if defs != [] {
      var d, rest := defs[0], defs[1..];
      SeededCatalogueMeaning(SeedOne(cat, d), rest);
      assert defs == [d] + rest;
      assert NamesOf(defs) == {d.name} + NamesOf(rest);
      assert d.name !in NamesOf(rest);
    }
  }

  // ---- The platform roles ----

  /** Declarative synchronisation: what is wanted and already there, plus what is wanted and known. */
  function Synced(current: set<PermName>, target: set<PermName>, known: set<PermName>): set<PermName>
  {
    current * target + target * known
  }

  function Additions(current: set<PermName>, target: set<PermName>, known: set<PermName>): set<PermName>
  {
    target * known - current
  }

  /** A second synchronisation finds nothing to add and nothing to remove. */
  lemma SyncedIsStable(current: set<PermName>, target: set<PermName>, known: set<PermName>)
    ensures var once := Synced(current, target, known);
            Synced(once, target, known) == once && Additions(once, target, known) == {} && once - target == {}
  {
  }

  function SyncRole(roles: map<RoleId, Role>, r: RoleId, name: string, target: set<PermName>, known: set<PermName>): map<RoleId, Role>
  {
    roles[r := Role(None, name, Synced(if r in roles then roles[r].perms else {}, target, known))]
  }

  predicate IsNew(db: Db, id: RoleId)
  {
    id !in db.seen && id !in db.roles && id != ""
  }

  /** The role that carries a platform name, or a new identifier when none does. */
  predicate SeedsRole(db: Db, r: RoleId, name: string)
  {
    if GlobalNamed(db, name) != {} then r in GlobalNamed(db, name) else IsNew(db, r)
  }

  /** One role seed, once the role is found or named. */
  function WithRole(db: Db, r: RoleId, name: string, target: set<PermName>, known: set<PermName>): Db
  {
    db.(roles := SyncRole(db.roles, r, name, target, known), seen := db.seen + {r})
  }

  datatype SeedNames = SeedNames(admin: string, user: string)

  datatype RoleIds = RoleIds(admin: RoleId, user: RoleId, owner: RoleId)

  const USER_PERMISSIONS := {
    "plugin:list", "plugin:read", "submissions:list", "submissions:read",
    "submissions:create", "submissions:write", "rating:create", "user:read"}

  const TENANT_ADMIN_PERMISSIONS := {
    "tenants:read", "tenants:write", "invites:read", "invites:write",
    "audit:read", "rbac:read", "user:read", "license:read"}

  function SeededRoles(roles: map<RoleId, Role>, known: set<PermName>, names: SeedNames, ids: RoleIds): map<RoleId, Role>
  {
    var r1 := SyncRole(roles, ids.admin, names.admin, known, known);
    var r2 := SyncRole(r1, ids.user, names.user, USER_PERMISSIONS, known);
    SyncRole(r2, ids.owner, TENANT_ADMIN_ROLE, TENANT_ADMIN_PERMISSIONS, known)
  }

  /** The catalogue, then the `admin`, `user` and `tenant_admin` roles. */
  function Seeded(db: Db, defs: seq<PermDef>, names: SeedNames, ids: RoleIds): Db
  {
    db.(catalogue := SeededCatalogue(db.catalogue, defs),
        roles := SeededRoles(db.roles, NamesOf(defs), names, ids),
        seen := db.seen + {ids.admin, ids.user, ids.owner})
  }

  predicate Apart(ids: RoleIds)
  {
    ids.admin != ids.user && ids.admin != ids.owner && ids.user != ids.owner
  }

  /** The seed leaves the administrator role with the whole built-in catalogue and nothing else. */
  lemma SeededAdminRole(db: Db, defs: seq<PermDef>, names: SeedNames, ids: RoleIds)
    requires Apart(ids)
    ensures Seeded(db, defs, names, ids).roles[ids.admin].perms == NamesOf(defs)
  {
  }

  predicate IsUserPermission(n: PermName)
  {
    || n == "plugin:list" || n == "plugin:read" || n == "submissions:list" || n == "submissions:read"
    || n == "submissions:create" || n == "submissions:write" || n == "rating:create" || n == "user:read"
  }

  predicate IsOwnerPermission(n: PermName)
  {
    || n == "tenants:read" || n == "tenants:write" || n == "invites:read" || n == "invites:write"
    || n == "audit:read" || n == "rbac:read" || n == "user:read" || n == "license:read"
  }

  lemma ListsAreThese(n: PermName)
    ensures n in USER_PERMISSIONS <==> IsUserPermission(n)
    ensures n in TENANT_ADMIN_PERMISSIONS <==> IsOwnerPermission(n)
  {
  }

  lemma SeededRolesAreSynced(db: Db, defs: seq<PermDef>, names: SeedNames, ids: RoleIds)
    requires Apart(ids)
    ensures var once, known := Seeded(db, defs, names, ids).roles, NamesOf(defs);
            && once[ids.admin].perms == Synced(if ids.admin in db.roles then db.roles[ids.admin].perms else {}, known, known)
            && once[ids.user].perms == Synced(if ids.user in db.roles then db.roles[ids.user].perms else {}, USER_PERMISSIONS, known)
            && once[ids.owner].perms == Synced(if ids.owner in db.roles then db.roles[ids.owner].perms else {}, TENANT_ADMIN_PERMISSIONS, known)
  {
  }

  /**
   * The role of every registered user and the role of organisation owners carry, of the permissions of the same lists, those
   * that they carried already or that the built-in catalogue knows; nothing else, and so never `admin:*`.
   */
  lemma SeededRolesCarry(db: Db, defs: seq<PermDef>, names: SeedNames, ids: RoleIds, n: PermName)
    requires Apart(ids)
    ensures var once, known := Seeded(db, defs, names, ids).roles, n in NamesOf(defs);
            && (n in once[ids.admin].perms <==> known)
            && (n in once[ids.user].perms <==> IsUserPermission(n) && (known || (ids.user in db.roles && n in db.roles[ids.user].perms)))
            && (n in once[ids.owner].perms <==> IsOwnerPermission(n) && (known || (ids.owner in db.roles && n in db.roles[ids.owner].perms)))
  {
    SeededRolesAreSynced(db, defs, names, ids);
    ListsAreThese(n);
  }

  lemma CatalogueSeededTwice(cat: map<PermName, Permission>, defs: seq<PermDef>)
    requires DistinctDefs(defs)
    ensures SeededCatalogue(SeededCatalogue(cat, defs), defs) == SeededCatalogue(cat, defs)
  {
    var once := SeededCatalogue(cat, defs);
    SeededCatalogueMeaning(cat, defs);
    SeededCatalogueMeaning(once, defs);
    forall n | n in once ensures SeededCatalogue(once, defs)[n] == once[n] {
      if n in NamesOf(defs) { var d :| d in defs && d.name == n; }
    }
  }

  // ---- The roles are looked up by name ----

  predicate DistinctNames(names: SeedNames)
  {
    names.admin != names.user && names.admin != TENANT_ADMIN_ROLE && names.user != TENANT_ADMIN_ROLE
  }

  /** Each of the three lookups, made after the seeds before it, found this role or made a new identifier up. */
  predicate LookedUp(db: Db, known: set<PermName>, names: SeedNames, ids: RoleIds)
  {
    var db1 := WithRole(db, ids.admin, names.admin, known, known);
    var db2 := WithRole(db1, ids.user, names.user, USER_PERMISSIONS, known);
    SeedsRole(db, ids.admin, names.admin) && SeedsRole(db1, ids.user, names.user) && SeedsRole(db2, ids.owner, TENANT_ADMIN_ROLE)
  }

  lemma WithRoleNames(db: Db, r: RoleId, name: string, target: set<PermName>, known: set<PermName>)
    requires SeedsRole(db, r, name)
    ensures GlobalNamed(WithRole(db, r, name, target, known), name) == GlobalNamed(db, name) + {r}
    ensures forall other :: other != name ==> GlobalNamed(WithRole(db, r, name, target, known), other) == GlobalNamed(db, other)
  {
  }

  /** A lookup of another name finds, before a role seed, what it finds after it; and never the seeded role. */
  lemma LookupsCommute(db: Db, r: RoleId, name: string, target: set<PermName>, known: set<PermName>, x: RoleId, other: string)
    requires SeedsRole(db, r, name) && name != other
    ensures SeedsRole(WithRole(db, r, name, target, known), x, other) <==> SeedsRole(db, x, other) && x != r
  {
    WithRoleNames(db, r, name, target, known);
  }

  /** With three different names, the lookups are lookups in the database that the seed starts from, and find three roles. */
  lemma LookupsFromStart(db: Db, known: set<PermName>, names: SeedNames, ids: RoleIds)
    requires DistinctNames(names)
    ensures LookedUp(db, known, names, ids) <==>
              SeedsRole(db, ids.admin, names.admin) && SeedsRole(db, ids.user, names.user) && SeedsRole(db, ids.owner, TENANT_ADMIN_ROLE) && Apart(ids)
  {
    var db1 := WithRole(db, ids.admin, names.admin, known, known);
    if SeedsRole(db, ids.admin, names.admin) {
      LookupsCommute(db, ids.admin, names.admin, known, known, ids.user, names.user);
      LookupsCommute(db, ids.admin, names.admin, known, known, ids.owner, TENANT_ADMIN_ROLE);
      if SeedsRole(db1, ids.user, names.user) {
        LookupsCommute(db1, ids.user, names.user, USER_PERMISSIONS, known, ids.owner, TENANT_ADMIN_ROLE);
      }
    }
  }

  lemma SeededIsWithRoles(db: Db, defs: seq<PermDef>, names: SeedNames, ids: RoleIds)
    ensures var known := NamesOf(defs);
            var db1 := WithRole(db, ids.admin, names.admin, known, known);
            var db2 := WithRole(db1, ids.user, names.user, USER_PERMISSIONS, known);
            Seeded(db, defs, names, ids)
            == WithRole(db2, ids.owner, TENANT_ADMIN_ROLE, TENANT_ADMIN_PERMISSIONS, known).(catalogue := SeededCatalogue(db.catalogue, defs))
  {
    assert db.seen + {ids.admin} + {ids.user} + {ids.owner} == db.seen + {ids.admin, ids.user, ids.owner};
  }

  /** The seed adds the role it found or made up to its name, and changes no other lookup. */
  lemma SeededNames(db: Db, defs: seq<PermDef>, names: SeedNames, ids: RoleIds)
    requires DistinctNames(names) && LookedUp(db, NamesOf(defs), names, ids)
    ensures var once := Seeded(db, defs, names, ids);
            && GlobalNamed(once, names.admin) == GlobalNamed(db, names.admin) + {ids.admin}
            && GlobalNamed(once, names.user) == GlobalNamed(db, names.user) + {ids.user}
            && GlobalNamed(once, TENANT_ADMIN_ROLE) == GlobalNamed(db, TENANT_ADMIN_ROLE) + {ids.owner}
  {
    var known := NamesOf(defs);
    var db1 := WithRole(db, ids.admin, names.admin, known, known);
    var db2 := WithRole(db1, ids.user, names.user, USER_PERMISSIONS, known);
    var db3 := WithRole(db2, ids.owner, TENANT_ADMIN_ROLE, TENANT_ADMIN_PERMISSIONS, known);
    SeededIsWithRoles(db, defs, names, ids);
    WithRoleNames(db, ids.admin, names.admin, known, known);
    WithRoleNames(db1, ids.user, names.user, USER_PERMISSIONS, known);
    WithRoleNames(db2, ids.owner, TENANT_ADMIN_ROLE, TENANT_ADMIN_PERMISSIONS, known);
    assert forall name :: GlobalNamed(db3.(catalogue := SeededCatalogue(db.catalogue, defs)), name) == GlobalNamed(db3, name);
  }

  // ---- Seeding again ----

  /** The role already carries what a synchronisation would give it. */
  predicate InSync(db: Db, r: RoleId, target: set<PermName>, known: set<PermName>)
  {
    r in db.roles && Synced(db.roles[r].perms, target, known) == db.roles[r].perms
  }

  predicate AllInSync(db: Db, known: set<PermName>, ids: RoleIds)
  {
    && InSync(db, ids.admin, known, known)
    && InSync(db, ids.user, USER_PERMISSIONS, known)
    && InSync(db, ids.owner, TENANT_ADMIN_PERMISSIONS, known)
  }

  /** No two platform roles share one of the three names. */
  predicate NoTwins(db: Db, names: SeedNames)
  {
    |GlobalNamed(db, names.admin)| <= 1 && |GlobalNamed(db, names.user)| <= 1 && |GlobalNamed(db, TENANT_ADMIN_ROLE)| <= 1
  }

  lemma SyncUnchanged(roles: map<RoleId, Role>, r: RoleId, name: string, target: set<PermName>, known: set<PermName>)
    requires r in roles && roles[r].tenant == None && roles[r].name == name
    ensures SyncRole(roles, r, name, target, known) == roles <==> Synced(roles[r].perms, target, known) == roles[r].perms
  {
  }

  /** Three synchronisations of three roles change nothing exactly when none of them does. */
  lemma SyncsUnchanged(roles: map<RoleId, Role>, known: set<PermName>, names: SeedNames, ids: RoleIds, user: set<PermName>, owner: set<PermName>)
    requires Apart(ids) && ids.admin in roles && ids.user in roles && ids.owner in roles
    requires roles[ids.admin].tenant == None && roles[ids.admin].name == names.admin
    requires roles[ids.user].tenant == None && roles[ids.user].name == names.user
    requires roles[ids.owner].tenant == None && roles[ids.owner].name == TENANT_ADMIN_ROLE
    ensures var r1 := SyncRole(roles, ids.admin, names.admin, known, known);
            var r2 := SyncRole(r1, ids.user, names.user, user, known);
            SyncRole(r2, ids.owner, TENANT_ADMIN_ROLE, owner, known) == roles
            <==> && Synced(roles[ids.admin].perms, known, known) == roles[ids.admin].perms
                 && Synced(roles[ids.user].perms, user, known) == roles[ids.user].perms
                 && Synced(roles[ids.owner].perms, owner, known) == roles[ids.owner].perms
  {
    var r1 := SyncRole(roles, ids.admin, names.admin, known, known);
    var r2 := SyncRole(r1, ids.user, names.user, user, known);
    var r3 := SyncRole(r2, ids.owner, TENANT_ADMIN_ROLE, owner, known);
    assert r3[ids.admin] == r1[ids.admin] && r3[ids.user] == r2[ids.user];
    SyncUnchanged(roles, ids.admin, names.admin, known, known);
    if r1 == roles {
      SyncUnchanged(roles, ids.user, names.user, user, known);
      if r2 == roles { SyncUnchanged(roles, ids.owner, TENANT_ADMIN_ROLE, owner, known); }
    }
  }

  /** The second pass looks the roles up again: each lookup finds a role of the name in the seeded database. */
  lemma SecondLookupFinds(db: Db, defs: seq<PermDef>, names: SeedNames, ids: RoleIds, again: RoleIds)
    requires DistinctNames(names) && LookedUp(db, NamesOf(defs), names, ids)
    requires LookedUp(Seeded(db, defs, names, ids), NamesOf(defs), names, again)
    ensures again.admin in GlobalNamed(db, names.admin) + {ids.admin}
    ensures again.user in GlobalNamed(db, names.user) + {ids.user}
    ensures again.owner in GlobalNamed(db, TENANT_ADMIN_ROLE) + {ids.owner}
    ensures var once := Seeded(db, defs, names, ids);
            Apart(again) && again.admin in GlobalNamed(once, names.admin) && again.user in GlobalNamed(once, names.user)
            && again.owner in GlobalNamed(once, TENANT_ADMIN_ROLE)
  {
    SeededNames(db, defs, names, ids);
    LookupsFromStart(Seeded(db, defs, names, ids), NamesOf(defs), names, again);
  }

  lemma OnlyRolesMayChange(db: Db, defs: seq<PermDef>, names: SeedNames, ids: RoleIds)
    requires SeededCatalogue(db.catalogue, defs) == db.catalogue && ids.admin in db.seen && ids.user in db.seen && ids.owner in db.seen
    ensures Seeded(db, defs, names, ids) == db <==> SeededRoles(db.roles, NamesOf(defs), names, ids) == db.roles
  {
    assert db.seen + {ids.admin, ids.user, ids.owner} == db.seen;
  }

  /** A second seed changes nothing exactly when the roles that it finds are in synchrony already. */
  lemma ReseedExactly(db: Db, defs: seq<PermDef>, names: SeedNames, ids: RoleIds, again: RoleIds)
    requires DistinctDefs(defs) && DistinctNames(names) && db.roles.Keys <= db.seen
    requires LookedUp(db, NamesOf(defs), names, ids) && LookedUp(Seeded(db, defs, names, ids), NamesOf(defs), names, again)
    ensures Seeded(Seeded(db, defs, names, ids), defs, names, again) == Seeded(db, defs, names, ids)
       <==> AllInSync(Seeded(db, defs, names, ids), NamesOf(defs), again)
  {
    var once := Seeded(db, defs, names, ids);
    SecondLookupFinds(db, defs, names, ids, again);
    CatalogueSeededTwice(db.catalogue, defs);
    OnlyRolesMayChange(once, defs, names, again);
    FoundAreUnchanged(once, NamesOf(defs), names, again);
  }

  lemma FoundAreUnchanged(db: Db, known: set<PermName>, names: SeedNames, ids: RoleIds)
    requires Apart(ids) && ids.admin in GlobalNamed(db, names.admin) && ids.user in GlobalNamed(db, names.user)
    requires ids.owner in GlobalNamed(db, TENANT_ADMIN_ROLE)
    ensures SeededRoles(db.roles, known, names, ids) == db.roles <==> AllInSync(db, known, ids)
  {
    SyncsUnchanged(db.roles, known, names, ids, USER_PERMISSIONS, TENANT_ADMIN_PERMISSIONS);
  }

  lemma SameRolesInSync(db: Db, defs: seq<PermDef>, names: SeedNames, ids: RoleIds)
    requires Apart(ids)
    ensures AllInSync(Seeded(db, defs, names, ids), NamesOf(defs), ids)
  {
    var known := NamesOf(defs);
    SyncedIsStable(if ids.admin in db.roles then db.roles[ids.admin].perms else {}, known, known);
    SyncedIsStable(if ids.user in db.roles then db.roles[ids.user].perms else {}, USER_PERMISSIONS, known);
    SyncedIsStable(if ids.owner in db.roles then db.roles[ids.owner].perms else {}, TENANT_ADMIN_PERMISSIONS, known);
  }

  /** A lookup whose name no two roles share has one answer. */
  lemma OnlyThatOne(db: Db, r: RoleId, name: string, x: RoleId)
    requires SeedsRole(db, r, name) && |GlobalNamed(db, name)| <= 1 && x in GlobalNamed(db, name) + {r}
    ensures x == r
  {
    if GlobalNamed(db, name) != {} {
      assert |GlobalNamed(db, name) - {r}| == |GlobalNamed(db, name)| - 1;
    }
  }

  lemma SecondLookupFindsSame(db: Db, defs: seq<PermDef>, names: SeedNames, ids: RoleIds, again: RoleIds)
    requires DistinctNames(names) && NoTwins(db, names)
    requires LookedUp(db, NamesOf(defs), names, ids) && LookedUp(Seeded(db, defs, names, ids), NamesOf(defs), names, again)
    ensures again == ids && Apart(ids)
  {
    LookupsFromStart(db, NamesOf(defs), names, ids);
    SecondLookupFinds(db, defs, names, ids, again);
    OnlyThatOne(db, ids.admin, names.admin, again.admin);
    OnlyThatOne(db, ids.user, names.user, again.user);
    OnlyThatOne(db, ids.owner, TENANT_ADMIN_ROLE, again.owner);
  }

  /** Seeding twice is seeding once, lookups included, when no two platform roles share a name. */
  lemma SeedIsIdempotent(db: Db, defs: seq<PermDef>, names: SeedNames, ids: RoleIds, again: RoleIds)
    requires DistinctDefs(defs) && DistinctNames(names) && NoTwins(db, names) && db.roles.Keys <= db.seen
    requires LookedUp(db, NamesOf(defs), names, ids) && LookedUp(Seeded(db, defs, names, ids), NamesOf(defs), names, again)
    ensures again == ids
    ensures Seeded(Seeded(db, defs, names, ids), defs, names, again) == Seeded(db, defs, names, ids)
  {
    SecondLookupFindsSame(db, defs, names, ids, again);
    SameRolesInSync(db, defs, names, ids);
    ReseedExactly(db, defs, names, ids, again);
  }

  /** A twin that is not in synchrony may be found by the second pass, which then changes it. */
  lemma TwinsAreSeededInTurn(db: Db, defs: seq<PermDef>, names: SeedNames, ids: RoleIds, twin: RoleId)
    requires DistinctDefs(defs) && DistinctNames(names) && db.roles.Keys <= db.seen
    requires LookedUp(db, NamesOf(defs), names, ids)
    requires twin in GlobalNamed(db, names.user) && twin != ids.user && !InSync(db, twin, USER_PERMISSIONS, NamesOf(defs))
    ensures LookedUp(Seeded(db, defs, names, ids), NamesOf(defs), names, ids.(user := twin))
    ensures Seeded(Seeded(db, defs, names, ids), defs, names, ids.(user := twin)) != Seeded(db, defs, names, ids)
  {
    var once, again := Seeded(db, defs, names, ids), ids.(user := twin);
    LookupsFromStart(db, NamesOf(defs), names, ids);
    SeededNames(db, defs, names, ids);
    LookupsFromStart(once, NamesOf(defs), names, again);
    assert once.roles[twin] == db.roles[twin];
    ReseedExactly(db, defs, names, ids, again);
  }

  // ---- Boot: the seed, then the declarations ----

  function PluginsOf(ds: seq<Declaration>): set<string>
  {
    set d | d in ds :: d.plugin
  }

  /** Active permissions of any of these plugins. */
  function ActiveOfAny(cat: map<PermName, Permission>, plugins: set<string>): set<PermName>
  {
    set n | n in cat && cat[n].active && cat[n].source.Some? && cat[n].source.value in plugins
  }

  ghost predicate AllTakeEffect(db: Db, ds: seq<Declaration>, adminRole: string)
  {
    forall d :: d in ds ==> TakesEffect(db, d, adminRole)
  }

  lemma EffectsSurvive(db: Db, d: Declaration, ds: seq<Declaration>, adminRole: string)
    requires AllTakeEffect(db, ds, adminRole)
    ensures AllTakeEffect(Declare(db, d, adminRole), ds, adminRole)
  {
    forall e | e in ds ensures TakesEffect(Declare(db, d, adminRole), e, adminRole) {
      EffectIsStable(db, d, e, adminRole);
    }
  }

  /** Another plugin's declaration does not touch the active permissions of `plugin`. */
  lemma ForeignDeclaration(cat: map<PermName, Permission>, plugin: string, mine: Declaration, d: Declaration)
    requires mine.plugin == plugin != d.plugin
    requires ActiveOf(cat, plugin) == Desired(plugin, mine.grants).Keys
    ensures ActiveOf(Reconciled(cat, d.plugin, Desired(d.plugin, d.grants)), plugin) == ActiveOf(cat, plugin)
  {
    NoCommonGrant(mine, d);
  }

  lemma {:induction false} ActiveSurvives(db: Db, ds: seq<Declaration>, adminRole: string, mine: Declaration)
    requires AllTakeEffect(db, ds, adminRole) && mine.plugin !in PluginsOf(ds)
    requires ActiveOf(db.catalogue, mine.plugin) == Desired(mine.plugin, mine.grants).Keys
    ensures ActiveOf(DeclareAll(db, ds, adminRole).catalogue, mine.plugin) == Desired(mine.plugin, mine.grants).Keys
    decreases |ds|
  {
    if ds != [] {
      assert ds == [ds[0]] + ds[1..] && ds[0] in ds;
      assert PluginsOf(ds) == {ds[0].plugin} + PluginsOf(ds[1..]);
      ForeignDeclaration(db.catalogue, mine.plugin, mine, ds[0]);
      EffectsSurvive(db, ds[0], ds, adminRole);
      ActiveSurvives(Declare(db, ds[0], adminRole), ds[1..], adminRole, mine);
    }
  }

  lemma {:induction false} DeclaredAdminRole(db: Db, ds: seq<Declaration>, adminRole: string, r: RoleId)
    requires DistinctPlugins(ds) && AllTakeEffect(db, ds, adminRole)
    requires r in db.roles && db.roles[r].tenant == None && db.roles[r].name == adminRole
    ensures r in DeclareAll(db, ds, adminRole).roles
    ensures DeclareAll(db, ds, adminRole).roles[r].perms
         == db.roles[r].perms + ActiveOfAny(DeclareAll(db, ds, adminRole).catalogue, PluginsOf(ds))
    decreases |ds|
  {
    var last := DeclareAll(db, ds, adminRole);
    if ds == [] {
      assert ActiveOfAny(last.catalogue, PluginsOf(ds)) == {};
    } else {
      var d, rest := ds[0], ds[1..];
      assert ds == [d] + rest && d in ds;
      assert PluginsOf(ds) == {d.plugin} + PluginsOf(rest);
      assert d.plugin !in PluginsOf(rest);
      var first := Declare(db, d, adminRole);
      EffectsSurvive(db, d, ds, adminRole);
      assert AllTakeEffect(first, rest, adminRole);
      DeclaredAdminRole(first, rest, adminRole, r);
      ReconciledActive(db.catalogue, d.plugin, Desired(d.plugin, d.grants));
      ActiveSurvives(first, rest, adminRole, d);
      assert ActiveOfAny(last.catalogue, PluginsOf(ds)) == ActiveOf(last.catalogue, d.plugin) + ActiveOfAny(last.catalogue, PluginsOf(rest));
    }
  }

  /**
   * Boot confluence: after a seed, whatever the order in which distinct plugins declare themselves, the database is the same,
   * and the administrator role carries the built-in catalogue plus the active permissions of the declared plugins.
   */
  lemma BootConverges(db: Db, defs: seq<PermDef>, names: SeedNames, ids: RoleIds, ds: seq<Declaration>, other: seq<Declaration>)
    requires Apart(ids)
    requires DistinctPlugins(ds) && multiset(ds) == multiset(other)
    requires AllTakeEffect(Seeded(db, defs, names, ids), ds, names.admin)
    ensures DeclareAll(Seeded(db, defs, names, ids), ds, names.admin) == DeclareAll(Seeded(db, defs, names, ids), other, names.admin)
    ensures ids.admin in DeclareAll(Seeded(db, defs, names, ids), ds, names.admin).roles
    ensures DeclareAll(Seeded(db, defs, names, ids), ds, names.admin).roles[ids.admin].perms
         == NamesOf(defs) + ActiveOfAny(DeclareAll(Seeded(db, defs, names, ids), ds, names.admin).catalogue, PluginsOf(ds))
  {
    SeededAdminRole(db, defs, names, ids);
    OrderDoesNotMatter(Seeded(db, defs, names, ids), ds, other, names.admin);
    DeclaredAdminRole(Seeded(db, defs, names, ids), ds, names.admin, ids.admin);
  }
}
