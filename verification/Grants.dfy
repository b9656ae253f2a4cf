/** Plugins declare the permissions they bring; the catalogue and the platform roles follow. */
module Grants {
  import opened Model

  const RESERVED_NAMESPACES: set<string> := {"admin", "rbac", "auth", "tenants", "user", "license", "plugins"}

  /** One entry of a declaration; a missing name is the empty string. */
  datatype Grant = Grant(
    name: string,
    description: Option<string>,
    group: Option<string>,
    grantable: bool,
    defaultRoles: seq<string>)

  // ---- Which grants are accepted ----

  predicate IsGrantChar(c: char)
  {
    'a' <= c <= 'z' || '0' <= c <= '9' || c == '_'
  }

  /** `name.split(":", 1)[0]` */
  function HeadOf(name: string): (r: string)
    ensures |r| <= |name| && r <= name
    ensures |r| < |name| ==> name[|r|] == ':'
    ensures ':' !in r
  {
    if name == "" || name[0] == ':' then "" else [name[0]] + HeadOf(name[1..])
  }

  predicate IsSegment(s: string)
  {
    s != "" && forall i :: 0 <= i < |s| ==> IsGrantChar(s[i])
  }

  /** Segments separated by colons. */
  predicate AreSegments(s: string)
    decreases |s|
  {
    var head := HeadOf(s);
    IsSegment(head) && (|head| == |s| || AreSegments(s[|head| + 1..]))
  }

  predicate IsGrantName(s: string)
  {
    AreSegments(s) && |HeadOf(s)| < |s|
  }

  /** The pattern `^seg(:seg)+$`; its `$` also matches before a final newline. */
  predicate MatchesGrantPattern(name: string)
  {
    IsGrantName(name) || (name != "" && name[|name| - 1] == '\n' && IsGrantName(name[..|name| - 1]))
  }

  predicate IsValidGrant(plugin: string, name: string)
  {
    plugin !in RESERVED_NAMESPACES && name != "" && MatchesGrantPattern(name) && HeadOf(name) == plugin
  }

  /** No plugin can bring the platform administrator's permission: its namespace is reserved, and `*` is no grant character. */
  lemma PlatformAdminIsNoGrant(plugin: string)
    ensures !IsValidGrant(plugin, PLATFORM_ADMIN)
    ensures !MatchesGrantPattern(PLATFORM_ADMIN)
  {
    assert HeadOf("*") == "*" by { assert HeadOf("*"[1..]) == ""; }
    assert !IsGrantChar("*"[0]);
    assert !AreSegments("*");
    assert PLATFORM_ADMIN[5..] == ":*" && HeadOf(PLATFORM_ADMIN[5..]) == "";
    assert HeadOf(PLATFORM_ADMIN[4..]) == "n" by { assert PLATFORM_ADMIN[4..][1..] == PLATFORM_ADMIN[5..]; }
    assert HeadOf(PLATFORM_ADMIN[3..]) == "in" by { assert PLATFORM_ADMIN[3..][1..] == PLATFORM_ADMIN[4..]; }
    assert HeadOf(PLATFORM_ADMIN[2..]) == "min" by { assert PLATFORM_ADMIN[2..][1..] == PLATFORM_ADMIN[3..]; }
    assert HeadOf(PLATFORM_ADMIN[1..]) == "dmin" by { assert PLATFORM_ADMIN[1..][1..] == PLATFORM_ADMIN[2..]; }
    assert HeadOf(PLATFORM_ADMIN) == "admin";
    assert PLATFORM_ADMIN[6..] == "*";
  }

  /** Footprint: what a plugin may bring starts with its own name and a colon. */
  lemma GrantFootprint(plugin: string, name: string)
    requires IsValidGrant(plugin, name)
    ensures plugin + ":" <= name
  {
    if !IsGrantName(name) {
      var body := name[..|name| - 1];
      HeadOfPrefix(body, "\n");
      assert name == body + "\n";
    }
    assert name[..|plugin| + 1] == plugin + ":";
  }

  lemma {:induction false} HeadOfPrefix(s: string, tail: string)
    requires |HeadOf(s)| < |s|
    ensures HeadOf(s + tail) == HeadOf(s)
    decreases |s|
  {
    if s[0] != ':' {
      assert (s + tail)[1..] == s[1..] + tail;
      HeadOfPrefix(s[1..], tail);
    }
  }

  // ---- Reconciliation of the catalogue ----

  /** The accepted grants by name; the last entry for a name wins. */
  function Desired(plugin: string, grants: seq<Grant>): (r: map<PermName, Grant>)
    ensures forall n :: n in r ==> IsValidGrant(plugin, n)
    ensures forall n :: n in r <==> (IsValidGrant(plugin, n) && exists g :: g in grants && g.name == n)
  {
    if grants == [] then map[]
    else
      var g := grants[|grants| - 1];
      var front := Desired(plugin, grants[..|grants| - 1]);
      assert grants == grants[..|grants| - 1] + [g];
      if IsValidGrant(plugin, g.name) then front[g.name := g] else front
  }

  function Entry(plugin: string, g: Grant): Permission
  {
    Permission(true, g.grantable, Some(plugin), g.description, g.group)
  }

  /** Declared permissions are created or refreshed; the plugin's other permissions are switched off, never deleted. */
  function Reconciled(cat: map<PermName, Permission>, plugin: string, desired: map<PermName, Grant>): map<PermName, Permission>
  {
    map n | n in cat.Keys + desired.Keys ::
      if n in desired then Entry(plugin, desired[n])
      else if cat[n].source == Some(plugin) then cat[n].(active := false)
      else cat[n]
  }

  /** The active permissions of a plugin. */
  function ActiveOf(cat: map<PermName, Permission>, plugin: string): set<PermName>
  {
    set n | n in cat && cat[n].source == Some(plugin) && cat[n].active
  }

  function Disabled(cat: map<PermName, Permission>, plugin: string): map<PermName, Permission>
  {
    map n | n in cat :: if cat[n].source == Some(plugin) then cat[n].(active := false) else cat[n]
  }

  /** After a reconciliation the plugin's active permissions are exactly the declared ones. */
  lemma ReconciledActive(cat: map<PermName, Permission>, plugin: string, desired: map<PermName, Grant>)
    ensures ActiveOf(Reconciled(cat, plugin, desired), plugin) == desired.Keys
  {
  }

  // ---- The declaration event ----

  datatype Declaration = Declaration(plugin: string, grants: seq<Grant>)

  function GlobalNamed(db: Db, name: string): set<RoleId>
  {
    set r | r in db.roles && db.roles[r].tenant == None && db.roles[r].name == name
  }

  /** Names of the permissions that the grants ask to put into the platform role `roleName`. */
  function WantedFor(grants: seq<Grant>, roleName: string): set<PermName>
  {
    set g | g in grants && g.name != "" && roleName in g.defaultRoles :: g.name
  }

  /** A lookup of a platform role by name finds at most one: otherwise the handler fails before it commits. */
  ghost predicate LookupsSucceed(db: Db, grants: seq<Grant>, adminRole: string)
  {
    && |GlobalNamed(db, adminRole)| <= 1
    && (forall name :: WantedFor(grants, name) != {} ==> |GlobalNamed(db, name)| <= 1)
  }

  /** The permissions of the plugin that a role receives. */
  function Received(role: Role, d: Declaration, adminRole: string): set<PermName>
  {
    if role.tenant.Some? then {}
    else if role.name == adminRole then Desired(d.plugin, d.grants).Keys
    else Desired(d.plugin, d.grants).Keys * WantedFor(d.grants, role.name)
  }

  function Furnished(roles: map<RoleId, Role>, d: Declaration, adminRole: string): map<RoleId, Role>
  {
    map r | r in roles :: roles[r].(perms := roles[r].perms + Received(roles[r], d, adminRole))
  }

  function Declared(db: Db, d: Declaration, adminRole: string): Db
  {
    db.(catalogue := Reconciled(db.catalogue, d.plugin, Desired(d.plugin, d.grants)),
        roles := Furnished(db.roles, d, adminRole))
  }

  /** The event takes effect: it names its plugin and no role lookup is ambiguous. */
  ghost predicate TakesEffect(db: Db, d: Declaration, adminRole: string)
  {
    d.plugin != "" && LookupsSucceed(db, d.grants, adminRole)
  }

  /** `rbac.declare` */
  ghost function Declare(db: Db, d: Declaration, adminRole: string): Db
  {
    if TakesEffect(db, d, adminRole) then Declared(db, d, adminRole) else db
  }

  /** `plugin.*.unloaded` */
  function Unload(db: Db, plugin: string): Db
  {
    db.(catalogue := Disabled(db.catalogue, plugin))
  }

  // ---- Reconciling, disabling and declaring again ----

  lemma GlobalNamedStable(db: Db, d: Declaration, adminRole: string, name: string)
    ensures GlobalNamed(Declared(db, d, adminRole), name) == GlobalNamed(db, name)
  {
  }

  /** Declarations never make a lookup succeed or fail. */
  lemma EffectIsStable(db: Db, d: Declaration, other: Declaration, adminRole: string)
    ensures TakesEffect(Declare(db, d, adminRole), other, adminRole) <==> TakesEffect(db, other, adminRole)
  {
    forall name ensures GlobalNamed(Declare(db, d, adminRole), name) == GlobalNamed(db, name) {
      GlobalNamedStable(db, d, adminRole, name);
    }
  }

  lemma ReconcileAgain(cat: map<PermName, Permission>, plugin: string, desired: map<PermName, Grant>)
    ensures Reconciled(Reconciled(cat, plugin, desired), plugin, desired) == Reconciled(cat, plugin, desired)
    ensures Reconciled(Disabled(Reconciled(cat, plugin, desired), plugin), plugin, desired) == Reconciled(cat, plugin, desired)
  {
    var once := Reconciled(cat, plugin, desired);
    var off := Disabled(once, plugin);
    assert once.Keys == cat.Keys + desired.Keys == off.Keys;
    forall n | n in once.Keys
      ensures Reconciled(once, plugin, desired)[n] == once[n] && Reconciled(off, plugin, desired)[n] == once[n]
    {
    }
  }

  /** Received permissions depend on a role's tenant and name only, so they add up. */
  lemma FurnishedTwice(roles: map<RoleId, Role>, p: Declaration, q: Declaration, adminRole: string, r: RoleId)
    requires r in roles
    ensures Furnished(Furnished(roles, p, adminRole), q, adminRole)[r]
         == roles[r].(perms := roles[r].perms + Received(roles[r], p, adminRole) + Received(roles[r], q, adminRole))
  {
    assert Received(Furnished(roles, p, adminRole)[r], q, adminRole) == Received(roles[r], q, adminRole);
  }

  lemma FurnishAgain(roles: map<RoleId, Role>, d: Declaration, adminRole: string)
    ensures Furnished(Furnished(roles, d, adminRole), d, adminRole) == Furnished(roles, d, adminRole)
  {
    forall r | r in roles ensures Furnished(Furnished(roles, d, adminRole), d, adminRole)[r] == Furnished(roles, d, adminRole)[r] {
      FurnishedTwice(roles, d, d, adminRole, r);
      assert roles[r].perms + Received(roles[r], d, adminRole) + Received(roles[r], d, adminRole) == roles[r].perms + Received(roles[r], d, adminRole);
    }
  }

  /** Declaring the same grants twice equals declaring them once, and the second pass has nothing left to disable. */
  lemma DeclareIsIdempotent(db: Db, d: Declaration, adminRole: string)
    ensures Declare(Declare(db, d, adminRole), d, adminRole) == Declare(db, d, adminRole)
    ensures TakesEffect(db, d, adminRole) ==> ActiveOf(Declare(db, d, adminRole).catalogue, d.plugin) == Desired(d.plugin, d.grants).Keys
  {
    EffectIsStable(db, d, d, adminRole);
    ReconciledActive(db.catalogue, d.plugin, Desired(d.plugin, d.grants));
    ReconcileAgain(db.catalogue, d.plugin, Desired(d.plugin, d.grants));
    FurnishAgain(db.roles, d, adminRole);
  }

  /** Soft-disable round trip: unloading a plugin and declaring its grants again restores the whole database. */
  lemma ReloadRestores(db: Db, d: Declaration, adminRole: string)
    requires TakesEffect(db, d, adminRole)
    ensures Declare(Unload(Declare(db, d, adminRole), d.plugin), d, adminRole) == Declare(db, d, adminRole)
  {
    EffectIsStable(db, d, d, adminRole);
    UnloadKeepsEffect(Declared(db, d, adminRole), d.plugin, d, adminRole);
    DeclaredAgain(db, d, adminRole);
  }

  lemma UnloadKeepsEffect(db: Db, plugin: string, d: Declaration, adminRole: string)
    ensures TakesEffect(Unload(db, plugin), d, adminRole) <==> TakesEffect(db, d, adminRole)
  {
    assert forall name :: GlobalNamed(Unload(db, plugin), name) == GlobalNamed(db, name);
  }

  lemma DeclaredAgain(db: Db, d: Declaration, adminRole: string)
    ensures Declared(Unload(Declared(db, d, adminRole), d.plugin), d, adminRole) == Declared(db, d, adminRole)
  {
    ReconcileAgain(db.catalogue, d.plugin, Desired(d.plugin, d.grants));
    FurnishAgain(db.roles, d, adminRole);
  }

  /** While a plugin is disabled, no resolution contains one of its permissions, and nothing else is lost. */
  lemma DisabledIsInvisible(db: Db, plugin: string, u: UserId, t: TenantId, q: Scope)
    ensures Resolve(Unload(db, plugin), u, t, q)
         == set n | n in Resolve(db, u, t, q) && db.catalogue[n].source != Some(plugin)
  {
    forall n ensures n in Resolve(Unload(db, plugin), u, t, q) <==> n in Resolve(db, u, t, q) && db.catalogue[n].source != Some(plugin) {
      UnloadKeepsRoleGrants(db, plugin, u, t, q, n);
    }
  }

  lemma UnloadKeepsRoleGrants(db: Db, plugin: string, u: UserId, t: TenantId, q: Scope, n: PermName)
    ensures GrantedByRole(Unload(db, plugin), u, t, q, n) <==> GrantedByRole(db, u, t, q, n)
  {
    if GrantedByRole(db, u, t, q, n) {
      var r :| GivesThrough(db, u, t, q, n, r);
      assert GivesThrough(Unload(db, plugin), u, t, q, n, r);
    }
    if GrantedByRole(Unload(db, plugin), u, t, q, n) {
      var r :| GivesThrough(Unload(db, plugin), u, t, q, n, r);
      assert GivesThrough(db, u, t, q, n, r);
    }
  }

  // ---- Confluence ----

  lemma NoCommonGrant(p: Declaration, q: Declaration)
    requires p.plugin != q.plugin
    ensures Desired(p.plugin, p.grants).Keys !! Desired(q.plugin, q.grants).Keys
  {
  }

  lemma CataloguesCommute(cat: map<PermName, Permission>, p: string, ps: map<PermName, Grant>, q: string, qs: map<PermName, Grant>)
    requires p != q && ps.Keys !! qs.Keys
    ensures Reconciled(Reconciled(cat, p, ps), q, qs) == Reconciled(Reconciled(cat, q, qs), p, ps)
  {
    var a, b := Reconciled(Reconciled(cat, p, ps), q, qs), Reconciled(Reconciled(cat, q, qs), p, ps);
    assert a.Keys == cat.Keys + ps.Keys + qs.Keys == b.Keys;
    forall n | n in a.Keys ensures a[n] == b[n] {
      EntriesCommute(cat, p, ps, q, qs, n);
    }
  }

  lemma EntriesCommute(cat: map<PermName, Permission>, p: string, ps: map<PermName, Grant>, q: string, qs: map<PermName, Grant>, n: PermName)
    requires p != q && ps.Keys !! qs.Keys && n in cat.Keys + ps.Keys + qs.Keys
    ensures Reconciled(Reconciled(cat, p, ps), q, qs)[n] == Reconciled(Reconciled(cat, q, qs), p, ps)[n]
  {
  }

  lemma RolesCommute(roles: map<RoleId, Role>, p: Declaration, q: Declaration, adminRole: string)
    ensures Furnished(Furnished(roles, p, adminRole), q, adminRole) == Furnished(Furnished(roles, q, adminRole), p, adminRole)
  {
    var a, b := Furnished(Furnished(roles, p, adminRole), q, adminRole), Furnished(Furnished(roles, q, adminRole), p, adminRole);
    forall r | r in roles ensures a[r] == b[r] {
      FurnishedTwice(roles, p, q, adminRole, r);
      FurnishedTwice(roles, q, p, adminRole, r);
      var x, y := Received(roles[r], p, adminRole), Received(roles[r], q, adminRole);
      assert roles[r].perms + x + y == roles[r].perms + y + x;
    }
  }

  /** Declarations of different plugins commute. */
  lemma DeclarationsCommute(db: Db, p: Declaration, q: Declaration, adminRole: string)
    requires p.plugin != q.plugin
    ensures Declare(Declare(db, p, adminRole), q, adminRole) == Declare(Declare(db, q, adminRole), p, adminRole)
  {
    EffectIsStable(db, p, q, adminRole);
    EffectIsStable(db, q, p, adminRole);
    NoCommonGrant(p, q);
    CataloguesCommute(db.catalogue, p.plugin, Desired(p.plugin, p.grants), q.plugin, Desired(q.plugin, q.grants));
    RolesCommute(db.roles, p, q, adminRole);
  }

  ghost function DeclareAll(db: Db, ds: seq<Declaration>, adminRole: string): Db
    decreases |ds|
  {
    if ds == [] then db else DeclareAll(Declare(db, ds[0], adminRole), ds[1..], adminRole)
  }

  lemma DeclareFirst(db: Db, d: Declaration, rest: seq<Declaration>, adminRole: string)
    ensures DeclareAll(db, [d] + rest, adminRole) == DeclareAll(Declare(db, d, adminRole), rest, adminRole)
  {
    assert ([d] + rest)[1..] == rest;
  }

  ghost predicate DistinctPlugins(ds: seq<Declaration>)
  {
    forall i, j :: 0 <= i < j < |ds| ==> ds[i].plugin != ds[j].plugin
  }

  /** Any declaration may be moved to the front. */
  lemma {:induction false} MoveToFront(db: Db, front: seq<Declaration>, d: Declaration, tail: seq<Declaration>, adminRole: string)
    requires forall e :: e in front ==> e.plugin != d.plugin
    ensures DeclareAll(db, front + [d] + tail, adminRole) == DeclareAll(Declare(db, d, adminRole), front + tail, adminRole)
    decreases |front|
  {
    if front == [] {
      assert front + [d] + tail == [d] + tail && front + tail == tail;
      DeclareFirst(db, d, tail, adminRole);
    } else {
      var f, rest := front[0], front[1..];
      assert front + [d] + tail == [f] + (rest + [d] + tail) && front + tail == [f] + (rest + tail);
      DeclareFirst(db, f, rest + [d] + tail, adminRole);
      MoveToFront(Declare(db, f, adminRole), rest, d, tail, adminRole);
      DeclarationsCommute(db, f, d, adminRole);
      DeclareFirst(Declare(db, d, adminRole), f, rest + tail, adminRole);
    }
  }

  /** A declaration taken out of the sequence it stands in. */
  lemma TakeOut(ds: seq<Declaration>, d: Declaration) returns (front: seq<Declaration>, tail: seq<Declaration>)
    requires d in ds && DistinctPlugins(ds)
    ensures ds == front + [d] + tail && multiset(front + tail) == multiset(ds) - multiset{d}
    ensures DistinctPlugins(front + tail) && forall e :: e in front ==> e.plugin != d.plugin
  {
    var i :| 0 <= i < |ds| && ds[i] == d;
    front, tail := ds[..i], ds[i + 1..];
    assert ds == front + [d] + tail;
    assert multiset(front + [d] + tail) == multiset(front + tail) + multiset{d};
    StillDistinct(front, d, tail);
  }

  lemma StillDistinct(front: seq<Declaration>, d: Declaration, tail: seq<Declaration>)
    requires DistinctPlugins(front + [d] + tail)
    ensures DistinctPlugins(front + tail) && forall e :: e in front ==> e.plugin != d.plugin
  {
    var all, less := front + [d] + tail, front + tail;
    assert all[|front|] == d;
    assert forall i :: 0 <= i < |front| ==> all[i] == front[i];
    assert forall i :: 0 <= i < |less| ==> less[i] == all[if i < |front| then i else i + 1];
  }

  /** Boot confluence: the order in which plugins declare themselves does not matter. */
  lemma {:induction false} OrderDoesNotMatter(db: Db, a: seq<Declaration>, b: seq<Declaration>, adminRole: string)
    requires DistinctPlugins(a) && multiset(a) == multiset(b)
    ensures DeclareAll(db, a, adminRole) == DeclareAll(db, b, adminRole)
    decreases |b|
  {
    if b == [] {
      assert |multiset(a)| == |a|;
    } else {
      var d, rest := b[0], b[1..];
      assert b == [d] + rest && multiset(b) == multiset{d} + multiset(rest);
      assert d in multiset(a);
      var front, tail := TakeOut(a, d);
      MoveToFront(db, front, d, tail, adminRole);
      DeclareFirst(db, d, rest, adminRole);
      OrderDoesNotMatter(Declare(db, d, adminRole), front + tail, rest, adminRole);
    }
  }
}
