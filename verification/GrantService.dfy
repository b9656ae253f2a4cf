/** The listeners that follow plugins as they declare their grants and are unloaded. */
module GrantService {
  import opened Listing
  import opened Model
  import opened Grants

  function BySource(cat: map<PermName, Permission>, plugin: string): set<PermName>
  {
    set n | n in cat && cat[n].source == Some(plugin)
  }

  /** The catalogue once the grants named in `done` are entered. */
  function Entered(cat: map<PermName, Permission>, plugin: string, desired: map<PermName, Grant>, done: set<PermName>): map<PermName, Permission>
  {
    map n | n in cat.Keys + done * desired.Keys :: if n in done && n in desired then Entry(plugin, desired[n]) else cat[n]
  }

  function SwitchedOff(cat: map<PermName, Permission>, names: set<PermName>): map<PermName, Permission>
  {
    map n | n in cat :: if n in names then cat[n].(active := false) else cat[n]
  }

  lemma EnteredStep(cat: map<PermName, Permission>, plugin: string, desired: map<PermName, Grant>, done: set<PermName>, n: PermName)
    requires n in desired
    ensures Entered(cat, plugin, desired, done)[n := Entry(plugin, desired[n])] == Entered(cat, plugin, desired, done + {n})
  {
  }

  lemma SwitchedOffStep(cat: map<PermName, Permission>, names: set<PermName>, n: PermName)
    requires n in cat
    ensures SwitchedOff(cat, names)[n := SwitchedOff(cat, names)[n].(active := false)] == SwitchedOff(cat, names + {n})
  {
  }

  lemma EnteredNone(cat: map<PermName, Permission>, plugin: string, desired: map<PermName, Grant>)
    ensures Entered(cat, plugin, desired, {}) == cat
  {
  }

  lemma SwitchedOffNone(cat: map<PermName, Permission>)
    ensures SwitchedOff(cat, {}) == cat
  {
  }

  /** Entering the grants and switching the plugin's other active permissions off is the reconciliation. */
  lemma EnterThenSwitchOff(cat: map<PermName, Permission>, plugin: string, desired: map<PermName, Grant>)
    ensures var mid := Entered(cat, plugin, desired, desired.Keys);
            SwitchedOff(mid, ActiveOf(mid, plugin) - desired.Keys) == Reconciled(cat, plugin, desired)
    ensures var mid := Entered(cat, plugin, desired, desired.Keys);
            ActiveOf(mid, plugin) - desired.Keys == ActiveOf(cat, plugin) - desired.Keys
  {
    var mid := Entered(cat, plugin, desired, desired.Keys);
    var off := SwitchedOff(mid, ActiveOf(mid, plugin) - desired.Keys);
    forall n | n in off ensures off[n] == Reconciled(cat, plugin, desired)[n] {
    }
  }

  /** Every role of the platform with this name gets these permissions. */
  function Endowed(roles: map<RoleId, Role>, name: string, perms: set<PermName>): map<RoleId, Role>
  {
    map r | r in roles :: if roles[r].tenant == None && roles[r].name == name then roles[r].(perms := roles[r].perms + perms) else roles[r]
  }

  /** What the `default_roles` of the grants ask for, by role name, leaving the administrator role aside. */
  ghost predicate Asks(wanted: map<string, set<PermName>>, grants: seq<Grant>, adminRole: string)
  {
    && (forall name :: name in wanted <==> name != adminRole && WantedFor(grants, name) != {})
    && (forall name :: name in wanted ==> wanted[name] == WantedFor(grants, name))
  }

  function Wish(wanted: map<string, set<PermName>>, name: string): set<PermName>
  {
    if name in wanted then wanted[name] else {}
  }

  function Asked(g: Grant, names: seq<string>, name: string, adminRole: string): set<PermName>
  {
    if name != adminRole && g.name != "" && name in names then {g.name} else {}
  }

  lemma WantedForSnoc(grants: seq<Grant>, g: Grant, name: string)
    ensures WantedFor(grants + [g], name) == WantedFor(grants, name) + (if g.name != "" && name in g.defaultRoles then {g.name} else {})
  {
    assert forall h :: h in grants + [g] <==> h in grants || h == g;
  }

  lemma AsksStep(start: map<string, set<PermName>>, wanted: map<string, set<PermName>>, grants: seq<Grant>, g: Grant, adminRole: string)
    requires Asks(start, grants, adminRole)
    requires forall name :: name in wanted <==> name in start || (name != adminRole && g.name != "" && name in g.defaultRoles)
    requires forall name :: name in wanted ==> wanted[name] == Wish(start, name) + Asked(g, g.defaultRoles, name, adminRole)
    ensures Asks(wanted, grants + [g], adminRole)
  {
    forall name
      ensures name in wanted <==> name != adminRole && WantedFor(grants + [g], name) != {}
      ensures name in wanted ==> wanted[name] == WantedFor(grants + [g], name)
    {
      WantedForSnoc(grants, g, name);
      if name !in start && name != adminRole { assert WantedFor(grants, name) == {}; }
    }
  }

  /** The roles once the names in `done` have been served. */
  function Served(roles: map<RoleId, Role>, wanted: map<string, set<PermName>>, mine: set<PermName>, done: set<string>): map<RoleId, Role>
  {
    map r | r in roles ::
      if roles[r].tenant == None && roles[r].name in done && roles[r].name in wanted
      then roles[r].(perms := roles[r].perms + mine * wanted[roles[r].name]) else roles[r]
  }

  lemma ServedStep(roles: map<RoleId, Role>, wanted: map<string, set<PermName>>, mine: set<PermName>, done: set<string>, name: string)
    requires name in wanted && name !in done
    ensures Endowed(Served(roles, wanted, mine, done), name, mine * wanted[name]) == Served(roles, wanted, mine, done + {name})
  {
  }

  lemma ServedNone(roles: map<RoleId, Role>, wanted: map<string, set<PermName>>, mine: set<PermName>)
    ensures Served(roles, wanted, mine, {}) == roles
  {
  }

  /** Serving the administrator role and then the asked-for roles is what a declaration does to the roles. */
  lemma ServedIsFurnished(roles: map<RoleId, Role>, wanted: map<string, set<PermName>>, d: Declaration, adminRole: string)
    requires Asks(wanted, d.grants, adminRole)
    ensures Served(Endowed(roles, adminRole, Desired(d.plugin, d.grants).Keys), wanted, Desired(d.plugin, d.grants).Keys, wanted.Keys)
         == Furnished(roles, d, adminRole)
  {
    var mine := Desired(d.plugin, d.grants).Keys;
    var a, b := Served(Endowed(roles, adminRole, mine), wanted, mine, wanted.Keys), Furnished(roles, d, adminRole);
    forall r | r in roles ensures a[r] == b[r] {
      if roles[r].tenant == None && roles[r].name != adminRole && roles[r].name !in wanted {
        assert WantedFor(d.grants, roles[r].name) == {};
      }
    }
  }

  /** Of the targets, those outside `rest` are done, and nothing else is. */
  ghost predicate Settled(done: set<string>, rest: set<string>, target: set<string>)
  {
    forall n :: n in target <==> n in done || (n in rest && n in target)
  }

  lemma SettledStep(done: set<string>, rest: set<string>, target: set<string>, n: string)
    requires done !! rest && n in rest && Settled(done, rest, target)
    ensures var d := if n in target then done + {n} else done;
            d !! rest - {n} && Settled(d, rest - {n}, target) && |d| == |done| + (if n in target then 1 else 0)
    ensures |rest - {n}| < |rest|
  {
  }

  class PluginGrantService {
    var db: Db

    constructor (db: Db)
      ensures this.db == db
    {
      this.db := db;
    }

    method CollectDesired(plugin: string, grants: seq<Grant>) returns (desired: map<PermName, Grant>)
      ensures desired == Desired(plugin, grants)
    {
      desired := map[];
      for i := 0 to |grants|
        invariant desired == Desired(plugin, grants[..i])
      {
        assert grants[..i + 1][..i] == grants[..i];
        if IsValidGrant(plugin, grants[i].name) { desired := desired[grants[i].name := grants[i]]; }
      }
      assert grants[..|grants|] == grants;
    }

    method EnterOne(ghost cat: map<PermName, Permission>, desired: map<PermName, Grant>, ghost done: set<PermName>, plugin: string, n: PermName)
      requires n in desired
      requires db.catalogue == Entered(cat, plugin, desired, done)
      modifies this
      ensures db == old(db).(catalogue := Entered(cat, plugin, desired, done + {n}))
    {
      EnteredStep(cat, plugin, desired, done, n);
      db := db.(catalogue := db.catalogue[n := Entry(plugin, desired[n])]);
    }

    method EnterGrants(plugin: string, desired: map<PermName, Grant>) returns (upserted: nat)
      modifies this
      ensures db == old(db).(catalogue := Entered(old(db).catalogue, plugin, desired, desired.Keys))
      ensures upserted == |desired|
    {
      ghost var before := db;
      ghost var done: set<PermName> := {};
      upserted := 0;
      var rest := desired.Keys;
      EnteredNone(db.catalogue, plugin, desired);
      while rest != {}
        invariant done !! rest && done + rest == desired.Keys && upserted == |done|
        invariant db == before.(catalogue := Entered(before.catalogue, plugin, desired, done))
        decreases |rest|
      {
        var n :| n in rest;
        EnterOne(before.catalogue, desired, done, plugin, n);
        MovedOver(done, rest, n);
        done, rest, upserted := done + {n}, rest - {n}, upserted + 1;
      }
      assert done == desired.Keys;
    }

    method SwitchOne(ghost cat: map<PermName, Permission>, ghost done: set<PermName>, n: PermName, keep: set<PermName>) returns (off: bool)
      requires n in cat && n !in done && db.catalogue == SwitchedOff(cat, done)
      modifies this
      ensures off <==> n !in keep && cat[n].active
      ensures db == if off then old(db).(catalogue := SwitchedOff(cat, done + {n})) else old(db)
    {
      assert db.catalogue[n] == cat[n];
      off := n !in keep && db.catalogue[n].active;
      if off {
        SwitchedOffStep(cat, done, n);
        db := db.(catalogue := db.catalogue[n := db.catalogue[n].(active := false)]);
      }
    }

    /** Switches the plugin's active permissions outside `keep` off, and counts them. */
    method SwitchOff(plugin: string, keep: set<PermName>) returns (count: nat)
      modifies this
      ensures db == old(db).(catalogue := SwitchedOff(old(db).catalogue, ActiveOf(old(db).catalogue, plugin) - keep))
      ensures count == |ActiveOf(old(db).catalogue, plugin) - keep|
    {
      ghost var before := db;
      ghost var target := ActiveOf(db.catalogue, plugin) - keep;
      ghost var done: set<PermName> := {};
      count := 0;
      var all := BySource(db.catalogue, plugin);
      var rest := all;
      SwitchedOffNone(db.catalogue);
      while rest != {}
        invariant done !! rest && Settled(done, rest, target) && count == |done|
        invariant forall n :: n in rest ==> n in before.catalogue && before.catalogue[n].source == Some(plugin)
        invariant db == before.(catalogue := SwitchedOff(before.catalogue, done))
        decreases |rest|
      {
        var n :| n in rest;
        var off := SwitchOne(before.catalogue, done, n, keep);
        assert off <==> n in target;
        SettledStep(done, rest, target, n);
        if off { done, count := done + {n}, count + 1; }
        rest := rest - {n};
      }
      assert done == target;
    }

    /** `reconcile_plugin_grants` */
    method ReconcilePluginGrants(plugin: string, grants: seq<Grant>) returns (upserted: nat, disabled: nat)
      modifies this
      ensures db == old(db).(catalogue := Reconciled(old(db).catalogue, plugin, Desired(plugin, grants)))
      ensures upserted == |Desired(plugin, grants)|
      ensures disabled == |ActiveOf(old(db).catalogue, plugin) - Desired(plugin, grants).Keys|
    {
      var desired := CollectDesired(plugin, grants);
      EnterThenSwitchOff(db.catalogue, plugin, desired);
      upserted := EnterGrants(plugin, desired);
      disabled := SwitchOff(plugin, desired.Keys);
    }

    /** `disable_plugin` */
    method DisablePlugin(plugin: string) returns (count: nat)
      modifies this
      ensures db == Unload(old(db), plugin)
      ensures count == |ActiveOf(old(db).catalogue, plugin)|
    {
      ghost var before := db;
      count := SwitchOff(plugin, {});
      assert ActiveOf(before.catalogue, plugin) - {} == ActiveOf(before.catalogue, plugin);
      assert SwitchedOff(before.catalogue, ActiveOf(before.catalogue, plugin)) == Disabled(before.catalogue, plugin);
    }

    /** The roles that one grant names are added to `wanted`. */
    method AddDefaultRoles(start: map<string, set<PermName>>, g: Grant, adminRole: string) returns (wanted: map<string, set<PermName>>)
      ensures forall name :: name in wanted <==> name in start || (name != adminRole && g.name != "" && name in g.defaultRoles)
      ensures forall name :: name in wanted ==> wanted[name] == Wish(start, name) + Asked(g, g.defaultRoles, name, adminRole)
    {
      wanted := start;
      for j := 0 to |g.defaultRoles|
        invariant forall name :: name in wanted <==> name in start || (name != adminRole && g.name != "" && name in g.defaultRoles[..j])
        invariant forall name :: name in wanted ==> wanted[name] == Wish(start, name) + Asked(g, g.defaultRoles[..j], name, adminRole)
      {
        var name := g.defaultRoles[j];
        assert g.defaultRoles[..j + 1] == g.defaultRoles[..j] + [name];
        if name != adminRole && g.name != "" { wanted := wanted[name := Wish(wanted, name) + {g.name}]; }
      }
      assert g.defaultRoles[..|g.defaultRoles|] == g.defaultRoles;
    }

    method CollectWanted(grants: seq<Grant>, adminRole: string) returns (wanted: map<string, set<PermName>>)
      ensures Asks(wanted, grants, adminRole)
    {
      wanted := map[];
      for i := 0 to |grants|
        invariant Asks(wanted, grants[..i], adminRole)
      {
        ghost var start := wanted;
        wanted := AddDefaultRoles(wanted, grants[i], adminRole);
        AsksStep(start, wanted, grants[..i], grants[i], adminRole);
        assert grants[..i + 1] == grants[..i] + [grants[i]];
      }
      assert grants[..|grants|] == grants;
    }

    /** A role found by name receives the permissions one by one where it lacks them; more than one match is an error. */
    method Endow(name: string, perms: set<PermName>) returns (ok: bool)
      modifies this
      ensures ok <==> |GlobalNamed(old(db), name)| <= 1
      ensures db == if ok then old(db).(roles := Endowed(old(db).roles, name, perms)) else old(db)
    {
      var found := GlobalNamed(db, name);
      if |found| > 1 { return false; }
      if found == {} {
        assert Endowed(db.roles, name, perms) == db.roles by {
          assert forall r :: r in db.roles && db.roles[r].tenant == None && db.roles[r].name == name ==> r in found;
        }
        return true;
      }
      var r :| r in found;
      OnlyOne(found, r);
      ghost var before := db;
      db := db.(roles := db.roles[r := db.roles[r].(perms := db.roles[r].perms + perms)]);
      assert db.roles == Endowed(before.roles, name, perms) by {
        assert forall x :: x in before.roles && before.roles[x].tenant == None && before.roles[x].name == name ==> x in found;
      }
      return true;
    }

    /** The `default_roles`, one name after the other; the first ambiguous name stops the loop. */
    method EndowWanted(wanted: map<string, set<PermName>>, mine: set<PermName>) returns (ok: bool)
      modifies this
      ensures ok <==> forall name :: name in wanted ==> |GlobalNamed(old(db), name)| <= 1
      ensures ok ==> db == old(db).(roles := Served(old(db).roles, wanted, mine, wanted.Keys))
    {
      ghost var before := db;
      ghost var done: set<string> := {};
      var rest := wanted.Keys;
      ServedNone(db.roles, wanted, mine);
      while rest != {}
        invariant done !! rest && done + rest == wanted.Keys
        invariant db == before.(roles := Served(before.roles, wanted, mine, done))
        invariant forall name :: name in done ==> |GlobalNamed(before, name)| <= 1
        decreases |rest|
      {
        var name :| name in rest;
        ok := EndowOne(before, wanted, mine, done, name);
        if !ok { return; }
        done := done + {name};
        rest := rest - {name};
      }
      assert done == wanted.Keys;
      return true;
    }

    method EndowOne(ghost before: Db, wanted: map<string, set<PermName>>, mine: set<PermName>, ghost done: set<string>, name: string) returns (ok: bool)
      requires name in wanted && name !in done
      requires db == before.(roles := Served(before.roles, wanted, mine, done))
      modifies this
      ensures ok <==> |GlobalNamed(before, name)| <= 1
      ensures ok ==> db == before.(roles := Served(before.roles, wanted, mine, done + {name}))
    {
      assert GlobalNamed(db, name) == GlobalNamed(before, name);
      ServedStep(before.roles, wanted, mine, done, name);
      ok := Endow(name, mine * wanted[name]);
    }

    /** The roles receive the plugin's active permissions. */
    method Furnish(d: Declaration, adminRole: string, mine: set<PermName>) returns (ok: bool)
      requires mine == Desired(d.plugin, d.grants).Keys
      modifies this
      ensures ok <==> LookupsSucceed(old(db), d.grants, adminRole)
      ensures ok ==> db == old(db).(roles := Furnished(old(db).roles, d, adminRole))
    {
      ghost var before := db;
      ok := Endow(adminRole, mine);
      if !ok { return; }
      var wanted := CollectWanted(d.grants, adminRole);
      EndowedKeepsNames(before, db, adminRole, mine);
      ServedIsFurnished(before.roles, wanted, d, adminRole);
      ok := EndowWanted(wanted, mine);
    }

    /** `_on_rbac_declare`: everything is committed together, or nothing when a lookup is ambiguous. */
    method OnDeclare(d: Declaration, adminRole: string)
      modifies this
      ensures db == Declare(old(db), d, adminRole)
    {
      if d.plugin == "" { return; }
      var before := db;
      var _, _ := ReconcilePluginGrants(d.plugin, d.grants);
      ReconciledActive(before.catalogue, d.plugin, Desired(d.plugin, d.grants));
      LookupsIgnoreCatalogue(before, db.catalogue, d.grants, adminRole);
      var ok := Furnish(d, adminRole, ActiveOf(db.catalogue, d.plugin));
      if !ok { db := before; }
    }
  }

  lemma EndowedKeepsNames(before: Db, after: Db, name: string, perms: set<PermName>)
    requires after == before.(roles := Endowed(before.roles, name, perms))
    ensures forall x :: GlobalNamed(after, x) == GlobalNamed(before, x)
  {
    forall x ensures GlobalNamed(after, x) == GlobalNamed(before, x) {
    }
  }

  lemma LookupsIgnoreCatalogue(db: Db, cat: map<PermName, Permission>, grants: seq<Grant>, adminRole: string)
    ensures LookupsSucceed(db.(catalogue := cat), grants, adminRole) <==> LookupsSucceed(db, grants, adminRole)
  {
    assert forall x :: GlobalNamed(db.(catalogue := cat), x) == GlobalNamed(db, x);
  }

  lemma OnlyOne(s: set<RoleId>, r: RoleId)
    requires |s| <= 1 && r in s
    ensures s == {r}
  {
    assert |s - {r}| == |s| - 1;
  }
}
