/** The seed at work: a role's list of permissions edited in place, the catalogue and the platform roles brought up to date. */
module SeedService {
  import opened Listing
  import opened Model
  import opened Grants
  import opened Seed

  ghost predicate NoDuplicates(s: seq<PermName>)
  {
    forall i, j :: 0 <= i < j < |s| ==> s[i] != s[j]
  }

  /** `list.remove`: the first occurrence goes. */
  function RemoveFirst(s: seq<PermName>, x: PermName): (r: seq<PermName>)
    requires x in s
    ensures |r| == |s| - 1
  {
    if s[0] == x then s[1..] else [s[0]] + RemoveFirst(s[1..], x)
  }

  lemma {:induction false} RemoveFirstElements(s: seq<PermName>, x: PermName)
    requires x in s && NoDuplicates(s)
    ensures NoDuplicates(RemoveFirst(s, x)) && Elements(RemoveFirst(s, x)) == Elements(s) - {x}
  {
    assert s == [s[0]] + s[1..];
    assert Elements(s) == {s[0]} + Elements(s[1..]);
    if s[0] != x {
      RemoveFirstElements(s[1..], x);
      PrependElements(s[0], RemoveFirst(s[1..], x));
    }
  }

  lemma PrependElements(x: PermName, s: seq<PermName>)
    requires NoDuplicates(s) && x !in Elements(s)
    ensures NoDuplicates([x] + s) && Elements([x] + s) == {x} + Elements(s)
  {
  }

  lemma AppendElements(s: seq<PermName>, x: PermName)
    requires x !in s && NoDuplicates(s)
    ensures NoDuplicates(s + [x]) && Elements(s + [x]) == Elements(s) + {x}
  {
  }

  lemma CountElements(s: seq<PermName>)
    requires NoDuplicates(s)
    ensures |Elements(s)| == |s|
  {
    if s != [] {
      var n := |s| - 1;
      assert s == s[..n] + [s[n]];
      CountElements(s[..n]);
      assert Elements(s) == Elements(s[..n]) + {s[n]};
    }
  }

  lemma AdditionsStep(current: set<PermName>, done: set<PermName>, known: set<PermName>, name: PermName)
    requires name !in done
    ensures Additions(current, done + {name}, known) == Additions(current, done, known) + (if name in known && name !in current then {name} else {})
    ensures name !in current ==> name !in current + Additions(current, done, known)
  {
  }

  class RoleRecord {
    var permissions: seq<PermName>

    constructor (permissions: seq<PermName>)
      ensures this.permissions == permissions
    {
      this.permissions := permissions;
    }

    method AppendOne(current: seq<PermName>, ghost done: set<PermName>, known: set<PermName>, name: PermName) returns (added: bool)
      requires name !in done && current <= permissions && NoDuplicates(permissions)
      requires Elements(permissions) == Elements(current) + Additions(Elements(current), done, known)
      modifies this
      ensures NoDuplicates(permissions) && current <= permissions
      ensures Elements(permissions) == Elements(current) + Additions(Elements(current), done + {name}, known)
      ensures |permissions| == |old(permissions)| + (if added then 1 else 0)
    {
      AdditionsStep(Elements(current), done, known, name);
      added := name !in current && name in known;
      if added {
        assert name !in Elements(permissions);
        AppendElements(permissions, name);
        permissions := permissions + [name];
      }
    }

    /** The missing permissions that the catalogue knows are appended one by one. */
    method AppendMissing(current: seq<PermName>, target: set<PermName>, known: set<PermName>) returns (delta: nat)
      requires permissions == current && NoDuplicates(current)
      modifies this
      ensures NoDuplicates(permissions) && current <= permissions
      ensures Elements(permissions) == Elements(current) + Additions(Elements(current), target, known)
      ensures |permissions| == |current| + delta
    {
      delta := 0;
      var rest := target;
      ghost var done: set<PermName> := {};
      while rest != {}
        invariant done !! rest && done + rest == target && current <= permissions && NoDuplicates(permissions)
        invariant Elements(permissions) == Elements(current) + Additions(Elements(current), done, known)
        invariant |permissions| == |current| + delta
        decreases |rest|
      {
        var name :| name in rest;
        MovedOver(done, rest, name);
        var added := AppendOne(current, done, known, name);
        if added { delta := delta + 1; }
        done, rest := done + {name}, rest - {name};
      }
      assert done == target;
    }

    /** Of the permissions held at the start, those that are not wanted are removed one by one. */
    method RemoveUnwanted(current: seq<PermName>, target: set<PermName>) returns (delta: nat)
      requires current <= permissions && NoDuplicates(permissions)
      modifies this
      ensures NoDuplicates(permissions)
      ensures Elements(permissions) == Elements(old(permissions)) - (Elements(current) - target)
      ensures |permissions| + delta == |old(permissions)|
      ensures delta == 0 ==> permissions == old(permissions)
    {
      ghost var before := permissions;
      delta := 0;
      for j := 0 to |current|
        invariant NoDuplicates(permissions)
        invariant Elements(permissions) == Elements(before) - (Elements(current[..j]) - target)
        invariant |permissions| + delta == |before|
        invariant delta == 0 ==> permissions == before
      {
        assert current[..j + 1] == current[..j] + [current[j]];
        if current[j] !in target {
          StillThere(before, current, j);
          assert current[j] in Elements(permissions);
          RemoveFirstElements(permissions, current[j]);
          permissions := RemoveFirst(permissions, current[j]);
          delta := delta + 1;
        }
      }
      assert current[..|current|] == current;
    }

    /** `_sync_role_permissions` */
    method SyncPermissions(target: set<PermName>, known: set<PermName>) returns (delta: nat)
      requires NoDuplicates(permissions)
      modifies this
      ensures NoDuplicates(permissions)
      ensures Elements(permissions) == Synced(Elements(old(permissions)), target, known)
      ensures forall n :: n in permissions <==> n in target && (n in old(permissions) || n in known)
      ensures delta == |Additions(Elements(old(permissions)), target, known)| + |Elements(old(permissions)) - target|
      ensures delta == 0 <==> permissions == old(permissions)
    {
      var current := permissions;
      var added := AppendMissing(current, target, known);
      ghost var between := permissions;
      var removed := RemoveUnwanted(current, target);
      SyncAddsUp(current, between, permissions, target, known);
      assert forall n :: (n in permissions <==> n in Elements(permissions)) && (n in current <==> n in Elements(current));
      delta := added + removed;
    }
  }

  lemma StillThere(before: seq<PermName>, current: seq<PermName>, j: nat)
    requires j < |current| && current <= before && NoDuplicates(before)
    ensures current[j] in Elements(before) && current[j] !in Elements(current[..j])
  {
    assert before[j] == current[j];
    assert forall i :: 0 <= i < j ==> before[i] == current[i];
  }

  /** Lengths and contents before, between and after the two loops. */
  lemma SyncAddsUp(current: seq<PermName>, between: seq<PermName>, after: seq<PermName>, target: set<PermName>, known: set<PermName>)
    requires NoDuplicates(current) && NoDuplicates(between) && NoDuplicates(after)
    requires Elements(between) == Elements(current) + Additions(Elements(current), target, known)
    requires Elements(after) == Elements(between) - (Elements(current) - target)
    ensures Elements(after) == Synced(Elements(current), target, known)
    ensures |between| - |current| == |Additions(Elements(current), target, known)|
    ensures |between| - |after| == |Elements(current) - target|
  {
    CountElements(current);
    CountElements(between);
    CountElements(after);
    SetsAddUp(Elements(current), Elements(between), Elements(after), target, known);
  }

  lemma SetsAddUp(current: set<PermName>, between: set<PermName>, after: set<PermName>, target: set<PermName>, known: set<PermName>)
    requires between == current + Additions(current, target, known) && after == between - (current - target)
    ensures after == Synced(current, target, known)
    ensures |between| - |current| == |Additions(current, target, known)|
    ensures |between| - |after| == |current - target|
  {
    assert after !! current - target && between == after + (current - target);
    Difference(between, after, current - target);
    Difference(between, current, Additions(current, target, known));
  }

  lemma Difference(all: set<PermName>, part: set<PermName>, rest: set<PermName>)
    requires part !! rest && all == part + rest
    ensures |all| - |part| == |rest|
  {
  }

  lemma LookupsIgnoreCatalogue(db: Db, cat: map<PermName, Permission>, known: set<PermName>, names: SeedNames)
    ensures forall ids :: LookedUp(db.(catalogue := cat), known, names, ids) <==> LookedUp(db, known, names, ids)
  {
    forall ids ensures LookedUp(db.(catalogue := cat), known, names, ids) <==> LookedUp(db, known, names, ids) {
      var a := db.(catalogue := cat);
      var a1, b1 := WithRole(a, ids.admin, names.admin, known, known), WithRole(db, ids.admin, names.admin, known, known);
      var a2, b2 := WithRole(a1, ids.user, names.user, USER_PERMISSIONS, known), WithRole(b1, ids.user, names.user, USER_PERMISSIONS, known);
      LookupIgnoresCatalogue(a, db);
      LookupIgnoresCatalogue(a1, b1);
      LookupIgnoresCatalogue(a2, b2);
    }
  }

  lemma LookupIgnoresCatalogue(a: Db, b: Db)
    requires a == b.(catalogue := a.catalogue)
    ensures forall r, name :: SeedsRole(a, r, name) <==> SeedsRole(b, r, name)
  {
    assert forall name :: GlobalNamed(a, name) == GlobalNamed(b, name);
  }

  class SeedRunner {
    var db: Db

    constructor (db: Db)
      ensures this.db == db
    {
      this.db := db;
    }

    /** `seed_permissions`, with the names it hands on. */
    method SeedPermissions(defs: seq<PermDef>) returns (known: set<PermName>)
      modifies this
      ensures db == old(db).(catalogue := SeededCatalogue(old(db).catalogue, defs))
      ensures known == NamesOf(defs)
    {
      ghost var before := db;
      known := {};
      for i := 0 to |defs|
        invariant db == before.(catalogue := db.catalogue)
        invariant SeededCatalogue(before.catalogue, defs) == SeededCatalogue(db.catalogue, defs[i..])
        invariant known == NamesOf(defs[..i])
      {
        var d := defs[i];
        assert defs[i..][0] == d && defs[i..][1..] == defs[i + 1..];
        assert defs[..i + 1] == defs[..i] + [d];
        db := db.(catalogue := SeedOne(db.catalogue, d));
        known := known + {d.name};
      }
      assert defs[..|defs|] == defs;
    }

    /** One of the three role seeds: find or create the platform role by name, then synchronise its permissions. */
    method SeedRole(name: string, target: set<PermName>, known: set<PermName>, newId: RoleId) returns (r: RoleId)
      requires IsNew(db, newId)
      modifies this
      ensures SeedsRole(old(db), r, name) && (r in old(db).roles || r == newId)
      ensures r in old(db).roles ==> old(db).roles[r].name == name
      ensures forall x :: IsNew(old(db), x) && x != newId ==> IsNew(db, x)
      ensures db == WithRole(old(db), r, name, target, known)
    {
      var found := GlobalNamed(db, name);
      var perms: set<PermName> := {};
      if found == {} {
        r := newId;
      } else {
        r :| r in found;
        perms := db.roles[r].perms;
      }
      perms := SyncSet(perms, target, known);
      db := db.(roles := db.roles[r := Role(None, name, perms)], seen := db.seen + {r});
    }

    /** The three role seeds in a row. */
    method SeedRoles(known: set<PermName>, names: SeedNames, newIds: RoleIds) returns (ids: RoleIds)
      requires Apart(newIds) && IsNew(db, newIds.admin) && IsNew(db, newIds.user) && IsNew(db, newIds.owner)
      modifies this
      ensures db == old(db).(roles := SeededRoles(old(db).roles, known, names, ids), seen := old(db).seen + {ids.admin, ids.user, ids.owner})
      ensures LookedUp(old(db), known, names, ids)
    {
      var admin := SeedRole(names.admin, known, known, newIds.admin);
      var user := SeedRole(names.user, USER_PERMISSIONS, known, newIds.user);
      var owner := SeedRole(TENANT_ADMIN_ROLE, TENANT_ADMIN_PERMISSIONS, known, newIds.owner);
      ids := RoleIds(admin, user, owner);
    }

    /** The whole seed of catalogue and roles. */
    method SeedAll(defs: seq<PermDef>, names: SeedNames, newIds: RoleIds) returns (ids: RoleIds)
      requires Apart(newIds) && IsNew(db, newIds.admin) && IsNew(db, newIds.user) && IsNew(db, newIds.owner)
      modifies this
      ensures db == Seeded(old(db), defs, names, ids)
      ensures LookedUp(old(db), NamesOf(defs), names, ids)
      ensures DistinctNames(names) ==> Apart(ids)
    {
      ghost var before := db;
      var known := SeedPermissions(defs);
      LookupsIgnoreCatalogue(before, db.catalogue, known, names);
      ids := SeedRoles(known, names, newIds);
      if DistinctNames(names) { LookupsFromStart(before, known, names, ids); }
    }
  }

  /** The association table's rows of a role, through the list that the role object carries. */
  method SyncSet(perms: set<PermName>, target: set<PermName>, known: set<PermName>) returns (after: set<PermName>)
    ensures after == Synced(perms, target, known)
  {
    var list := ToList(perms);
    var role := new RoleRecord(list);
    var _ := role.SyncPermissions(target, known);
    after := set n | n in role.permissions;
    assert after == Elements(role.permissions);
  }

  /** The rows of the association table as the list a role object carries. */
  method ToList(perms: set<PermName>) returns (list: seq<PermName>)
    ensures NoDuplicates(list) && Elements(list) == perms
  {
    list := [];
    var rest := perms;
    while rest != {}
      invariant NoDuplicates(list) && Elements(list) + rest == perms && Elements(list) !! rest
      decreases |rest|
    {
      var n :| n in rest;
      AppendElements(list, n);
      list, rest := list + [n], rest - {n};
    }
  }
}
