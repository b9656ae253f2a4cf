/** Which grants are accepted, and what a declaration makes of each permission and each role, said of its entries alone. */
module Declarations {
  import opened Model
  import opened Grants

  // ---- Names ----

  /** Small letters, digits, underscores and colons; no colon at either end, and no two in a row. */
  predicate WellShaped(s: string)
  {
    && s != "" && s[0] != ':' && s[|s| - 1] != ':'
    && (forall i :: 0 <= i < |s| ==> 'a' <= s[i] <= 'z' || '0' <= s[i] <= '9' || s[i] == '_' || s[i] == ':')
    && (forall i :: 0 < i < |s| ==> !(s[i - 1] == ':' && s[i] == ':'))
  }

  lemma SegmentIsShaped(head: string)
    requires IsSegment(head)
    ensures WellShaped(head) && ':' !in head
  {
    assert forall i :: 0 <= i < |head| ==> IsGrantChar(head[i]);
  }

  lemma ShapedJoins(head: string, tail: string)
    requires IsSegment(head) && WellShaped(tail)
    ensures WellShaped(head + [':'] + tail)
  {
    SegmentIsShaped(head);
    var s := head + [':'] + tail;
    assert forall i :: 0 <= i < |head| ==> s[i] == head[i];
    assert s[|head|] == ':';
    assert forall i :: 0 <= i < |tail| ==> s[|head| + 1 + i] == tail[i];
  }

  lemma ShapedSplits(head: string, tail: string)
    requires head != "" && ':' !in head && WellShaped(head + [':'] + tail)
    ensures IsSegment(head) && WellShaped(tail)
  {
    var s := head + [':'] + tail;
    forall i | 0 <= i < |head| ensures IsGrantChar(head[i]) {
      assert s[i] == head[i] && head[i] in head;
    }
    assert s[|head|] == ':';
    assert s[|s| - 1] != ':';
    assert tail != "";
    assert forall i :: 0 <= i < |tail| ==> s[|head| + 1 + i] == tail[i];
  }

  lemma ShapedSegment(s: string)
    requires WellShaped(s) && ':' !in s
    ensures IsSegment(s)
  {
    forall i | 0 <= i < |s| ensures IsGrantChar(s[i]) {
      assert s[i] in s;
    }
  }

  /** The pattern's segments are exactly the well-shaped texts. */
  lemma {:induction false} SegmentsExactly(s: string)
    ensures AreSegments(s) <==> WellShaped(s)
    decreases |s|
  {
    var head := HeadOf(s);
    if |head| < |s| {
      var tail := s[|head| + 1..];
      assert s == head + [':'] + tail;
      SegmentsExactly(tail);
      if AreSegments(s) { ShapedJoins(head, tail); }
      if WellShaped(s) { ShapedSplits(head, tail); }
    } else {
      assert s == head;
      if AreSegments(s) { SegmentIsShaped(s); }
      if WellShaped(s) { ShapedSegment(s); }
    }
  }

  /** A grant's name: well shaped and with a colon; one line break may follow. */
  lemma GrantNameExactly(name: string)
    ensures IsGrantName(name) <==> WellShaped(name) && ':' in name
    ensures MatchesGrantPattern(name) <==>
              || (WellShaped(name) && ':' in name)
              || (name != "" && name[|name| - 1] == '\n' && WellShaped(name[..|name| - 1]) && ':' in name[..|name| - 1])
  {
    SegmentsExactly(name);
    ColonInside(name);
    if name != "" {
      SegmentsExactly(name[..|name| - 1]);
      ColonInside(name[..|name| - 1]);
    }
  }

  lemma {:induction false} ColonInside(s: string)
    ensures |HeadOf(s)| < |s| <==> ':' in s
    decreases |s|
  {
    if s != "" && s[0] != ':' {
      ColonInside(s[1..]);
      assert s == [s[0]] + s[1..];
    }
  }

  /** The plugin's own namespace, and none of the seven reserved ones. */
  lemma ValidGrantExactly(plugin: string, name: string)
    ensures IsValidGrant(plugin, name) <==>
              && MatchesGrantPattern(name)
              && plugin != "admin" && plugin != "rbac" && plugin != "auth" && plugin != "tenants" && plugin != "user"
              && plugin != "license" && plugin != "plugins"
              && ':' !in plugin && plugin + ":" <= name
  {
    if IsValidGrant(plugin, name) {
      GrantFootprint(plugin, name);
    } else if ':' !in plugin && plugin + ":" <= name {
      HeadOfPlugin(plugin, name[|plugin| + 1..]);
      assert name == plugin + ":" + name[|plugin| + 1..];
    }
  }

  lemma {:induction false} HeadOfPlugin(plugin: string, rest: string)
    requires ':' !in plugin
    ensures HeadOf(plugin + ":" + rest) == plugin
    decreases |plugin|
  {
    if plugin == "" {
      assert plugin + ":" + rest == ":" + rest;
    } else {
      HeadOfPlugin(plugin[1..], rest);
      assert (plugin + ":" + rest)[1..] == plugin[1..] + ":" + rest;
    }
  }

  /** A declaration is carried out when it names its plugin and no role lookup, of the administrator's role or of one listed by an entry, is ambiguous; else nothing changes. */
  lemma DeclaresExactly(db: Db, d: Declaration, adminRole: string)
    ensures var clear := && d.plugin != "" && |GlobalNamed(db, adminRole)| <= 1
                         && forall g, name :: g in d.grants && g.name != "" && name in g.defaultRoles ==> |GlobalNamed(db, name)| <= 1;
            && (TakesEffect(db, d, adminRole) <==> clear)
            && (!clear ==> Declare(db, d, adminRole) == db)
  {
    forall g, name | g in d.grants && g.name != "" && name in g.defaultRoles ensures g.name in WantedFor(d.grants, name) {
    }
    forall name | WantedFor(d.grants, name) != {} ensures exists g :: g in d.grants && g.name != "" && name in g.defaultRoles {
      var n :| n in WantedFor(d.grants, name);
    }
  }

  // ---- What a declaration says of each permission ----

  /** The `i`-th entry of the declaration is accepted, and no later one has its name. */
  ghost predicate LastAccepted(d: Declaration, i: int)
  {
    && 0 <= i < |d.grants| && IsValidGrant(d.plugin, d.grants[i].name)
    && forall j :: i < j < |d.grants| ==> d.grants[j].name != d.grants[i].name
  }

  /** The entries whose names are among `valid`, by name; the last one of a name wins. */
  function LastOf(valid: set<PermName>, grants: seq<Grant>): (r: map<PermName, Grant>)
    ensures r.Keys <= valid
  {
    if grants == [] then map[]
    else
      var g := grants[|grants| - 1];
      var front := LastOf(valid, grants[..|grants| - 1]);
      if g.name in valid then front[g.name := g] else front
  }

  function ValidNames(plugin: string, grants: seq<Grant>): set<PermName>
  {
    set g | g in grants && IsValidGrant(plugin, g.name) :: g.name
  }

  lemma {:induction false} DesiredIsLastOf(plugin: string, grants: seq<Grant>, valid: set<PermName>)
    requires forall g :: g in grants ==> (g.name in valid <==> IsValidGrant(plugin, g.name))
    ensures Desired(plugin, grants) == LastOf(valid, grants)
    decreases |grants|
  {
    if grants != [] {
      assert grants == grants[..|grants| - 1] + [grants[|grants| - 1]];
      DesiredIsLastOf(plugin, grants[..|grants| - 1], valid);
    }
  }

  predicate IsLastOf(valid: set<PermName>, grants: seq<Grant>, i: int)
  {
    0 <= i < |grants| && grants[i].name in valid && forall j :: i < j < |grants| ==> grants[j].name != grants[i].name
  }

  lemma {:induction false} LastIsFound(valid: set<PermName>, grants: seq<Grant>, i: int)
    requires IsLastOf(valid, grants, i)
    ensures grants[i].name in LastOf(valid, grants) && LastOf(valid, grants)[grants[i].name] == grants[i]
    decreases |grants|
  {
    if i < |grants| - 1 { LastIsFound(valid, grants[..|grants| - 1], i); }
  }

  lemma {:induction false} FoundIsLast(valid: set<PermName>, grants: seq<Grant>, n: PermName) returns (i: int)
    requires n in LastOf(valid, grants)
    ensures IsLastOf(valid, grants, i) && grants[i].name == n
    decreases |grants|
  {
    i := |grants| - 1;
    if grants[i].name != n {
      var front := grants[..i];
      i := FoundIsLast(valid, front, n);
      assert forall j :: 0 <= j < |front| ==> front[j] == grants[j];
    }
  }

  lemma AcceptedIsLastOf(d: Declaration, i: int)
    ensures LastAccepted(d, i) <==> IsLastOf(ValidNames(d.plugin, d.grants), d.grants, i)
  {
    if 0 <= i < |d.grants| { assert d.grants[i] in d.grants; }
  }

  lemma DesiredIsLast(d: Declaration, i: int)
    requires LastAccepted(d, i)
    ensures d.grants[i].name in Desired(d.plugin, d.grants) && Desired(d.plugin, d.grants)[d.grants[i].name] == d.grants[i]
  {
    var valid := ValidNames(d.plugin, d.grants);
    AcceptedIsLastOf(d, i);
    DesiredIsLastOf(d.plugin, d.grants, valid);
    LastIsFound(valid, d.grants, i);
  }

  lemma DesiredHasLast(d: Declaration, n: PermName) returns (i: int)
    requires n in Desired(d.plugin, d.grants)
    ensures LastAccepted(d, i) && d.grants[i].name == n
  {
    var valid := ValidNames(d.plugin, d.grants);
    DesiredIsLastOf(d.plugin, d.grants, valid);
    i := FoundIsLast(valid, d.grants, n);
    AcceptedIsLastOf(d, i);
  }

  /** The last accepted entry of a name decides: the permission is active, and all else is as that entry says. */
  lemma DeclaredAsGranted(db: Db, d: Declaration, adminRole: string, i: int)
    requires TakesEffect(db, d, adminRole) && LastAccepted(d, i)
    ensures var g, after := d.grants[i], Declare(db, d, adminRole).catalogue;
            && g.name in after && after[g.name].active && after[g.name].source == Some(d.plugin)
            && after[g.name].grantable == g.grantable
            && after[g.name].description == g.description && after[g.name].group == g.group
  {
    DesiredIsLast(d, i);
  }

  /** A permission that no accepted entry names: the plugin's own are switched off, all others stay as they are. */
  lemma UndeclaredStay(db: Db, d: Declaration, adminRole: string, n: PermName)
    requires TakesEffect(db, d, adminRole)
    requires forall i :: LastAccepted(d, i) ==> d.grants[i].name != n
    ensures var after := Declare(db, d, adminRole).catalogue;
            && (n in after <==> n in db.catalogue)
            && (n in after ==> after[n] == if db.catalogue[n].source == Some(d.plugin) then db.catalogue[n].(active := false) else db.catalogue[n])
  {
    if n in Desired(d.plugin, d.grants) {
      var i := DesiredHasLast(d, n);
    }
  }

  /** Among the plugin's permissions, tenants may hand out exactly those whose last accepted entry says so. */
  lemma DelegableAsGranted(db: Db, d: Declaration, adminRole: string, n: PermName)
    requires TakesEffect(db, d, adminRole)
    requires n in Declare(db, d, adminRole).catalogue && Declare(db, d, adminRole).catalogue[n].source == Some(d.plugin)
    ensures var p := Declare(db, d, adminRole).catalogue[n];
            (p.active && p.grantable) <==> exists i :: LastAccepted(d, i) && d.grants[i].name == n && d.grants[i].grantable
  {
    if i :| LastAccepted(d, i) && d.grants[i].name == n {
      DeclaredAsGranted(db, d, adminRole, i);
      forall j | LastAccepted(d, j) && d.grants[j].name == n ensures j == i {
      }
    } else {
      UndeclaredStay(db, d, adminRole, n);
    }
  }

  /** An unload switches exactly the plugin's permissions off and touches nothing else. */
  lemma UnloadExactly(db: Db, plugin: string)
    ensures var after := Unload(db, plugin);
            && after == db.(catalogue := after.catalogue) && after.catalogue.Keys == db.catalogue.Keys
            && forall n :: n in db.catalogue ==>
                 after.catalogue[n] == if db.catalogue[n].source == Some(plugin) then db.catalogue[n].(active := false) else db.catalogue[n]
  {
  }

  ghost predicate Accepted(d: Declaration, n: PermName)
  {
    IsValidGrant(d.plugin, n) && exists g :: g in d.grants && g.name == n
  }

  ghost predicate ListsRole(d: Declaration, n: PermName, roleName: string)
  {
    exists g :: g in d.grants && g.name == n && roleName in g.defaultRoles
  }

  /**
   * A role of the platform other than the administrator's gains exactly the accepted permissions with an entry that lists
   * the role; the administrator's role gains all accepted ones; an organisation's role gains none. Nothing is ever lost.
   */
  lemma RolesGainAsAsked(db: Db, d: Declaration, adminRole: string, r: RoleId, n: PermName)
    requires TakesEffect(db, d, adminRole) && r in db.roles
    ensures var role, after := db.roles[r], Declare(db, d, adminRole).roles;
            && after.Keys == db.roles.Keys && after[r].name == role.name && after[r].tenant == role.tenant
            && (n in after[r].perms <==>
                  || n in role.perms
                  || (role.tenant == None && Accepted(d, n) && (role.name == adminRole || ListsRole(d, n, role.name))))
  {
  }

  /**
   * A plugin whose name is not reserved may take a built-in permission of its namespace over: its declaration makes the
   * permission its own, and its unload then switches the permission off for everybody.
   */
  lemma BuiltInTakenOver(db: Db, adminRole: string)
    requires "invites:read" in db.catalogue && db.catalogue["invites:read"].source == None && db.catalogue["invites:read"].active
    requires |GlobalNamed(db, adminRole)| <= 1
    ensures var d := InvitesPlugin();
            var after := Declare(db, d, adminRole);
            && "invites:read" in after.catalogue && after.catalogue["invites:read"].source == Some("invites")
            && "invites:read" in Unload(after, "invites").catalogue && !Unload(after, "invites").catalogue["invites:read"].active
  {
    var d := InvitesPlugin();
    InvitesReadIsValid();
    assert forall name :: WantedFor(d.grants, name) == {};
    assert LastAccepted(d, 0);
    DeclaredAsGranted(db, d, adminRole, 0);
    UnloadExactly(Declare(db, d, adminRole), "invites");
  }

  function InvitesPlugin(): Declaration
  {
    Declaration("invites", [Grant("invites:read", None, None, false, [])])
  }

  lemma InvitesReadIsValid()
    ensures IsValidGrant("invites", "invites:read")
  {
    assert "invites:read" == "invites" + [':'] + "read" == "invites" + ":" + "read";
    SegmentIsShaped("read");
    ShapedJoins("invites", "read");
    GrantNameExactly("invites:read");
    ValidGrantExactly("invites", "invites:read");
  }
}
