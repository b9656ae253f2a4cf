/** The role, member and permission services, which change the database and the permission cache in place. */
module Services {
  import opened Listing
  import opened Model
  import opened Steps

  // ---- Queries ----

  /** `MemberRoleRepository.list_in_scope` */
  function RoleRowsIn(db: Db, u: UserId, t: TenantId, q: Scope): set<RoleRow>
  {
    set row | row in db.roleRows && row.user == u && row.tenant == t && row.scope == Bucket(q)
  }

  /** `MemberPermissionRepository.list_in_scope` */
  function PermRowsIn(db: Db, u: UserId, t: TenantId, q: Scope): set<PermRow>
  {
    set row | row in db.permRows && row.user == u && row.tenant == t && row.scope == Bucket(q)
  }

  function RolesOf(rows: set<RoleRow>): set<RoleId>
  {
    set row | row in rows :: row.role
  }

  function ActiveNamesOf(db: Db, rows: set<PermRow>): set<PermName>
  {
    set row | row in rows && IsActive(db, row.perm) :: row.perm
  }

  function NamesGivenBy(db: Db, ids: set<RoleId>): set<PermName>
  {
    set r, n | r in ids && r in db.roles && n in db.roles[r].perms && IsActive(db, n) :: n
  }

  /** The role identifiers that count for a member in scope `q`. */
  function CountingRoles(db: Db, u: UserId, t: TenantId, q: Scope): set<RoleId>
    requires Key(u, t) in db.members
  {
    var primary := db.members[Key(u, t)].role;
    (if primary.Some? then {primary.value} else {})
    + RolesOf(RoleRowsIn(db, u, t, GLOBAL))
    + (if q.kind.Some? then RolesOf(RoleRowsIn(db, u, t, q)) else {})
  }

  function CountingGrants(db: Db, u: UserId, t: TenantId, q: Scope): set<PermName>
  {
    ActiveNamesOf(db, PermRowsIn(db, u, t, GLOBAL)) + (if q.kind.Some? then ActiveNamesOf(db, PermRowsIn(db, u, t, q)) else {})
  }

  lemma CountingRolesHold(db: Db, u: UserId, t: TenantId, q: Scope, r: RoleId)
    requires Key(u, t) in db.members
    ensures r in CountingRoles(db, u, t, q) <==> Holds(db, u, t, r, q)
  {
    assert RoleRow(u, t, r, GLOBAL) in db.roleRows <==> r in RolesOf(RoleRowsIn(db, u, t, GLOBAL)) by {
      assert RoleRow(u, t, r, GLOBAL) in db.roleRows ==> RoleRow(u, t, r, GLOBAL) in RoleRowsIn(db, u, t, GLOBAL);
    }
    if q.kind.Some? {
      assert RoleRow(u, t, r, q) in db.roleRows ==> RoleRow(u, t, r, q) in RoleRowsIn(db, u, t, q);
    }
  }

  lemma CountingGrantsAreDirect(db: Db, u: UserId, t: TenantId, q: Scope, n: PermName)
    ensures n in CountingGrants(db, u, t, q) <==> IsActive(db, n) && GrantedDirectly(db, u, t, n, q)
  {
    assert PermRow(u, t, n, GLOBAL) in db.permRows ==> PermRow(u, t, n, GLOBAL) in PermRowsIn(db, u, t, GLOBAL);
    if q.kind.Some? {
      assert PermRow(u, t, n, q) in db.permRows ==> PermRow(u, t, n, q) in PermRowsIn(db, u, t, q);
    }
  }

  /** Collecting rows and roles as the loops do gives the declarative resolution. */
  lemma CollectedIsResolved(db: Db, u: UserId, t: TenantId, q: Scope)
    requires Key(u, t) in db.members
    ensures CountingGrants(db, u, t, q) + NamesGivenBy(db, CountingRoles(db, u, t, q)) == Resolve(db, u, t, q)
  {
    forall n ensures n in CountingGrants(db, u, t, q) + NamesGivenBy(db, CountingRoles(db, u, t, q)) <==> n in Resolve(db, u, t, q) {
      CountingGrantsAreDirect(db, u, t, q, n);
      if n in NamesGivenBy(db, CountingRoles(db, u, t, q)) {
        var r :| r in CountingRoles(db, u, t, q) && r in db.roles && n in db.roles[r].perms;
        CountingRolesHold(db, u, t, q, r);
        assert GivesThrough(db, u, t, q, n, r);
      }
      if n in Resolve(db, u, t, q) && GrantedByRole(db, u, t, q, n) {
        var r :| GivesThrough(db, u, t, q, n, r);
        CountingRolesHold(db, u, t, q, r);
      }
    }
  }

  // ---- Auxiliary facts about eviction ----

  lemma EvictTwice(cache: PermCache, a: set<Key>, b: set<Key>)
    ensures Evict(Evict(cache, a), b) == Evict(cache, a + b)
  {
  }

  /** Members of the tenant whose primary role is `r`. */
  function PrimaryHolders(db: Db, t: TenantId, r: RoleId): set<Key>
  {
    set k | k in db.members && k.tenant == t && db.members[k].role == Some(r)
  }

  function Released(members: map<Key, Membership>, ks: set<Key>): map<Key, Membership>
  {
    map k | k in members :: if k in ks then members[k].(role := None) else members[k]
  }

  lemma ReleasedStep(members: map<Key, Membership>, done: set<Key>, k: Key)
    requires k in members && k !in done
    ensures Released(members, done)[k := Released(members, done)[k].(role := None)] == Released(members, done + {k})
  {
  }

  function KeysOf(rows: set<RoleRow>): set<Key>
  {
    set row | row in rows :: Key(row.user, row.tenant)
  }

  /** The member's role rows of every scope. */
  function AllRowsOf(db: Db, u: UserId, t: TenantId): set<RoleRow>
  {
    set row | row in db.roleRows && row.user == u && row.tenant == t
  }

  function ReferredRoles(db: Db, u: UserId, t: TenantId): set<RoleId>
    requires Key(u, t) in db.members
  {
    (if db.members[Key(u, t)].role.Some? then {db.members[Key(u, t)].role.value} else {}) + RolesOf(AllRowsOf(db, u, t))
  }

  predicate NoneTwice(names: seq<string>)
  {
    forall i, j :: 0 <= i < j < |names| ==> names[i] != names[j]
  }

  function NamesOfRoles(db: Db, ids: set<RoleId>): set<string>
  {
    set r | r in ids && r in db.roles :: db.roles[r].name
  }

  lemma NamesOfOneMore(db: Db, ids: set<RoleId>, r: RoleId)
    ensures NamesOfRoles(db, ids + {r}) == NamesOfRoles(db, ids) + (if r in db.roles then {db.roles[r].name} else {})
  {
  }

  /** The roles a member refers to, as the queries find them. */
  lemma ReferredIsRefersTo(db: Db, u: UserId, t: TenantId, r: RoleId)
    requires Key(u, t) in db.members
    ensures r in ReferredRoles(db, u, t) <==> RefersTo(db, u, t, r)
  {
    if sc :| RoleRow(u, t, r, sc) in db.roleRows {
      assert RoleRow(u, t, r, sc) in AllRowsOf(db, u, t);
    }
    if r in RolesOf(AllRowsOf(db, u, t)) {
      var row :| row in AllRowsOf(db, u, t) && row.role == r;
      assert RoleRow(u, t, r, row.scope) in db.roleRows;
    }
  }

  /** Evicting the primary holders and then the row holders is evicting all holders. */
  lemma HoldersEvicted(cache: PermCache, db: Db, t: TenantId, r: RoleId, rows: set<RoleRow>)
    requires rows == set row | row in db.roleRows && row.tenant == t && row.role == r
    ensures Evict(Evict(cache, PrimaryHolders(db, t, r)), set row | row in rows :: Key(row.user, t)) == Evict(cache, HoldersIn(db, t, r))
  {
    EvictTwice(cache, PrimaryHolders(db, t, r), set row | row in rows :: Key(row.user, t));
    assert HoldersIn(db, t, r) == PrimaryHolders(db, t, r) + set row | row in rows :: Key(row.user, t);
  }

  class AccessServices {
    var db: Db
    var cache: PermCache

    constructor (db: Db)
      ensures this.db == db && cache == map[]
    {
      this.db := db;
      cache := map[];
    }

    function Now(): State
      reads this
    {
      State(db, cache)
    }

    // ---- Reading ----

    method CollectRoles(rows: set<RoleRow>, start: set<RoleId>) returns (ids: set<RoleId>)
      ensures ids == start + RolesOf(rows)
    {
      ids := start;
      var rest := rows;
      while rest != {}
        invariant rest <= rows && ids == start + RolesOf(rows - rest)
        decreases |rest|
      {
        var row :| row in rest;
        assert RolesOf(rows - (rest - {row})) == RolesOf(rows - rest) + {row.role};
        rest := rest - {row};
        ids := ids + {row.role};
      }
      assert rows - rest == rows;
    }

    method CollectGrants(rows: set<PermRow>, start: set<PermName>) returns (names: set<PermName>)
      ensures names == start + ActiveNamesOf(db, rows)
    {
      names := start;
      var rest := rows;
      while rest != {}
        invariant rest <= rows && names == start + ActiveNamesOf(db, rows - rest)
        decreases |rest|
      {
        var row :| row in rest;
        assert ActiveNamesOf(db, rows - (rest - {row})) == ActiveNamesOf(db, rows - rest) + (if IsActive(db, row.perm) then {row.perm} else {});
        rest := rest - {row};
        if IsActive(db, row.perm) { names := names + {row.perm}; }
      }
      assert rows - rest == rows;
    }

    method CollectRolePerms(ids: set<RoleId>, start: set<PermName>) returns (names: set<PermName>)
      ensures names == start + NamesGivenBy(db, ids)
    {
      names := start;
      var rest := ids;
      while rest != {}
        invariant rest <= ids && names == start + NamesGivenBy(db, ids - rest)
        decreases |rest|
      {
        var r :| r in rest;
        assert ids - (rest - {r}) == (ids - rest) + {r};
        assert NamesGivenBy(db, (ids - rest) + {r}) == NamesGivenBy(db, ids - rest) + NamesGivenBy(db, {r});
        rest := rest - {r};
        if r in db.roles {
          var given := set n | n in db.roles[r].perms && IsActive(db, n);
          assert NamesGivenBy(db, {r}) == given;
          names := names + given;
        }
      }
      assert ids - rest == ids;
    }

    /** `get_permissions_for_user`: from the cache for an unscoped query, else collected from the rows, sorted, and cached. */
    method GetPermissionsForUser(u: UserId, t: TenantId, q: Scope) returns (list: seq<PermName>)
      modifies this`cache
      ensures q.kind.Some? ==> list == Sorted(Resolve(db, u, t, q)) && cache == old(cache)
      ensures q.kind.None? ==> list == ReadList(old(Now()), u, t) && Now() == AfterRead(old(Now()), u, t)
    {
      var k := Key(u, t);
      if q.kind.None? && k in cache { return cache[k]; }
      if k !in db.members {
        assert Resolve(db, u, t, q) == {} && Resolve(db, u, t, GLOBAL) == {};
        return [];
      }
      var ids: set<RoleId> := {};
      if db.members[k].role.Some? { ids := {db.members[k].role.value}; }
      ids := CollectRoles(RoleRowsIn(db, u, t, GLOBAL), ids);
      var names := CollectGrants(PermRowsIn(db, u, t, GLOBAL), {});
      if q.kind.Some? {
        ids := CollectRoles(RoleRowsIn(db, u, t, q), ids);
        names := CollectGrants(PermRowsIn(db, u, t, q), names);
      }
      assert ids == CountingRoles(db, u, t, q) && names == CountingGrants(db, u, t, q);
      names := CollectRolePerms(ids, names);
      CollectedIsResolved(db, u, t, q);
      list := SortNames(names);
      if q.kind.None? {
        KindlessIsGlobal(db, u, t, q);
        cache := cache[k := list];
      }
    }

    // ---- Cache ----

    method InvalidateCache(u: UserId, t: TenantId)
      modifies this`cache
      ensures cache == Evict(old(cache), {Key(u, t)})
    {
      cache := map k | k in cache && k != Key(u, t) :: cache[k];
    }

    /** Every member of the tenant, one after the other. */
    method InvalidateTenantCache(t: TenantId)
      modifies this`cache
      ensures cache == Evict(old(cache), MembersOf(db, t))
    {
      var rest := MembersOf(db, t);
      while rest != {}
        invariant rest <= MembersOf(db, t)
        invariant cache == Evict(old(cache), MembersOf(db, t) - rest)
        decreases |rest|
      {
        var k :| k in rest;
        EvictTwice(old(cache), MembersOf(db, t) - rest, {k});
        InvalidateCache(k.user, t);
        assert MembersOf(db, t) - (rest - {k}) == (MembersOf(db, t) - rest) + {k};
        rest := rest - {k};
      }
      assert MembersOf(db, t) - rest == MembersOf(db, t);
    }

    // ---- Members ----

    /** `assign_role_to_member` */
    method AssignRoleToMember(u: UserId, t: TenantId, r: RoleId) returns (ok: bool)
      modifies this
      ensures Outcome(ok, Now()) == DoAssignPrimary(old(Now()), u, t, r)
    {
      var k := Key(u, t);
      if k !in db.members { return false; }
      if !Assignable(db, t, r) { return false; }
      db := db.(members := db.members[k := db.members[k].(role := Some(r))]);
      InvalidateCache(u, t);
      return true;
    }

    method ClearPrimaryRole(u: UserId, t: TenantId) returns (ok: bool)
      modifies this
      ensures Outcome(ok, Now()) == DoClearPrimary(old(Now()), u, t)
    {
      var k := Key(u, t);
      if k !in db.members { return false; }
      db := db.(members := db.members[k := db.members[k].(role := None)]);
      InvalidateCache(u, t);
      return true;
    }

    method SetMemberStatus(u: UserId, t: TenantId, enabled: bool) returns (ok: bool)
      modifies this
      ensures Outcome(ok, Now()) == DoSetStatus(old(Now()), u, t, enabled)
    {
      var k := Key(u, t);
      if k !in db.members { return false; }
      db := db.(members := db.members[k := db.members[k].(enabled := enabled)]);
      InvalidateCache(u, t);
      return true;
    }

    /** `add_role_to_member` */
    method AddRoleToMember(u: UserId, t: TenantId, r: RoleId, scope: Scope) returns (ok: bool)
      modifies this
      ensures Outcome(ok, Now()) == DoAddRole(old(Now()), u, t, r, scope)
    {
      if !Assignable(db, t, r) { return false; }
      if Key(u, t) !in db.members { return false; }
      if RoleRow(u, t, r, Bucket(scope)) in db.roleRows { return true; }
      db := db.(roleRows := db.roleRows + {RoleRow(u, t, r, scope)});
      InvalidateCache(u, t);
      return true;
    }

    /** `remove_role_from_member`; the result tells whether anything was removed. */
    method RemoveRoleFromMember(u: UserId, t: TenantId, r: RoleId, scope: Scope) returns (touched: bool)
      modifies this
      ensures Outcome(true, Now()) == DoRemoveRole(old(Now()), u, t, r, scope)
      ensures touched == RemovesRole(old(db), u, t, r, scope)
    {
      var row := RoleRow(u, t, r, Bucket(scope));
      touched := false;
      if row in db.roleRows {
        db := db.(roleRows := db.roleRows - {row});
        touched := true;
      }
      var k := Key(u, t);
      if scope.kind.None? && k in db.members && db.members[k].role == Some(r) {
        db := db.(members := db.members[k := db.members[k].(role := None)]);
        touched := true;
      }
      if touched { InvalidateCache(u, t); }
      assert row !in old(db).roleRows ==> old(db).roleRows - {row} == old(db).roleRows;
    }

    /** `grant_permission_to_member` */
    method GrantPermissionToMember(u: UserId, t: TenantId, n: PermName, entitled: Option<set<string>>) returns (ok: bool)
      modifies this
      ensures Outcome(ok, Now()) == DoGrantPerm(old(Now()), u, t, n, entitled)
    {
      if n !in db.catalogue || !db.catalogue[n].active { return false; }
      if !db.catalogue[n].grantable { return false; }
      if entitled.Some? && db.catalogue[n].source.Some? && db.catalogue[n].source.value !in entitled.value { return false; }
      if Key(u, t) !in db.members { return false; }
      if PermRow(u, t, n, GLOBAL) in db.permRows { return true; }
      db := db.(permRows := db.permRows + {PermRow(u, t, n, GLOBAL)});
      InvalidateCache(u, t);
      return true;
    }

    /** `revoke_permission_from_member`; the result tells whether anything was revoked. */
    method RevokePermissionFromMember(u: UserId, t: TenantId, n: PermName) returns (revoked: bool)
      modifies this
      ensures Outcome(true, Now()) == DoRevokePerm(old(Now()), u, t, n)
      ensures revoked == RevokesPerm(old(db), u, t, n)
    {
      if n !in db.catalogue { return false; }
      if PermRow(u, t, n, GLOBAL) !in db.permRows { return false; }
      db := db.(permRows := db.permRows - {PermRow(u, t, n, GLOBAL)});
      InvalidateCache(u, t);
      return true;
    }

    method RemoveMembership(u: UserId, t: TenantId) returns (ok: bool)
      modifies this
      ensures Outcome(ok, Now()) == DoRemoveMember(old(Now()), u, t)
    {
      if Key(u, t) !in db.members { return false; }
      db := db.(members := db.members - {Key(u, t)});
      InvalidateCache(u, t);
      return true;
    }

    // ---- Roles ----

    /** `create_tenant_role`: the role row first, then each permission; one that may not be delegated refuses the whole. */
    method CreateTenantRole(t: TenantId, id: RoleId, name: string, perms: seq<PermName>, entitled: Option<set<string>>) returns (ok: bool)
      requires IsFresh(db, id) && t != "" && t != id
      modifies this
      ensures Outcome(ok, Now()) == DoCreateRole(old(Now()), t, id, name, perms, entitled)
    {
      var before := db;
      db := db.(roles := db.roles[id := Role(Some(t), name, {})], seen := db.seen + {id, t});
      assert Elements(perms[..0]) == {};
      for i := 0 to |perms|
        invariant forall j :: 0 <= j < i ==> Grantable(before, perms[j], entitled)
        invariant db == before.(roles := before.roles[id := Role(Some(t), name, Elements(perms[..i]))], seen := before.seen + {id, t})
        invariant cache == old(cache)
      {
        assert Elements(perms[..i + 1]) == Elements(perms[..i]) + {perms[i]};
        if !Grantable(db, perms[i], entitled) {
          assert perms[i] in perms && !Grantable(before, perms[i], entitled);
          db := before;
          return false;
        }
        db := db.(roles := db.roles[id := db.roles[id].(perms := db.roles[id].perms + {perms[i]})]);
      }
      assert perms[..|perms|] == perms;
      return true;
    }

    /** `add_permission_to_tenant_role` */
    method AddPermissionToTenantRole(t: TenantId, r: RoleId, n: PermName, entitled: Option<set<string>>) returns (ok: bool)
      modifies this
      ensures Outcome(ok, Now()) == DoAddPermToRole(old(Now()), t, r, n, entitled)
    {
      if !Owned(db, t, r) { return false; }
      if !Grantable(db, n, entitled) { return false; }
      if n !in db.roles[r].perms {
        db := db.(roles := db.roles[r := db.roles[r].(perms := db.roles[r].perms + {n})]);
      } else {
        assert db.roles[r].perms + {n} == db.roles[r].perms;
        assert db.roles[r := db.roles[r]] == db.roles;
      }
      InvalidateTenantCache(t);
      return true;
    }

    /** `remove_permission_from_tenant_role` */
    method RemovePermissionFromTenantRole(t: TenantId, r: RoleId, n: PermName) returns (ok: bool)
      modifies this
      ensures Outcome(ok, Now()) == DoRemovePermFromRole(old(Now()), t, r, n)
    {
      if !Owned(db, t, r) { return false; }
      if n in db.catalogue && n in db.roles[r].perms {
        db := db.(roles := db.roles[r := db.roles[r].(perms := db.roles[r].perms - {n})]);
      } else {
        assert db.roles[r].perms - (if n in db.catalogue then {n} else {}) == db.roles[r].perms;
        assert db.roles[r := db.roles[r]] == db.roles;
      }
      InvalidateTenantCache(t);
      return true;
    }

    method RenameTenantRole(t: TenantId, r: RoleId, name: string) returns (ok: bool)
      modifies this
      ensures Outcome(ok, Now()) == DoRenameRole(old(Now()), t, r, name)
    {
      if !Owned(db, t, r) { return false; }
      db := db.(roles := db.roles[r := db.roles[r].(name := name)]);
      return true;
    }

    /** `assign_permission_to_role`: any role, any permission, no invalidation. */
    method AssignPermissionToRole(r: RoleId, n: PermName) returns (ok: bool)
      modifies this`db
      ensures ok <==> r in old(db).roles && n in old(db).catalogue
      ensures db == if ok then UpdateRole(old(db), r, old(db).roles[r].(perms := old(db).roles[r].perms + {n})) else old(db)
    {
      if r !in db.roles { return false; }
      if n !in db.catalogue { return false; }
      if n !in db.roles[r].perms {
        db := db.(roles := db.roles[r := db.roles[r].(perms := db.roles[r].perms + {n})]);
      } else {
        assert db.roles[r].perms + {n} == db.roles[r].perms;
        assert db.roles[r := db.roles[r]] == db.roles;
      }
      return true;
    }

    /** `remove_permission_from_role`: what a role carries exists in the catalogue, by its foreign key. */
    method RemovePermissionFromRole(r: RoleId, n: PermName) returns (ok: bool)
      modifies this`db
      ensures ok <==> r in old(db).roles
      ensures db == if ok then UpdateRole(old(db), r, old(db).roles[r].(perms := old(db).roles[r].perms - {n})) else old(db)
    {
      if r !in db.roles { return false; }
      if n in db.roles[r].perms {
        db := db.(roles := db.roles[r := db.roles[r].(perms := db.roles[r].perms - {n})]);
      } else {
        assert db.roles[r].perms - {n} == db.roles[r].perms;
        assert db.roles[r := db.roles[r]] == db.roles;
      }
      return true;
    }

    /** `delete_tenant_role`: let go of it member by member and row by row, then delete the role itself. */
    method DeleteTenantRole(t: TenantId, r: RoleId) returns (ok: bool)
      modifies this
      ensures Outcome(ok, Now()) == DoDeleteRole(old(Now()), t, r)
    {
      if !Owned(db, t, r) { return false; }
      var before := db;
      ReleasePrimary(t, r);
      var rows := set row | row in db.roleRows && row.tenant == t && row.role == r;
      ReleaseRows(t, r, rows);
      HoldersEvicted(old(cache), before, t, r, rows);
      assert db.roleRows == WithoutRows(before.roleRows, t, r);
      // the flush of the deletion
      if db.enforcesForeignKeys && ((exists i :: i in db.invites && db.invites[i].role == Some(r)) || (exists row :: row in db.roleRows && row.role == r)) {
        db := before;
        return false;
      }
      db := db.(members := WithoutPrimary(db.members, r), roles := db.roles - {r});
      assert db.members == WithoutPrimary(before.members, r);
      return true;
    }

    method ReleaseMember(k: Key)
      requires k in db.members
      modifies this
      ensures db == old(db).(members := old(db).members[k := old(db).members[k].(role := None)])
      ensures cache == Evict(old(cache), {k})
    {
      db := db.(members := db.members[k := db.members[k].(role := None)]);
      InvalidateCache(k.user, k.tenant);
    }

    method ReleaseIfHolder(ghost before: State, ghost done: set<Key>, k: Key, r: RoleId) returns (hit: bool)
      requires k in before.db.members && k !in done
      requires Now() == State(before.db.(members := Released(before.db.members, done)), Evict(before.cache, done))
      modifies this
      ensures hit <==> before.db.members[k].role == Some(r)
      ensures var d := if hit then done + {k} else done;
              Now() == State(before.db.(members := Released(before.db.members, d)), Evict(before.cache, d))
    {
      assert db.members[k] == before.db.members[k];
      hit := db.members[k].role == Some(r);
      if hit {
        ReleasedStep(before.db.members, done, k);
        EvictTwice(before.cache, done, {k});
        ReleaseMember(k);
      }
    }

    method ReleasePrimary(t: TenantId, r: RoleId)
      modifies this
      ensures db == old(db).(members := Released(old(db).members, PrimaryHolders(old(db), t, r)))
      ensures cache == Evict(old(cache), PrimaryHolders(old(db), t, r))
    {
      ghost var before := Now();
      ghost var holders := PrimaryHolders(db, t, r);
      var rest := MembersOf(db, t);
      ghost var done: set<Key> := {};
      assert db.members == Released(db.members, {}) && cache == Evict(cache, {});
      while rest != {}
        invariant forall k :: k in holders <==> k in done || (k in rest && k in holders)
        invariant done !! rest && rest <= MembersOf(before.db, t)
        invariant Now() == State(before.db.(members := Released(before.db.members, done)), Evict(before.cache, done))
        decreases |rest|
      {
        var k :| k in rest;
        var hit := ReleaseIfHolder(before, done, k, r);
        assert hit <==> k in holders;
        if hit { done := done + {k}; }
        rest := rest - {k};
      }
      assert done == holders;
    }

    method ReleaseRows(t: TenantId, r: RoleId, rows: set<RoleRow>)
      requires forall row :: row in rows ==> row.tenant == t && row.role == r
      modifies this
      ensures db == old(db).(roleRows := old(db).roleRows - rows)
      ensures cache == Evict(old(cache), set row | row in rows :: Key(row.user, t))
    {
      var rest := rows;
      while rest != {}
        invariant rest <= rows
        invariant db == old(db).(roleRows := old(db).roleRows - (rows - rest))
        invariant cache == Evict(old(cache), set row | row in rows - rest :: Key(row.user, t))
        decreases |rest|
      {
        var row :| row in rest;
        EvictTwice(old(cache), set x | x in rows - rest :: Key(x.user, t), {Key(row.user, t)});
        InvalidateCache(row.user, t);
        db := db.(roleRows := db.roleRows - {row});
        assert rows - (rest - {row}) == (rows - rest) + {row};
        assert (set x | x in (rows - rest) + {row} :: Key(x.user, t)) == (set x | x in rows - rest :: Key(x.user, t)) + {Key(row.user, t)};
        rest := rest - {row};
      }
      assert rows - rest == rows;
    }

    method CollectPrimaryHolders(t: TenantId, r: RoleId) returns (held: set<Key>)
      ensures held == PrimaryHolders(db, t, r)
    {
      held := {};
      var rest := MembersOf(db, t);
      while rest != {}
        invariant rest <= MembersOf(db, t) && held == PrimaryHolders(db, t, r) - rest
        decreases |rest|
      {
        var k :| k in rest;
        if db.members[k].role == Some(r) { held := held + {k}; }
        rest := rest - {k};
      }
    }

    method AddRowHolders(t: TenantId, start: set<Key>, rows: set<RoleRow>) returns (held: set<Key>)
      requires forall row :: row in rows ==> row.tenant == t
      ensures held == start + KeysOf(rows)
    {
      held := start;
      var left := rows;
      while left != {}
        invariant left <= rows && held == start + KeysOf(rows - left)
        decreases |left|
      {
        var row :| row in left;
        assert KeysOf(rows - (left - {row})) == KeysOf(rows - left) + {Key(row.user, row.tenant)};
        held := held + {Key(row.user, t)};
        left := left - {row};
      }
      assert rows - left == rows;
    }

    /** `_holders`: members with the role as primary, and whoever has a row, counted once. */
    method Holders(t: TenantId, r: RoleId) returns (n: nat)
      ensures n == |HoldersIn(db, t, r)|
    {
      var held := CollectPrimaryHolders(t, r);
      held := AddRowHolders(t, held, set row | row in db.roleRows && row.tenant == t && row.role == r);
      assert held == HoldersIn(db, t, r);
      return |held|;
    }

    /** The role's name, unless the role is gone or the name is already listed. */
    method AppendRoleName(names: seq<string>, r: RoleId) returns (longer: seq<string>)
      requires NoneTwice(names)
      ensures NoneTwice(longer)
      ensures Elements(longer) == Elements(names) + (if r in db.roles then {db.roles[r].name} else {})
    {
      longer := names;
      if r in db.roles && db.roles[r].name !in names {
        ElementsOfConcat(names, [db.roles[r].name]);
        longer := names + [db.roles[r].name];
      }
    }

    method AppendRowRoles(start: seq<string>, rows: set<RoleRow>, ghost base: set<RoleId>) returns (names: seq<string>)
      requires NoneTwice(start) && Elements(start) == NamesOfRoles(db, base)
      ensures NoneTwice(names) && Elements(names) == NamesOfRoles(db, base + RolesOf(rows))
    {
      names := start;
      var rest := rows;
      ghost var done := base;
      while rest != {}
        invariant rest <= rows && done == base + RolesOf(rows - rest)
        invariant NoneTwice(names) && Elements(names) == NamesOfRoles(db, done)
        decreases |rest|
      {
        var row :| row in rest;
        assert RolesOf(rows - (rest - {row})) == RolesOf(rows - rest) + {row.role};
        rest := rest - {row};
        NamesOfOneMore(db, done, row.role);
        done := done + {row.role};
        names := AppendRoleName(names, row.role);
      }
      assert rows - rest == rows;
    }

    /** `get_roles_for_user`: the names of all roles the member refers to, the primary one first, none twice. */
    method GetRolesForUser(u: UserId, t: TenantId) returns (names: seq<string>)
      ensures Key(u, t) !in db.members ==> names == []
      ensures Key(u, t) in db.members ==> Elements(names) == NamesOfRoles(db, ReferredRoles(db, u, t))
      ensures NoneTwice(names)
    {
      names := [];
      var k := Key(u, t);
      if k !in db.members { return; }
      if db.members[k].role.Some? {
        names := AppendRoleName(names, db.members[k].role.value);
      }
      var primary := if db.members[k].role.Some? then {db.members[k].role.value} else {};
      assert Elements(names) == NamesOfRoles(db, primary);
      names := AppendRowRoles(names, AllRowsOf(db, u, t), primary);
    }

    // ---- Invitations and tenants ----

    /** `create_invite` */
    method CreateInvite(t: TenantId, id: InviteId, inviter: UserId, email: string, offered: Option<RoleId>, expires: int) returns (ok: bool)
      requires IsFresh(db, id) && t != "" && t != id
      modifies this`db
      ensures Outcome(ok, Now()) == DoCreateInvite(old(Now()), t, id, inviter, email, offered, expires)
    {
      if !Offerable(db, t, offered) { return false; }
      db := db.(invites := db.invites[id := Invite(t, offered, inviter, email, expires, None, true)], seen := db.seen + {id, t});
      return true;
    }

    /** `revoke_invite` */
    method RevokeInvite(i: InviteId, requester: UserId, privileged: bool) returns (ok: bool)
      modifies this`db
      ensures Outcome(ok, Now()) == DoRevokeInvite(old(Now()), i, requester, privileged)
    {
      if i !in db.invites { return false; }
      if !privileged && db.invites[i].invitedBy != requester { return false; }
      db := db.(invites := db.invites[i := db.invites[i].(active := false)]);
      return true;
    }

    /** `accept_invite` */
    method AcceptInvite(i: InviteId, u: UserId, now: int) returns (ok: bool)
      modifies this`db
      ensures Outcome(ok, Now()) == DoAcceptInvite(old(Now()), i, u, now)
    {
      if i !in db.invites { return false; }
      var inv := db.invites[i];
      if !inv.active { return false; }
      if inv.used.Some? { return false; }
      if inv.expires < now { return false; }
      if !Offerable(db, inv.tenant, inv.role) { return false; }
      if Key(u, inv.tenant) in db.members { return false; }
      db := db.(members := db.members[Key(u, inv.tenant) := Membership(inv.role, false, true)]);
      db := db.(invites := db.invites[i := inv.(used := Some(now), active := false)]);
      return true;
    }

    /** The invitation half of `setup_join_tenant`. */
    method JoinByInvite(i: InviteId, u: UserId, now: int) returns (ok: bool)
      modifies this`db
      ensures Outcome(ok, Now()) == DoJoinByInvite(old(Now()), i, u, now)
    {
      if u !in db.accounts { return false; }
      if i !in db.invites || !db.invites[i].active || db.invites[i].used.Some? { return false; }
      var inv := db.invites[i];
      if inv.expires < now { return false; }
      if Lower(inv.email) != Lower(db.accounts[u].email) { return false; }
      if Key(u, inv.tenant) in db.members { return false; }
      db := db.(members := db.members[Key(u, inv.tenant) := Membership(inv.role, false, true)]);
      db := db.(invites := db.invites[i := inv.(used := Some(now), active := false)]);
      return true;
    }

    /** `deactivate_expired`: how many invitations it marked. */
    method DeactivateExpired(now: int) returns (count: nat)
      modifies this`db
      ensures db == old(db).(invites := Swept(old(db).invites, now))
      ensures count == |set i | i in old(db).invites && old(db).invites[i].active && old(db).invites[i].expires < now|
    {
      var hit := set i | i in db.invites && db.invites[i].active && db.invites[i].expires < now;
      db := db.(invites := map i | i in db.invites :: if i in hit then db.invites[i].(active := false) else db.invites[i]);
      return |hit|;
    }

    /** The tenant half of `setup_create_tenant`: the tenant, and its owner with the global role of that name, if there is one. */
    method CreateTenant(u: UserId, t: TenantId, slug: string, ownerRole: Option<RoleId>) returns (ok: bool)
      requires IsFresh(db, t) && OwnerRoleFound(db, ownerRole)
      modifies this`db
      ensures Outcome(ok, Now()) == DoCreateTenant(old(Now()), u, t, slug, ownerRole)
    {
      if slug in db.slugs.Values { return false; }
      db := db.(slugs := db.slugs[t := slug], seen := db.seen + {t});
      db := db.(members := db.members[Key(u, t) := Membership(ownerRole, true, true)]);
      return true;
    }
  }
}
