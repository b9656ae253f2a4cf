/** What granting and revoking do to the effective permissions, scope by scope. */
module Effects {
  import opened Model
  import opened Steps

  /** The permissions a role really gives: the active ones it carries. */
  function ActivePermsOf(db: Db, r: RoleId): set<PermName>
  {
    if r in db.roles then set n | n in db.roles[r].perms && IsActive(db, n) else {}
  }

  /** A row of scope `sc` counts for queries in scope `q`. */
  predicate CountsIn(sc: Scope, q: Scope)
  {
    sc == GLOBAL || (q.kind.Some? && sc == q)
  }

  lemma NewRowGives(a: Db, b: Db, row: RoleRow, u: UserId, t: TenantId, q: Scope, n: PermName)
    requires b == a.(roleRows := a.roleRows + {row}) && row.user == u && row.tenant == t
    ensures GrantedByRole(b, u, t, q, n)
       <==> GrantedByRole(a, u, t, q, n) || (CountsIn(row.scope, q) && row.role in a.roles && n in a.roles[row.role].perms)
  {
    if GrantedByRole(b, u, t, q, n) {
      var r :| GivesThrough(b, u, t, q, n, r);
      assert GivesThrough(a, u, t, q, n, r) || (CountsIn(row.scope, q) && r == row.role);
    }
    if GrantedByRole(a, u, t, q, n) {
      var r :| GivesThrough(a, u, t, q, n, r);
      assert GivesThrough(b, u, t, q, n, r);
    }
    if CountsIn(row.scope, q) && row.role in a.roles && n in a.roles[row.role].perms {
      assert GivesThrough(b, u, t, q, n, row.role);
    }
  }

  /** An accepted extra role adds exactly its active permissions, in the scopes its row counts in, and in no other. */
  lemma AddRoleAddsItsPermissions(s: State, u: UserId, t: TenantId, r: RoleId, sc: Scope, q: Scope)
    requires DoAddRole(s, u, t, r, sc).ok
    ensures Resolve(DoAddRole(s, u, t, r, sc).state.db, u, t, q)
         == Resolve(s.db, u, t, q) + (if CountsIn(sc, q) then ActivePermsOf(s.db, r) else {})
  {
    var after := DoAddRole(s, u, t, r, sc).state.db;
    forall n ensures n in Resolve(after, u, t, q) <==> n in Resolve(s.db, u, t, q) + (if CountsIn(sc, q) then ActivePermsOf(s.db, r) else {}) {
      if RoleRow(u, t, r, Bucket(sc)) in s.db.roleRows {
        if CountsIn(sc, q) && n in ActivePermsOf(s.db, r) { assert GivesThrough(s.db, u, t, q, n, r); }
      } else {
        NewRowGives(s.db, after, RoleRow(u, t, r, sc), u, t, q, n);
      }
    }
  }

  /** Adding or removing a role in one scope leaves the resolution in every other scope, and globally, as it was. */
  lemma ScopedEditStaysInScope(s: State, op: Op, q: Scope)
    requires op.AddRole? || op.RemoveRole?
    requires op.scope.kind.Some? && q != op.scope
    ensures Resolve(Do(s, op).state.db, op.user, op.tenant, q) == Resolve(s.db, op.user, op.tenant, q)
  {
    var after := Do(s, op).state.db;
    forall r ensures Holds(after, op.user, op.tenant, r, q) <==> Holds(s.db, op.user, op.tenant, r, q) {
    }
    SameHoldsResolve(s.db, after, op.user, op.tenant, q);
  }

  lemma SameHoldsResolve(a: Db, b: Db, u: UserId, t: TenantId, q: Scope)
    requires a.catalogue == b.catalogue && a.roles == b.roles && a.permRows == b.permRows
    requires Key(u, t) in a.members <==> Key(u, t) in b.members
    requires forall r :: Holds(a, u, t, r, q) <==> Holds(b, u, t, r, q)
    ensures Resolve(a, u, t, q) == Resolve(b, u, t, q)
  {
    forall n ensures GrantedByRole(a, u, t, q, n) <==> GrantedByRole(b, u, t, q, n) {
      if GrantedByRole(a, u, t, q, n) {
        var r :| GivesThrough(a, u, t, q, n, r);
        assert GivesThrough(b, u, t, q, n, r);
      }
      if GrantedByRole(b, u, t, q, n) {
        var r :| GivesThrough(b, u, t, q, n, r);
        assert GivesThrough(a, u, t, q, n, r);
      }
    }
  }

  /** A row with a scope identifier but no scope kind is accepted and then seen by no query at all. */
  lemma KindlessRowIsInvisible(s: State, u: UserId, t: TenantId, r: RoleId, id: string, q: Scope)
    requires DoAddRole(s, u, t, r, Scope(None, Some(id))).ok
    ensures Resolve(DoAddRole(s, u, t, r, Scope(None, Some(id))).state.db, u, t, q) == Resolve(s.db, u, t, q)
  {
    AddRoleAddsItsPermissions(s, u, t, r, Scope(None, Some(id)), q);
  }

  lemma SameRolesSameGrants(a: Db, b: Db, u: UserId, t: TenantId, q: Scope, n: PermName)
    requires b == a.(permRows := b.permRows)
    ensures GrantedByRole(a, u, t, q, n) <==> GrantedByRole(b, u, t, q, n)
  {
    if GrantedByRole(a, u, t, q, n) {
      var r :| GivesThrough(a, u, t, q, n, r);
      assert GivesThrough(b, u, t, q, n, r);
    }
    if GrantedByRole(b, u, t, q, n) {
      var r :| GivesThrough(b, u, t, q, n, r);
      assert GivesThrough(a, u, t, q, n, r);
    }
  }

  /** A direct grant adds exactly that permission, in every scope. */
  lemma GrantAddsOne(s: State, u: UserId, t: TenantId, n: PermName, entitled: Option<set<string>>, q: Scope)
    requires DoGrantPerm(s, u, t, n, entitled).ok
    ensures Resolve(DoGrantPerm(s, u, t, n, entitled).state.db, u, t, q) == Resolve(s.db, u, t, q) + {n}
  {
    var after := DoGrantPerm(s, u, t, n, entitled).state.db;
    forall m ensures m in Resolve(after, u, t, q) <==> m in Resolve(s.db, u, t, q) + {n} {
      SameRolesSameGrants(s.db, after, u, t, q, m);
    }
  }

  /** The member has `n` in scope `q` by something other than the global direct grant. */
  ghost predicate HasOtherwise(db: Db, u: UserId, t: TenantId, q: Scope, n: PermName)
  {
    GrantedByRole(db, u, t, q, n) || (q.kind.Some? && PermRow(u, t, n, q) in db.permRows && q != GLOBAL)
  }

  /** Revoking takes exactly that permission, unless a role or a scoped grant still gives it. */
  lemma RevokeTakesOne(s: State, u: UserId, t: TenantId, n: PermName, q: Scope)
    ensures Resolve(DoRevokePerm(s, u, t, n).state.db, u, t, q)
         == Resolve(s.db, u, t, q) - (if HasOtherwise(s.db, u, t, q, n) then {} else {n})
  {
    var after := DoRevokePerm(s, u, t, n).state.db;
    forall m ensures m in Resolve(after, u, t, q) <==> m in Resolve(s.db, u, t, q) - (if HasOtherwise(s.db, u, t, q, n) then {} else {n}) {
      SameRolesSameGrants(s.db, after, u, t, q, m);
    }
  }

  /** Granting and revoking again undoes the grant, if the member did not have the permission directly before. */
  lemma RevokeUndoesGrant(s: State, u: UserId, t: TenantId, n: PermName, entitled: Option<set<string>>)
    requires DoGrantPerm(s, u, t, n, entitled).ok && PermRow(u, t, n, GLOBAL) !in s.db.permRows
    ensures DoRevokePerm(DoGrantPerm(s, u, t, n, entitled).state, u, t, n).state.db == s.db
  {
    assert s.db.permRows + {PermRow(u, t, n, GLOBAL)} - {PermRow(u, t, n, GLOBAL)} == s.db.permRows;
  }

  /** A permission given to an owned role reaches every member that holds the role, in the scopes where it is held. */
  lemma RolePermReachesHolders(s: State, t: TenantId, r: RoleId, n: PermName, entitled: Option<set<string>>, u: UserId, q: Scope)
    requires DoAddPermToRole(s, t, r, n, entitled).ok && Key(u, t) in s.db.members
    ensures Resolve(DoAddPermToRole(s, t, r, n, entitled).state.db, u, t, q)
         == Resolve(s.db, u, t, q) + (if Holds(s.db, u, t, r, q) then {n} else {})
  {
    var after := DoAddPermToRole(s, t, r, n, entitled).state.db;
    forall m ensures m in Resolve(after, u, t, q) <==> m in Resolve(s.db, u, t, q) + (if Holds(s.db, u, t, r, q) then {n} else {}) {
      if GrantedByRole(s.db, u, t, q, m) {
        var x :| GivesThrough(s.db, u, t, q, m, x);
        assert GivesThrough(after, u, t, q, m, x);
      }
      if GrantedByRole(after, u, t, q, m) {
        var x :| GivesThrough(after, u, t, q, m, x);
        assert GivesThrough(s.db, u, t, q, m, x) || (x == r && m == n);
      }
      if Holds(s.db, u, t, r, q) && m == n { assert GivesThrough(after, u, t, q, n, r); }
    }
  }

  // ---- Losing and gaining a held role ----

  /** From `a` to `b` the member stops holding `r` in scope `q`, or not even that, and nothing else the resolution reads differs. */
  ghost predicate OnlyLoses(a: Db, b: Db, u: UserId, t: TenantId, r: RoleId, q: Scope)
  {
    && a.catalogue == b.catalogue && a.permRows == b.permRows
    && (Key(u, t) in a.members <==> Key(u, t) in b.members)
    && (forall x :: x != r ==> (Holds(a, u, t, x, q) <==> Holds(b, u, t, x, q)) && SameRole(a, b, x))
    && (Holds(b, u, t, r, q) ==> Holds(a, u, t, r, q) && SameRole(a, b, r))
  }

  lemma LostGrants(a: Db, b: Db, u: UserId, t: TenantId, r: RoleId, q: Scope, n: PermName)
    requires OnlyLoses(a, b, u, t, r, q)
    ensures GrantedByRole(a, u, t, q, n) <==> GrantedByRole(b, u, t, q, n) || GivesThrough(a, u, t, q, n, r)
  {
    if GrantedByRole(a, u, t, q, n) && !GivesThrough(a, u, t, q, n, r) {
      var x :| GivesThrough(a, u, t, q, n, x);
      assert GivesThrough(b, u, t, q, n, x);
    }
    if GrantedByRole(b, u, t, q, n) {
      var x :| GivesThrough(b, u, t, q, n, x);
      assert GivesThrough(a, u, t, q, n, x);
    }
  }

  /** What a role gives the member in this scope. */
  function GivenBy(db: Db, u: UserId, t: TenantId, r: RoleId, q: Scope): set<PermName>
  {
    if Key(u, t) in db.members && Holds(db, u, t, r, q) then ActivePermsOf(db, r) else {}
  }

  lemma WhatIsLost(a: Db, b: Db, u: UserId, t: TenantId, r: RoleId, q: Scope)
    requires OnlyLoses(a, b, u, t, r, q)
    ensures Resolve(a, u, t, q) == Resolve(b, u, t, q) + GivenBy(a, u, t, r, q)
  {
    forall n ensures n in Resolve(a, u, t, q) <==> n in Resolve(b, u, t, q) + GivenBy(a, u, t, r, q) {
      LostGrants(a, b, u, t, r, q, n);
    }
  }

  /** A member has what remains without a primary role, plus what the primary role gives. */
  lemma PrimaryAddsItsPermissions(s: State, u: UserId, t: TenantId, q: Scope)
    requires Key(u, t) in s.db.members
    ensures var primary := s.db.members[Key(u, t)].role;
            Resolve(s.db, u, t, q)
            == Resolve(DoClearPrimary(s, u, t).state.db, u, t, q) + (if primary.Some? then ActivePermsOf(s.db, primary.value) else {})
  {
    var cleared := DoClearPrimary(s, u, t).state.db;
    match s.db.members[Key(u, t)].role
    case Some(p) => WhatIsLost(s.db, cleared, u, t, p, q);
    case None => SameHoldsResolve(s.db, cleared, u, t, q);
  }

  /** Assigning a primary role replaces what the old one gave by what the new one gives, in every scope. */
  lemma AssignReplacesPrimary(s: State, u: UserId, t: TenantId, r: RoleId, q: Scope)
    requires DoAssignPrimary(s, u, t, r).ok
    ensures Resolve(DoAssignPrimary(s, u, t, r).state.db, u, t, q)
         == Resolve(DoClearPrimary(s, u, t).state.db, u, t, q) + ActivePermsOf(s.db, r)
  {
    var later := DoAssignPrimary(s, u, t, r).state;
    PrimaryAddsItsPermissions(later, u, t, q);
    assert DoClearPrimary(later, u, t).state.db.members == DoClearPrimary(s, u, t).state.db.members;
  }

  /** Removing a role without naming a scope leaves no global hold on it, and takes exactly what the role gave there. */
  lemma RemoveRoleTakesIt(s: State, u: UserId, t: TenantId, r: RoleId)
    ensures var after := DoRemoveRole(s, u, t, r, GLOBAL).state.db;
            && !Holds(after, u, t, r, GLOBAL)
            && Resolve(s.db, u, t, GLOBAL) == Resolve(after, u, t, GLOBAL) + GivenBy(s.db, u, t, r, GLOBAL)
  {
    WhatIsLost(s.db, DoRemoveRole(s, u, t, r, GLOBAL).state.db, u, t, r, GLOBAL);
  }

  /** Removing a role in one scope takes there what the role gave, unless it is held globally. */
  lemma RemoveScopedRoleTakesIt(s: State, u: UserId, t: TenantId, r: RoleId, sc: Scope)
    requires sc.kind.Some?
    ensures var after := DoRemoveRole(s, u, t, r, sc).state.db;
            && (Holds(after, u, t, r, sc) <==> Holds(s.db, u, t, r, GLOBAL))
            && Resolve(s.db, u, t, sc) == Resolve(after, u, t, sc) + GivenBy(s.db, u, t, r, sc)
  {
    WhatIsLost(s.db, DoRemoveRole(s, u, t, r, sc).state.db, u, t, r, sc);
  }

  /** Deleting a role leaves no trace of it in its tenant, and takes from each holder exactly what it gave. */
  lemma DeletionTakesFromHolders(s: State, t: TenantId, r: RoleId, u: UserId, q: Scope)
    requires DoDeleteRole(s, t, r).ok
    ensures var after := DoDeleteRole(s, t, r).state.db;
            && !RefersTo(after, u, t, r)
            && Resolve(s.db, u, t, q) == Resolve(after, u, t, q) + GivenBy(s.db, u, t, r, q)
  {
    var after := DoDeleteRole(s, t, r).state.db;
    forall x | x != r ensures (Holds(s.db, u, t, x, q) <==> Holds(after, u, t, x, q)) && SameRole(s.db, after, x) {
    }
    WhatIsLost(s.db, after, u, t, r, q);
  }

  /** The member has `n` in scope `q` without the help of role `r`. */
  ghost predicate HasWithout(db: Db, u: UserId, t: TenantId, q: Scope, n: PermName, r: RoleId)
  {
    GrantedDirectly(db, u, t, n, q) || exists x :: x != r && GivesThrough(db, u, t, q, n, x)
  }

  /** A permission taken from an owned role is lost by exactly those whom nothing else gives it. */
  lemma RolePermTakenFromHolders(s: State, t: TenantId, r: RoleId, n: PermName, u: UserId, q: Scope)
    requires DoRemovePermFromRole(s, t, r, n).ok
    ensures Resolve(DoRemovePermFromRole(s, t, r, n).state.db, u, t, q)
         == Resolve(s.db, u, t, q) - (if HasWithout(s.db, u, t, q, n, r) then {} else {n})
  {
    var after := DoRemovePermFromRole(s, t, r, n).state.db;
    forall m ensures m in Resolve(after, u, t, q) <==> m in Resolve(s.db, u, t, q) && (m != n || HasWithout(s.db, u, t, q, n, r)) {
      if GrantedByRole(after, u, t, q, m) {
        var x :| GivesThrough(after, u, t, q, m, x);
        assert GivesThrough(s.db, u, t, q, m, x);
      }
      if GrantedByRole(s.db, u, t, q, m) && m != n {
        var x :| GivesThrough(s.db, u, t, q, m, x);
        assert GivesThrough(after, u, t, q, m, x);
      }
      if m == n && exists x :: x != r && GivesThrough(s.db, u, t, q, n, x) {
        var x :| x != r && GivesThrough(s.db, u, t, q, n, x);
        assert GivesThrough(after, u, t, q, n, x);
      }
    }
  }

  // ---- Leaving and coming back ----

  /** Whoever is no member resolves to nothing, whatever rows are left. */
  lemma NonMemberHasNothing(db: Db, u: UserId, t: TenantId, q: Scope)
    requires Key(u, t) !in db.members
    ensures Resolve(db, u, t, q) == {}
  {
  }

  /** What the rows of `was` give a member without primary role, as roles and catalogue are in `now`. */
  ghost function RowsGive(now: Db, was: Db, u: UserId, t: TenantId, q: Scope): set<PermName>
  {
    Resolve(now.(members := map[Key(u, t) := Membership(None, false, true)], roleRows := was.roleRows, permRows := was.permRows), u, t, q)
  }

  /** Whoever joins by an invitation has what its role gives, and besides whatever rows are there already. */
  lemma JoiningAddsToRows(s: State, i: InviteId, u: UserId, now: int, q: Scope)
    requires i in s.db.invites
    ensures var t, offered := s.db.invites[i].tenant, s.db.invites[i].role;
            Resolve(Consume(s, i, u, now).db, u, t, q)
            == RowsGive(s.db, s.db, u, t, q) + (if offered.Some? then ActivePermsOf(s.db, offered.value) else {})
  {
    var t := s.db.invites[i].tenant;
    var joined := Consume(s, i, u, now);
    PrimaryAddsItsPermissions(joined, u, t, q);
    var a := DoClearPrimary(joined, u, t).state.db;
    SameHoldsResolve(a, s.db.(members := map[Key(u, t) := Membership(None, false, true)]), u, t, q);
  }

  /** Rows that are the same for this member. */
  ghost predicate SameRows(a: Db, b: Db, u: UserId, t: TenantId)
  {
    && (forall r, sc :: RoleRow(u, t, r, sc) in a.roleRows <==> RoleRow(u, t, r, sc) in b.roleRows)
    && (forall n, sc :: PermRow(u, t, n, sc) in a.permRows <==> PermRow(u, t, n, sc) in b.permRows)
  }

  lemma RowsGiveTheSame(now: Db, a: Db, b: Db, u: UserId, t: TenantId, q: Scope)
    requires SameRows(a, b, u, t)
    ensures RowsGive(now, a, u, t, q) == RowsGive(now, b, u, t, q)
  {
    var m := map[Key(u, t) := Membership(None, false, true)];
    SameViewResolves(now.(members := m, roleRows := a.roleRows, permRows := a.permRows),
                     now.(members := m, roleRows := b.roleRows, permRows := b.permRows), u, t, q);
  }

  /** As long as catalogue and roles stay, the rows give what the member had besides the primary role. */
  lemma RowsGiveAsBefore(s: State, now: Db, u: UserId, t: TenantId, q: Scope)
    requires Key(u, t) in s.db.members && now.catalogue == s.db.catalogue
    requires forall r, sc :: RoleRow(u, t, r, sc) in s.db.roleRows ==> SameRole(now, s.db, r)
    ensures RowsGive(now, s.db, u, t, q) == Resolve(DoClearPrimary(s, u, t).state.db, u, t, q)
  {
    SameViewResolves(now.(members := map[Key(u, t) := Membership(None, false, true)], roleRows := s.db.roleRows, permRows := s.db.permRows),
                     DoClearPrimary(s, u, t).state.db, u, t, q);
  }
}
