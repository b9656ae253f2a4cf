/** Cache coherence: every cached permission list is the list an uncached resolution would give. */
module Coherence {
  import opened Listing
  import opened Model
  import opened Steps
  import opened Isolation

  ghost function Uncached(db: Db, k: Key): seq<PermName>
  {
    Sorted(Resolve(db, k.user, k.tenant, GLOBAL))
  }

  /** Each entry belongs to a current member and equals the uncached resolution. */
  ghost predicate Coherent(s: State)
  {
    forall k :: k in s.cache ==> k in s.db.members && s.cache[k] == Uncached(s.db, k)
  }

  ghost predicate Good(s: State)
  {
    Sound(s.db) && Coherent(s)
  }

  /** Every entry of `small` is an entry of `large`. */
  predicate SubCache(small: PermCache, large: PermCache)
  {
    forall k :: k in small ==> k in large && small[k] == large[k]
  }

  lemma RefusalKeepsDb(s: State, op: Op)
    requires !Do(s, op).ok
    ensures Do(s, op).state.db == s.db
  {
  }

  /** Only a read adds to the cache. */
  lemma WritesOnlyEvict(s: State, op: Op)
    requires !op.Read?
    ensures SubCache(Do(s, op).state.cache, s.cache)
  {
    if IsMemberOp(op) {
    } else if IsRoleOp(op) {
    } else {
    }
  }

  /** Local invalidation is enough: no entry of a touched member survives. */
  lemma TouchedAreEvicted(s: State, op: Op, k: Key)
    requires Good(s)
    requires Do(s, op).ok && Touches(s.db, op, k)
    ensures k !in Do(s, op).state.cache
  {
    if IsMemberOp(op) {
      MemberOpEvicts(s, op);
    } else if IsRoleOp(op) {
      RoleOpEvicts(s, op, k);
    } else {
      JoiningFindsNoEntry(s, op, k);
    }
  }

  lemma MemberOpEvicts(s: State, op: Op)
    requires IsMemberOp(op) && Do(s, op).ok && Touches(s.db, op, Key(op.user, op.tenant))
    ensures Key(op.user, op.tenant) !in Do(s, op).state.cache
  {
  }

  lemma RoleOpEvicts(s: State, op: Op, k: Key)
    requires IsRoleOp(op) && Coherent(s) && Do(s, op).ok && Touches(s.db, op, k)
    ensures k !in Do(s, op).state.cache
  {
    if op.AddPermToRole? || op.RemovePermFromRole? {
      assert k in s.db.members ==> k in MembersOf(s.db, op.tenant);
    }
  }

  /** Who is about to become a member has no entry that could be stale. */
  lemma JoiningFindsNoEntry(s: State, op: Op, k: Key)
    requires !IsMemberOp(op) && !IsRoleOp(op) && Good(s) && Do(s, op).ok && Touches(s.db, op, k)
    ensures k !in Do(s, op).state.cache
  {
  }

  /** Dropping entries never hurts, whatever else stays. */
  lemma SubCacheStaysCoherent(s: State, cache: PermCache)
    requires Coherent(s) && SubCache(cache, s.cache)
    ensures Coherent(s.(cache := cache))
  {
  }

  /** Entries that stay valid make a coherent state. */
  lemma UntouchedEntriesStay(s: State, after: State)
    requires Coherent(s) && SubCache(after.cache, s.cache)
    requires forall k :: k in after.cache ==> SameView(s.db, after.db, k.user, k.tenant)
    ensures Coherent(after)
  {
    forall k | k in after.cache ensures k in after.db.members && after.cache[k] == Uncached(after.db, k) {
      SameViewResolves(s.db, after.db, k.user, k.tenant, GLOBAL);
    }
  }

  /** One operation keeps the cache coherent. It needs isolation: a role edit clears the members of one tenant only. */
  lemma StaysCoherent(s: State, op: Op)
    requires Good(s)
    ensures Coherent(Do(s, op).state)
  {
    if op.Read? {
    } else {
      WritesOnlyEvict(s, op);
      if Do(s, op).ok {
        forall k | k in Do(s, op).state.cache ensures SameView(s.db, Do(s, op).state.db, k.user, k.tenant) {
          if Touches(s.db, op, k) { TouchedAreEvicted(s, op, k); }
          Untouched(s, op, k.user, k.tenant);
        }
        UntouchedEntriesStay(s, Do(s, op).state);
      } else {
        RefusalKeepsDb(s, op);
        SubCacheStaysCoherent(s, Do(s, op).state.cache);
      }
    }
  }

  lemma StaysGood(s: State, op: Op)
    requires Good(s)
    ensures Good(Do(s, op).state)
  {
    StaysSound(s, op);
    StaysCoherent(s, op);
  }

  /** In a coherent state the cached and the uncached `get_permissions_for_user` agree, for members and non-members. */
  lemma CachedIsUncached(s: State, u: UserId, t: TenantId)
    requires Coherent(s)
    ensures ReadList(s, u, t) == Uncached(s.db, Key(u, t))
    ensures Elements(ReadList(s, u, t)) == Resolve(s.db, u, t, GLOBAL)
    ensures Key(u, t) !in s.db.members ==> ReadList(s, u, t) == []
  {
    if Key(u, t) !in s.db.members {
      assert Resolve(s.db, u, t, GLOBAL) == {};
    }
  }
}
