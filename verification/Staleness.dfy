/**
 * How old a served permission list can be when nothing invalidates at all: any write to the database at any time, cache
 * writes and deletes that may fail, entries that may vanish, and requests that overlap.
 */
module Staleness {
  import opened Model
  import opened Coherence

  const PERM_CACHE_TTL := 300.0

  datatype Entry = Entry(list: seq<PermName>, expires: real)

  /** A database state and the moment it was committed. */
  datatype Commit = Commit(at: real, db: Db)

  /** An uncached resolution that has read the database but not yet written the cache. */
  datatype Pending = Pending(key: Key, list: seq<PermName>, readAt: real)

  datatype World = World(now: real, commits: seq<Commit>, cache: map<Key, Entry>, pending: set<Pending>)

  ghost predicate Started(w: World)
  {
    w.commits != [] && w.commits[|w.commits| - 1].at <= w.now
  }

  function Current(w: World): Db
    requires w.commits != []
  {
    w.commits[|w.commits| - 1].db
  }

  datatype Event =
    | Wait(seconds: real)
    | Write(db: Db)
    | Resolves(key: Key)
    | Stores(p: Pending)
    | GivesUp(p: Pending)
    | Loses(keys: set<Key>)

  /** Requests take at most `latency` seconds between reading the database and writing the cache. */
  ghost predicate Possible(w: World, e: Event, latency: real)
  {
    match e
    case Wait(d) => d >= 0.0
    case Stores(p) => p in w.pending && w.now <= p.readAt + latency
    case GivesUp(p) => p in w.pending
    case _ => true
  }

  ghost function Next(w: World, e: Event): World
    requires w.commits != []
  {
    match e
    case Wait(d) => w.(now := w.now + d)
    case Write(db) => w.(commits := w.commits + [Commit(w.now, db)])
    case Resolves(k) =>
      if k in Current(w).members then w.(pending := w.pending + {Pending(k, Uncached(Current(w), k), w.now)}) else w
    case Stores(p) => w.(cache := w.cache[p.key := Entry(p.list, w.now + PERM_CACHE_TTL)], pending := w.pending - {p})
    case GivesUp(p) => w.(pending := w.pending - {p})
    case Loses(keys) => w.(cache := map k | k in w.cache && k !in keys :: w.cache[k])
  }

  /** The `i`-th committed state was in force at moment `tau`, no later than now. */
  ghost predicate InForce(w: World, i: nat, tau: real)
  {
    && i < |w.commits|
    && w.commits[i].at <= tau <= w.now
    && (i + 1 < |w.commits| ==> tau <= w.commits[i + 1].at)
  }

  /** `list` is the resolution for `k` in a state in force at `tau`. */
  ghost predicate ResolvedAt(w: World, k: Key, list: seq<PermName>, tau: real)
  {
    exists i: nat :: InForce(w, i, tau) && list == Uncached(w.commits[i].db, k)
  }

  ghost predicate EntryBacked(w: World, k: Key, entry: Entry, latency: real)
  {
    exists tau :: ResolvedAt(w, k, entry.list, tau) && entry.expires <= tau + latency + PERM_CACHE_TTL
  }

  ghost predicate Backed(w: World, latency: real)
  {
    && Started(w)
    && (forall k :: k in w.cache ==> EntryBacked(w, k, w.cache[k], latency))
    && (forall p :: p in w.pending ==> ResolvedAt(w, p.key, p.list, p.readAt))
  }

  /** History only grows, so what was in force at a moment stays so. */
  lemma ResolvedStays(w: World, e: Event, k: Key, list: seq<PermName>, tau: real)
    requires Started(w) && (e.Wait? ==> e.seconds >= 0.0) && ResolvedAt(w, k, list, tau)
    ensures ResolvedAt(Next(w, e), k, list, tau)
  {
    var i: nat :| InForce(w, i, tau) && list == Uncached(w.commits[i].db, k);
    assert InForce(Next(w, e), i, tau);
    assert Next(w, e).commits[i] == w.commits[i];
  }

  lemma EntryStaysBacked(w: World, e: Event, k: Key, entry: Entry, latency: real)
    requires Started(w) && (e.Wait? ==> e.seconds >= 0.0) && EntryBacked(w, k, entry, latency)
    ensures EntryBacked(Next(w, e), k, entry, latency)
  {
    var tau :| ResolvedAt(w, k, entry.list, tau) && entry.expires <= tau + latency + PERM_CACHE_TTL;
    ResolvedStays(w, e, k, entry.list, tau);
  }

  lemma StaysBacked(w: World, e: Event, latency: real)
    requires latency >= 0.0 && Backed(w, latency) && Possible(w, e, latency)
    ensures Backed(Next(w, e), latency)
  {
    CacheStaysBacked(w, e, latency);
    PendingStays(w, e, latency);
  }

  lemma CacheStaysBacked(w: World, e: Event, latency: real)
    requires Backed(w, latency) && Possible(w, e, latency)
    ensures forall k :: k in Next(w, e).cache ==> EntryBacked(Next(w, e), k, Next(w, e).cache[k], latency)
  {
    var after := Next(w, e);
    forall k | k in after.cache ensures EntryBacked(after, k, after.cache[k], latency) {
      if e.Stores? && k == e.p.key {
        StoredIsBacked(w, e, latency);
      } else {
        EntryStaysBacked(w, e, k, w.cache[k], latency);
        assert after.cache[k] == w.cache[k];
      }
    }
  }

  lemma StoredIsBacked(w: World, e: Event, latency: real)
    requires Backed(w, latency) && e.Stores? && Possible(w, e, latency)
    ensures EntryBacked(Next(w, e), e.p.key, Next(w, e).cache[e.p.key], latency)
  {
    ResolvedStays(w, e, e.p.key, e.p.list, e.p.readAt);
  }

  lemma PendingStays(w: World, e: Event, latency: real)
    requires Backed(w, latency) && Possible(w, e, latency)
    ensures forall p :: p in Next(w, e).pending ==> ResolvedAt(Next(w, e), p.key, p.list, p.readAt)
  {
    var after := Next(w, e);
    forall p | p in after.pending ensures ResolvedAt(after, p.key, p.list, p.readAt) {
      if p in w.pending {
        ResolvedStays(w, e, p.key, p.list, p.readAt);
      } else {
        assert InForce(after, |w.commits| - 1, w.now);
      }
    }
  }

  ghost function RunWorld(w: World, es: seq<Event>): World
    requires Started(w)
    decreases |es|
  {
    if es == [] || (es[0].Wait? && es[0].seconds < 0.0) then w else RunWorld(Next(w, es[0]), es[1..])
  }

  ghost predicate PossibleRun(w: World, es: seq<Event>, latency: real)
    requires Started(w)
    decreases |es|
  {
    es == [] || (Possible(w, es[0], latency) && PossibleRun(Next(w, es[0]), es[1..], latency))
  }

  lemma {:induction false} RunStaysBacked(w: World, es: seq<Event>, latency: real)
    requires latency >= 0.0 && Backed(w, latency) && PossibleRun(w, es, latency)
    ensures Backed(RunWorld(w, es), latency)
    decreases |es|
  {
    if es != [] {
      StaysBacked(w, es[0], latency);
      RunStaysBacked(Next(w, es[0]), es[1..], latency);
    }
  }

  /** Lists handed out at this moment: a hit, a resolution just made by the request itself, or nothing for a non-member. */
  ghost predicate Serves(w: World, k: Key, list: seq<PermName>, latency: real)
    requires w.commits != []
  {
    || (k in w.cache && w.now <= w.cache[k].expires && list == w.cache[k].list)
    || (exists p :: p in w.pending && p.key == k && p.list == list && w.now <= p.readAt + latency)
    || (k !in Current(w).members && list == [])
  }

  /**
   * Bounded staleness: over every run of writes, reads, losses and failures, each list served is the resolution of a
   * committed state that was in force at most 300 seconds, plus the latency of one request, ago.
   */
  lemma ServedIsRecent(w: World, es: seq<Event>, latency: real, k: Key, list: seq<PermName>) returns (tau: real)
    requires latency >= 0.0 && Backed(w, latency) && PossibleRun(w, es, latency)
    requires RunWorld(w, es).commits != [] && Serves(RunWorld(w, es), k, list, latency)
    ensures ResolvedAt(RunWorld(w, es), k, list, tau)
    ensures RunWorld(w, es).now - (300.0 + latency) <= tau <= RunWorld(w, es).now
  {
    RunStaysBacked(w, es, latency);
    var last := RunWorld(w, es);
    if k in last.cache && last.now <= last.cache[k].expires && list == last.cache[k].list {
      assert EntryBacked(last, k, last.cache[k], latency);
      tau :| ResolvedAt(last, k, last.cache[k].list, tau) && last.cache[k].expires <= tau + latency + PERM_CACHE_TTL;
    } else if k !in Current(last).members && list == [] {
      tau := last.now;
      assert Resolve(Current(last), k.user, k.tenant, GLOBAL) == {};
      assert InForce(last, |last.commits| - 1, tau);
    } else {
      var p :| p in last.pending && p.key == k && p.list == list && last.now <= p.readAt + latency;
      tau := p.readAt;
    }
  }

  /** With requests that read and store in one instant the age is at most 300 seconds. */
  lemma AtomicRequestsServeWithinTtl(w: World, es: seq<Event>, k: Key, list: seq<PermName>) returns (tau: real)
    requires Backed(w, 0.0) && PossibleRun(w, es, 0.0)
    requires RunWorld(w, es).commits != [] && Serves(RunWorld(w, es), k, list, 0.0)
    ensures ResolvedAt(RunWorld(w, es), k, list, tau)
    ensures RunWorld(w, es).now - 300.0 <= tau <= RunWorld(w, es).now
  {
    tau := ServedIsRecent(w, es, 0.0, k, list);
  }

  // ---- The latency term cannot be dropped ----

  /** Two databases that give one member different lists. */
  ghost predicate Differ(a: Db, b: Db, k: Key)
  {
    k in a.members && Uncached(a, k) != Uncached(b, k)
  }

  /** The states of the run: a read, a write with its own successful invalidation, a late store, and 300 seconds. */
  function Overlap(a: Db, b: Db, k: Key, list: seq<PermName>, latency: real, i: nat): World
  {
    var p := Pending(k, list, 0.0);
    var both := [Commit(0.0, a), Commit(0.0, b)];
    if i == 0 then World(0.0, [Commit(0.0, a)], map[], {})
    else if i == 1 then World(0.0, [Commit(0.0, a)], map[], {p})
    else if i <= 3 then World(0.0, both, map[], {p})
    else if i == 4 then World(latency, both, map[], {p})
    else
      var stored := map[k := Entry(list, latency + PERM_CACHE_TTL)];
      if i == 5 then World(latency, both, stored, {}) else World(latency + PERM_CACHE_TTL, both, stored, {})
  }

  function OverlapStates(a: Db, b: Db, k: Key, list: seq<PermName>, latency: real): (ws: seq<World>)
    ensures |ws| == 7 && forall i: nat :: i < 7 ==> ws[i] == Overlap(a, b, k, list, latency, i)
  {
    seq(7, i requires 0 <= i < 7 => Overlap(a, b, k, list, latency, i))
  }

  function LateEvent(b: Db, k: Key, list: seq<PermName>, latency: real, i: nat): Event
  {
    if i == 0 then Resolves(k)
    else if i == 1 then Write(b)
    else if i == 2 then Loses({k})
    else if i == 3 then Wait(latency)
    else if i == 4 then Stores(Pending(k, list, 0.0))
    else Wait(PERM_CACHE_TTL)
  }

  function LateStore(b: Db, k: Key, list: seq<PermName>, latency: real): (es: seq<Event>)
    ensures |es| == 6 && forall i: nat :: i < 6 ==> es[i] == LateEvent(b, k, list, latency, i)
  {
    seq(6, i requires 0 <= i < 6 => LateEvent(b, k, list, latency, i))
  }

  /** Each event leads from one state of the run to the next. */
  ghost predicate Follows(a: Db, b: Db, k: Key, list: seq<PermName>, latency: real, i: nat)
  {
    var w, e := Overlap(a, b, k, list, latency, i), LateEvent(b, k, list, latency, i);
    Started(w) && Possible(w, e, latency) && Next(w, e) == Overlap(a, b, k, list, latency, i + 1)
  }

  lemma ReadFollows(a: Db, b: Db, k: Key, list: seq<PermName>, latency: real)
    requires k in a.members && list == Uncached(a, k)
    ensures Follows(a, b, k, list, latency, 0)
  {
    var p := Pending(k, list, 0.0);
    assert Current(Overlap(a, b, k, list, latency, 0)) == a;
    assert {} + {p} == {p};
  }

  lemma WriteFollows(a: Db, b: Db, k: Key, list: seq<PermName>, latency: real)
    ensures Follows(a, b, k, list, latency, 1) && Follows(a, b, k, list, latency, 2)
  {
    assert [Commit(0.0, a)] + [Commit(0.0, b)] == [Commit(0.0, a), Commit(0.0, b)];
  }

  lemma StoreFollows(a: Db, b: Db, k: Key, list: seq<PermName>, latency: real, i: nat)
    requires latency > 0.0 && 3 <= i < 6
    ensures Follows(a, b, k, list, latency, i)
  {
  }

  lemma AllFollow(a: Db, b: Db, k: Key, list: seq<PermName>, latency: real)
    requires latency > 0.0 && k in a.members && list == Uncached(a, k)
    ensures forall i: nat :: i < 6 ==> Follows(a, b, k, list, latency, i)
  {
    ReadFollows(a, b, k, list, latency);
    WriteFollows(a, b, k, list, latency);
    forall i: nat | 3 <= i < 6 ensures Follows(a, b, k, list, latency, i) {
      StoreFollows(a, b, k, list, latency, i);
    }
  }

  /** States that follow one another by possible events are a run. */
  lemma {:induction false} StepsRun(ws: seq<World>, es: seq<Event>, latency: real, i: nat)
    requires i <= |es| && |ws| == |es| + 1 && Started(ws[|es|])
    requires forall j :: 0 <= j < |es| ==> Started(ws[j]) && Possible(ws[j], es[j], latency) && Next(ws[j], es[j]) == ws[j + 1]
    ensures PossibleRun(ws[i], es[i..], latency) && RunWorld(ws[i], es[i..]) == ws[|es|]
    decreases |es| - i
  {
    if i < |es| {
      StepsRun(ws, es, latency, i + 1);
      assert es[i..][0] == es[i] && es[i..][1..] == es[i + 1..];
    }
  }

  lemma FollowersRun(a: Db, b: Db, k: Key, list: seq<PermName>, latency: real)
    requires forall i: nat :: i < 6 ==> Follows(a, b, k, list, latency, i)
    requires Started(Overlap(a, b, k, list, latency, 6))
    ensures var w, es := Overlap(a, b, k, list, latency, 0), LateStore(b, k, list, latency);
            Started(w) && PossibleRun(w, es, latency) && RunWorld(w, es) == Overlap(a, b, k, list, latency, 6)
  {
    var ws, es := OverlapStates(a, b, k, list, latency), LateStore(b, k, list, latency);
    assert Follows(a, b, k, list, latency, 0);
    forall j | 0 <= j < |es| ensures Started(ws[j]) && Possible(ws[j], es[j], latency) && Next(ws[j], es[j]) == ws[j + 1] {
      assert Follows(a, b, k, list, latency, j);
    }
    StepsRun(ws, es, latency, 0);
    assert es[0..] == es;
  }

  lemma OverlapEndStarted(a: Db, b: Db, k: Key, list: seq<PermName>, latency: real)
    requires latency > 0.0
    ensures Started(Overlap(a, b, k, list, latency, 6))
  {
  }

  lemma OverlapRuns(a: Db, b: Db, k: Key, list: seq<PermName>, latency: real)
    requires latency > 0.0 && k in a.members && list == Uncached(a, k)
    ensures var w, es := Overlap(a, b, k, list, latency, 0), LateStore(b, k, list, latency);
            Started(w) && PossibleRun(w, es, latency) && RunWorld(w, es) == Overlap(a, b, k, list, latency, 6)
  {
    AllFollow(a, b, k, list, latency);
    OverlapEndStarted(a, b, k, list, latency);
    FollowersRun(a, b, k, list, latency);
  }

  /**
   * As soon as a request takes time, 300 seconds alone are not enough: a list is still served whose every moment in force
   * lies more than 300 seconds back, although the write that changed it invalidated the entry.
   */
  lemma LatencyCounts(a: Db, b: Db, k: Key, latency: real) returns (w: World, es: seq<Event>)
    requires latency > 0.0 && Differ(a, b, k)
    ensures Backed(w, latency) && PossibleRun(w, es, latency)
    ensures RunWorld(w, es).commits != [] && Serves(RunWorld(w, es), k, Uncached(a, k), latency)
    ensures forall tau :: ResolvedAt(RunWorld(w, es), k, Uncached(a, k), tau) ==> tau < RunWorld(w, es).now - 300.0
  {
    var list := Uncached(a, k);
    w, es := Overlap(a, b, k, list, latency, 0), LateStore(b, k, list, latency);
    OverlapRuns(a, b, k, list, latency);
    LateIsStale(Overlap(a, b, k, list, latency, 6), a, b, k, latency);
  }

  /** Right at the very start only, and still there at the end. */
  lemma LateIsStale(w: World, a: Db, b: Db, k: Key, latency: real)
    requires latency > 0.0 && Differ(a, b, k)
    requires w.commits == [Commit(0.0, a), Commit(0.0, b)] && w.now == latency + PERM_CACHE_TTL
    ensures forall tau :: ResolvedAt(w, k, Uncached(a, k), tau) ==> tau < w.now - PERM_CACHE_TTL
  {
    forall tau | ResolvedAt(w, k, Uncached(a, k), tau) ensures tau < w.now - PERM_CACHE_TTL {
      var i: nat :| InForce(w, i, tau) && Uncached(a, k) == Uncached(w.commits[i].db, k);
      assert i == 0;
    }
  }
}
