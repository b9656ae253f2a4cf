/** What each login and each exchange records, and what becomes of the access token that was handed out with a refresh token. */
module AccessTokens {
  import opened Model
  import opened Sessions
  import opened Blacklist

  // ---- What is recorded ----

  /** A login adds one session row: its refresh token, its access token, its tenant and device, for the given days. */
  lemma OpenRecords(st: AuthState, op: Op, now: real, lt: Lifetimes)
    requires op.Open? && AllNew(st, op.id, op.token, op.jti)
    ensures var after := Apply(st, op, now, lt);
            && op.id in after.sessions
            && after.sessions[op.id] == Session(op.user, op.tenant, op.token, op.device, now + (lt.refresh * 86400) as real, false, op.jti, op.id)
            && after.sessions.Keys == st.sessions.Keys + {op.id} && after.blacklist == st.blacklist
            && (op.jti.Some? ==> op.jti.value in after.issuedAt && after.issuedAt[op.jti.value] == now)
  {
  }

  /** The tenant that an exchange leads to: the old one, the chosen one, or the joined one. */
  function LeadsTo(op: Op, was: Session): Option<TenantId>
  {
    match op
    case SelectTenant(_, _, _, _, chosen, _, _) => Some(chosen)
    case Onboard(_, _, _, joined, _) => Some(joined)
    case _ => was.tenant
  }

  /**
   * The session that carries the new refresh token records the new access token; user, device and lineage are the old ones,
   * the tenant is where the exchange leads, and only a new row gets a new expiry.
   */
  lemma ExchangeRecords(st: AuthState, op: Op, now: real, lt: Lifetimes, token: Token)
    requires Valid(st) && Exchanges(st, op, now, lt, token)
    ensures Known(st, token) && Known(Apply(st, op, now, lt), op.token)
    ensures var after := Apply(st, op, now, lt);
            var was, made := st.sessions[Find(st, token)], after.sessions[Find(after, op.token)];
            && made.lastJti == op.jti && made.token == op.token && !made.revoked
            && made.user == was.user && made.device == was.device && made.lineage == was.lineage
            && made.tenant == LeadsTo(op, was)
            && made.expires == (if op.Onboard? then was.expires else now + (lt.refresh * 86400) as real)
            && (op.jti.Some? ==> op.jti.value in after.issuedAt && after.issuedAt[op.jti.value] == now)
            && after.blacklist == st.blacklist
  {
    var after := Apply(st, op, now, lt);
    StaysValid(st, op, now, lt);
    var id := if op.Onboard? then Find(st, token) else op.id;
    assert Carries(after.sessions, id, op.token);
  }

  /** All other sessions stay as they are; of the exchanged one, a new row leaves the old row behind, revoked. */
  lemma ExchangeTouchesOne(st: AuthState, op: Op, now: real, lt: Lifetimes, token: Token, id: SessionId)
    requires Valid(st) && Exchanges(st, op, now, lt, token) && id in st.sessions
    ensures Known(st, token) && id in Apply(st, op, now, lt).sessions
    ensures id != Find(st, token) ==> Apply(st, op, now, lt).sessions[id] == st.sessions[id]
    ensures id == Find(st, token) && !op.Onboard? ==> Apply(st, op, now, lt).sessions[id] == st.sessions[id].(revoked := true)
  {
  }

  /** The token of an unrevoked session that has not expired. */
  ghost predicate InTime(st: AuthState, token: Token, now: real)
  {
    exists id :: id in st.sessions && st.sessions[id].token == token && !st.sessions[id].revoked && now <= st.sessions[id].expires
  }

  /**
   * When an exchange happens: for a token in time; choosing an organisation moreover only for a member of it without second
   * factor, and onboarding only when its own checks passed. Otherwise nothing changes.
   */
  lemma ExchangesExactly(st: AuthState, op: Op, now: real, lt: Lifetimes)
    requires op.Refresh? || op.SelectTenant? || op.Onboard?
    requires if op.Onboard? then NewTokens(st, op.token, op.jti) else AllNew(st, op.id, op.token, op.jti)
    ensures Apply(st, op, now, lt) != st <==>
              && InTime(st, op.prev, now)
              && (op.SelectTenant? ==> op.member && !op.mfa)
              && (op.Onboard? ==> op.allowed)
  {
    AcceptedIsInTime(st, op.prev, now);
    assert op.token !in st.issued;
    assert Apply(st, op, now, lt) != st ==> op.token in Apply(st, op, now, lt).issued;
  }

  lemma AcceptedIsInTime(st: AuthState, token: Token, now: real)
    ensures Accepted(st, token, now) <==> InTime(st, token, now)
  {
    if id :| id in st.sessions && st.sessions[id].token == token && !st.sessions[id].revoked && now <= st.sessions[id].expires {
      assert Carries(st.sessions, id, token);
    }
    if id :| Carries(st.sessions, id, token) && !(st.sessions[id].expires < now) {
      assert InTime(st, token, now);
    }
  }

  // ---- Refresh token and access token stay together ----

  /** The operation hands out this refresh token together with this access token. */
  ghost predicate HandsOut(st: AuthState, op: Op, now: real, lt: Lifetimes, token: Token, jti: Jti)
  {
    && (op.Open? || op.Refresh? || op.SelectTenant? || op.Onboard?)
    && op.token == token && op.jti == Some(jti) && Apply(st, op, now, lt) != st
  }

  /** Every session that carries the refresh token, revoked or not, records the access token, which was made at `since`. */
  ghost predicate Paired(st: AuthState, token: Token, jti: Jti, since: real)
  {
    && token in st.issued && jti in st.issuedAt && st.issuedAt[jti] == since
    && forall id :: id in st.sessions && st.sessions[id].token == token ==> st.sessions[id].lastJti == Some(jti)
  }

  lemma OpenPairs(st: AuthState, op: Op, now: real, lt: Lifetimes, jti: Jti)
    requires Valid(st) && op.Open? && AllNew(st, op.id, op.token, op.jti) && op.jti == Some(jti)
    ensures Paired(Apply(st, op, now, lt), op.token, jti, now)
  {
    OpenRecords(st, op, now, lt);
    StaysValid(st, op, now, lt);
  }

  lemma ExchangePairs(st: AuthState, op: Op, now: real, lt: Lifetimes, token: Token, jti: Jti)
    requires Valid(st) && Exchanges(st, op, now, lt, token) && op.jti == Some(jti)
    ensures Paired(Apply(st, op, now, lt), op.token, jti, now)
  {
    ExchangeRecords(st, op, now, lt, token);
    StaysValid(st, op, now, lt);
  }

  lemma HandingOutPairs(st: AuthState, op: Op, now: real, lt: Lifetimes, token: Token, jti: Jti)
    requires Valid(st) && HandsOut(st, op, now, lt, token, jti)
    ensures Paired(Apply(st, op, now, lt), token, jti, now)
  {
    if op.Open? {
      OpenPairs(st, op, now, lt, jti);
    } else {
      ExchangePairs(st, op, now, lt, op.prev, jti);
    }
  }

  lemma ExchangeStaysPaired(st: AuthState, op: Op, before: real, now: real, lt: Lifetimes, prev: Token, token: Token, jti: Jti, since: real)
    requires Valid(st) && Tracked(st, before, lt) && Paired(st, token, jti, since) && Exchanges(st, op, now, lt, prev)
    ensures Paired(Apply(st, op, now, lt), token, jti, since)
  {
    var after := Apply(st, op, now, lt);
    ExchangeRecords(st, op, now, lt, prev);
    assert jti in st.issued;
    forall id | id in after.sessions && after.sessions[id].token == token ensures after.sessions[id].lastJti == Some(jti) {
      if id in st.sessions { ExchangeTouchesOne(st, op, now, lt, prev, id); }
    }
  }

  lemma OtherOpStaysPaired(st: AuthState, op: Op, before: real, now: real, lt: Lifetimes, token: Token, jti: Jti, since: real)
    requires Valid(st) && Tracked(st, before, lt) && Paired(st, token, jti, since)
    requires !op.Refresh? && !op.SelectTenant? && !op.Onboard?
    ensures Paired(Apply(st, op, now, lt), token, jti, since)
  {
    assert jti in st.issued;
  }

  lemma StaysPaired(st: AuthState, op: Op, before: real, now: real, lt: Lifetimes, token: Token, jti: Jti, since: real)
    requires Valid(st) && Tracked(st, before, lt) && Paired(st, token, jti, since)
    ensures Paired(Apply(st, op, now, lt), token, jti, since)
  {
    if op.Refresh? || op.SelectTenant? || op.Onboard? {
      if Apply(st, op, now, lt) != st { ExchangeStaysPaired(st, op, before, now, lt, op.prev, token, jti, since); }
    } else {
      OtherOpStaysPaired(st, op, before, now, lt, token, jti, since);
    }
  }

  lemma {:induction false} RunStaysPaired(st: AuthState, ops: seq<Timed>, from: real, lt: Lifetimes, token: Token, jti: Jti, since: real)
    requires Valid(st) && Tracked(st, from, lt) && Ordered(ops, from) && Paired(st, token, jti, since)
    ensures Paired(RunOps(st, ops, lt), token, jti, since)
    decreases |ops|
  {
    if ops != [] {
      StaysValid(st, ops[0].op, ops[0].now, lt);
      StaysTracked(st, ops[0].op, from, ops[0].now, lt);
      StaysPaired(st, ops[0].op, from, ops[0].now, lt, token, jti, since);
      RunStaysPaired(Apply(st, ops[0].op, ops[0].now, lt), ops[1..], ops[0].now, lt, token, jti, since);
    }
  }

  // ---- Ending a session rejects the access token that came with its refresh token ----

  /** The operation ends this unrevoked session: its own logout or revocation, or one of all sessions of its user. */
  predicate Ends(op: Op, id: SessionId, s: Session)
  {
    && !s.revoked
    && match op
       case Logout(prev) => prev == s.token
       case RevokeSession(target, user) => target == id && user == s.user
       case RevokeAll(user) => user == s.user
       case Deactivate(user, wasActive) => wasActive && user == s.user
       case _ => false
  }

  lemma EndingEnds(st: AuthState, op: Op, id: SessionId)
    requires Valid(st) && id in st.sessions && Ends(op, id, st.sessions[id])
    ensures id in EndedBy(st, op)
  {
    if op.Logout? { assert Carries(st.sessions, id, op.prev); }
  }

  /**
   * End to end: an access token is handed out together with a refresh token, by a login, a refresh, the choice of a tenant or
   * onboarding. Whatever happens in between, once the session that carries this refresh token is ended, by its logout, its
   * revocation, the revocation of all sessions or a deactivation, that very access token is rejected at every later moment of
   * every run.
   */
  lemma HandedOutIsRejected(st: AuthState, op: Op, from: real, now: real, lt: Lifetimes, token: Token, jti: Jti, between: seq<Timed>,
                            ending: Op, end: real, later: seq<Timed>, id: SessionId, exp: real, clock: real, at: real, cacheDown: bool)
    requires Valid(st) && Tracked(st, from, lt) && from <= now && HandsOut(st, op, now, lt, token, jti)
    requires Ordered(between, now) && LastMoment(between, now) <= end && Ordered(later, end)
    requires var mid := RunOps(Apply(st, op, now, lt), between, lt);
             id in mid.sessions && mid.sessions[id].token == token && Ends(ending, id, mid.sessions[id])
    requires Rounded(now, exp, at, clock, lt)
    ensures var mid := RunOps(Apply(st, op, now, lt), between, lt);
            !AcceptsAccess(RunOps(Apply(mid, ending, end, lt), later, lt), jti, exp, clock, at, cacheDown)
  {
    var first := Apply(st, op, now, lt);
    var mid := RunOps(first, between, lt);
    HandingOutPairs(st, op, now, lt, token, jti);
    StaysValid(st, op, now, lt);
    StaysTracked(st, op, from, now, lt);
    RunStaysPaired(first, between, now, lt, token, jti, now);
    RunStaysValid(first, between, lt);
    RunStaysTracked(first, between, now, lt);
    EndingEnds(mid, ending, id);
    EndedTokenIsRejected(mid, ending, LastMoment(between, now), end, later, lt, id, exp, clock, at, cacheDown);
  }

  /** In particular: refresh, then log out with the new refresh token, and the access token of the refresh is rejected. */
  lemma LogoutRejectsTheNewToken(st: AuthState, op: Op, from: real, now: real, lt: Lifetimes, jti: Jti, end: real, later: seq<Timed>,
                                 exp: real, clock: real, at: real)
    requires Valid(st) && Tracked(st, from, lt) && from <= now <= end && Ordered(later, end)
    requires op.Refresh? && op.jti == Some(jti) && Accepted(st, op.prev, now) && AllNew(st, op.id, op.token, op.jti)
    requires Rounded(now, exp, at, clock, lt)
    ensures !AcceptsAccess(RunOps(Apply(Apply(st, op, now, lt), Logout(op.token), end, lt), later, lt), jti, exp, clock, at, false)
  {
    var first := Apply(st, op, now, lt);
    assert op.id in first.sessions && op.id !in st.sessions;
    assert RunOps(first, [], lt) == first;
    HandedOutIsRejected(st, op, from, now, lt, op.token, jti, [], Logout(op.token), end, later, op.id, exp, clock, at, false);
  }

  // ---- And nothing else rejects it ----

  /** A token is accepted exactly while its claim has not passed, the cache answers, and no live entry lists it. */
  lemma AcceptedExactly(st: AuthState, jti: Jti, exp: real, clock: real, now: real, cacheDown: bool)
    ensures AcceptsAccess(st, jti, exp, clock, now, cacheDown) <==>
              clock <= exp && !cacheDown && (jti in st.blacklist ==> st.blacklist[jti] <= now)
  {
  }

  /** An ending lists exactly the access tokens of the sessions it ends, for the lifetime and 30 seconds more. */
  lemma EndingListsExactly(st: AuthState, op: Op, now: real, lt: Lifetimes, jti: Jti)
    requires Valid(st)
    ensures var after := Apply(st, op, now, lt);
            if exists id :: id in st.sessions && Ends(op, id, st.sessions[id]) && st.sessions[id].lastJti == Some(jti)
            then jti in after.blacklist && after.blacklist[jti] == now + (lt.access * 60 + 30) as real
            else (jti in after.blacklist <==> jti in st.blacklist) && (jti in st.blacklist ==> after.blacklist[jti] == st.blacklist[jti])
  {
    forall id ensures id in EndedBy(st, op) <==> id in st.sessions && Ends(op, id, st.sessions[id]) {
      EndedAreEnds(st, op, id);
    }
    BlacklistOf(st, op, now, lt);
  }

  lemma EndedAreEnds(st: AuthState, op: Op, id: SessionId)
    requires Valid(st)
    ensures id in EndedBy(st, op) <==> id in st.sessions && Ends(op, id, st.sessions[id])
  {
    if op.Logout? && id in st.sessions && Ends(op, id, st.sessions[id]) { EndingEnds(st, op, id); }
  }

  lemma BlacklistOf(st: AuthState, op: Op, now: real, lt: Lifetimes)
    ensures Apply(st, op, now, lt).blacklist == Ban(st.blacklist, JtisOf(st.sessions, EndedBy(st, op)), now + BlacklistTtl(lt))
  {
    assert JtisOf(st.sessions, {}) == {};
    assert Ban(st.blacklist, {}, now + BlacklistTtl(lt)) == st.blacklist;
  }

  /** No operation of the run ends a session that records this access token. */
  ghost predicate NeverEnded(st: AuthState, ops: seq<Timed>, lt: Lifetimes, jti: Jti)
    decreases |ops|
  {
    ops != [] ==>
      && (forall id :: id in st.sessions && st.sessions[id].lastJti == Some(jti) ==> !Ends(ops[0].op, id, st.sessions[id]))
      && NeverEnded(Apply(st, ops[0].op, ops[0].now, lt), ops[1..], lt, jti)
  }

  /** An access token that nobody ends is accepted until its claim runs out, whatever else happens. */
  lemma {:induction false} UnendedIsAccepted(st: AuthState, ops: seq<Timed>, lt: Lifetimes, jti: Jti, exp: real, clock: real, at: real)
    requires Valid(st) && jti !in st.blacklist && NeverEnded(st, ops, lt, jti)
    ensures AcceptsAccess(RunOps(st, ops, lt), jti, exp, clock, at, false) <==> clock <= exp
    decreases |ops|
  {
    if ops != [] {
      StaysValid(st, ops[0].op, ops[0].now, lt);
      EndingListsExactly(st, ops[0].op, ops[0].now, lt, jti);
      UnendedIsAccepted(Apply(st, ops[0].op, ops[0].now, lt), ops[1..], lt, jti, exp, clock, at);
    }
  }

  // ---- An exchange leaves the earlier access token to run out ----

  /** No two unrevoked sessions record the same access token. */
  ghost predicate JtisUnique(st: AuthState)
  {
    forall a, b :: a in st.sessions && b in st.sessions && a != b && !st.sessions[a].revoked && !st.sessions[b].revoked && st.sessions[a].lastJti.Some?
      ==> st.sessions[a].lastJti != st.sessions[b].lastJti
  }

  lemma ExchangeKeepsJtisUnique(st: AuthState, op: Op, before: real, now: real, lt: Lifetimes, prev: Token)
    requires Valid(st) && Tracked(st, before, lt) && JtisUnique(st) && Exchanges(st, op, now, lt, prev)
    ensures JtisUnique(Apply(st, op, now, lt))
  {
    var after := Apply(st, op, now, lt);
    ExchangeRecords(st, op, now, lt, prev);
    forall a | a in st.sessions ensures a in after.sessions && (a != Find(st, prev) ==> after.sessions[a] == st.sessions[a]) {
      ExchangeTouchesOne(st, op, now, lt, prev, a);
    }
  }

  lemma OtherOpKeepsJtisUnique(st: AuthState, op: Op, before: real, now: real, lt: Lifetimes)
    requires Valid(st) && Tracked(st, before, lt) && JtisUnique(st) && !op.Refresh? && !op.SelectTenant? && !op.Onboard?
    ensures JtisUnique(Apply(st, op, now, lt))
  {
    if op.Open? {
      OpenKeepsJtisUnique(st, op, before, now, lt);
    } else {
      EndingKeepsRecords(st, op, now, lt);
    }
  }

  lemma OpenKeepsJtisUnique(st: AuthState, op: Op, before: real, now: real, lt: Lifetimes)
    requires Tracked(st, before, lt) && JtisUnique(st) && op.Open?
    ensures JtisUnique(DoOpen(st, op, now, lt))
  {
  }

  /** All else that is left of a session row by the other operations is its mark. */
  lemma EndingKeepsRecords(st: AuthState, op: Op, now: real, lt: Lifetimes)
    requires !op.Open? && !op.Refresh? && !op.SelectTenant? && !op.Onboard?
    ensures var after := Apply(st, op, now, lt).sessions;
            && after.Keys == st.sessions.Keys
            && forall id :: id in after ==> after[id] == st.sessions[id] || after[id] == st.sessions[id].(revoked := true)
  {
  }

  lemma StaysJtisUnique(st: AuthState, op: Op, before: real, now: real, lt: Lifetimes)
    requires Valid(st) && Tracked(st, before, lt) && JtisUnique(st)
    ensures JtisUnique(Apply(st, op, now, lt))
  {
    if op.Refresh? || op.SelectTenant? || op.Onboard? {
      if Apply(st, op, now, lt) != st { ExchangeKeepsJtisUnique(st, op, before, now, lt, op.prev); }
    } else {
      OtherOpKeepsJtisUnique(st, op, before, now, lt);
    }
  }

  lemma {:induction false} RunKeepsJtisUnique(st: AuthState, ops: seq<Timed>, from: real, lt: Lifetimes)
    requires Valid(st) && Tracked(st, from, lt) && Ordered(ops, from) && JtisUnique(st)
    ensures JtisUnique(RunOps(st, ops, lt))
    decreases |ops|
  {
    if ops != [] {
      StaysValid(st, ops[0].op, ops[0].now, lt);
      StaysTracked(st, ops[0].op, from, ops[0].now, lt);
      StaysJtisUnique(st, ops[0].op, from, ops[0].now, lt);
      RunKeepsJtisUnique(Apply(st, ops[0].op, ops[0].now, lt), ops[1..], ops[0].now, lt);
    }
  }

  /** No unrevoked session records the access token any more. */
  ghost predicate Dropped(st: AuthState, jti: Jti)
  {
    jti in st.issued && forall id :: id in st.sessions && !st.sessions[id].revoked ==> st.sessions[id].lastJti != Some(jti)
  }

  lemma ExchangeKeepsDropped(st: AuthState, op: Op, now: real, lt: Lifetimes, prev: Token, jti: Jti)
    requires Valid(st) && Dropped(st, jti) && Exchanges(st, op, now, lt, prev)
    ensures Dropped(Apply(st, op, now, lt), jti)
  {
    var after := Apply(st, op, now, lt);
    ExchangeRecords(st, op, now, lt, prev);
    forall id | id in after.sessions && !after.sessions[id].revoked ensures after.sessions[id].lastJti != Some(jti) {
      if id in st.sessions { ExchangeTouchesOne(st, op, now, lt, prev, id); }
    }
  }

  lemma OtherOpKeepsDropped(st: AuthState, op: Op, now: real, lt: Lifetimes, jti: Jti)
    requires Dropped(st, jti) && !op.Refresh? && !op.SelectTenant? && !op.Onboard?
    ensures Dropped(Apply(st, op, now, lt), jti)
  {
  }

  lemma {:induction false} DroppedIsNeverEnded(st: AuthState, ops: seq<Timed>, lt: Lifetimes, jti: Jti)
    requires Valid(st) && Dropped(st, jti)
    ensures NeverEnded(st, ops, lt, jti)
    decreases |ops|
  {
    if ops != [] {
      var op, now := ops[0].op, ops[0].now;
      StaysValid(st, op, now, lt);
      if op.Refresh? || op.SelectTenant? || op.Onboard? {
        if Apply(st, op, now, lt) != st { ExchangeKeepsDropped(st, op, now, lt, op.prev, jti); }
      } else {
        OtherOpKeepsDropped(st, op, now, lt, jti);
      }
      DroppedIsNeverEnded(Apply(st, op, now, lt), ops[1..], lt, jti);
    }
  }

  lemma ExchangeDrops(st: AuthState, op: Op, before: real, now: real, lt: Lifetimes, token: Token, jti: Jti)
    requires Valid(st) && Tracked(st, before, lt) && JtisUnique(st) && Exchanges(st, op, now, lt, token)
    requires Known(st, token) && st.sessions[Find(st, token)].lastJti == Some(jti)
    ensures Dropped(Apply(st, op, now, lt), jti)
  {
    var after := Apply(st, op, now, lt);
    ExchangeRecords(st, op, now, lt, token);
    assert jti in st.issued;
    forall id | id in after.sessions && !after.sessions[id].revoked ensures after.sessions[id].lastJti != Some(jti) {
      if id in st.sessions { ExchangeTouchesOne(st, op, now, lt, token, id); }
    }
  }

  /**
   * The access token that a session recorded before its refresh token was exchanged is rejected by nothing: logouts,
   * revocations and deactivations after the exchange leave it accepted until its claim runs out.
   */
  lemma ReplacedAccessTokenRunsOut(st: AuthState, op: Op, before: real, now: real, lt: Lifetimes, token: Token, jti: Jti, later: seq<Timed>,
                                   exp: real, clock: real, at: real)
    requires Valid(st) && Tracked(st, before, lt) && JtisUnique(st) && Exchanges(st, op, now, lt, token)
    requires Known(st, token) && st.sessions[Find(st, token)].lastJti == Some(jti) && jti !in st.blacklist
    ensures AcceptsAccess(RunOps(Apply(st, op, now, lt), later, lt), jti, exp, clock, at, false) <==> clock <= exp
  {
    var after := Apply(st, op, now, lt);
    StaysValid(st, op, now, lt);
    ExchangeDrops(st, op, before, now, lt, token, jti);
    ExchangeRecords(st, op, now, lt, token);
    DroppedIsNeverEnded(after, later, lt, jti);
    UnendedIsAccepted(after, later, lt, jti, exp, clock, at);
  }
}
