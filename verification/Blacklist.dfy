/** Access tokens: how long they are accepted, and why ending a session rejects its access token for good. */
module Blacklist {
  import opened Model
  import opened Sessions

  /**
   * `decode_token`: the claim `exp` (section 4.1.4 of RFC 7519) has not passed on the verifier's clock, the cache answers, and
   * it holds no live blacklist entry.
   */
  predicate AcceptsAccess(st: AuthState, jti: Jti, exp: real, clock: real, now: real, cacheDown: bool)
  {
    exp >= clock && !cacheDown && !(jti in st.blacklist && now < st.blacklist[jti])
  }

  function AccessSpan(lt: Lifetimes): real
  {
    (lt.access * 60) as real
  }

  /** The claim of a token made at `iat`, and the verifier's clock at `now`, are off by less than 30 seconds together. */
  predicate Rounded(iat: real, exp: real, now: real, clock: real, lt: Lifetimes)
  {
    exp - (iat + AccessSpan(lt)) + (now - clock) < 30.0
  }

  /** Claims and the verifier's clock are cut down to whole seconds. */
  lemma WholeSecondsAreRounded(iat: real, now: real, lt: Lifetimes)
    ensures Rounded(iat, (iat + AccessSpan(lt)).Floor as real, now, now.Floor as real, lt)
  {
  }

  /**
   * The least that the extra 30 seconds have to cover: a token just as old as its lifetime is still accepted when the claim
   * and the clock are cut down, so a blacklist entry of the lifetime alone would already be gone.
   */
  lemma SpanAloneIsTooShort(st: AuthState, jti: Jti, iat: real, now: real, lt: Lifetimes)
    requires iat.Floor as real == iat && iat + AccessSpan(lt) < now < iat + AccessSpan(lt) + 1.0
    requires jti in st.blacklist && st.blacklist[jti] == iat + AccessSpan(lt)
    ensures AcceptsAccess(st, jti, (iat + AccessSpan(lt)).Floor as real, now.Floor as real, now, false)
  {
    var exp := iat + AccessSpan(lt);
    assert exp == (iat.Floor + lt.access * 60) as real;
    FloorOf(exp, now, iat.Floor + lt.access * 60);
  }

  lemma FloorOf(whole: real, x: real, n: int)
    requires whole == n as real && whole <= x < whole + 1.0
    ensures whole.Floor == n && x.Floor == n
  {
  }

  /** Blacklist entries outlast the tokens they reject. */
  ghost predicate Outlasts(st: AuthState, lt: Lifetimes)
  {
    forall j :: j in st.blacklist ==> j in st.issuedAt && st.blacklist[j] >= st.issuedAt[j] + BlacklistTtl(lt)
  }

  /** Every recorded access token was made in the past. */
  ghost predicate JtisPast(st: AuthState, now: real)
  {
    && (forall j :: j in st.issuedAt ==> j in st.issued && st.issuedAt[j] <= now)
    && (forall id :: id in st.sessions && st.sessions[id].lastJti.Some? ==> st.sessions[id].lastJti.value in st.issuedAt)
  }

  ghost predicate Tracked(st: AuthState, now: real, lt: Lifetimes)
  {
    Outlasts(st, lt) && JtisPast(st, now)
  }

  lemma EndKeepsTracked(st: AuthState, ids: set<SessionId>, now: real, lt: Lifetimes)
    requires Tracked(st, now, lt)
    ensures Tracked(Ended(st, ids, now, lt), now, lt)
  {
  }

  lemma OpenKeepsTracked(st: AuthState, op: Op, now: real, lt: Lifetimes)
    requires Tracked(st, now, lt) && op.Open?
    ensures Tracked(DoOpen(st, op, now, lt), now, lt)
  {
  }

  lemma RotateKeepsTracked(st: AuthState, prev: SessionId, id: SessionId, token: Token, jti: Option<Jti>, tenant: Option<TenantId>, now: real, lt: Lifetimes)
    requires Tracked(st, now, lt) && prev in st.sessions && AllNew(st, id, token, jti)
    ensures Tracked(Rotated(st, prev, id, token, jti, tenant, now, lt), now, lt)
  {
  }

  lemma OverwriteKeepsTracked(st: AuthState, at: SessionId, token: Token, jti: Option<Jti>, tenant: TenantId, now: real, lt: Lifetimes)
    requires Tracked(st, now, lt) && at in st.sessions && NewTokens(st, token, jti)
    ensures Tracked(Overwritten(st, at, token, jti, tenant, now), now, lt)
  {
  }

  lemma StaysTracked(st: AuthState, op: Op, before: real, now: real, lt: Lifetimes)
    requires Tracked(st, before, lt) && before <= now
    ensures Tracked(Apply(st, op, now, lt), now, lt)
  {
    match op
    case Open(_, _, _, _, _, _, _) => OpenKeepsTracked(st, op, now, lt);
    case Refresh(prev, id, token, jti) =>
      if Accepted(st, prev, now) && AllNew(st, id, token, jti) {
        RotateKeepsTracked(st, Find(st, prev), id, token, jti, st.sessions[Find(st, prev)].tenant, now, lt);
      }
    case SelectTenant(prev, id, token, jti, chosen, _, _) =>
      if Accepted(st, prev, now) && AllNew(st, id, token, jti) {
        RotateKeepsTracked(st, Find(st, prev), id, token, jti, Some(chosen), now, lt);
      }
    case Onboard(prev, token, jti, joined, _) =>
      if Accepted(st, prev, now) && NewTokens(st, token, jti) {
        OverwriteKeepsTracked(st, Find(st, prev), token, jti, joined, now, lt);
      }
    case Logout(prev) => if Known(st, prev) { EndKeepsTracked(st, {Find(st, prev)}, now, lt); }
    case RevokeSession(target, _) => EndKeepsTracked(st, {target}, now, lt);
    case RevokeAll(user) => EndKeepsTracked(st, ActiveOf(st.sessions, user), now, lt);
    case Deactivate(user, _) => EndKeepsTracked(st, ActiveOf(st.sessions, user), now, lt);
    case InvalidateAll(user) =>
  }

  /** Moments of a run never go back. */
  ghost predicate Ordered(ops: seq<Timed>, from: real)
  {
    && (forall i :: 0 <= i < |ops| ==> from <= ops[i].now)
    && (forall i, j :: 0 <= i < j < |ops| ==> ops[i].now <= ops[j].now)
  }

  function LastMoment(ops: seq<Timed>, from: real): real
  {
    if ops == [] then from else ops[|ops| - 1].now
  }

  lemma {:induction false} RunStaysTracked(st: AuthState, ops: seq<Timed>, from: real, lt: Lifetimes)
    requires Tracked(st, from, lt) && Ordered(ops, from)
    ensures Tracked(RunOps(st, ops, lt), LastMoment(ops, from), lt)
    decreases |ops|
  {
    if ops != [] {
      StaysTracked(st, ops[0].op, from, ops[0].now, lt);
      RunStaysTracked(Apply(st, ops[0].op, ops[0].now, lt), ops[1..], ops[0].now, lt);
    }
  }

  /** Blacklist entries and the moments of issue never disappear, nor do moments change. */
  ghost predicate Remembers(a: AuthState, b: AuthState)
  {
    && a.blacklist.Keys <= b.blacklist.Keys
    && (forall j :: j in a.issuedAt ==> j in b.issuedAt && b.issuedAt[j] == a.issuedAt[j])
  }

  lemma OpRemembers(st: AuthState, op: Op, before: real, now: real, lt: Lifetimes)
    requires Tracked(st, before, lt)
    ensures Remembers(st, Apply(st, op, now, lt))
  {
  }

  lemma {:induction false} RunRemembers(st: AuthState, ops: seq<Timed>, from: real, lt: Lifetimes)
    requires Tracked(st, from, lt) && Ordered(ops, from)
    ensures Remembers(st, RunOps(st, ops, lt))
    decreases |ops|
  {
    if ops != [] {
      OpRemembers(st, ops[0].op, from, ops[0].now, lt);
      StaysTracked(st, ops[0].op, from, ops[0].now, lt);
      RunRemembers(Apply(st, ops[0].op, ops[0].now, lt), ops[1..], ops[0].now, lt);
    }
  }

  /** The sessions that a logout, a revocation or a deactivation ends. */
  ghost function EndedBy(st: AuthState, op: Op): set<SessionId>
  {
    match op
    case Logout(prev) => if Known(st, prev) then {Find(st, prev)} else {}
    case RevokeSession(target, user) =>
      if target in st.sessions && st.sessions[target].user == user && !st.sessions[target].revoked then {target} else {}
    case RevokeAll(user) => ActiveOf(st.sessions, user)
    case Deactivate(user, wasActive) => if wasActive then ActiveOf(st.sessions, user) else {}
    case _ => {}
  }

  lemma EndingBlacklists(st: AuthState, op: Op, now: real, lt: Lifetimes, id: SessionId)
    requires id in EndedBy(st, op) && id in st.sessions && st.sessions[id].lastJti.Some?
    ensures st.sessions[id].lastJti.value in Apply(st, op, now, lt).blacklist
    ensures id in Apply(st, op, now, lt).sessions && Apply(st, op, now, lt).sessions[id].revoked
  {
    assert st.sessions[id].lastJti.value in JtisOf(st.sessions, EndedBy(st, op));
  }

  /**
   * Revocation covers the token's whole life: after a logout, a revocation of one or of all sessions, or a deactivation, the
   * access token recorded on each ended session is rejected at every later moment of every run, whatever the rounding of the
   * claim and of the clock.
   */
  lemma EndedTokenIsRejected(st: AuthState, op: Op, from: real, now: real, later: seq<Timed>, lt: Lifetimes, id: SessionId,
                             exp: real, clock: real, at: real, cacheDown: bool)
    requires Tracked(st, from, lt) && from <= now && Ordered(later, now)
    requires id in EndedBy(st, op) && id in st.sessions && st.sessions[id].lastJti.Some?
    requires st.sessions[id].lastJti.value in st.issuedAt && Rounded(st.issuedAt[st.sessions[id].lastJti.value], exp, at, clock, lt)
    ensures !AcceptsAccess(RunOps(Apply(st, op, now, lt), later, lt), st.sessions[id].lastJti.value, exp, clock, at, cacheDown)
  {
    var after := Apply(st, op, now, lt);
    var last := RunOps(after, later, lt);
    EndingBlacklists(st, op, now, lt, id);
    OpRemembers(st, op, from, now, lt);
    StaysTracked(st, op, from, now, lt);
    RunStaysTracked(after, later, now, lt);
    RunRemembers(after, later, now, lt);
  }

  /** The revocation after a password change ends the sessions only: their access tokens run out by themselves. */
  lemma InvalidateAllSparesAccessTokens(st: AuthState, user: UserId, now: real, lt: Lifetimes, jti: Jti, exp: real, clock: real, at: real)
    ensures AcceptsAccess(Apply(st, InvalidateAll(user), now, lt), jti, exp, clock, at, false) == AcceptsAccess(st, jti, exp, clock, at, false)
    ensures ActiveOf(Apply(st, InvalidateAll(user), now, lt).sessions, user) == {}
  {
  }
}
