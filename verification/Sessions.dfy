/**
 * Login sessions, their rotating refresh tokens, and the blacklist of access tokens. Tokens, their identifiers and
 * session identifiers are fresh when made; hashing is injective, so a session stores the refresh token itself here.
 */
module Sessions {
  import opened Model

  type SessionId = string
  type Token = string
  type Jti = string

  datatype Session = Session(
    user: UserId,
    tenant: Option<TenantId>,
    token: Token,
    device: Option<string>,
    expires: real,
    revoked: bool,
    lastJti: Option<Jti>,
    lineage: SessionId)   // bookkeeping: the login session that this one continues

  /** Lifetimes: minutes for access tokens, days for refresh tokens. */
  datatype Lifetimes = Lifetimes(access: nat, refresh: nat)

  datatype AuthState = AuthState(
    sessions: map<SessionId, Session>,
    blacklist: map<Jti, real>,    // each entry with the moment it expires
    issuedAt: map<Jti, real>,     // bookkeeping: when each access token was made
    issued: set<string>,          // bookkeeping: every token and identifier handed out so far
    retired: set<Token>)          // bookkeeping: refresh tokens that were rotated away

  // ---- Lookups ----

  /** `get_by_refresh_token`: the unrevoked session that carries the token. */
  predicate Carries(sessions: map<SessionId, Session>, id: SessionId, token: Token)
  {
    id in sessions && sessions[id].token == token && !sessions[id].revoked
  }

  ghost predicate Known(st: AuthState, token: Token)
  {
    exists id :: Carries(st.sessions, id, token)
  }

  ghost function Find(st: AuthState, token: Token): SessionId
    requires Known(st, token)
  {
    var id :| Carries(st.sessions, id, token);
    id
  }

  /** The token is accepted at `now`: known and not expired. */
  ghost predicate Accepted(st: AuthState, token: Token, now: real)
  {
    exists id :: Carries(st.sessions, id, token) && !(st.sessions[id].expires < now)
  }

  function ActiveOf(sessions: map<SessionId, Session>, user: UserId): set<SessionId>
  {
    set id | id in sessions && sessions[id].user == user && !sessions[id].revoked
  }

  function OnDevice(sessions: map<SessionId, Session>, user: UserId, device: string): set<SessionId>
  {
    set id | id in ActiveOf(sessions, user) && sessions[id].device == Some(device)
  }

  // ---- Building blocks ----

  function Revoke(sessions: map<SessionId, Session>, ids: set<SessionId>): map<SessionId, Session>
  {
    map id | id in sessions :: if id in ids then sessions[id].(revoked := true) else sessions[id]
  }

  /** The access tokens recorded on these sessions. */
  function JtisOf(sessions: map<SessionId, Session>, ids: set<SessionId>): set<Jti>
  {
    set id | id in ids && id in sessions && sessions[id].lastJti.Some? :: sessions[id].lastJti.value
  }

  /** `access_expire * 60 + 30` */
  function BlacklistTtl(lt: Lifetimes): real
  {
    (lt.access * 60 + 30) as real
  }

  function Ban(blacklist: map<Jti, real>, jtis: set<Jti>, until: real): map<Jti, real>
  {
    map j | j in blacklist.Keys + jtis :: if j in jtis then until else blacklist[j]
  }

  function RefreshSpan(lt: Lifetimes): real
  {
    (lt.refresh * 86400) as real
  }

  // ---- Operations ----

  /** Identifiers that a step makes up: none was handed out before, and they differ from each other. */
  predicate AllNew(st: AuthState, id: SessionId, token: Token, jti: Option<Jti>)
  {
    NewTokens(st, token, jti) && id !in st.issued && id != token && jti != Some(id)
  }

  predicate NewTokens(st: AuthState, token: Token, jti: Option<Jti>)
  {
    token !in st.issued && (jti.Some? ==> jti.value !in st.issued && jti.value != token)
  }

  function Issue(st: AuthState, names: set<string>, jti: Option<Jti>, now: real): AuthState
  {
    st.(issued := st.issued + names + (if jti.Some? then {jti.value} else {}),
        issuedAt := if jti.Some? then st.issuedAt[jti.value := now] else st.issuedAt)
  }

  datatype Op =
    /** A login, MFA or OAuth session; a login with a device may first revoke the older sessions of that device. */
    | Open(id: SessionId, token: Token, jti: Option<Jti>, user: UserId, tenant: Option<TenantId>, device: Option<string>, clearDevice: bool)
    | Refresh(prev: Token, id: SessionId, token: Token, jti: Option<Jti>)
    /** `member`, `mfa`: what the database says of the user and the chosen tenant. */
    | SelectTenant(prev: Token, id: SessionId, token: Token, jti: Option<Jti>, chosen: TenantId, member: bool, mfa: bool)
    /** Creating or joining an organisation overwrites the pending session in place; `allowed`: its own checks passed. */
    | Onboard(prev: Token, token: Token, jti: Option<Jti>, joined: TenantId, allowed: bool)
    | Logout(prev: Token)
    | RevokeSession(target: SessionId, user: UserId)
    | RevokeAll(user: UserId)
    | Deactivate(user: UserId, wasActive: bool)
    | InvalidateAll(user: UserId)

  function DoOpen(st: AuthState, op: Op, now: real, lt: Lifetimes): AuthState
    requires op.Open?
  {
    if !AllNew(st, op.id, op.token, op.jti) then st
    else
      var kept := if op.clearDevice && op.device.Some? && op.device.value != ""
                  then Revoke(st.sessions, OnDevice(st.sessions, op.user, op.device.value)) else st.sessions;
      Issue(st, {op.id, op.token}, op.jti, now).(sessions :=
        kept[op.id := Session(op.user, op.tenant, op.token, op.device, now + RefreshSpan(lt), false, op.jti, op.id)])
  }

  /** The old session ends and a new one continues its lineage. */
  function Rotated(st: AuthState, prev: SessionId, id: SessionId, token: Token, jti: Option<Jti>, tenant: Option<TenantId>, now: real, lt: Lifetimes): AuthState
    requires prev in st.sessions
  {
    var s := st.sessions[prev];
    Issue(st, {id, token}, jti, now).(
      sessions := Revoke(st.sessions, {prev})[id := Session(s.user, tenant, token, s.device, now + RefreshSpan(lt), false, jti, s.lineage)],
      retired := st.retired + {s.token})
  }

  /** The session row keeps its identity, its token and access token change. */
  function Overwritten(st: AuthState, at: SessionId, token: Token, jti: Option<Jti>, tenant: TenantId, now: real): AuthState
    requires at in st.sessions
  {
    var s := st.sessions[at];
    Issue(st, {token}, jti, now).(
      sessions := st.sessions[at := s.(tenant := Some(tenant), lastJti := jti, token := token)],
      retired := st.retired + {s.token})
  }

  /** The sessions end and their recorded access tokens are blacklisted. */
  function Ended(st: AuthState, ids: set<SessionId>, now: real, lt: Lifetimes): AuthState
  {
    st.(sessions := Revoke(st.sessions, ids), blacklist := Ban(st.blacklist, JtisOf(st.sessions, ids), now + BlacklistTtl(lt)))
  }

  ghost function Apply(st: AuthState, op: Op, now: real, lt: Lifetimes): AuthState
  {
    match op
    case Open(_, _, _, _, _, _, _) => DoOpen(st, op, now, lt)
    case Refresh(prev, id, token, jti) =>
      if !Accepted(st, prev, now) || !AllNew(st, id, token, jti) then st
      else Rotated(st, Find(st, prev), id, token, jti, st.sessions[Find(st, prev)].tenant, now, lt)
    case SelectTenant(prev, id, token, jti, chosen, member, mfa) =>
      if !Accepted(st, prev, now) || !member || mfa || !AllNew(st, id, token, jti) then st
      else Rotated(st, Find(st, prev), id, token, jti, Some(chosen), now, lt)
    case Onboard(prev, token, jti, joined, allowed) =>
      if !Accepted(st, prev, now) || !allowed || !NewTokens(st, token, jti) then st
      else Overwritten(st, Find(st, prev), token, jti, joined, now)
    case Logout(prev) =>
      if Known(st, prev) then Ended(st, {Find(st, prev)}, now, lt) else st
    case RevokeSession(target, user) =>
      if target in st.sessions && st.sessions[target].user == user && !st.sessions[target].revoked then Ended(st, {target}, now, lt) else st
    case RevokeAll(user) => Ended(st, ActiveOf(st.sessions, user), now, lt)
    case Deactivate(user, wasActive) => if wasActive then Ended(st, ActiveOf(st.sessions, user), now, lt) else st
    case InvalidateAll(user) => st.(sessions := Revoke(st.sessions, ActiveOf(st.sessions, user)))
  }

  // ---- Invariants ----

  ghost predicate OnePerLineage(st: AuthState)
  {
    forall a, b :: a in st.sessions && b in st.sessions && a != b && st.sessions[a].lineage == st.sessions[b].lineage
      ==> st.sessions[a].revoked || st.sessions[b].revoked
  }

  ghost predicate TokensUnique(st: AuthState)
  {
    forall a, b :: a in st.sessions && b in st.sessions && st.sessions[a].token == st.sessions[b].token ==> a == b
  }

  /** A rotated token is carried by no unrevoked session. */
  ghost predicate RetiredIsGone(st: AuthState)
  {
    forall id :: id in st.sessions && !st.sessions[id].revoked ==> st.sessions[id].token !in st.retired
  }

  ghost predicate IssuedCovers(st: AuthState)
  {
    && st.retired <= st.issued
    && (forall id :: id in st.sessions ==> id in st.issued && st.sessions[id].token in st.issued && st.sessions[id].lineage in st.issued)
  }

  ghost predicate Valid(st: AuthState)
  {
    OnePerLineage(st) && TokensUnique(st) && RetiredIsGone(st) && IssuedCovers(st)
  }

  // ---- Every operation keeps them ----

  lemma RevokeKeepsValid(st: AuthState, ids: set<SessionId>, blacklist: map<Jti, real>)
    requires Valid(st)
    ensures Valid(st.(sessions := Revoke(st.sessions, ids), blacklist := blacklist))
  {
  }

  /** A new session may join a lineage that has no unrevoked session. */
  lemma AddKeepsValid(st: AuthState, id: SessionId, s: Session, after: AuthState)
    requires Valid(st) && id !in st.issued && s.token !in st.issued && id != s.token
    requires s.lineage == id || s.lineage in st.issued
    requires forall a :: a in st.sessions && st.sessions[a].lineage == s.lineage ==> st.sessions[a].revoked
    requires after.sessions == st.sessions[id := s] && after.retired == st.retired && after.issued >= st.issued + {id, s.token}
    ensures Valid(after)
  {
  }

  lemma OpenKeepsValid(st: AuthState, op: Op, now: real, lt: Lifetimes)
    requires Valid(st) && op.Open?
    ensures Valid(DoOpen(st, op, now, lt))
  {
    if AllNew(st, op.id, op.token, op.jti) {
      var kept := if op.clearDevice && op.device.Some? && op.device.value != ""
                  then Revoke(st.sessions, OnDevice(st.sessions, op.user, op.device.value)) else st.sessions;
      if op.device.Some? { RevokeKeepsValid(st, OnDevice(st.sessions, op.user, op.device.value), st.blacklist); }
      var after := DoOpen(st, op, now, lt);
      AddKeepsValid(st.(sessions := kept), op.id, after.sessions[op.id], after);
    }
  }

  /** Retiring the token of revoked sessions only. */
  lemma RetireKeepsValid(st: AuthState, token: Token)
    requires Valid(st) && token in st.issued && !Known(st, token)
    ensures Valid(st.(retired := st.retired + {token}))
  {
    forall id | id in st.sessions && !st.sessions[id].revoked ensures st.sessions[id].token != token {
      assert st.sessions[id].token == token ==> Carries(st.sessions, id, token);
    }
  }

  lemma RotateKeepsValid(st: AuthState, prev: SessionId, id: SessionId, token: Token, jti: Option<Jti>, tenant: Option<TenantId>, now: real, lt: Lifetimes)
    requires Valid(st) && prev in st.sessions && !st.sessions[prev].revoked && AllNew(st, id, token, jti)
    ensures Valid(Rotated(st, prev, id, token, jti, tenant, now, lt))
  {
    var after := Rotated(st, prev, id, token, jti, tenant, now, lt);
    var mid := st.(sessions := Revoke(st.sessions, {prev}));
    RevokeKeepsValid(st, {prev}, st.blacklist);
    RetireKeepsValid(mid, st.sessions[prev].token);
    AddKeepsValid(mid.(retired := after.retired), id, after.sessions[id], after);
  }

  lemma OverwriteKeepsValid(st: AuthState, at: SessionId, token: Token, jti: Option<Jti>, tenant: TenantId, now: real)
    requires Valid(st) && at in st.sessions && !st.sessions[at].revoked && NewTokens(st, token, jti)
    ensures Valid(Overwritten(st, at, token, jti, tenant, now))
  {
  }

  lemma StaysValid(st: AuthState, op: Op, now: real, lt: Lifetimes)
    requires Valid(st)
    ensures Valid(Apply(st, op, now, lt))
  {
    match op
    case Open(_, _, _, _, _, _, _) => OpenKeepsValid(st, op, now, lt);
    case Refresh(prev, id, token, jti) =>
      if Accepted(st, prev, now) && AllNew(st, id, token, jti) {
        RotateKeepsValid(st, Find(st, prev), id, token, jti, st.sessions[Find(st, prev)].tenant, now, lt);
      }
    case SelectTenant(prev, id, token, jti, chosen, _, _) =>
      if Accepted(st, prev, now) && AllNew(st, id, token, jti) {
        RotateKeepsValid(st, Find(st, prev), id, token, jti, Some(chosen), now, lt);
      }
    case Onboard(prev, token, jti, joined, _) =>
      if Accepted(st, prev, now) && NewTokens(st, token, jti) {
        OverwriteKeepsValid(st, Find(st, prev), token, jti, joined, now);
      }
    case Logout(prev) => if Known(st, prev) { RevokeKeepsValid(st, {Find(st, prev)}, Apply(st, op, now, lt).blacklist); }
    case RevokeSession(target, _) => RevokeKeepsValid(st, {target}, Apply(st, op, now, lt).blacklist);
    case RevokeAll(user) => RevokeKeepsValid(st, ActiveOf(st.sessions, user), Apply(st, op, now, lt).blacklist);
    case Deactivate(user, _) => RevokeKeepsValid(st, ActiveOf(st.sessions, user), Apply(st, op, now, lt).blacklist);
    case InvalidateAll(user) => RevokeKeepsValid(st, ActiveOf(st.sessions, user), st.blacklist);
  }

  /** A login that names its device leaves exactly its own session open there. */
  lemma OneSessionPerDevice(st: AuthState, op: Op, now: real, lt: Lifetimes)
    requires op.Open? && op.clearDevice && op.device.Some? && op.device.value != "" && AllNew(st, op.id, op.token, op.jti)
    requires Valid(st)
    ensures OnDevice(Apply(st, op, now, lt).sessions, op.user, op.device.value) == {op.id}
    ensures forall id :: id in st.sessions && !(st.sessions[id].user == op.user && st.sessions[id].device == op.device)
              ==> id in Apply(st, op, now, lt).sessions && Apply(st, op, now, lt).sessions[id] == st.sessions[id]
  {
    var kept := Revoke(st.sessions, OnDevice(st.sessions, op.user, op.device.value));
    assert OnDevice(kept, op.user, op.device.value) == {};
  }

  // ---- Runs ----

  /** An operation and the moment it is carried out. */
  datatype Timed = Timed(op: Op, now: real)

  ghost function RunOps(st: AuthState, ops: seq<Timed>, lt: Lifetimes): AuthState
    decreases |ops|
  {
    if ops == [] then st else RunOps(Apply(st, ops[0].op, ops[0].now, lt), ops[1..], lt)
  }

  /** In every reachable state a lineage has at most one unrevoked session. */
  lemma {:induction false} RunStaysValid(st: AuthState, ops: seq<Timed>, lt: Lifetimes)
    requires Valid(st)
    ensures Valid(RunOps(st, ops, lt))
    decreases |ops|
  {
    if ops != [] {
      StaysValid(st, ops[0].op, ops[0].now, lt);
      RunStaysValid(Apply(st, ops[0].op, ops[0].now, lt), ops[1..], lt);
    }
  }

  lemma RetiredGrows(st: AuthState, op: Op, now: real, lt: Lifetimes)
    ensures st.retired <= Apply(st, op, now, lt).retired
  {
  }

  lemma {:induction false} RunKeepsRetired(st: AuthState, ops: seq<Timed>, lt: Lifetimes)
    ensures st.retired <= RunOps(st, ops, lt).retired
    decreases |ops|
  {
    if ops != [] {
      RetiredGrows(st, ops[0].op, ops[0].now, lt);
      RunKeepsRetired(Apply(st, ops[0].op, ops[0].now, lt), ops[1..], lt);
    }
  }

  /** A session that is revoked stays so, under the same token. */
  lemma RevokedStays(st: AuthState, op: Op, now: real, lt: Lifetimes, id: SessionId)
    requires Valid(st) && id in st.sessions && st.sessions[id].revoked
    ensures var after := Apply(st, op, now, lt);
            id in after.sessions && after.sessions[id].revoked && after.sessions[id].token == st.sessions[id].token
  {
    if op.Onboard? && Known(st, op.prev) { assert Find(st, op.prev) != id; }
  }

  lemma {:induction false} RunKeepsRevoked(st: AuthState, ops: seq<Timed>, lt: Lifetimes, id: SessionId)
    requires Valid(st) && id in st.sessions && st.sessions[id].revoked
    ensures Valid(RunOps(st, ops, lt))
    ensures var last := RunOps(st, ops, lt);
            id in last.sessions && last.sessions[id].revoked && last.sessions[id].token == st.sessions[id].token
    decreases |ops|
  {
    if ops != [] {
      StaysValid(st, ops[0].op, ops[0].now, lt);
      RevokedStays(st, ops[0].op, ops[0].now, lt, id);
      RunKeepsRevoked(Apply(st, ops[0].op, ops[0].now, lt), ops[1..], lt, id);
    }
  }

  /** The unrevoked sessions that an operation ends without continuing them. */
  ghost function EndedSessions(st: AuthState, op: Op): set<SessionId>
  {
    match op
    case Open(id, token, jti, user, _, device, clearDevice) =>
      if AllNew(st, id, token, jti) && clearDevice && device.Some? && device.value != "" then OnDevice(st.sessions, user, device.value) else {}
    case Logout(prev) => if Known(st, prev) then {Find(st, prev)} else {}
    case RevokeSession(target, user) =>
      if target in st.sessions && st.sessions[target].user == user && !st.sessions[target].revoked then {target} else {}
    case RevokeAll(user) => ActiveOf(st.sessions, user)
    case Deactivate(user, wasActive) => if wasActive then ActiveOf(st.sessions, user) else {}
    case InvalidateAll(user) => ActiveOf(st.sessions, user)
    case _ => {}
  }

  /** The refresh token of a revoked session is accepted at no later moment of any run. */
  lemma RevokedIsNeverAccepted(st: AuthState, later: seq<Timed>, lt: Lifetimes, id: SessionId, at: real)
    requires Valid(st) && id in st.sessions && st.sessions[id].revoked
    ensures !Known(RunOps(st, later, lt), st.sessions[id].token)
    ensures !Accepted(RunOps(st, later, lt), st.sessions[id].token, at)
  {
    RunKeepsRevoked(st, later, lt, id);
  }

  /**
   * Ending is for good: after a logout, a revocation of one or of all sessions, a login that clears its device, a deactivation
   * or a password change, the refresh token of each ended session is accepted at no later moment of any run.
   */
  lemma EndedIsNeverAccepted(st: AuthState, op: Op, now: real, later: seq<Timed>, lt: Lifetimes, id: SessionId, at: real)
    requires Valid(st) && id in EndedSessions(st, op)
    ensures id in st.sessions && !st.sessions[id].revoked
    ensures !Known(RunOps(Apply(st, op, now, lt), later, lt), st.sessions[id].token)
    ensures !Accepted(RunOps(Apply(st, op, now, lt), later, lt), st.sessions[id].token, at)
  {
    var after := Apply(st, op, now, lt);
    assert id in st.issued;
    StaysValid(st, op, now, lt);
    assert id in after.sessions && after.sessions[id].revoked && after.sessions[id].token == st.sessions[id].token;
    RevokedIsNeverAccepted(after, later, lt, id, at);
  }

  /** The operation exchanges refresh token `token` for a new one. */
  ghost predicate Exchanges(st: AuthState, op: Op, now: real, lt: Lifetimes, token: Token)
  {
    (op.Refresh? || op.SelectTenant? || op.Onboard?) && op.prev == token && Apply(st, op, now, lt) != st
  }

  /** An exchange happens only for an accepted token, and hands out a new token of the same user and lineage that is accepted at once. */
  lemma ExchangeContinues(st: AuthState, op: Op, now: real, lt: Lifetimes, token: Token)
    requires Valid(st) && Exchanges(st, op, now, lt, token)
    ensures Accepted(st, token, now) && token in Apply(st, op, now, lt).retired
    ensures Accepted(Apply(st, op, now, lt), op.token, now)
    ensures var after := Apply(st, op, now, lt);
            Known(st, token) && Known(after, op.token)
            && after.sessions[Find(after, op.token)].user == st.sessions[Find(st, token)].user
            && after.sessions[Find(after, op.token)].lineage == st.sessions[Find(st, token)].lineage
  {
    var after := Apply(st, op, now, lt);
    StaysValid(st, op, now, lt);
    var id := if op.Onboard? then Find(st, token) else op.id;
    assert Carries(after.sessions, id, op.token);
  }

  /**
   * Refresh rotation: once a refresh token has been exchanged, by a new session or by overwriting in place, it is never
   * accepted again, whatever happens afterwards.
   */
  lemma ExchangedIsNeverAccepted(st: AuthState, op: Op, now: real, later: seq<Timed>, lt: Lifetimes, token: Token, at: real)
    requires Valid(st) && Exchanges(st, op, now, lt, token)
    ensures !Accepted(RunOps(Apply(st, op, now, lt), later, lt), token, at)
    ensures !Known(RunOps(Apply(st, op, now, lt), later, lt), token)
  {
    ExchangeContinues(st, op, now, lt, token);
    StaysValid(st, op, now, lt);
    RunStaysValid(Apply(st, op, now, lt), later, lt);
    RunKeepsRetired(Apply(st, op, now, lt), later, lt);
  }
}
