/** The session methods at work: rows revoked, overwritten and added step by step, blacklist entries written in loops. */
module SessionService {
  import opened Listing
  import opened Model
  import opened Sessions

  /** At most one unrevoked session carries a token, so the lookup is determined. */
  lemma FindIs(st: AuthState, token: Token, id: SessionId)
    requires Valid(st) && Carries(st.sessions, id, token)
    ensures Known(st, token) && Find(st, token) == id
    ensures forall now :: Accepted(st, token, now) <==> !(st.sessions[id].expires < now)
  {
  }

  lemma RevokeNone(sessions: map<SessionId, Session>)
    ensures Revoke(sessions, {}) == sessions
  {
  }

  lemma RevokeStep(sessions: map<SessionId, Session>, done: set<SessionId>, id: SessionId)
    requires id in sessions
    ensures Revoke(sessions, done)[id := Revoke(sessions, done)[id].(revoked := true)] == Revoke(sessions, done + {id})
  {
  }

  lemma BanNone(blacklist: map<Jti, real>, sessions: map<SessionId, Session>, until: real)
    ensures Ban(blacklist, JtisOf(sessions, {}), until) == blacklist
  {
    assert JtisOf(sessions, {}) == {};
  }

  lemma BanStep(blacklist: map<Jti, real>, sessions: map<SessionId, Session>, done: set<SessionId>, id: SessionId, until: real)
    requires id in sessions
    ensures sessions[id].lastJti.Some? ==>
              Ban(blacklist, JtisOf(sessions, done), until)[sessions[id].lastJti.value := until] == Ban(blacklist, JtisOf(sessions, done + {id}), until)
    ensures sessions[id].lastJti.None? ==> JtisOf(sessions, done) == JtisOf(sessions, done + {id})
  {
    assert JtisOf(sessions, done + {id}) == JtisOf(sessions, done) + JtisOf(sessions, {id});
    if sessions[id].lastJti.Some? { assert JtisOf(sessions, {id}) == {sessions[id].lastJti.value}; }
  }

  // ---- What a login does ----

  /** What the database says of a user who gives the right password. */
  datatype Visitor = Visitor(user: UserId, memberships: seq<TenantId>, mfa: bool, enabledIn: map<TenantId, bool>)

  /** The session a login opens, if any: none when refused or when a second factor is asked for first. */
  function LoginOp(v: Visitor, asked: Option<TenantId>, device: Option<string>, id: SessionId, token: Token, jti: Jti): Option<Op>
  {
    if asked.None? || asked.value == "" then
      if v.memberships == [] then Some(Open(id, token, Some(jti), v.user, None, device, true))
      else if |v.memberships| > 1 then Some(Open(id, token, None, v.user, None, device, false))
      else if v.mfa then None
      else Some(Open(id, token, Some(jti), v.user, Some(v.memberships[0]), device, true))
    else if asked.value !in v.enabledIn || !v.enabledIn[asked.value] || v.mfa then None
    else Some(Open(id, token, Some(jti), v.user, asked, device, true))
  }

  /** A member whose membership in the organisation is enabled. */
  predicate EnabledIn(v: Visitor, t: TenantId)
  {
    t in v.enabledIn && v.enabledIn[t]
  }

  /** An organisation is named at the login. */
  predicate Names(asked: Option<TenantId>)
  {
    asked.Some? && asked.value != ""
  }

  /** When a login opens a session: an enabled membership in the named organisation and no second factor; or, none named, anything but a single membership with a second factor. */
  lemma LoginSucceedsExactly(v: Visitor, asked: Option<TenantId>, device: Option<string>, id: SessionId, token: Token, jti: Jti)
    ensures LoginOp(v, asked, device, id, token, jti).Some? <==>
              if Names(asked) then EnabledIn(v, asked.value) && !v.mfa else !(|v.memberships| == 1 && v.mfa)
  {
  }

  /** What the session is: for whom, in which organisation, with or without an access token, and what becomes of the device's older ones. */
  lemma LoginDecides(v: Visitor, asked: Option<TenantId>, device: Option<string>, id: SessionId, token: Token, jti: Jti)
    requires LoginOp(v, asked, device, id, token, jti).Some?
    ensures var op := LoginOp(v, asked, device, id, token, jti).value;
            && op.Open? && op.id == id && op.token == token && op.user == v.user && op.device == device
            && op.tenant == (if Names(asked) then asked else if |v.memberships| == 1 then Some(v.memberships[0]) else None)
            && op.jti == (if op.tenant.Some? || |v.memberships| == 0 then Some(jti) else None)
            && op.clearDevice == op.jti.Some?
  {
  }

  /** With a second factor a login opens a session only before an organisation is chosen, and in none. */
  lemma SecondFactorComesFirst(v: Visitor, asked: Option<TenantId>, device: Option<string>, id: SessionId, token: Token, jti: Jti)
    requires v.mfa && LoginOp(v, asked, device, id, token, jti).Some?
    ensures !Names(asked) && |v.memberships| != 1 && LoginOp(v, asked, device, id, token, jti).value.tenant == None
  {
    LoginSucceedsExactly(v, asked, device, id, token, jti);
    LoginDecides(v, asked, device, id, token, jti);
  }

  class SessionStore {
    var sessions: map<SessionId, Session>
    var blacklist: map<Jti, real>
    const lifetimes: Lifetimes
    ghost var issuedAt: map<Jti, real>
    ghost var issued: set<string>
    ghost var retired: set<Token>

    ghost function Now(): AuthState
      reads this
    {
      AuthState(sessions, blacklist, issuedAt, issued, retired)
    }

    constructor (lifetimes: Lifetimes)
      ensures this.lifetimes == lifetimes
      ensures Now() == AuthState(map[], map[], map[], {}, {}) && Valid(Now())
    {
      this.lifetimes := lifetimes;
      sessions, blacklist := map[], map[];
      issuedAt, issued, retired := map[], {}, {};
    }

    /** `get_by_refresh_token` */
    method GetByRefreshToken(token: Token) returns (found: Option<SessionId>)
      requires Valid(Now())
      ensures found.Some? <==> Known(Now(), token)
      ensures found.Some? ==> Carries(sessions, found.value, token) && found.value == Find(Now(), token)
    {
      var rows := set id | id in sessions && Carries(sessions, id, token);
      if rows == {} {
        assert forall id :: Carries(sessions, id, token) ==> id in rows;
        return None;
      }
      var id :| id in rows;
      FindIs(Now(), token, id);
      return Some(id);
    }

    /** `revoke_all_for_user` and `revoke_active_for_device`: the rows are marked one after the other. */
    method RevokeEach(ids: set<SessionId>)
      requires ids <= sessions.Keys
      modifies this`sessions
      ensures sessions == Revoke(old(sessions), ids)
    {
      ghost var before := sessions;
      ghost var done: set<SessionId> := {};
      var rest := ids;
      RevokeNone(sessions);
      while rest != {}
        invariant done !! rest && done + rest == ids
        invariant sessions == Revoke(before, done)
        decreases |rest|
      {
        var id :| id in rest;
        RevokeStep(before, done, id);
        MovedOver(done, rest, id);
        sessions := sessions[id := sessions[id].(revoked := true)];
        done, rest := done + {id}, rest - {id};
      }
      assert done == ids;
    }

    method BlacklistOne(ghost before: map<Jti, real>, ghost done: set<SessionId>, id: SessionId, until: real)
      requires id in sessions && blacklist == Ban(before, JtisOf(sessions, done), until)
      modifies this`blacklist
      ensures blacklist == Ban(before, JtisOf(sessions, done + {id}), until)
    {
      BanStep(before, sessions, done, id, until);
      if sessions[id].lastJti.Some? { blacklist := blacklist[sessions[id].lastJti.value := until]; }
    }

    /** The recorded access token of each session gets a blacklist entry. */
    method BlacklistEach(ids: set<SessionId>, now: real)
      requires ids <= sessions.Keys
      modifies this`blacklist
      ensures blacklist == Ban(old(blacklist), JtisOf(sessions, ids), now + BlacklistTtl(lifetimes))
    {
      ghost var before := blacklist;
      ghost var done: set<SessionId> := {};
      var until := now + BlacklistTtl(lifetimes);
      var rest := ids;
      BanNone(before, sessions, until);
      while rest != {}
        invariant done !! rest && done + rest == ids
        invariant blacklist == Ban(before, JtisOf(sessions, done), until)
        decreases |rest|
      {
        var id :| id in rest;
        MovedOver(done, rest, id);
        BlacklistOne(before, done, id, until);
        done, rest := done + {id}, rest - {id};
      }
      assert done == ids;
    }

    /** A new row, with the fresh names on record. */
    method Save(id: SessionId, s: Session, now: real)
      modifies this`sessions, this`issuedAt, this`issued
      ensures Now() == Issue(old(Now()), {id, s.token}, s.lastJti, now).(sessions := old(sessions)[id := s])
    {
      sessions := sessions[id := s];
      issued := issued + {id, s.token} + (if s.lastJti.Some? then {s.lastJti.value} else {});
      if s.lastJti.Some? { issuedAt := issuedAt[s.lastJti.value := now]; }
    }

    /** The session part of a login, of a second factor and of a callback. */
    method OpenSession(id: SessionId, token: Token, jti: Option<Jti>, user: UserId, tenant: Option<TenantId>, device: Option<string>,
                       clearDevice: bool, now: real)
      requires Valid(Now()) && AllNew(Now(), id, token, jti)
      modifies this
      ensures Now() == Apply(old(Now()), Open(id, token, jti, user, tenant, device, clearDevice), now, lifetimes)
    {
      if clearDevice && device.Some? && device.value != "" {
        RevokeEach(OnDevice(sessions, user, device.value));
      }
      Save(id, Session(user, tenant, token, device, now + RefreshSpan(lifetimes), false, jti, id), now);
    }

    /** `login`, once the password is right and the account active. */
    method Login(v: Visitor, asked: Option<TenantId>, device: Option<string>, id: SessionId, token: Token, jti: Jti, now: real) returns (begun: bool)
      requires Valid(Now()) && AllNew(Now(), id, token, Some(jti))
      modifies this
      ensures begun <==> LoginOp(v, asked, device, id, token, jti).Some?
      ensures begun <==> if Names(asked) then EnabledIn(v, asked.value) && !v.mfa else !(|v.memberships| == 1 && v.mfa)
      ensures begun ==>
                && id in sessions && sessions[id].user == v.user && sessions[id].device == device && sessions[id].token == token
                && sessions[id].tenant == (if Names(asked) then asked else if |v.memberships| == 1 then Some(v.memberships[0]) else None)
                && sessions[id].lastJti == (if sessions[id].tenant.Some? || |v.memberships| == 0 then Some(jti) else None)
                && (v.mfa ==> sessions[id].tenant == None)
      ensures Now() == if begun then Apply(old(Now()), LoginOp(v, asked, device, id, token, jti).value, now, lifetimes) else old(Now())
    {
      var tenant := asked;
      if asked.None? || asked.value == "" {
        if v.memberships == [] {
          OpenSession(id, token, Some(jti), v.user, None, device, true, now);
          return true;
        }
        if |v.memberships| > 1 {
          OpenSession(id, token, None, v.user, None, device, false, now);
          return true;
        }
        tenant := Some(v.memberships[0]);
      } else if asked.value !in v.enabledIn || !v.enabledIn[asked.value] {
        return false;
      }
      if v.mfa { return false; }
      OpenSession(id, token, Some(jti), v.user, tenant, device, true, now);
      return true;
    }

    /** Replaces session `prev` by a new one of the same user, device and lineage. */
    method Rotate(prev: SessionId, id: SessionId, token: Token, jti: Option<Jti>, tenant: Option<TenantId>, now: real)
      requires prev in sessions && AllNew(Now(), id, token, jti)
      modifies this
      ensures Now() == Rotated(old(Now()), prev, id, token, jti, tenant, now, lifetimes)
    {
      var s := sessions[prev];
      RevokeNone(sessions);
      RevokeStep(sessions, {}, prev);
      assert {} + {prev} == {prev};
      sessions := sessions[prev := s.(revoked := true)];
      Save(id, Session(s.user, tenant, token, s.device, now + RefreshSpan(lifetimes), false, jti, s.lineage), now);
      retired := retired + {s.token};
    }

    method Refresh(prev: Token, id: SessionId, token: Token, jti: Jti, now: real) returns (ok: bool)
      requires Valid(Now()) && AllNew(Now(), id, token, Some(jti))
      modifies this
      ensures ok <==> Accepted(old(Now()), prev, now)
      ensures Now() == Apply(old(Now()), Op.Refresh(prev, id, token, Some(jti)), now, lifetimes)
    {
      var found := GetByRefreshToken(prev);
      if found.None? { return false; }
      FindIs(Now(), prev, found.value);
      if sessions[found.value].expires < now { return false; }
      Rotate(found.value, id, token, Some(jti), sessions[found.value].tenant, now);
      return true;
    }

    method SelectTenant(prev: Token, id: SessionId, token: Token, jti: Jti, chosen: TenantId, member: bool, mfa: bool, now: real) returns (ok: bool)
      requires Valid(Now()) && AllNew(Now(), id, token, Some(jti))
      modifies this
      ensures ok <==> Accepted(old(Now()), prev, now) && member && !mfa
      ensures Now() == Apply(old(Now()), Op.SelectTenant(prev, id, token, Some(jti), chosen, member, mfa), now, lifetimes)
    {
      var found := GetByRefreshToken(prev);
      if found.None? { return false; }
      FindIs(Now(), prev, found.value);
      if sessions[found.value].expires < now || !member || mfa { return false; }
      Rotate(found.value, id, token, Some(jti), Some(chosen), now);
      return true;
    }

    /** `resolve_pending_session` */
    method ResolvePendingSession(token: Token, now: real) returns (found: Option<SessionId>)
      requires Valid(Now())
      ensures found.Some? <==> Accepted(Now(), token, now)
      ensures found.Some? ==> Carries(sessions, found.value, token) && found.value == Find(Now(), token)
    {
      found := GetByRefreshToken(token);
      if found.Some? {
        FindIs(Now(), token, found.value);
        if sessions[found.value].expires < now { return None; }
      }
    }

    /** The session part of creating and of joining an organisation. */
    method Onboard(prev: Token, token: Token, jti: Jti, joined: TenantId, allowed: bool, now: real) returns (ok: bool)
      requires Valid(Now()) && NewTokens(Now(), token, Some(jti))
      modifies this
      ensures ok <==> Accepted(old(Now()), prev, now) && allowed
      ensures Now() == Apply(old(Now()), Op.Onboard(prev, token, Some(jti), joined, allowed), now, lifetimes)
    {
      var found := ResolvePendingSession(prev, now);
      if found.None? || !allowed { return false; }
      var s := sessions[found.value];
      sessions := sessions[found.value := s.(tenant := Some(joined), lastJti := Some(jti), token := token)];
      issuedAt, issued, retired := issuedAt[jti := now], issued + {token} + {jti}, retired + {s.token};
      return true;
    }

    /** One session ends: its recorded access token first, then the row. */
    method End(id: SessionId, now: real)
      requires id in sessions
      modifies this`sessions, this`blacklist
      ensures Now() == Ended(old(Now()), {id}, now, lifetimes)
    {
      BlacklistEach({id}, now);
      RevokeEach({id});
    }

    method Logout(token: Token, now: real)
      requires Valid(Now())
      modifies this
      ensures Now() == Apply(old(Now()), Op.Logout(token), now, lifetimes)
    {
      var found := GetByRefreshToken(token);
      if found.Some? { End(found.value, now); }
    }

    method RevokeSession(target: SessionId, user: UserId, now: real) returns (ok: bool)
      modifies this
      ensures ok <==> target in old(sessions) && old(sessions)[target].user == user && !old(sessions)[target].revoked
      ensures Now() == Apply(old(Now()), Op.RevokeSession(target, user), now, lifetimes)
    {
      if target !in sessions || sessions[target].user != user || sessions[target].revoked { return false; }
      End(target, now);
      return true;
    }

    method RevokeAllSessions(user: UserId, now: real)
      modifies this
      ensures Now() == Apply(old(Now()), RevokeAll(user), now, lifetimes)
    {
      var active := ActiveOf(sessions, user);
      BlacklistEach(active, now);
      RevokeEach(active);
    }

    /** The deactivation branch of the account update. */
    method DeactivateUser(user: UserId, wasActive: bool, now: real)
      modifies this
      ensures Now() == Apply(old(Now()), Deactivate(user, wasActive), now, lifetimes)
    {
      if wasActive { RevokeAllSessions(user, now); }
    }

    method InvalidateAllSessions(user: UserId, now: real)
      modifies this
      ensures Now() == Apply(old(Now()), InvalidateAll(user), now, lifetimes)
    {
      RevokeEach(ActiveOf(sessions, user));
    }
  }
}
