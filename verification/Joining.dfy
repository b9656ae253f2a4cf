/** How people become members: by founding an organisation, by accepting an invitation, or by joining under the invited address. */
module Joining {
  import opened Model
  import opened Steps
  import opened Isolation
  import opened Requests
  import opened Runs
  import opened MemberAccess
  import opened RoleEdits
  import opened Returning
  import opened Conditions

  /** The request makes `k` a member, for one of the three reasons there are. */
  ghost predicate Brings(s: State, req: Request, k: Key)
  {
    req.Plain? &&
    match req.op
    case CreateTenant(u, t, slug, _) => k == Key(u, t) && t !in s.db.seen
    case AcceptInvite(i, u, now) =>
      StillOpen(s.db, i, now) && k == Key(u, s.db.invites[i].tenant) && MayOffer(s.db, k.tenant, s.db.invites[i].role)
    case JoinByInvite(i, u, now) =>
      StillOpen(s.db, i, now) && k == Key(u, s.db.invites[i].tenant)
      && u in s.db.accounts && SameButCase(s.db.invites[i].email, s.db.accounts[u].email)
    case _ => false
  }

  lemma FoundingBrings(s: State, op: Op, k: Key)
    requires op.CreateTenant? && k !in s.db.members && k in Do(s, op).state.db.members
    ensures Brings(s, Plain(op), k)
  {
  }

  lemma TakingBrings(s: State, op: Op, k: Key)
    requires (op.AcceptInvite? || op.JoinByInvite?) && k !in s.db.members && k in Do(s, op).state.db.members
    ensures Brings(s, Plain(op), k)
  {
    TakingConsumes(s, op);
    if op.AcceptInvite? {
      AcceptSucceedsExactly(s, op.invite, op.user, op.now);
    } else {
      JoinSucceedsExactly(s, op.invite, op.user, op.now);
    }
  }

  /** No other operation adds a membership. */
  lemma OtherOpsAddNobody(s: State, op: Op)
    requires !op.CreateTenant? && !op.AcceptInvite? && !op.JoinByInvite?
    ensures Do(s, op).state.db.members.Keys <= s.db.members.Keys
  {
    if IsMemberOp(op) {
      MemberOpsAddNobody(s, op);
    } else if IsRoleOp(op) {
      RoleOpsAddNobody(s, op);
    }
  }

  lemma MemberOpsAddNobody(s: State, op: Op)
    requires IsMemberOp(op)
    ensures Do(s, op).state.db.members.Keys <= s.db.members.Keys
  {
  }

  lemma RoleOpsAddNobody(s: State, op: Op)
    requires IsRoleOp(op)
    ensures Do(s, op).state.db.members.Keys <= s.db.members.Keys
  {
  }

  /** No access-management request adds a membership. */
  lemma ManagementAddsNobody(s: State, req: Request)
    requires Sound(s.db) && !req.Plain?
    ensures Exec(s, req).state.db.members.Keys <= s.db.members.Keys
  {
    match req
    case MemberSave(_, _, _, _, _, _, _) => MemberSaveMeetsRequest(s, req);
    case MemberRemove(_, _, _) => RemovalOutcome(s, req);
    case RoleSave(_, _, _, _, _, _, _) => RoleSaveKeepsTables(s, req);
    case RoleDelete(_, _, _) => RoleDeleteOutcome(s, req);
  }

  lemma NewMembersAreBrought(s: State, req: Request, k: Key)
    requires Sound(s.db) && k !in s.db.members && k in Exec(s, req).state.db.members
    ensures Brings(s, req, k)
  {
    if !req.Plain? {
      ManagementAddsNobody(s, req);
    } else if req.op.CreateTenant? {
      FoundingBrings(s, req.op, k);
    } else if req.op.AcceptInvite? || req.op.JoinByInvite? {
      TakingBrings(s, req.op, k);
    } else {
      OtherOpsAddNobody(s, req.op);
    }
  }

  /** Some request of the run makes `k` a member. */
  ghost predicate BroughtIn(s: State, reqs: seq<Request>, k: Key)
    decreases |reqs|
  {
    reqs != [] && (Brings(s, reqs[0], k) || BroughtIn(Exec(s, reqs[0]).state, reqs[1..], k))
  }

  /**
   * Over every run: whoever is a member at the end, and was none at the start, founded the organisation, or accepted an open
   * invitation whose role the organisation may offer, or joined by an open invitation to the address of their own account.
   */
  lemma {:induction false} EveryMemberWasBroughtIn(s: State, reqs: seq<Request>, k: Key)
    requires Sound(s.db) && k !in s.db.members && k in Run(s, reqs).db.members
    ensures BroughtIn(s, reqs, k)
    decreases |reqs|
  {
    if reqs != [] {
      var next := Exec(s, reqs[0]).state;
      if k in next.db.members {
        NewMembersAreBrought(s, reqs[0], k);
      } else {
        RequestStaysSound(s, reqs[0]);
        EveryMemberWasBroughtIn(next, reqs[1..], k);
      }
    }
  }
}
