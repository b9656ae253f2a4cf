/** Linking external identities to accounts: by login callback, by explicit linking, and unlinking. */
module OAuth {
  import opened Model

  type AccountId = string

  /** `(provider, provider_user_id)` */
  datatype Identity = Identity(provider: string, subject: string)

  datatype Linked = Linked(user: UserId, identity: Identity)

  datatype Person = Person(email: string, hasPassword: bool, active: bool)

  /** What the one-time state remembers between the redirect and the callback. */
  datatype Attempt = Attempt(provider: string, linkUser: Option<UserId>)

  datatype OAuthState = OAuthState(
    users: map<UserId, Person>,
    accounts: map<AccountId, Linked>,
    attempts: map<string, Attempt>,
    issued: set<string>)   // bookkeeping: identifiers handed out so far

  // ---- Lookups ----

  predicate IsLink(st: OAuthState, a: AccountId, identity: Identity)
  {
    a in st.accounts && st.accounts[a].identity == identity
  }

  /** `get_by_provider` finds something. */
  ghost predicate IsLinked(st: OAuthState, identity: Identity)
  {
    exists a :: IsLink(st, a, identity)
  }

  ghost predicate LinkedTo(st: OAuthState, identity: Identity, u: UserId)
  {
    exists a :: IsLink(st, a, identity) && st.accounts[a].user == u
  }

  function AccountsOf(st: OAuthState, u: UserId): set<AccountId>
  {
    set a | a in st.accounts && st.accounts[a].user == u
  }

  function AccountsAt(st: OAuthState, u: UserId, provider: string): set<AccountId>
  {
    set a | a in AccountsOf(st, u) && st.accounts[a].identity.provider == provider
  }

  predicate HasEmail(st: OAuthState, u: UserId, email: string)
  {
    u in st.users && st.users[u].email == email
  }

  ghost predicate EmailTaken(st: OAuthState, email: string)
  {
    exists u :: HasEmail(st, u, email)
  }

  // ---- Operations ----

  function AddLink(st: OAuthState, a: AccountId, u: UserId, identity: Identity): OAuthState
  {
    st.(accounts := st.accounts[a := Linked(u, identity)], issued := st.issued + {a})
  }

  datatype Answer = Answer(user: Option<UserId>, st: OAuthState)

  /**
   * `_find_or_create_user` and the check that follows it: the linked user, else the user with this address, else a new
   * one. An inactive account is refused, and nothing is written then.
   */
  ghost function SignIn(st: OAuthState, identity: Identity, email: string, newUser: UserId, newAccount: AccountId): Answer
  {
    if newUser in st.issued || newAccount in st.issued || newUser == newAccount then Answer(None, st)
    else if IsLinked(st, identity) then
      var a :| IsLink(st, a, identity);
      var u := st.accounts[a].user;
      if u in st.users && st.users[u].active then Answer(Some(u), st) else Answer(None, st)
    else if EmailTaken(st, email) then
      var u :| HasEmail(st, u, email);
      if st.users[u].active then Answer(Some(u), AddLink(st, newAccount, u, identity)) else Answer(None, st)
    else
      Answer(Some(newUser), Created(st, newUser, newAccount, identity, email))
  }

  /** Linking to a signed-in user: refused when the identity is somebody else's, nothing to do when it is already theirs. */
  ghost function Link(st: OAuthState, u: UserId, identity: Identity, newAccount: AccountId): Answer
  {
    if u !in st.users || newAccount in st.issued then Answer(None, st)
    else if IsLinked(st, identity) then (if LinkedTo(st, identity, u) then Answer(Some(u), st) else Answer(None, st))
    else Answer(Some(u), AddLink(st, newAccount, u, identity))
  }

  /** Unlinking: exactly one account at the provider, and never the only way in. */
  function Unlink(st: OAuthState, u: UserId, provider: string): Answer
  {
    var here := AccountsAt(st, u, provider);
    if |here| != 1 || (u in st.users && !st.users[u].hasPassword && |AccountsOf(st, u)| <= 1) then Answer(None, st)
    else Answer(Some(u), st.(accounts := st.accounts - here))
  }

  datatype Op =
    | Authorize(state: string, attempt: Attempt)
    | Callback(state: string, identity: Identity, email: string, newUser: UserId, newAccount: AccountId)
    | LinkProvider(state: string, user: UserId, identity: Identity, newAccount: AccountId)
    | UnlinkProvider(user: UserId, provider: string)
    | Forget(states: set<string>)
    | Register(user: UserId, email: string)
    | SetPassword(user: UserId)
    | ChangeEmail(user: UserId, email: string)
    | SetActive(user: UserId, active: bool)
    | DeleteUser(user: UserId)

  /** The one-time state is used up by whatever looks at it, even when the rest fails. */
  function Consumed(st: OAuthState, state: string): OAuthState
  {
    st.(attempts := st.attempts - {state})
  }

  ghost function Apply(st: OAuthState, op: Op): Answer
  {
    match op
    case Authorize(state, attempt) =>
      if state in st.issued then Answer(None, st) else Answer(None, st.(attempts := st.attempts[state := attempt], issued := st.issued + {state}))
    case Callback(state, identity, email, newUser, newAccount) =>
      if state !in st.attempts then Answer(None, st)
      else
        var attempt := st.attempts[state];
        var st1 := Consumed(st, state);
        if attempt.provider != identity.provider then Answer(None, st1)
        else if attempt.linkUser.Some? && attempt.linkUser.value != "" then Link(st1, attempt.linkUser.value, identity, newAccount)
        else SignIn(st1, identity, email, newUser, newAccount)
    case LinkProvider(state, user, identity, newAccount) =>
      if state !in st.attempts then Answer(None, st) else Link(Consumed(st, state), user, identity, newAccount)
    case UnlinkProvider(user, provider) => Unlink(st, user, provider)
    case Forget(states) => Answer(None, st.(attempts := st.attempts - states))
    case Register(user, email) =>
      if user in st.issued || EmailTaken(st, email) then Answer(None, st)
      else Answer(Some(user), st.(users := st.users[user := Person(email, true, true)], issued := st.issued + {user}))
    case SetPassword(user) =>
      if user !in st.users then Answer(None, st) else Answer(Some(user), st.(users := st.users[user := st.users[user].(hasPassword := true)]))
    case ChangeEmail(user, email) =>
      if user !in st.users || (exists v :: v != user && HasEmail(st, v, email)) then Answer(None, st)
      else Answer(Some(user), st.(users := st.users[user := st.users[user].(email := email)]))
    case SetActive(user, active) =>
      if user !in st.users then Answer(None, st) else Answer(Some(user), st.(users := st.users[user := st.users[user].(active := active)]))
    case DeleteUser(user) =>
      Answer(None, st.(users := st.users - {user}, accounts := st.accounts - AccountsOf(st, user)))
  }

  // ---- Invariants ----

  /** An external identity belongs to at most one account, hence to at most one user. */
  ghost predicate IdentitiesUnique(st: OAuthState)
  {
    forall a, b :: a in st.accounts && b in st.accounts && st.accounts[a].identity == st.accounts[b].identity ==> a == b
  }

  ghost predicate AccountsOwned(st: OAuthState)
  {
    forall a :: a in st.accounts ==> st.accounts[a].user in st.users
  }

  ghost predicate EmailsUnique(st: OAuthState)
  {
    forall u, v :: u in st.users && v in st.users && st.users[u].email == st.users[v].email ==> u == v
  }

  /** The user can sign in: with a password or through an external identity. */
  ghost predicate HasWayIn(st: OAuthState, u: UserId)
  {
    u in st.users && (st.users[u].hasPassword || exists a :: a in st.accounts && st.accounts[a].user == u)
  }

  ghost predicate Bookkept(st: OAuthState)
  {
    st.users.Keys + st.accounts.Keys + st.attempts.Keys <= st.issued
  }

  ghost predicate Valid(st: OAuthState)
  {
    && IdentitiesUnique(st) && AccountsOwned(st) && EmailsUnique(st) && Bookkept(st)
    && forall u :: u in st.users ==> HasWayIn(st, u)
  }

  lemma AddLinkKeepsValid(st: OAuthState, a: AccountId, u: UserId, identity: Identity)
    requires Valid(st) && u in st.users && a !in st.issued && !IsLinked(st, identity)
    ensures Valid(AddLink(st, a, u, identity))
  {
    assert forall b :: b in st.accounts ==> !IsLink(st, b, identity);
    forall v | v in st.users ensures HasWayIn(AddLink(st, a, u, identity), v) {
      OthersKeepWayIn(st, AddLink(st, a, u, identity), v);
    }
  }

  /** A new user together with a new link. */
  function Created(st: OAuthState, newUser: UserId, newAccount: AccountId, identity: Identity, email: string): OAuthState
  {
    AddLink(st.(users := st.users[newUser := Person(email, false, true)], issued := st.issued + {newUser}), newAccount, newUser, identity)
  }

  lemma OthersKeepWayIn(st: OAuthState, after: OAuthState, u: UserId)
    requires HasWayIn(st, u) && u in after.users && after.users[u] == st.users[u]
    requires forall a :: a in st.accounts && st.accounts[a].user == u ==> a in after.accounts && after.accounts[a] == st.accounts[a]
    ensures HasWayIn(after, u)
  {
    if !st.users[u].hasPassword {
      var b :| b in st.accounts && st.accounts[b].user == u;
      assert b in after.accounts && after.accounts[b].user == u;
    }
  }

  lemma CreateKeepsEmails(st: OAuthState, newUser: UserId, newAccount: AccountId, identity: Identity, email: string)
    requires EmailsUnique(st) && !EmailTaken(st, email)
    ensures EmailsUnique(Created(st, newUser, newAccount, identity, email))
  {
    assert forall v :: v in st.users ==> !HasEmail(st, v, email);
  }

  lemma CreateKeepsRows(st: OAuthState, newUser: UserId, newAccount: AccountId, identity: Identity, email: string)
    requires Valid(st) && newUser !in st.issued && newAccount !in st.issued && newUser != newAccount
    requires !IsLinked(st, identity) && !EmailTaken(st, email)
    ensures var after := Created(st, newUser, newAccount, identity, email);
            IdentitiesUnique(after) && AccountsOwned(after) && EmailsUnique(after) && Bookkept(after)
  {
    assert forall b :: b in st.accounts ==> !IsLink(st, b, identity);
    CreateKeepsEmails(st, newUser, newAccount, identity, email);
  }

  lemma CreateKeepsValid(st: OAuthState, newUser: UserId, newAccount: AccountId, identity: Identity, email: string)
    requires Valid(st) && newUser !in st.issued && newAccount !in st.issued && newUser != newAccount
    requires !IsLinked(st, identity) && !EmailTaken(st, email)
    ensures Valid(Created(st, newUser, newAccount, identity, email))
  {
    var after := Created(st, newUser, newAccount, identity, email);
    CreateKeepsRows(st, newUser, newAccount, identity, email);
    forall v | v in after.users ensures HasWayIn(after, v) {
      if v == newUser {
        assert newAccount in after.accounts && after.accounts[newAccount].user == v;
      } else {
        OthersKeepWayIn(st, after, v);
      }
    }
  }

  lemma SignInKeepsValid(st: OAuthState, identity: Identity, email: string, newUser: UserId, newAccount: AccountId)
    requires Valid(st)
    ensures Valid(SignIn(st, identity, email, newUser, newAccount).st)
  {
    if newUser !in st.issued && newAccount !in st.issued && newUser != newAccount && !IsLinked(st, identity) {
      if EmailTaken(st, email) {
        forall u | HasEmail(st, u, email) ensures Valid(AddLink(st, newAccount, u, identity)) {
          AddLinkKeepsValid(st, newAccount, u, identity);
        }
      } else {
        CreateKeepsValid(st, newUser, newAccount, identity, email);
      }
    }
  }

  lemma LinkKeepsValid(st: OAuthState, u: UserId, identity: Identity, newAccount: AccountId)
    requires Valid(st)
    ensures Valid(Link(st, u, identity, newAccount).st)
  {
    if u in st.users && newAccount !in st.issued && !IsLinked(st, identity) {
      AddLinkKeepsValid(st, newAccount, u, identity);
    }
  }

  /** Another account remains when one of several goes. */
  lemma AnotherRemains(st: OAuthState, u: UserId, gone: set<AccountId>) returns (a: AccountId)
    requires gone <= AccountsOf(st, u) && |gone| == 1 && |AccountsOf(st, u)| > 1
    ensures a in AccountsOf(st, u) && a !in gone
  {
    var rest := AccountsOf(st, u) - gone;
    assert |rest| == |AccountsOf(st, u)| - |gone|;
    a :| a in rest;
  }

  lemma UnlinkKeepsValid(st: OAuthState, u: UserId, provider: string)
    requires Valid(st)
    ensures Valid(Unlink(st, u, provider).st)
  {
    var here := AccountsAt(st, u, provider);
    var after := Unlink(st, u, provider).st;
    if after != st {
      forall v | v in after.users ensures HasWayIn(after, v) {
        if v != u {
          OthersKeepWayIn(st, after, v);
        } else if !st.users[v].hasPassword {
          var a := AnotherRemains(st, u, here);
          assert a in after.accounts && after.accounts[a].user == v;
        }
      }
    }
  }

  /** Changes of people that keep their links and take no way in away. */
  lemma PeopleKeepValid(st: OAuthState, after: OAuthState)
    requires Valid(st) && EmailsUnique(after) && Bookkept(after)
    requires after.users.Keys <= st.users.Keys && after.accounts.Keys <= st.accounts.Keys
    requires forall a :: a in after.accounts ==> after.accounts[a] == st.accounts[a] && after.accounts[a].user in after.users
    requires forall a :: a in st.accounts && st.accounts[a].user in after.users ==> a in after.accounts
    requires forall u :: u in after.users && st.users[u].hasPassword ==> after.users[u].hasPassword
    ensures Valid(after)
  {
    forall u | u in after.users ensures HasWayIn(after, u) {
      assert HasWayIn(st, u);
      if !st.users[u].hasPassword {
        var b :| b in st.accounts && st.accounts[b].user == u;
        assert b in after.accounts && after.accounts[b].user == u;
      }
    }
  }

  lemma RegisterKeepsValid(st: OAuthState, user: UserId, email: string)
    requires Valid(st)
    ensures Valid(Apply(st, Register(user, email)).st)
  {
    if user !in st.issued && !EmailTaken(st, email) {
      var after := Apply(st, Register(user, email)).st;
      assert forall v :: v in st.users ==> !HasEmail(st, v, email);
      forall u | u in after.users ensures HasWayIn(after, u) {
        if u != user { OthersKeepWayIn(st, after, u); }
      }
    }
  }

  lemma ConsumeKeepsValid(st: OAuthState, states: set<string>)
    requires Valid(st)
    ensures Valid(st.(attempts := st.attempts - states))
  {
    PeopleKeepValid(st, st.(attempts := st.attempts - states));
  }

  predicate IsPeopleOp(op: Op)
  {
    op.SetPassword? || op.ChangeEmail? || op.SetActive? || op.DeleteUser?
  }

  lemma PeopleOpKeepsValid(st: OAuthState, op: Op)
    requires Valid(st) && IsPeopleOp(op)
    ensures Valid(Apply(st, op).st)
  {
    if op.DeleteUser? {
      DeleteUserKeepsValid(st, op.user);
    } else {
      PersonChangeKeepsValid(st, op);
    }
  }

  lemma DeleteUserKeepsValid(st: OAuthState, user: UserId)
    requires Valid(st)
    ensures Valid(Apply(st, DeleteUser(user)).st)
  {
    PeopleKeepValid(st, Apply(st, DeleteUser(user)).st);
  }

  lemma PersonChangeKeepsValid(st: OAuthState, op: Op)
    requires Valid(st) && (op.SetPassword? || op.ChangeEmail? || op.SetActive?)
    ensures Valid(Apply(st, op).st)
  {
    if op.ChangeEmail? {
      ChangeEmailKeepsEmails(st, op.user, op.email);
    } else {
      PlainChangeKeepsEmails(st, op);
    }
    if Apply(st, op).user.Some? {
      ReplacePersonKeepsValid(st, op.user, Apply(st, op).st.users[op.user]);
    }
  }

  lemma PlainChangeKeepsEmails(st: OAuthState, op: Op)
    requires EmailsUnique(st) && (op.SetPassword? || op.SetActive?)
    ensures EmailsUnique(Apply(st, op).st)
  {
  }

  lemma ReplacePersonKeepsValid(st: OAuthState, user: UserId, p: Person)
    requires Valid(st) && user in st.users && (st.users[user].hasPassword ==> p.hasPassword)
    requires EmailsUnique(st.(users := st.users[user := p]))
    ensures Valid(st.(users := st.users[user := p]))
  {
    PeopleKeepValid(st, st.(users := st.users[user := p]));
  }

  lemma ChangeEmailKeepsEmails(st: OAuthState, user: UserId, email: string)
    requires EmailsUnique(st)
    ensures EmailsUnique(Apply(st, ChangeEmail(user, email)).st)
  {
    if user in st.users && !(exists v :: v != user && HasEmail(st, v, email)) {
      assert forall v :: v in st.users && v != user ==> !HasEmail(st, v, email);
    }
  }

  lemma CallbackKeepsValid(st: OAuthState, op: Op)
    requires Valid(st) && op.Callback?
    ensures Valid(Apply(st, op).st)
  {
    if op.state in st.attempts {
      var attempt := st.attempts[op.state];
      ConsumeKeepsValid(st, {op.state});
      SignInKeepsValid(Consumed(st, op.state), op.identity, op.email, op.newUser, op.newAccount);
      if attempt.linkUser.Some? { LinkKeepsValid(Consumed(st, op.state), attempt.linkUser.value, op.identity, op.newAccount); }
    }
  }

  lemma AuthorizeKeepsValid(st: OAuthState, op: Op)
    requires Valid(st) && op.Authorize?
    ensures Valid(Apply(st, op).st)
  {
    PeopleKeepValid(st, Apply(st, op).st);
  }

  /** In every reachable state: one user per identity, and everybody keeps a way in. */
  lemma StaysValid(st: OAuthState, op: Op)
    requires Valid(st)
    ensures Valid(Apply(st, op).st)
  {
    if IsPeopleOp(op) {
      PeopleOpKeepsValid(st, op);
    } else if op.Authorize? {
      AuthorizeKeepsValid(st, op);
    } else if op.Callback? {
      CallbackKeepsValid(st, op);
    } else if op.LinkProvider? {
      ConsumeKeepsValid(st, {op.state});
      LinkKeepsValid(Consumed(st, op.state), op.user, op.identity, op.newAccount);
    } else if op.UnlinkProvider? {
      UnlinkKeepsValid(st, op.user, op.provider);
    } else if op.Forget? {
      ConsumeKeepsValid(st, op.states);
    } else {
      RegisterKeepsValid(st, op.user, op.email);
    }
  }

  // ---- Runs ----

  ghost function RunOps(st: OAuthState, ops: seq<Op>): OAuthState
    decreases |ops|
  {
    if ops == [] then st else RunOps(Apply(st, ops[0]).st, ops[1..])
  }

  lemma {:induction false} RunStaysValid(st: OAuthState, ops: seq<Op>)
    requires Valid(st)
    ensures Valid(RunOps(st, ops))
    decreases |ops|
  {
    if ops != [] {
      StaysValid(st, ops[0]);
      RunStaysValid(Apply(st, ops[0]).st, ops[1..]);
    }
  }

  /** The operation takes the link away: the user unlinks the provider, or goes. */
  predicate Severs(op: Op, identity: Identity, u: UserId)
  {
    op == UnlinkProvider(u, identity.provider) || op == DeleteUser(u)
  }

  lemma LinkStays(st: OAuthState, op: Op, identity: Identity, u: UserId)
    requires Valid(st) && LinkedTo(st, identity, u) && !Severs(op, identity, u)
    ensures LinkedTo(Apply(st, op).st, identity, u)
  {
    var a :| IsLink(st, a, identity) && st.accounts[a].user == u;
    if op.Callback? {
      CallbackKeepsAccount(st, op, a);
    } else {
      OtherOpsKeepAccount(st, op, a);
    }
    assert IsLink(Apply(st, op).st, a, identity) && Apply(st, op).st.accounts[a].user == u;
  }

  lemma CallbackKeepsAccount(st: OAuthState, op: Op, a: AccountId)
    requires Bookkept(st) && op.Callback? && a in st.accounts
    ensures a in Apply(st, op).st.accounts && Apply(st, op).st.accounts[a] == st.accounts[a]
  {
    assert a in st.issued;
  }

  lemma OtherOpsKeepAccount(st: OAuthState, op: Op, a: AccountId)
    requires Bookkept(st) && !op.Callback? && a in st.accounts && !Severs(op, st.accounts[a].identity, st.accounts[a].user)
    ensures a in Apply(st, op).st.accounts && Apply(st, op).st.accounts[a] == st.accounts[a]
  {
    assert a in st.issued;
  }

  lemma {:induction false} LinkStaysOverRun(st: OAuthState, ops: seq<Op>, identity: Identity, u: UserId)
    requires Valid(st) && LinkedTo(st, identity, u)
    requires forall op :: op in ops ==> !Severs(op, identity, u)
    ensures Valid(RunOps(st, ops)) && LinkedTo(RunOps(st, ops), identity, u)
    decreases |ops|
  {
    if ops != [] {
      LinkStays(st, ops[0], identity, u);
      StaysValid(st, ops[0]);
      LinkStaysOverRun(Apply(st, ops[0]).st, ops[1..], identity, u);
    }
  }

  /** Somebody else cannot sign in with, or take over, a linked identity. */
  lemma SignInFindsLinked(st: OAuthState, identity: Identity, u: UserId, email: string, newUser: UserId, newAccount: AccountId)
    requires Valid(st) && LinkedTo(st, identity, u)
    ensures SignIn(st, identity, email, newUser, newAccount).user.Some? ==> SignIn(st, identity, email, newUser, newAccount).user == Some(u)
    ensures (newUser !in st.issued && newAccount !in st.issued && newUser != newAccount && st.users[u].active) ==>
              SignIn(st, identity, email, newUser, newAccount) == Answer(Some(u), st)
    ensures forall v, a :: v != u ==> Link(st, v, identity, a).user == None
  {
    var b :| IsLink(st, b, identity) && st.accounts[b].user == u;
    assert forall c :: IsLink(st, c, identity) ==> c == b;
  }

  /** The callback answers a live sign-in attempt at this provider, with identifiers that are new. */
  predicate Answers(st: OAuthState, state: string, identity: Identity, newUser: UserId, newAccount: AccountId)
  {
    && state in st.attempts && st.attempts[state] == Attempt(identity.provider, None)
    && newUser !in st.issued && newAccount !in st.issued && newUser != newAccount
  }

  /**
   * Until the user unlinks the provider or is deleted, every callback that signs somebody in with a linked identity signs in
   * that same user, whatever address the provider reports; and a callback that answers a live attempt does sign the user in
   * as long as the account is active, and changes nothing but using the attempt up.
   */
  lemma CallbackReturnsLinkedUser(st: OAuthState, ops: seq<Op>, identity: Identity, u: UserId, state: string, email: string, newUser: UserId, newAccount: AccountId)
    requires Valid(st) && LinkedTo(st, identity, u)
    requires forall op :: op in ops ==> !Severs(op, identity, u)
    ensures
      var answer := Apply(RunOps(st, ops), Callback(state, identity, email, newUser, newAccount));
      answer.user.Some? ==> answer.user == Some(u)
    ensures
      var last := RunOps(st, ops);
      u in last.users
      && (Answers(last, state, identity, newUser, newAccount) ==>
            Apply(last, Callback(state, identity, email, newUser, newAccount))
            == Answer(if last.users[u].active then Some(u) else None, Consumed(last, state)))
  {
    LinkStaysOverRun(st, ops, identity, u);
    var last := RunOps(st, ops);
    if state in last.attempts {
      var next := Consumed(last, state);
      ConsumeKeepsValid(last, {state});
      var b :| IsLink(last, b, identity) && last.accounts[b].user == u;
      assert IsLink(next, b, identity);
      SignInFindsLinked(next, identity, u, email, newUser, newAccount);
    }
  }

  /** An address that some active account has: its user signs in, and the identity is linked to them; an inactive one is refused. */
  lemma AddressSignsIn(st: OAuthState, identity: Identity, email: string, newUser: UserId, newAccount: AccountId, u: UserId)
    requires Valid(st) && newUser !in st.issued && newAccount !in st.issued && newUser != newAccount
    requires !IsLinked(st, identity) && u in st.users && st.users[u].email == email
    ensures SignIn(st, identity, email, newUser, newAccount) ==
              if st.users[u].active
              then Answer(Some(u), st.(accounts := st.accounts[newAccount := Linked(u, identity)], issued := st.issued + {newAccount}))
              else Answer(None, st)
  {
    assert HasEmail(st, u, email);
    assert forall v :: HasEmail(st, v, email) ==> v == u;
  }

  /** A new person has the external identity and no password, and cannot unlink it from any provider. */
  lemma NewcomerHasOneWayIn(st: OAuthState, identity: Identity, email: string, newUser: UserId, newAccount: AccountId)
    requires Valid(st) && newUser !in st.issued && newAccount !in st.issued && newUser != newAccount
    requires !IsLinked(st, identity) && forall u :: u in st.users ==> st.users[u].email != email
    ensures var answer := SignIn(st, identity, email, newUser, newAccount);
            && answer.user == Some(newUser)
            && answer.st.users == st.users[newUser := Person(email, false, true)]
            && answer.st.accounts == st.accounts[newAccount := Linked(newUser, identity)]
            && forall provider :: Unlink(answer.st, newUser, provider) == Answer(None, answer.st)
  {
    assert !EmailTaken(st, email);
    var after := SignIn(st, identity, email, newUser, newAccount).st;
    assert AccountsOf(after, newUser) == {newAccount};
  }

  /** Linking to a signed-in user: theirs already, somebody else's, or new. */
  lemma LinkExactly(st: OAuthState, u: UserId, identity: Identity, newAccount: AccountId)
    requires Valid(st) && u in st.users && newAccount !in st.issued
    ensures Link(st, u, identity, newAccount).user == None <==>
              exists a :: a in st.accounts && st.accounts[a].identity == identity && st.accounts[a].user != u
    ensures Link(st, u, identity, newAccount).user.Some? ==>
              var after := Link(st, u, identity, newAccount).st;
              after.users == st.users && LinkedTo(after, identity, u)
              && after.accounts == (if IsLinked(st, identity) then st.accounts else st.accounts[newAccount := Linked(u, identity)])
    ensures Link(st, u, identity, newAccount).user == None ==> Link(st, u, identity, newAccount).st == st
  {
    if a :| IsLink(st, a, identity) {
      assert LinkedTo(st, identity, u) <==> st.accounts[a].user == u;
    } else {
      assert forall a :: a in st.accounts ==> !IsLink(st, a, identity);
      assert IsLink(AddLink(st, newAccount, u, identity), newAccount, identity);
    }
  }

  /** A callback without a live attempt, or for another provider than the attempt's, signs nobody in and links nothing. */
  lemma StrayCallbackDoesNothing(st: OAuthState, state: string, identity: Identity, email: string, newUser: UserId, newAccount: AccountId)
    requires state !in st.attempts || st.attempts[state].provider != identity.provider
    ensures var answer := Apply(st, Callback(state, identity, email, newUser, newAccount));
            answer.user == None && answer.st == st.(attempts := st.attempts - {state})
  {
    assert state !in st.attempts ==> st.attempts - {state} == st.attempts;
  }

  /** Unlinking succeeds exactly when there is one account at the provider and another way in, and then removes that account alone. */
  lemma UnlinkExactly(st: OAuthState, u: UserId, provider: string)
    requires Valid(st) && u in st.users
    ensures Unlink(st, u, provider).user.Some? <==> |AccountsAt(st, u, provider)| == 1 && (st.users[u].hasPassword || |AccountsOf(st, u)| > 1)
    ensures Unlink(st, u, provider).user.Some? ==> AccountsAt(Unlink(st, u, provider).st, u, provider) == {}
    ensures HasWayIn(Unlink(st, u, provider).st, u)
  {
    UnlinkKeepsValid(st, u, provider);
  }

  /** A one-time state serves once. */
  lemma {:induction false} StateServesOnce(st: OAuthState, ops: seq<Op>, state: string)
    requires Bookkept(st) && state in st.issued && state !in st.attempts
    ensures state !in RunOps(st, ops).attempts
    decreases |ops|
  {
    if ops != [] {
      AttemptsOnlyNew(st, ops[0]);
      StateServesOnce(Apply(st, ops[0]).st, ops[1..], state);
    }
  }

  lemma AttemptsOnlyNew(st: OAuthState, op: Op)
    requires Bookkept(st)
    ensures Bookkept(Apply(st, op).st) && st.issued <= Apply(st, op).st.issued
    ensures forall state :: state in st.issued && state !in st.attempts ==> state !in Apply(st, op).st.attempts
  {
    if op.Callback? || op.LinkProvider? {
      CallbackAddsNoAttempt(st, op);
    } else {
      OtherOpsAddOnlyNew(st, op);
    }
  }

  lemma CallbackAddsNoAttempt(st: OAuthState, op: Op)
    requires Bookkept(st) && (op.Callback? || op.LinkProvider?)
    ensures Bookkept(Apply(st, op).st) && st.issued <= Apply(st, op).st.issued
    ensures Apply(st, op).st.attempts.Keys <= st.attempts.Keys
  {
  }

  lemma OtherOpsAddOnlyNew(st: OAuthState, op: Op)
    requires Bookkept(st) && !op.Callback? && !op.LinkProvider?
    ensures Bookkept(Apply(st, op).st) && st.issued <= Apply(st, op).st.issued
    ensures forall state :: state in st.issued && state !in st.attempts ==> state !in Apply(st, op).st.attempts
  {
  }
}
