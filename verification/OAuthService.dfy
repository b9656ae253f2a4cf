/** The external sign-in methods at work: rows added and deleted, the one-time state taken out of the cache first. */
module OAuthService {
  import opened Model
  import opened OAuth

  lemma LinkIs(st: OAuthState, identity: Identity, a: AccountId)
    requires Valid(st) && IsLink(st, a, identity)
    ensures IsLinked(st, identity) && st.accounts[a].user in st.users
    ensures forall b :: IsLink(st, b, identity) ==> b == a
    ensures forall u :: LinkedTo(st, identity, u) <==> u == st.accounts[a].user
  {
  }

  lemma EmailIs(st: OAuthState, email: string, u: UserId)
    requires Valid(st) && HasEmail(st, u, email)
    ensures EmailTaken(st, email) && forall v :: HasEmail(st, v, email) ==> v == u
  {
  }

  class OAuthStore {
    var users: map<UserId, Person>
    var accounts: map<AccountId, Linked>
    var attempts: map<string, Attempt>
    ghost var issued: set<string>

    ghost function Now(): OAuthState
      reads this
    {
      OAuthState(users, accounts, attempts, issued)
    }

    constructor ()
      ensures Now() == OAuthState(map[], map[], map[], {}) && Valid(Now())
    {
      users, accounts, attempts, issued := map[], map[], map[], {};
    }

    /** `get_by_provider` */
    method GetByProvider(identity: Identity) returns (found: Option<AccountId>)
      ensures found.Some? <==> IsLinked(Now(), identity)
      ensures found.Some? ==> IsLink(Now(), found.value, identity)
    {
      var rows := set a | a in accounts && accounts[a].identity == identity;
      if rows == {} {
        assert forall a :: IsLink(Now(), a, identity) ==> a in rows;
        return None;
      }
      var a :| a in rows;
      assert IsLink(Now(), a, identity);
      return Some(a);
    }

    /** `get_by_email` */
    method GetByEmail(email: string) returns (found: Option<UserId>)
      ensures found.Some? <==> EmailTaken(Now(), email)
      ensures found.Some? ==> HasEmail(Now(), found.value, email)
    {
      var rows := set u | u in users && users[u].email == email;
      if rows == {} {
        assert forall u :: HasEmail(Now(), u, email) ==> u in rows;
        return None;
      }
      var u :| u in rows;
      assert HasEmail(Now(), u, email);
      return Some(u);
    }

    method SaveAccount(a: AccountId, u: UserId, identity: Identity)
      modifies this`accounts, this`issued
      ensures Now() == AddLink(old(Now()), a, u, identity)
    {
      accounts := accounts[a := Linked(u, identity)];
      issued := issued + {a};
    }

    /** `_find_or_create_user` */
    method FindOrCreateUser(identity: Identity, email: string, newUser: UserId, newAccount: AccountId) returns (u: UserId)
      requires Valid(Now()) && newUser !in issued && newAccount !in issued && newUser != newAccount
      modifies this
      ensures u in users
      ensures users[u].active ==> SignIn(old(Now()), identity, email, newUser, newAccount) == Answer(Some(u), Now())
      ensures !users[u].active ==> SignIn(old(Now()), identity, email, newUser, newAccount) == Answer(None, old(Now()))
      ensures attempts == old(attempts)
    {
      var account := GetByProvider(identity);
      if account.Some? {
        LinkIs(Now(), identity, account.value);
        return accounts[account.value].user;
      }
      var person := GetByEmail(email);
      if person.Some? {
        EmailIs(Now(), email, person.value);
        SaveAccount(newAccount, person.value, identity);
        return person.value;
      }
      users := users[newUser := Person(email, false, true)];
      issued := issued + {newUser};
      SaveAccount(newAccount, newUser, identity);
      return newUser;
    }

    /** The branch of the callback, and of explicit linking, that attaches an identity to a signed-in user. */
    method AttachTo(u: UserId, identity: Identity, newAccount: AccountId) returns (ok: bool)
      requires Valid(Now()) && newAccount !in issued
      modifies this`accounts, this`issued
      ensures ok <==> Link(old(Now()), u, identity, newAccount).user.Some?
      ensures Now() == Link(old(Now()), u, identity, newAccount).st
    {
      if u !in users { return false; }
      var existing := GetByProvider(identity);
      if existing.Some? {
        LinkIs(Now(), identity, existing.value);
        return accounts[existing.value].user == u;
      }
      SaveAccount(newAccount, u, identity);
      return true;
    }

    /** `handle_callback`: the state is deleted before anything can fail, and an inactive account is refused with all writes undone. */
    method HandleCallback(state: string, identity: Identity, email: string, newUser: UserId, newAccount: AccountId) returns (who: Option<UserId>)
      requires Valid(Now()) && newUser !in issued && newAccount !in issued && newUser != newAccount
      modifies this
      ensures Answer(who, Now()) == Apply(old(Now()), Callback(state, identity, email, newUser, newAccount))
    {
      if state !in attempts { return None; }
      var attempt := attempts[state];
      ConsumeKeepsValid(Now(), {state});
      attempts := attempts - {state};
      if attempt.provider != identity.provider { return None; }
      if attempt.linkUser.Some? && attempt.linkUser.value != "" {
        var ok := AttachTo(attempt.linkUser.value, identity, newAccount);
        return if ok then attempt.linkUser else None;
      }
      var users0, accounts0 := users, accounts;
      ghost var issued0 := issued;
      var u := FindOrCreateUser(identity, email, newUser, newAccount);
      if !users[u].active {
        users, accounts, issued := users0, accounts0, issued0;
        return None;
      }
      return Some(u);
    }

    /** `link_provider` */
    method LinkProvider(state: string, user: UserId, identity: Identity, newAccount: AccountId) returns (who: Option<UserId>)
      requires Valid(Now()) && newAccount !in issued
      modifies this
      ensures Answer(who, Now()) == Apply(old(Now()), Op.LinkProvider(state, user, identity, newAccount))
    {
      if state !in attempts { return None; }
      ConsumeKeepsValid(Now(), {state});
      attempts := attempts - {state};
      var ok := AttachTo(user, identity, newAccount);
      return if ok then Some(user) else None;
    }

    /** `unlink_provider` */
    method UnlinkProvider(user: UserId, provider: string) returns (who: Option<UserId>)
      modifies this
      ensures Answer(who, Now()) == Apply(old(Now()), Op.UnlinkProvider(user, provider))
    {
      var here := set a | a in accounts && accounts[a].user == user && accounts[a].identity.provider == provider;
      assert here == AccountsAt(Now(), user, provider);
      if |here| != 1 { return None; }
      if user in users && !users[user].hasPassword {
        var all := set a | a in accounts && accounts[a].user == user;
        assert all == AccountsOf(Now(), user);
        if |all| <= 1 { return None; }
      }
      accounts := accounts - here;
      return Some(user);
    }
  }
}
