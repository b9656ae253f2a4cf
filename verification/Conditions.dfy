/**
 * When each operation goes through, and what it leaves, said of the rows alone: which role, which permission and which
 * invitation a tenant may use is written out here and not taken from the predicates the operations decide with.
 */
module Conditions {
  import opened Listing
  import opened Model
  import opened Steps
  import opened Requests

  // ---- Letters ----

  /** Equal, or the capital and the small form of one ASCII letter. */
  predicate SameLetter(c: char, d: char)
  {
    || c == d
    || ('A' <= c <= 'Z' && d as int == c as int + 32)
    || ('A' <= d <= 'Z' && c as int == d as int + 32)
  }

  /** Character by character the same text, but for the case of ASCII letters. */
  predicate SameButCase(a: string, b: string)
  {
    |a| == |b| && forall i :: 0 <= i < |a| ==> SameLetter(a[i], b[i])
  }

  lemma LowerCharIdentifies(c: char, d: char)
    ensures LowerChar(c) == LowerChar(d) <==> SameLetter(c, d)
  {
  }

  /** Case folding identifies exactly the texts that differ in case alone. */
  lemma LowerIdentifies(a: string, b: string)
    ensures Lower(a) == Lower(b) <==> SameButCase(a, b)
  {
    if Lower(a) == Lower(b) {
      forall i | 0 <= i < |a| ensures SameLetter(a[i], b[i]) {
        assert Lower(a)[i] == Lower(b)[i];
        LowerCharIdentifies(a[i], b[i]);
      }
    }
    if SameButCase(a, b) {
      forall i | 0 <= i < |a| ensures Lower(a)[i] == Lower(b)[i] {
        LowerCharIdentifies(a[i], b[i]);
      }
      assert Lower(a) == Lower(b);
    }
  }

  // ---- White space ----

  /** Blank, tab to carriage return, and the four information separators. */
  predicate White(c: char)
  {
    c == ' ' || 9 <= c as int <= 13 || 28 <= c as int <= 31
  }

  /** Stripping leaves what lies between the white space at both ends, all of which it takes. */
  lemma {:induction false} StripMeans(s: string) returns (i: nat, j: nat)
    ensures i <= j <= |s| && Strip(s) == s[i..j]
    ensures forall k :: 0 <= k < |s| && !(i <= k < j) ==> White(s[k])
    ensures i < j ==> !White(s[i]) && !White(s[j - 1])
    decreases |s|
  {
    i, j := 0, |s|;
    if s != "" && IsSpace(s[0]) {
      var x, y := StripMeans(s[1..]);
      i, j := x + 1, y + 1;
      assert s[1..][x..y] == s[i..j];
      assert forall k :: 1 <= k < |s| ==> s[k] == s[1..][k - 1];
    } else if s != "" && IsSpace(s[|s| - 1]) {
      var front := s[..|s| - 1];
      i, j := StripMeans(front);
      assert front[i..j] == s[i..j];
      assert forall k :: 0 <= k < |front| ==> s[k] == front[k];
    }
  }

  // ---- What a tenant may hand out ----

  /** The role belongs to the tenant, or it is the platform role called `tenant_admin`. */
  predicate OwnOrTenantAdmin(db: Db, t: TenantId, r: RoleId)
  {
    r in db.roles && (db.roles[r].tenant == Some(t) || (db.roles[r].tenant == None && db.roles[r].name == "tenant_admin"))
  }

  /** The permission exists, is active, may be delegated, and its plugin is among the entitled ones if these are given. */
  predicate MayHandOut(db: Db, n: PermName, entitled: Option<set<string>>)
  {
    && n in db.catalogue && db.catalogue[n].active && db.catalogue[n].grantable
    && (entitled.Some? && db.catalogue[n].source.Some? ==> db.catalogue[n].source.value in entitled.value)
  }

  // ---- Members ----

  lemma AssignSucceedsExactly(s: State, u: UserId, t: TenantId, r: RoleId)
    ensures DoAssignPrimary(s, u, t, r).ok <==> Key(u, t) in s.db.members && OwnOrTenantAdmin(s.db, t, r)
    ensures DoAssignPrimary(s, u, t, r).ok ==>
              var m := s.db.members[Key(u, t)];
              DoAssignPrimary(s, u, t, r).state.db == s.db.(members := s.db.members[Key(u, t) := Membership(Some(r), m.owner, m.enabled)])
  {
  }

  lemma AddRoleSucceedsExactly(s: State, u: UserId, t: TenantId, r: RoleId, sc: Scope)
    ensures DoAddRole(s, u, t, r, sc).ok <==> Key(u, t) in s.db.members && OwnOrTenantAdmin(s.db, t, r)
  {
  }

  lemma GrantSucceedsExactly(s: State, u: UserId, t: TenantId, n: PermName, entitled: Option<set<string>>)
    ensures DoGrantPerm(s, u, t, n, entitled).ok <==> Key(u, t) in s.db.members && MayHandOut(s.db, n, entitled)
    ensures DoGrantPerm(s, u, t, n, entitled).ok ==>
              DoGrantPerm(s, u, t, n, entitled).state.db == s.db.(permRows := s.db.permRows + {PermRow(u, t, n, GLOBAL)})
  {
    if PermRow(u, t, n, GLOBAL) in s.db.permRows {
      assert s.db.permRows + {PermRow(u, t, n, GLOBAL)} == s.db.permRows;
    }
  }

  /** The role `tenant_admin` can be handed to every member, as primary role and as a further one, in each scope. */
  lemma TenantAdminCanBeHandedOut(s: State, u: UserId, t: TenantId, g: RoleId, sc: Scope)
    requires Key(u, t) in s.db.members && g in s.db.roles && s.db.roles[g].tenant == None && s.db.roles[g].name == "tenant_admin"
    ensures DoAssignPrimary(s, u, t, g).ok && Holds(DoAssignPrimary(s, u, t, g).state.db, u, t, g, sc)
    ensures DoAddRole(s, u, t, g, sc).ok
    ensures sc.kind.Some? || sc.id.None? ==> Holds(DoAddRole(s, u, t, g, sc).state.db, u, t, g, sc)
  {
    AssignSucceedsExactly(s, u, t, g);
    AddRoleSucceedsExactly(s, u, t, g, sc);
  }

  // ---- Roles ----

  lemma CreateRoleSucceedsExactly(s: State, t: TenantId, id: RoleId, name: string, perms: seq<PermName>, entitled: Option<set<string>>)
    requires IsFresh(s.db, id) && t != "" && t != id
    ensures DoCreateRole(s, t, id, name, perms, entitled).ok <==> forall n :: n in perms ==> MayHandOut(s.db, n, entitled)
  {
    assert forall n :: Grantable(s.db, n, entitled) <==> MayHandOut(s.db, n, entitled);
  }

  lemma RoleEditsSucceedExactly(s: State, t: TenantId, r: RoleId, name: string, n: PermName, entitled: Option<set<string>>)
    ensures var own := r in s.db.roles && s.db.roles[r].tenant == Some(t);
            && (DoAddPermToRole(s, t, r, n, entitled).ok <==> own && MayHandOut(s.db, n, entitled))
            && (DoRemovePermFromRole(s, t, r, n).ok <==> own)
            && (DoRenameRole(s, t, r, name).ok <==> own)
  {
  }

  /** All roles but `r` are as they were, and so is everything besides the roles. */
  ghost predicate OnlyRole(a: Db, b: Db, r: RoleId)
  {
    b == a.(roles := b.roles) && b.roles.Keys == a.roles.Keys && forall x :: x in a.roles && x != r ==> b.roles[x] == a.roles[x]
  }

  /** A granted permission joins the role, and nothing else changes. */
  lemma AddPermLeaves(s: State, t: TenantId, r: RoleId, n: PermName, entitled: Option<set<string>>)
    requires DoAddPermToRole(s, t, r, n, entitled).ok
    ensures var role, after := s.db.roles[r], DoAddPermToRole(s, t, r, n, entitled).state.db;
            OnlyRole(s.db, after, r) && after.roles[r] == Role(role.tenant, role.name, role.perms + {n})
  {
  }

  /** A known permission leaves the role, and nothing else changes. */
  lemma RemovePermLeaves(s: State, t: TenantId, r: RoleId, n: PermName)
    requires DoRemovePermFromRole(s, t, r, n).ok
    ensures var role, after := s.db.roles[r], DoRemovePermFromRole(s, t, r, n).state.db;
            OnlyRole(s.db, after, r) && after.roles[r] == Role(role.tenant, role.name, if n in s.db.catalogue then role.perms - {n} else role.perms)
  {
  }

  /** A new name replaces the old one, and nothing else changes. */
  lemma RenameLeaves(s: State, t: TenantId, r: RoleId, name: string)
    requires DoRenameRole(s, t, r, name).ok
    ensures var role, after := s.db.roles[r], DoRenameRole(s, t, r, name).state.db;
            OnlyRole(s.db, after, r) && after.roles[r] == Role(role.tenant, name, role.perms)
  {
  }

  /** A holder of a role in a tenant is somebody who refers to it there. */
  lemma HoldersAreReferrers(db: Db, t: TenantId, r: RoleId, u: UserId)
    ensures Key(u, t) in HoldersIn(db, t, r) <==> RefersTo(db, u, t, r)
  {
    if RefersTo(db, u, t, r) && !(Key(u, t) in db.members && db.members[Key(u, t)].role == Some(r)) {
      var sc :| RoleRow(u, t, r, sc) in db.roleRows;
      assert Key(u, t) in (set row | row in db.roleRows && row.tenant == t && row.role == r :: Key(row.user, t));
    }
    if Key(u, t) in HoldersIn(db, t, r) && !(Key(u, t) in db.members && db.members[Key(u, t)].role == Some(r)) {
      var row :| row in db.roleRows && row.tenant == t && row.role == r && Key(row.user, t) == Key(u, t);
      assert row == RoleRow(u, t, r, row.scope);
    }
  }

  /** Nobody holds the role exactly when nobody, former members included, refers to it in the tenant. */
  lemma UnheldExactly(db: Db, t: TenantId, r: RoleId)
    ensures HoldersIn(db, t, r) == {} <==> forall u :: !RefersTo(db, u, t, r)
  {
    forall u ensures Key(u, t) in HoldersIn(db, t, r) <==> RefersTo(db, u, t, r) {
      HoldersAreReferrers(db, t, r, u);
    }
    if HoldersIn(db, t, r) != {} {
      var k :| k in HoldersIn(db, t, r);
      assert k == Key(k.user, t);
    }
  }

  // ---- Invitations ----

  /** The role that an invitation offers, if any, is the tenant's own or `tenant_admin`, and does not carry `admin:*`. */
  predicate MayOffer(db: Db, t: TenantId, offered: Option<RoleId>)
  {
    offered.Some? ==> OwnOrTenantAdmin(db, t, offered.value) && "admin:*" !in db.roles[offered.value].perms
  }

  /** Still active, not used, and not past its last moment. */
  predicate StillOpen(db: Db, i: InviteId, now: int)
  {
    i in db.invites && db.invites[i].active && db.invites[i].used == None && now <= db.invites[i].expires
  }

  lemma CreateInviteSucceedsExactly(s: State, t: TenantId, id: InviteId, inviter: UserId, email: string, offered: Option<RoleId>, expires: int)
    requires IsFresh(s.db, id) && t != "" && t != id
    ensures DoCreateInvite(s, t, id, inviter, email, offered, expires).ok <==> MayOffer(s.db, t, offered)
  {
  }

  lemma AcceptSucceedsExactly(s: State, i: InviteId, u: UserId, now: int)
    ensures DoAcceptInvite(s, i, u, now).ok <==>
              && StillOpen(s.db, i, now)
              && MayOffer(s.db, s.db.invites[i].tenant, s.db.invites[i].role)
              && Key(u, s.db.invites[i].tenant) !in s.db.members
  {
  }

  /** On the onboarding path the account's address must be the invited one; the offered role is not examined again. */
  lemma JoinSucceedsExactly(s: State, i: InviteId, u: UserId, now: int)
    ensures DoJoinByInvite(s, i, u, now).ok <==>
              && StillOpen(s.db, i, now)
              && u in s.db.accounts && SameButCase(s.db.invites[i].email, s.db.accounts[u].email)
              && Key(u, s.db.invites[i].tenant) !in s.db.members
  {
    if i in s.db.invites && u in s.db.accounts {
      LowerIdentifies(s.db.invites[i].email, s.db.accounts[u].email);
    }
  }

  lemma RevokeInviteSucceedsExactly(s: State, i: InviteId, requester: UserId, privileged: bool)
    ensures DoRevokeInvite(s, i, requester, privileged).ok <==> i in s.db.invites && (privileged || s.db.invites[i].invitedBy == requester)
    ensures DoRevokeInvite(s, i, requester, privileged).ok ==>
              var after := DoRevokeInvite(s, i, requester, privileged).state.db;
              && after == s.db.(invites := after.invites) && after.invites.Keys == s.db.invites.Keys
              && (forall now :: !StillOpen(after, i, now))
              && (forall j :: j in s.db.invites && j != i ==> after.invites[j] == s.db.invites[j])
  {
  }

  /** The sweep ends exactly the open invitations that have expired. */
  lemma SweptExactly(invites: map<InviteId, Invite>, now: int)
    ensures Swept(invites, now).Keys == invites.Keys
    ensures forall i :: i in invites ==>
              Swept(invites, now)[i] == invites[i].(active := invites[i].active && now <= invites[i].expires)
  {
  }

  /**
   * Inviting works: whoever is invited by the tenant can join under that address, in whatever case it is written, until the
   * invitation expires, and is then a member with the offered role and nothing more.
   */
  lemma InvitedCanJoin(s: State, t: TenantId, id: InviteId, inviter: UserId, email: string, offered: Option<RoleId>, expires: int, u: UserId, now: int)
    requires IsFresh(s.db, id) && t != "" && t != id && MayOffer(s.db, t, offered) && now <= expires
    requires u in s.db.accounts && SameButCase(email, s.db.accounts[u].email) && Key(u, t) !in s.db.members
    ensures var s1 := DoCreateInvite(s, t, id, inviter, email, offered, expires).state;
            && DoJoinByInvite(s1, id, u, now).ok && DoAcceptInvite(s1, id, u, now).ok
            && DoJoinByInvite(s1, id, u, now).state.db.members == s.db.members[Key(u, t) := Membership(offered, false, true)]
            && DoAcceptInvite(s1, id, u, now).state == DoJoinByInvite(s1, id, u, now).state
  {
    CreateInviteSucceedsExactly(s, t, id, inviter, email, offered, expires);
    var s1 := DoCreateInvite(s, t, id, inviter, email, offered, expires).state;
    JoinSucceedsExactly(s1, id, u, now);
    AcceptSucceedsExactly(s1, id, u, now);
  }

  // ---- Tenants ----

  /** A new organisation belongs to its founder, who holds the platform role `tenant_admin` in it if there is one. */
  lemma FounderOwns(s: State, u: UserId, t: TenantId, slug: string, ownerRole: Option<RoleId>)
    requires IsFresh(s.db, t) && OwnerRoleFound(s.db, ownerRole)
    ensures DoCreateTenant(s, u, t, slug, ownerRole).ok <==> forall x :: x in s.db.slugs ==> s.db.slugs[x] != slug
    ensures DoCreateTenant(s, u, t, slug, ownerRole).ok ==>
              var after := DoCreateTenant(s, u, t, slug, ownerRole).state.db;
              && after.members == s.db.members[Key(u, t) := Membership(ownerRole, true, true)]
              && after.slugs == s.db.slugs[t := slug] && after.roles == s.db.roles
              && ((exists g :: g in s.db.roles && s.db.roles[g].tenant == None && s.db.roles[g].name == "tenant_admin") ==>
                    ownerRole.Some? && RefersTo(after, u, t, ownerRole.value) && s.db.roles[ownerRole.value].name == "tenant_admin")
  {
    if exists g :: g in s.db.roles && s.db.roles[g].tenant == None && s.db.roles[g].name == "tenant_admin" {
      var g :| g in s.db.roles && s.db.roles[g].tenant == None && s.db.roles[g].name == "tenant_admin";
      assert IsGlobalNamed(s.db, g, "tenant_admin");
    }
    assert slug in s.db.slugs.Values <==> exists x :: x in s.db.slugs && s.db.slugs[x] == slug;
  }

  // ---- The cache ----

  /** Exactly these entries go. */
  lemma EvictedExactly(cache: PermCache, keys: set<Key>, k: Key)
    ensures k in Evict(cache, keys) <==> k in cache && k !in keys
    ensures k in Evict(cache, keys) ==> Evict(cache, keys)[k] == cache[k]
  {
  }

  /** A read serves a listing of the resolution, and leaves it in the cache for a member and for nobody else. */
  lemma ReadFillsExactly(s: State, u: UserId, t: TenantId)
    requires Key(u, t) !in s.cache
    ensures Ascending(ReadList(s, u, t)) && Elements(ReadList(s, u, t)) == Resolve(s.db, u, t, GLOBAL)
    ensures AfterRead(s, u, t).db == s.db
    ensures AfterRead(s, u, t).cache == if Key(u, t) in s.db.members then s.cache[Key(u, t) := ReadList(s, u, t)] else s.cache
  {
  }
}
