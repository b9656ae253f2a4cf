/**
 * Whole requests: a plain service operation, or one of the access-management requests, which judges the acting
 * user and then runs a plan of operations as one transaction.
 */
module Requests {
  import opened Listing
  import opened Model
  import opened Steps

  // ---- Plans run as one transaction ----

  /** The operations in order, up to the first refusal. */
  ghost function RunPlan(s: State, plan: seq<Op>): Outcome
    decreases |plan|
  {
    if plan == [] then Outcome(true, s)
    else
      var first := Do(s, plan[0]);
      if !first.ok then first else RunPlan(first.state, plan[1..])
  }

  /** A refusal rolls the database back; cache entries already deleted stay deleted. */
  ghost function Atomic(s: State, plan: seq<Op>): Outcome
  {
    var out := RunPlan(s, plan);
    if out.ok then out else Outcome(false, State(s.db, out.state.cache))
  }

  lemma SinglePlan(s: State, op: Op)
    ensures RunPlan(s, [op]) == Do(s, op)
  {
    assert [op][1..] == [];
  }

  // ---- The acting user ----

  datatype Authority = Authority(platformAdmin: bool, owner: bool, member: bool, tenantAdmin: bool)
  {
    predicate Manages()
    {
      platformAdmin || owner || tenantAdmin
    }
  }

  /** Some role the member refers to, in any scope, is called `name`. */
  ghost predicate HoldsNamed(db: Db, u: UserId, t: TenantId, name: string)
  {
    exists r :: RefersTo(db, u, t, r) && r in db.roles && db.roles[r].name == name
  }

  /** `authority`: decided from the (possibly cached) permission list and the names of the held roles. */
  ghost function AuthorityOf(s: State, actor: UserId, t: TenantId): Authority
  {
    var k := Key(actor, t);
    var member := k in s.db.members;
    Authority(
      member && PLATFORM_ADMIN in ReadList(s, actor, t),
      member && s.db.members[k].owner,
      member,
      member && HoldsNamed(s.db, actor, t, TENANT_ADMIN_ROLE))
  }

  // ---- Requests ----

  datatype Request =
    | Plain(op: Op)
    | MemberSave(tenant: TenantId, actor: UserId, user: UserId, primary: Option<RoleId>, roles: seq<RoleId>, perms: seq<PermName>, active: Option<bool>)
    | MemberRemove(tenant: TenantId, actor: UserId, user: UserId)
    | RoleSave(tenant: TenantId, actor: UserId, role: Option<RoleId>, newId: RoleId, name: string, desc: Option<string>, perms: seq<PermName>)
    | RoleDelete(tenant: TenantId, actor: UserId, roleId: RoleId)

  /** `list(dict.fromkeys(xs))`: first occurrences, in order. */
  function Dedup(xs: seq<string>): (r: seq<string>)
    ensures Elements(r) == Elements(xs)
  {
    if xs == [] then []
    else
      var front := Dedup(xs[..|xs| - 1]);
      var last := xs[|xs| - 1];
      assert xs == xs[..|xs| - 1] + [last];
      ElementsOfConcat(xs[..|xs| - 1], [last]);
      ElementsOfConcat(front, [last]);
      if last in front then front else front + [last]
  }

  /** The elements outside `drop`, in order. */
  function Without(xs: seq<string>, drop: set<string>): (r: seq<string>)
    ensures Elements(r) == Elements(xs) - drop
    ensures |r| <= |xs|
  {
    if xs == [] then []
    else
      assert xs == [xs[0]] + xs[1..];
      ElementsOfConcat([xs[0]], xs[1..]);
      var head := if xs[0] in drop then [] else [xs[0]];
      ElementsOfConcat(head, Without(xs[1..], drop));
      head + Without(xs[1..], drop)
  }

  function Chosen(o: Option<string>): set<string>
  {
    if o.Some? then {o.value} else {}
  }

  /** An empty identifier counts as none. */
  function NonEmpty(o: Option<string>): Option<string>
  {
    if o == Some("") then None else o
  }

  // ---- member_save ----

  /** Roles of the member's global rows. */
  function ExtraRoles(db: Db, u: UserId, t: TenantId): set<RoleId>
  {
    set row | row in db.roleRows && row.user == u && row.tenant == t && row.scope == GLOBAL :: row.role
  }

  /** Permissions of the member's global rows. */
  function DirectPerms(db: Db, u: UserId, t: TenantId): set<PermName>
  {
    set row | row in db.permRows && row.user == u && row.tenant == t && row.scope == GLOBAL :: row.perm
  }

  function PrimaryOf(db: Db, u: UserId, t: TenantId): Option<RoleId>
  {
    if Key(u, t) in db.members then db.members[Key(u, t)].role else None
  }

  /** The supplementary roles a member's record shows: the global rows other than the primary role. */
  function ListedRoles(db: Db, u: UserId, t: TenantId): set<RoleId>
  {
    ExtraRoles(db, u, t) - Chosen(PrimaryOf(db, u, t))
  }

  function WantedExtra(req: Request): seq<RoleId>
    requires req.MemberSave?
  {
    Without(Dedup(req.roles), Chosen(NonEmpty(req.primary)))
  }

  predicate PrimaryChanges(db: Db, req: Request)
    requires req.MemberSave?
  {
    NonEmpty(req.primary) != PrimaryOf(db, req.user, req.tenant)
  }

  predicate ShownActive(db: Db, u: UserId, t: TenantId)
    requires Key(u, t) in db.members
  {
    (u in db.accounts ==> db.accounts[u].active) && db.members[Key(u, t)].enabled
  }

  predicate StatusChanges(db: Db, req: Request)
    requires req.MemberSave? && Key(req.user, req.tenant) in db.members
  {
    req.active.Some? && req.active.value != ShownActive(db, req.user, req.tenant)
  }

  function DroppedRoles(db: Db, req: Request): set<RoleId>
    requires req.MemberSave?
  {
    ListedRoles(db, req.user, req.tenant) - Elements(WantedExtra(req))
  }

  function DroppedPerms(db: Db, req: Request): set<PermName>
    requires req.MemberSave?
  {
    DirectPerms(db, req.user, req.tenant) - Elements(req.perms)
  }

  /** Nobody but the platform administrator changes their own access, and nobody disables the owner or themselves. */
  predicate MemberSaveAllowed(db: Db, req: Request, platformAdmin: bool)
    requires req.MemberSave? && Key(req.user, req.tenant) in db.members
  {
    && (StatusChanges(db, req) ==> !db.members[Key(req.user, req.tenant)].owner && req.user != req.actor)
    && (req.user == req.actor && !platformAdmin
        ==> !PrimaryChanges(db, req) && DroppedRoles(db, req) == {} && DroppedPerms(db, req) == {})
  }

  function PrimaryPart(db: Db, req: Request): seq<Op>
    requires req.MemberSave?
  {
    if !PrimaryChanges(db, req) then []
    else match NonEmpty(req.primary)
      case None => [ClearPrimary(req.user, req.tenant)]
      case Some(r) => [AssignPrimary(req.user, req.tenant, r)]
  }

  function StatusPart(db: Db, req: Request): seq<Op>
    requires req.MemberSave? && Key(req.user, req.tenant) in db.members
  {
    if StatusChanges(db, req) then [SetStatus(req.user, req.tenant, req.active.value)] else []
  }

  function Adding(u: UserId, t: TenantId, roles: seq<RoleId>): seq<Op>
  {
    seq(|roles|, i requires 0 <= i < |roles| => AddRole(u, t, roles[i], GLOBAL))
  }

  function Removing(u: UserId, t: TenantId, roles: seq<RoleId>): seq<Op>
  {
    seq(|roles|, i requires 0 <= i < |roles| => RemoveRole(u, t, roles[i], GLOBAL))
  }

  function Granting(u: UserId, t: TenantId, perms: seq<PermName>): seq<Op>
  {
    seq(|perms|, i requires 0 <= i < |perms| => GrantPerm(u, t, perms[i], None))
  }

  function Revoking(u: UserId, t: TenantId, perms: seq<PermName>): seq<Op>
  {
    seq(|perms|, i requires 0 <= i < |perms| => RevokePerm(u, t, perms[i]))
  }

  function AddPart(db: Db, req: Request): seq<Op>
    requires req.MemberSave?
  {
    Adding(req.user, req.tenant, Without(WantedExtra(req), ListedRoles(db, req.user, req.tenant)))
  }

  ghost function DropPart(db: Db, req: Request): seq<Op>
    requires req.MemberSave?
  {
    Removing(req.user, req.tenant, Without(Sorted(ListedRoles(db, req.user, req.tenant)), Elements(WantedExtra(req))))
  }

  function GrantPart(db: Db, req: Request): seq<Op>
    requires req.MemberSave?
  {
    Granting(req.user, req.tenant, Without(Dedup(req.perms), DirectPerms(db, req.user, req.tenant)))
  }

  ghost function RevokePart(db: Db, req: Request): seq<Op>
    requires req.MemberSave?
  {
    Revoking(req.user, req.tenant, Without(Sorted(DirectPerms(db, req.user, req.tenant)), Elements(req.perms)))
  }

  /** Only the difference between what the member has and what is asked for. */
  ghost function MemberPlan(db: Db, req: Request): seq<Op>
    requires req.MemberSave? && Key(req.user, req.tenant) in db.members
  {
    (PrimaryPart(db, req) + StatusPart(db, req)) + (AddPart(db, req) + DropPart(db, req)) + (GrantPart(db, req) + RevokePart(db, req))
  }

  // ---- role_save and role_delete ----

  predicate IsSpace(c: char)
  {
    c == ' ' || '\t' <= c <= '\r' || '\U{1C}' <= c <= '\U{1F}'
  }

  /** `str.strip()` on ASCII white space. */
  function Strip(s: string): (r: string)
    ensures |r| <= |s|
  {
    if s == "" then s
    else if IsSpace(s[0]) then Strip(s[1..])
    else if IsSpace(s[|s| - 1]) then Strip(s[..|s| - 1])
    else s
  }

  const MAX_NAME := 100
  const MAX_DESCRIPTION := 500

  predicate CleanName(name: string)
  {
    Strip(name) != "" && |Strip(name)| <= MAX_NAME
  }

  predicate CleanDescription(desc: Option<string>)
  {
    desc.Some? ==> |Strip(desc.value)| <= MAX_DESCRIPTION
  }

  /** A tenant sees its own roles and the global ones. */
  predicate Visible(db: Db, t: TenantId, r: RoleId)
  {
    r in db.roles && (db.roles[r].tenant == None || db.roles[r].tenant == Some(t))
  }

  predicate IsPlatformRole(db: Db, r: RoleId)
  {
    r in db.roles && db.roles[r].tenant == None
  }

  /** No other visible role carries this name, ignoring case. */
  predicate NameIsFree(db: Db, t: TenantId, name: string, except: Option<RoleId>)
  {
    forall r :: r in db.roles && Visible(db, t, r) && Some(r) != except ==> Lower(db.roles[r].name) != Lower(name)
  }

  /** The requested permissions may all be delegated. */
  predicate AllDelegable(db: Db, perms: seq<PermName>)
  {
    forall n :: n in perms ==> Delegable(db, n)
  }

  function Taking(t: TenantId, r: RoleId, perms: seq<PermName>): seq<Op>
  {
    seq(|perms|, i requires 0 <= i < |perms| => RemovePermFromRole(t, r, perms[i]))
  }

  function Giving(t: TenantId, r: RoleId, perms: seq<PermName>): seq<Op>
  {
    seq(|perms|, i requires 0 <= i < |perms| => AddPermToRole(t, r, perms[i], None))
  }

  /** The role's new name, then the permissions it loses and those it gains. */
  ghost function EditPlan(db: Db, t: TenantId, r: RoleId, name: string, perms: seq<PermName>): seq<Op>
    requires r in db.roles
  {
    ([RenameRole(t, r, name)] + Taking(t, r, Sorted(db.roles[r].perms - Elements(perms))))
    + Giving(t, r, Sorted(Elements(perms) - db.roles[r].perms))
  }

  function WithPerms(db: Db, r: RoleId, perms: set<PermName>): Db
    requires r in db.roles
  {
    UpdateRole(db, r, db.roles[r].(perms := perms))
  }

  // ---- Decisions ----

  /** What xauth makes of a request once it knows who asks. */
  datatype Decision =
    | Deny
    | Perform(plan: seq<Op>)
    | EditPlatformRole(role: RoleId, perms: seq<PermName>)

  /** For a role of the organisation: delegable permissions only, and a name nobody else sees. */
  ghost function DecideTenantRole(db: Db, req: Request): Decision
    requires req.RoleSave?
  {
    var title := Strip(req.name);
    if !AllDelegable(db, req.perms) then Deny
    else match req.role
      case None =>
        if !NameIsFree(db, req.tenant, title, None) then Deny
        else Perform([CreateRole(req.tenant, req.newId, title, Dedup(req.perms), None)])
      case Some(r) =>
        if r !in db.roles || (title != db.roles[r].name && !NameIsFree(db, req.tenant, title, Some(r))) then Deny
        else Perform(EditPlan(db, req.tenant, r, title, req.perms))
  }

  /** For a platform role: the platform administrator only, under the same name, with active permissions. */
  ghost function DecidePlatformRole(db: Db, req: Request, who: Authority, r: RoleId): Decision
    requires req.RoleSave? && r in db.roles
  {
    if !who.platformAdmin || Strip(req.name) != db.roles[r].name || (exists n :: n in req.perms && !IsActive(db, n)) then Deny
    else EditPlatformRole(r, req.perms)
  }

  ghost function DecideRoleSave(db: Db, req: Request, who: Authority): Decision
    requires req.RoleSave?
  {
    if !who.Manages() || !CleanName(req.name) || !CleanDescription(req.desc) then Deny
    else if req.role.Some? && !Visible(db, req.tenant, req.role.value) then Deny
    else if req.role.Some? && IsPlatformRole(db, req.role.value) then DecidePlatformRole(db, req, who, req.role.value)
    else DecideTenantRole(db, req)
  }

  ghost function Decide(db: Db, req: Request, who: Authority): Decision
    requires !req.Plain?
  {
    match req
    case MemberSave(t, _, u, _, _, _, _) =>
      if !who.Manages() || Key(u, t) !in db.members || !MemberSaveAllowed(db, req, who.platformAdmin) then Deny
      else Perform(MemberPlan(db, req))
    case MemberRemove(t, actor, u) =>
      if !who.Manages() || Key(u, t) !in db.members || db.members[Key(u, t)].owner || u == actor then Deny
      else Perform([RemoveMember(u, t)])
    case RoleSave(_, _, _, _, _, _, _) =>
      DecideRoleSave(db, req, who)
    case RoleDelete(t, _, r) =>
      if !who.Manages() || !Visible(db, t, r) || IsPlatformRole(db, r) || HoldersIn(db, t, r) != {} then Deny
      else Perform([DeleteRole(t, r)])
  }

  /** A platform role gets exactly these permissions; only the asking tenant's cache is cleared. */
  function DoPlatformSave(s: State, t: TenantId, r: RoleId, perms: seq<PermName>): State
    requires r in s.db.roles
  {
    State(WithPerms(s.db, r, Elements(perms)), Evict(s.cache, MembersOf(s.db, t)))
  }

  ghost function CarryOut(s: State, t: TenantId, decision: Decision): Outcome
  {
    match decision
    case Deny => Refused(s)
    case Perform(plan) => Atomic(s, plan)
    case EditPlatformRole(r, perms) => if r in s.db.roles then Outcome(true, DoPlatformSave(s, t, r, perms)) else Refused(s)
  }

  /** Judging the actor reads, and may fill, the actor's cache entry; then the decision is carried out. */
  ghost function Exec(s: State, req: Request): Outcome
  {
    if req.Plain? then Do(s, req.op)
    else CarryOut(AfterRead(s, req.actor, req.tenant), req.tenant, Decide(s.db, req, AuthorityOf(s, req.actor, req.tenant)))
  }

  /** Everything but the edit of a platform role, which is shared by all tenants. */
  predicate TenantLevel(db: Db, req: Request)
  {
    req.RoleSave? && req.role.Some? ==> !IsPlatformRole(db, req.role.value)
  }

  function RequestActsIn(db: Db, req: Request): Option<TenantId>
  {
    if req.Plain? then ActsIn(db, req.op) else Some(req.tenant)
  }
}
