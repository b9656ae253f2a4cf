# Who may do what in xauth: a verified model

xauth keeps the accounts, organisations (tenants), roles, permissions, sessions and invitations of a host application. This
project models the parts of it that decide access, and proves what those parts promise over whole runs.

* **Roles and permissions.** `Model` holds the tables and the declarative resolution `Resolve(db, user, tenant, scope)`.
  `Steps` gives every tenant-level operation as a transition of (database, permission cache), `Requests` the
  access-management requests that judge the acting user and then run several operations as one transaction. `Services` and
  `Iam` are the classes that do the same work by changing fields in loops, as the program does; each method is proved to
  leave exactly the state of its transition. On top of them stand tenant isolation (`Isolation`), cache coherence
  (`Coherence`, `Runs`), delegation bounds (`Delegation`), what `member_save`, `role_save` and `role_delete` achieve
  (`MemberAccess`, `RoleEdits`), what each grant and revocation does to the effective permissions (`Effects`), role names
  (`RoleNames`), who may manage and what each request needs (`Managers`, `Conditions`), how people become members
  (`Joining`), invitations (`Invites`), former members who come back (`Returning`) and the age of a served list when
  nothing invalidates (`Staleness`).
* **Plugins and the seed.** `Grants` and `Seed` say what declarations, unloads and the seed make of the catalogue and of the
  platform roles, and `Declarations` what each entry of a declaration does; `GrantService` and `SeedService` are the loops that do it. `Boot` proves that the state after a first
  start, seed, founder and declarations, is one that every run theorem starts from.
* **Sessions.** `Sessions`, `Blacklist` and `AccessTokens` hold the rotation of refresh tokens and the fate of access tokens;
  `SessionService` is the class that revokes, overwrites and adds the rows.
* **Rate limiter and external sign-in.** `RateLimit` (class and bounds), `OAuth` and `OAuthService`.

The central argument: an operation clears the cache only for one member or for the members of one organisation. That is
enough because no role of one organisation is ever held, or offered, in another (`Isolated`). Isolation and coherence are
therefore kept together, step by step, request by request and over every run of requests.

Conditions of success are stated twice: the operations decide with predicates of their own, and `Conditions`, `Managers`,
`Joining`, `Declarations` and `AccessTokens` say of the rows alone when they succeed and what they leave.

Conventions. Identifiers, tokens and clock readings that the program draws or reads are parameters; a new identifier is one
that never occurred before. A refused request leaves the database as it was, while cache entries it already deleted stay
deleted. Permissions are identified by their unique name. Operations named `Do…` return the state they leave.

Verify with `dafny verify dfyconfig.toml` (Dafny 4.11).

## Where the code differs from what one would expect

* `member_save` does not always do what it is asked: making a current supplementary role the primary one leaves the member
  without the role (`PromotionLosesTheRole`), a primary role that was also a supplementary row survives as that row when it
  is replaced (`DemotionKeepsTheRole`), and disabling the enabled membership of an inactive account leaves it enabled
  (`DisablingIsLost`). `MemberSaveMeetsRequest` states exactly when the request is met.
* Seeding again changes nothing exactly when the roles that it finds by name are in synchrony (`ReseedExactly`); two
  platform roles of one name may be found in turn (`TwinsAreSeededInTurn`).
* A role row with a scope identifier but no scope kind is stored and then counts for no query (`KindlessRowIsInvisible`).
* Removing a member deletes the membership and leaves its rows: whoever comes back by invitation has all former
  supplementary roles and direct permissions again, however long they stayed away (`ReturningRevivesRows`).
* A disabled membership keeps all permissions and the right to manage (`DisablingTakesNothing`).
* The names of several built-in permissions begin with a namespace that is not reserved: a plugin called `invites` may
  declare `invites:read`, which makes it the plugin's, and its unload switches it off for everybody (`BuiltInTakenOver`).
* An exchange of the refresh token leaves the earlier access token alone: no later logout or revocation rejects it, it runs
  out by itself (`ReplacedAccessTokenRunsOut`).
* 300 seconds bound the age of a served list only if reading the rows and writing the cache take no time
  (`AtomicRequestsServeWithinTtl`); otherwise the latency of one request adds to it, and it cannot be left out
  (`ServedIsRecent`, `LatencyCounts`).
* The revocation of all sessions after a password change blacklists no access token (`InvalidateAllSparesAccessTokens`).
* The pattern for grant names ends in `$`, which also matches before a final newline; `MatchesGrantPattern` follows it.

## Model

| member | source | states |
|---|---|---|
| Services.AccessServices.GetPermissionsForUser | src/services/rbac/permissions.py:43-107 | the loops over rows and roles return the sorted, duplicate-free listing of the declarative resolution; unscoped queries go through the cache and fill it, scoped ones leave it alone |
| Services.CollectedIsResolved | src/services/rbac/permissions.py:61-97 | the names collected from counting rows and counting roles are exactly the effective permissions |
| Listing.SortNames | src/services/rbac/permissions.py:97-97 | the sorting returns the one strictly ascending sequence with these elements |
| Listing.AscendingIsUnique | src/services/rbac/permissions.py:97-97 | two ascending listings of the same names are equal, so a cached list can be compared with a fresh one |
| Model.GlobalInEveryScope | src/repositories/rbac.py:84-110 | what is effective globally is effective in every scope |
| Model.KindlessIsGlobal | src/repositories/rbac.py:164-191 | a query without scope kind is the global query, whatever scope identifier comes with it |
| Model.SameViewResolves | src/services/rbac/permissions.py:61-97 | the resolution depends on nothing but the member's own rows, the roles they refer to and the catalogue |
| Services.AccessServices.InvalidateCache | src/services/rbac/permissions.py:189-195 | exactly one member's entry goes |
| Services.AccessServices.InvalidateTenantCache | src/services/rbac/roles.py:213-217 | exactly the entries of the tenant's current members go |
| Services.AccessServices.AssignRoleToMember | src/services/rbac/roles.py:74-88 | success exactly for a member and an assignable role; new primary role, entry evicted, nothing else |
| Services.AccessServices.ClearPrimaryRole | src/services/iam.py:331-335 | the primary role goes, and the member's cache entry with it |
| Services.AccessServices.SetMemberStatus | src/services/iam.py:338-341 | the membership is enabled or disabled and the entry evicted |
| Services.AccessServices.AddRoleToMember | src/services/rbac/members.py:42-76 | an assignable role becomes a row of its scope for a member; a row that is there already is left alone |
| Services.AccessServices.RemoveRoleFromMember | src/services/rbac/members.py:78-105 | the row of the scope goes; without a scope the same role as primary is cleared too |
| Services.AccessServices.GrantPermissionToMember | src/services/rbac/permissions.py:134-173 | success exactly for a delegable, entitled permission and a member |
| Services.AccessServices.RevokePermissionFromMember | src/services/rbac/permissions.py:175-187 | the global row goes, and tells whether there was one |
| Services.AccessServices.RemoveMembership | src/services/iam.py:360-371 | the membership goes, the rows stay behind, the entry is evicted |
| Services.AccessServices.CreateTenantRole | src/services/rbac/roles.py:90-120 | one undelegable permission refuses the whole role; otherwise a role of the tenant with exactly these permissions |
| Services.AccessServices.AddPermissionToTenantRole | src/services/rbac/roles.py:156-177 | only for an owned role and a delegable permission; the tenant's entries are evicted |
| Services.AccessServices.RemovePermissionFromTenantRole | src/services/rbac/roles.py:179-188 | only for an owned role; exactly this permission leaves, the tenant's entries are evicted |
| Services.AccessServices.RenameTenantRole | src/services/iam.py:192-195 | only the name of an owned role changes |
| Services.AccessServices.AssignPermissionToRole | src/services/rbac/roles.py:39-55 | the platform variant adds one permission to any role and evicts nothing |
| Services.AccessServices.RemovePermissionFromRole | src/services/rbac/roles.py:57-72 | the platform variant takes one permission from any role and evicts nothing |
| Services.AccessServices.DeleteTenantRole | src/services/rbac/roles.py:190-203 | primary uses cleared, the tenant's rows deleted, holders evicted, the role gone; a remaining foreign key refuses it |
| Services.AccessServices.Holders | src/services/iam.py:248-256 | counts each member or former member that holds the role once |
| Services.AccessServices.GetRolesForUser | src/services/rbac/members.py:20-40 | no name twice, and exactly the names of the roles a member refers to in any scope |
| Services.AccessServices.CreateInvite | src/services/invite.py:51-76 | only an offerable role is offered; one new active invitation |
| Services.AccessServices.RevokeInvite | src/services/invite.py:137-150 | the inviter or a privileged requester marks it inactive |
| Services.AccessServices.AcceptInvite | src/services/invite.py:78-122 | usable, still offerable and not yet a member: one membership, the invitation used up |
| Services.AccessServices.JoinByInvite | src/services/auth/onboarding.py:118-153 | usable, for the invited address ignoring case, and not yet a member; the offered role is not examined again |
| Services.AccessServices.DeactivateExpired | src/repositories/invite.py:37-47 | exactly the active expired invitations are marked, and counted |
| Services.AccessServices.CreateTenant | src/services/auth/onboarding.py:47-78 | a free slug gives a tenant whose owner holds the global `tenant_admin` role, if that exists |
| Conditions.LowerIdentifies | src/services/iam.py:168-171 | case folding identifies exactly the texts that differ in ASCII letter case alone |
| Conditions.StripMeans | src/services/iam.py:84-94 | stripping leaves what lies between the white space at both ends |
| Conditions.AssignSucceedsExactly | src/services/rbac/roles.py:74-88 | a member, and the tenant's own role or `tenant_admin`; only the primary role changes |
| Conditions.AddRoleSucceedsExactly | src/services/rbac/members.py:42-60 | a member, and the tenant's own role or `tenant_admin` |
| Conditions.TenantAdminCanBeHandedOut | src/services/rbac/roles.py:141-154 | `tenant_admin` can be given to every member, as primary and as further role |
| Conditions.GrantSucceedsExactly | src/services/rbac/permissions.py:142-158 | a member, and an active, delegable, entitled permission; exactly one global row |
| Conditions.CreateRoleSucceedsExactly | src/services/rbac/roles.py:107-118 | every permission is active, delegable and entitled |
| Conditions.RoleEditsSucceedExactly | src/services/rbac/roles.py:132-188 | only the tenant's own roles, and only permissions that it may hand out |
| Conditions.AddPermLeaves | src/services/rbac/roles.py:172-177 | the permission joins this role and nothing else changes |
| Conditions.RemovePermLeaves | src/services/rbac/roles.py:179-188 | a known permission leaves this role and nothing else changes |
| Conditions.RenameLeaves | src/services/iam.py:192-195 | the new name replaces the old one and nothing else changes |
| Conditions.UnheldExactly | src/services/iam.py:248-256 | no holder is counted exactly when nobody, former members included, refers to the role in the tenant |
| Conditions.CreateInviteSucceedsExactly | src/services/invite.py:26-49 | the offered role is the tenant's own or `tenant_admin`, without `admin:*` |
| Conditions.AcceptSucceedsExactly | src/services/invite.py:78-105 | still open, offerable, and not yet a member |
| Conditions.JoinSucceedsExactly | src/services/auth/onboarding.py:118-143 | still open, not yet a member, and the account's address is the invited one but for letter case |
| Conditions.RevokeInviteSucceedsExactly | src/services/invite.py:137-150 | the inviter or a privileged requester; the invitation is open at no moment afterwards, all others stay |
| Conditions.SweptExactly | src/repositories/invite.py:37-47 | the sweep marks exactly the expired ones |
| Conditions.InvitedCanJoin | src/services/invite.py:51-122 | an invitation round trip: the invited address joins until expiry and is a member with the offered role |
| Conditions.FounderOwns | src/services/auth/onboarding.py:47-75 | a free slug gives a tenant whose founder is owner and holds `tenant_admin` if it exists |
| Conditions.EvictedExactly | src/services/rbac/permissions.py:189-195 | exactly these cache entries go |
| Conditions.ReadFillsExactly | src/services/rbac/permissions.py:53-105 | a miss serves the sorted resolution and caches it for members only |
| Listing.BeforeExactly | src/services/rbac/permissions.py:97-97 | the order of the listing is that of code points at the first difference |
| Managers.JudgedByTables | src/services/iam.py:51-66 | managing means owner, effective `admin:*`, or a role called `tenant_admin`, whatever a coherent cache holds |
| Managers.OnlyManagersAct | src/services/iam.py:118-124 | a request of anybody else fails and changes no table |
| Managers.PowerlessRunChangesNothing | src/services/iam.py:118-124 | nor does any run of such requests |
| Managers.MemberRemoveExactly | src/services/iam.py:360-371 | a manager, another member than themselves, and not the owner; exactly that membership goes |
| Managers.RoleDeleteExactly | src/services/iam.py:235-256 | a manager, an own role that nobody refers to, no invitation in the way |
| Managers.RoleCreateExactly | src/services/iam.py:173-186 | a manager, a name of 1 to 100 characters that nobody visible has in any case, permissions that may be handed out |
| Managers.RoleUpdateExactly | src/services/iam.py:173-200 | the same for an own role, whose name may stay |
| Managers.PlatformEditExactly | src/services/iam.py:210-233 | a member with effective `admin:*`, the same name, active permissions |
| Managers.PlatformEditEvicts | src/services/iam.py:231-232 | clears the entries of the asking organisation's members and no others |
| Managers.MemberSaveExactly | src/services/iam.py:311-356 | a manager and a member; owner and self protected; everything new may be handed out |
| Managers.AsRequestedMeans | src/services/iam.py:313-320 | what it means that the request is met, row by row |
| Managers.RunKeepsOwners | src/services/iam.py:325-326 | over any tenant-level run of access-management requests owners stay owners, enabled or not as they were |
| Managers.OwnAccessIsKept | src/services/iam.py:327-329 | nobody but a platform administrator loses own permissions, in any scope, by saving their own access |
| Managers.DisablingTakesNothing | src/services/iam.py:338-341 | disabling a membership changes neither permissions nor the right to manage |
| Joining.NewMembersAreBrought | src/services/auth/onboarding.py:118-153 | one request adds a member only by founding, accepting, or joining under the invited address |
| Joining.EveryMemberWasBroughtIn | src/services/invite.py:78-122 | so does every run |
| Isolation.StaysSound | src/services/rbac/roles.py:132-203 | every operation keeps references well-formed and every held or offered role within its tenant |
| Isolation.TouchesActingTenant | src/services/rbac/roles.py:156-217 | whatever an operation may change for a member lies in the tenant it acts in |
| Isolation.OwnRolesStayHome | src/services/rbac/roles.py:132-154 | nobody outside tenant T refers to a role that T owns |
| Isolation.OtherTenantsUnaffected | src/services/rbac/roles.py:156-203 | an operation in one tenant leaves every resolution in every other tenant and scope unchanged |
| Coherence.TouchedAreEvicted | src/services/rbac/roles.py:213-217 | every member whose resolution an operation may change loses the cache entry |
| Coherence.StaysCoherent | src/services/rbac/permissions.py:43-107 | in a sound database every operation keeps each entry equal to the uncached resolution of a current member |
| Coherence.CachedIsUncached | src/services/rbac/permissions.py:53-59 | in a coherent state a hit returns what a miss would compute |
| Runs.RequestKeeps | src/services/iam.py:173-371 | each request keeps isolation and coherence and changes no resolution in a tenant it does not act in |
| Runs.RequestStaysSound | src/services/iam.py:210-233 | edits of platform roles included, every request keeps isolation |
| Runs.RunStaysGood | src/services/rbac/roles.py:156-217 | isolation and coherence hold in every state a run of tenant-level requests reaches |
| Runs.RunServesUncached | src/services/rbac/permissions.py:43-107 | after any run, cached and uncached resolution agree for every user and tenant, and only members have entries |
| Runs.RunKeepsOutside | src/services/invite.py:26-49 | runs that keep out of a tenant change no resolution in it, in any scope |
| Runs.CachedRunRefinesUncached | src/services/rbac/permissions.py:99-105 | with the cache, a run leaves the same database as a system that never caches, so every actor is judged the same |
| Iam.IamService.GetAuthority | src/services/iam.py:106-116 | platform administrator, owner, member and tenant administrator, as the resolution and the held role names say |
| Iam.IamService.MemberSave | src/services/iam.py:298-358 | the loops leave exactly the state, outcome and cache of the atomic request |
| Iam.IamService.MemberRemove | src/services/iam.py:360-371 | never the owner, never oneself; otherwise exactly the membership goes |
| Iam.IamService.RoleSave | src/services/iam.py:173-233 | creating, editing and the platform branch leave exactly the state of the request |
| Iam.IamService.RoleDelete | src/services/iam.py:235-246 | refuses held and platform roles, otherwise deletes |
| Iam.IamService.SavePlatformRole | src/services/iam.py:210-233 | the two loops leave the role with exactly the requested permissions and evict the asking tenant only |
| Iam.IamService.IsNameFree | src/services/iam.py:168-171 | no other visible role has this name, ignoring case |
| Iam.IamService.Undelegable | src/services/iam.py:154-166 | exactly the requested names that may not be delegated |
| MemberAccess.MemberPlanEffect | src/services/iam.py:321-356 | the differences are carried out exactly when everything newly handed out is allowed, and leave a given database |
| MemberAccess.MemberSaveOutcome | src/services/iam.py:298-358 | the exact condition of success, and the exact database afterwards |
| MemberAccess.MemberSaveMeetsRequest | src/services/iam.py:311-358 | on success primary role, extra roles, permissions and status are as requested if and only if the new primary was no listed extra row, the old one not duplicated, and no enabled membership of an inactive account was to be disabled; scoped rows and other members untouched |
| MemberAccess.SavedStatus | src/services/iam.py:324-341 | the status afterwards, in the membership and as the member's record shows it; not asked for, it stays |
| MemberAccess.PromotionLosesTheRole | src/services/rbac/members.py:96-101 | an accepted request after which the member holds the requested role in no way |
| MemberAccess.DemotionKeepsTheRole | src/services/iam.py:275-296 | an accepted request for no role after which the member still holds the old primary role as a row |
| MemberAccess.DisablingIsLost | src/services/iam.py:324-341 | an accepted request to disable after which the membership is still enabled |
| RoleEdits.RoleUpdateMeetsRequest | src/services/iam.py:173-208 | the exact condition of success, and then exactly the requested name and permissions in this role and no other change |
| RoleEdits.RoleCreateMeetsRequest | src/services/iam.py:173-186 | success exactly for a clean, free name and delegable permissions; exactly one new role |
| RoleEdits.PlatformRoleMeetsRequest | src/services/iam.py:210-233 | the platform administrator only, same name, active permissions; then exactly these |
| RoleEdits.RoleDeleteOutcome | src/services/iam.py:235-256 | succeeds exactly for an owned role that nobody, former members included, holds and no invitation blocks |
| RoleEdits.RoleDeleteTakesNothing | src/services/iam.py:235-256 | no deletion changes anybody's effective permissions anywhere |
| Effects.AddRoleAddsItsPermissions | src/services/rbac/members.py:42-76 | an extra role adds exactly its active permissions, in exactly the scopes where its row counts |
| Effects.ScopedEditStaysInScope | src/repositories/rbac.py:84-110 | adding or removing in one scope leaves all other scopes and the global result alone |
| Effects.KindlessRowIsInvisible | src/repositories/rbac.py:95-110 | a row with a scope identifier but no kind counts nowhere |
| Effects.GrantAddsOne | src/services/rbac/permissions.py:134-173 | a direct grant adds this permission and no other, in every scope |
| Effects.RevokeTakesOne | src/services/rbac/permissions.py:175-187 | a revocation takes it away unless a role or a scoped grant still gives it |
| Effects.RevokeUndoesGrant | src/services/rbac/permissions.py:134-187 | granting and revoking restores the database |
| Effects.RolePermReachesHolders | src/services/rbac/roles.py:156-177 | a permission added to a role reaches exactly its holders, in the scopes where they hold it |
| Effects.PrimaryAddsItsPermissions | src/services/rbac/permissions.py:66-95 | a member has what remains without a primary role plus exactly what the primary role gives |
| Effects.AssignReplacesPrimary | src/services/rbac/roles.py:74-88 | assigning a primary role replaces exactly what the old one gave, in every scope |
| Effects.RemoveRoleTakesIt | src/services/rbac/members.py:78-105 | an unscoped removal leaves no global hold on the role and takes exactly what it gave |
| Effects.RemoveScopedRoleTakesIt | src/services/rbac/members.py:78-94 | a scoped removal takes what the role gave in that scope, unless it is held globally |
| Effects.DeletionTakesFromHolders | src/services/rbac/roles.py:190-203 | deleting a role leaves no reference to it in its tenant and takes from each holder exactly what it gave |
| Effects.RolePermTakenFromHolders | src/services/rbac/roles.py:179-188 | a permission taken from a role is lost by exactly those whom nothing else gives it |
| Effects.JoiningAddsToRows | src/services/auth/onboarding.py:144-153 | whoever joins has what the offered role gives and whatever rows are there already |
| Returning.RequestSpares | src/services/iam.py:235-256 | no access-management request, and no plain one but the named exceptions, changes a former member's rows |
| Returning.ReturningRevivesRows | src/services/iam.py:360-371 | over any run away a former member has nothing, and on joining by an invitation what the former rows give plus the offered role |
| Returning.ReturningRestores | src/services/iam.py:360-371 | with catalogue and roles unchanged, that is everything the member had but for the former primary role |
| Delegation.EventConfined | src/services/rbac/roles.py:141-166 | each request, declaration or unload hands out only what was delegable, and no platform role but `tenant_admin` |
| Delegation.RunConfined | src/services/rbac/roles.py:107-118 | over runs mixed with plugin events, each event adds only what was delegable just before it; so every organisation-held permission was there at the start or was delegable when some event added it |
| Delegation.SeedKeepsGuard | src/services/seed.py:255-343 | seeding an empty or guarded database leaves `admin:*` out of every organisation's reach |
| Delegation.RunKeepsAdminGuarded | src/services/rbac/grants.py:14-23 | over every run `admin:*` never becomes delegable and never enters an organisation's role, `tenant_admin` or a direct grant |
| Delegation.NoEscalation | src/services/rbac/permissions.py:142-147 | whoever resolves to `admin:*` after a run already held, at its start, the platform role that gives it |
| RoleNames.RequestKeepsNames | src/services/iam.py:168-193 | each request keeps the names a tenant sees distinct ignoring case |
| RoleNames.RunKeepsNames | src/services/iam.py:168-216 | over whole runs the visible names stay distinct |
| RoleNames.TenantAdminByNameIsByIdentity | src/services/rbac/members.py:20-40 | the global role persists, and after any run `tenant_admin` is among the role names exactly when the member refers to it |
| Staleness.RunStaysBacked | src/services/rbac/permissions.py:53-59 | with any writes, losses and failures, each entry is the resolution of a committed state, not older than its expiry allows |
| Staleness.ServedIsRecent | src/services/rbac/permissions.py:20-105 | every list served was right at a moment at most 300 seconds and one latency ago |
| Staleness.AtomicRequestsServeWithinTtl | src/services/rbac/permissions.py:20-20 | without latency, at most 300 seconds ago |
| Staleness.LatencyCounts | src/services/rbac/permissions.py:99-105 | for every positive latency there is a run that serves an older list |
| Invites.DeadInvitesCreateNothing | src/services/invite.py:84-97 | revoked, used and expired invitations create no membership in any later run |
| Invites.TakingUsesUp | src/services/auth/onboarding.py:144-153 | each success makes the one membership the invitation offers, and makes the invitation unusable |
| Invites.AtMostOneMembership | src/services/invite.py:78-122 | over both paths and any run an invitation makes at most one membership |
| Invites.SweepIsUnobservable | src/repositories/invite.py:37-47 | sweeping at any moment changes no later outcome of any request |
| Grants.PlatformAdminIsNoGrant | src/services/rbac/grants.py:14-23 | no plugin name makes `admin:*` an accepted grant |
| Grants.GrantFootprint | src/services/rbac/grants.py:18-23 | an accepted grant begins with its plugin's name and a colon |
| Declarations.GrantNameExactly | src/services/rbac/grants.py:14-15 | the pattern is: lower-case letters, digits, underscores in two or more colon-separated segments, and at most one final line break |
| Declarations.ValidGrantExactly | src/services/rbac/grants.py:14-23 | the pattern, none of the seven reserved namespaces, and the plugin's own prefix |
| Declarations.DeclaresExactly | src/main.py:207-246 | carried out exactly when the plugin is named and no role lookup is ambiguous |
| Declarations.DeclaredAsGranted | src/services/rbac/grants.py:41-51 | the last accepted entry of a name decides active, source, delegability, description and group |
| Declarations.UndeclaredStay | src/services/rbac/grants.py:53-58 | what no accepted entry names is switched off if the plugin's, and else untouched |
| Declarations.DelegableAsGranted | src/services/rbac/grants.py:45-51 | a permission of the plugin may be delegated exactly when its last accepted entry says so |
| Declarations.UnloadExactly | src/services/rbac/grants.py:66-75 | an unload switches exactly the plugin's permissions off |
| Declarations.RolesGainAsAsked | src/main.py:219-245 | which platform role gains which permission, entry by entry; nothing is lost, organisations' roles gain nothing |
| Declarations.BuiltInTakenOver | src/services/rbac/grants.py:14-14 | a plugin can take a built-in permission over and switch it off |
| Grants.ReconciledActive | src/services/rbac/grants.py:53-58 | afterwards the plugin's active permissions are exactly the accepted declared ones |
| Grants.DeclareIsIdempotent | src/services/rbac/grants.py:30-64 | declaring twice equals declaring once, and nothing is left to disable |
| Grants.ReloadRestores | src/main.py:207-257 | unloading a plugin and declaring its grants again restores the whole database |
| Grants.DisabledIsInvisible | src/services/rbac/permissions.py:76-95 | after an unload each resolution loses exactly the plugin's permissions |
| Grants.DeclarationsCommute | src/main.py:207-246 | declarations of different plugins commute on catalogue and roles |
| Grants.OrderDoesNotMatter | src/main.py:207-246 | any order of declarations of distinct plugins ends in the same database |
| GrantService.PluginGrantService.ReconcilePluginGrants | src/services/rbac/grants.py:30-64 | the two loops leave the declarative reconciliation and the two exact counts |
| GrantService.PluginGrantService.DisablePlugin | src/services/rbac/grants.py:66-75 | every permission of the plugin inactive, everything else as before, and the exact count |
| GrantService.PluginGrantService.CollectWanted | src/main.py:233-237 | the dictionary holds, for each role name but the administrator's, exactly the grants that ask for it |
| GrantService.PluginGrantService.OnDeclare | src/main.py:207-246 | the listener leaves the declared database, or the old one when a role lookup is ambiguous |
| Seed.SeededCatalogueMeaning | src/services/seed.py:178-217 | each definition is what the catalogue says afterwards, other entries are untouched, sources are kept |
| Seed.SeededRolesCarry | src/services/seed.py:148-173 | which permissions the three seeded roles carry, by name |
| Seed.SyncedIsStable | src/services/seed.py:220-242 | a second synchronisation adds and removes nothing |
| Seed.LookupsFromStart | src/services/seed.py:255-343 | with three names, the lookups find three roles, each as in the database the seed starts from |
| Seed.SeedIsIdempotent | src/services/seed.py:255-343 | a second pass, which looks the roles up again, finds the same ones and changes nothing, when no two platform roles share a name |
| Seed.ReseedExactly | src/services/seed.py:255-343 | in general a second pass changes nothing exactly when the roles that it finds are in synchrony |
| Seed.TwinsAreSeededInTurn | src/repositories/rbac.py:31-42 | of two platform roles of one name the second pass may find the other, and change it |
| Seed.DeclaredAdminRole | src/main.py:219-230 | declarations add to the administrator role exactly the active permissions of the declared plugins |
| Seed.BootConverges | src/services/seed.py:255-281 | after a seed every order of declarations ends in the same database, with administrator role = built-in catalogue + active plugin permissions |
| SeedService.RoleRecord.SyncPermissions | src/services/seed.py:220-242 | the list edited in place ends as (current ∩ target) ∪ (target ∩ catalogue) without duplicates, returns additions plus removals, and 0 exactly when unchanged |
| SeedService.SyncAddsUp | src/services/seed.py:232-242 | lengths and contents before, between and after the two loops add up to that count |
| SeedService.SeedRunner.SeedPermissions | src/services/seed.py:178-217 | the loop leaves the seeded catalogue and hands on its names |
| SeedService.SeedRunner.SeedRole | src/services/seed.py:260-281 | finds the platform role by name or creates it, and synchronises exactly its permissions |
| SeedService.SeedRunner.SeedAll | src/services/seed.py:255-343 | the whole seed leaves the seeded database, each role found by its name or new, and three different ones when the names differ |
| Boot.SeededIsSound | src/services/seed.py:403-424 | the database after a seed is well formed and isolated |
| Boot.SeededNamesDistinct | src/services/seed.py:255-343 | after a seed the visible names are distinct exactly when the three names were free to be used |
| Boot.FirstState | src/services/seed.py:346-424 | seed, founder and declarations on an empty database leave a state that every run theorem starts from |
| Boot.BootedRunServesUncached | src/services/rbac/permissions.py:43-107 | from a first start on, every run of tenant-level requests serves uncached resolutions |
| Boot.OnlyTheFounder | src/services/seed.py:346-392 | from a first start on, in every run of tenant-level requests and plugin events only the founder ever has `admin:*`, and only in the founder's organisation |
| Sessions.StaysValid | src/services/auth/session.py:32-85 | every operation keeps one unrevoked session per lineage, unique tokens, and rotated tokens out of use |
| Sessions.RunStaysValid | src/services/auth/authentication.py:226-310 | so does every run |
| Sessions.OneSessionPerDevice | src/repositories/session.py:38-54 | a login that names its device leaves exactly its own session open there and no other session changed |
| Sessions.ExchangeContinues | src/services/auth/onboarding.py:80-85 | only an accepted token is exchanged, for a new accepted one of the same user and lineage |
| Sessions.ExchangedIsNeverAccepted | src/services/auth/session.py:32-85 | an exchanged refresh token is accepted at no later moment of any run |
| Sessions.EndedIsNeverAccepted | src/repositories/session.py:32-54 | nor is the refresh token of a session ended by logout, revocation, device clearing, deactivation or password change |
| AccessTokens.OpenRecords | src/services/auth/authentication.py:343-353 | exactly which session row a login adds |
| AccessTokens.ExchangesExactly | src/services/auth/authentication.py:232-263 | when an exchange happens: token in time, and for a choice a member without second factor |
| AccessTokens.ExchangeRecords | src/services/auth/session.py:58-70 | the session with the new refresh token records the new access token, the same user and device, and the right tenant and expiry |
| AccessTokens.HandedOutIsRejected | src/services/auth/session.py:101-106 | the access token that came with a refresh token is rejected for ever once the session carrying that refresh token is ended |
| AccessTokens.LogoutRejectsTheNewToken | src/services/auth/session.py:32-109 | refresh, log out with the new token: the refreshed access token is rejected |
| AccessTokens.AcceptedExactly | src/backend.py:55-69 | claim not passed, cache answering, no live entry |
| AccessTokens.EndingListsExactly | src/routes/sessions.py:95-116 | an ending lists exactly the access tokens of the sessions it ends, for 60·A+30 seconds |
| AccessTokens.UnendedIsAccepted | src/backend.py:55-69 | an access token whose session nobody ends is accepted until its claim runs out |
| AccessTokens.ReplacedAccessTokenRunsOut | src/services/auth/session.py:52-70 | the access token from before an exchange is rejected by nothing later |
| Blacklist.WholeSecondsAreRounded | src/services/token.py:51-59 | claims and a clock cut down to whole seconds meet the rounding bound |
| Blacklist.SpanAloneIsTooShort | src/services/auth/session.py:101-106 | without the extra 30 seconds a blacklisted token would be accepted again |
| Blacklist.RunStaysTracked | src/services/token.py:43-69 | blacklist entries outlast the tokens they reject in every reachable state |
| Blacklist.EndedTokenIsRejected | src/backend.py:55-69 | after logout, revocation of one or all sessions or deactivation, the recorded access token is rejected for ever, whatever the rounding of its expiry |
| Blacklist.InvalidateAllSparesAccessTokens | src/services/auth/session.py:127-130 | the revocation after a password change ends all sessions and rejects no access token |
| SessionService.LoginSucceedsExactly | src/services/auth/authentication.py:85-180 | when a login opens a session: an enabled membership in the named organisation without second factor, or, none named, anything but one membership with a second factor |
| SessionService.LoginDecides | src/services/auth/authentication.py:85-200 | for whom, in which organisation, with or without access token, and when older sessions of the device end |
| SessionService.SecondFactorComesFirst | src/services/auth/authentication.py:167-180 | with a second factor a login opens a session only before an organisation is chosen, and in none |
| SessionService.SessionStore.GetByRefreshToken | src/repositories/session.py:15-22 | finds exactly the unrevoked session that carries the token |
| SessionService.SessionStore.RevokeEach | src/repositories/session.py:32-54 | the loop marks exactly these rows |
| SessionService.SessionStore.BlacklistEach | src/routes/sessions.py:111-114 | the loop writes exactly the recorded access tokens of these sessions, with the right lifetime |
| SessionService.SessionStore.Login | src/services/auth/authentication.py:76-200 | when a session is opened, and its user, organisation, device and access token; nothing else changes |
| SessionService.SessionStore.OpenSession | src/services/auth/authentication.py:343-353 | older sessions of the device end, one new session starts its lineage |
| SessionService.SessionStore.Refresh | src/services/auth/session.py:32-85 | success exactly for an accepted token; the old session revoked, its continuation added |
| SessionService.SessionStore.SelectTenant | src/services/auth/authentication.py:226-310 | success exactly for an accepted token of a member without second factor |
| SessionService.SessionStore.ResolvePendingSession | src/services/auth/session.py:111-125 | the session of an accepted token, and nothing otherwise |
| SessionService.SessionStore.Onboard | src/services/auth/onboarding.py:80-85 | the pending session is overwritten in place exactly when it is accepted and the organisation's own checks passed |
| SessionService.SessionStore.Logout | src/services/auth/session.py:87-109 | the session ends and its access token is blacklisted |
| SessionService.SessionStore.RevokeSession | src/routes/sessions.py:81-101 | one's own unrevoked session only |
| SessionService.SessionStore.RevokeAllSessions | src/routes/sessions.py:103-118 | all active sessions of the user, and all their access tokens |
| SessionService.SessionStore.DeactivateUser | src/routes/admin.py:100-113 | deactivating an active account ends its sessions and blacklists their access tokens |
| SessionService.SessionStore.InvalidateAllSessions | src/services/auth/session.py:127-130 | all active sessions of the user end |
| RateLimit.Configured | src/utils/rate_limit.py:31-39 | the manifest's switch, and exactly its pairs of positive numbers |
| RateLimit.RateLimiter.Check | src/utils/rate_limit.py:52-74 | lets through exactly while the window's counter is below the bound, and counts then; a failing cache refuses, no cache lets everything through |
| RateLimit.CounterIsRead | src/utils/rate_limit.py:58-66 | a counter never expires inside its window |
| RateLimit.WindowAdmits | src/utils/rate_limit.py:52-66 | from any state a window admits exactly what its bound still allows |
| RateLimit.WindowAdmitsExactly | src/utils/rate_limit.py:48-66 | each aligned window admits exactly min(calls, bound) |
| RateLimit.WindowAsConfigured | src/utils/rate_limit.py:48-58 | a call counts in the window of the period that the manifest gives its route |
| RateLimit.WindowAdmitsAsConfigured | src/utils/rate_limit.py:31-66 | each window admits exactly what the manifest allows for the route, or else the built-in bound |
| RateLimit.RefusedOnlyWhenFull | src/utils/rate_limit.py:60-65 | a refusal happens exactly when the bound was admitted in that window |
| RateLimit.AtMostTwiceInAnyPeriod | src/utils/rate_limit.py:48-66 | any interval of one period admits at most twice the bound |
| OAuth.StaysValid | src/services/oauth.py:472-521 | every operation keeps one user per external identity and a way in for everybody |
| OAuth.RunStaysValid | src/services/oauth.py:450-468 | so does every run |
| OAuth.SignInFindsLinked | src/services/oauth.py:478-486 | nobody else signs in with, or takes over, a linked identity |
| OAuth.CallbackReturnsLinkedUser | src/services/oauth.py:206-263 | until unlinked, a linked identity signs in the same user after any run and nobody else, and a callback that answers a live attempt succeeds while the account is active, whatever address is reported |
| OAuth.AddressSignsIn | src/services/oauth.py:488-506 | an address of an active account signs its user in and links the identity; an inactive one is refused |
| OAuth.NewcomerHasOneWayIn | src/services/oauth.py:508-521 | a newcomer has one link and no password, and cannot unlink it |
| OAuth.LinkExactly | src/services/oauth.py:206-234 | refused exactly when the identity is somebody else's; theirs already or newly linked otherwise |
| OAuth.StrayCallbackDoesNothing | src/services/oauth.py:195-203 | without a live attempt at this provider nothing happens but using the state up |
| OAuth.UnlinkExactly | src/services/oauth.py:450-468 | unlinking succeeds exactly with one account at the provider and another way in |
| OAuth.StateServesOnce | src/services/oauth.py:195-200 | a one-time state that was used never comes back |
| OAuthService.OAuthStore.FindOrCreateUser | src/services/oauth.py:472-521 | the linked user, else the user with this address and a new link, else a new user with a link |
| OAuthService.OAuthStore.AttachTo | src/services/oauth.py:206-234 | somebody else's identity is refused, one's own is kept, a new one is linked |
| OAuthService.OAuthStore.HandleCallback | src/services/oauth.py:188-263 | the state is used up first; then linking or signing in, all writes undone for an inactive account |
| OAuthService.OAuthStore.LinkProvider | src/services/oauth.py:401-446 | the state is used up first; then linking to the signed-in user |
| OAuthService.OAuthStore.UnlinkProvider | src/services/oauth.py:450-468 | exactly the one account goes, and never the only way in |

## Left out

- HTTP routes, schemas, middleware, e-mail, audit log, events, notifications, password reset and migrations: no state the properties depend on.
- Signatures, encryption, password hashing and one-time codes: tokens are fresh names, hashing is injective, and the challenge token of a second factor is not modelled.
- Columns without influence on access (descriptions of roles, who granted a row, timestamps, addresses, provider tokens): only the length of a description is checked.
- Duplicate rows: role and permission rows are sets. A row is looked for before it is added, so serial requests duplicate only rows with a scope identifier and no kind, which are looked for among the global ones and inserted again each time; how many there are changes no resolution, holder count or deletion. Two concurrent additions of one row are outside the model.
- Concurrency, except in `Staleness`: each request is one atomic transaction on one snapshot of the tables.
- Coherence for writes that do not invalidate fully: edits of platform roles, the platform variants of adding and taking a role's permissions, removing a member through the tenant routes, plugin events and deleting a tenant. `Staleness` bounds what they can leave behind.
- Failing caches, except in `Staleness`, `RateLimit` and `Blacklist`: elsewhere a cache write or delete succeeds, and a deployment without a cache writes no blacklist entries.
- A blacklist entry that the cache drops early, for lack of memory, is not modelled.
- Text beyond ASCII: case folding and trimming are those of ASCII.
- Malformed payloads: type checks of the request bodies are not modelled; absent and empty values are.
- Licences: the entitlement of a grant is a parameter; `src/services/licensing.py` is not part of this model, and the resolution does not consult it.
- The default tenant and the first administrator account of the seed on a database that already has them; `Boot` has them on an empty one.
- Foreign keys: when the database enforces them, an invitation that offers a role blocks its deletion; when it does not, the invitation is left dangling. Both are covered. Linking an external identity to a deleted user is taken to be refused.
- The order in which rows and roles are visited: the loops pick elements of sets, and the results do not depend on the order, except which of several platform roles of one name the seed picks.
- An expired refresh token: the mark set before the error is undone with the request, so a refused exchange changes nothing here.
- SessionService.SessionStore.Login: begins after the password was checked; memberships, second factor and status are parameters.
- SeedService.SeedRunner.SeedRole: rewrites the found role's association rows as a whole after editing its list.
- RateLimit.RateLimiter.Check: reads the clock once per call.
