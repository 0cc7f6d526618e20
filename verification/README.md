# Verified model of platform authorization, provider ownership and refresh sessions

A Dafny model of the parts of the Nexus Estate backend that keep promises across
several tables, several calls or several running transactions. `dafny verify
dfyconfig.toml` checks all of it.

**Authorization mutations.** `AuthorizationTables` holds the relational state: one set of
role, permission, mapping, assignment and subject tables for each platform, the
provider accounts and the audit log. `AuthorizationKernel` says what each of the seven
transactions (five of authorization management, creation and approval of a provider)
checks, in which order it rejects, and what it leaves behind. `AuthorizationStore` runs
them as methods over working tables that are installed only on commit, with their insert
loops. `KernelRows` states for each of them, in row fields alone, exactly when it commits,
exactly when it gives which refusal, and the whole database it leaves. `RecoveryCapability`
is the recovery query with token validation and the guard's decision, which agree on the
recovery routes, and `MutationConsequences` says what each mutation does to those decisions
and how a later one takes it back. `AuthorizationHistory` proves what every sequence of
commits keeps: constraints, versions that count audit rows, no lost update, nothing after a
deletion, system roles and OWNER in their status, an audit log that can be replayed.
`PlatformConfig` has the configured table names.

**The same transactions statement by statement.** `AuthorizationMachine` interleaves any
number of transactions under READ COMMITTED: a statement sees the committed database
overlaid with its transaction's own writes, and advisory locks are held until commit or
rollback. `MachineRely`, `MachineFacts`, `MachineStability` and `MachineSafety` are a
rely-guarantee proof of one invariant; `InterleavingTheorems` draws the promises from it:
the last recovery administrator and the last owner of a provider are never lost, and on
ADMINISTRATION every commit is serializable. `OwnerActivation` extends the invariant to the
OWNER role itself being created or activated meanwhile. `LockOrder` proves that advisory locks
cannot deadlock and that some transaction can always go on. `SoloRuns` proves that a
transaction that runs alone ends as the one-step operation does, refusal by refusal, and
`SoloLocks` that it then holds exactly the locks the operation calls for.

**Providers at runtime.** `ProviderAccess` is the choice of a provider context, the supply
policies and the effective authority behind them, with the exact conditions for write
access. `ProviderGuarantees` joins it with the interleaving theorems.

**Refresh sessions.** `SessionStore` is the session table with create, rotate, revoke and
revokeAccount, and `SessionRows` states their answers and every field they write;
`SessionFamilies` proves the discipline of section 4.14.2 of RFC 9700 for an arbitrary
caller; `AuthenticationFlow` is login, refresh and logout of both realms as written.
`SessionMachine` interleaves the same transactions statement by statement, with the row
lock of `FOR UPDATE` and the snapshot of a many-row UPDATE; `SessionInterleavings` says
which promises survive for an arbitrary caller and when exactly a reuse does not end its
family, and `ReuseRace` gives the run. `RotationVerdicts` says when a rotation commits
what the call of rotate does, `AccountClosing` what the revocation of an account reaches
beside other transactions. `ServiceInterleavings` restricts the callers to the two
services, for which a reuse always ends its family, and `SessionDeadlock` says which
transactions can wait for each other in a circle.

**Data transformations.** `EstateOwnership` has the set-based statements shared by
`EstateOwnershipMigration` (one transaction, insert-only) and `LegacyProviderBackfill`
(statements that commit one by one, repairing); `ContractRows` and `BackfillRows` state
exactly which rows the two insert and change. `MigrationVerifier` is the check over
discovered and applied migrations, `AuthorizationMatrix` the role-permission matrix.

## Where the code and its documentation differ

The model follows the code. Each difference has a lemma at an input and, where a promise
fails, the exact condition.

- Roles that are disabled or deleted are documented as not assignable. On PROVIDER and
  MARKETPLACE `deleteRole` and `replaceSubjectRoles` share no lock, so an interleaving can
  commit an assignment to a deleted role (`StaleRoleRace.Race`); it cannot on
  ADMINISTRATION alone (`LiveAssignmentsExactlyOnAdministration`).
- `refresh` signs the new pair over a new family id while `rotate` stores the replacement
  under the old one and later requires the two to be equal. A token issued by `refresh` is
  therefore never accepted (`SecondGenerationNotFound`, with the run in
  `SecondGenerationRefused`): each login allows one successful refresh.
- Every assignment mutation is documented to write one audit event
  (`docs/api/authorization-management.md:158`). Creating a provider assigns OWNER without
  one, so a subject's roles can be replayed from the log exactly unless it is a membership
  created since and not audited (`SubjectReplayExact`, `UnseenOwnerExists`).
- Reuse of a refresh token is meant to end its family. For an arbitrary caller of `rotate` a
  rotation that commits between the snapshot of the family update and its end escapes it
  (`ReuseRevokesExactly`, `ReuseRace`). As `login` and `refresh` drive `rotate` the promise
  holds in every interleaving (`ReuseEndsFamily`, `ReuseEndsFamilyForGood`).
- `deleteRole` refuses code OWNER on every platform, although OWNER is special on PROVIDER
  only (`DeletionExact`, `OwnerCodeUndeletable`).
- The final grant of the backfill does not ask whether the provider account is
  soft-deleted, unlike its other statements (`GrantsExact`, `SoftDeletedProviderGranted`).

## Assumptions

- `hashtext` has no collisions, `hashToken` is injective, generated uuids occur nowhere yet.
- A statement that a transaction does not issue is passed over without effect; reads that
  feed only the returned value are left out of the machine.
- A unique-index wait is a lock on the inserted key (`CodeKey`, `CustomerKey`); a violated
  foreign key is the error `ForeignKeyViolation`.
- The theorem about the permissions of owners starts from a database whose OWNER role carries
  them, as it is seeded
  (`src/modules/administration/authorization/migrations/1789307935999-CreatePlatformAuthorizationManagementTables.ts:226-253`).
- Tables have the unique and foreign keys of their schema (`Constrained`, `UniqueMembers`,
  `UniqueOwners`, `Keyed`). No transaction of the model changes permissions or the
  deletion and activity flags of subjects. The only other code that writes membership
  states is the two data transformations and the migration that creates the tables
  (`src/modules/administration/authorization/migrations/1789307935999-CreatePlatformAuthorizationManagementTables.ts:255-268`);
  they only make memberships active or insert active ones.
- A refresh token that verifies is one that was handed out, so its session row is stored.
- A many-row UPDATE may reach its rows in any order.
- Instants are integers in milliseconds, supplied by the caller; the database's
  CURRENT_TIMESTAMP is a second instant, `stamp`.

## Model

| member | source | states |
|---|---|---|
| AuthorizationStore.InsertRows | src/modules/administration/authorization/services/authorization-management.service.ts:122-127 | the insert loop adds exactly one row for each id and nothing else |
| AuthorizationStore.Store.CreateRole | src/modules/administration/authorization/services/authorization-management.service.ts:99-151 | createRole: every rejection in the code's order, or the committed role, mappings and audit row; a rejected call changes nothing |
| AuthorizationStore.Store.UpdateRole | src/modules/administration/authorization/services/authorization-management.service.ts:154-257 | updateRole: optimistic version, immutable system status, OWNER never disabled on PROVIDER, recovery check before commit |
| AuthorizationStore.Store.DeleteRole | src/modules/administration/authorization/services/authorization-management.service.ts:260-318 | deleteRole: soft delete of an unused custom role, refused for system roles, for code OWNER on every platform, for roles in use and for the last recovery path |
| AuthorizationStore.Store.ReplaceRolePermissions | src/modules/administration/authorization/services/authorization-management.service.ts:321-409 | replaceRolePermissions: whole mapping set replaced row by row, with the before set in the audit row and every check in order |
| AuthorizationStore.Store.ReplaceSubjectRoles | src/modules/administration/authorization/services/authorization-management.service.ts:458-548 | replaceSubjectRoles: whole role set replaced, with the recovery and last-owner checks on the written state |
| AuthorizationStore.EnsureOwnerMembership | src/modules/provider/authorization/services/provider-authorization.service.ts:28-63 | ensureOwnerMembership: the customer's row in the provider is inserted or, soft-deleted or suspended as it may be, made active, and gets the active OWNER role; the provider then has an owner |
| AuthorizationStore.Store.CreateProvider | src/modules/provider/account/services/provider-account-command.service.ts:47-110 | createPending and createWithManager: pending account, owner membership through ensureOwnerMembership and OWNER assignment appear together or not at all |
| AuthorizationStore.Store.ApproveProvider | src/modules/provider/account/services/provider-account-command.service.ts:116-157 | approve: only a live pending account of a live customer becomes active and verified |
| AuthorizationKernel.Dedup | src/modules/administration/authorization/services/authorization-management.service.ts:107 | a list made unique has no repetition and the same members |
| AuthorizationKernel.DedupKeepsOrder | src/modules/administration/authorization/services/authorization-management.service.ts:107 | and the members stand in the order of their first occurrences |
| AuthorizationKernel.ValidatePermissionsExact | src/modules/administration/authorization/services/authorization-management.service.ts:719-767 | comparing the number of rows with the number of ids accepts a deduplicated list exactly when every id is a live, assignable, non-deprecated permission of the platform |
| AuthorizationKernel.ValidateRoleIdsExact | src/modules/administration/authorization/services/authorization-management.service.ts:769-805 | the same comparison accepts exactly the lists of live roles of the platform |
| AuthorizationKernel.ExecuteExact | src/modules/administration/authorization/services/authorization-management.service.ts:99-548 | a transaction commits exactly when its lock-protected checks, its current checks and its final assertions hold, and its effect is then the whole change |
| KernelRows.PermissionsJudged | src/modules/administration/authorization/services/authorization-management.service.ts:719-767 | which permission list is accepted and which of the three refusals another one gets, by the rows of this and of the other platforms |
| KernelRows.RolesJudged | src/modules/administration/authorization/services/authorization-management.service.ts:769-805 | the same for a list of roles |
| KernelRows.CreateExact | src/modules/administration/authorization/services/authorization-management.service.ts:109-149 | createRole commits exactly for assignable permissions and an unused code, and each refusal is given exactly in its case |
| KernelRows.CreateWrites | src/modules/administration/authorization/services/authorization-management.service.ts:116-138 | the whole database afterwards: an active custom role of version 1, exactly the listed mappings, one audit row |
| KernelRows.UpdateExact | src/modules/administration/authorization/services/authorization-management.service.ts:171-254 | updateRole commits exactly when no system role changes status, OWNER on PROVIDER is not disabled, the versions agree and, on ADMINISTRATION, somebody is granted both recovery permissions afterwards; each refusal exactly in its case |
| KernelRows.UpdateWrites | src/modules/administration/authorization/services/authorization-management.service.ts:205-251 | the whole database afterwards: name, description and status as given or as before, the version one higher, one audit row that tells a disabling from an update |
| KernelRows.DeleteExact | src/modules/administration/authorization/services/authorization-management.service.ts:274-316 | deleteRole commits exactly for an unused custom role not coded OWNER that leaves recovery; each refusal exactly in its case |
| KernelRows.DeleteWrites | src/modules/administration/authorization/services/authorization-management.service.ts:298-312 | the whole database afterwards: the row deleted, disabled and of the next version, one audit row |
| KernelRows.ReplacePermissionsRefusals | src/modules/administration/authorization/services/authorization-management.service.ts:337-350 | replaceRolePermissions refuses a missing role and each kind of unacceptable list exactly |
| KernelRows.ReplacePermissionsExact | src/modules/administration/authorization/services/authorization-management.service.ts:351-406 | over a live role it commits exactly when the list is assignable, the version current, OWNER on PROVIDER keeps both provider-account permissions and is active, and recovery is left; each of these refusals exactly in its case |
| KernelRows.ReplacePermissionsWrites | src/modules/administration/authorization/services/authorization-management.service.ts:358-397 | the whole database afterwards: exactly the listed mappings of the role, the next version, the before and after sets in the audit row |
| KernelRows.ReplaceRolesRefusals | src/modules/administration/authorization/services/authorization-management.service.ts:474-494 | replaceSubjectRoles refuses a missing subject and each kind of unacceptable role list exactly |
| KernelRows.ReplaceRolesExact | src/modules/administration/authorization/services/authorization-management.service.ts:481-534 | over a live subject it commits exactly when every role is live and active, recovery is left on ADMINISTRATION, and on PROVIDER every active OWNER role that is not listed has an active holder in the subject's provider |
| KernelRows.ReplaceRolesWrites | src/modules/administration/authorization/services/authorization-management.service.ts:509-545 | the whole database afterwards: exactly the listed assignments of the subject, the before and after sets in the audit row |
| KernelRows.OwnerExact | src/modules/administration/authorization/services/authorization-management.service.ts:898-931 | a provider has an owner exactly when an undeleted, active membership of it is assigned an undeleted, active role coded OWNER |
| KernelRows.ProvisionExact | src/modules/provider/account/services/provider-account-command.service.ts:47-110 | createPending commits exactly for an existing customer without any account row, while an active OWNER role exists; each refusal exactly in its case |
| KernelRows.ProvisionWrites | src/modules/provider/authorization/services/provider-authorization.service.ts:28-63 | the whole database afterwards: pending account, active membership, every active OWNER role assigned to it |
| KernelRows.ApproveExact | src/modules/provider/account/services/provider-account-command.service.ts:116-157 | approve commits exactly for a live pending account of a live customer and writes its two status fields only; each refusal exactly in its case |
| RecoveryCapability.RecoveryAdminsExact | src/modules/administration/authorization/services/authorization-management.service.ts:813-845 | GROUP BY with COUNT(DISTINCT code) = n selects exactly the non-deleted administrators for whom the guard's decision holds for every recovery code |
| RecoveryCapability.RecoveryAdminsAuthenticate | src/modules/administration/authentication/strategies/administration-jwt.strategy.ts:37-61 | the recovery query selects exactly the administrators that token validation accepts and that the guard allows on every recovery permission, although one filters by deletion and the other by activity |
| RecoveryCapability.RecoveryRoutesExact | src/modules/administration/authorization/guards/administration-permissions.guard.ts:25-51 | it selects exactly the administrators whose requests are served on the role-write and on the assignment-write routes |
| RecoveryCapability.RecoveryAdminServed | src/modules/administration/authorization/guards/administration-permissions.guard.ts:25-51 | while the recovery query finds somebody, that administrator is served on every route that asks for any or all of the recovery permissions |
| RecoveryCapability.RecoveryCodeExact | src/modules/administration/authorization/repositories/administration-authorization.repository.ts:14-44 | one administrator's group contains a recovery code exactly when hasPermission is true for it |
| RecoveryCapability.RecoveryMonotone | src/modules/administration/authorization/services/authorization-management.service.ts:813-845 | adding roles, mappings or assignments never loses recovery capability |
| RecoveryCapability.DecisionRows | src/modules/administration/authorization/repositories/administration-authorization.repository.ts:14-44 | hasPermission in row fields: an active administrator assigned a live, active role that is mapped to a permission with the code, neither deleted nor deprecated |
| RecoveryCapability.RecovererExact | src/modules/administration/authorization/services/authorization-management.service.ts:813-845 | the recovery query finds exactly the undeleted, active administrators granted both recovery permissions in this sense |
| RecoveryCapability.ServedExact | src/modules/administration/authorization/guards/administration-permissions.guard.ts:25-51 | a request is served exactly when its claims are an administration access token with a session, its administrator is active and undeleted, and any or all of the route's permissions are granted as it asks |
| RecoveryCapability.GuardNeedsPrincipal | src/modules/administration/authorization/guards/administration-permissions.guard.ts:33-41 | without a principal of the administration realm the guard lets pass exactly the routes that ask for nothing |
| RecoveryCapability.ValidationRefusals | src/modules/administration/authentication/strategies/administration-jwt.strategy.ts:37-61 | which claims are refused as invalid, as an unknown account and as an inactive one |
| MutationConsequences.DecisionByRoles | src/modules/administration/authorization/repositories/administration-authorization.repository.ts:14-44 | the EXISTS over joined tables is: active, and assigned a usable role mapped to an effective permission with the code |
| MutationConsequences.CreateAndDeleteDecideNothing | src/modules/administration/authorization/services/authorization-management.service.ts:287-301 | creating or deleting a role changes no permission decision about anybody |
| MutationConsequences.UpdateDecides | src/modules/administration/authorization/services/authorization-management.service.ts:205-222 | after an update an administrator may do what other roles give, and what the updated role is mapped to exactly if it is assigned and its status is now active |
| MutationConsequences.PermissionsDecide | src/modules/administration/authorization/services/authorization-management.service.ts:377-386 | after a replacement of its permissions a usable role gives exactly the codes of the new list |
| MutationConsequences.RolesDecide | src/modules/administration/authorization/services/authorization-management.service.ts:510-523 | after a replacement of roles the subject may do exactly what the listed roles give, and nobody else's decisions change |
| MutationConsequences.RolesTakenBack | src/modules/administration/authorization/services/authorization-management.service.ts:509-545 | assigning the before-state of the audit row restores the platform's tables exactly |
| MutationConsequences.PermissionsTakenBack | src/modules/administration/authorization/services/authorization-management.service.ts:344-397 | mapping the before-state of the audit row restores the tables but for two more versions |
| MutationConsequences.UpdateTakenBack | src/modules/administration/authorization/services/authorization-management.service.ts:205-222 | writing back name, description and status restores the role but for two more versions |
| MutationConsequences.DeletionExact | src/modules/administration/authorization/services/authorization-management.service.ts:281-316 | a live role of any platform is deleted exactly when it is custom, unused and not coded OWNER and, on ADMINISTRATION, a recovery administrator exists |
| MutationConsequences.OwnerCodeUndeletable | src/modules/administration/authorization/services/authorization-management.service.ts:281-286 | on every platform a custom, unused role with code OWNER can be created and is never deleted |
| PlatformConfig.TablesDisjoint | src/modules/administration/authorization/management/platform-authorization-config.ts:13-41 | no two configured tables, of one platform or of two, are the same table |
| AuthorizationHistory.HistoryWellFormed | src/modules/administration/authorization/services/authorization-management.service.ts:99-548 | foreign keys and unique role codes hold after any number of committed mutations |
| AuthorizationHistory.VersionCountsEvents | src/modules/administration/authorization/services/authorization-management.service.ts:116-138 | the version of a role made by createRole always equals the number of audit rows that target it |
| AuthorizationHistory.RoleRowMonotone | src/modules/administration/authorization/services/authorization-management.service.ts:205-222 | role rows never disappear, versions never fall, code and system flag never change, and a deleted row never changes at all |
| AuthorizationHistory.NoLostUpdate | src/modules/administration/authorization/services/authorization-management.service.ts:205-237 | no two committed versioned writes to one role share an expected version |
| AuthorizationHistory.DeletionIsFinal | src/modules/administration/authorization/services/authorization-management.service.ts:287-312 | nothing commits on a role after its deletion, not even a second deletion |
| AuthorizationHistory.SystemRoleKept | src/modules/administration/authorization/services/authorization-management.service.ts:178-187 | over every history a system role that is live in one state has the same status, and is undeleted, in every later one |
| AuthorizationHistory.OwnerRoleKept | src/modules/administration/authorization/services/authorization-management.service.ts:188-197 | and a live role coded OWNER on PROVIDER keeps its code, is never deleted and, once active, never disabled |
| AuthorizationHistory.RoleReplay | src/modules/administration/authorization/services/authorization-management.service.ts:344-397 | folding the audit rows over the first mapping of a role gives its current mapping, and each before-state is the previous after-state |
| AuthorizationHistory.SubjectReplay | src/modules/administration/authorization/services/authorization-management.service.ts:509-545 | the same for the role set of every subject, starting for a membership provisioned in the history from the OWNER role its creation assigned without an audit row |
| AuthorizationHistory.SubjectReplayExact | src/modules/provider/authorization/services/provider-authorization.service.ts:57-62 | replaying over the first state alone is right for a subject exactly unless its membership was provisioned since and never audited |
| AuthorizationHistory.ProvisionedUnseen | src/modules/provider/authorization/services/provider-authorization.service.ts:57-62 | after any provisioning the owner membership holds OWNER and the audit log is as before |
| AuthorizationHistory.UnseenOwnerExists | src/modules/provider/account/services/provider-account-command.service.ts:88-110 | a history in which the replay of a provisioned membership's roles fails |
| MachineFacts.ExecKeepsFacts | src/modules/administration/authorization/services/authorization-management.service.ts:154-548 | what a running transaction has read and written agrees with its operation after every statement, given what its locks protect |
| MachineRely.EffectRely | src/modules/administration/authorization/services/authorization-management.service.ts:807-864 | a commit of any operation leaves everything that the locks it did not need protect as it was |
| MachineStability.FactsStable | src/modules/administration/authorization/services/authorization-management.service.ts:165-170 | facts read under a lock survive the commit of every transaction that does not hold it |
| MachineStability.CommitIsEffect | src/modules/administration/authorization/services/authorization-management.service.ts:154-548 | the row-by-row writes of a transaction at its commit are the effect of its operation on the database of that moment |
| MachineSafety.StepKeepsInv | src/modules/administration/authorization/services/authorization-management.service.ts:154-548 | every statement, commit, rollback and start of any transaction keeps the system invariant |
| MachineSafety.RunInv | src/modules/administration/authorization/services/authorization-management.service.ts:154-548 | the invariant holds in every reachable state of any number of interleaved transactions |
| SoloRuns.RunsAlone | src/modules/administration/authorization/services/authorization-management.service.ts:99-548 | every operation run alone, statement by statement on any database, ends: at its commit with the database the one-step operation leaves, or at the statement that refuses it with the same error |
| SoloLocks.HoldsExactly | src/modules/administration/authorization/services/authorization-management.service.ts:807-864 | ready to commit, a transaction that ran alone holds exactly the locks its operation calls for: recovery, role or subject, membership row, and the owner locks of every provider with a membership assigned the OWNER role, or of the reassigned membership |
| InterleavingTheorems.CommitMatchesExecute | src/modules/administration/authorization/services/authorization-management.service.ts:154-548 | serializability: on ADMINISTRATION every commit is the one-step operation; elsewhere it is so exactly when the role checks made without a shared lock are still current and, for a replacement on PROVIDER that found no active OWNER role, the last-owner check would still pass |
| InterleavingTheorems.UncountedMatchesExactly | src/modules/administration/authorization/services/authorization-management.service.ts:898-931 | that replacement commits what one step would exactly unless a listed role was disabled or deleted meanwhile, or an OWNER role became active since the lookup that nobody of the provider holds and the replacement does not give |
| LateOwnerRole.OvertakenByOwnerRole | src/modules/administration/authorization/services/authorization-management.service.ts:904-910 | the interleaving in which it would not: an OWNER role is created after the replacement looked for one |
| InterleavingTheorems.RecoveryInEveryInterleaving | src/modules/administration/authorization/services/authorization-management.service.ts:807-845 | if the first committed state has a recovery administrator, so has every later committed state of every interleaving |
| InterleavingTheorems.SystemRoleInEveryInterleaving | src/modules/administration/authorization/services/authorization-management.service.ts:178-187 | in every interleaving a live system role keeps its status and is never deleted |
| InterleavingTheorems.GuardPassableInEveryInterleaving | src/modules/administration/authorization/guards/administration-permissions.guard.ts:42-50 | so in every committed state some administrator's requests are authenticated and served on the role-write and assignment-write routes |
| InterleavingTheorems.CreateAddsGrants | src/modules/administration/authorization/services/authorization-management.service.ts:109-140 | createRole takes no lock and is harmless because it only adds grants |
| OwnerActivation.ActivationExcluded | src/modules/administration/authorization/services/authorization-management.service.ts:198-203 | a replacement that found no active OWNER role and the activation of a role its membership holds never overlap: both hold the provider's owner lock |
| OwnerActivation.RunOwnerSafe | src/modules/administration/authorization/services/authorization-management.service.ts:495-534 | in every reachable state a replacement lists only usable OWNER roles, a replacement that found none rewrites no owner, and an update of a dormant OWNER role covers all its holders' providers with locks |
| InterleavingTheorems.OwnerInEveryInterleaving | src/modules/administration/authorization/services/authorization-management.service.ts:495-534 | a provider with an active owner in one committed state has one in every later committed state of every interleaving, with or without an active OWNER role at its start |
| InterleavingTheorems.ProvisionHasOwner | src/modules/provider/authorization/services/provider-authorization.service.ts:28-63 | provider creation commits with an active membership that holds the active OWNER role |
| InterleavingTheorems.CreatedProviderKeepsOwner | src/modules/provider/account/services/provider-account-command.service.ts:88-110 | every provider created in a run has an active owner from its creation on, in every interleaving |
| InterleavingTheorems.OwnerKeptByReplace | src/modules/administration/authorization/services/authorization-management.service.ts:898-931 | the count of active holders after a replacement keeps the owner of every provider |
| InterleavingTheorems.OwnerKeptByOutsider | src/modules/administration/authorization/services/authorization-management.service.ts:909-910 | a replacement that skips the count takes no owner away when its membership holds no active OWNER role |
| InterleavingTheorems.AdministrationAssignsLiveRoles | src/modules/administration/authorization/services/authorization-management.service.ts:268-301 | on ADMINISTRATION no interleaving commits an assignment to a deleted role |
| InterleavingTheorems.SerialAssignsLiveRoles | src/modules/administration/authorization/services/authorization-management.service.ts:287-301 | when each transaction runs in one step, no platform ever assigns a deleted role |
| StaleRoleRace.Race | src/modules/administration/authorization/services/authorization-management.service.ts:481-523 | the interleaving that breaks it: roles validated, then the role found unused and deleted, then the assignment committed |
| StaleRoleRace.LiveAssignmentsExactlyOnAdministration | src/modules/administration/authorization/services/authorization-management.service.ts:268-273 | the promise about deleted roles holds in every run exactly on the platform whose mutations share the recovery lock |
| LockOrder.RunOrdered | src/modules/administration/authorization/services/authorization-management.service.ts:165-203 | every transaction asks for the recovery lock, then a role or subject lock, then provider locks by ascending id |
| LockOrder.OwnerLockTaken | src/modules/administration/authorization/services/authorization-management.service.ts:847-864 | taking the first of the ascending provider locks leaves only higher ones to ask for |
| LockOrder.NoWaitingCircle | src/modules/administration/authorization/services/authorization-management.service.ts:847-864 | no deadlock: in no reachable state do transactions wait for each other in a circle |
| LockOrder.SomeTransactionGoesOn | src/modules/administration/authorization/services/authorization-management.service.ts:807-864 | progress: while transactions run, some one of them is not waiting |
| ProviderAccess.ResolvedContextSound | src/modules/provider/account/services/provider-context.resolver.ts:62-171 | a resolved context belongs to the customer, to a live provider and to the named one, through an active membership or, on the fallback path only, as owner |
| ProviderAccess.AmbiguityExact | src/modules/provider/account/services/provider-context.resolver.ts:114-130 | without a named provider, ambiguity is rejected exactly with two active memberships and nothing is found exactly without any |
| ProviderAccess.NamedResolutionExact | src/modules/provider/account/services/provider-context.resolver.ts:66-145 | a named provider is resolved exactly for the customers with an undeleted, active membership in it while it is undeleted, and is forbidden otherwise, as is a malformed name |
| ProviderAccess.UnnamedResolutionExact | src/modules/provider/account/services/provider-context.resolver.ts:114-130 | without a name the answer is not found without such a membership, ambiguous with two and otherwise resolved |
| ProviderAccess.FallbackResolutionExact | src/modules/provider/account/services/provider-context.resolver.ts:99-159 | the fallback resolves exactly the customer's own undeleted account, named or not; a missing table refuses every name and a failing query is passed on |
| ProviderAccess.PoliciesExact | src/modules/provider/account/helpers/provider-account.policy.ts:17-51 | which context is refused as forbidden, suspended or unverified, and that the owner check comes last |
| ProviderAccess.EffectiveRolesExact | src/modules/provider/authorization/services/provider-authorization.service.ts:80-107 | a role is effective exactly for a context whose active membership is assigned it, while it is live and active |
| ProviderAccess.EffectivePermissionsExact | src/modules/provider/authorization/services/provider-authorization.service.ts:108-120 | a permission is effective exactly if such a role is mapped to it and it is neither deleted nor deprecated; every other context has none |
| ProviderAccess.SameRolesSamePermissions | src/modules/provider/authorization/services/provider-authorization.service.ts:108-120 | so two active memberships with the same assigned roles have the same permissions |
| ProviderAccess.WriteAccessExact | src/modules/provider/authorization/helpers/provider-supply-access.policy.ts:30-33 | resolve followed by requireWriteAccess succeeds for a customer and a named provider exactly when the provider is live, active and verified and an active membership of the customer holds the active OWNER role |
| ProviderAccess.UnnamedWriteAccessExact | src/modules/provider/account/services/provider-context.resolver.ts:126-143 | without a named provider it succeeds exactly through the customer's only active membership in a live provider |
| ProviderAccess.LegacyNeverWrites | src/modules/provider/authorization/services/provider-authorization.service.ts:80-97 | a context from the legacy fallback never gets write access |
| ProviderAccess.SomebodyCanWriteExact | src/modules/provider/account/helpers/provider-account.policy.ts:17-51 | somebody can write for a provider exactly when it is operating and has an active owner |
| ProviderGuarantees.EffectKeepsKeys | src/modules/provider/authorization/services/provider-authorization.service.ts:44-52 | unique memberships, unique account owners and the membership's provider key survive every committed operation |
| ProviderGuarantees.WritableInEveryInterleaving | src/modules/administration/authorization/services/authorization-management.service.ts:495-534 | in every later committed state of every interleaving a provider that had an owner can be written for exactly when it is operating |
| ProviderGuarantees.CreatedProviderWritable | src/modules/provider/account/services/provider-account-command.service.ts:88-110 | the same for every provider created during the run |
| ProviderGuarantees.CreatedThenApproved | src/modules/provider/account/services/provider-account-command.service.ts:88-157 | the creator cannot write before approval and can right after it |
| ProviderGuarantees.ReplacementEquips | src/modules/administration/authorization/services/authorization-management.service.ts:866-878 | the check on the OWNER role's new permissions leaves it with both required codes, through effective permissions |
| ProviderGuarantees.WritersHoldOwnerPermissions | src/modules/provider/authorization/services/provider-authorization.service.ts:110-120 | in every committed state of every interleaving, whoever may write effectively holds the permissions OWNER must carry |
| SessionStore.AuthSessionStore.Create | src/common/security/auth-session.service.ts:54-77 | create stores one unrevoked row with the digest and both expiries, or fails on a known id |
| SessionStore.AuthSessionStore.Rotate | src/common/security/auth-session.service.ts:85-177 | rotate: the verdict on the locked row, and the family revocation, replacement or nothing that follows from it |
| SessionStore.AuthSessionStore.Revoke | src/common/security/auth-session.service.ts:180-192 | revoke marks one session of the account, keeping an earlier reason |
| SessionStore.AuthSessionStore.RevokeAccount | src/common/security/auth-session.service.ts:195-206 | revokeAccount marks every unrevoked session of one account and realm |
| SessionRows.AnswersExact | src/common/security/auth-session.service.ts:90-135 | rotate succeeds exactly on the named account's, realm's and family's row that holds the token, was not rotated or revoked and has not expired; reuse is answered exactly for another token or a rotated row |
| SessionRows.RotatedRows | src/common/security/auth-session.service.ts:138-169 | a successful rotation: every field of both rows, the replacement expiring at the asked instant or the family's end, whichever is first, and no other row changed |
| SessionRows.ReusedRows | src/common/security/auth-session.service.ts:120-134 | a reuse marks exactly the rows of the presented row's family, realm and account, keeping earlier marks |
| SessionRows.RevokedRows | src/common/security/auth-session.service.ts:180-192 | a logout marks exactly the named session if it is the account's in the realm, keeping an earlier mark |
| SessionRows.AccountRevokedRows | src/common/security/auth-session.service.ts:195-206 | closing an account leaves none of its sessions in the realm unrevoked and marks no other row |
| SessionFamilies.RowWrittenOnce | src/common/security/auth-session.service.ts:120-166 | identity, digest and expiries never change; revocation time, reason and replacement are write-once in every run |
| SessionFamilies.ChainExtended | src/common/security/auth-session.service.ts:138-166 | a valid rotation extends the family's chain by the replacement |
| SessionFamilies.FamiliesAreChains | src/common/security/auth-session.service.ts:54-206 | in every reachable state every family is one acyclic replaced_by chain with one account, realm and absolute expiry, rotated everywhere but at its end |
| SessionFamilies.OneLiveSession | src/common/security/auth-session.service.ts:138-166 | of any two sessions of a family at least one is revoked |
| SessionFamilies.ReplacedIsRevoked | src/common/security/auth-session.service.ts:106-108 | a session with a replacement is always revoked, with reason rotated |
| SessionFamilies.RotatesOnce | src/common/security/auth-session.service.ts:106-108 | a session, and so its token, is rotated successfully at most once in a run |
| SessionFamilies.TokenRotatesOnce | src/common/security/auth-session.service.ts:101-118 | a refresh token is rotated successfully at most once, whatever session the caller names, if every stored token is new |
| SessionFamilies.ReuseKillsFamily | src/common/security/auth-session.service.ts:120-134 | judging a token as reused revokes its whole family |
| SessionFamilies.NoRotationAfterReuse | src/common/security/auth-session.service.ts:101-135 | once any token of a family is judged reused no later rotation in that family succeeds |
| SessionFamilies.RotationFrame | src/common/security/auth-session.service.ts:120-176 | a rotation touches no other family, account or realm, and a failing verdict other than reuse touches nothing |
| SessionFamilies.NoRotationPastAbsoluteExpiry | src/common/security/auth-session.service.ts:111-149 | no rotation succeeds at or after the root's absolute expiry and no replacement outlives it, whatever the refresh duration |
| SessionMachine.CommitIsCall | src/common/security/auth-session.service.ts:85-169 | statement by statement: what a transaction wrote is, at its commit, one successful rotation of the table of that moment or one set of revocation marks |
| SessionMachine.FactsStable | src/common/security/auth-session.service.ts:90-96 | what a rotation knows about the row it selected FOR UPDATE survives every commit of others |
| SessionMachine.RunInv | src/common/security/auth-session.service.ts:54-206 | so it is in every reachable state of any number of interleaved rotations, revocations and creations |
| SessionInterleavings.FamiliesInEveryInterleaving | src/common/security/auth-session.service.ts:54-206 | in every committed state of every interleaving families are chains with at most one unrevoked session |
| SessionInterleavings.RotatesOnceInEveryInterleaving | src/common/security/auth-session.service.ts:90-118 | a session is rotated at most once in every interleaving, however many rotations of it run at once |
| SessionInterleavings.TokenRotatesOnceInEveryInterleaving | src/common/security/auth-session.service.ts:101-118 | a refresh token is rotated at most once in every interleaving, whatever session the caller names, if every stored token is new |
| SessionInterleavings.RotatesBeforeAbsoluteExpiry | src/common/security/auth-session.service.ts:111-149 | in every interleaving the clock of a committed rotation was before the root's absolute expiry, and its replacement lives no longer |
| SessionInterleavings.RotationExpiryInEveryInterleaving | src/common/security/auth-session.service.ts:138-149 | in every interleaving the session that a committed rotation opens expires at the asked instant or at its family's end, whichever is first |
| SessionInterleavings.MarkIsRevoke | src/common/security/auth-session.service.ts:180-192 | the single-row mark of the machine is the same change to the table as revoke |
| SessionInterleavings.LogoutInEveryInterleaving | src/common/security/auth-session.service.ts:180-192 | in every interleaving, after a logout the session is revoked in every later committed state and no rotation of it commits, also none in progress |
| RotationVerdicts.CommitsTheCall | src/common/security/auth-session.service.ts:90-169 | in every interleaving a rotation commits what the call of rotate does on the table of that moment: always if it succeeds, nothing if it is refused, and after a reuse if nothing was committed since it read the family |
| AccountClosing.ClosingExact | src/common/security/auth-session.service.ts:195-206 | in every interleaving the commit of an account's revocation leaves every session that was there when it started revoked, changes no other row, and so closes the account exactly unless an unrevoked session was inserted since |
| SessionInterleavings.ReuseRevokesExactly | src/common/security/auth-session.service.ts:126-132 | for an arbitrary caller of rotate: the commit of a reuse revokes the whole family exactly when every session inserted after the revocation's snapshot is revoked already |
| ReuseRace.FamilyOutlivesReuse | src/common/security/auth-session.service.ts:126-166 | for an arbitrary caller of rotate, the interleaving in which one is not: a concurrent rotation of a replacement commits its own replacement, and that token still rotates after the reuse |
| ServiceInterleavings.RunService | src/modules/customer/authentication/services/customer-authentication.service.ts:56-103 | as login and refresh drive the store, in every interleaving: each family has one login row, refreshes present stored tokens, and a reuse is always judged on a login row that is revoked |
| ServiceInterleavings.FamilyClosed | src/modules/customer/authentication/services/customer-authentication.service.ts:85-103 | once the login row of a family is revoked, no interleaving adds a row to the family |
| ServiceInterleavings.ReuseEndsFamily | src/common/security/auth-session.service.ts:120-134 | so the commit of every reuse leaves its whole family revoked, concurrent rotations included |
| ServiceInterleavings.ReuseEndsFamilyForGood | src/common/security/auth-session.service.ts:120-134 | and the family stays revoked as a whole in every later committed state |
| ServiceInterleavings.TokenExchangedOnce | src/modules/customer/authentication/services/customer-authentication.service.ts:90-102 | no issued token is exchanged twice, however many refreshes present it at once |
| SessionDeadlock.RunHolds | src/common/security/auth-session.service.ts:86-166 | in every reachable state no transaction holds a row before its first statement, new ids are locked only by a rotation about to commit, and a reuse holds its own row and asks for rows of its family only |
| SessionDeadlock.CircleMembers | src/common/security/auth-session.service.ts:90-166 | for an arbitrary caller: every member of a waiting circle is marking rows, or is inserting a session id that is taken |
| SessionDeadlock.ReusesDeadlock | src/common/security/auth-session.service.ts:90-132 | for an arbitrary caller such a circle is reached: two reuses of different tokens of one family, each left with rows the other holds |
| SessionDeadlock.ServiceCircle | src/modules/customer/authentication/services/customer-authentication.service.ts:85-103 | as login and refresh drive the store two reuses never wait for each other: of two neighbours in a circle one revokes an account or inserts a taken id |
| SessionDeadlock.RevocationsDeadlock | src/common/security/auth-session.service.ts:195-206 | and with account revocations a circle is reached: two that mark the account's two sessions in opposite order |
| AuthenticationFlow.AuthenticationService.Login | src/modules/administration/authentication/services/administration-authentication.service.ts:45-75 | login of either realm: its refusals, and the session it creates with the absolute expiry |
| AuthenticationFlow.AuthenticationService.Refresh | src/modules/customer/authentication/services/customer-authentication.service.ts:74-104 | refresh of either realm: its refusals, and the rotation it asks for with claims of the old token and a pair signed over new identifiers |
| AuthenticationFlow.AuthenticationService.Logout | src/modules/customer/authentication/services/customer-authentication.service.ts:106-126 | logout succeeds exactly for a verified token of the realm and of the caller, and revokes that session only |
| AuthenticationFlow.FlowIsRun | src/modules/customer/authentication/services/customer-authentication.service.ts:56-103 | every sequence of logins, refreshes, logouts and revocations is a run of the session store in which each create starts a new family |
| AuthenticationFlow.ClaimsAlways | src/modules/customer/authentication/services/customer-authentication.service.ts:85-103 | the familyId claim equals the stored family for tokens from login and differs from it for tokens from refresh |
| AuthenticationFlow.LoginStores | src/modules/customer/authentication/services/customer-authentication.service.ts:56-69 | a login hands out a token over its own identifiers and stores one unrevoked row that expires after the given duration and for good thirty days after the login |
| AuthenticationFlow.RefreshAnswered | src/modules/customer/authentication/services/customer-authentication.service.ts:74-104 | a refresh with an issued token is answered with a new pair, as reused or as invalid exactly according to the family, marks and expiries of the token's row |
| AuthenticationFlow.RefreshExpiry | src/modules/customer/authentication/services/customer-authentication.service.ts:90-102 | the session a refresh opens expires the given duration after the refresh or with its family, whichever is first |
| AuthenticationFlow.LogoutRevokes | src/modules/customer/authentication/services/customer-authentication.service.ts:106-126 | a logout revokes the session of its token, with reason logout if it was unrevoked, and changes no other row |
| AuthenticationFlow.NoRefreshAfterLogout | src/common/security/auth-session.service.ts:111-112 | after the logout of a token no refresh with it ever succeeds |
| AuthenticationFlow.NoRefreshAfterClosing | src/common/security/auth-session.service.ts:195-206 | after an account is closed no login token handed out for it before is ever exchanged |
| AuthenticationFlow.SecondGenerationNotFound | src/common/security/auth-session.service.ts:99-118 | a token issued by refresh is always judged NOT_FOUND and changes nothing |
| AuthenticationFlow.SecondGenerationRefused | src/modules/customer/authentication/services/customer-authentication.service.ts:85-103 | the failing input: a login, a successful refresh, and a refresh with the issued token, refused although its session is unrevoked and unexpired |
| AuthenticationFlow.LoginTokenRefreshExact | src/common/security/auth-session.service.ts:101-118 | a refresh with a login token succeeds exactly while its session is unrevoked and neither expiry has come |
| AuthenticationFlow.LoginFamilyRotatesOnce | src/modules/administration/authentication/services/administration-authentication.service.ts:100-118 | so a login family undergoes at most one successful rotation |
| AuthenticationFlow.TokenExchangedOnce | src/modules/customer/authentication/services/customer-authentication.service.ts:90-102 | no token is ever exchanged twice |
| AuthenticationFlow.ThirtyDaysAfterLogin | src/common/security/authentication-mechanics.ts:7-12 | nothing succeeds in a login's family thirty days after the login, and no replacement expires later |
| EstateOwnership.AccountsInserted | src/modules/estate/property/migrations/1789999894372-ContractEstateProviderOwnership.ts:33-44 | insert with ON CONFLICT DO NOTHING: afterwards every live owner has an account, existing ones are untouched and owners stay unique |
| EstateOwnership.MembershipsInserted | src/modules/estate/property/migrations/1789999894372-ContractEstateProviderOwnership.ts:52-62 | every given account has exactly one owner membership row and existing rows are untouched |
| EstateOwnership.BindingTwice | src/modules/estate/property/migrations/1789999894372-ContractEstateProviderOwnership.ts:80-87 | binding estates is idempotent |
| EstateOwnershipMigration.EstateDatabase.Up | src/modules/estate/property/migrations/1789999894372-ContractEstateProviderOwnership.ts:30-125 | up: the statements in order and, on either failed check, nothing changed |
| EstateOwnershipMigration.EstateDatabase.Down | src/modules/estate/property/migrations/1789999894372-ContractEstateProviderOwnership.ts:127-133 | down relaxes the column and keeps the bindings |
| EstateOwnershipMigration.ContractExact | src/modules/estate/property/migrations/1789999894372-ContractEstateProviderOwnership.ts:89-119 | the migration succeeds exactly when every unbound estate's owner has a live account or is a live customer without any account row, and every bound estate's account exists |
| EstateOwnershipMigration.EveryEstateOwned | src/modules/estate/property/migrations/1789999894372-ContractEstateProviderOwnership.ts:80-119 | on success every estate, soft-deleted ones included, is bound to an existing provider: the one it had, or a live account of its owner |
| EstateOwnershipMigration.OnlyInsertsAccounts | src/modules/estate/property/migrations/1789999894372-ContractEstateProviderOwnership.ts:31-44 | no existing account changes; new ones are active, verified and of live owners without one |
| EstateOwnershipMigration.OnlyInsertsAuthority | src/modules/estate/property/migrations/1789999894372-ContractEstateProviderOwnership.ts:46-74 | no existing membership, assignment or role changes, and OWNER goes only to memberships inserted by this run |
| EstateOwnershipMigration.NewAccountsHaveOwner | src/modules/estate/property/migrations/1789999894372-ContractEstateProviderOwnership.ts:52-74 | every account the migration creates has an active owner |
| EstateOwnershipMigration.RerunIsNoOp | src/modules/estate/property/migrations/1789999894372-ContractEstateProviderOwnership.ts:27 | running it again, after down or not, changes nothing |
| ContractRows.ResultExact | src/modules/estate/property/migrations/1789999894372-ContractEstateProviderOwnership.ts:89-119 | it succeeds exactly when no unbound estate lacks both a live account of its owner and a live owner without any account row, and no bound one names a missing account; otherwise it counts the former or else the latter and leaves everything as it was |
| ContractRows.AccountsExact | src/modules/estate/property/migrations/1789999894372-ContractEstateProviderOwnership.ts:33-44 | no account row changes, and the new ones are exactly one for each live customer who owns an estate and had no account row |
| ContractRows.MembersExact | src/modules/estate/property/migrations/1789999894372-ContractEstateProviderOwnership.ts:52-74 | no membership changes, the new ones are exactly the missing memberships of estate owners in their live accounts, and exactly these are assigned the active OWNER role |
| LegacyProviderBackfill.LegacyDatabase.RestoreAccounts | src/modules/provider/registration/data-migrations/backfill-legacy-estate-providers.ts:7-34 | the first three statements: accounts inserted and reactivated, estates bound, and the number of accounts created |
| LegacyProviderBackfill.LegacyDatabase.RestoreOwners | src/modules/provider/registration/data-migrations/backfill-legacy-estate-providers.ts:47-69 | owner memberships upserted to active and OWNER granted to the active ones |
| LegacyProviderBackfill.LegacyDatabase.Run | src/modules/provider/registration/data-migrations/backfill-legacy-estate-providers.ts:4-104 | the whole run with its report; a failing run keeps the statements it executed |
| LegacyProviderBackfill.CountsAreZero | src/modules/provider/registration/data-migrations/backfill-legacy-estate-providers.ts:81-88 | once an active OWNER role exists, the membership and owner-role counts of the self-check are always zero |
| LegacyProviderBackfill.BackfillExact | src/modules/provider/registration/data-migrations/backfill-legacy-estate-providers.ts:36-102 | the run finishes exactly when an active OWNER role exists and every live estate can be bound |
| LegacyProviderBackfill.SecondRunChangesNothing | src/modules/provider/registration/data-migrations/backfill-legacy-estate-providers.ts:3 | whatever the first run reported, a second one changes nothing and, after success, reports no account created |
| LegacyProviderBackfill.OwnersRestored | src/modules/provider/registration/data-migrations/backfill-legacy-estate-providers.ts:20-69 | every live account whose owner has an estate that is not soft-deleted ends active and verified with that owner as active OWNER member |
| LegacyProviderBackfill.RestoredOwnersCanWrite | src/modules/provider/authorization/helpers/provider-supply-access.policy.ts:30-33 | so each of these owners may write for the provider at runtime |
| LegacyProviderBackfill.OtherAccountsUntouched | src/modules/provider/registration/data-migrations/backfill-legacy-estate-providers.ts:20-34 | soft-deleted accounts, accounts of other owners and bound estates stay as they were |
| LegacyProviderBackfill.OtherMembersUntouched | src/modules/provider/registration/data-migrations/backfill-legacy-estate-providers.ts:47-69 | memberships other than an estate owner's, roles and granted assignments stay as they were |
| LegacyProviderBackfill.GrantsExact | src/modules/provider/registration/data-migrations/backfill-legacy-estate-providers.ts:56-69 | a run adds exactly these assignments: the active OWNER role to the memberships of estate owners in their own provider, if the account is live or the membership was active already |
| LegacyProviderBackfill.SoftDeletedProviderGranted | src/modules/provider/registration/data-migrations/backfill-legacy-estate-providers.ts:58-66 | a run that grants OWNER in a soft-deleted provider |
| BackfillRows.AccountsExact | src/modules/provider/registration/data-migrations/backfill-legacy-estate-providers.ts:7-27 | an account is made active and verified exactly if it is undeleted and its owner has an undeleted estate, an account is inserted exactly for a live customer with such an estate and no account row, and no other account changes |
| BackfillRows.EstatesExact | src/modules/provider/registration/data-migrations/backfill-legacy-estate-providers.ts:28-34 | an unbound estate is bound to its owner's undeleted account exactly if there is one; nothing else of any estate changes |
| BackfillRows.MembersExact | src/modules/provider/registration/data-migrations/backfill-legacy-estate-providers.ts:47-55 | a membership is restored exactly if it is the owner's in an undeleted account and the owner has an undeleted estate; new ones are such memberships where the owner had none |
| BackfillRows.ServedHasOwner | src/modules/provider/registration/data-migrations/backfill-legacy-estate-providers.ts:47-69 | conversely each undeleted account whose owner has an undeleted estate ends with exactly one membership of the owner, active and holding OWNER |
| BackfillRows.AssignmentsExact | src/modules/provider/registration/data-migrations/backfill-legacy-estate-providers.ts:56-69 | an assignment is new exactly for the active OWNER role and an undeleted, active membership of a provider's owner who has an undeleted estate |
| BackfillRows.GrantedForLiveEstate | src/modules/provider/registration/data-migrations/backfill-legacy-estate-providers.ts:63-66 | so behind every new assignment there is an undeleted estate of the customer who holds it |
| BackfillRows.ReportExact | src/modules/provider/registration/data-migrations/backfill-legacy-estate-providers.ts:36-103 | what is reported in which state of the tables, and that the number is that of the inserted accounts |
| MigrationVerifier.GroupsDecide | src/database/migration-runner/helpers.ts:49-58 | judging group by group rejects exactly when two migrations share a timestamp and one of that group is not allowlisted |
| MigrationVerifier.ValueByPlace | src/database/migration-runner/helpers.ts:43 | the timestamp is the number that its digits write |
| MigrationVerifier.TimestampExact | src/database/migration-runner/helpers.ts:38-43 | a name carries a timestamp exactly if its last 13 characters are digits, and two carry one timestamp exactly if these are the same |
| MigrationVerifier.AcceptedExact | src/database/migration-runner/helpers.ts:34-59 | in characters: exactly the lists in which every name ends in 13 digits, which a name outside the allowlist shares with no other |
| MigrationVerifier.GroupByTimestamp | src/database/migration-runner/helpers.ts:35-47 | the Map-filling loop: every timestamp's names in discovery order, or the name that does not end in 13 digits |
| MigrationVerifier.FirstForbidden | src/database/migration-runner/helpers.ts:49-58 | the loop over the groups finds a forbidden one if there is any |
| MigrationVerifier.AssertMigrationTimestamps | src/database/migration-runner/helpers.ts:34-59 | accepts exactly the lists whose names all end in a timestamp and share none outside the allowlist |
| MigrationVerifier.AssertMigrationMetadata | src/database/migration-runner/helpers.ts:62-73 | accepts exactly nonempty, distinct names that also pass the timestamp check, and says which check failed |
| MigrationVerifier.Pigeonhole | src/database/migration-runner/helpers.ts:91-105 | equal length, distinct applied names and inclusion make the applied names a permutation of the discovered ones |
| MigrationVerifier.AssertAllMigrationsApplied | src/database/migration-runner/helpers.ts:76-114 | passes exactly when nothing is pending, the applied names are a permutation of the distinct discovered ones, and the whole list is sorted by timestamp; each failure is reported exactly in its case |
| AuthorizationMatrix.GroupPermissions | src/modules/administration/authorization/services/authorization-management.service.ts:429-439 | the Map-filling loop: categories in order of first occurrence, each with its permissions in order |
| AuthorizationMatrix.ConcatenationExact | src/modules/administration/authorization/services/authorization-management.service.ts:429-448 | groups are homogeneous with distinct categories, and their concatenation is the permission list exactly when categories stand together |
| AuthorizationMatrix.GroupPlaces | src/modules/administration/authorization/services/authorization-management.service.ts:429-439 | in any list a group has exactly the permissions of its category, at all their places and in the order of the list |
| AuthorizationMatrix.OrderedConcatenation | src/modules/administration/authorization/services/authorization-management.service.ts:422-439 | they do in a list ordered by category in any collation, so there the concatenation is the list |
| AuthorizationMatrix.FillAssignments | src/modules/administration/authorization/services/authorization-management.service.ts:440-443 | the two loops over roles and mappings: a mapping of a role without an entry is dropped |
| AuthorizationMatrix.EntriesExact | src/modules/administration/authorization/services/authorization-management.service.ts:416-452 | exactly the live roles have an entry, and it lists the role's mapped permission ids once each in ascending order |

## Left out

- HTTP controllers, DTO validation, filters, logging, JWT signing and verification, bcrypt: plumbing and library calls. A token is its claims with a serial number; whether it verifies and whether a password matches are parameters.
- Role code normalisation, trimming of names, display names and provider types: string preparation before the transactions.
- Request ids, reasons, role summaries and JSON in audit rows: an event keeps platform, target, actor, action and the id sets that replay needs.
- Timestamps other than revocation and expiry (`updated_at`, `last_used_at`, `assigned_at`, `joined_at`) and `user_agent`: nothing modelled depends on them.
- List, search, paging, audit and detail queries, `roleSummary` and its allowed actions: read-only projections.
- Row locks other than `FOR UPDATE` on a membership, an approved account and a session, and those of session updates, and collisions of advisory keys: assumptions of the lock model.
- Independent registration, which inserts the customer in the same transaction as the provider: the customer is taken to exist.
- Legacy global roles, estates and listings as services, locations and leads: their invariants are short; estates appear as rows of the two transformations.
- `down` of the other migrations, the schema statements and the texts of the migration errors with their sample ids: only the counts of the two failed checks are kept.
- SessionFamilies.NoRotationAfterReuse: is about whole calls of an arbitrary caller; for such a caller it is false statement by statement (`ReuseRevokesExactly` says when), and for login and refresh `ReuseEndsFamilyForGood` is its form in every interleaving.
- ProviderAccess.ResolvedContextSound: compares provider ids as values, so the spelling of a uuid on the fallback path is not modelled.
- AuthorizationMatrix.EntriesExact: orders ids as numbers, in place of the database's uuid order.
- MigrationVerifier.AssertAllMigrationsApplied: takes the answer of `showMigrations` as a parameter.
