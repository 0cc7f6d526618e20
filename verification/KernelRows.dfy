/** Each mutating transaction in terms of the rows it reads and writes: exactly when it commits,
    exactly when it is refused with which error, and every field it leaves behind. */
module KernelRows {
  import opened Basics
  import opened AuthorizationTables
  import opened RecoveryCapability
  import opened AuthorizationKernel

  // ----- Permission and role lists -----

  predicate PermissionPresent(t: Tables, id: Id) {
    id in t.permissions && !t.permissions[id].deleted
  }

  predicate RolePresent(t: Tables, id: Id) {
    id in t.roles && !t.roles[id].deleted
  }

  /** Every listed permission exists and may be assigned. */
  predicate AllOffered(t: Tables, ids: seq<Id>) {
    forall id :: id in ids ==>
      PermissionPresent(t, id) && t.permissions[id].isAssignable && !t.permissions[id].deprecated
  }

  predicate AllPresent(t: Tables, ids: seq<Id>) {
    forall id :: id in ids ==> PermissionPresent(t, id)
  }

  /** Some listed permission exists on another platform. */
  predicate Elsewhere(db: Db, p: Platform, ids: seq<Id>) {
    exists q, id :: q != p && id in ids && PermissionPresent(db.Of(q), id)
  }

  /** The verdict on a permission list, refusal by refusal. */
  ghost predicate PermissionVerdict(db: Db, p: Platform, ids: seq<Id>, verdict: Option<Error>) {
    var t := db.Of(p);
    && (verdict.None? <==> AllOffered(t, ids))
    && (verdict == Some(PermissionPlatformMismatch) <==> !AllPresent(t, ids) && Elsewhere(db, p, ids))
    && (verdict == Some(PermissionNotFound) <==> !AllPresent(t, ids) && !Elsewhere(db, p, ids))
    && (verdict == Some(PermissionNotAssignable) <==> AllPresent(t, ids) && !AllOffered(t, ids))
  }

  lemma PermissionsJudged(db: Db, p: Platform, ids: seq<Id>)
    ensures PermissionVerdict(db, p, ids, ValidatePermissions(db, p, Dedup(ids)))
  {
    var t, unique := db.Of(p), Dedup(ids);
    DistinctCardinality(unique);
    SubsetSameSize(LivePermissions(t, unique), Elements(unique));
    assert LivePermissions(t, unique) == Elements(unique) <==> AllPresent(t, ids) by {
      assert forall id :: id in Elements(unique) <==> id in ids;
      assert forall id :: id in LivePermissions(t, unique) <==> id in ids && PermissionPresent(t, id);
    }
    forall q: Platform, id
      ensures id in LivePermissions(db.Of(q), unique) <==> id in ids && PermissionPresent(db.Of(q), id)
    {
    }
    assert (exists q :: q != p && LivePermissions(db.Of(q), unique) != {}) <==> Elsewhere(db, p, ids) by {
      if q :| q != p && LivePermissions(db.Of(q), unique) != {} {
        var id :| id in LivePermissions(db.Of(q), unique);
      }
    }
  }

  /** The verdict on a role list, refusal by refusal. */
  ghost predicate RoleVerdict(db: Db, p: Platform, ids: seq<Id>, verdict: Option<Error>) {
    var missing := exists id :: id in ids && !RolePresent(db.Of(p), id);
    var elsewhere := exists q, id :: q != p && id in ids && RolePresent(db.Of(q), id);
    && (verdict.None? <==> !missing)
    && (verdict == Some(RolePlatformMismatch) <==> missing && elsewhere)
    && (verdict == Some(RoleNotFound) <==> missing && !elsewhere)
  }

  lemma RolesJudged(db: Db, p: Platform, ids: seq<Id>)
    ensures RoleVerdict(db, p, ids, ValidateRoleIds(db, p, Dedup(ids)))
  {
    var unique := Dedup(ids);
    ValidateRoleIdsExact(db, p, unique);
    forall q: Platform, id ensures id in LiveRoles(db.Of(q), unique) <==> id in ids && RolePresent(db.Of(q), id) {
    }
    if q, id :| q != p && id in ids && RolePresent(db.Of(q), id) {
      assert id in LiveRoles(db.Of(q), unique);
    }
    if q :| q != p && LiveRoles(db.Of(q), unique) != {} {
      var id :| id in LiveRoles(db.Of(q), unique);
    }
  }

  // ----- createRole -----

  predicate CodeTaken(t: Tables, role: Id, code: string) {
    role in t.roles || exists r :: r in t.roles && t.roles[r].code == code
  }

  lemma CreateExact(db: Db, op: Op)
    requires op.CreateRole?
    ensures var t, answer := db.Of(op.platform), Execute(db, op);
            && (answer.Committed? <==> AllOffered(t, op.permissionIds) && !CodeTaken(t, op.roleId, op.code))
            && (answer == Failed(RoleCodeExists) <==>
                AllOffered(t, op.permissionIds) && CodeTaken(t, op.roleId, op.code))
            && (answer == Failed(PermissionNotAssignable) <==>
                AllPresent(t, op.permissionIds) && !AllOffered(t, op.permissionIds))
            && (answer == Failed(PermissionPlatformMismatch) <==>
                !AllPresent(t, op.permissionIds) && Elsewhere(db, op.platform, op.permissionIds))
            && (answer == Failed(PermissionNotFound) <==>
                !AllPresent(t, op.permissionIds) && !Elsewhere(db, op.platform, op.permissionIds))
  {
    PermissionsJudged(db, op.platform, op.permissionIds);
  }

  /** The new role is active, custom, of version 1 and mapped to exactly the listed permissions. */
  lemma CreateWrites(db: Db, op: Op)
    requires op.CreateRole? && Execute(db, op).Committed?
    ensures var t := db.Of(op.platform);
            var row := Role(op.code, op.name, op.description, false, RoleActive, 1, false);
            var listed := set id | id in op.permissionIds;
            Execute(db, op).db ==
            db.With(op.platform, t.(roles := t.roles[op.roleId := row],
                                    mappings := t.mappings + set id | id in listed :: (op.roleId, id)))
            .(audit := db.audit + [Event(op.platform, op.roleId, RoleCreated(listed), op.actor)])
  {
    var listed := set id | id in op.permissionIds;
    assert Elements(op.permissionIds) == listed;
    assert Pairs(op.roleId, listed) == set id | id in listed :: (op.roleId, id);
  }

  // ----- updateRole -----

  function UpdatedRow(row: Role, op: Op): Role
    requires op.UpdateRole?
  {
    Role(row.code, if op.newName.Some? then op.newName.value else row.name,
         if op.newDescription.Some? then op.newDescription.value else row.description, row.isSystem,
         if op.newStatus.Some? then op.newStatus.value else row.status, row.version + 1, row.deleted)
  }

  function WithUpdated(t: Tables, op: Op): Tables
    requires op.UpdateRole? && op.roleId in t.roles
  {
    t.(roles := t.roles[op.roleId := UpdatedRow(t.roles[op.roleId], op)])
  }

  /** A system role changes status, or OWNER on PROVIDER is disabled. */
  predicate ImmutableStatus(p: Platform, row: Role, status: Option<RoleStatus>) {
    || (row.isSystem && status.Some? && status.value != row.status)
    || (p == Platform.Provider && row.code == "OWNER" && status == Some(RoleDisabled))
  }

  /** The tables would leave ADMINISTRATION without a recovery administrator. */
  ghost predicate Unrecoverable(p: Platform, after: Tables) {
    p.Administration? && !Recoverable(after)
  }

  lemma UpdateExact(db: Db, op: Op)
    requires op.UpdateRole?
    ensures var t, answer := db.Of(op.platform), Execute(db, op);
            && (answer == Failed(RoleNotFound) <==> !RolePresent(t, op.roleId))
            && (RolePresent(t, op.roleId) ==>
                  var row := t.roles[op.roleId];
                  var immutable := ImmutableStatus(op.platform, row, op.newStatus);
                  var lost := Unrecoverable(op.platform, WithUpdated(t, op));
                  && (answer.Committed? <==> !immutable && row.version == op.expectedVersion && !lost)
                  && (answer == Failed(SystemRoleImmutable) <==> immutable)
                  && (answer == Failed(RoleVersionConflict) <==> !immutable && row.version != op.expectedVersion)
                  && (answer == Failed(LastAdminProtection) <==>
                      !immutable && row.version == op.expectedVersion && lost))
  {
    var t := db.Of(op.platform);
    if RolePresent(t, op.roleId) {
      RecoverableExact(WithUpdated(t, op));
    }
  }

  lemma UpdateWrites(db: Db, op: Op)
    requires op.UpdateRole? && Execute(db, op).Committed?
    ensures var t := db.Of(op.platform);
            var action := if op.newStatus == Some(RoleDisabled) then RoleDisabledByUpdate else RoleUpdated;
            && op.roleId in t.roles
            && Execute(db, op).db == db.With(op.platform, WithUpdated(t, op))
                                     .(audit := db.audit + [Event(op.platform, op.roleId, action, op.actor)])
  {
  }

  // ----- deleteRole -----

  predicate Assigned(t: Tables, role: Id) {
    exists row :: row in t.assignments && row.1 == role
  }

  function WithDeleted(t: Tables, role: Id): Tables
    requires role in t.roles
  {
    var row := t.roles[role];
    t.(roles := t.roles[role := Role(row.code, row.name, row.description, row.isSystem, RoleDisabled, row.version + 1,
                                     true)])
  }

  lemma DeletedTables(db: Db, op: Op)
    requires op.DeleteRole? && Applicable(db, op)
    ensures Effect(db, op).Of(op.platform) == WithDeleted(db.Of(op.platform), op.roleId)
  {
  }

  lemma DeleteExact(db: Db, op: Op)
    requires op.DeleteRole?
    ensures var t, answer := db.Of(op.platform), Execute(db, op);
            && (answer == Failed(RoleNotFound) <==> !RolePresent(t, op.roleId))
            && (RolePresent(t, op.roleId) ==>
                  var immutable := t.roles[op.roleId].isSystem || t.roles[op.roleId].code == "OWNER";
                  var used, lost := Assigned(t, op.roleId), Unrecoverable(op.platform, WithDeleted(t, op.roleId));
                  && (answer.Committed? <==> !immutable && !used && !lost)
                  && (answer == Failed(SystemRoleImmutable) <==> immutable)
                  && (answer == Failed(RoleInUse) <==> !immutable && used)
                  && (answer == Failed(LastAdminProtection) <==> !immutable && !used && lost))
  {
    var t := db.Of(op.platform);
    if RolePresent(t, op.roleId) {
      RecoverableExact(WithDeleted(t, op.roleId));
      if Applicable(db, op) {
        DeletedTables(db, op);
      }
    }
  }

  lemma DeleteWrites(db: Db, op: Op)
    requires op.DeleteRole? && Execute(db, op).Committed?
    ensures op.roleId in db.Of(op.platform).roles
    ensures Execute(db, op).db == db.With(op.platform, WithDeleted(db.Of(op.platform), op.roleId))
                                  .(audit := db.audit + [Event(op.platform, op.roleId, RoleDeleted, op.actor)])
  {
  }

  // ----- replaceRolePermissions -----

  /** The role with exactly the listed permissions and the next version. */
  function Remapped(t: Tables, role: Id, ids: seq<Id>): Tables
    requires role in t.roles
  {
    var row := t.roles[role];
    t.(roles := t.roles[role := Role(row.code, row.name, row.description, row.isSystem, row.status, row.version + 1,
                                     row.deleted)],
       mappings := (set m | m in t.mappings && m.0 != role) + (set id | id in ids :: (role, id)))
  }

  predicate ListsCode(t: Tables, ids: seq<Id>, code: string) {
    exists id :: id in ids && id in t.permissions && t.permissions[id].code == code
  }

  /** Both permissions on the provider account are listed. */
  predicate KeepsOwnerPermissions(t: Tables, ids: seq<Id>) {
    ListsCode(t, ids, "provider-account:read") && ListsCode(t, ids, "provider-account:update")
  }

  lemma OwnerCodesListed(t: Tables, ids: seq<Id>)
    ensures OwnerPermissionsKept(t, Dedup(ids)) <==> KeepsOwnerPermissions(t, ids)
  {
    var codes := set id | id in Dedup(ids) && id in t.permissions :: t.permissions[id].code;
    forall code ensures code in codes <==> ListsCode(t, ids, code) {
      if ListsCode(t, ids, code) {
        var id :| id in ids && id in t.permissions && t.permissions[id].code == code;
        assert id in Dedup(ids);
      }
    }
    assert "provider-account:read" in OWNER_PERMISSIONS && "provider-account:update" in OWNER_PERMISSIONS;
  }

  lemma RemappedExactly(t: Tables, op: Op)
    requires op.ReplacePermissions? && op.roleId in t.roles
    ensures TablesEffect(t, op) == Remapped(t, op.roleId, op.permissionIds)
  {
    var t', expected := TablesEffect(t, op), Remapped(t, op.roleId, op.permissionIds);
    forall m: (Id, Id) ensures m in t'.mappings <==> m in expected.mappings {
      assert m == (m.0, m.1);
    }
  }

  predicate IsProviderOwner(p: Platform, row: Role) {
    p == Platform.Provider && row.code == "OWNER"
  }

  /** The checks before the write, in their order. */
  lemma ReplacePermissionsRefusals(db: Db, op: Op)
    requires op.ReplacePermissions?
    ensures var t, ids, answer := db.Of(op.platform), op.permissionIds, Execute(db, op);
            && (answer == Failed(RoleNotFound) <==> !RolePresent(t, op.roleId))
            && (answer == Failed(PermissionPlatformMismatch) <==>
                RolePresent(t, op.roleId) && !AllPresent(t, ids) && Elsewhere(db, op.platform, ids))
            && (answer == Failed(PermissionNotFound) <==>
                RolePresent(t, op.roleId) && !AllPresent(t, ids) && !Elsewhere(db, op.platform, ids))
            && (answer == Failed(PermissionNotAssignable) <==>
                RolePresent(t, op.roleId) && AllPresent(t, ids) && !AllOffered(t, ids))
  {
    PermissionsJudged(db, op.platform, op.permissionIds);
  }

  /** Over an acceptable list: the version, what OWNER must keep, and recovery on the written state. */
  lemma ReplacePermissionsExact(db: Db, op: Op)
    requires op.ReplacePermissions? && RolePresent(db.Of(op.platform), op.roleId)
    ensures var t, ids, answer := db.Of(op.platform), op.permissionIds, Execute(db, op);
            var row := t.roles[op.roleId];
            var lost := Unrecoverable(op.platform, Remapped(t, op.roleId, ids));
            var refused := IsProviderOwner(op.platform, row) && !KeepsOwnerPermissions(t, ids);
            var unusable := IsProviderOwner(op.platform, row) && row.status != RoleActive;
            var current := row.version == op.expectedVersion;
            && (answer.Committed? <==> AllOffered(t, ids) && !refused && current && !unusable && !lost)
            && (answer == Failed(RoleVersionConflict) <==> AllOffered(t, ids) && !refused && !current)
            && (answer == Failed(ProviderOwnerProtection) <==>
                AllOffered(t, ids) && (refused || (current && unusable)))
            && (answer == Failed(LastAdminProtection) <==> AllOffered(t, ids) && current && lost)
  {
    var t := db.Of(op.platform);
    PermissionsJudged(db, op.platform, op.permissionIds);
    OwnerCodesListed(t, op.permissionIds);
    RemappedExactly(t, op);
    RecoverableExact(Remapped(t, op.roleId, op.permissionIds));
  }

  lemma ReplacePermissionsWrites(db: Db, op: Op)
    requires op.ReplacePermissions? && Execute(db, op).Committed?
    ensures var t := db.Of(op.platform);
            var before := set m | m in t.mappings && m.0 == op.roleId :: m.1;
            var after := set id | id in op.permissionIds;
            && op.roleId in t.roles
            && Execute(db, op).db ==
               db.With(op.platform, Remapped(t, op.roleId, op.permissionIds))
               .(audit := db.audit + [Event(op.platform, op.roleId, RolePermissionsReplaced(before, after), op.actor)])
  {
    RemappedExactly(db.Of(op.platform), op);
    assert Elements(op.permissionIds) == set id | id in op.permissionIds;
  }

  // ----- replaceSubjectRoles -----

  /** The subject with exactly the listed roles. */
  function Reassigned(t: Tables, subject: Id, ids: seq<Id>): Tables {
    t.(assignments := (set row | row in t.assignments && row.0 != subject) + (set id | id in ids :: (subject, id)))
  }

  lemma ReassignedExactly(t: Tables, op: Op)
    requires op.ReplaceRoles?
    ensures TablesEffect(t, op) == Reassigned(t, op.subjectId, op.roleIds)
  {
    var t', expected := TablesEffect(t, op), Reassigned(t, op.subjectId, op.roleIds);
    forall row: (Id, Id) ensures row in t'.assignments <==> row in expected.assignments {
      assert row == (row.0, row.1);
    }
  }

  /** An undeleted, active role with code OWNER. */
  predicate ActiveOwnerRole(t: Tables, r: Id) {
    r in t.roles && t.roles[r].code == "OWNER" && !t.roles[r].deleted && t.roles[r].status == RoleActive
  }

  /** An undeleted, active membership of the provider that is assigned the role. */
  predicate Holds(t: Tables, m: Id, provider: Id, r: Id) {
    && (m, r) in t.assignments && m in t.subjects && t.subjects[m].Membership? && !t.subjects[m].deleted
    && t.subjects[m].providerId == provider && t.subjects[m].memberStatus == MemberActive
  }

  predicate Held(t: Tables, provider: Id, r: Id) {
    exists m :: m in t.subjects && Holds(t, m, provider, r)
  }

  /** The subject is a membership, and for some active OWNER role that is not listed its provider has no holder. */
  predicate Unowned(p: Platform, after: Tables, subject: Id, ids: seq<Id>) {
    && p == Platform.Provider && subject in after.subjects && after.subjects[subject].Membership?
    && exists r :: r in after.roles && ActiveOwnerRole(after, r) && r !in ids
                   && !Held(after, after.subjects[subject].providerId, r)
  }

  predicate SomeDisabled(t: Tables, ids: seq<Id>) {
    exists id :: id in ids && RolePresent(t, id) && t.roles[id].status != RoleActive
  }

  lemma HeldExactly(t: Tables, provider: Id, r: Id)
    ensures Holders(t, provider, r) != {} <==> Held(t, provider, r)
  {
    if m :| m in Holders(t, provider, r) {
      assert Holds(t, m, provider, r);
    }
    if m :| m in t.subjects && Holds(t, m, provider, r) {
      assert (m, r) in t.assignments && ActiveMember(t, m, provider);
      assert m in Holders(t, provider, r);
    }
  }

  lemma OwnedExactly(t: Tables, subject: Id, ids: seq<Id>)
    requires subject in t.subjects && !t.subjects[subject].deleted
    ensures OwnerKept(t, ProviderOf(t, subject), Dedup(ids)) <==> !Unowned(Platform.Provider, t, subject, ids)
  {
    if t.subjects[subject].Membership? {
      forall r ensures Holders(t, t.subjects[subject].providerId, r) != {} <==>
          Held(t, t.subjects[subject].providerId, r)
      {
        HeldExactly(t, t.subjects[subject].providerId, r);
      }
      assert forall r :: r in OwnerRoles(t) <==> ActiveOwnerRole(t, r);
    }
  }

  /** The checks before the write, in their order. */
  lemma ReplaceRolesRefusals(db: Db, op: Op)
    requires op.ReplaceRoles?
    ensures var t, ids, answer := db.Of(op.platform), op.roleIds, Execute(db, op);
            var found := op.subjectId in t.subjects && !t.subjects[op.subjectId].deleted;
            var missing := exists id :: id in ids && !RolePresent(t, id);
            var elsewhere := exists q, id :: q != op.platform && id in ids && RolePresent(db.Of(q), id);
            && (answer == Failed(SubjectNotFound) <==> !found)
            && (answer == Failed(RolePlatformMismatch) <==> found && missing && elsewhere)
            && (answer == Failed(RoleNotFound) <==> found && missing && !elsewhere)
            && (answer == Failed(DisabledRole) <==> found && !missing && SomeDisabled(t, ids))
  {
    RolesJudged(db, op.platform, op.roleIds);
  }

  predicate AllUsable(t: Tables, ids: seq<Id>) {
    forall id :: id in ids ==> RolePresent(t, id) && t.roles[id].status == RoleActive
  }

  /** Only over usable roles are the rows written, and they are those of the reassigned subject. */
  lemma RolesWritten(db: Db, op: Op)
    requires op.ReplaceRoles? && op.subjectId in db.Of(op.platform).subjects
    requires !db.Of(op.platform).subjects[op.subjectId].deleted
    ensures !AllUsable(db.Of(op.platform), op.roleIds) ==>
              Execute(db, op) in {Failed(RolePlatformMismatch), Failed(RoleNotFound), Failed(DisabledRole)}
    ensures AllUsable(db.Of(op.platform), op.roleIds) ==>
              && Applicable(db, op) && Execute(db, op) == Guarded(Effect(db, op), op)
              && Effect(db, op).Of(op.platform) == Reassigned(db.Of(op.platform), op.subjectId, op.roleIds)
  {
    RolesJudged(db, op.platform, op.roleIds);
    ReassignedExactly(db.Of(op.platform), op);
  }

  /** Over acceptable roles: recovery and the last owner on the written state. */
  lemma ReplaceRolesExact(db: Db, op: Op)
    requires op.ReplaceRoles? && op.subjectId in db.Of(op.platform).subjects
    requires !db.Of(op.platform).subjects[op.subjectId].deleted
    ensures var t, ids, answer := db.Of(op.platform), op.roleIds, Execute(db, op);
            var after := Reassigned(t, op.subjectId, ids);
            && (answer.Committed? <==>
                  && AllUsable(t, ids) && !Unrecoverable(op.platform, after)
                  && !Unowned(op.platform, after, op.subjectId, ids))
            && (answer == Failed(LastAdminProtection) <==> AllUsable(t, ids) && Unrecoverable(op.platform, after))
            && (answer == Failed(ProviderLastOwnerProtection) <==>
                AllUsable(t, ids) && Unowned(op.platform, after, op.subjectId, ids))
  {
    var after := Reassigned(db.Of(op.platform), op.subjectId, op.roleIds);
    RolesWritten(db, op);
    RecoverableExact(after);
    OwnedExactly(after, op.subjectId, op.roleIds);
  }

  lemma ReplaceRolesWrites(db: Db, op: Op)
    requires op.ReplaceRoles? && Execute(db, op).Committed?
    ensures var t := db.Of(op.platform);
            var before := set row | row in t.assignments && row.0 == op.subjectId :: row.1;
            var after := set id | id in op.roleIds;
            Execute(db, op).db ==
            db.With(op.platform, Reassigned(t, op.subjectId, op.roleIds))
            .(audit := db.audit + [Event(op.platform, op.subjectId, SubjectRolesReplaced(before, after), op.actor)])
  {
    ReassignedExactly(db.Of(op.platform), op);
    assert Elements(op.roleIds) == set id | id in op.roleIds;
  }

  /** A provider has an owner when some undeleted, active membership holds some active OWNER role. */
  lemma OwnerExact(t: Tables, provider: Id)
    ensures HasOwner(t, provider) <==> exists m, r :: ActiveOwnerRole(t, r) && Holds(t, m, provider, r)
  {
    if HasOwner(t, provider) {
      var r :| r in OwnerRoles(t) && Holders(t, provider, r) != {};
      var m :| m in Holders(t, provider, r);
      assert ActiveOwnerRole(t, r) && Holds(t, m, provider, r);
    }
    if m, r :| ActiveOwnerRole(t, r) && Holds(t, m, provider, r) {
      assert r in OwnerRoles(t) && (m, r) in t.assignments && m in Holders(t, provider, r);
    }
  }

  // ----- Providers -----

  predicate OwnsAccount(db: Db, customer: Id) {
    exists a :: a in db.accounts && db.accounts[a].ownerCustomerId == customer
  }

  predicate HasOwnerRole(t: Tables) {
    exists r :: r in t.roles && ActiveOwnerRole(t, r)
  }

  lemma ProvisionExact(db: Db, op: Op)
    requires op.Provision?
    ensures var answer := Execute(db, op);
            var taken := OwnsAccount(db, op.customerId) || op.providerId in db.accounts;
            var known, owner := op.customerId in db.marketplace.subjects, HasOwnerRole(db.provider);
            && (answer.Committed? <==> !taken && known && owner && op.membershipId !in db.provider.subjects)
            && (answer == Failed(ProviderAlreadyExists) <==>
                taken || (known && owner && op.membershipId in db.provider.subjects))
            && (answer == Failed(ForeignKeyViolation) <==> !taken && !known)
            && (answer == Failed(ProviderForbidden) <==> !taken && known && !owner)
  {
    assert forall r :: r in OwnerRoles(db.provider) <==> ActiveOwnerRole(db.provider, r);
  }

  /** A pending, active account; an active membership of its owner; the active OWNER role assigned to it. */
  lemma ProvisionWrites(db: Db, op: Op)
    requires op.Provision? && Execute(db, op).Committed?
    ensures var t := db.provider;
            var granted := set r | r in t.roles && ActiveOwnerRole(t, r) :: (op.membershipId, r);
            var membership := Membership(false, op.providerId, op.customerId, MemberActive);
            Execute(db, op).db ==
            db.(provider := t.(subjects := t.subjects[op.membershipId := membership],
                               assignments := t.assignments + granted),
                accounts := db.accounts[op.providerId := Account(op.customerId, AccountActive, Pending, false)])
  {
    var t := db.provider;
    assert Pairs(op.membershipId, OwnerRoles(t)) ==
           set r | r in t.roles && ActiveOwnerRole(t, r) :: (op.membershipId, r);
    assert db.audit + [] == db.audit;
  }

  lemma ApproveExact(db: Db, op: Op)
    requires op.Approve?
    ensures var answer := Execute(db, op);
            && (answer == Failed(ProviderNotFound) <==>
                op.accountId !in db.accounts || db.accounts[op.accountId].deleted)
            && (answer != Failed(ProviderNotFound) ==>
                  var account, customers := db.accounts[op.accountId], db.marketplace.subjects;
                  var live := account.ownerCustomerId in customers && !customers[account.ownerCustomerId].deleted;
                  && (answer.Committed? <==> account.verification == Pending && live)
                  && (answer == Failed(ProviderNotPending) <==> account.verification != Pending)
                  && (answer == Failed(ProviderForbidden) <==> account.verification == Pending && !live)
                  && (answer.Committed? ==>
                        var approved := Account(account.ownerCustomerId, AccountActive, Verified, false);
                        answer.db == db.(accounts := db.accounts[op.accountId := approved])))
  {
    assert db.audit + [] == db.audit;
  }
}
