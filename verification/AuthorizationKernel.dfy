/** The mutating transactions of authorization management and provider
    provisioning as functions on the whole database: what each one checks, in
    what order it rejects, and what it leaves behind when it commits. */
module AuthorizationKernel {
  import opened Basics
  import opened AuthorizationTables
  import opened RecoveryCapability

  datatype Op =
    | CreateRole(platform: Platform, roleId: Id, code: string, name: string, description: Option<string>,
                 permissionIds: seq<Id>, actor: Id)
    | UpdateRole(platform: Platform, roleId: Id, newName: Option<string>, newDescription: Option<Option<string>>,
                 newStatus: Option<RoleStatus>, expectedVersion: nat, actor: Id)
    | DeleteRole(platform: Platform, roleId: Id, actor: Id)
    | ReplacePermissions(platform: Platform, roleId: Id, permissionIds: seq<Id>, expectedVersion: nat, actor: Id)
    | ReplaceRoles(platform: Platform, subjectId: Id, roleIds: seq<Id>, actor: Id)
    | Provision(providerId: Id, membershipId: Id, customerId: Id)
    | Approve(accountId: Id)
  {
    /** The platform whose tables the operation writes. */
    function Home(): Platform {
      if Provision? || Approve? then Platform.Provider else platform
    }

    predicate OnLiveRole() { UpdateRole? || DeleteRole? || ReplacePermissions? }

    /** Operations that take an expected role version. */
    predicate Versioned() { UpdateRole? || ReplacePermissions? }
  }

  datatype Error =
    | RoleCodeExists | RoleNotFound | SystemRoleImmutable | RoleVersionConflict | RoleInUse
    | PermissionPlatformMismatch | PermissionNotFound | PermissionNotAssignable
    | RolePlatformMismatch | SubjectNotFound | DisabledRole
    | LastAdminProtection | ProviderOwnerProtection | ProviderLastOwnerProtection
    | ForeignKeyViolation | ProviderAlreadyExists | ProviderForbidden | ProviderNotFound | ProviderNotPending

  datatype Outcome = Committed(db: Db) | Failed(error: Error)

  /** [...new Set(ids)]: first occurrences in order. */
  function Dedup(ids: seq<Id>): (unique: seq<Id>)
    ensures Distinct(unique)
    ensures Elements(unique) == Elements(ids)
    ensures forall id :: id in unique <==> id in ids
  {
    if ids == [] then []
    else
      var front := Dedup(ids[..|ids| - 1]);
      var last := ids[|ids| - 1];
      assert ids == ids[..|ids| - 1] + [last];
      assert Elements(ids) == Elements(front) + {last};
      if last in front then front
      else
        assert Elements(front + [last]) == Elements(front) + {last};
        front + [last]
  }

  /** The position of the first occurrence. */
  function FirstAt(ids: seq<Id>, id: Id): (at: nat)
    requires id in ids
    ensures at < |ids| && ids[at] == id && id !in ids[..at]
  {
    if ids[0] == id then 0 else 1 + FirstAt(ids[1..], id)
  }

  lemma {:induction false} FirstAtFront(ids: seq<Id>, id: Id)
    requires ids != [] && id in ids[..|ids| - 1]
    ensures id in ids && FirstAt(ids, id) == FirstAt(ids[..|ids| - 1], id)
  {
    if ids[0] != id {
      assert ids[..|ids| - 1][1..] == ids[1..][..|ids| - 2];
      FirstAtFront(ids[1..], id);
    }
  }

  /** The remaining ids stand in the order of their first occurrences. */
  lemma {:induction false} DedupKeepsOrder(ids: seq<Id>, i: nat, j: nat)
    requires i < j < |Dedup(ids)|
    ensures Dedup(ids)[i] in ids && Dedup(ids)[j] in ids
    ensures FirstAt(ids, Dedup(ids)[i]) < FirstAt(ids, Dedup(ids)[j])
    decreases |ids|
  {
    var front, unique := ids[..|ids| - 1], Dedup(ids[..|ids| - 1]);
    assert Dedup(ids)[i] == unique[i] && unique[i] in front;
    FirstAtFront(ids, unique[i]);
    assert Dedup(ids)[j] in Dedup(ids);
    if j < |unique| {
      assert Dedup(ids)[j] == unique[j] && unique[j] in front;
      FirstAtFront(ids, unique[j]);
      DedupKeepsOrder(front, i, j);
    } else {
      assert ids[..FirstAt(ids, Dedup(ids)[j])] <= ids;
      assert Dedup(ids)[j] !in front;
    }
  }

  function LivePermissions(t: Tables, ids: seq<Id>): set<Id> {
    set id | id in ids && id in t.permissions && !t.permissions[id].deleted
  }

  function LiveRoles(t: Tables, ids: seq<Id>): set<Id> {
    set id | id in ids && RoleLive(t, id)
  }

  predicate Assignable(t: Tables, id: Id) {
    id in t.permissions && t.permissions[id].isAssignable && t.permissions[id].Effective()
  }

  /** Compares the number of rows found with the number of ids asked for, looks in
      the other platforms' tables to pick the error, then checks assignability. */
  function ValidatePermissions(db: Db, p: Platform, ids: seq<Id>): Option<Error> {
    var t := db.Of(p);
    if ids == [] then None
    else if |LivePermissions(t, ids)| != |ids| then
      if exists q :: q != p && LivePermissions(db.Of(q), ids) != {} then Some(PermissionPlatformMismatch)
      else Some(PermissionNotFound)
    else if exists id ::
      id in LivePermissions(t, ids) && (!t.permissions[id].isAssignable || t.permissions[id].deprecated)
    then Some(PermissionNotAssignable)
    else None
  }

  function ValidateRoleIds(db: Db, p: Platform, ids: seq<Id>): Option<Error> {
    if ids == [] then None
    else if |LiveRoles(db.Of(p), ids)| != |ids| then
      if exists q :: q != p && LiveRoles(db.Of(q), ids) != {} then Some(RolePlatformMismatch)
      else Some(RoleNotFound)
    else None
  }

  /** The length comparison accepts a deduplicated permission list exactly when
      every id is a live, assignable, non-deprecated permission of the platform. */
  lemma ValidatePermissionsExact(db: Db, p: Platform, ids: seq<Id>)
    requires Distinct(ids)
    ensures ValidatePermissions(db, p, ids).None? <==> forall id :: id in ids ==> Assignable(db.Of(p), id)
  {
    DistinctCardinality(ids);
    SubsetSameSize(LivePermissions(db.Of(p), ids), Elements(ids));
    if forall id :: id in ids ==> Assignable(db.Of(p), id) {
      assert LivePermissions(db.Of(p), ids) == Elements(ids);
    }
    if LivePermissions(db.Of(p), ids) == Elements(ids) {
      assert forall id :: id in ids ==> id in LivePermissions(db.Of(p), ids);
    }
  }

  lemma ValidateRoleIdsExact(db: Db, p: Platform, ids: seq<Id>)
    requires Distinct(ids)
    ensures ValidateRoleIds(db, p, ids).None? <==> forall id :: id in ids ==> RoleLive(db.Of(p), id)
  {
    DistinctCardinality(ids);
    SubsetSameSize(LiveRoles(db.Of(p), ids), Elements(ids));
    if forall id :: id in ids ==> RoleLive(db.Of(p), id) {
      assert LiveRoles(db.Of(p), ids) == Elements(ids);
    }
    if LiveRoles(db.Of(p), ids) == Elements(ids) {
      assert forall id :: id in ids ==> id in LiveRoles(db.Of(p), ids);
    }
  }

  predicate CodeInUse(t: Tables, code: string) {
    exists r :: r in t.roles && t.roles[r].code == code
  }

  predicate InUse(t: Tables, role: Id) {
    exists row :: row in t.assignments && row.1 == role
  }

  /** System roles keep their status, and the provider OWNER role is never disabled. */
  predicate StatusChangeAllowed(p: Platform, role: Role, status: Option<RoleStatus>) {
    && !(role.isSystem && status.Some? && status.value != role.status)
    && !(p == Platform.Provider && role.code == OWNER && status == Some(RoleDisabled))
  }

  predicate Deletable(role: Role) {
    !role.isSystem && role.code != OWNER
  }

  /** assertOwnerPermissions: the new set still contains both required codes. */
  predicate OwnerPermissionsKept(t: Tables, ids: seq<Id>) {
    OWNER_PERMISSIONS <= set id | id in ids && id in t.permissions :: t.permissions[id].code
  }

  /** The usable roles with code OWNER; codes are unique, so there is at most one. */
  function OwnerRoles(t: Tables): set<Id> {
    set r | r in t.roles && t.roles[r].Usable() && t.roles[r].code == OWNER
  }

  predicate ActiveMember(t: Tables, membership: Id, provider: Id) {
    && SubjectLive(t, membership)
    && t.subjects[membership].Membership?
    && t.subjects[membership].providerId == provider
    && t.subjects[membership].memberStatus == MemberActive
  }

  /** COUNT(DISTINCT membership_id): the active memberships of a provider that hold the role. */
  function Holders(t: Tables, provider: Id, role: Id): set<Id> {
    set row | row in t.assignments && row.1 == role && ActiveMember(t, row.0, provider) :: row.0
  }

  predicate HasOwner(t: Tables, provider: Id) {
    exists r :: r in OwnerRoles(t) && Holders(t, provider, r) != {}
  }

  function ProviderOf(t: Tables, subject: Id): Option<Id> {
    if SubjectLive(t, subject) && t.subjects[subject].Membership? then Some(t.subjects[subject].providerId) else None
  }

  /** assertProviderOwnerMembership after the subject's roles became roleIds. */
  predicate OwnerKept(t: Tables, provider: Option<Id>, roleIds: seq<Id>) {
    provider.Some? ==>
      forall r :: r in OwnerRoles(t) ==> r in roleIds || Holders(t, provider.value, r) != {}
  }

  predicate HasAccount(db: Db, customer: Id) {
    exists a :: a in db.accounts && db.accounts[a].ownerCustomerId == customer
  }

  // ----- What one transaction does, given that its checks pass -----

  function UpdatedRole(op: Op, role: Role): Role
    requires op.OnLiveRole()
  {
    match op
    case UpdateRole(_, _, name, description, status, _, _) =>
      role.(name := if name.Some? then name.value else role.name,
            description := if description.Some? then description.value else role.description,
            status := if status.Some? then status.value else role.status,
            version := role.version + 1)
    case DeleteRole(_, _, _) => role.(deleted := true, status := RoleDisabled, version := role.version + 1)
    case ReplacePermissions(_, _, _, _, _) => role.(version := role.version + 1)
  }

  function NewRole(op: Op): Role
    requires op.CreateRole?
  {
    Role(op.code, op.name, op.description, false, RoleActive, 1, false)
  }

  /** The audit row an operation writes; provisioning and approval write none. */
  function EventsOf(op: Op, before: set<Id>): seq<Event> {
    match op
    case CreateRole(p, id, _, _, _, ids, actor) => [Event(p, id, RoleCreated(Elements(ids)), actor)]
    case UpdateRole(p, id, _, _, status, _, actor) =>
      [Event(p, id, if status == Some(RoleDisabled) then RoleDisabledByUpdate else RoleUpdated, actor)]
    case DeleteRole(p, id, actor) => [Event(p, id, RoleDeleted, actor)]
    case ReplacePermissions(p, id, ids, _, actor) =>
      [Event(p, id, RolePermissionsReplaced(before, Elements(ids)), actor)]
    case ReplaceRoles(p, id, ids, actor) => [Event(p, id, SubjectRolesReplaced(before, Elements(ids)), actor)]
    case Provision(_, _, _) => []
    case Approve(_) => []
  }

  /** The rows an audit row reports as the state before. */
  function BeforeOf(db: Db, op: Op): set<Id> {
    if op.ReplacePermissions? then PermissionsOf(db.Of(op.platform), op.roleId)
    else if op.ReplaceRoles? then RolesOf(db.Of(op.platform), op.subjectId)
    else {}
  }

  function TablesEffect(t: Tables, op: Op): Tables
    requires op.OnLiveRole() ==> op.roleId in t.roles
  {
    match op
    case CreateRole(_, id, _, _, _, ids, _) =>
      t.(roles := t.roles[id := NewRole(op)], mappings := t.mappings + Pairs(id, Elements(ids)))
    case UpdateRole(_, id, _, _, _, _, _) => t.(roles := t.roles[id := UpdatedRole(op, t.roles[id])])
    case DeleteRole(_, id, _) => t.(roles := t.roles[id := UpdatedRole(op, t.roles[id])])
    case ReplacePermissions(_, id, ids, _, _) =>
      t.(roles := t.roles[id := UpdatedRole(op, t.roles[id])],
         mappings := t.mappings - RowsOf(t.mappings, id) + Pairs(id, Elements(ids)))
    case ReplaceRoles(_, id, ids, _) =>
      t.(assignments := t.assignments - RowsOf(t.assignments, id) + Pairs(id, Elements(ids)))
    case Provision(provider, membership, customer) =>
      t.(subjects := t.subjects[membership := Membership(false, provider, customer, MemberActive)],
         assignments := t.assignments + Pairs(membership, OwnerRoles(t)))
    case Approve(_) => t
  }

  function AccountsEffect(accounts: map<Id, Account>, op: Op): map<Id, Account>
    requires op.Approve? ==> op.accountId in accounts
  {
    if op.Provision? then accounts[op.providerId := Account(op.customerId, AccountActive, Pending, false)]
    else if op.Approve? then
      accounts[op.accountId := accounts[op.accountId].(status := AccountActive, verification := Verified)]
    else accounts
  }

  /** The checks whose outcome the operation's own locks keep true until commit. */
  predicate Applicable(db: Db, op: Op) {
    var t := db.Of(op.Home());
    match op
    case CreateRole(p, id, code, _, _, ids, _) =>
      ValidatePermissions(db, p, Dedup(ids)).None? && id !in t.roles && !CodeInUse(t, code)
    case UpdateRole(p, id, _, _, status, version, _) =>
      RoleLive(t, id) && StatusChangeAllowed(p, t.roles[id], status) && t.roles[id].version == version
    case DeleteRole(p, id, _) => RoleLive(t, id) && Deletable(t.roles[id])
    case ReplacePermissions(p, id, ids, version, _) =>
      && RoleLive(t, id) && ValidatePermissions(db, p, Dedup(ids)).None?
      && (p == Platform.Provider && t.roles[id].code == OWNER ==> OwnerPermissionsKept(t, Dedup(ids)))
      && t.roles[id].version == version
    case ReplaceRoles(p, id, ids, _) => SubjectLive(t, id) && forall r :: r in ids ==> r in t.roles
    case Provision(provider, membership, customer) =>
      && provider !in db.accounts && !HasAccount(db, customer) && customer in db.marketplace.subjects
      && membership !in t.subjects && OwnerRoles(t) != {}
    case Approve(id) =>
      && id in db.accounts && !db.accounts[id].deleted && db.accounts[id].verification == Pending
      && SubjectLive(db.marketplace, db.accounts[id].ownerCustomerId)
  }

  /** The checks that another platform's lock discipline may let go stale. */
  predicate Current(db: Db, op: Op) {
    match op
    case DeleteRole(p, id, _) => !InUse(db.Of(p), id)
    case ReplaceRoles(p, _, ids, _) => forall id :: id in ids ==> RoleUsable(db.Of(p), id)
    case _ => true
  }

  function Effect(db: Db, op: Op): Db
    requires Applicable(db, op)
  {
    db.With(op.Home(), TablesEffect(db.Of(op.Home()), op))
    .(accounts := AccountsEffect(db.accounts, op), audit := db.audit + EventsOf(op, BeforeOf(db, op)))
  }

  /** The assertions made after the writes, before commit. */
  predicate Protected(after: Db, op: Op) {
    match op
    case CreateRole(_, _, _, _, _, _, _) => true
    case UpdateRole(p, _, _, _, _, _, _) => p.Administration? ==> HasRecovery(after.administration)
    case DeleteRole(p, _, _) => p.Administration? ==> HasRecovery(after.administration)
    case ReplacePermissions(p, id, _, _, _) =>
      && (p.Administration? ==> HasRecovery(after.administration))
      && (p == Platform.Provider && id in after.provider.roles && after.provider.roles[id].code == OWNER ==>
            RoleUsable(after.provider, id))
    case ReplaceRoles(p, id, ids, _) =>
      && (p.Administration? ==> HasRecovery(after.administration))
      && (p == Platform.Provider ==> OwnerKept(after.provider, ProviderOf(after.provider, id), Dedup(ids)))
    case Provision(_, _, _) => true
    case Approve(_) => true
  }

  // ----- The transactions, check by check in the order of the code -----

  function Guarded(after: Db, op: Op): Outcome {
    if op.Home().Administration? && !op.CreateRole? && !HasRecovery(after.administration)
    then Failed(LastAdminProtection)
    else if !Protected(after, op) then
      Failed(if op.ReplaceRoles? then ProviderLastOwnerProtection else ProviderOwnerProtection)
    else Committed(after)
  }

  function Execute(db: Db, op: Op): Outcome {
    var t := db.Of(op.Home());
    match op
    case CreateRole(p, id, code, _, _, ids, _) =>
      var invalid := ValidatePermissions(db, p, Dedup(ids));
      if invalid.Some? then Failed(invalid.value)
      else if id in t.roles || CodeInUse(t, code) then Failed(RoleCodeExists)
      else Committed(Effect(db, op))
    case UpdateRole(p, id, _, _, status, version, _) =>
      if !RoleLive(t, id) then Failed(RoleNotFound)
      else if !StatusChangeAllowed(p, t.roles[id], status) then Failed(SystemRoleImmutable)
      else if t.roles[id].version != version then Failed(RoleVersionConflict)
      else Guarded(Effect(db, op), op)
    case DeleteRole(p, id, _) =>
      if !RoleLive(t, id) then Failed(RoleNotFound)
      else if !Deletable(t.roles[id]) then Failed(SystemRoleImmutable)
      else if InUse(t, id) then Failed(RoleInUse)
      else Guarded(Effect(db, op), op)
    case ReplacePermissions(p, id, ids, version, _) =>
      if !RoleLive(t, id) then Failed(RoleNotFound)
      else
        var invalid := ValidatePermissions(db, p, Dedup(ids));
        if invalid.Some? then Failed(invalid.value)
        else if p == Platform.Provider && t.roles[id].code == OWNER && !OwnerPermissionsKept(t, Dedup(ids)) then
          Failed(ProviderOwnerProtection)
        else if t.roles[id].version != version then Failed(RoleVersionConflict)
        else Guarded(Effect(db, op), op)
    case ReplaceRoles(p, id, ids, _) =>
      if !SubjectLive(t, id) then Failed(SubjectNotFound)
      else
        var invalid := ValidateRoleIds(db, p, Dedup(ids));
        if invalid.Some? then Failed(invalid.value)
        else if exists r :: r in Dedup(ids) && RoleLive(t, r) && t.roles[r].status != RoleActive
        then Failed(DisabledRole)
        else
          ValidateRoleIdsExact(db, p, Dedup(ids));
          Guarded(Effect(db, op), op)
    case Provision(provider, membership, customer) =>
      if HasAccount(db, customer) || provider in db.accounts then Failed(ProviderAlreadyExists)
      else if customer !in db.marketplace.subjects then Failed(ForeignKeyViolation)
      else if OwnerRoles(t) == {} then Failed(ProviderForbidden)
      else if membership in t.subjects then Failed(ProviderAlreadyExists)
      else Committed(Effect(db, op))
    case Approve(id) =>
      if id !in db.accounts || db.accounts[id].deleted then Failed(ProviderNotFound)
      else if db.accounts[id].verification != Pending then Failed(ProviderNotPending)
      else if !SubjectLive(db.marketplace, db.accounts[id].ownerCustomerId) then Failed(ProviderForbidden)
      else Committed(Effect(db, op))
  }

  /** A transaction commits exactly when its lock-protected checks, its current
      checks and its final assertions hold, and then its effect is the whole change. */
  lemma ExecuteExact(db: Db, op: Op)
    ensures Execute(db, op).Committed? <==> Applicable(db, op) && Current(db, op) && Protected(Effect(db, op), op)
    ensures Execute(db, op).Committed? ==> Execute(db, op).db == Effect(db, op)
  {
    if op.ReplaceRoles? {
      ValidateRoleIdsExact(db, op.platform, Dedup(op.roleIds));
    }
  }
}
