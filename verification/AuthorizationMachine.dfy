/** The same transactions statement by statement under READ COMMITTED: a statement
    sees the committed database overlaid with the transaction's own writes, locks are
    held until the transaction ends, and any number of transactions interleave. */
module AuthorizationMachine {
  import opened Basics
  import opened AuthorizationTables
  import opened RecoveryCapability
  import opened AuthorizationKernel

  /** Advisory locks, row locks, and the unique-index entries an INSERT waits for.
      The Fresh entries reserve generated identifiers for one running transaction. */
  datatype Lock =
    | RecoveryLock
    | RoleLock(platform: Platform, id: Id)
    | SubjectLock(platform: Platform, id: Id)
    | MembershipRow(id: Id)
    | OwnerLock(providerId: Id)
    | CodeKey(platform: Platform, code: string)
    | CustomerKey(customerId: Id)
    | AccountRow(id: Id)
    | FreshRole(platform: Platform, id: Id)
    | FreshProvider(id: Id)
    | FreshMembership(id: Id)

  // The statements in program order. Every operation passes silently over the ones it does not issue.
  const LOCK_RECOVERY: nat := 0
  const LOCK_TARGET: nat := 1
  const FIND_TARGET: nat := 2
  const COUNT_USAGE: nat := 3
  const READ_MAPPINGS: nat := 4
  const VALIDATE: nat := 5
  const LOCK_MEMBERSHIP: nat := 6
  const QUERY_OWNERS: nat := 7
  const LOCK_PROVIDERS: nat := 8
  const READ_ASSIGNMENTS: nat := 9
  const WRITE_ROLE: nat := 10
  const CLEAR_ROWS: nat := 11
  const INSERT_PAIRS: nat := 12
  const AUDIT_ROLE: nat := 13
  const ASSERT_RECOVERY: nat := 14
  const INSERT_ACCOUNT: nat := 15
  const READ_OWNER: nat := 16
  const ASSERT_OWNER: nat := 17
  const AUDIT_SUBJECT: nat := 18
  const UPSERT_MEMBERSHIP: nat := 19
  const ASSIGN_OWNER: nat := 20
  const LOCK_ACCOUNT: nat := 21
  const CHECK_ACCOUNT_OWNER: nat := 22
  const UPDATE_ACCOUNT: nat := 23
  const COMMIT: nat := 24

  /** The uncommitted writes of one transaction, row by row. */
  datatype Delta = Delta(
    roles: map<Id, Role>,
    deletedMappings: set<(Id, Id)>, insertedMappings: set<(Id, Id)>,
    deletedAssignments: set<(Id, Id)>, insertedAssignments: set<(Id, Id)>,
    subjects: map<Id, Subject>, accounts: map<Id, Account>, events: seq<Event>)

  const NO_WRITES := Delta(map[], {}, {}, {}, {}, map[], map[], [])

  /** A running transaction: its program counter, what it has read, written and locked. */
  datatype Txn = Txn(
    op: Op, pc: nat, role: Option<Role>, before: set<Id>, owners: set<Id>, queue: seq<Id>,
    delta: Delta, locks: set<Lock>)
  {
    predicate Past(point: nat) { pc > point }

    function Advance(): Txn { this.(pc := pc + 1) }
  }

  function MergeTables(t: Tables, d: Delta): Tables {
    Tables(t.roles + d.roles, t.permissions,
           t.mappings - d.deletedMappings + d.insertedMappings,
           t.assignments - d.deletedAssignments + d.insertedAssignments,
           t.subjects + d.subjects)
  }

  /** The committed database with one transaction's writes laid over it. */
  function View(db: Db, t: Txn): Db {
    db.With(t.op.Home(), MergeTables(db.Of(t.op.Home()), t.delta))
    .(accounts := db.accounts + t.delta.accounts, audit := db.audit + t.delta.events)
  }

  ghost function Least(s: set<Id>): (least: Id)
    requires s != {}
    ensures least in s && forall x :: x in s ==> least <= x
  {
    var x :| x in s;
    if s == {x} then x
    else
      var y := Least(s - {x});
      assert forall z :: z in s ==> z == x || z in s - {x};
      if x < y then x else y
  }

  /** GROUP BY ... ORDER BY: the members of a set in ascending order. */
  ghost function Ascending(s: set<Id>): (list: seq<Id>)
    ensures forall x :: x in list <==> x in s
    ensures Rising(list)
  {
    if s == {} then []
    else
      var least := Least(s);
      [least] + Ascending(s - {least})
  }

  /** The providers with any membership assigned the role, in any state. */
  function ProvidersOf(t: Tables, role: Id): set<Id> {
    set row | row in t.assignments && row.1 == role && row.0 in t.subjects && t.subjects[row.0].Membership?
      :: t.subjects[row.0].providerId
  }

  /** COUNT of the provider's active holders of the role read as OWNER, at the time of counting. */
  predicate OwnerCounted(t: Tables, provider: Option<Id>, owners: set<Id>, ids: seq<Id>) {
    provider.Some? ==>
      forall r :: r in owners ==> r in ids || (RoleUsable(t, r) && Holders(t, provider.value, r) != {})
  }

  predicate OnOwnerRole(t: Txn) {
    t.op.Home() == Platform.Provider && t.role.Some? && t.role.value.code == OWNER
  }

  /** Operations that lock the recovery row when they run on ADMINISTRATION. */
  predicate Guards(op: Op) { op.OnLiveRole() || op.ReplaceRoles? }

  /** The lock the next statement waits for. */
  function Wants(t: Txn): Option<Lock> {
    match t.pc
    case LOCK_RECOVERY => if Guards(t.op) && t.op.platform.Administration? then Some(RecoveryLock) else None
    case LOCK_TARGET =>
      if t.op.OnLiveRole() then Some(RoleLock(t.op.platform, t.op.roleId))
      else if t.op.ReplaceRoles? then Some(SubjectLock(t.op.platform, t.op.subjectId))
      else None
    case LOCK_MEMBERSHIP =>
      if t.op.ReplaceRoles? && t.op.platform == Platform.Provider then Some(MembershipRow(t.op.subjectId)) else None
    case LOCK_PROVIDERS => if t.queue != [] then Some(OwnerLock(t.queue[0])) else None
    case WRITE_ROLE => if t.op.CreateRole? then Some(CodeKey(t.op.platform, t.op.code)) else None
    case INSERT_ACCOUNT => if t.op.Provision? then Some(CustomerKey(t.op.customerId)) else None
    case LOCK_ACCOUNT => if t.op.Approve? then Some(AccountRow(t.op.accountId)) else None
    case _ => None
  }

  function Wanted(t: Txn): set<Lock> {
    if Wants(t).Some? then {Wants(t).value} else {}
  }

  datatype Step = Next(txn: Txn) | Abort(error: Error)

  // Each program below is one statement of one kind of operation; v is what the
  // statement sees, and a lock it waits for has just been added to t.

  /** updateRole, deleteRole and replaceRolePermissions up to the first write. */
  ghost function RoleReads(v: Db, t: Txn): Step
    requires t.op.OnLiveRole() && t.pc < COMMIT
  {
    var op, tables, u := t.op, v.Of(t.op.platform), t.Advance();
    match t.pc
    case FIND_TARGET =>
      if !RoleLive(tables, op.roleId) then Abort(RoleNotFound)
      else
        var role := tables.roles[op.roleId];
        if op.UpdateRole? && !StatusChangeAllowed(op.platform, role, op.newStatus) then Abort(SystemRoleImmutable)
        else if op.DeleteRole? && !Deletable(role) then Abort(SystemRoleImmutable)
        else Next(u.(role := Some(role)))
    case COUNT_USAGE => if op.DeleteRole? && InUse(tables, op.roleId) then Abort(RoleInUse) else Next(u)
    case READ_MAPPINGS =>
      if op.ReplacePermissions? then Next(u.(before := PermissionsOf(tables, op.roleId))) else Next(u)
    case VALIDATE =>
      if op.ReplacePermissions? then
        var invalid := ValidatePermissions(v, op.platform, Dedup(op.permissionIds));
        if invalid.Some? then Abort(invalid.value)
        else if OnOwnerRole(t) && !OwnerPermissionsKept(tables, Dedup(op.permissionIds))
        then Abort(ProviderOwnerProtection)
        else Next(u)
      else Next(u)
    case QUERY_OWNERS =>
      if op.Versioned() && OnOwnerRole(t) then Next(u.(queue := Ascending(ProvidersOf(tables, op.roleId)))) else Next(u)
    case LOCK_PROVIDERS => if t.queue != [] then Next(t.(queue := t.queue[1..])) else Next(u)
    case _ => Next(u)
  }

  /** updateRole, deleteRole and replaceRolePermissions from the first write on. */
  ghost function RoleWrites(v: Db, t: Txn): Step
    requires t.op.OnLiveRole() && t.pc < COMMIT
  {
    var op, tables, u := t.op, v.Of(t.op.platform), t.Advance();
    match t.pc
    case WRITE_ROLE =>
      if op.roleId !in tables.roles then Abort(RoleNotFound)
      else
        var role := tables.roles[op.roleId];
        if op.Versioned() && (role.deleted || role.version != op.expectedVersion) then Abort(RoleVersionConflict)
        else Next(u.(delta := t.delta.(roles := map[op.roleId := UpdatedRole(op, role)])))
    case CLEAR_ROWS =>
      if op.ReplacePermissions? then
        Next(u.(queue := Dedup(op.permissionIds),
                delta := t.delta.(deletedMappings := RowsOf(tables.mappings, op.roleId))))
      else Next(u)
    case INSERT_PAIRS =>
      if t.queue != [] && op.ReplacePermissions? then
        Next(t.(queue := t.queue[1..],
                delta := t.delta.(insertedMappings := t.delta.insertedMappings + {(op.roleId, t.queue[0])})))
      else Next(u)
    case AUDIT_ROLE => Next(u.(delta := t.delta.(events := EventsOf(op, t.before))))
    case ASSERT_RECOVERY =>
      if op.platform.Administration? && !HasRecovery(tables) then Abort(LastAdminProtection) else Next(u)
    case ASSERT_OWNER =>
      if op.ReplacePermissions? && OnOwnerRole(t)
         && !(RoleUsable(tables, op.roleId) && tables.roles[op.roleId].code == OWNER) then
        Abort(ProviderOwnerProtection)
      else Next(u)
    case _ => Next(u)
  }

  /** replaceSubjectRoles up to the first write. */
  ghost function SubjectReads(v: Db, t: Txn): Step
    requires t.op.ReplaceRoles? && t.pc < COMMIT
  {
    var op, tables, u := t.op, v.Of(t.op.platform), t.Advance();
    match t.pc
    case FIND_TARGET => if !SubjectLive(tables, op.subjectId) then Abort(SubjectNotFound) else Next(u)
    case VALIDATE =>
      var ids := Dedup(op.roleIds);
      var invalid := ValidateRoleIds(v, op.platform, ids);
      if invalid.Some? then Abort(invalid.value)
      else if exists r :: r in ids && RoleLive(tables, r) && tables.roles[r].status != RoleActive
      then Abort(DisabledRole)
      else Next(u)
    case LOCK_MEMBERSHIP =>
      if op.platform == Platform.Provider && ProviderOf(tables, op.subjectId).Some? then
        Next(u.(queue := [ProviderOf(tables, op.subjectId).value]))
      else Next(u)
    case LOCK_PROVIDERS => if t.queue != [] then Next(t.(queue := t.queue[1..])) else Next(u)
    case READ_ASSIGNMENTS => Next(u.(before := RolesOf(tables, op.subjectId)))
    case _ => Next(u)
  }

  /** replaceSubjectRoles from the first write on. */
  ghost function SubjectWrites(v: Db, t: Txn): Step
    requires t.op.ReplaceRoles? && t.pc < COMMIT
  {
    var op, tables, u := t.op, v.Of(t.op.platform), t.Advance();
    match t.pc
    case CLEAR_ROWS =>
      Next(u.(queue := Dedup(op.roleIds),
              delta := t.delta.(deletedAssignments := RowsOf(tables.assignments, op.subjectId))))
    case INSERT_PAIRS =>
      if t.queue != [] then
        Next(t.(queue := t.queue[1..],
                delta := t.delta.(insertedAssignments := t.delta.insertedAssignments + {(op.subjectId, t.queue[0])})))
      else Next(u)
    case ASSERT_RECOVERY =>
      if op.platform.Administration? && !HasRecovery(tables) then Abort(LastAdminProtection) else Next(u)
    case READ_OWNER => Next(u.(owners := OwnerRoles(v.provider)))
    case ASSERT_OWNER =>
      if op.platform == Platform.Provider
         && !OwnerCounted(tables, ProviderOf(tables, op.subjectId), t.owners, Dedup(op.roleIds)) then
        Abort(ProviderLastOwnerProtection)
      else Next(u)
    case AUDIT_SUBJECT => Next(u.(delta := t.delta.(events := EventsOf(op, t.before))))
    case _ => Next(u)
  }

  /** createRole. */
  ghost function CreateStep(v: Db, t: Txn): Step
    requires t.op.CreateRole? && t.pc < COMMIT
  {
    var op, tables, u := t.op, v.Of(t.op.platform), t.Advance();
    match t.pc
    case VALIDATE =>
      var invalid := ValidatePermissions(v, op.platform, Dedup(op.permissionIds));
      if invalid.Some? then Abort(invalid.value) else Next(u)
    case WRITE_ROLE =>
      if op.roleId in tables.roles || CodeInUse(tables, op.code) then Abort(RoleCodeExists)
      else Next(u.(delta := t.delta.(roles := map[op.roleId := NewRole(op)])))
    case CLEAR_ROWS => Next(u.(queue := Dedup(op.permissionIds)))
    case INSERT_PAIRS =>
      if t.queue != [] then
        Next(t.(queue := t.queue[1..],
                delta := t.delta.(insertedMappings := t.delta.insertedMappings + {(op.roleId, t.queue[0])})))
      else Next(u)
    case AUDIT_ROLE => Next(u.(delta := t.delta.(events := EventsOf(op, {}))))
    case _ => Next(u)
  }

  /** createPending: the account, the OWNER role, the membership, its assignment. */
  ghost function ProvisionStep(v: Db, t: Txn): Step
    requires t.op.Provision? && t.pc < COMMIT
  {
    var op, u := t.op, t.Advance();
    match t.pc
    case INSERT_ACCOUNT =>
      if HasAccount(v, op.customerId) || op.providerId in v.accounts then Abort(ProviderAlreadyExists)
      else if op.customerId !in v.marketplace.subjects then Abort(ForeignKeyViolation)
      else
        var account := Account(op.customerId, AccountActive, Pending, false);
        Next(u.(delta := t.delta.(accounts := map[op.providerId := account])))
    case READ_OWNER =>
      if OwnerRoles(v.provider) == {} then Abort(ProviderForbidden) else Next(u.(owners := OwnerRoles(v.provider)))
    case UPSERT_MEMBERSHIP =>
      if op.membershipId in v.provider.subjects then Abort(ProviderAlreadyExists)
      else
        var membership := Membership(false, op.providerId, op.customerId, MemberActive);
        Next(u.(delta := t.delta.(subjects := map[op.membershipId := membership])))
    case ASSIGN_OWNER => Next(u.(delta := t.delta.(insertedAssignments := Pairs(op.membershipId, t.owners))))
    case _ => Next(u)
  }

  /** approve. */
  ghost function ApproveStep(v: Db, t: Txn): Step
    requires t.op.Approve? && t.pc < COMMIT
  {
    var id, u := t.op.accountId, t.Advance();
    match t.pc
    case LOCK_ACCOUNT =>
      if id !in v.accounts || v.accounts[id].deleted then Abort(ProviderNotFound)
      else if v.accounts[id].verification != Pending then Abort(ProviderNotPending)
      else Next(u)
    case CHECK_ACCOUNT_OWNER =>
      if id !in v.accounts || !SubjectLive(v.marketplace, v.accounts[id].ownerCustomerId) then Abort(ProviderForbidden)
      else Next(u)
    case UPDATE_ACCOUNT =>
      if id !in v.accounts then Abort(ProviderNotFound)
      else
        var approved := v.accounts[id].(status := AccountActive, verification := Verified);
        Next(u.(delta := t.delta.(accounts := map[id := approved])))
    case _ => Next(u)
  }

  ghost function Statement(v: Db, t: Txn): Step
    requires t.pc < COMMIT
  {
    match t.op
    case CreateRole(_, _, _, _, _, _, _) => CreateStep(v, t)
    case ReplaceRoles(_, _, _, _) => if t.Past(READ_ASSIGNMENTS) then SubjectWrites(v, t) else SubjectReads(v, t)
    case Provision(_, _, _) => ProvisionStep(v, t)
    case Approve(_) => ApproveStep(v, t)
    case _ => if t.Past(READ_ASSIGNMENTS) then RoleWrites(v, t) else RoleReads(v, t)
  }

  /** One statement against the committed database; a lock it waits for is then held. */
  ghost function Exec(db: Db, t: Txn): Step
    requires t.pc < COMMIT
  {
    Statement(View(db, t), t.(locks := t.locks + Wanted(t)))
  }

  // ----- The system of interleaved transactions -----

  /** Running transactions, the committed states so far, and the operations committed between them. */
  datatype Sys = Sys(txns: map<nat, Txn>, states: seq<Db>, ops: seq<Op>)

  ghost function Now(s: Sys): Db
    requires s.states != []
  {
    s.states[|s.states| - 1]
  }

  /** Generated identifiers are fresh among running transactions. */
  function Reserved(op: Op): set<Lock> {
    match op
    case CreateRole(p, id, _, _, _, _, _) => {FreshRole(p, id)}
    case Provision(provider, membership, _) => {FreshProvider(provider), FreshMembership(membership)}
    case _ => {}
  }

  function Start(op: Op): Txn {
    Txn(op, LOCK_RECOVERY, None, {}, {}, [], NO_WRITES, Reserved(op))
  }

  /** No transaction other than tid holds any of the locks. */
  ghost predicate Available(s: Sys, tid: nat, locks: set<Lock>) {
    forall other :: other in s.txns && other != tid ==> s.txns[other].locks !! locks
  }

  datatype Move = Begin(tid: nat, op: Op) | Run(tid: nat) | CommitTxn(tid: nat) | Rollback(tid: nat)

  ghost predicate StepOf(s: Sys, move: Move, s': Sys)
    requires s.states != []
  {
    match move
    case Begin(tid, op) =>
      && tid !in s.txns && Available(s, tid, Reserved(op))
      && s' == s.(txns := s.txns[tid := Start(op)])
    case Run(tid) =>
      && tid in s.txns && s.txns[tid].pc < COMMIT
      && Available(s, tid, Wanted(s.txns[tid]))
      && s' == s.(txns := match Exec(Now(s), s.txns[tid])
                          case Next(t) => s.txns[tid := t]
                          case Abort(_) => s.txns - {tid})
    case CommitTxn(tid) =>
      && tid in s.txns && s.txns[tid].pc == COMMIT
      && s' == Sys(s.txns - {tid}, s.states + [View(Now(s), s.txns[tid])], s.ops + [s.txns[tid].op])
    case Rollback(tid) =>
      && tid in s.txns && s' == s.(txns := s.txns - {tid})
  }

  function Init(db: Db): Sys { Sys(map[], [db], []) }

  /** A run from a database with no transaction in flight. */
  ghost predicate IsRun(run: seq<Sys>, moves: seq<Move>, db: Db) {
    && |run| == |moves| + 1 && run[0] == Init(db)
    && (forall i :: 0 <= i < |run| ==> run[i].states != [])
    && (forall i {:trigger moves[i]} :: 0 <= i < |moves| ==> StepOf(run[i], moves[i], run[i + 1]))
  }
}
