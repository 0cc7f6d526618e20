/** What a running transaction knows at each statement, in terms of the current
    committed database, and why its commit is the effect of its operation. */
module MachineFacts {
  import opened Basics
  import opened AuthorizationTables
  import opened RecoveryCapability
  import opened AuthorizationKernel
  import opened AuthorizationMachine

  /** The rows still to insert and the rows inserted make up all the rows asked for. */
  ghost predicate Inserting(t: Txn, target: Id, ids: seq<Id>, inserted: set<(Id, Id)>) {
    if t.Past(CLEAR_ROWS) then
      && inserted + Pairs(target, Elements(t.queue)) == Pairs(target, Elements(ids))
      && (t.Past(INSERT_PAIRS) ==> t.queue == [])
    else inserted == {}
  }

  ghost predicate RoleFacts(db: Db, t: Txn)
    requires t.op.OnLiveRole()
  {
    var op, p, id, tables := t.op, t.op.platform, t.op.roleId, db.Of(t.op.platform);
    && (t.Past(LOCK_RECOVERY) && p.Administration? ==> RecoveryLock in t.locks)
    && (t.Past(LOCK_TARGET) ==> RoleLock(p, id) in t.locks)
    && (t.Past(FIND_TARGET) ==> t.role.Some? && RoleLive(tables, id) && tables.roles[id] == t.role.value)
    && (t.Past(FIND_TARGET) && op.UpdateRole? ==> StatusChangeAllowed(p, t.role.value, op.newStatus))
    && (t.Past(FIND_TARGET) && op.DeleteRole? ==> Deletable(t.role.value))
    && (t.Past(COUNT_USAGE) && op.DeleteRole? && p.Administration? ==> !InUse(tables, id))
    && t.before == (if t.Past(READ_MAPPINGS) && op.ReplacePermissions? then PermissionsOf(tables, id) else {})
    && (t.Past(VALIDATE) && op.ReplacePermissions? ==>
          && ValidatePermissions(db, p, Dedup(op.permissionIds)).None?
          && (p == Platform.Provider && t.role.value.code == OWNER ==>
              OwnerPermissionsKept(tables, Dedup(op.permissionIds))))
    && (t.Past(LOCK_PROVIDERS) && !t.Past(CLEAR_ROWS) ==> t.queue == [])
    && (t.Past(WRITE_ROLE) && op.Versioned() ==> t.role.value.version == op.expectedVersion)
    && RoleDelta(tables, t)
  }

  ghost predicate RoleDelta(tables: Tables, t: Txn)
    requires t.op.OnLiveRole()
  {
    && (t.Past(WRITE_ROLE) ==> t.role.Some?)
    && t.delta == Delta(
         if t.Past(WRITE_ROLE) then map[t.op.roleId := UpdatedRole(t.op, t.role.value)] else map[],
         if t.Past(CLEAR_ROWS) && t.op.ReplacePermissions? then RowsOf(tables.mappings, t.op.roleId) else {},
         t.delta.insertedMappings, {}, {}, map[], map[],
         if t.Past(AUDIT_ROLE) then EventsOf(t.op, t.before) else [])
    && (if t.op.ReplacePermissions? then Inserting(t, t.op.roleId, Dedup(t.op.permissionIds), t.delta.insertedMappings)
        else t.delta.insertedMappings == {})
  }

  ghost predicate SubjectFacts(db: Db, t: Txn)
    requires t.op.ReplaceRoles?
  {
    var op, p, id, tables := t.op, t.op.platform, t.op.subjectId, db.Of(t.op.platform);
    && (t.Past(LOCK_RECOVERY) && p.Administration? ==> RecoveryLock in t.locks)
    && (t.Past(LOCK_TARGET) ==> SubjectLock(p, id) in t.locks)
    && (t.Past(FIND_TARGET) ==> SubjectLive(tables, id))
    && (t.Past(VALIDATE) ==> forall r :: r in op.roleIds ==> r in tables.roles)
    && (t.Past(VALIDATE) && p.Administration? ==> forall r :: r in op.roleIds ==> RoleUsable(tables, r))
    && (t.Past(LOCK_MEMBERSHIP) && p == Platform.Provider && ProviderOf(tables, id).Some? ==>
          OwnerLock(ProviderOf(tables, id).value) in t.locks
          || (!t.Past(LOCK_PROVIDERS) && t.queue == [ProviderOf(tables, id).value]))
    && (t.Past(READ_ASSIGNMENTS) ==> t.before == RolesOf(tables, id))
    && (t.owners != {} && t.Past(READ_OWNER) ==> t.owners == OwnerRoles(db.provider))
    && t.delta == Delta(map[], {}, {},
         if t.Past(CLEAR_ROWS) then RowsOf(tables.assignments, id) else {},
         t.delta.insertedAssignments, map[], map[],
         if t.Past(AUDIT_SUBJECT) then EventsOf(op, t.before) else [])
    && Inserting(t, id, Dedup(op.roleIds), t.delta.insertedAssignments)
  }

  ghost predicate CreateFacts(db: Db, t: Txn)
    requires t.op.CreateRole?
  {
    var op, p, id, tables := t.op, t.op.platform, t.op.roleId, db.Of(t.op.platform);
    && FreshRole(p, id) in t.locks
    && (t.Past(VALIDATE) ==> ValidatePermissions(db, p, Dedup(op.permissionIds)).None?)
    && (t.Past(WRITE_ROLE) ==> CodeKey(p, op.code) in t.locks && id !in tables.roles && !CodeInUse(tables, op.code))
    && t.delta == Delta(
         if t.Past(WRITE_ROLE) then map[id := NewRole(op)] else map[],
         {}, t.delta.insertedMappings, {}, {}, map[], map[],
         if t.Past(AUDIT_ROLE) then EventsOf(op, {}) else [])
    && t.before == {}
    && Inserting(t, id, Dedup(op.permissionIds), t.delta.insertedMappings)
  }

  ghost predicate ProvisionFacts(db: Db, t: Txn)
    requires t.op.Provision?
  {
    var op, tables := t.op, db.provider;
    && FreshProvider(op.providerId) in t.locks && FreshMembership(op.membershipId) in t.locks
    && (t.Past(INSERT_ACCOUNT) ==>
          && CustomerKey(op.customerId) in t.locks && !HasAccount(db, op.customerId)
          && op.providerId !in db.accounts && op.customerId in db.marketplace.subjects)
    && (t.Past(READ_OWNER) ==> t.owners != {} && t.owners == OwnerRoles(tables))
    && (t.Past(UPSERT_MEMBERSHIP) ==> op.membershipId !in tables.subjects)
    && t.delta == Delta(map[], {}, {}, {},
         if t.Past(ASSIGN_OWNER) then Pairs(op.membershipId, t.owners) else {},
         if t.Past(UPSERT_MEMBERSHIP)
         then map[op.membershipId := Membership(false, op.providerId, op.customerId, MemberActive)] else map[],
         if t.Past(INSERT_ACCOUNT)
         then map[op.providerId := Account(op.customerId, AccountActive, Pending, false)] else map[], [])
  }

  ghost predicate ApproveFacts(db: Db, t: Txn)
    requires t.op.Approve?
  {
    var id := t.op.accountId;
    && (t.Past(LOCK_ACCOUNT) ==>
          && AccountRow(id) in t.locks
          && id in db.accounts && !db.accounts[id].deleted && db.accounts[id].verification == Pending)
    && (t.Past(CHECK_ACCOUNT_OWNER) ==> SubjectLive(db.marketplace, db.accounts[id].ownerCustomerId))
    && t.delta == NO_WRITES.(accounts :=
         if t.Past(UPDATE_ACCOUNT)
         then map[id := db.accounts[id].(status := AccountActive, verification := Verified)] else map[])
  }

  ghost predicate Facts(db: Db, t: Txn) {
    match t.op
    case CreateRole(_, _, _, _, _, _, _) => CreateFacts(db, t)
    case ReplaceRoles(_, _, _, _) => SubjectFacts(db, t)
    case Provision(_, _, _) => ProvisionFacts(db, t)
    case Approve(_) => ApproveFacts(db, t)
    case _ => RoleFacts(db, t)
  }

  /** The final assertions a transaction has passed hold of its view. */
  ghost predicate Asserted(db: Db, t: Txn) {
    var v := View(db, t);
    && (t.Past(ASSERT_RECOVERY) && Guards(t.op) && t.op.platform.Administration? ==> HasRecovery(v.administration))
    && (t.Past(ASSERT_OWNER) && t.op.ReplacePermissions? && OnOwnerRole(t) ==> RoleUsable(v.provider, t.op.roleId))
    && (t.Past(ASSERT_OWNER) && t.op.ReplaceRoles? && t.op.platform == Platform.Provider ==>
          OwnerCounted(v.provider, ProviderOf(v.provider, t.op.subjectId), t.owners, Dedup(t.op.roleIds)))
  }

  // ----- A transaction starts with its facts and every statement keeps them -----

  lemma NoWritesView(db: Db, t: Txn)
    requires t.delta == NO_WRITES
    ensures View(db, t) == db
  {
    var tables := db.Of(t.op.Home());
    assert MergeTables(tables, t.delta) == tables;
  }

  lemma StartFacts(db: Db, op: Op)
    ensures Facts(db, Start(op)) && Asserted(db, Start(op))
  {
  }

  lemma ApproveKeepsFacts(db: Db, v: Db, t: Txn)
    requires t.op.Approve? && ApproveFacts(db, t) && t.pc < COMMIT && Wanted(t) <= t.locks
    requires t.delta == NO_WRITES ==> v == db
    requires ApproveStep(v, t).Next?
    ensures ApproveFacts(db, ApproveStep(v, t).txn)
  {
  }

  lemma ProvisionKeepsFacts(db: Db, v: Db, t: Txn)
    requires t.op.Provision? && ProvisionFacts(db, t) && t.pc < COMMIT && Wanted(t) <= t.locks
    requires t.delta == NO_WRITES ==> v == db
    requires v.provider == MergeTables(db.provider, t.delta)
    requires ProvisionStep(v, t).Next?
    ensures ProvisionFacts(db, ProvisionStep(v, t).txn)
  {
  }

  lemma CreateKeepsFacts(db: Db, v: Db, t: Txn)
    requires t.op.CreateRole? && CreateFacts(db, t) && t.pc < COMMIT && Wanted(t) <= t.locks
    requires t.delta == NO_WRITES ==> v == db
    requires CreateStep(v, t).Next?
    ensures CreateFacts(db, CreateStep(v, t).txn)
  {
    if t.pc == INSERT_PAIRS && t.queue != [] {
      assert Elements(t.queue) == {t.queue[0]} + Elements(t.queue[1..]);
    }
  }

  lemma RoleReadsKeepFacts(db: Db, t: Txn)
    requires t.op.OnLiveRole() && RoleFacts(db, t) && !t.Past(READ_ASSIGNMENTS) && Wanted(t) <= t.locks
    requires RoleReads(db, t).Next?
    ensures RoleFacts(db, RoleReads(db, t).txn)
  {
  }

  /** Moving the first queued id into the inserted rows keeps their union. */
  lemma InsertOne(target: Id, queue: seq<Id>, inserted: set<(Id, Id)>)
    requires queue != []
    ensures inserted + {(target, queue[0])} + Pairs(target, Elements(queue[1..])) ==
            inserted + Pairs(target, Elements(queue))
  {
    assert Elements(queue) == {queue[0]} + Elements(queue[1..]);
  }

  lemma RoleWriteKeepsFacts(db: Db, v: Db, t: Txn)
    requires t.op.OnLiveRole() && RoleFacts(db, t) && (t.pc == WRITE_ROLE || t.pc == CLEAR_ROWS) && Wanted(t) <= t.locks
    requires v.Of(t.op.platform) == MergeTables(db.Of(t.op.platform), t.delta)
    requires RoleWrites(v, t).Next?
    ensures RoleFacts(db, RoleWrites(v, t).txn)
  {
    if t.pc == CLEAR_ROWS {
      assert v.Of(t.op.platform).mappings == db.Of(t.op.platform).mappings;
    }
  }

  lemma RoleInsertKeepsFacts(db: Db, v: Db, t: Txn)
    requires t.op.OnLiveRole() && RoleFacts(db, t) && t.pc == INSERT_PAIRS && Wanted(t) <= t.locks
    requires RoleWrites(v, t).Next?
    ensures RoleFacts(db, RoleWrites(v, t).txn)
  {
    if t.queue != [] {
      InsertOne(t.op.roleId, t.queue, t.delta.insertedMappings);
    }
  }

  lemma RoleEndKeepsFacts(db: Db, v: Db, t: Txn)
    requires t.op.OnLiveRole() && RoleFacts(db, t) && t.Past(INSERT_PAIRS) && t.pc < COMMIT && Wanted(t) <= t.locks
    requires RoleWrites(v, t).Next?
    ensures RoleFacts(db, RoleWrites(v, t).txn)
  {
  }

  lemma SubjectValidateKeepsFacts(db: Db, t: Txn)
    requires t.op.ReplaceRoles? && SubjectFacts(db, t) && t.pc == VALIDATE && SubjectReads(db, t).Next?
    ensures SubjectFacts(db, SubjectReads(db, t).txn)
  {
    ValidateRoleIdsExact(db, t.op.platform, Dedup(t.op.roleIds));
  }

  lemma SubjectReadsKeepFacts(db: Db, t: Txn)
    requires t.op.ReplaceRoles? && SubjectFacts(db, t) && !t.Past(READ_ASSIGNMENTS) && Wanted(t) <= t.locks
    requires SubjectReads(db, t).Next?
    ensures SubjectFacts(db, SubjectReads(db, t).txn)
  {
    if t.pc == VALIDATE {
      SubjectValidateKeepsFacts(db, t);
    }
  }

  lemma SubjectInsertKeepsFacts(db: Db, v: Db, t: Txn)
    requires t.op.ReplaceRoles? && SubjectFacts(db, t) && t.pc == INSERT_PAIRS && Wanted(t) <= t.locks
    requires SubjectWrites(v, t).Next?
    ensures SubjectFacts(db, SubjectWrites(v, t).txn)
  {
    if t.queue != [] {
      InsertOne(t.op.subjectId, t.queue, t.delta.insertedAssignments);
    }
  }

  lemma SubjectClearKeepsFacts(db: Db, v: Db, t: Txn)
    requires t.op.ReplaceRoles? && SubjectFacts(db, t) && (t.pc == WRITE_ROLE || t.pc == CLEAR_ROWS)
    requires Wanted(t) <= t.locks
    requires v.Of(t.op.platform) == MergeTables(db.Of(t.op.platform), t.delta)
    requires SubjectWrites(v, t).Next?
    ensures SubjectFacts(db, SubjectWrites(v, t).txn)
  {
    if t.pc == CLEAR_ROWS {
      assert v.Of(t.op.platform).assignments == db.Of(t.op.platform).assignments;
    }
  }

  lemma SubjectEndKeepsFacts(db: Db, v: Db, t: Txn)
    requires t.op.ReplaceRoles? && SubjectFacts(db, t) && t.Past(INSERT_PAIRS) && t.pc < COMMIT && Wanted(t) <= t.locks
    requires OwnerRoles(v.provider) == OwnerRoles(db.provider)
    requires SubjectWrites(v, t).Next?
    ensures SubjectFacts(db, SubjectWrites(v, t).txn)
  {
  }

  lemma MoreLocks(db: Db, t: Txn, more: set<Lock>)
    requires Facts(db, t)
    ensures Facts(db, t.(locks := t.locks + more))
  {
  }

  lemma ViewShape(db: Db, t: Txn)
    ensures View(db, t).Of(t.op.Home()) == MergeTables(db.Of(t.op.Home()), t.delta)
    ensures t.delta.roles == map[] ==> OwnerRoles(View(db, t).provider) == OwnerRoles(db.provider)
  {
    if t.delta.roles == map[] {
      assert View(db, t).provider.roles == db.provider.roles;
    }
  }

  lemma RoleWritesKeepFacts(db: Db, v: Db, t: Txn)
    requires t.op.OnLiveRole() && RoleFacts(db, t) && t.Past(READ_ASSIGNMENTS) && t.pc < COMMIT && Wanted(t) <= t.locks
    requires v.Of(t.op.platform) == MergeTables(db.Of(t.op.platform), t.delta)
    requires RoleWrites(v, t).Next?
    ensures RoleFacts(db, RoleWrites(v, t).txn)
  {
    if t.pc == INSERT_PAIRS {
      RoleInsertKeepsFacts(db, v, t);
    } else if t.Past(INSERT_PAIRS) {
      RoleEndKeepsFacts(db, v, t);
    } else {
      RoleWriteKeepsFacts(db, v, t);
    }
  }

  lemma RoleStatementKeepsOp(v: Db, t: Txn)
    requires t.op.OnLiveRole() && t.pc < COMMIT && Statement(v, t).Next?
    ensures Statement(v, t).txn.op == t.op
  {
  }

  lemma RoleKeepsFacts(db: Db, v: Db, t: Txn)
    requires t.op.OnLiveRole() && RoleFacts(db, t) && t.pc < COMMIT && Wanted(t) <= t.locks
    requires t.delta == NO_WRITES ==> v == db
    requires v.Of(t.op.platform) == MergeTables(db.Of(t.op.platform), t.delta)
    requires Statement(v, t).Next?
    ensures Statement(v, t).txn.op == t.op && RoleFacts(db, Statement(v, t).txn)
  {
    RoleStatementKeepsOp(v, t);
    if t.Past(READ_ASSIGNMENTS) {
      RoleWritesKeepFacts(db, v, t);
    } else {
      RoleReadsKeepFacts(db, t);
    }
  }

  lemma SubjectKeepsFacts(db: Db, v: Db, t: Txn)
    requires t.op.ReplaceRoles? && SubjectFacts(db, t) && t.pc < COMMIT && Wanted(t) <= t.locks
    requires t.delta == NO_WRITES ==> v == db
    requires v.Of(t.op.platform) == MergeTables(db.Of(t.op.platform), t.delta)
    requires OwnerRoles(v.provider) == OwnerRoles(db.provider)
    requires Statement(v, t).Next?
    ensures Statement(v, t).txn.op == t.op && SubjectFacts(db, Statement(v, t).txn)
  {
    if !t.Past(READ_ASSIGNMENTS) {
      SubjectReadsKeepFacts(db, t);
    } else if t.pc == INSERT_PAIRS {
      SubjectInsertKeepsFacts(db, v, t);
    } else if t.Past(INSERT_PAIRS) {
      SubjectEndKeepsFacts(db, v, t);
    } else {
      SubjectClearKeepsFacts(db, v, t);
    }
  }

  lemma StatementKeepsFacts(db: Db, v: Db, t: Txn)
    requires Facts(db, t) && t.pc < COMMIT && Wanted(t) <= t.locks
    requires t.delta == NO_WRITES ==> v == db
    requires v.Of(t.op.Home()) == MergeTables(db.Of(t.op.Home()), t.delta)
    requires t.delta.roles == map[] ==> OwnerRoles(v.provider) == OwnerRoles(db.provider)
    requires Statement(v, t).Next?
    ensures Statement(v, t).txn.op == t.op && Facts(db, Statement(v, t).txn)
  {
    match t.op
    case CreateRole(_, _, _, _, _, _, _) => CreateKeepsFacts(db, v, t);
    case ReplaceRoles(_, _, _, _) => SubjectKeepsFacts(db, v, t);
    case Provision(_, _, _) => ProvisionKeepsFacts(db, v, t);
    case Approve(_) => ApproveKeepsFacts(db, v, t);
    case _ => RoleKeepsFacts(db, v, t);
  }

  /** Every statement keeps the facts of the transaction that issues it. */
  lemma ExecKeepsFacts(db: Db, t: Txn)
    requires Facts(db, t) && t.pc < COMMIT && Exec(db, t).Next?
    ensures Exec(db, t).txn.op == t.op && Facts(db, Exec(db, t).txn)
  {
    MoreLocks(db, t, Wanted(t));
    ViewShape(db, t);
    if t.delta == NO_WRITES {
      NoWritesView(db, t);
    }
    StatementKeepsFacts(db, View(db, t), t.(locks := t.locks + Wanted(t)));
  }

  lemma RoleWritesOnlyEvents(v: Db, t: Txn)
    requires t.op.OnLiveRole() && t.Past(INSERT_PAIRS) && t.pc < COMMIT && RoleWrites(v, t).Next?
    ensures var u := RoleWrites(v, t).txn;
            && u.delta == t.delta.(events := u.delta.events) && u.role == t.role && u.op == t.op && u.pc == t.pc + 1
            && (t.pc == ASSERT_RECOVERY && t.op.platform.Administration? ==> HasRecovery(v.Of(t.op.platform)))
            && (t.pc == ASSERT_OWNER && t.op.ReplacePermissions? && OnOwnerRole(t) ==>
                RoleUsable(v.provider, t.op.roleId))
  {
  }

  lemma SubjectWritesOnlyEvents(v: Db, t: Txn)
    requires t.op.ReplaceRoles? && t.Past(INSERT_PAIRS) && t.pc < COMMIT && SubjectWrites(v, t).Next?
    ensures var u := SubjectWrites(v, t).txn;
            && u.delta == t.delta.(events := u.delta.events) && (t.Past(READ_OWNER) ==> u.owners == t.owners)
            && u.op == t.op && u.pc == t.pc + 1
            && (t.pc == ASSERT_RECOVERY && t.op.platform.Administration? ==> HasRecovery(v.Of(t.op.platform)))
            && (t.pc == ASSERT_OWNER && t.op.platform == Platform.Provider ==>
                  OwnerCounted(v.provider, ProviderOf(v.provider, t.op.subjectId), t.owners, Dedup(t.op.roleIds)))
  {
  }

  /** Every statement keeps the final assertions already made. */
  lemma ExecKeepsAsserted(db: Db, t: Txn)
    requires Asserted(db, t) && t.pc < COMMIT && Exec(db, t).Next?
    requires Exec(db, t).txn.op == t.op
    ensures Asserted(db, Exec(db, t).txn)
  {
    var u := Exec(db, t).txn;
    var locked := t.(locks := t.locks + Wanted(t));
    if Guards(t.op) && t.Past(INSERT_PAIRS) {
      if t.op.ReplaceRoles? {
        SubjectWritesOnlyEvents(View(db, t), locked);
      } else {
        RoleWritesOnlyEvents(View(db, t), locked);
      }
      assert View(db, u).Of(t.op.platform) == View(db, t).Of(t.op.platform);
    } else if Guards(t.op) {
      StatementSlow(View(db, t), locked);
    }
  }

  /** Before the rows are in, a statement moves to the next one or stays in its loop. */
  lemma StatementSlow(v: Db, t: Txn)
    requires !t.Past(INSERT_PAIRS) && Guards(t.op) && Statement(v, t).Next?
    ensures Statement(v, t).txn.pc <= t.pc + 1
  {
  }
}
