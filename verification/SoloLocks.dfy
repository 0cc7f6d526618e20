/** Which locks a transaction takes: running alone it holds, whenever it is ready to commit, exactly
    the locks its operation calls for on the database it ran on. */
module SoloLocks {
  import opened Basics
  import opened AuthorizationTables
  import opened RecoveryCapability
  import opened AuthorizationKernel
  import opened AuthorizationMachine
  import opened MachineFacts
  import opened SoloRuns

  /** The providers whose owner lock the operation takes: of every membership assigned the OWNER role it
      updates or remaps, or of the membership it reassigns. */
  ghost predicate OwnerGuarded(db: Db, op: Op, provider: Id) {
    var t := db.provider;
    || (op.Versioned() && op.platform == Platform.Provider && op.roleId in t.roles && t.roles[op.roleId].code == "OWNER"
        && exists m :: (m, op.roleId) in t.assignments && m in t.subjects && t.subjects[m].Membership?
                       && t.subjects[m].providerId == provider)
    || (op.ReplaceRoles? && op.platform == Platform.Provider && op.subjectId in t.subjects
        && !t.subjects[op.subjectId].deleted && t.subjects[op.subjectId].Membership?
        && t.subjects[op.subjectId].providerId == provider)
  }

  /** The locks the operation holds in the end. */
  ghost predicate Called(db: Db, op: Op, lock: Lock) {
    match lock
    case RecoveryLock => (op.OnLiveRole() || op.ReplaceRoles?) && op.platform.Administration?
    case RoleLock(p, id) => op.OnLiveRole() && p == op.platform && id == op.roleId
    case SubjectLock(p, id) => op.ReplaceRoles? && p == op.platform && id == op.subjectId
    case MembershipRow(id) => op.ReplaceRoles? && op.platform == Platform.Provider && id == op.subjectId
    case OwnerLock(provider) => OwnerGuarded(db, op, provider)
    case CodeKey(p, code) => op.CreateRole? && p == op.platform && code == op.code
    case FreshRole(p, id) => op.CreateRole? && p == op.platform && id == op.roleId
    case CustomerKey(id) => op.Provision? && id == op.customerId
    case FreshProvider(id) => op.Provision? && id == op.providerId
    case FreshMembership(id) => op.Provision? && id == op.membershipId
    case AccountRow(id) => op.Approve? && id == op.accountId
  }

  /** The statement that takes the lock. */
  function TakenAt(lock: Lock): nat {
    match lock
    case RecoveryLock => LOCK_RECOVERY
    case RoleLock(_, _) => LOCK_TARGET
    case SubjectLock(_, _) => LOCK_TARGET
    case MembershipRow(_) => LOCK_MEMBERSHIP
    case OwnerLock(_) => LOCK_PROVIDERS
    case CodeKey(_, _) => WRITE_ROLE
    case CustomerKey(_) => INSERT_ACCOUNT
    case AccountRow(_) => LOCK_ACCOUNT
    case _ => LOCK_RECOVERY
  }

  /** The owner locks still queued for. */
  ghost predicate Queued(t: Txn, lock: Lock) {
    lock.OwnerLock? && t.pc <= LOCK_PROVIDERS && lock.providerId in t.queue
  }

  ghost predicate Queueing(t: Txn) {
    if t.op.ReplaceRoles? then t.Past(LOCK_MEMBERSHIP) else t.Past(QUERY_OWNERS)
  }

  /** Held so far: what is called for and whose statement is past, and of the owner locks those that
      have left the queue. */
  ghost predicate HeldSoFar(db: Db, t: Txn, lock: Lock) {
    if lock.OwnerLock? then
      && (lock in t.locks || Queued(t, lock) <==> Queueing(t) && Called(db, t.op, lock))
      && !(lock in t.locks && Queued(t, lock))
    else if lock.FreshRole? || lock.FreshProvider? || lock.FreshMembership? then
      lock in t.locks <==> Called(db, t.op, lock)
    else lock in t.locks <==> Called(db, t.op, lock) && t.Past(TakenAt(lock))
  }

  ghost predicate Holding(db: Db, t: Txn) {
    && (t.pc <= LOCK_PROVIDERS ==> Rising(t.queue) && (!Queueing(t) ==> t.queue == []))
    && forall lock :: HeldSoFar(db, t, lock)
  }

  lemma ReadKeepsHolding(db: Db, t: Txn)
    requires t.op.OnLiveRole() && RoleFacts(db, t) && Holding(db, t) && t.pc <= READ_ASSIGNMENTS
    requires RoleReads(db, t.(locks := t.locks + Wanted(t))).Next?
    ensures Holding(db, RoleReads(db, t.(locks := t.locks + Wanted(t))).txn)
  {
    var u := RoleReads(db, t.(locks := t.locks + Wanted(t))).txn;
    forall lock ensures HeldSoFar(db, u, lock) {
      assert HeldSoFar(db, t, lock);
      if t.pc == QUERY_OWNERS && lock.OwnerLock? {
        ProvidersExact(db, t, lock.providerId);
      }
    }
  }

  lemma ProvidersExact(db: Db, t: Txn, provider: Id)
    requires t.op.OnLiveRole() && RoleFacts(db, t) && t.pc == QUERY_OWNERS
    ensures t.op.Versioned() && OnOwnerRole(t) && provider in ProvidersOf(db.Of(t.op.platform), t.op.roleId) <==>
              OwnerGuarded(db, t.op, provider)
  {
    var tables := db.provider;
    if m :| (m, t.op.roleId) in tables.assignments && m in tables.subjects && tables.subjects[m].Membership?
            && tables.subjects[m].providerId == provider {
      assert (m, t.op.roleId).1 == t.op.roleId;
    }
  }

  lemma SubjectReadKeepsHolding(db: Db, t: Txn)
    requires t.op.ReplaceRoles? && SubjectFacts(db, t) && Holding(db, t) && t.pc <= READ_ASSIGNMENTS
    requires SubjectReads(db, t.(locks := t.locks + Wanted(t))).Next?
    ensures Holding(db, SubjectReads(db, t.(locks := t.locks + Wanted(t))).txn)
  {
    var u := SubjectReads(db, t.(locks := t.locks + Wanted(t))).txn;
    forall lock ensures HeldSoFar(db, u, lock) {
      assert HeldSoFar(db, t, lock);
    }
  }

  /** From the first write on only a unique key is waited for. */
  lemma LateKeepsHolding(db: Db, v: Db, t: Txn)
    requires t.op.OnLiveRole() || t.op.ReplaceRoles?
    requires Holding(db, t) && READ_ASSIGNMENTS < t.pc < COMMIT
    requires Statement(v, t.(locks := t.locks + Wanted(t))).Next?
    ensures Holding(db, Statement(v, t.(locks := t.locks + Wanted(t))).txn)
  {
    var u := Statement(v, t.(locks := t.locks + Wanted(t))).txn;
    LateStatement(v, t.(locks := t.locks + Wanted(t)));
    forall lock ensures HeldSoFar(db, u, lock) {
      assert HeldSoFar(db, t, lock);
    }
  }

  lemma LateStatement(v: Db, t: Txn)
    requires t.op.OnLiveRole() || t.op.ReplaceRoles?
    requires READ_ASSIGNMENTS < t.pc < COMMIT && Statement(v, t).Next?
    ensures var u := Statement(v, t).txn; u.op == t.op && u.locks == t.locks && t.pc <= u.pc
  {
  }

  lemma OtherStatement(v: Db, t: Txn)
    requires t.op.CreateRole? || t.op.Provision? || t.op.Approve?
    requires t.pc < COMMIT && Statement(v, t).Next?
    ensures var u := Statement(v, t).txn;
            && u.op == t.op && u.locks == t.locks && (u.pc == t.pc + 1 || (u.pc == t.pc && t.pc == INSERT_PAIRS))
            && (t.pc < CLEAR_ROWS ==> u.queue == t.queue)
  {
  }

  lemma OtherKeepsHolding(db: Db, v: Db, t: Txn)
    requires t.op.CreateRole? || t.op.Provision? || t.op.Approve?
    requires Holding(db, t) && t.pc < COMMIT && Statement(v, t.(locks := t.locks + Wanted(t))).Next?
    ensures Holding(db, Statement(v, t.(locks := t.locks + Wanted(t))).txn)
  {
    var u := Statement(v, t.(locks := t.locks + Wanted(t))).txn;
    OtherStatement(v, t.(locks := t.locks + Wanted(t)));
    forall lock ensures HeldSoFar(db, u, lock) {
      assert HeldSoFar(db, t, lock);
    }
  }

  lemma ExecKeepsHolding(db: Db, t: Txn)
    requires Facts(db, t) && Holding(db, t) && t.pc < COMMIT && Exec(db, t).Next?
    ensures Holding(db, Exec(db, t).txn)
  {
    if t.op.CreateRole? || t.op.Provision? || t.op.Approve? {
      OtherKeepsHolding(db, View(db, t), t);
    } else if t.Past(READ_ASSIGNMENTS) {
      LateKeepsHolding(db, View(db, t), t);
    } else {
      NoWritesView(db, t);
      if t.op.ReplaceRoles? {
        SubjectReadKeepsHolding(db, t);
      } else {
        ReadKeepsHolding(db, t);
      }
    }
  }

  lemma {:induction false} TraceHolds(db: Db, trace: seq<Txn>, op: Op, i: nat)
    requires Trace(db, trace) && trace[0] == Start(op) && i < |trace|
    ensures Facts(db, trace[i]) && Holding(db, trace[i]) && trace[i].op == op
  {
    if i == 0 {
      StartFacts(db, op);
    } else {
      TraceHolds(db, trace, op, i - 1);
      assert Exec(db, trace[i - 1]) == Next(trace[i]);
      ExecKeepsFacts(db, trace[i - 1]);
      ExecKeepsHolding(db, trace[i - 1]);
    }
  }

  /** Ready to commit, a transaction that ran alone holds exactly the locks its operation calls for. */
  lemma HoldsExactly(db: Db, trace: seq<Txn>, op: Op, lock: Lock)
    requires Trace(db, trace) && trace[0] == Start(op) && trace[|trace| - 1].pc == COMMIT
    ensures lock in trace[|trace| - 1].locks <==> Called(db, op, lock)
  {
    TraceHolds(db, trace, op, |trace| - 1);
    assert HeldSoFar(db, trace[|trace| - 1], lock);
  }
}
