/** Deadlock freedom: every transaction asks for locks in one global order, so no
    transactions ever wait for each other in a circle and some one can always go on. */
module LockOrder {
  import opened Basics
  import opened AuthorizationTables
  import opened AuthorizationKernel
  import opened AuthorizationMachine

  /** The recovery lock and single unique or row entries, then one role or subject lock,
      then the membership row, then provider owner locks by ascending provider id. */
  function Height(lock: Lock): nat {
    match lock
    case FreshRole(_, _) => 0
    case FreshProvider(_) => 0
    case FreshMembership(_) => 0
    case RecoveryLock => 1
    case CodeKey(_, _) => 1
    case CustomerKey(_) => 1
    case AccountRow(_) => 1
    case RoleLock(_, _) => 2
    case SubjectLock(_, _) => 2
    case MembershipRow(_) => 3
    case OwnerLock(provider) => 4 + provider
  }

  ghost predicate Below(locks: set<Lock>, height: nat) {
    forall lock :: lock in locks ==> Height(lock) < height
  }

  /** What a transaction holds lies below everything it will still ask for. */
  ghost predicate Ordered(t: Txn) {
    && (t.op.CreateRole? && !t.Past(WRITE_ROLE) ==> Below(t.locks, 1) && t.queue == [])
    && (t.op.Provision? && !t.Past(INSERT_ACCOUNT) ==> Below(t.locks, 1) && t.queue == [])
    && (t.op.Approve? && !t.Past(LOCK_ACCOUNT) ==> Below(t.locks, 1) && t.queue == [])
    && (Guards(t.op) && !t.Past(LOCK_RECOVERY) ==> Below(t.locks, 1))
    && (Guards(t.op) && !t.Past(LOCK_TARGET) ==> Below(t.locks, 2))
    && (Guards(t.op) && !t.Past(LOCK_MEMBERSHIP) ==> Below(t.locks, 3))
    && (Guards(t.op) && !t.Past(QUERY_OWNERS) ==> Below(t.locks, 4))
    && (Guards(t.op) && t.pc == QUERY_OWNERS && !t.op.ReplaceRoles? ==> t.queue == [])
    && (Guards(t.op) && !t.Past(LOCK_MEMBERSHIP) ==> t.queue == [])
    && (Guards(t.op) && !t.Past(LOCK_PROVIDERS) ==>
          Rising(t.queue) && forall p :: p in t.queue ==> Below(t.locks, 4 + p))
  }

  lemma StartOrdered(op: Op)
    ensures Ordered(Start(op))
  {
  }

  /** A statement waits only for a lock above everything its transaction holds. */
  lemma WantsAbove(t: Txn)
    requires Ordered(t) && t.pc < COMMIT && Wants(t).Some?
    ensures Below(t.locks, Height(Wants(t).value))
  {
    if t.pc == LOCK_PROVIDERS {
      assert t.queue[0] in t.queue;
    }
  }

  /** The transaction when its statement runs: the lock it waited for is granted. */
  function Granted(t: Txn): Txn {
    t.(locks := t.locks + Wanted(t))
  }

  lemma CreateKeepsOrder(v: Db, t: Txn)
    requires t.op.CreateRole? && Ordered(t) && t.pc < COMMIT && CreateStep(v, Granted(t)).Next?
    ensures Ordered(CreateStep(v, Granted(t)).txn)
  {
  }

  lemma ProvisionKeepsOrder(v: Db, t: Txn)
    requires t.op.Provision? && Ordered(t) && t.pc < COMMIT && ProvisionStep(v, Granted(t)).Next?
    ensures Ordered(ProvisionStep(v, Granted(t)).txn)
  {
  }

  lemma ApproveKeepsOrder(v: Db, t: Txn)
    requires t.op.Approve? && Ordered(t) && t.pc < COMMIT && ApproveStep(v, Granted(t)).Next?
    ensures Ordered(ApproveStep(v, Granted(t)).txn)
  {
  }

  /** Past the owner locks the operations on roles and subjects ask for nothing more. */
  lemma GuardedKeepsOrder(v: Db, t: Txn)
    requires Guards(t.op) && t.Past(LOCK_PROVIDERS) && t.pc < COMMIT && Statement(v, Granted(t)).Next?
    ensures Ordered(Statement(v, Granted(t)).txn)
  {
    StatementForward(v, Granted(t));
  }

  lemma StatementForward(v: Db, t: Txn)
    requires Guards(t.op) && t.Past(LOCK_PROVIDERS) && t.pc < COMMIT && Statement(v, t).Next?
    ensures Statement(v, t).txn.pc >= t.pc && Statement(v, t).txn.op == t.op
  {
  }

  /** Taking the first of the ascending owner locks leaves only higher ones to ask for. */
  lemma OwnerLockTaken(t: Txn)
    requires Guards(t.op) && Ordered(t) && t.pc == LOCK_PROVIDERS && t.queue != []
    ensures Ordered(Granted(t).(queue := t.queue[1..]))
  {
    forall p | p in t.queue[1..] ensures t.queue[0] < p && p in t.queue {
      var i :| 0 <= i < |t.queue[1..]| && t.queue[1..][i] == p;
      assert t.queue[i + 1] == p;
    }
  }

  lemma EarlyKeepsOrder(v: Db, t: Txn)
    requires t.op.OnLiveRole() && Ordered(t) && t.pc < QUERY_OWNERS && RoleReads(v, Granted(t)).Next?
    ensures Ordered(RoleReads(v, Granted(t)).txn)
  {
  }

  lemma RoleKeepsOrder(v: Db, t: Txn)
    requires t.op.OnLiveRole() && Ordered(t) && !t.Past(LOCK_PROVIDERS) && RoleReads(v, Granted(t)).Next?
    ensures Ordered(RoleReads(v, Granted(t)).txn)
  {
    if t.pc < QUERY_OWNERS {
      EarlyKeepsOrder(v, t);
    } else if t.pc == LOCK_PROVIDERS && t.queue != [] {
      OwnerLockTaken(t);
    }
  }

  lemma SubjectKeepsOrder(v: Db, t: Txn)
    requires t.op.ReplaceRoles? && Ordered(t) && !t.Past(LOCK_PROVIDERS) && SubjectReads(v, Granted(t)).Next?
    ensures Ordered(SubjectReads(v, Granted(t)).txn)
  {
    if t.pc == LOCK_PROVIDERS && t.queue != [] {
      OwnerLockTaken(t);
    }
  }

  lemma ExecKeepsOrder(db: Db, t: Txn)
    requires Ordered(t) && t.pc < COMMIT && Exec(db, t).Next?
    ensures Ordered(Exec(db, t).txn)
  {
    var v := View(db, t);
    match t.op
    case CreateRole(_, _, _, _, _, _, _) => CreateKeepsOrder(v, t);
    case Provision(_, _, _) => ProvisionKeepsOrder(v, t);
    case Approve(_) => ApproveKeepsOrder(v, t);
    case ReplaceRoles(_, _, _, _) =>
      if t.Past(LOCK_PROVIDERS) { GuardedKeepsOrder(v, t); } else { SubjectKeepsOrder(v, t); }
    case _ =>
      if t.Past(LOCK_PROVIDERS) { GuardedKeepsOrder(v, t); } else { RoleKeepsOrder(v, t); }
  }

  ghost predicate AllOrdered(s: Sys) {
    forall tid :: tid in s.txns ==> Ordered(s.txns[tid])
  }

  lemma StepKeepsOrder(s: Sys, move: Move, s': Sys)
    requires s.states != [] && AllOrdered(s) && StepOf(s, move, s')
    ensures AllOrdered(s')
  {
    if move.Begin? {
      StartOrdered(move.op);
    } else if move.Run? && Exec(Now(s), s.txns[move.tid]).Next? {
      ExecKeepsOrder(Now(s), s.txns[move.tid]);
    }
  }

  /** In every reachable lock state every transaction respects the order. */
  lemma {:induction false} RunOrdered(run: seq<Sys>, moves: seq<Move>, db: Db, n: nat)
    requires IsRun(run, moves, db) && n < |run|
    ensures AllOrdered(run[n])
  {
    if n > 0 {
      RunOrdered(run, moves, db, n - 1);
      StepKeepsOrder(run[n - 1], moves[n - 1], run[n]);
    }
  }

  /** a's next statement waits for a lock that b holds. */
  ghost predicate WaitsFor(s: Sys, a: nat, b: nat) {
    && a in s.txns && b in s.txns && a != b && s.txns[a].pc < COMMIT
    && Wants(s.txns[a]).Some? && Wants(s.txns[a]).value in s.txns[b].locks
  }

  /** Each transaction of the list waits for the next one. */
  ghost predicate WaitingChain(s: Sys, chain: seq<nat>) {
    forall k, l :: 0 <= k && l == k + 1 && l < |chain| ==> WaitsFor(s, chain[k], chain[l])
  }

  /** Along a chain of waiting transactions the locks waited for strictly rise. */
  lemma {:induction false} WaitingRises(s: Sys, chain: seq<nat>, i: nat, j: nat)
    requires AllOrdered(s) && i < j < |chain| - 1 && WaitingChain(s, chain)
    ensures WaitsFor(s, chain[i], chain[i + 1]) && WaitsFor(s, chain[j], chain[j + 1])
    ensures Height(Wants(s.txns[chain[i]]).value) < Height(Wants(s.txns[chain[j]]).value)
  {
    assert WaitsFor(s, chain[j - 1], chain[j]) && WaitsFor(s, chain[j], chain[j + 1]);
    WantsAbove(s.txns[chain[j]]);
    if i < j - 1 {
      WaitingRises(s, chain, i, j - 1);
    }
  }

  /** No deadlock: in no reachable state do transactions wait for each other in a circle. */
  lemma NoWaitingCircle(run: seq<Sys>, moves: seq<Move>, db: Db, n: nat, circle: seq<nat>)
    requires IsRun(run, moves, db) && n < |run|
    requires |circle| > 1 && circle[0] == circle[|circle| - 1]
    ensures !WaitingChain(run[n], circle)
  {
    var s := run[n];
    RunOrdered(run, moves, db, n);
    if WaitingChain(s, circle) {
      var last := |circle| - 2;
      assert WaitsFor(s, circle[last], circle[last + 1]) && WaitsFor(s, circle[0], circle[1]);
      WantsAbove(s.txns[circle[0]]);
      if last > 0 {
        WaitingRises(s, circle, 0, last);
      }
    }
  }

  ghost predicate CanGoOn(s: Sys, tid: nat) {
    tid in s.txns && (s.txns[tid].pc >= COMMIT || Available(s, tid, Wanted(s.txns[tid])))
  }

  /** The waiting transactions that ask for a lock above the given height. */
  ghost function WaitingAbove(s: Sys, height: nat): set<nat> {
    set a | a in s.txns && s.txns[a].pc < COMMIT && Wants(s.txns[a]).Some? && Height(Wants(s.txns[a]).value) > height
  }

  function HeightWanted(t: Txn): nat {
    if t.pc < COMMIT && Wants(t).Some? then Height(Wants(t).value) else 0
  }

  lemma {:induction false} FollowWaiting(s: Sys, tid: nat) returns (free: nat)
    requires AllOrdered(s) && tid in s.txns
    ensures CanGoOn(s, free)
    decreases |WaitingAbove(s, HeightWanted(s.txns[tid]))|
  {
    if CanGoOn(s, tid) {
      free := tid;
    } else {
      var holder :| holder in s.txns && holder != tid && !(s.txns[holder].locks !! Wanted(s.txns[tid]));
      assert WaitsFor(s, tid, holder);
      if CanGoOn(s, holder) {
        free := holder;
      } else {
        WantsAbove(s.txns[holder]);
        var low, high := Height(Wants(s.txns[tid]).value), Height(Wants(s.txns[holder]).value);
        assert holder in WaitingAbove(s, low) && holder !in WaitingAbove(s, high);
        assert WaitingAbove(s, high) < WaitingAbove(s, low);
        ProperSubsetSmaller(WaitingAbove(s, high), WaitingAbove(s, low));
        free := FollowWaiting(s, holder);
      }
    }
  }

  lemma ProperSubsetSmaller<T>(small: set<T>, big: set<T>)
    requires small < big
    ensures |small| < |big|
  {
    SubsetSameSize(small, big);
    assert big == small + (big - small);
  }

  /** Progress: while transactions are running, some one of them is not waiting. */
  lemma SomeTransactionGoesOn(run: seq<Sys>, moves: seq<Move>, db: Db, n: nat) returns (free: nat)
    requires IsRun(run, moves, db) && n < |run| && run[n].txns.Keys != {}
    ensures CanGoOn(run[n], free)
  {
    RunOrdered(run, moves, db, n);
    var tid :| tid in run[n].txns;
    free := FollowWaiting(run[n], tid);
  }
}
