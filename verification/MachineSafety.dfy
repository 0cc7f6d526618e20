/** Safety of every interleaving: each commit is the effect of its operation on the
    database committed at that moment, the last recovery administrator and the last
    owners are never lost, and administration never assigns a deleted role. */
module MachineSafety {
  import opened AuthorizationTables
  import opened AuthorizationKernel
  import opened AuthorizationHistory
  import opened AuthorizationMachine
  import opened MachineRely
  import opened MachineFacts
  import opened MachineStability

  ghost predicate Exclusive(txns: map<nat, Txn>) {
    forall a, b :: a in txns && b in txns && a != b ==> txns[a].locks !! txns[b].locks
  }

  /** Transactions past the OWNER lookup found it, if the role was there from the start. */
  ghost predicate OwnersRead(s: Sys)
    requires s.states != []
  {
    OwnerRoles(s.states[0].provider) != {} ==>
      && OwnerRoles(Now(s).provider) != {}
      && forall tid :: tid in s.txns && s.txns[tid].Past(READ_OWNER) && s.txns[tid].op.ReplaceRoles? ==>
          s.txns[tid].owners != {}
  }

  ghost predicate Inv(s: Sys) {
    && IsHistory(s.states, s.ops) && WellFormed(s.states[0])
    && (forall tid :: tid in s.txns ==> Facts(Now(s), s.txns[tid]) && Asserted(Now(s), s.txns[tid]))
    && Exclusive(s.txns)
    && OwnersRead(s)
  }

  lemma ExecLocks(db: Db, t: Txn)
    requires t.pc < COMMIT && Exec(db, t).Next?
    ensures Exec(db, t).txn.locks == t.locks + Wanted(t)
    ensures Exec(db, t).txn.op == t.op
  {
  }

  lemma ReadsOwners(v: Db, t: Txn)
    requires t.op.ReplaceRoles? && t.pc < COMMIT && Statement(v, t).Next? && OwnerRoles(v.provider) != {}
    requires t.Past(READ_OWNER) ==> t.owners != {}
    ensures Statement(v, t).txn.Past(READ_OWNER) ==> Statement(v, t).txn.owners != {}
  {
  }

  lemma ExecReadsOwners(db: Db, t: Txn)
    requires t.op.ReplaceRoles? && SubjectFacts(db, t) && t.pc < COMMIT && Exec(db, t).Next?
    requires OwnerRoles(db.provider) != {}
    requires t.Past(READ_OWNER) ==> t.owners != {}
    ensures Exec(db, t).txn.Past(READ_OWNER) ==> Exec(db, t).txn.owners != {}
  {
    ViewShape(db, t);
    ReadsOwners(View(db, t), t.(locks := t.locks + Wanted(t)));
  }

  lemma HistoryEnd(s: Sys)
    requires IsHistory(s.states, s.ops) && WellFormed(s.states[0])
    ensures WellFormed(Now(s))
  {
    HistoryWellFormed(s.states, s.ops, |s.ops|);
  }

  /** A transaction may change to one that keeps its facts and takes only locks that are free. */
  lemma ReplacedKeepsInv(s: Sys, tid: nat, u: Txn)
    requires Inv(s) && Facts(Now(s), u) && Asserted(Now(s), u)
    requires forall other :: other in s.txns && other != tid ==> s.txns[other].locks !! u.locks
    requires OwnerRoles(s.states[0].provider) != {} && u.Past(READ_OWNER) && u.op.ReplaceRoles? ==> u.owners != {}
    ensures Inv(s.(txns := s.txns[tid := u]))
  {
  }

  lemma RunKeepsInv(s: Sys, tid: nat, s': Sys)
    requires Inv(s) && StepOf(s, Run(tid), s') && Exec(Now(s), s.txns[tid]).Next?
    ensures Inv(s')
  {
    var db, t := Now(s), s.txns[tid];
    ExecKeepsFacts(db, t);
    ExecKeepsAsserted(db, t);
    ExecLocks(db, t);
    if OwnerRoles(s.states[0].provider) != {} && t.op.ReplaceRoles? {
      ExecReadsOwners(db, t);
    }
    ReplacedKeepsInv(s, tid, Exec(db, t).txn);
  }

  lemma OthersKeepFacts(db: Db, op: Op, t: Txn)
    requires Applicable(db, op) && WellFormed(db) && Needed(db, op) !! t.locks && Facts(db, t) && Asserted(db, t)
    ensures Facts(Effect(db, op), t) && Asserted(Effect(db, op), t)
  {
    EffectRely(db, op, t.locks);
    FactsStable(db, Effect(db, op), t);
    AssertedStable(db, Effect(db, op), t);
  }

  lemma OwnerRolesStay(db: Db, op: Op)
    requires Applicable(db, op) && WellFormed(db) && OwnerRoles(db.provider) != {}
    ensures OwnerRoles(Effect(db, op).provider) != {}
  {
    EffectRely(db, op, {});
    assert TablesRely(Platform.Provider, db.Of(Platform.Provider), Effect(db, op).Of(Platform.Provider), {});
  }

  lemma HistoryAppend(states: seq<Db>, ops: seq<Op>, op: Op)
    requires IsHistory(states, ops) && Applicable(states[|ops|], op)
    ensures IsHistory(states + [Effect(states[|ops|], op)], ops + [op])
  {
  }

  lemma CommitKeepsInv(s: Sys, tid: nat, s': Sys)
    requires Inv(s) && StepOf(s, CommitTxn(tid), s')
    ensures Inv(s')
  {
    var db, t := Now(s), s.txns[tid];
    CommitIsEffect(db, t);
    HistoryEnd(s);
    HistoryAppend(s.states, s.ops, t.op);
    assert Now(s') == Effect(db, t.op);
    forall other | other in s'.txns
      ensures Facts(Now(s'), s'.txns[other]) && Asserted(Now(s'), s'.txns[other])
    {
      OthersKeepFacts(db, t.op, s.txns[other]);
    }
    if OwnerRoles(s.states[0].provider) != {} {
      OwnerRolesStay(db, t.op);
    }
  }

  lemma BeginKeepsInv(s: Sys, tid: nat, op: Op, s': Sys)
    requires Inv(s) && StepOf(s, Begin(tid, op), s')
    ensures Inv(s')
  {
    StartFacts(Now(s), op);
    ReplacedKeepsInv(s, tid, Start(op));
  }

  lemma RollbackKeepsInv(s: Sys, tid: nat, s': Sys)
    requires Inv(s) && tid in s.txns && s' == s.(txns := s.txns - {tid})
    ensures Inv(s')
  {
  }

  lemma StepKeepsInv(s: Sys, move: Move, s': Sys)
    requires Inv(s) && StepOf(s, move, s')
    ensures Inv(s')
  {
    match move
    case Begin(tid, op) => BeginKeepsInv(s, tid, op, s');
    case Run(tid) =>
      if Exec(Now(s), s.txns[tid]).Next? {
        RunKeepsInv(s, tid, s');
      } else {
        RollbackKeepsInv(s, tid, s');
      }
    case CommitTxn(tid) => CommitKeepsInv(s, tid, s');
    case Rollback(tid) => RollbackKeepsInv(s, tid, s');
  }

  /** The committed states and operations of any interleaving form a history. */
  lemma {:induction false} RunInv(run: seq<Sys>, moves: seq<Move>, db: Db, n: nat)
    requires IsRun(run, moves, db) && WellFormed(db) && n < |run|
    ensures Inv(run[n]) && run[n].states[0] == db
  {
    if n > 0 {
      RunInv(run, moves, db, n - 1);
      StepKeepsInv(run[n - 1], moves[n - 1], run[n]);
    }
  }
}
