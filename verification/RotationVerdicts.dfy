/** The verdict of a rotation in every interleaving: it still holds for the committed table when the
    rotation commits, and what it commits is then the call of rotate on that table. */
module RotationVerdicts {
  import opened Basics
  import opened SessionStore
  import opened SessionMachine
  import opened SessionInterleavings
  import Families = SessionFamilies

  /** A verdict on a row is about the row as it is, which is locked; without a row it is not found. */
  ghost predicate Verdict(db: Sessions, t: Txn) {
    && (t.pc == LOCK_ROW ==> t.locks == {})
    && (t.job.Rotating? && t.pc > LOCK_ROW ==>
          && (t.job.input.sessionId in t.locks ==>
                Selected(db, t.job.input) && t.outcome == Judge(db, t.job.input, t.now))
          && (t.job.input.sessionId !in t.locks ==> t.outcome == NotFound)
          && (t.pc in {TAKE_SNAPSHOT, MARK_ROWS} ==> t.outcome.Reuse())
          && (!t.outcome.Reuse() && !t.outcome.Valid? ==> t.delta == map[]))
  }

  ghost predicate Verdicts(s: Sys) {
    s.states != [] && forall tid :: tid in s.txns ==> Verdict(Now(s), s.txns[tid])
  }

  lemma ExecKeepsVerdict(db: Sessions, version: nat, t: Txn, now: Instant, row: Id)
    requires Facts(db, t) && Verdict(db, t) && t.pc < COMMIT && Exec(db, version, t, now, row).Next?
    ensures Verdict(db, Exec(db, version, t, now, row).txn)
  {
  }

  lemma VerdictStable(db: Sessions, db': Sessions, t: Txn)
    requires Verdict(db, t) && Rely(db, db', t.locks)
    ensures Verdict(db', t)
  {
  }

  lemma CommitKeepsVerdicts(s: Sys, tid: nat, s': Sys)
    requires Inv(s) && Verdicts(s) && StepOf(s, CommitTxn(tid), s')
    ensures Verdicts(s')
  {
    forall other | other in s'.txns ensures Verdict(Now(s'), s'.txns[other]) {
      CommitRely(Now(s), s.txns[tid], s.txns[other].locks);
      VerdictStable(Now(s), Now(s'), s.txns[other]);
    }
  }

  lemma DirectKeepsVerdicts(s: Sys, commit: Commit, s': Sys)
    requires Verdicts(s) && Proper(Now(s), commit)
    requires commit.Created? ==> Unlocked(s, commit.id)
    requires commit.Marked? ==> forall id :: id in commit.ids ==> Unlocked(s, id)
    requires !commit.Rotated? && s'.states == s.states + [After(Now(s), commit)] && s'.txns == s.txns
    ensures Verdicts(s')
  {
    forall tid | tid in s'.txns ensures Verdict(Now(s'), s'.txns[tid]) {
      assert Rely(Now(s), Now(s'), s.txns[tid].locks);
      VerdictStable(Now(s), Now(s'), s.txns[tid]);
    }
  }

  lemma RunKeepsVerdicts(s: Sys, tid: nat, clock: Instant, row: Id, s': Sys)
    requires Inv(s) && Verdicts(s) && StepOf(s, Run(tid, clock, row), s')
    ensures Verdicts(s')
  {
    if Exec(Now(s), |s.states|, s.txns[tid], clock, row).Next? {
      ExecKeepsVerdict(Now(s), |s.states|, s.txns[tid], clock, row);
    }
  }

  lemma StepKeepsVerdicts(s: Sys, move: Move, s': Sys)
    requires Inv(s) && Verdicts(s) && StepOf(s, move, s')
    ensures Verdicts(s')
  {
    match move
    case Begin(_, _, _) =>
    case Run(tid, clock, row) => RunKeepsVerdicts(s, tid, clock, row, s');
    case CommitTxn(tid) => CommitKeepsVerdicts(s, tid, s');
    case Rollback(_) =>
    case CreateRow(id, session) => DirectKeepsVerdicts(s, Created(id, session), s');
    case RevokeRow(id, at) => DirectKeepsVerdicts(s, Marked({id}, at, LOGOUT), s');
  }

  lemma {:induction false} RunVerdicts(run: seq<Sys>, moves: seq<Move>, n: nat)
    requires IsRun(run, moves) && n < |run|
    ensures Inv(run[n]) && Verdicts(run[n])
  {
    RunInv(run, moves, n);
    if n > 0 {
      RunVerdicts(run, moves, n - 1);
      StepKeepsVerdicts(run[n - 1], moves[n - 1], run[n]);
    }
  }

  /** The family revoked as read is the family as it is, if nothing was committed since. */
  lemma UndisturbedReuse(s: Sys, t: Txn)
    requires s.states != [] && Facts(Now(s), t) && Verdict(Now(s), t) && Seen(s.states, t)
    requires t.job.Rotating? && t.pc == COMMIT && t.outcome.Reuse() && t.seen == |s.states|
    ensures Now(s) + t.delta == AfterRotate(Now(s), t.job.input, t.now, t.stamp)
  {
    var db, input := Now(s), t.job.input;
    assert input.sessionId in t.locks;
    assert t.delta.Keys == FamilyRows(db, db[input.sessionId]);
    assert forall id :: id in db ==>
        (id in t.delta.Keys <==> InFamily(db[id], db[input.sessionId].familyId, db[input.sessionId].realm,
                                          db[input.sessionId].accountId));
  }

  /** What a rotation in any interleaving commits is the call of rotate on the table of that moment: a
      successful one always, a refused one by changing nothing, and one that judged a reuse if
      nothing was committed since it read the family. */
  lemma CommitsTheCall(run: seq<Sys>, moves: seq<Move>, n: nat, tid: nat)
    requires IsRun(run, moves) && n < |run| && run[n].states != [] && tid in run[n].txns
    requires run[n].txns[tid].job.Rotating? && run[n].txns[tid].pc == COMMIT
    ensures var db, t := Now(run[n]), run[n].txns[tid]; var input := t.job.input;
            && (t.outcome != NotFound ==> t.outcome == Judge(db, input, t.now))
            && (t.outcome.Valid? ==> AnswerOf(db, input, t.now) == SessionStore.Rotated)
            && (t.outcome.Valid? || (t.outcome.Reuse() && t.seen == |run[n].states|) ==>
                  db + t.delta == AfterRotate(db, input, t.now, t.stamp))
            && (!t.outcome.Valid? && !t.outcome.Reuse() ==> db + t.delta == db)
  {
    RunVerdicts(run, moves, n);
    var s, t := run[n], run[n].txns[tid];
    assert Verdict(Now(s), t) && Facts(Now(s), t) && Seen(s.states, t);
    CommitIsCall(Now(s), t);
    if t.outcome.Reuse() && t.seen == |s.states| {
      UndisturbedReuse(s, t);
    }
  }
}
