/** What the revocation of a whole account reaches when it runs beside other transactions: it
    marks the rows of its snapshot one by one, waits for locked ones and passes over those
    that were revoked meanwhile. */
module AccountClosing {
  import opened Basics
  import opened SessionStore
  import opened SessionRows
  import opened SessionMachine
  import opened SessionInterleavings
  import Families = SessionFamilies

  predicate OfAccount(row: Session, job: Job)
    requires job.Closing?
  {
    row.accountId == job.accountId && row.realm == job.realm
  }

  /** The snapshot is the account's unrevoked rows at the time; those no longer waiting are marked, or
      were revoked by others; marks are only on rows that are still unrevoked. */
  ghost predicate Closes(states: seq<Sessions>, db: Sessions, t: Txn) {
    t.job.Closing? && t.pc > TAKE_SNAPSHOT ==>
      && 0 < t.seen <= |states|
      && (forall id :: id in states[t.seen - 1] ==>
            id in db && OfAccount(states[t.seen - 1][id], t.job) == OfAccount(db[id], t.job))
      && Taken(states[t.seen - 1], t)
      && (forall id :: id in t.snapshot && id !in t.waiting && id !in t.delta ==>
            id in db && db[id].revokedAt.Some?)
      && (forall id :: id in t.delta ==> id in db && db[id].revokedAt.None?)
      && (forall id :: id in states[t.seen - 1] && states[t.seen - 1][id].revokedAt.Some? ==> db[id].revokedAt.Some?)
  }

  ghost predicate Taken(earlier: Sessions, t: Txn)
    requires t.job.Closing?
  {
    forall id :: id in t.snapshot <==> id in earlier && OfAccount(earlier[id], t.job) && earlier[id].revokedAt.None?
  }

  ghost predicate AllClose(s: Sys) {
    s.states != [] && forall tid :: tid in s.txns ==> Closes(s.states, Now(s), s.txns[tid])
  }

  lemma ExecCloses(s: Sys, t: Txn, clock: Instant, row: Id)
    requires s.states != [] && Facts(Now(s), t) && Closes(s.states, Now(s), t)
    requires t.pc < COMMIT && Exec(Now(s), |s.states|, t, clock, row).Next?
    ensures Closes(s.states, Now(s), Exec(Now(s), |s.states|, t, clock, row).txn)
  {
  }

  /** Locked rows are as they were, and the others keep what is written once. */
  lemma ClosesStable(states: seq<Sessions>, more: seq<Sessions>, db: Sessions, db': Sessions, t: Txn)
    requires Closes(states, db, t) && Facts(db, t) && states <= more && Rely(db, db', t.locks)
    requires forall id :: id in db ==> id in db' && Families.WrittenOnce(db[id], db'[id])
    ensures Closes(more, db', t)
  {
  }

  lemma OthersClose(s: Sys, commit: Commit, s': Sys)
    requires Inv(s) && AllClose(s) && Proper(Now(s), commit)
    requires s'.states == s.states + [After(Now(s), commit)]
    requires forall tid :: tid in s'.txns ==>
               tid in s.txns && s'.txns[tid] == s.txns[tid] && Rely(Now(s), Now(s'), s.txns[tid].locks)
    ensures AllClose(s')
  {
    HistoryFamilies(s.states, s.commits, |s.states| - 1);
    CommitKeepsFamilies(Now(s), commit);
    forall tid | tid in s'.txns ensures Closes(s'.states, Now(s'), s'.txns[tid]) {
      ClosesStable(s.states, s'.states, Now(s), Now(s'), s.txns[tid]);
    }
  }

  lemma CommitCloses(s: Sys, tid: nat, s': Sys)
    requires Inv(s) && AllClose(s) && StepOf(s, CommitTxn(tid), s')
    ensures AllClose(s')
  {
    CommitIsCall(Now(s), s.txns[tid]);
    forall other | other in s'.txns ensures Rely(Now(s), Now(s'), s.txns[other].locks) {
      CommitRely(Now(s), s.txns[tid], s.txns[other].locks);
    }
    OthersClose(s, CommitOf(s.txns[tid]), s');
  }

  lemma RunKeepsCloses(s: Sys, tid: nat, clock: Instant, row: Id, s': Sys)
    requires Inv(s) && AllClose(s) && StepOf(s, Run(tid, clock, row), s')
    ensures AllClose(s')
  {
    if Exec(Now(s), |s.states|, s.txns[tid], clock, row).Next? {
      ExecCloses(s, s.txns[tid], clock, row);
    }
  }

  /** A creation and a logout wait for the row they write. */
  lemma DirectCloses(s: Sys, commit: Commit, s': Sys)
    requires Inv(s) && AllClose(s) && Proper(Now(s), commit)
    requires commit.Created? ==> Unlocked(s, commit.id)
    requires commit.Marked? ==> forall id :: id in commit.ids ==> Unlocked(s, id)
    requires !commit.Rotated? && s'.states == s.states + [After(Now(s), commit)] && s'.txns == s.txns
    ensures AllClose(s')
  {
    OthersClose(s, commit, s');
  }

  lemma StepCloses(s: Sys, move: Move, s': Sys)
    requires Inv(s) && AllClose(s) && StepOf(s, move, s')
    ensures AllClose(s')
  {
    match move
    case Begin(_, _, _) =>
    case Run(tid, clock, row) => RunKeepsCloses(s, tid, clock, row, s');
    case CommitTxn(tid) => CommitCloses(s, tid, s');
    case Rollback(_) =>
    case CreateRow(id, session) => DirectCloses(s, Created(id, session), s');
    case RevokeRow(id, at) => DirectCloses(s, Marked({id}, at, LOGOUT), s');
  }

  lemma {:induction false} RunCloses(run: seq<Sys>, moves: seq<Move>, n: nat)
    requires IsRun(run, moves) && n < |run|
    ensures Inv(run[n]) && AllClose(run[n])
  {
    RunInv(run, moves, n);
    if n > 0 {
      RunCloses(run, moves, n - 1);
      StepCloses(run[n - 1], moves[n - 1], run[n]);
    }
  }

  ghost predicate ClosingReady(s: Sys, tid: nat) {
    && s.states != [] && tid in s.txns && s.txns[tid].job.Closing? && s.txns[tid].pc == COMMIT
    && 0 < s.txns[tid].seen <= |s.states|
  }

  /** A row before and after the commit: one of the account's that was there when the revocation
      started ends revoked, marked with its reason if it was unrevoked; no other row changes. */
  ghost predicate Closed(earlier: Sessions, db: Sessions, after: Sessions, t: Txn, id: Id)
    requires t.job.Closing? && id in db
  {
    && id in after
    && if OfAccount(db[id], t.job) && id in earlier
       then
         && after[id].revokedAt.Some?
         && (if db[id].revokedAt.None? then MarkedNow(db[id], after[id], t.stamp, t.job.reason)
             else after[id] == db[id])
       else after[id] == db[id]
  }

  lemma ClosingCommits(s: Sys, tid: nat, id: Id)
    requires Inv(s) && AllClose(s) && ClosingReady(s, tid) && id in Now(s)
    ensures Closed(s.states[s.txns[tid].seen - 1], Now(s), Now(s) + s.txns[tid].delta, s.txns[tid], id)
  {
    var t := s.txns[tid];
    HistoryFamilies(s.states, s.commits, |s.states| - 1);
    assert Closes(s.states, Now(s), t) && Facts(Now(s), t);
    assert id in t.snapshot && id !in t.delta ==> Now(s)[id].revokedAt.Some?;
  }

  /** In every interleaving the commit of an account's revocation does this to every row, so the
      account is left without an unrevoked session exactly when every session that was inserted
      for it since the revocation started is revoked already. */
  lemma ClosingExact(run: seq<Sys>, moves: seq<Move>, n: nat, tid: nat)
    requires IsRun(run, moves) && n < |run| && run[n].states != [] && tid in run[n].txns
    requires run[n].txns[tid].job.Closing? && run[n].txns[tid].pc == COMMIT
    ensures ClosingReady(run[n], tid)
    ensures var db, t := Now(run[n]), run[n].txns[tid];
            var earlier, after := run[n].states[t.seen - 1], db + t.delta;
            && after.Keys == db.Keys && (forall id :: id in db ==> Closed(earlier, db, after, t, id))
            && ((forall id :: id in after && OfAccount(after[id], t.job) ==> after[id].revokedAt.Some?) <==>
                (forall id :: id in db && OfAccount(db[id], t.job) && id !in earlier ==> db[id].revokedAt.Some?))
  {
    RunCloses(run, moves, n);
    var s, t := run[n], run[n].txns[tid];
    assert Closes(s.states, Now(s), t) && Facts(Now(s), t);
    forall id | id in Now(s) ensures Closed(s.states[t.seen - 1], Now(s), Now(s) + t.delta, t, id) {
      ClosingCommits(s, tid, id);
    }
  }
}
