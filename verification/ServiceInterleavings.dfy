/** Sessions as the two authentication services drive them, in every interleaving: a login signs
    its token over the family it stores, a refresh presents an issued token with its own claims
    and signs the replacement over a brand-new family. Then reuse does end its family. */
module ServiceInterleavings {
  import opened Basics
  import opened SessionStore
  import opened SessionMachine
  import opened SessionInterleavings
  import Families = SessionFamilies

  // ----- What the services do -----

  /** A refresh: the token is an issued one and speaks for itself, and the replacement is signed
      over the new session and a family id that nobody uses. */
  ghost predicate RefreshInput(db: Sessions, input: RotationInput) {
    && (exists id :: id in db && db[id].digest == Sha256(input.token))
    && input.token.claims == Claims(input.accountId, input.realm, input.sessionId, input.familyId)
    && input.replacementToken.claims.sub == input.accountId && input.replacementToken.claims.realm == input.realm
    && input.replacementToken.claims.sessionId == input.replacementId
    && forall id :: id in db ==> db[id].familyId != input.replacementToken.claims.familyId
  }

  ghost predicate ServiceMove(s: Sys, move: Move)
    requires s.states != []
  {
    match move
    case Begin(_, job, _) => job.Rotating? ==> RefreshInput(Now(s), job.input)
    case CreateRow(id, session) =>
      session.digest.token.claims == Claims(session.accountId, session.realm, id, session.familyId)
    case _ => true
  }

  ghost predicate IsServiceRun(run: seq<Sys>, moves: seq<Move>) {
    IsRun(run, moves) && forall i {:trigger moves[i]} :: 0 <= i < |moves| ==> ServiceMove(run[i], moves[i])
  }

  // ----- The rows the services leave -----

  /** The row of a login: its token names the family it is stored under. */
  predicate LoginRow(session: Session) {
    session.digest.token.claims.familyId == session.familyId
  }

  /** Every row is stored under the session its token names, and a family has one login row. */
  ghost predicate Rows(db: Sessions) {
    && (forall id :: id in db ==> db[id].digest.token.claims.sessionId == id)
    && (forall a, b :: a in db && b in db && LoginRow(db[a]) && LoginRow(db[b]) && db[a].familyId == db[b].familyId ==>
          a == b)
  }

  /** What a refresh in progress presents is the token of a row, and its replacement's family is not that row's. */
  ghost predicate Presents(db: Sessions, t: Txn) {
    t.job.Rotating? ==>
      var input := t.job.input;
      && input.sessionId in db && db[input.sessionId].digest == Sha256(input.token)
      && input.token.claims.familyId == input.familyId
      && input.replacementToken.claims.sessionId == input.replacementId
      && input.replacementToken.claims.familyId != db[input.sessionId].familyId
  }

  /** A verdict of reuse is about the login row of the family, and that row is revoked. */
  ghost predicate JudgedReused(db: Sessions, t: Txn) {
    t.job.Rotating? && t.pc > LOCK_ROW && t.outcome.Reuse() ==>
      && t.job.input.sessionId in db && LoginRow(db[t.job.input.sessionId])
      && db[t.job.input.sessionId].revokedAt.Some?
  }

  ghost predicate SnapshotJudged(states: seq<Sessions>, t: Txn) {
    t.job.Rotating? && t.pc > TAKE_SNAPSHOT && t.outcome.Reuse() ==>
      0 < t.seen <= |states| && JudgedReused(states[t.seen - 1], t)
  }

  ghost predicate ServiceInv(s: Sys) {
    && s.states != [] && Rows(Now(s))
    && forall tid :: tid in s.txns ==>
         Presents(Now(s), s.txns[tid]) && JudgedReused(Now(s), s.txns[tid]) && SnapshotJudged(s.states, s.txns[tid])
  }

  /** In a table of chains a replaced or rotated row is revoked. */
  lemma RotatedIsRevoked(db: Sessions, id: Id)
    requires Families.RowsPaired(db) && Families.Chained(db) && id in db
    requires db[id].replacedBy.Some? || db[id].revokeReason == Some(ROTATED)
    ensures db[id].revokedAt.Some?
  {
    if db[id].replacedBy.Some? {
      assert Families.HasChain(db, db[id].familyId);
      var chain :| Families.IsChain(db, db[id].familyId, chain);
      var x :| 0 <= x < |chain| && chain[x] == id;
      assert x < |chain| - 1;
      assert Families.Linked(db, chain[x], chain[x + 1]);
    }
  }

  /** The verdict on an issued token is reuse only for a login row that was rotated. */
  lemma ReuseOfLoginRow(db: Sessions, t: Txn, now: Instant)
    requires Families.RowsPaired(db) && Families.Chained(db) && Presents(db, t) && t.job.Rotating?
    requires Judge(db, t.job.input, now).Reuse()
    ensures LoginRow(db[t.job.input.sessionId]) && db[t.job.input.sessionId].revokedAt.Some?
  {
    RotatedIsRevoked(db, t.job.input.sessionId);
  }

  lemma ExecKeepsService(s: Sys, t: Txn, clock: Instant, row: Id)
    requires s.states != [] && Families.RowsPaired(Now(s)) && Families.Chained(Now(s))
    requires Presents(Now(s), t) && JudgedReused(Now(s), t) && SnapshotJudged(s.states, t)
    requires Facts(Now(s), t) && t.pc < COMMIT && Exec(Now(s), |s.states|, t, clock, row).Next?
    ensures var u := Exec(Now(s), |s.states|, t, clock, row).txn;
            Presents(Now(s), u) && JudgedReused(Now(s), u) && SnapshotJudged(s.states, u)
  {
    if t.pc == LOCK_ROW && Judge(Now(s), t.job.input, clock).Reuse() {
      ReuseOfLoginRow(Now(s), t, clock);
    }
  }

  /** Rows that keep what is written once keep what a transaction presents and was judged on. */
  lemma TxnStable(db: Sessions, db': Sessions, states: seq<Sessions>, more: seq<Sessions>, t: Txn)
    requires forall id :: id in db ==> id in db' && Families.WrittenOnce(db[id], db'[id])
    requires states <= more
    requires Presents(db, t) && JudgedReused(db, t) && SnapshotJudged(states, t)
    ensures Presents(db', t) && JudgedReused(db', t) && SnapshotJudged(more, t)
  {
  }

  lemma CreateKeepsRows(db: Sessions, id: Id, session: Session)
    requires Rows(db) && Proper(db, Created(id, session))
    requires session.digest.token.claims == Claims(session.accountId, session.realm, id, session.familyId)
    ensures Rows(After(db, Created(id, session)))
  {
  }

  lemma RotateKeepsRows(db: Sessions, t: Txn)
    requires Rows(db) && t.job.Rotating? && Presents(db, t)
    requires AnswerOf(db, t.job.input, t.now) == SessionStore.Rotated
    ensures Rows(AfterRotate(db, t.job.input, t.now, t.stamp))
  {
  }

  lemma MarkKeepsRows(db: Sessions, ids: set<Id>, stamp: Instant, reason: string)
    requires Rows(db)
    ensures Rows(MarkedRows(db, ids, stamp, reason))
  {
  }

  lemma CommitKeepsRows(db: Sessions, t: Txn)
    requires Rows(db) && Presents(db, t) && Facts(db, t) && t.pc == COMMIT
    ensures Rows(db + t.delta)
  {
    CommitIsCall(db, t);
    if t.job.Rotating? && t.outcome.Valid? {
      RotateKeepsRows(db, t);
    } else {
      MarkKeepsRows(db, t.delta.Keys, t.stamp, ReasonOf(t.job));
    }
  }

  /** A step that commits keeps the facts of those that go on running. */
  lemma OthersKeepService(s: Sys, commit: Commit, s': Sys)
    requires Inv(s) && ServiceInv(s) && Proper(Now(s), commit) && Rows(After(Now(s), commit))
    requires s'.states == s.states + [After(Now(s), commit)]
    requires forall tid :: tid in s'.txns ==> tid in s.txns && s'.txns[tid] == s.txns[tid]
    ensures ServiceInv(s')
  {
    HistoryFamilies(s.states, s.commits, |s.states| - 1);
    CommitKeepsFamilies(Now(s), commit);
    forall tid | tid in s'.txns
      ensures Presents(Now(s'), s'.txns[tid]) && JudgedReused(Now(s'), s'.txns[tid])
      ensures SnapshotJudged(s'.states, s'.txns[tid])
    {
      TxnStable(Now(s), Now(s'), s.states, s'.states, s.txns[tid]);
    }
  }

  lemma BeginKeepsService(s: Sys, tid: nat, job: Job, start: Instant)
    requires ServiceInv(s) && (job.Rotating? ==> RefreshInput(Now(s), job.input))
    ensures ServiceInv(s.(txns := s.txns[tid := Start(job, start)]))
  {
    if job.Rotating? {
      var id :| id in Now(s) && Now(s)[id].digest == Sha256(job.input.token);
      assert id == job.input.sessionId;
    }
  }

  lemma RunKeepsService(s: Sys, tid: nat, clock: Instant, row: Id, s': Sys)
    requires Inv(s) && ServiceInv(s) && StepOf(s, Run(tid, clock, row), s')
    ensures ServiceInv(s')
  {
    if Exec(Now(s), |s.states|, s.txns[tid], clock, row).Next? {
      HistoryFamilies(s.states, s.commits, |s.states| - 1);
      ExecKeepsService(s, s.txns[tid], clock, row);
    }
  }

  lemma StepKeepsService(s: Sys, move: Move, s': Sys)
    requires Inv(s) && ServiceInv(s) && StepOf(s, move, s') && ServiceMove(s, move)
    ensures ServiceInv(s')
  {
    match move
    case Begin(tid, job, start) => BeginKeepsService(s, tid, job, start);
    case Run(tid, clock, row) => RunKeepsService(s, tid, clock, row, s');
    case CommitTxn(tid) =>
      CommitIsCall(Now(s), s.txns[tid]);
      CommitKeepsRows(Now(s), s.txns[tid]);
      OthersKeepService(s, CommitOf(s.txns[tid]), s');
    case Rollback(_) =>
    case CreateRow(id, session) =>
      CreateKeepsRows(Now(s), id, session);
      OthersKeepService(s, Created(id, session), s');
    case RevokeRow(id, at) =>
      MarkKeepsRows(Now(s), {id}, at, LOGOUT);
      OthersKeepService(s, Marked({id}, at, LOGOUT), s');
  }

  lemma {:induction false} RunService(run: seq<Sys>, moves: seq<Move>, n: nat)
    requires IsServiceRun(run, moves) && n < |run|
    ensures Inv(run[n]) && ServiceInv(run[n])
  {
    RunInv(run, moves, n);
    if n > 0 {
      RunService(run, moves, n - 1);
      StepKeepsService(run[n - 1], moves[n - 1], run[n]);
    }
  }

  // ----- The history of a service run -----

  /** Tables of service rows, in which only login rows are rotated. */
  ghost predicate ServiceHistory(states: seq<Sessions>, commits: seq<Commit>) {
    |states| == |commits| + 1 && (forall j :: 0 <= j < |states| ==> Rows(states[j]))
    && forall j :: 0 <= j < |commits| && commits[j].Rotated? ==> RotatesLogin(states[j], commits[j].input)
  }

  ghost predicate RotatesLogin(db: Sessions, input: RotationInput) {
    && input.sessionId in db && LoginRow(db[input.sessionId]) && db[input.sessionId].revokedAt.None?
    && input.token.claims.sessionId == input.sessionId
  }

  lemma HistoryGrows(states: seq<Sessions>, commits: seq<Commit>, next: Sessions, commit: Commit)
    requires ServiceHistory(states, commits) && Rows(next)
    requires commit.Rotated? ==> RotatesLogin(states[|states| - 1], commit.input)
    ensures ServiceHistory(states + [next], commits + [commit])
  {
  }

  /** What a successful rotation presents is the token of a login row. */
  lemma ValidIsLogin(db: Sessions, t: Txn)
    requires Rows(db) && Presents(db, t) && Facts(db, t) && t.pc == COMMIT && CommitOf(t).Rotated?
    ensures RotatesLogin(db, t.job.input)
  {
  }

  lemma StepKeepsHistory(s: Sys, move: Move, s': Sys)
    requires Inv(s) && ServiceInv(s) && StepOf(s, move, s') && ServiceHistory(s.states, s.commits)
    requires s'.states != [] && Rows(Now(s'))
    ensures ServiceHistory(s'.states, s'.commits)
  {
    match move
    case CommitTxn(tid) =>
      if CommitOf(s.txns[tid]).Rotated? {
        ValidIsLogin(Now(s), s.txns[tid]);
      }
      HistoryGrows(s.states, s.commits, Now(s'), CommitOf(s.txns[tid]));
    case CreateRow(id, session) => HistoryGrows(s.states, s.commits, Now(s'), Created(id, session));
    case RevokeRow(id, at) => HistoryGrows(s.states, s.commits, Now(s'), Marked({id}, at, LOGOUT));
    case _ =>
  }

  lemma HistoryMove(run: seq<Sys>, moves: seq<Move>, n: nat)
    requires IsServiceRun(run, moves) && 0 < n < |run| && ServiceHistory(run[n - 1].states, run[n - 1].commits)
    ensures ServiceHistory(run[n].states, run[n].commits)
  {
    assert run[n].states != [] && Rows(Now(run[n])) by {
      RunService(run, moves, n);
    }
    RunService(run, moves, n - 1);
    StepKeepsHistory(run[n - 1], moves[n - 1], run[n]);
  }

  lemma {:induction false} RunHistory(run: seq<Sys>, moves: seq<Move>, n: nat)
    requires IsServiceRun(run, moves) && n < |run|
    ensures ServiceHistory(run[n].states, run[n].commits)
  {
    if n > 0 {
      RunHistory(run, moves, n - 1);
      HistoryMove(run, moves, n);
    }
  }

  // ----- Reuse ends the family -----

  /** Once the login row of a family is revoked, no commit adds a row to the family. */
  lemma ClosedStep(db: Sessions, commit: Commit, login: Id, id: Id)
    requires Proper(db, commit) && Rows(db) && (commit.Rotated? ==> RotatesLogin(db, commit.input))
    requires login in db && LoginRow(db[login]) && db[login].revokedAt.Some?
    requires id in After(db, commit) && After(db, commit)[id].familyId == db[login].familyId
    ensures id in db
  {
  }

  lemma {:induction false} FamilyClosed(states: seq<Sessions>, commits: seq<Commit>, login: Id, i: nat, j: nat, id: Id)
    requires IsHistory(states, commits) && ServiceHistory(states, commits) && i <= j < |states|
    requires login in states[i] && LoginRow(states[i][login]) && states[i][login].revokedAt.Some?
    requires id in states[j] && states[j][id].familyId == states[i][login].familyId
    ensures id in states[i]
    decreases j
  {
    if i < j {
      RowKept(states, commits, login, i, j - 1);
      ClosedStep(states[j - 1], commits[j - 1], login, id);
      RowKept(states, commits, id, j - 1, j);
      FamilyClosed(states, commits, login, i, j - 1, id);
    }
  }

  /** Nothing was inserted into the family since the revocation took its snapshot. */
  lemma SnapshotComplete(s: Sys, tid: nat, id: Id)
    requires Inv(s) && ServiceInv(s) && ServiceHistory(s.states, s.commits) && ReuseReady(s, tid)
    requires s.txns[tid].job.input.sessionId in Now(s) && id in Now(s)
    requires Now(s)[id].familyId == Now(s)[s.txns[tid].job.input.sessionId].familyId
    ensures 0 < s.txns[tid].seen <= |s.states| && id in s.states[s.txns[tid].seen - 1]
  {
    var t, last := s.txns[tid], |s.states| - 1;
    assert SnapshotJudged(s.states, t);
    RowKept(s.states, s.commits, t.job.input.sessionId, t.seen - 1, last);
    FamilyClosed(s.states, s.commits, t.job.input.sessionId, t.seen - 1, last, id);
  }

  /** In every interleaving of logins, refreshes, logouts and revocations, the commit of a reuse
      leaves its whole family revoked. */
  lemma ReuseEndsFamily(run: seq<Sys>, moves: seq<Move>, n: nat, tid: nat)
    requires IsServiceRun(run, moves) && n < |run| && ReuseReady(run[n], tid)
    ensures var db, t := Now(run[n]), run[n].txns[tid];
            t.job.input.sessionId in db && Families.Dead(db + t.delta, db[t.job.input.sessionId].familyId)
  {
    ReuseRevokesExactly(run, moves, n, tid);
    RunService(run, moves, n);
    RunHistory(run, moves, n);
    var s := run[n];
    forall id | id in Now(s) && Now(s)[id].familyId == Now(s)[s.txns[tid].job.input.sessionId].familyId
      ensures id in s.states[s.txns[tid].seen - 1]
    {
      SnapshotComplete(s, tid, id);
    }
  }

  lemma DeadForGood(states: seq<Sessions>, commits: seq<Commit>, login: Id, k: nat)
    requires IsHistory(states, commits) && ServiceHistory(states, commits) && k < |states|
    requires login in states[k] && LoginRow(states[k][login]) && Families.Dead(states[k], states[k][login].familyId)
    ensures Families.Dead(states[|states| - 1], states[k][login].familyId)
  {
    var last := |states| - 1;
    forall id | id in states[last] && states[last][id].familyId == states[k][login].familyId
      ensures states[last][id].revokedAt.Some?
    {
      FamilyClosed(states, commits, login, k, last, id);
      RowKept(states, commits, id, k, last);
    }
  }

  /** The committed table of a later state, reached through the commit of t on the committed table of s. */
  ghost predicate Follows(s: Sys, t: Txn, later: Sys) {
    && IsHistory(later.states, later.commits) && ServiceHistory(later.states, later.commits)
    && 0 < |s.states| < |later.states|
    && later.states[|s.states| - 1] == Now(s) && later.states[|s.states|] == Now(s) + t.delta
  }

  /** A commit that leaves the family of a login row dead. */
  ghost predicate EndsFamilyOf(db: Sessions, delta: Sessions, login: Id) {
    login in db && LoginRow(db[login]) && Families.Dead(db + delta, db[login].familyId)
  }

  lemma DeadLater(s: Sys, t: Txn, later: Sys, login: Id)
    requires Follows(s, t, later) && EndsFamilyOf(Now(s), t.delta, login)
    ensures Families.Dead(Now(later), Now(s)[login].familyId)
  {
    RowKept(later.states, later.commits, login, |s.states| - 1, |s.states|);
    DeadForGood(later.states, later.commits, login, |s.states|);
  }

  lemma CommitThenMore(s: Sys, tid: nat, s': Sys, more: seq<Sessions>)
    requires s.states != [] && StepOf(s, CommitTxn(tid), s') && s'.states <= more
    ensures tid in s.txns && 0 < |s.states| < |more|
    ensures more[|s.states| - 1] == Now(s) && more[|s.states|] == Now(s) + s.txns[tid].delta
  {
    assert s'.states[|s.states| - 1] == Now(s);
  }

  lemma CommitKept(run: seq<Sys>, moves: seq<Move>, n: nat, tid: nat, m: nat)
    requires IsRun(run, moves) && n < m < |run| && moves[n] == CommitTxn(tid)
    ensures tid in run[n].txns && 0 < |run[n].states| < |run[m].states|
    ensures run[m].states[|run[n].states| - 1] == Now(run[n])
    ensures run[m].states[|run[n].states|] == Now(run[n]) + run[n].txns[tid].delta
  {
    StatesKept(run, moves, n + 1, m);
    CommitThenMore(run[n], tid, run[n + 1], run[m].states);
  }

  lemma HistoryOf(run: seq<Sys>, moves: seq<Move>, m: nat)
    requires IsServiceRun(run, moves) && m < |run|
    ensures IsHistory(run[m].states, run[m].commits) && ServiceHistory(run[m].states, run[m].commits)
  {
    RunInv(run, moves, m);
    RunHistory(run, moves, m);
  }

  lemma CommitFollows(run: seq<Sys>, moves: seq<Move>, n: nat, tid: nat, m: nat)
    requires IsServiceRun(run, moves) && n < m < |run| && tid in run[n].txns && moves[n] == CommitTxn(tid)
    ensures Follows(run[n], run[n].txns[tid], run[m])
  {
    CommitKept(run, moves, n, tid, m);
    HistoryOf(run, moves, m);
  }

  lemma ReuseEndsIts(run: seq<Sys>, moves: seq<Move>, n: nat, tid: nat)
    requires IsServiceRun(run, moves) && n < |run| && ReuseReady(run[n], tid)
    ensures EndsFamilyOf(Now(run[n]), run[n].txns[tid].delta, run[n].txns[tid].job.input.sessionId)
  {
    ReuseEndsFamily(run, moves, n, tid);
    assert JudgedReused(Now(run[n]), run[n].txns[tid]) by {
      RunService(run, moves, n);
    }
  }

  /** And for good: in every later committed state the family is revoked as a whole. */
  lemma ReuseEndsFamilyForGood(run: seq<Sys>, moves: seq<Move>, n: nat, tid: nat, m: nat)
    requires IsServiceRun(run, moves) && n < m < |run| && ReuseReady(run[n], tid) && moves[n] == CommitTxn(tid)
    ensures run[n].txns[tid].job.input.sessionId in Now(run[n])
    ensures Families.Dead(Now(run[m]), Now(run[n])[run[n].txns[tid].job.input.sessionId].familyId)
  {
    ReuseEndsIts(run, moves, n, tid);
    CommitFollows(run, moves, n, tid, m);
    DeadLater(run[n], run[n].txns[tid], run[m], run[n].txns[tid].job.input.sessionId);
  }

  /** No issued token is exchanged twice, however many refreshes present it at once. */
  lemma TokenExchangedOnce(run: seq<Sys>, moves: seq<Move>, n: nat, i: nat, j: nat)
    requires IsServiceRun(run, moves) && n < |run| && i < |run[n].commits| && j < |run[n].commits|
    requires run[n].commits[i].Rotated? && run[n].commits[j].Rotated?
    requires run[n].commits[i].input.token == run[n].commits[j].input.token
    ensures i == j
  {
    RunHistory(run, moves, n);
    RotatesOnceInEveryInterleaving(run, moves, n, run[n].commits[i].input.sessionId, i, j);
  }
}
