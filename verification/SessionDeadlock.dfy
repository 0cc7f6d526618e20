/** Which session transactions can wait for each other in a circle: only those that mark several
    rows, and, as the two services drive the store, only with the revocation of a whole account. */
module SessionDeadlock {
  import opened Basics
  import opened SessionStore
  import opened SessionMachine
  import opened SessionInterleavings
  import opened ServiceInterleavings
  import opened ReuseRace
  import Families = SessionFamilies

  // ----- What a transaction holds and asks for -----

  ghost predicate OfFamily(db: Sessions, rows: set<Id>, member: Id) {
    member in db && forall row :: row in rows ==> row in db && db[row].familyId == db[member].familyId
  }

  /** Nothing is locked before the first statement, new keys only by a rotation about to commit,
      and a reuse holds its own row and asks for rows of its family only. */
  ghost predicate Holds(db: Sessions, t: Txn) {
    && (t.pc == LOCK_ROW ==> t.locks == {})
    && (t.pc < COMMIT ==> t.locks <= db.Keys)
    && (t.job.Rotating? && t.pc in {TAKE_SNAPSHOT, MARK_ROWS} ==>
          && t.outcome.Reuse() && t.job.input.sessionId in t.locks
          && OfFamily(db, t.locks + t.snapshot, t.job.input.sessionId))
  }

  ghost predicate AllHold(s: Sys) {
    s.states != [] && forall tid :: tid in s.txns ==> Holds(Now(s), s.txns[tid])
  }

  lemma ExecKeepsHolds(db: Sessions, version: nat, t: Txn, now: Instant, row: Id)
    requires Facts(db, t) && Holds(db, t) && t.pc < COMMIT && Exec(db, version, t, now, row).Next?
    ensures Holds(db, Exec(db, version, t, now, row).txn)
  {
  }

  lemma OthersHold(s: Sys, commit: Commit, s': Sys)
    requires Inv(s) && AllHold(s) && Proper(Now(s), commit)
    requires s'.states == s.states + [After(Now(s), commit)]
    requires forall tid :: tid in s'.txns ==> tid in s.txns && s'.txns[tid] == s.txns[tid]
    ensures AllHold(s')
  {
    HistoryFamilies(s.states, s.commits, |s.states| - 1);
    CommitKeepsFamilies(Now(s), commit);
  }

  lemma StepKeepsHolds(s: Sys, move: Move, s': Sys)
    requires Inv(s) && AllHold(s) && StepOf(s, move, s')
    ensures AllHold(s')
  {
    match move
    case Begin(_, _, _) =>
    case Run(tid, clock, row) =>
      if Exec(Now(s), |s.states|, s.txns[tid], clock, row).Next? {
        ExecKeepsHolds(Now(s), |s.states|, s.txns[tid], clock, row);
      }
    case CommitTxn(tid) =>
      CommitIsCall(Now(s), s.txns[tid]);
      OthersHold(s, CommitOf(s.txns[tid]), s');
    case Rollback(_) =>
    case CreateRow(id, session) => OthersHold(s, Created(id, session), s');
    case RevokeRow(id, at) => OthersHold(s, Marked({id}, at, LOGOUT), s');
  }

  lemma {:induction false} RunHolds(run: seq<Sys>, moves: seq<Move>, n: nat)
    requires IsRun(run, moves) && n < |run|
    ensures Inv(run[n]) && AllHold(run[n])
  {
    RunInv(run, moves, n);
    if n > 0 {
      RunHolds(run, moves, n - 1);
      StepKeepsHolds(run[n - 1], moves[n - 1], run[n]);
    }
  }

  // ----- Circles -----

  /** A row that a's next statement may ask for is held by b. */
  ghost predicate WaitsFor(s: Sys, a: nat, b: nat)
    requires s.states != []
  {
    && a in s.txns && b in s.txns && a != b
    && exists row :: !(Wanted(Now(s), s.txns[a], row) !! s.txns[b].locks)
  }

  /** Each transaction of the list waits for the next one, and the last for the first. */
  ghost predicate WaitingCircle(s: Sys, circle: seq<nat>)
    requires s.states != []
  {
    |circle| > 1 && forall k :: 0 <= k < |circle| ==> WaitsFor(s, circle[k], circle[Following(circle, k)])
  }

  function Following(circle: seq<nat>, k: nat): (next: nat)
    requires k < |circle|
    ensures next < |circle|
  {
    if k == |circle| - 1 then 0 else k + 1
  }

  /** Inserting under the id of a row that exists: the statement is refused. */
  ghost predicate InsertsTaken(s: Sys, tid: nat)
    requires s.states != [] && tid in s.txns
  {
    s.txns[tid].pc == INSERT_ROW && s.txns[tid].job.Rotating? && s.txns[tid].job.input.replacementId in Now(s)
  }

  /** Whoever is waited for and waits for one that waits. */
  lemma WaitingBetween(s: Sys, before: nat, tid: nat, next: nat, after: nat)
    requires Inv(s) && AllHold(s) && WaitsFor(s, before, tid) && WaitsFor(s, tid, next) && WaitsFor(s, next, after)
    ensures s.txns[tid].pc == MARK_ROWS || InsertsTaken(s, tid)
  {
    assert Holds(Now(s), s.txns[tid]) && Holds(Now(s), s.txns[next]);
    assert s.txns[next].pc < COMMIT;
  }

  /** In every reachable state the members of a waiting circle are transactions that mark rows,
      and rotations whose new session id is taken: rotations over fresh ids never deadlock. */
  lemma CircleMembers(run: seq<Sys>, moves: seq<Move>, n: nat, circle: seq<nat>, k: nat)
    requires IsRun(run, moves) && n < |run| && WaitingCircle(run[n], circle) && k < |circle|
    ensures circle[k] in run[n].txns
    ensures run[n].txns[circle[k]].pc == MARK_ROWS || InsertsTaken(run[n], circle[k])
  {
    RunHolds(run, moves, n);
    var j := if k == 0 then |circle| - 1 else k - 1;
    var next := Following(circle, k);
    assert WaitsFor(run[n], circle[j], circle[Following(circle, j)]);
    assert WaitsFor(run[n], circle[k], circle[next]) && WaitsFor(run[n], circle[next], circle[Following(circle, next)]);
    WaitingBetween(run[n], circle[j], circle[k], circle[next], circle[Following(circle, next)]);
  }

  // ----- Circles as the services drive the store -----

  /** Two reuses of one family present the token of its one login row, which one of them holds. */
  lemma ReusesDisjoint(s: Sys, a: nat, b: nat)
    requires Inv(s) && ServiceInv(s) && AllHold(s) && a in s.txns && b in s.txns && a != b
    requires s.txns[a].job.Rotating? && s.txns[a].pc == MARK_ROWS
    requires s.txns[b].job.Rotating? && s.txns[b].pc == MARK_ROWS
    ensures !WaitsFor(s, a, b)
  {
    var x, y := s.txns[a], s.txns[b];
    assert Holds(Now(s), x) && Holds(Now(s), y) && JudgedReused(Now(s), x) && JudgedReused(Now(s), y);
    assert x.locks !! y.locks && x.waiting <= x.snapshot;
    assert x.job.input.sessionId != y.job.input.sessionId;
  }

  /** As login and refresh drive the store, a circle needs the revocation of an account, or a
      replacement whose id is taken, in every pair of neighbours: reuses never wait for each other. */
  lemma ServiceCircle(run: seq<Sys>, moves: seq<Move>, n: nat, circle: seq<nat>, k: nat)
    requires IsServiceRun(run, moves) && n < |run| && run[n].states != [] && WaitingCircle(run[n], circle)
    requires k < |circle|
    ensures circle[k] in run[n].txns && circle[Following(circle, k)] in run[n].txns
    ensures exists tid :: tid in {circle[k], circle[Following(circle, k)]}
                          && (run[n].txns[tid].job.Closing? || InsertsTaken(run[n], tid))
  {
    CircleMembers(run, moves, n, circle, k);
    CircleMembers(run, moves, n, circle, Following(circle, k));
    RunHolds(run, moves, n);
    RunService(run, moves, n);
    var a, b := circle[k], circle[Following(circle, k)];
    assert WaitsFor(run[n], a, b);
    if run[n].txns[a].job.Rotating? && run[n].txns[b].job.Rotating?
       && run[n].txns[a].pc == MARK_ROWS && run[n].txns[b].pc == MARK_ROWS {
      ReusesDisjoint(run[n], a, b);
    }
  }

  // ----- Circles that are reached -----

  /** Every row left to mark is held by another transaction. */
  ghost predicate Stuck(s: Sys, tid: nat) {
    && tid in s.txns && s.txns[tid].pc == MARK_ROWS && s.txns[tid].waiting != {}
    && forall row :: row in s.txns[tid].waiting ==> !Available(s, tid, {row})
  }

  /** Two transactions that are each left with rows the other holds. */
  lemma CrossedCircle(s: Sys, a: nat, b: nat)
    requires s.states != [] && a in s.txns && b in s.txns && a != b
    requires s.txns[a].pc == MARK_ROWS && s.txns[a].waiting != {} && s.txns[a].waiting <= s.txns[b].locks
    requires s.txns[b].pc == MARK_ROWS && s.txns[b].waiting != {} && s.txns[b].waiting <= s.txns[a].locks
    ensures Stuck(s, a) && Stuck(s, b) && WaitingCircle(s, [a, b])
  {
    var x :| x in s.txns[a].waiting;
    var y :| y in s.txns[b].waiting;
    assert x in Wanted(Now(s), s.txns[a], x) && y in Wanted(Now(s), s.txns[b], y);
  }

  /** Sessions 1 and 2 were rotated, 3 is live, and no transaction is running. */
  lemma ThirdCommitted() returns (s: Sys)
    ensures Reachable(s) && s.txns == map[] && |s.states| == 4 && Now(s) == ThirdTable()
  {
    Tables();
    s := SecondRotationReady();
    s := CommitRotation(s, 2, Turn(2, 3));
  }

  /** The token of a rotated session is presented again, and its family is read as {1, 2, 3}. */
  lemma JudgeReuse(s: Sys, tid: nat, session: Id) returns (s': Sys)
    requires Reachable(s) && s.states != [] && Now(s) == ThirdTable() && tid !in s.txns
    requires session in {1, 2} && Unlocked(s, session)
    ensures Reachable(s') && s'.states == s.states && tid in s'.txns && s'.txns == s.txns[tid := s'.txns[tid]]
    ensures var t := s'.txns[tid];
            && t.job.Rotating? && t.pc == MARK_ROWS && t.outcome == AlreadyRotated && t.waiting == {1, 2, 3}
            && t.locks == {session}
  {
    Tables();
    var input := Turn(session, 9);
    s' := s.(txns := s.txns[tid := Start(Rotating(input), 0)]);
    Extend(s, Begin(tid, Rotating(input), 0), s');
    assert Judge(ThirdTable(), input, 0) == AlreadyRotated;
    s' := RunOne(s', tid, 0);
    s' := RunOne(s', tid, 0);
  }

  /** Two reuses of different tokens of one family, both about to mark its rows. */
  lemma BothJudged() returns (s: Sys)
    ensures Reachable(s) && s.states != [] && Now(s) == ThirdTable() && s.txns.Keys == {1, 2}
    ensures forall tid :: tid in s.txns ==>
              var t := s.txns[tid];
              t.pc == MARK_ROWS && t.outcome == AlreadyRotated && t.waiting == {1, 2, 3} && t.locks == {tid}
  {
    s := ThirdCommitted();
    s := JudgeReuse(s, 1, 1);
    s := JudgeReuse(s, 2, 2);
  }

  /** Marking a row that is free takes it off the list and locks it. */
  lemma MarkOne(s: Sys, tid: nat, row: Id) returns (s': Sys)
    requires Reachable(s) && s.states != [] && tid in s.txns && s.txns[tid].pc == MARK_ROWS
    requires row in s.txns[tid].waiting && Available(s, tid, {row})
    ensures Reachable(s') && s'.states == s.states && tid in s'.txns && s'.txns == s.txns[tid := s'.txns[tid]]
    ensures var t, u := s.txns[tid], s'.txns[tid];
            && u.pc == MARK_ROWS && u.outcome == t.outcome
            && u.waiting == t.waiting - {row} && u.locks == t.locks + {row}
  {
    s' := RunOne(s, tid, row);
  }

  /** For an arbitrary caller of rotate two reuses of different tokens of one family deadlock:
      each holds its own row and is left with rows the other holds. */
  lemma ReusesDeadlock() returns (s: Sys)
    ensures Reachable(s) && s.states != [] && s.txns.Keys == {1, 2}
    ensures forall tid :: tid in s.txns ==> s.txns[tid].outcome == AlreadyRotated && Stuck(s, tid)
    ensures WaitingCircle(s, [1, 2])
  {
    s := BothJudged();
    s := MarkOne(s, 1, 1);
    s := MarkOne(s, 1, 3);
    s := MarkOne(s, 2, 2);
    CrossedCircle(s, 1, 2);
  }

  ghost predicate ServiceReachable(s: Sys) {
    exists run, moves :: IsServiceRun(run, moves) && run[|run| - 1] == s
  }

  lemma ServiceExtend(s: Sys, move: Move, s': Sys)
    requires ServiceReachable(s) && s.states != [] && s'.states != [] && StepOf(s, move, s') && ServiceMove(s, move)
    ensures ServiceReachable(s')
  {
    var run, moves :| IsServiceRun(run, moves) && run[|run| - 1] == s;
    assert IsServiceRun(run + [s'], moves + [move]);
  }

  /** A customer's first session on a device: its own family, and a token that names both. */
  function FirstSession(id: Id): Session {
    NewSession(CustomerRealm, 5, id, Token(Claims(5, CustomerRealm, id, id), 0), 1000, 2000)
  }

  function TwoSessions(): Sessions { map[1 := FirstSession(1), 2 := FirstSession(2)] }

  const DISABLED := Closing(CustomerRealm, 5, "disabled")

  /** The account has two sessions, 1 and 2, and both are unrevoked. */
  predicate BothOpen(db: Sessions) {
    db.Keys == {1, 2} && Open(db[1]) && Open(db[2])
  }

  predicate Open(session: Session) {
    session.accountId == 5 && session.realm == CustomerRealm && session.revokedAt.None?
  }

  /** The first statement of the revocation reads both. */
  lemma BothRead(db: Sessions, version: nat)
    requires BothOpen(db)
    ensures var step := Exec(db, version, Start(DISABLED, 0), 0, 0);
            && step.Next? && step.txn.job == DISABLED && step.txn.pc == MARK_ROWS
            && step.txn.waiting == {1, 2} && step.txn.locks == {}
  {
    assert SnapshotOf(db, Start(DISABLED, 0)) == {1, 2};
  }

  lemma TwoLogins() returns (s: Sys)
    ensures ServiceReachable(s) && s.txns == map[] && s.states != []
    ensures BothOpen(Now(s))
  {
    var none := Sys(map[], [map[]], []);
    assert IsServiceRun([none], []);
    var first := none.(states := none.states + [After(map[], Created(1, FirstSession(1)))],
                       commits := [Created(1, FirstSession(1))]);
    ServiceExtend(none, CreateRow(1, FirstSession(1)), first);
    s := first.(states := first.states + [After(Now(first), Created(2, FirstSession(2)))],
                commits := first.commits + [Created(2, FirstSession(2))]);
    ServiceExtend(first, CreateRow(2, FirstSession(2)), s);
    assert Now(s) == TwoSessions();
  }

  /** A revocation of the account that has marked all its sessions but the waiting ones. */
  ghost predicate Revoking(s: Sys, tid: nat, waiting: set<Id>, locks: set<Id>) {
    && tid in s.txns && s.txns[tid].job == DISABLED && s.txns[tid].pc == MARK_ROWS
    && s.txns[tid].waiting == waiting && s.txns[tid].locks == locks
  }

  lemma RevocationBegins(s: Sys, tid: nat) returns (s': Sys)
    requires ServiceReachable(s) && s.states != [] && tid !in s.txns
    ensures ServiceReachable(s') && s' == s.(txns := s.txns[tid := Start(DISABLED, 0)])
  {
    s' := s.(txns := s.txns[tid := Start(DISABLED, 0)]);
    ServiceExtend(s, Begin(tid, DISABLED, 0), s');
  }

  /** A statement of a revocation that waits for nobody. */
  lemma ServiceRunOne(s: Sys, tid: nat, row: Id) returns (s': Sys)
    requires ServiceReachable(s) && s.states != [] && tid in s.txns && s.txns[tid].pc < COMMIT
    requires Available(s, tid, Wanted(Now(s), s.txns[tid], row))
    requires Exec(Now(s), |s.states|, s.txns[tid], 0, row).Next?
    ensures ServiceReachable(s') && s' == s.(txns := s.txns[tid := Exec(Now(s), |s.states|, s.txns[tid], 0, row).txn])
  {
    s' := s.(txns := s.txns[tid := Exec(Now(s), |s.states|, s.txns[tid], 0, row).txn]);
    ServiceExtend(s, Run(tid, 0, row), s');
  }

  /** It reads both sessions of the account. */
  lemma RevocationReads(s: Sys, tid: nat) returns (s': Sys)
    requires ServiceReachable(s) && s.states != [] && tid !in s.txns
    requires BothOpen(Now(s))
    ensures ServiceReachable(s') && s'.states == s.states && Revoking(s', tid, {1, 2}, {})
    ensures s'.txns == s.txns[tid := s'.txns[tid]]
  {
    var begun := RevocationBegins(s, tid);
    BothRead(Now(begun), |begun.states|);
    s' := ServiceRunOne(begun, tid, 0);
  }

  lemma RevocationMarks(s: Sys, tid: nat, row: Id, waiting: set<Id>, locks: set<Id>) returns (s': Sys)
    requires ServiceReachable(s) && s.states != [] && Revoking(s, tid, waiting, locks)
    requires row in waiting && Available(s, tid, {row})
    ensures ServiceReachable(s') && s'.states == s.states && Revoking(s', tid, waiting - {row}, locks + {row})
    ensures s'.txns == s.txns[tid := s'.txns[tid]]
  {
    s' := ServiceRunOne(s, tid, row);
  }

  lemma BothRevoking() returns (s: Sys)
    ensures ServiceReachable(s) && s.states != [] && s.txns.Keys == {1, 2}
    ensures Revoking(s, 1, {1, 2}, {}) && Revoking(s, 2, {1, 2}, {})
  {
    s := TwoLogins();
    s := RevocationReads(s, 1);
    s := RevocationReads(s, 2);
  }

  /** Two revocations of one account that mark its two sessions in opposite order do deadlock. */
  lemma RevocationsDeadlock() returns (s: Sys)
    ensures ServiceReachable(s) && s.states != [] && s.txns.Keys == {1, 2}
    ensures forall tid :: tid in s.txns ==> s.txns[tid].job.Closing? && Stuck(s, tid)
    ensures WaitingCircle(s, [1, 2])
  {
    s := BothRevoking();
    s := RevocationMarks(s, 1, 1, {1, 2}, {});
    s := RevocationMarks(s, 2, 2, {1, 2}, {});
    CrossedCircle(s, 1, 2);
  }
}
