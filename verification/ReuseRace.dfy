/** For an arbitrary caller of rotate, the interleaving in which judging a reuse does not end a
    family: a rotation of the live session commits between the snapshot of the family revocation
    and its end. It rotates a replacement, whose stored family login and refresh never present
    (ServiceInterleavings). */
module ReuseRace {
  import opened Basics
  import opened SessionStore
  import opened SessionMachine
  import opened SessionInterleavings
  import Families = SessionFamilies

  ghost predicate Reachable(s: Sys) {
    exists run, moves :: IsRun(run, moves) && run[|run| - 1] == s
  }

  lemma Extend(s: Sys, move: Move, s': Sys)
    requires Reachable(s) && s.states != [] && s'.states != [] && StepOf(s, move, s')
    ensures Reachable(s')
  {
    var run, moves :| IsRun(run, moves) && run[|run| - 1] == s;
    assert IsRun(run + [s'], moves + [move]);
  }

  lemma ReachableInv(s: Sys)
    requires Reachable(s)
    ensures Inv(s) && s.states != []
  {
    var run, moves :| IsRun(run, moves) && run[|run| - 1] == s;
    RunInv(run, moves, |run| - 1);
  }

  /** One statement of tid, at clock 0. */
  lemma RunOne(s: Sys, tid: nat, row: Id) returns (s': Sys)
    requires Reachable(s) && s.states != [] && tid in s.txns && s.txns[tid].pc < COMMIT
    requires Available(s, tid, Wanted(Now(s), s.txns[tid], row))
    requires Exec(Now(s), |s.states|, s.txns[tid], 0, row).Next?
    ensures s' == s.(txns := s.txns[tid := Exec(Now(s), |s.states|, s.txns[tid], 0, row).txn]) && Reachable(s')
  {
    s' := s.(txns := s.txns[tid := Exec(Now(s), |s.states|, s.txns[tid], 0, row).txn]);
    Extend(s, Run(tid, 0, row), s');
  }

  /** A rotation ready to commit, holding its session and its replacement. */
  ghost predicate RotationReady(t: Txn, input: RotationInput) {
    && t.pc == COMMIT && t.job == Rotating(input) && t.outcome == Valid && t.now == 0 && t.stamp == 0
    && t.locks == {input.sessionId, input.replacementId}
  }

  /** A rotation that succeeds on the committed table runs to its commit while nobody holds its rows. */
  lemma RunRotation(s: Sys, tid: nat, input: RotationInput) returns (s': Sys)
    requires Reachable(s) && s.states != [] && tid !in s.txns && AnswerOf(Now(s), input, 0) == SessionStore.Rotated
    requires Unlocked(s, input.sessionId) && Unlocked(s, input.replacementId)
    ensures Reachable(s') && s'.states == s.states && s'.commits == s.commits
    ensures tid in s'.txns && s'.txns == s.txns[tid := s'.txns[tid]] && RotationReady(s'.txns[tid], input)
  {
    var begun := s.(txns := s.txns[tid := Start(Rotating(input), 0)]);
    Extend(s, Begin(tid, Rotating(input), 0), begun);
    var locked := RunOne(begun, tid, 0);
    var updated := RunOne(locked, tid, 0);
    s' := RunOne(updated, tid, 0);
  }

  /** Its commit is the rotation. */
  lemma CommitRotation(s: Sys, tid: nat, input: RotationInput) returns (s': Sys)
    requires Reachable(s) && s.states != [] && tid in s.txns && RotationReady(s.txns[tid], input)
    ensures Reachable(s') && s'.txns == s.txns - {tid} && s'.states == s.states + [AfterRotate(Now(s), input, 0, 0)]
  {
    ReachableInv(s);
    CommitIsCall(Now(s), s.txns[tid]);
    s' := Sys(s.txns - {tid}, s.states + [Now(s) + s.txns[tid].delta], s.commits + [CommitOf(s.txns[tid])]);
    Extend(s, CommitTxn(tid), s');
  }

  // ----- The race -----

  function SessionToken(sessionId: Id): Token {
    Token(Claims(5, CustomerRealm, sessionId, 11), 0)
  }

  /** A rotation of one session into the next, by the token stored for it. */
  function Turn(sessionId: Id, replacementId: Id): RotationInput {
    RotationInput(CustomerRealm, 5, sessionId, 11, SessionToken(sessionId),
                  replacementId, SessionToken(replacementId), 1000)
  }

  function FirstTable(): Sessions {
    map[1 := NewSession(CustomerRealm, 5, 11, SessionToken(1), 1000, 2000)]
  }

  function SecondTable(): Sessions { AfterRotate(FirstTable(), Turn(1, 2), 0, 0) }

  function ThirdTable(): Sessions { AfterRotate(SecondTable(), Turn(2, 3), 0, 0) }

  lemma Tables()
    ensures AnswerOf(FirstTable(), Turn(1, 2), 0) == SessionStore.Rotated && SecondTable().Keys == {1, 2}
    ensures AnswerOf(SecondTable(), Turn(2, 3), 0) == SessionStore.Rotated && ThirdTable().Keys == {1, 2, 3}
    ensures FamilyRows(SecondTable(), SecondTable()[1]) == {1, 2}
    ensures ThirdTable()[3].revokedAt.None? && ThirdTable()[3].familyId == 11
  {
  }

  /** Session 1 was rotated into 2, and the rotation of 2 into 3 is about to commit. */
  lemma SecondRotationReady() returns (s: Sys)
    ensures Reachable(s) && s.states == [map[], FirstTable(), SecondTable()]
    ensures s.txns.Keys == {2} && RotationReady(s.txns[2], Turn(2, 3))
  {
    Tables();
    assert IsRun([Sys(map[], [map[]], [])], []);
    var row := FirstTable()[1];
    s := Sys(map[], [map[], FirstTable()], [Created(1, row)]);
    assert After(map[], Created(1, row)) == FirstTable();
    Extend(Sys(map[], [map[]], []), CreateRow(1, row), s);
    s := RunRotation(s, 1, Turn(1, 2));
    s := CommitRotation(s, 1, Turn(1, 2));
    assert s.states == [map[], FirstTable(), SecondTable()];
    s := RunRotation(s, 2, Turn(2, 3));
  }

  /** The token of session 1 is presented again, judged reused, and its family is read as {1, 2}. */
  lemma ReuseJudged() returns (s: Sys)
    ensures Reachable(s) && s.states == [map[], FirstTable(), SecondTable()]
    ensures s.txns.Keys == {2, 3} && RotationReady(s.txns[2], Turn(2, 3))
    ensures var t := s.txns[3];
            && t.job == Rotating(Turn(1, 9)) && t.pc == MARK_ROWS && t.outcome == AlreadyRotated
            && t.waiting == {1, 2} && t.locks == {1} && t.seen == 3
  {
    Tables();
    var ready := SecondRotationReady();
    s := ready.(txns := ready.txns[3 := Start(Rotating(Turn(1, 9)), 0)]);
    Extend(ready, Begin(3, Rotating(Turn(1, 9)), 0), s);
    assert Judge(SecondTable(), Turn(1, 9), 0) == AlreadyRotated;
    s := RunOne(s, 3, 0);
    s := RunOne(s, 3, 0);
  }

  /** The rotation commits session 3, and the revocation marks the two rows it knows. */
  lemma ReuseMarked() returns (s: Sys)
    ensures Reachable(s) && s.states == [map[], FirstTable(), SecondTable(), ThirdTable()] && s.txns.Keys == {3}
    ensures ReuseReady(s, 3) && s.txns[3].seen == 3 && s.txns[3].job == Rotating(Turn(1, 9)) && 3 !in s.txns[3].delta
  {
    Tables();
    s := ReuseJudged();
    s := CommitRotation(s, 2, Turn(2, 3));
    assert s.states == [map[], FirstTable(), SecondTable(), ThirdTable()];
    s := RunOne(s, 3, 1);
    s := RunOne(s, 3, 2);
    s := RunOne(s, 3, 0);
    ReachableInv(s);
    assert s.txns[3].snapshot == {1, 2};
  }

  /** After the reuse commits the family lives on: its newest session is unrevoked, and its
      token still rotates. */
  lemma FamilyOutlivesReuse() returns (s: Sys)
    ensures Reachable(s) && ReuseReady(s, 3) && s.txns[3].job == Rotating(Turn(1, 9))
    ensures var after := Now(s) + s.txns[3].delta;
            && !Families.Dead(after, 11) && AnswerOf(after, Turn(3, 4), 0) == SessionStore.Rotated
  {
    Tables();
    s := ReuseMarked();
    ReachableInv(s);
    assert (Now(s) + s.txns[3].delta)[3] == ThirdTable()[3];
    assert 4 !in Now(s) + s.txns[3].delta;
  }
}
