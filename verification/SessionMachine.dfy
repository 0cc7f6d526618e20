/** The session store statement by statement under READ COMMITTED. A rotation holds the row
    it selected FOR UPDATE until it ends. A revocation of many rows is one UPDATE: it fixes
    the rows of its snapshot when it starts, then waits for and marks them one by one, and
    does not see rows that are committed meanwhile. */
module SessionMachine {
  import opened Basics
  import opened SessionStore

  /** The transactions with more than one step: a rotation, or the revocation of an account. */
  datatype Job =
    | Rotating(input: RotationInput)
    | Closing(realm: Realm, accountId: Id, reason: string)

  // The statements in program order; a revocation starts at TAKE_SNAPSHOT.
  const LOCK_ROW: nat := 0
  const UPDATE_ROW: nat := 1
  const INSERT_ROW: nat := 2
  const TAKE_SNAPSHOT: nat := 3
  const MARK_ROWS: nat := 4
  const COMMIT: nat := 5

  /** A running transaction: its program counter, the clock it read, the time of its writes, its
      verdict, how many committed tables there were when it took its snapshot, the rows of the
      snapshot and those still to mark, its writes and its locked rows. */
  datatype Txn = Txn(
    job: Job, pc: nat, now: Instant, stamp: Instant, outcome: Outcome,
    seen: nat, snapshot: set<Id>, waiting: set<Id>, delta: Sessions, locks: set<Id>)

  function Start(job: Job, stamp: Instant): Txn {
    Txn(job, if job.Rotating? then LOCK_ROW else TAKE_SNAPSHOT, 0, stamp, NotFound, 0, {}, {}, map[], {})
  }

  /** What commits: one call of the store, or marks on a set of rows. */
  datatype Commit =
    | Created(id: Id, session: Session)
    | Rotated(input: RotationInput, now: Instant, stamp: Instant)
    | Marked(ids: set<Id>, stamp: Instant, reason: string)

  function MarkedRows(sessions: Sessions, ids: set<Id>, stamp: Instant, reason: string): Sessions {
    map id | id in sessions :: if id in ids then WithRevocation(sessions[id], stamp, reason) else sessions[id]
  }

  function After(sessions: Sessions, commit: Commit): Sessions {
    match commit
    case Created(id, session) => AfterCreate(sessions, id, session)
    case Rotated(input, now, stamp) => AfterRotate(sessions, input, now, stamp)
    case Marked(ids, stamp, reason) => MarkedRows(sessions, ids, stamp, reason)
  }

  /** A creation starts a family nobody uses, and a rotation is a successful one. */
  ghost predicate Proper(sessions: Sessions, commit: Commit) {
    match commit
    case Created(id, session) =>
      && id !in sessions && session.revokedAt.None? && session.revokeReason.None? && session.replacedBy.None?
      && forall other :: other in sessions ==> sessions[other].familyId != session.familyId
    case Rotated(input, now, _) => AnswerOf(sessions, input, now) == SessionStore.Rotated
    case Marked(_, _, _) => true
  }

  // ----- The statements -----

  datatype Step = Next(txn: Txn) | Abort

  /** The row the next statement waits for; a marking statement waits for the row it is given. */
  function Wanted(db: Sessions, t: Txn, row: Id): set<Id> {
    if t.pc == LOCK_ROW && t.job.Rotating? && Selected(db, t.job.input) then {t.job.input.sessionId}
    else if t.pc == INSERT_ROW && t.job.Rotating? then {t.job.input.replacementId}
    else if t.pc == MARK_ROWS && row in t.waiting then {row}
    else {}
  }

  function SnapshotOf(db: Sessions, t: Txn): set<Id> {
    match t.job
    case Rotating(input) =>
      if input.sessionId in db then FamilyRows(db, db[input.sessionId]) else {}
    case Closing(realm, account, _) =>
      set id | id in db && db[id].accountId == account && db[id].realm == realm && db[id].revokedAt.None?
  }

  function FamilyRows(db: Sessions, current: Session): set<Id> {
    set id | id in db && InFamily(db[id], current.familyId, current.realm, current.accountId)
  }

  function ReasonOf(job: Job): string {
    if job.Rotating? then REUSE else job.reason
  }

  /** The WHERE clause is evaluated again on the row once its lock is granted. */
  predicate Marks(db: Sessions, t: Txn, row: Id) {
    row in db && (t.job.Closing? ==> db[row].revokedAt.None?)
  }

  function RotatedRow(current: Session, input: RotationInput, stamp: Instant): Session {
    current.(revokedAt := Some(stamp), revokeReason := Some(ROTATED), replacedBy := Some(input.replacementId))
  }

  function ReplacementRow(current: Session, input: RotationInput): Session {
    NewSession(current.realm, current.accountId, current.familyId, input.replacementToken,
               Min(current.absoluteExpiresAt, input.expiresAt), current.absoluteExpiresAt)
  }

  /** One statement against the committed table, the version-th one; now is what the clock says
      and row the next one to mark. */
  function Exec(db: Sessions, version: nat, t: Txn, now: Instant, row: Id): Step
    requires t.pc < COMMIT
  {
    var u := t.(locks := t.locks + Wanted(db, t, row));
    if t.pc == LOCK_ROW && t.job.Rotating? then
      var outcome := Judge(db, t.job.input, now);
      Next(u.(now := now, outcome := outcome,
              pc := if outcome.Reuse() then TAKE_SNAPSHOT else if outcome.Valid? then UPDATE_ROW else COMMIT))
    else if t.pc == UPDATE_ROW && t.job.Rotating? && t.job.input.sessionId in db then
      Next(u.(pc := INSERT_ROW,
              delta := map[t.job.input.sessionId := RotatedRow(db[t.job.input.sessionId], t.job.input, t.stamp)]))
    else if t.pc == INSERT_ROW && t.job.Rotating? && t.job.input.sessionId in db then
      if t.job.input.replacementId in db then Abort
      else Next(u.(pc := COMMIT,
                   delta := t.delta[t.job.input.replacementId :=
                                      ReplacementRow(db[t.job.input.sessionId], t.job.input)]))
    else if t.pc == TAKE_SNAPSHOT then
      Next(u.(pc := MARK_ROWS, seen := version, snapshot := SnapshotOf(db, t), waiting := SnapshotOf(db, t)))
    else if t.pc == MARK_ROWS && row in t.waiting then
      Next(u.(waiting := t.waiting - {row},
              delta := if Marks(db, t, row) then t.delta[row := WithRevocation(db[row], t.stamp, ReasonOf(t.job))]
                       else t.delta))
    else if t.pc == MARK_ROWS && t.waiting == {} then Next(u.(pc := COMMIT))
    else Abort
  }

  /** What a transaction ready to commit commits. */
  function CommitOf(t: Txn): Commit {
    if t.job.Rotating? && t.outcome.Valid? then Commit.Rotated(t.job.input, t.now, t.stamp)
    else Marked(t.delta.Keys, t.stamp, ReasonOf(t.job))
  }

  // ----- The system -----

  /** Running transactions, the committed tables so far, and what was committed between them. */
  datatype Sys = Sys(txns: map<nat, Txn>, states: seq<Sessions>, commits: seq<Commit>)

  function Now(s: Sys): Sessions
    requires s.states != []
  {
    s.states[|s.states| - 1]
  }

  ghost predicate Available(s: Sys, tid: nat, rows: set<Id>) {
    forall other :: other in s.txns && other != tid ==> s.txns[other].locks !! rows
  }

  ghost predicate Unlocked(s: Sys, row: Id) {
    forall tid :: tid in s.txns ==> row !in s.txns[tid].locks
  }

  datatype Move =
    | Begin(tid: nat, job: Job, start: Instant)
    | Run(tid: nat, clock: Instant, row: Id)
    | CommitTxn(tid: nat)
    | Rollback(tid: nat)
    | CreateRow(id: Id, session: Session)
    | RevokeRow(id: Id, at: Instant)

  ghost predicate StepOf(s: Sys, move: Move, s': Sys)
    requires s.states != []
  {
    match move
    case Begin(tid, job, start) => tid !in s.txns && s' == s.(txns := s.txns[tid := Start(job, start)])
    case Run(tid, clock, row) =>
      && tid in s.txns && s.txns[tid].pc < COMMIT && Available(s, tid, Wanted(Now(s), s.txns[tid], row))
      && s' == s.(txns := match Exec(Now(s), |s.states|, s.txns[tid], clock, row)
                          case Next(t) => s.txns[tid := t]
                          case Abort => s.txns - {tid})
    case CommitTxn(tid) =>
      && tid in s.txns && s.txns[tid].pc == COMMIT
      && s' == Sys(s.txns - {tid}, s.states + [Now(s) + s.txns[tid].delta], s.commits + [CommitOf(s.txns[tid])])
    case Rollback(tid) => tid in s.txns && s' == s.(txns := s.txns - {tid})
    case CreateRow(id, session) =>
      && Unlocked(s, id) && Proper(Now(s), Created(id, session))
      && s' == s.(states := s.states + [After(Now(s), Created(id, session))],
                  commits := s.commits + [Created(id, session)])
    case RevokeRow(id, at) =>
      && Unlocked(s, id) && id in Now(s)
      && s' == s.(states := s.states + [After(Now(s), Marked({id}, at, LOGOUT))],
                  commits := s.commits + [Marked({id}, at, LOGOUT)])
  }

  ghost predicate IsRun(run: seq<Sys>, moves: seq<Move>) {
    && |run| == |moves| + 1 && run[0] == Sys(map[], [map[]], [])
    && (forall i :: 0 <= i < |run| ==> run[i].states != [])
    && (forall i {:trigger moves[i]} :: 0 <= i < |moves| ==> StepOf(run[i], moves[i], run[i + 1]))
  }

  // ----- What a transaction knows -----

  ghost predicate ValidFacts(db: Sessions, t: Txn)
    requires t.job.Rotating?
  {
    var input := t.job.input;
    && Judge(db, input, t.now) == Valid && input.sessionId in t.locks && t.pc in {UPDATE_ROW, INSERT_ROW, COMMIT}
    && (t.pc == UPDATE_ROW ==> t.delta == map[])
    && (t.pc == INSERT_ROW ==> t.delta == map[input.sessionId := RotatedRow(db[input.sessionId], input, t.stamp)])
    && (t.pc == COMMIT ==>
          && input.replacementId !in db && input.replacementId in t.locks
          && t.delta == map[input.sessionId := RotatedRow(db[input.sessionId], input, t.stamp)]
                        [input.replacementId := ReplacementRow(db[input.sessionId], input)])
  }

  /** Every row written so far carries its mark, and none of the snapshot is forgotten. */
  ghost predicate MarkFacts(db: Sessions, t: Txn) {
    && t.snapshot <= db.Keys && t.delta.Keys <= t.snapshot * t.locks && t.waiting <= t.snapshot
    && (forall id :: id in t.delta ==> t.delta[id] == WithRevocation(db[id], t.stamp, ReasonOf(t.job)))
    && (t.job.Rotating? ==> t.snapshot == t.delta.Keys + t.waiting)
    && (t.pc == COMMIT ==> t.waiting == {})
  }

  ghost predicate Facts(db: Sessions, t: Txn) {
    if t.pc == LOCK_ROW then t.job.Rotating? && t.delta == map[] && t.snapshot == {} && t.waiting == {}
    else if t.job.Rotating? && t.outcome.Valid? then ValidFacts(db, t)
    else
      && t.pc in {TAKE_SNAPSHOT, MARK_ROWS, COMMIT}
      && (t.job.Rotating? && t.outcome.Reuse() ==> t.job.input.sessionId in db)
      && (t.pc == TAKE_SNAPSHOT && t.job.Rotating? ==> t.outcome.Reuse())
      && (t.pc == TAKE_SNAPSHOT ==> t.snapshot == {} && t.waiting == {} && t.delta == map[])
      && MarkFacts(db, t)
  }

  lemma ExecKeepsFacts(db: Sessions, version: nat, t: Txn, now: Instant, row: Id)
    requires Facts(db, t) && t.pc < COMMIT && Exec(db, version, t, now, row).Next?
    ensures Facts(db, Exec(db, version, t, now, row).txn)
  {
  }

  /** The rows somebody locked are as they were, rows stay, and no locked key appears. */
  ghost predicate Rely(db: Sessions, db': Sessions, held: set<Id>) {
    && (forall id :: id in db ==> id in db')
    && (forall id :: id in held && id in db ==> db'[id] == db[id])
    && (forall id :: id in held && id !in db ==> id !in db')
  }

  lemma FactsStable(db: Sessions, db': Sessions, t: Txn)
    requires Facts(db, t) && Rely(db, db', t.locks)
    ensures Facts(db', t)
  {
  }

  lemma CommitRely(db: Sessions, t: Txn, held: set<Id>)
    requires Facts(db, t) && t.pc == COMMIT && t.locks !! held
    ensures Rely(db, db + t.delta, held)
  {
  }

  /** The rows a transaction wrote are, at its commit, one call of the store or one set of marks. */
  lemma CommitIsCall(db: Sessions, t: Txn)
    requires Facts(db, t) && t.pc == COMMIT
    ensures Proper(db, CommitOf(t)) && db + t.delta == After(db, CommitOf(t))
  {
  }

  // ----- Every reachable state -----

  ghost predicate IsHistory(states: seq<Sessions>, commits: seq<Commit>) {
    && |states| == |commits| + 1 && states[0] == map[]
    && forall i :: 0 <= i < |commits| ==> Proper(states[i], commits[i]) && states[i + 1] == After(states[i], commits[i])
  }

  /** The snapshot of a family revocation is the family as committed when it was taken. */
  ghost predicate Seen(states: seq<Sessions>, t: Txn) {
    t.job.Rotating? && t.outcome.Reuse() && t.pc > TAKE_SNAPSHOT ==>
      && 0 < t.seen <= |states| && t.job.input.sessionId in states[t.seen - 1]
      && t.snapshot == FamilyRows(states[t.seen - 1], states[t.seen - 1][t.job.input.sessionId])
  }

  ghost predicate Inv(s: Sys) {
    && IsHistory(s.states, s.commits)
    && (forall tid :: tid in s.txns ==> Facts(Now(s), s.txns[tid]) && Seen(s.states, s.txns[tid]))
    && (forall a, b :: a in s.txns && b in s.txns && a != b ==> s.txns[a].locks !! s.txns[b].locks)
  }

  lemma HistoryAppend(states: seq<Sessions>, commits: seq<Commit>, commit: Commit)
    requires IsHistory(states, commits) && Proper(states[|commits|], commit)
    ensures IsHistory(states + [After(states[|commits|], commit)], commits + [commit])
  {
  }

  lemma ExecLocks(db: Sessions, version: nat, t: Txn, now: Instant, row: Id)
    requires t.pc < COMMIT && Exec(db, version, t, now, row).Next?
    ensures Exec(db, version, t, now, row).txn.locks == t.locks + Wanted(db, t, row)
  {
  }

  lemma ExecKeepsSeen(states: seq<Sessions>, t: Txn, now: Instant, row: Id)
    requires states != [] && t.pc < COMMIT && Facts(states[|states| - 1], t) && Seen(states, t)
    requires Exec(states[|states| - 1], |states|, t, now, row).Next?
    ensures Seen(states, Exec(states[|states| - 1], |states|, t, now, row).txn)
  {
  }

  /** A transaction may change to what keeps its facts and takes only locks that are free. */
  lemma ReplacedKeepsInv(s: Sys, tid: nat, u: Txn, wanted: set<Id>)
    requires Inv(s) && tid in s.txns && Facts(Now(s), u) && Seen(s.states, u)
    requires u.locks == s.txns[tid].locks + wanted && Available(s, tid, wanted)
    ensures Inv(s.(txns := s.txns[tid := u]))
  {
  }

  lemma RunKeepsInv(s: Sys, tid: nat, clock: Instant, row: Id, s': Sys)
    requires Inv(s) && StepOf(s, Run(tid, clock, row), s') && Exec(Now(s), |s.states|, s.txns[tid], clock, row).Next?
    ensures Inv(s')
  {
    ExecKeepsFacts(Now(s), |s.states|, s.txns[tid], clock, row);
    ExecKeepsSeen(s.states, s.txns[tid], clock, row);
    ExecLocks(Now(s), |s.states|, s.txns[tid], clock, row);
    ReplacedKeepsInv(s, tid, Exec(Now(s), |s.states|, s.txns[tid], clock, row).txn,
                     Wanted(Now(s), s.txns[tid], row));
  }

  lemma CommitKeepsInv(s: Sys, tid: nat, s': Sys)
    requires Inv(s) && StepOf(s, CommitTxn(tid), s')
    ensures Inv(s')
  {
    var db, t := Now(s), s.txns[tid];
    CommitIsCall(db, t);
    HistoryAppend(s.states, s.commits, CommitOf(t));
    forall other | other in s'.txns ensures Facts(Now(s'), s'.txns[other]) {
      CommitRely(db, t, s.txns[other].locks);
      FactsStable(db, Now(s'), s.txns[other]);
    }
  }

  lemma DirectKeepsInv(s: Sys, commit: Commit, s': Sys)
    requires Inv(s) && Proper(Now(s), commit)
    requires commit.Created? ==> Unlocked(s, commit.id)
    requires commit.Marked? ==> forall id :: id in commit.ids ==> Unlocked(s, id)
    requires !commit.Rotated? && s' == s.(states := s.states + [After(Now(s), commit)], commits := s.commits + [commit])
    ensures Inv(s')
  {
    HistoryAppend(s.states, s.commits, commit);
    forall tid | tid in s'.txns ensures Facts(Now(s'), s'.txns[tid]) {
      assert Rely(Now(s), Now(s'), s.txns[tid].locks);
      FactsStable(Now(s), Now(s'), s.txns[tid]);
    }
  }

  lemma DropKeepsInv(s: Sys, tid: nat)
    requires Inv(s)
    ensures Inv(s.(txns := s.txns - {tid}))
  {
  }

  lemma BeginKeepsInv(s: Sys, tid: nat, job: Job, start: Instant)
    requires Inv(s)
    ensures Inv(s.(txns := s.txns[tid := Start(job, start)]))
  {
  }

  lemma StepKeepsInv(s: Sys, move: Move, s': Sys)
    requires Inv(s) && StepOf(s, move, s')
    ensures Inv(s')
  {
    match move
    case Begin(tid, job, start) => BeginKeepsInv(s, tid, job, start);
    case Run(tid, clock, row) =>
      if Exec(Now(s), |s.states|, s.txns[tid], clock, row).Next? {
        RunKeepsInv(s, tid, clock, row, s');
      } else {
        DropKeepsInv(s, tid);
      }
    case CommitTxn(tid) => CommitKeepsInv(s, tid, s');
    case Rollback(tid) => DropKeepsInv(s, tid);
    case CreateRow(id, session) => DirectKeepsInv(s, Created(id, session), s');
    case RevokeRow(id, at) => DirectKeepsInv(s, Marked({id}, at, LOGOUT), s');
  }

  /** In every interleaving each commit is one call of the store, or one set of marks, on the
      table committed at that moment. */
  lemma {:induction false} RunInv(run: seq<Sys>, moves: seq<Move>, n: nat)
    requires IsRun(run, moves) && n < |run|
    ensures Inv(run[n])
  {
    if n > 0 {
      RunInv(run, moves, n - 1);
      StepKeepsInv(run[n - 1], moves[n - 1], run[n]);
    }
  }
}
