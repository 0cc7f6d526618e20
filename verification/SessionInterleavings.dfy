/** The discipline of refresh sessions in every interleaving, for an arbitrary caller of rotate: what
    survives concurrency, and the one promise that does not, with the exact condition under which
    it fails. */
module SessionInterleavings {
  import opened Basics
  import opened SessionStore
  import opened SessionMachine
  import opened SessionRows
  import Families = SessionFamilies

  // ----- Families -----

  lemma CreatedIsCreate(sessions: Sessions, id: Id, session: Session) returns (call: Families.Call)
    requires Proper(sessions, Created(id, session))
    ensures call.Create? && Families.StartsFreshFamily(sessions, call)
    ensures Families.Apply(sessions, call) == After(sessions, Created(id, session))
  {
    call := Families.Create(id, session.familyId, session.realm, session.accountId, session.digest.token,
                            session.expiresAt, session.absoluteExpiresAt);
    assert NewSession(session.realm, session.accountId, session.familyId, session.digest.token,
                      session.expiresAt, session.absoluteExpiresAt) == session;
  }

  lemma MarksWriteOnce(sessions: Sessions, ids: set<Id>, stamp: Instant, reason: string)
    requires Families.RowsPaired(sessions)
    ensures var sessions' := MarkedRows(sessions, ids, stamp, reason);
            && Families.RowsPaired(sessions') && sessions'.Keys == sessions.Keys
            && forall id :: id in sessions ==> Families.WrittenOnce(sessions[id], sessions'[id])
                                               && sessions'[id].replacedBy == sessions[id].replacedBy
  {
  }

  lemma MarksKeepChains(sessions: Sessions, ids: set<Id>, stamp: Instant, reason: string)
    requires Families.RowsPaired(sessions) && Families.Chained(sessions)
    ensures Families.Chained(MarkedRows(sessions, ids, stamp, reason))
  {
    var sessions' := MarkedRows(sessions, ids, stamp, reason);
    MarksWriteOnce(sessions, ids, stamp, reason);
    forall id | id in sessions' ensures Families.HasChain(sessions', sessions'[id].familyId) {
      var family := sessions[id].familyId;
      assert Families.HasChain(sessions, family);
      var chain :| Families.IsChain(sessions, family, chain);
      Families.ChainUnchanged(sessions, sessions', family, chain);
    }
  }

  lemma CommitKeepsFamilies(sessions: Sessions, commit: Commit)
    requires Families.RowsPaired(sessions) && Families.Chained(sessions) && Proper(sessions, commit)
    ensures Families.RowsPaired(After(sessions, commit)) && Families.Chained(After(sessions, commit))
    ensures forall id :: id in sessions ==>
              id in After(sessions, commit) && Families.WrittenOnce(sessions[id], After(sessions, commit)[id])
  {
    match commit
    case Created(id, session) =>
      var call := CreatedIsCreate(sessions, id, session);
      Families.ApplyWritesOnce(sessions, call);
      Families.ApplyKeepsChains(sessions, call);
    case Rotated(input, now, stamp) =>
      Families.ApplyWritesOnce(sessions, Families.Rotate(input, now, stamp));
      Families.ApplyKeepsChains(sessions, Families.Rotate(input, now, stamp));
    case Marked(ids, stamp, reason) =>
      MarksWriteOnce(sessions, ids, stamp, reason);
      MarksKeepChains(sessions, ids, stamp, reason);
  }

  lemma {:induction false} HistoryFamilies(states: seq<Sessions>, commits: seq<Commit>, i: nat)
    requires IsHistory(states, commits) && i < |states|
    ensures Families.RowsPaired(states[i]) && Families.Chained(states[i])
  {
    if i > 0 {
      HistoryFamilies(states, commits, i - 1);
      CommitKeepsFamilies(states[i - 1], commits[i - 1]);
    }
  }

  /** In every committed state of every interleaving every family is one acyclic chain, and of
      two of its sessions at least one is revoked. */
  lemma FamiliesInEveryInterleaving(run: seq<Sys>, moves: seq<Move>, n: nat, k: nat)
    requires IsRun(run, moves) && n < |run| && k < |run[n].states|
    ensures Families.Chained(run[n].states[k]) && Families.RowsPaired(run[n].states[k])
    ensures var sessions := run[n].states[k];
            forall a, b :: a in sessions && b in sessions && a != b && sessions[a].familyId == sessions[b].familyId ==>
              sessions[a].revokedAt.Some? || sessions[b].revokedAt.Some?
  {
    RunInv(run, moves, n);
    HistoryFamilies(run[n].states, run[n].commits, k);
    var sessions := run[n].states[k];
    forall a, b | a in sessions && b in sessions && a != b && sessions[a].familyId == sessions[b].familyId
      ensures sessions[a].revokedAt.Some? || sessions[b].revokedAt.Some?
    {
      Families.OneLiveInChain(sessions, a, b);
    }
  }

  lemma {:induction false} RowKept(states: seq<Sessions>, commits: seq<Commit>, id: Id, i: nat, j: nat)
    requires IsHistory(states, commits) && i <= j < |states| && id in states[i]
    ensures id in states[j] && Families.WrittenOnce(states[i][id], states[j][id])
    decreases j
  {
    if i < j {
      RowKept(states, commits, id, i, j - 1);
      HistoryFamilies(states, commits, j - 1);
      CommitKeepsFamilies(states[j - 1], commits[j - 1]);
    }
  }

  lemma {:induction false} StatesKept(run: seq<Sys>, moves: seq<Move>, n: nat, m: nat)
    requires IsRun(run, moves) && n <= m < |run|
    ensures run[n].states <= run[m].states
    decreases m
  {
    if n < m {
      StatesKept(run, moves, n, m - 1);
      assert StepOf(run[m - 1], moves[m - 1], run[m]);
    }
  }

  // ----- Rotation -----

  ghost predicate RotatesAt(commits: seq<Commit>, i: nat, sessionId: Id) {
    i < |commits| && commits[i].Rotated? && commits[i].input.sessionId == sessionId
  }

  lemma RotatedRowReplaced(states: seq<Sessions>, commits: seq<Commit>, i: nat, sessionId: Id)
    requires IsHistory(states, commits) && RotatesAt(commits, i, sessionId)
    ensures sessionId in states[i] && states[i][sessionId].replacedBy.None?
    ensures sessionId in states[i + 1] && states[i + 1][sessionId].replacedBy.Some?
  {
    assert Proper(states[i], commits[i]);
  }

  /** A session is rotated at most once in every interleaving, however many rotations of it run at once. */
  lemma RotatesOnceInEveryInterleaving(run: seq<Sys>, moves: seq<Move>, n: nat, sessionId: Id, i: nat, j: nat)
    requires IsRun(run, moves) && n < |run| && RotatesAt(run[n].commits, i, sessionId)
    requires RotatesAt(run[n].commits, j, sessionId)
    ensures i == j
  {
    RunInv(run, moves, n);
    var states, commits := run[n].states, run[n].commits;
    RotatedRowReplaced(states, commits, i, sessionId);
    RotatedRowReplaced(states, commits, j, sessionId);
    if i < j {
      RowKept(states, commits, sessionId, i + 1, j);
    } else if j < i {
      RowKept(states, commits, sessionId, j + 1, i);
    }
  }

  /** Every commit stores a token that no row holds. */
  ghost predicate StoresFreshTokens(states: seq<Sessions>, commits: seq<Commit>)
    requires |states| == |commits| + 1
  {
    forall k :: 0 <= k < |commits| ==> StoresFreshToken(states[k], commits[k])
  }

  ghost predicate StoresFreshToken(db: Sessions, commit: Commit) {
    && (commit.Created? ==> forall id :: id in db ==> db[id].digest != commit.session.digest)
    && (commit.Rotated? ==> forall id :: id in db ==> db[id].digest != Sha256(commit.input.replacementToken))
  }

  lemma CommitKeepsDistinct(db: Sessions, commit: Commit)
    requires Families.DigestsDistinct(db) && Proper(db, commit) && StoresFreshToken(db, commit)
    ensures Families.DigestsDistinct(After(db, commit))
  {
  }

  lemma {:induction false} DigestsStayDistinct(states: seq<Sessions>, commits: seq<Commit>, i: nat)
    requires IsHistory(states, commits) && StoresFreshTokens(states, commits) && i < |states|
    ensures Families.DigestsDistinct(states[i])
  {
    if i > 0 {
      DigestsStayDistinct(states, commits, i - 1);
      CommitKeepsDistinct(states[i - 1], commits[i - 1]);
    }
  }

  /** A token is rotated at most once in every interleaving, whatever session the caller names,
      if every stored token is new. */
  lemma TokenRotatesOnceInEveryInterleaving(run: seq<Sys>, moves: seq<Move>, n: nat, a: Id, b: Id, i: nat, j: nat)
    requires IsRun(run, moves) && n < |run| && |run[n].states| == |run[n].commits| + 1
    requires StoresFreshTokens(run[n].states, run[n].commits)
    requires RotatesAt(run[n].commits, i, a) && RotatesAt(run[n].commits, j, b)
    requires run[n].commits[i].input.token == run[n].commits[j].input.token
    ensures i == j
  {
    RunInv(run, moves, n);
    var states, commits, later := run[n].states, run[n].commits, if i < j then j else i;
    assert Proper(states[i], commits[i]) && Proper(states[j], commits[j]);
    RowKept(states, commits, a, i, later);
    RowKept(states, commits, b, j, later);
    DigestsStayDistinct(states, commits, later);
    RotatesOnceInEveryInterleaving(run, moves, n, a, i, j);
  }

  /** In every interleaving the clock of a rotation that commits was before the absolute expiry
      its family's root was created with, and its replacement lives no longer. */
  lemma RotatesBeforeAbsoluteExpiry(run: seq<Sys>, moves: seq<Move>, n: nat, i: nat, j: nat)
    requires IsRun(run, moves) && n < |run| && i < j < |run[n].commits| && j + 1 < |run[n].states|
    requires run[n].commits[i].Created? && run[n].commits[j].Rotated?
    requires run[n].commits[j].input.sessionId in run[n].states[j]
    requires run[n].states[j][run[n].commits[j].input.sessionId].familyId == run[n].commits[i].session.familyId
    ensures run[n].commits[j].now < run[n].commits[i].session.absoluteExpiresAt
    ensures run[n].commits[j].input.replacementId in run[n].states[j + 1]
    ensures var replacement := run[n].states[j + 1][run[n].commits[j].input.replacementId];
            replacement.expiresAt <= run[n].commits[i].session.absoluteExpiresAt
  {
    RunInv(run, moves, n);
    var states, commits := run[n].states, run[n].commits;
    var root, id := commits[i].id, commits[j].input.sessionId;
    assert Proper(states[i], commits[i]) && Proper(states[j], commits[j]);
    RowKept(states, commits, root, i + 1, j);
    HistoryFamilies(states, commits, j);
    if id != root {
      Families.OneLiveInChain(states[j], id, root);
    }
  }

  /** In every interleaving the session a committed rotation opens expires when it was asked to or
      when its family ends, whichever comes first. */
  lemma RotationExpiryInEveryInterleaving(run: seq<Sys>, moves: seq<Move>, n: nat, j: nat)
    requires IsRun(run, moves) && n < |run| && j < |run[n].commits| && run[n].commits[j].Rotated?
    ensures j + 1 < |run[n].states| && run[n].commits[j].input.sessionId in run[n].states[j]
    ensures run[n].commits[j].input.replacementId in run[n].states[j + 1]
    ensures var input := run[n].commits[j].input;
            ExpiresFirst(run[n].states[j + 1][input.replacementId].expiresAt, input.expiresAt,
                         run[n].states[j][input.sessionId].absoluteExpiresAt)
  {
    RunInv(run, moves, n);
    var states, commit := run[n].states, run[n].commits[j];
    assert Proper(states[j], commit) && states[j + 1] == After(states[j], commit);
    RotatedRows(states[j], commit.input, commit.now, commit.stamp);
  }

  // ----- Logout -----

  /** The single-row mark of the machine is the logout of that session by its own account. */
  lemma MarkIsRevoke(sessions: Sessions, id: Id, at: Instant)
    requires id in sessions
    ensures After(sessions, Marked({id}, at, LOGOUT)) ==
            AfterRevoke(sessions, sessions[id].realm, sessions[id].accountId, id, at)
  {
  }

  lemma RevokedStep(s: Sys, id: Id, at: Instant, s': Sys)
    requires s.states != [] && StepOf(s, RevokeRow(id, at), s')
    ensures id in Now(s) && |s'.states| == |s.states| + 1 && s'.states[|s.states|].Keys == Now(s).Keys
    ensures MarkedNow(Now(s)[id], s'.states[|s.states|][id], at, "logout")
  {
    MarkIsRevoke(Now(s), id, at);
    RevokedRows(Now(s), Now(s)[id].realm, Now(s)[id].accountId, id, at, id);
  }

  /** After a logout the session is revoked in every later committed state, and whatever
      was in progress, no rotation of it commits any more. */
  lemma LogoutInEveryInterleaving(run: seq<Sys>, moves: seq<Move>, n: nat, id: Id, at: Instant, m: nat, k: nat)
    requires IsRun(run, moves) && n < m < |run| && moves[n] == RevokeRow(id, at)
    requires |run[n].states| <= k < |run[m].states|
    ensures id in run[m].states[k] && run[m].states[k][id].revokedAt.Some?
    ensures !RotatesAt(run[m].commits, k, id)
  {
    RevokedStep(run[n], id, at, run[n + 1]);
    StatesKept(run, moves, n + 1, m);
    RunInv(run, moves, n);
    RunInv(run, moves, m);
    RevokedForGood(run[m].states, run[m].commits, id, |run[n].states|, k);
  }

  lemma RevokedForGood(states: seq<Sessions>, commits: seq<Commit>, id: Id, i: nat, k: nat)
    requires IsHistory(states, commits) && i <= k < |states| && id in states[i] && states[i][id].revokedAt.Some?
    ensures id in states[k] && states[k][id].revokedAt.Some? && !RotatesAt(commits, k, id)
  {
    RowKept(states, commits, id, i, k);
    if RotatesAt(commits, k, id) {
      assert Proper(states[k], commits[k]);
      AnswersExact(states[k], commits[k].input, commits[k].now);
    }
  }

  // ----- Reuse -----

  /** A transaction that judged its token reused and is ready to commit. */
  ghost predicate ReuseReady(s: Sys, tid: nat) {
    && s.states != [] && tid in s.txns && s.txns[tid].pc == COMMIT
    && s.txns[tid].job.Rotating? && s.txns[tid].outcome.Reuse()
  }

  /** The commit of a reuse revokes the whole family exactly when every session of the family
      that was inserted after the revocation took its snapshot is revoked already. */
  lemma ReuseRevokesExactly(run: seq<Sys>, moves: seq<Move>, n: nat, tid: nat)
    requires IsRun(run, moves) && n < |run| && ReuseReady(run[n], tid)
    ensures var db, t := Now(run[n]), run[n].txns[tid];
            && 0 < t.seen <= |run[n].states| && t.job.input.sessionId in db
            && var family := db[t.job.input.sessionId].familyId;
               Families.Dead(db + t.delta, family) <==>
                 forall id :: id in db && db[id].familyId == family && id !in run[n].states[t.seen - 1] ==>
                     db[id].revokedAt.Some?
  {
    RunInv(run, moves, n);
    var states, commits, db, t := run[n].states, run[n].commits, Now(run[n]), run[n].txns[tid];
    var earlier := states[t.seen - 1];
    CommitIsCall(db, t);
    var current := t.job.input.sessionId;
    RowKept(states, commits, current, t.seen - 1, |states| - 1);
    assert t.snapshot == t.delta.Keys;
    forall id | id in db && db[id].familyId == db[current].familyId ensures id in earlier <==> id in t.snapshot {
      if id in earlier {
        RowKept(states, commits, id, t.seen - 1, |states| - 1);
        SameFamilySameOwner(states, commits, t.seen - 1, id, current);
      }
    }
    assert forall id :: id in t.snapshot ==> (db + t.delta)[id].revokedAt.Some?;
  }

  lemma SameFamilySameOwner(states: seq<Sessions>, commits: seq<Commit>, i: nat, a: Id, b: Id)
    requires IsHistory(states, commits) && i < |states| && a in states[i] && b in states[i]
    requires states[i][a].familyId == states[i][b].familyId
    ensures states[i][a].accountId == states[i][b].accountId && states[i][a].realm == states[i][b].realm
  {
    HistoryFamilies(states, commits, i);
    if a != b {
      Families.OneLiveInChain(states[i], a, b);
    }
  }
}
