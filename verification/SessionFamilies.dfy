/** Refresh-session families over every run of the store, for an arbitrary caller. */
module SessionFamilies {
  import opened Basics
  import opened SessionStore

  datatype Call =
    | Create(sessionId: Id, familyId: Id, realm: Realm, accountId: Id, token: Token, expiresAt: Instant,
             absolute: Instant)
    | Rotate(input: RotationInput, now: Instant, stamp: Instant)
    | Revoke(realm: Realm, accountId: Id, sessionId: Id, stamp: Instant)
    | RevokeAccount(realm: Realm, accountId: Id, reason: string, stamp: Instant)

  function Apply(sessions: Sessions, call: Call): Sessions {
    match call
    case Create(id, family, realm, account, token, expiresAt, absolute) =>
      AfterCreate(sessions, id, NewSession(realm, account, family, token, expiresAt, absolute))
    case Rotate(input, now, stamp) => AfterRotate(sessions, input, now, stamp)
    case Revoke(realm, account, id, stamp) => AfterRevoke(sessions, realm, account, id, stamp)
    case RevokeAccount(realm, account, reason, stamp) => AfterRevokeAccount(sessions, realm, account, reason, stamp)
  }

  /** Each create starts a fresh family. */
  ghost predicate StartsFreshFamily(sessions: Sessions, call: Call) {
    call.Create? ==> forall id :: id in sessions ==> sessions[id].familyId != call.familyId
  }

  /** Table states along a run that begins with the empty table. */
  ghost predicate IsRun(states: seq<Sessions>, calls: seq<Call>) {
    && |states| == |calls| + 1 && states[0] == map[]
    && forall i :: 0 <= i < |calls| ==>
        StartsFreshFamily(states[i], calls[i]) && states[i + 1] == Apply(states[i], calls[i])
  }

  // ----- Rows are written once -----

  /** Revocation time and reason come together. */
  ghost predicate RowsPaired(sessions: Sessions) {
    forall id :: id in sessions ==> (sessions[id].revokedAt.Some? <==> sessions[id].revokeReason.Some?)
  }

  /** Identity, digest and expiries never change; revocation and replacement are write-once. */
  ghost predicate WrittenOnce(s: Session, s': Session) {
    && s'.accountId == s.accountId && s'.realm == s.realm && s'.familyId == s.familyId && s'.digest == s.digest
    && s'.expiresAt == s.expiresAt && s'.absoluteExpiresAt == s.absoluteExpiresAt
    && (s.revokedAt.Some? ==> s'.revokedAt == s.revokedAt)
    && (s.revokeReason.Some? ==> s'.revokeReason == s.revokeReason)
    && (s.replacedBy.Some? ==> s'.replacedBy == s.replacedBy)
  }

  lemma ApplyWritesOnce(sessions: Sessions, call: Call)
    requires RowsPaired(sessions)
    ensures RowsPaired(Apply(sessions, call))
    ensures forall id :: id in sessions ==>
              id in Apply(sessions, call) && WrittenOnce(sessions[id], Apply(sessions, call)[id])
  {
  }

  lemma {:induction false} RowsAlwaysPaired(states: seq<Sessions>, calls: seq<Call>, i: nat)
    requires IsRun(states, calls) && i < |states|
    ensures RowsPaired(states[i])
  {
    if i > 0 {
      RowsAlwaysPaired(states, calls, i - 1);
      ApplyWritesOnce(states[i - 1], calls[i - 1]);
    }
  }

  lemma RowWrittenStep(states: seq<Sessions>, calls: seq<Call>, id: Id, j: nat)
    requires IsRun(states, calls) && j < |calls| && id in states[j]
    ensures id in states[j + 1] && WrittenOnce(states[j][id], states[j + 1][id])
  {
    RowsAlwaysPaired(states, calls, j);
    ApplyWritesOnce(states[j], calls[j]);
  }

  /** A row stays in the table, and what was written to it stays. */
  lemma {:induction false} RowWrittenOnce(states: seq<Sessions>, calls: seq<Call>, id: Id, i: nat, j: nat)
    requires IsRun(states, calls) && i <= j < |states| && id in states[i]
    ensures id in states[j] && WrittenOnce(states[i][id], states[j][id])
    decreases j
  {
    if i < j {
      RowWrittenOnce(states, calls, id, i, j - 1);
      RowWrittenStep(states, calls, id, j - 1);
    }
  }

  // ----- The replacement chain of a family -----

  /** The sessions of one family, oldest first: one acyclic replaced_by chain that lists
      every row of the family once, shares account, realm and absolute expiry, and is
      rotated and replaced everywhere but at its end. */
  ghost predicate IsChain(sessions: Sessions, familyId: Id, chain: seq<Id>) {
    && chain != [] && Distinct(chain)
    && (forall id :: id in chain <==> id in sessions && sessions[id].familyId == familyId)
    && (forall i :: 0 <= i < |chain| ==> SameRoot(sessions, chain[0], chain[i]))
    && (forall i, j :: 0 <= i && j == i + 1 && j < |chain| ==> Linked(sessions, chain[i], chain[j]))
    && chain[|chain| - 1] in sessions && sessions[chain[|chain| - 1]].replacedBy.None?
  }

  /** The row was rotated into next. */
  ghost predicate Linked(sessions: Sessions, id: Id, next: Id) {
    && id in sessions && sessions[id].replacedBy == Some(next)
    && sessions[id].revokeReason == Some(ROTATED) && sessions[id].revokedAt.Some?
  }

  ghost predicate SameRoot(sessions: Sessions, root: Id, id: Id) {
    && root in sessions && id in sessions
    && sessions[id].accountId == sessions[root].accountId && sessions[id].realm == sessions[root].realm
    && sessions[id].absoluteExpiresAt == sessions[root].absoluteExpiresAt
  }

  ghost predicate HasChain(sessions: Sessions, familyId: Id) {
    exists chain :: IsChain(sessions, familyId, chain)
  }

  ghost predicate Chained(sessions: Sessions) {
    forall id {:trigger HasChain(sessions, sessions[id].familyId)} :: id in sessions ==>
        HasChain(sessions, sessions[id].familyId)
  }

  /** Rows that keep their links and roots keep their chain. */
  lemma ChainUnchanged(sessions: Sessions, sessions': Sessions, familyId: Id, chain: seq<Id>)
    requires IsChain(sessions, familyId, chain)
    requires forall id :: id in sessions ==> id in sessions' && WrittenOnce(sessions[id], sessions'[id])
    requires forall id :: id in sessions' && sessions'[id].familyId == familyId ==> id in sessions
    requires forall id :: id in sessions && sessions[id].familyId == familyId ==>
               sessions'[id].replacedBy == sessions[id].replacedBy
    ensures IsChain(sessions', familyId, chain)
  {
    forall i, j | 0 <= i && j == i + 1 && j < |chain| ensures Linked(sessions', chain[i], chain[j]) {
      assert Linked(sessions, chain[i], chain[j]);
    }
    forall i | 0 <= i < |chain| ensures SameRoot(sessions', chain[0], chain[i]) {
      assert SameRoot(sessions, chain[0], chain[i]);
    }
    assert chain[|chain| - 1] in chain;
  }

  /** A valid rotation extends the chain of its family by the replacement. */
  lemma ChainExtended(sessions: Sessions, input: RotationInput, now: Instant, stamp: Instant, chain: seq<Id>)
    requires RowsPaired(sessions) && AnswerOf(sessions, input, now) == Rotated
    requires IsChain(sessions, sessions[input.sessionId].familyId, chain)
    ensures IsChain(AfterRotate(sessions, input, now, stamp), sessions[input.sessionId].familyId,
                    chain + [input.replacementId])
  {
    var last := |chain| - 1;
    forall k | 0 <= k < last ensures chain[k] in sessions && sessions[chain[k]].replacedBy.Some? {
      assert Linked(sessions, chain[k], chain[k + 1]);
    }
    assert chain[last] == input.sessionId by {
      var i :| 0 <= i < |chain| && chain[i] == input.sessionId;
      assert i == last;
    }
    var sessions', longer := AfterRotate(sessions, input, now, stamp), chain + [input.replacementId];
    forall i | 0 <= i < |chain| ensures SameRoot(sessions', longer[0], longer[i]) {
      assert SameRoot(sessions, chain[0], chain[i]);
    }
    assert SameRoot(sessions', longer[0], longer[last]);
    forall i, j | 0 <= i && j == i + 1 && j < |longer| ensures Linked(sessions', longer[i], longer[j]) {
      if i < last {
        assert Linked(sessions, chain[i], chain[j]);
      }
    }
  }

  /** A call adds at most one row: a created root, or the replacement of a rotated session. */
  lemma RowsAdded(sessions: Sessions, call: Call, id: Id)
    requires id in Apply(sessions, call) && id !in sessions
    ensures call.Create? || (call.Rotate? && AnswerOf(sessions, call.input, call.now) == Rotated)
    ensures call.Create? ==> id == call.sessionId && Apply(sessions, call)[id].familyId == call.familyId
                             && Apply(sessions, call)[id].replacedBy.None?
    ensures call.Rotate? ==> id == call.input.replacementId
                             && Apply(sessions, call)[id].familyId == sessions[call.input.sessionId].familyId
  {
  }

  lemma FamilyKeepsChain(sessions: Sessions, call: Call, familyId: Id)
    requires RowsPaired(sessions) && StartsFreshFamily(sessions, call) && HasChain(sessions, familyId)
    ensures HasChain(Apply(sessions, call), familyId)
  {
    var sessions' := Apply(sessions, call);
    var chain :| IsChain(sessions, familyId, chain);
    assert chain[0] in chain;
    if call.Rotate? && AnswerOf(sessions, call.input, call.now) == Rotated
        && sessions[call.input.sessionId].familyId == familyId {
      ChainExtended(sessions, call.input, call.now, call.stamp, chain);
    } else {
      ApplyWritesOnce(sessions, call);
      forall id | id in sessions' && sessions'[id].familyId == familyId ensures id in sessions {
        if id !in sessions {
          RowsAdded(sessions, call, id);
        }
      }
      ChainUnchanged(sessions, sessions', familyId, chain);
    }
  }

  lemma ApplyKeepsChains(sessions: Sessions, call: Call)
    requires RowsPaired(sessions) && Chained(sessions) && StartsFreshFamily(sessions, call)
    ensures Chained(Apply(sessions, call))
  {
    var sessions' := Apply(sessions, call);
    ApplyWritesOnce(sessions, call);
    forall id | id in sessions' ensures HasChain(sessions', sessions'[id].familyId) {
      if id in sessions {
        FamilyKeepsChain(sessions, call, sessions[id].familyId);
      } else {
        RowsAdded(sessions, call, id);
        if call.Create? {
          assert SameRoot(sessions', id, id);
          assert IsChain(sessions', call.familyId, [id]);
        } else {
          FamilyKeepsChain(sessions, call, sessions[call.input.sessionId].familyId);
        }
      }
    }
  }

  /** In every reachable state every family is one such chain. */
  lemma {:induction false} FamiliesAreChains(states: seq<Sessions>, calls: seq<Call>, i: nat)
    requires IsRun(states, calls) && i < |states|
    ensures Chained(states[i])
  {
    if i > 0 {
      FamiliesAreChains(states, calls, i - 1);
      RowsAlwaysPaired(states, calls, i - 1);
      ApplyKeepsChains(states[i - 1], calls[i - 1]);
    }
  }

  /** Of two sessions in one chain at least one is revoked, and they share their root's identity. */
  lemma OneLiveInChain(sessions: Sessions, a: Id, b: Id)
    requires Chained(sessions) && a in sessions && b in sessions
    requires sessions[a].familyId == sessions[b].familyId && a != b
    ensures sessions[a].revokedAt.Some? || sessions[b].revokedAt.Some?
    ensures sessions[a].accountId == sessions[b].accountId && sessions[a].realm == sessions[b].realm
    ensures sessions[a].absoluteExpiresAt == sessions[b].absoluteExpiresAt
  {
    assert HasChain(sessions, sessions[a].familyId);
    var chain :| IsChain(sessions, sessions[a].familyId, chain);
    var x :| 0 <= x < |chain| && chain[x] == a;
    var y :| 0 <= y < |chain| && chain[y] == b;
    assert SameRoot(sessions, chain[0], chain[x]) && SameRoot(sessions, chain[0], chain[y]);
    if x < y {
      assert Linked(sessions, chain[x], chain[x + 1]);
    } else {
      assert Linked(sessions, chain[y], chain[y + 1]);
    }
  }

  /** At most one session of a family is unrevoked, and it is the one nobody replaced. */
  lemma OneLiveSession(states: seq<Sessions>, calls: seq<Call>, i: nat, a: Id, b: Id)
    requires IsRun(states, calls) && i < |states| && a in states[i] && b in states[i]
    requires states[i][a].familyId == states[i][b].familyId && a != b
    ensures states[i][a].revokedAt.Some? || states[i][b].revokedAt.Some?
    ensures states[i][a].accountId == states[i][b].accountId && states[i][a].realm == states[i][b].realm
    ensures states[i][a].absoluteExpiresAt == states[i][b].absoluteExpiresAt
  {
    FamiliesAreChains(states, calls, i);
    OneLiveInChain(states[i], a, b);
  }

  /** A replaced session is always revoked as well. */
  lemma ReplacedIsRevoked(states: seq<Sessions>, calls: seq<Call>, i: nat, id: Id)
    requires IsRun(states, calls) && i < |states| && id in states[i] && states[i][id].replacedBy.Some?
    ensures states[i][id].revokedAt.Some? && states[i][id].revokeReason == Some(ROTATED)
  {
    FamiliesAreChains(states, calls, i);
    assert HasChain(states[i], states[i][id].familyId);
    var chain :| IsChain(states[i], states[i][id].familyId, chain);
    var x :| 0 <= x < |chain| && chain[x] == id;
    assert x < |chain| - 1;
    assert Linked(states[i], chain[x], chain[x + 1]);
  }

  // ----- Rotation happens once -----

  /** Call i of the run rotates the session successfully. */
  ghost predicate RotatesAt(states: seq<Sessions>, calls: seq<Call>, i: nat, sessionId: Id) {
    && i < |calls| && i < |states| && calls[i].Rotate? && calls[i].input.sessionId == sessionId
    && AnswerOf(states[i], calls[i].input, calls[i].now) == Rotated
  }

  /** A session, and so the token bound to it, is rotated successfully at most once. */
  lemma RotatesOnce(states: seq<Sessions>, calls: seq<Call>, sessionId: Id, i: nat, j: nat)
    requires IsRun(states, calls) && RotatesAt(states, calls, i, sessionId) && RotatesAt(states, calls, j, sessionId)
    ensures i == j
  {
    if i < j {
      RowWrittenOnce(states, calls, sessionId, i + 1, j);
    } else if j < i {
      RowWrittenOnce(states, calls, sessionId, j + 1, i);
    }
  }

  /** Every token that a call stores is new to the table. */
  ghost predicate StoresFreshToken(sessions: Sessions, call: Call) {
    && (call.Create? ==> forall id :: id in sessions ==> sessions[id].digest != Sha256(call.token))
    && (call.Rotate? ==> forall id :: id in sessions ==> sessions[id].digest != Sha256(call.input.replacementToken))
  }

  ghost predicate DigestsDistinct(sessions: Sessions) {
    forall a, b :: a in sessions && b in sessions && sessions[a].digest == sessions[b].digest ==> a == b
  }

  lemma ApplyKeepsDistinct(sessions: Sessions, call: Call)
    requires RowsPaired(sessions) && DigestsDistinct(sessions) && StoresFreshToken(sessions, call)
    ensures DigestsDistinct(Apply(sessions, call))
  {
    ApplyWritesOnce(sessions, call);
  }

  lemma {:induction false} AlwaysDistinct(states: seq<Sessions>, calls: seq<Call>, i: nat)
    requires IsRun(states, calls) && i < |states|
    requires forall k :: 0 <= k < |calls| ==> StoresFreshToken(states[k], calls[k])
    ensures DigestsDistinct(states[i])
  {
    if i > 0 {
      AlwaysDistinct(states, calls, i - 1);
      RowsAlwaysPaired(states, calls, i - 1);
      ApplyKeepsDistinct(states[i - 1], calls[i - 1]);
    }
  }

  /** A refresh token is rotated successfully at most once, whatever session the caller names. */
  lemma TokenRotatesOnce(states: seq<Sessions>, calls: seq<Call>, a: Id, b: Id, i: nat, j: nat)
    requires IsRun(states, calls) && RotatesAt(states, calls, i, a) && RotatesAt(states, calls, j, b)
    requires forall k :: 0 <= k < |calls| ==> StoresFreshToken(states[k], calls[k])
    requires calls[i].input.token == calls[j].input.token
    ensures i == j
  {
    var later := if i < j then j else i;
    RowWrittenOnce(states, calls, a, i, later);
    RowWrittenOnce(states, calls, b, j, later);
    AlwaysDistinct(states, calls, later);
    RotatesOnce(states, calls, a, i, j);
  }

  // ----- Reuse -----

  /** Every session of the family is revoked. */
  ghost predicate Dead(sessions: Sessions, familyId: Id) {
    forall id :: id in sessions && sessions[id].familyId == familyId ==> sessions[id].revokedAt.Some?
  }

  /** Judging a reuse revokes the whole family, since its rows share account and realm. */
  lemma ReuseKillsFamily(sessions: Sessions, input: RotationInput, now: Instant, stamp: Instant)
    requires Chained(sessions) && Judge(sessions, input, now).Reuse()
    ensures input.sessionId in sessions
    ensures Dead(AfterRotate(sessions, input, now, stamp), sessions[input.sessionId].familyId)
  {
    var family := sessions[input.sessionId].familyId;
    assert HasChain(sessions, family);
    var chain :| IsChain(sessions, family, chain);
    forall id | id in sessions && sessions[id].familyId == family
      ensures sessions[id].accountId == sessions[input.sessionId].accountId
      ensures sessions[id].realm == sessions[input.sessionId].realm
    {
      var x :| 0 <= x < |chain| && chain[x] == id;
      var y :| 0 <= y < |chain| && chain[y] == input.sessionId;
      assert SameRoot(sessions, chain[0], chain[x]) && SameRoot(sessions, chain[0], chain[y]);
    }
  }

  lemma ApplyKeepsDead(sessions: Sessions, call: Call, familyId: Id)
    requires RowsPaired(sessions) && Dead(sessions, familyId) && StartsFreshFamily(sessions, call)
    requires exists id :: id in sessions && sessions[id].familyId == familyId
    ensures Dead(Apply(sessions, call), familyId)
  {
    var sessions' := Apply(sessions, call);
    ApplyWritesOnce(sessions, call);
    forall id | id in sessions' && sessions'[id].familyId == familyId ensures sessions'[id].revokedAt.Some? {
      if id !in sessions {
        RowsAdded(sessions, call, id);
      }
    }
  }

  lemma {:induction false} StaysDead(states: seq<Sessions>, calls: seq<Call>, member: Id, i: nat, j: nat)
    requires IsRun(states, calls) && i <= j < |states| && member in states[i]
    requires Dead(states[i], states[i][member].familyId)
    ensures Dead(states[j], states[i][member].familyId)
    decreases j
  {
    if i < j {
      StaysDead(states, calls, member, i, j - 1);
      RowWrittenOnce(states, calls, member, i, j - 1);
      RowsAlwaysPaired(states, calls, j - 1);
      ApplyKeepsDead(states[j - 1], calls[j - 1], states[i][member].familyId);
    }
  }

  /** Once any token of a family is judged reused, no later rotation in that family succeeds. */
  lemma NoRotationAfterReuse(states: seq<Sessions>, calls: seq<Call>, i: nat, j: nat, sessionId: Id)
    requires IsRun(states, calls) && i < |calls| && calls[i].Rotate?
    requires Judge(states[i], calls[i].input, calls[i].now).Reuse()
    requires i < j && RotatesAt(states, calls, j, sessionId)
    ensures calls[i].input.sessionId in states[i] && sessionId in states[j]
    ensures states[j][sessionId].familyId != states[i][calls[i].input.sessionId].familyId
  {
    FamiliesAreChains(states, calls, i);
    ReuseKillsFamily(states[i], calls[i].input, calls[i].now, calls[i].stamp);
    RowWrittenOnce(states, calls, calls[i].input.sessionId, i, i + 1);
    StaysDead(states, calls, calls[i].input.sessionId, i + 1, j);
  }

  /** A rotation touches only the account, realm and family of the row it locks, and a
      failing verdict other than reuse touches nothing. */
  lemma RotationFrame(sessions: Sessions, input: RotationInput, now: Instant, stamp: Instant, id: Id)
    requires id in sessions
    ensures var sessions' := AfterRotate(sessions, input, now, stamp);
            && id in sessions'
            && (sessions'[id] != sessions[id] ==>
                  input.sessionId in sessions
                  && InFamily(sessions[id], sessions[input.sessionId].familyId, input.realm, input.accountId))
            && (AnswerOf(sessions, input, now) != Rotated && AnswerOf(sessions, input, now) != RefreshTokenReused ==>
                  sessions' == sessions)
  {
  }

  // ----- Absolute expiry -----

  /** Every row of a family carries the absolute expiry its root was created with. */
  lemma FamilyExpiry(states: seq<Sessions>, calls: seq<Call>, i: nat, j: nat, id: Id)
    requires IsRun(states, calls) && i < |calls| && calls[i].Create? && calls[i].sessionId !in states[i]
    requires i < j < |states| && id in states[j] && states[j][id].familyId == calls[i].familyId
    ensures states[j][id].absoluteExpiresAt == calls[i].absolute
  {
    var root := calls[i].sessionId;
    RowWrittenOnce(states, calls, root, i + 1, j);
    if id != root {
      OneLiveSession(states, calls, j, id, root);
    }
  }

  /** Whatever the refresh duration and however many rotations came before, no rotation in a
      family succeeds at or after its root's absolute expiry, and no replacement outlives it. */
  lemma NoRotationPastAbsoluteExpiry(states: seq<Sessions>, calls: seq<Call>, i: nat, j: nat, sessionId: Id)
    requires IsRun(states, calls) && i < |calls| && calls[i].Create? && calls[i].sessionId !in states[i]
    requires i < j && RotatesAt(states, calls, j, sessionId) && states[j][sessionId].familyId == calls[i].familyId
    ensures calls[j].now < calls[i].absolute
    ensures calls[j].input.replacementId in states[j + 1]
    ensures states[j + 1][calls[j].input.replacementId].expiresAt <= calls[i].absolute
    ensures states[j + 1][calls[j].input.replacementId].absoluteExpiresAt == calls[i].absolute
  {
    FamilyExpiry(states, calls, i, j, sessionId);
  }
}
