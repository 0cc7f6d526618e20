/** Each call of the session store in terms of the rows it reads and writes: exactly when it
    answers what, and every field of every row afterwards. */
module SessionRows {
  import opened Basics
  import opened SessionStore

  /** The row of the session that the input names, under the account, realm and family it names. */
  predicate Presented(sessions: Sessions, input: RotationInput) {
    && input.sessionId in sessions
    && sessions[input.sessionId].accountId == input.accountId && sessions[input.sessionId].realm == input.realm
    && sessions[input.sessionId].familyId == input.familyId
  }

  predicate HoldsToken(row: Session, token: Token) { row.digest.token == token }

  predicate WasRotated(row: Session) { row.replacedBy.Some? || row.revokeReason == Some("rotated") }

  predicate Alive(row: Session, now: Instant) {
    row.revokedAt.None? && now < row.expiresAt && now < row.absoluteExpiresAt
  }

  /** Rotated and reused exactly when; the remaining refusals change nothing. */
  lemma AnswersExact(sessions: Sessions, input: RotationInput, now: Instant)
    ensures var answer, id := AnswerOf(sessions, input, now), input.sessionId;
            var succeeds := && Presented(sessions, input) && HoldsToken(sessions[id], input.token)
                            && !WasRotated(sessions[id]) && Alive(sessions[id], now);
            && (answer == Rotated <==> succeeds && input.replacementId !in sessions)
            && (answer == DuplicateSession <==> succeeds && input.replacementId in sessions)
            && (answer == RefreshTokenReused <==>
                Presented(sessions, input) && (!HoldsToken(sessions[id], input.token) || WasRotated(sessions[id])))
  {
  }

  /** A successful rotation: the old row is marked and points to the new one, which belongs to the
      same account, realm and family, holds the replacement token, ends with the family, and
      expires when it was asked to or when the family ends, whichever comes first. */
  lemma RotatedRows(sessions: Sessions, input: RotationInput, now: Instant, stamp: Instant)
    requires AnswerOf(sessions, input, now) == Rotated
    ensures var after := AfterRotate(sessions, input, now, stamp);
            var id, replacement := input.sessionId, input.replacementId;
            && id in sessions && after.Keys == sessions.Keys + {replacement} && replacement != id
            && after[id] == sessions[id].(revokedAt := Some(stamp), revokeReason := Some("rotated"),
                                          replacedBy := Some(replacement))
            && (forall other :: other in sessions && other != id ==> after[other] == sessions[other])
            && var row, previous := after[replacement], sessions[id];
               && row.accountId == previous.accountId && row.realm == previous.realm
               && row.familyId == previous.familyId
               && row.digest.token == input.replacementToken && row.absoluteExpiresAt == previous.absoluteExpiresAt
               && row.revokedAt.None? && row.revokeReason.None? && row.replacedBy.None?
    ensures ExpiresFirst(AfterRotate(sessions, input, now, stamp)[input.replacementId].expiresAt, input.expiresAt,
                         sessions[input.sessionId].absoluteExpiresAt)
  {
  }

  /** The earlier of two instants. */
  predicate ExpiresFirst(expiry: Instant, asked: Instant, end: Instant) {
    expiry <= asked && expiry <= end && (expiry == asked || expiry == end)
  }

  /** The row with its revocation written, unless it was written before. */
  predicate MarkedNow(row: Session, row': Session, stamp: Instant, reason: string) {
    row' == row.(revokedAt := row'.revokedAt, revokeReason := row'.revokeReason)
    && row'.revokedAt == (if row.revokedAt.Some? then row.revokedAt else Some(stamp))
    && row'.revokeReason == (if row.revokeReason.Some? then row.revokeReason else Some(reason))
  }

  /** A reuse marks every row of the family, realm and account of the presented row, and no other. */
  lemma ReusedRows(sessions: Sessions, input: RotationInput, now: Instant, stamp: Instant, id: Id)
    requires AnswerOf(sessions, input, now) == RefreshTokenReused
    ensures AfterRotate(sessions, input, now, stamp).Keys == sessions.Keys && input.sessionId in sessions
    ensures id in sessions ==>
              var row, row', presented := sessions[id], AfterRotate(sessions, input, now, stamp)[id],
                  sessions[input.sessionId];
              if row.familyId == presented.familyId && row.realm == presented.realm
                 && row.accountId == presented.accountId
              then MarkedNow(row, row', stamp, "refresh_reuse") else row' == row
  {
  }

  lemma RefusedRows(sessions: Sessions, input: RotationInput, now: Instant, stamp: Instant)
    requires AnswerOf(sessions, input, now) in {RefreshTokenInvalid, DuplicateSession}
    ensures AfterRotate(sessions, input, now, stamp) == sessions
  {
  }

  /** A logout marks the one session it names, if it is the account's in the realm, and no other row. */
  lemma RevokedRows(sessions: Sessions, realm: Realm, accountId: Id, sessionId: Id, stamp: Instant, id: Id)
    ensures AfterRevoke(sessions, realm, accountId, sessionId, stamp).Keys == sessions.Keys
    ensures id in sessions ==>
              var row, row' := sessions[id], AfterRevoke(sessions, realm, accountId, sessionId, stamp)[id];
              if id == sessionId && row.accountId == accountId && row.realm == realm
              then MarkedNow(row, row', stamp, "logout") else row' == row
  {
  }

  /** Closing an account revokes exactly its unrevoked sessions in the realm. */
  lemma AccountRevokedRows(sessions: Sessions, realm: Realm, accountId: Id, reason: string, stamp: Instant, id: Id)
    ensures AfterRevokeAccount(sessions, realm, accountId, reason, stamp).Keys == sessions.Keys
    ensures id in sessions ==>
              var row, row' := sessions[id], AfterRevokeAccount(sessions, realm, accountId, reason, stamp)[id];
              && (row.accountId == accountId && row.realm == realm ==> row'.revokedAt.Some?)
              && (if row.accountId == accountId && row.realm == realm && row.revokedAt.None?
                  then MarkedNow(row, row', stamp, reason) else row' == row)
  {
  }

  /** A creation adds the row it is given, unrevoked, unless the id is taken. */
  lemma CreatedRows(sessions: Sessions, id: Id, realm: Realm, accountId: Id, familyId: Id, token: Token,
                    expiresAt: Instant, absolute: Instant)
    ensures var after := AfterCreate(sessions, id, NewSession(realm, accountId, familyId, token, expiresAt, absolute));
            var row := Session(accountId, realm, familyId, Sha256(token), expiresAt, absolute, None, None, None);
            after == if id in sessions then sessions else sessions[id := row]
  {
  }
}
