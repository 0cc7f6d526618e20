/** Refresh sessions: creation, rotation with reuse detection, logout and account
    revocation over the session table. */
module SessionStore {
  import opened Basics

  datatype Realm = CustomerRealm | AdministrationRealm

  /** What a signed refresh token says, and a serial number that tells apart two
      tokens signed over the same claims. */
  datatype Claims = Claims(sub: Id, realm: Realm, sessionId: Id, familyId: Id)
  datatype Token = Token(claims: Claims, serial: nat)

  /** The stored digest; it determines the token it was taken from. */
  datatype Digest = Sha256(token: Token)

  /** Instants are milliseconds. */
  type Instant = int

  datatype Session = Session(
    accountId: Id, realm: Realm, familyId: Id, digest: Digest,
    expiresAt: Instant, absoluteExpiresAt: Instant,
    revokedAt: Option<Instant>, revokeReason: Option<string>, replacedBy: Option<Id>)

  type Sessions = map<Id, Session>

  datatype RotationInput = RotationInput(
    realm: Realm, accountId: Id, sessionId: Id, familyId: Id, token: Token,
    replacementId: Id, replacementToken: Token, expiresAt: Instant)

  datatype Outcome =
    NotFound | TokenHashMismatch | AlreadyRotated | Revoked | Expired | AbsoluteExpired | Valid
  {
    predicate Reuse() { TokenHashMismatch? || AlreadyRotated? }
  }

  /** What the caller of rotate sees. */
  datatype Answer = Rotated | RefreshTokenReused | RefreshTokenInvalid | DuplicateSession

  const ROTATED := "rotated"
  const REUSE := "refresh_reuse"
  const LOGOUT := "logout"

  predicate Selected(sessions: Sessions, input: RotationInput) {
    && input.sessionId in sessions
    && sessions[input.sessionId].accountId == input.accountId
    && sessions[input.sessionId].realm == input.realm
  }

  /** The verdict on the locked row. */
  function Judge(sessions: Sessions, input: RotationInput, now: Instant): Outcome {
    if !Selected(sessions, input) || sessions[input.sessionId].familyId != input.familyId then NotFound
    else
      var current := sessions[input.sessionId];
      if current.digest != Sha256(input.token) then TokenHashMismatch
      else if current.replacedBy.Some? || current.revokeReason == Some(ROTATED) then AlreadyRotated
      else if current.revokedAt.Some? then Revoked
      else if current.absoluteExpiresAt <= now then AbsoluteExpired
      else if current.expiresAt <= now then Expired
      else Valid
  }

  function Coalesce<T>(present: Option<T>, fallback: T): Option<T> {
    if present.Some? then present else Some(fallback)
  }

  function WithRevocation(s: Session, stamp: Instant, reason: string): Session {
    s.(revokedAt := Coalesce(s.revokedAt, stamp), revokeReason := Coalesce(s.revokeReason, reason))
  }

  function Min(a: int, b: int): int { if a <= b then a else b }

  // ----- The table after each call -----

  function AfterCreate(sessions: Sessions, id: Id, session: Session): Sessions {
    if id in sessions then sessions else sessions[id := session]
  }

  function NewSession(realm: Realm, accountId: Id, familyId: Id, token: Token, expiresAt: Instant,
                      absolute: Instant): Session
  {
    Session(accountId, realm, familyId, Sha256(token), expiresAt, absolute, None, None, None)
  }

  predicate InFamily(s: Session, familyId: Id, realm: Realm, accountId: Id) {
    s.familyId == familyId && s.realm == realm && s.accountId == accountId
  }

  function AfterRotate(sessions: Sessions, input: RotationInput, now: Instant, stamp: Instant): Sessions {
    var outcome := Judge(sessions, input, now);
    if outcome.Reuse() then
      var current := sessions[input.sessionId];
      map id | id in sessions ::
        if InFamily(sessions[id], current.familyId, current.realm, current.accountId)
        then WithRevocation(sessions[id], stamp, REUSE) else sessions[id]
    else if outcome.Valid? && input.replacementId !in sessions then
      var current := sessions[input.sessionId];
      sessions[input.sessionId := current.(revokedAt := Some(stamp), revokeReason := Some(ROTATED),
                                           replacedBy := Some(input.replacementId))]
      [input.replacementId := NewSession(current.realm, current.accountId, current.familyId, input.replacementToken,
                                         Min(current.absoluteExpiresAt, input.expiresAt), current.absoluteExpiresAt)]
    else sessions
  }

  function AnswerOf(sessions: Sessions, input: RotationInput, now: Instant): Answer {
    var outcome := Judge(sessions, input, now);
    if outcome.Reuse() then RefreshTokenReused
    else if !outcome.Valid? then RefreshTokenInvalid
    else if input.replacementId in sessions then DuplicateSession
    else Rotated
  }

  function AfterRevoke(sessions: Sessions, realm: Realm, accountId: Id, sessionId: Id, stamp: Instant): Sessions {
    if sessionId in sessions && sessions[sessionId].accountId == accountId && sessions[sessionId].realm == realm
    then sessions[sessionId := WithRevocation(sessions[sessionId], stamp, LOGOUT)] else sessions
  }

  function AfterRevokeAccount(sessions: Sessions, realm: Realm, accountId: Id, reason: string,
                              stamp: Instant): Sessions
  {
    map id | id in sessions ::
      if sessions[id].accountId == accountId && sessions[id].realm == realm && sessions[id].revokedAt.None?
      then WithRevocation(sessions[id], stamp, reason) else sessions[id]
  }

  /** The session table and the calls that update it in place. */
  class AuthSessionStore {
    var sessions: Sessions

    constructor ()
      ensures sessions == map[]
    {
      sessions := map[];
    }

    method Create(sessionId: Id, familyId: Id, realm: Realm, accountId: Id, token: Token, expiresAt: Instant,
                  absolute: Instant)
      returns (created: bool)
      modifies this
      ensures created == (sessionId !in old(sessions))
      ensures sessions ==
                AfterCreate(old(sessions), sessionId,
                            NewSession(realm, accountId, familyId, token, expiresAt, absolute))
    {
      if sessionId in sessions { return false; }
      sessions := sessions[sessionId := Session(accountId, realm, familyId, Sha256(token), expiresAt, absolute, None,
                                                None, None)];
      created := true;
    }

    /** One transaction: judge the locked row, then revoke its family, replace it, or leave everything. */
    method Rotate(input: RotationInput, now: Instant, stamp: Instant) returns (answer: Answer)
      modifies this
      ensures answer == AnswerOf(old(sessions), input, now)
      ensures sessions == AfterRotate(old(sessions), input, now, stamp)
    {
      var outcome := NotFound;
      if Selected(sessions, input) {
        var current := sessions[input.sessionId];
        if current.familyId == input.familyId {
          if current.digest != Sha256(input.token) {
            outcome := TokenHashMismatch;
          } else if current.replacedBy.Some? || current.revokeReason == Some(ROTATED) {
            outcome := AlreadyRotated;
          } else if current.revokedAt.Some? {
            outcome := Revoked;
          } else if current.absoluteExpiresAt <= now {
            outcome := AbsoluteExpired;
          } else if current.expiresAt <= now {
            outcome := Expired;
          } else {
            outcome := Valid;
          }
        }
      }
      if outcome.Reuse() {
        var current := sessions[input.sessionId];
        sessions := map id | id in sessions ::
          if InFamily(sessions[id], current.familyId, current.realm, current.accountId)
          then WithRevocation(sessions[id], stamp, REUSE) else sessions[id];
        return RefreshTokenReused;
      }
      if !outcome.Valid? { return RefreshTokenInvalid; }
      if input.replacementId in sessions { return DuplicateSession; }
      var current := sessions[input.sessionId];
      var expiresAt := Min(current.absoluteExpiresAt, input.expiresAt);
      sessions := sessions[input.sessionId :=
        current.(revokedAt := Some(stamp), revokeReason := Some(ROTATED), replacedBy := Some(input.replacementId))];
      sessions := sessions[input.replacementId :=
        NewSession(current.realm, current.accountId, current.familyId, input.replacementToken, expiresAt,
                   current.absoluteExpiresAt)];
      answer := Rotated;
    }

    method Revoke(realm: Realm, accountId: Id, sessionId: Id, stamp: Instant)
      modifies this
      ensures sessions == AfterRevoke(old(sessions), realm, accountId, sessionId, stamp)
    {
      if sessionId in sessions && sessions[sessionId].accountId == accountId && sessions[sessionId].realm == realm {
        sessions := sessions[sessionId := WithRevocation(sessions[sessionId], stamp, LOGOUT)];
      }
    }

    method RevokeAccount(realm: Realm, accountId: Id, reason: string, stamp: Instant)
      modifies this
      ensures sessions == AfterRevokeAccount(old(sessions), realm, accountId, reason, stamp)
    {
      sessions := map id | id in sessions ::
        if sessions[id].accountId == accountId && sessions[id].realm == realm && sessions[id].revokedAt.None?
        then WithRevocation(sessions[id], stamp, reason) else sessions[id];
    }
  }
}
