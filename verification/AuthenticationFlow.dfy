/** The authentication services that drive the session store: login, refresh and
    logout as written, for either realm. */
module AuthenticationFlow {
  import opened Basics
  import opened SessionStore
  import opened SessionRows
  import Families = SessionFamilies

  const SESSION_ABSOLUTE_TTL_MS: int := 30 * 86_400_000

  datatype AuthError =
    | InvalidCredentials | AccountInactive | AccountNotFound | TokenInvalid | TokenReused | StorageConflict
  datatype Reply = Issued(refreshToken: Token) | Refused(error: AuthError)

  /** The account row a service looks up; customers have no active flag. */
  datatype AccountRow = AccountRow(id: Id, isActive: bool)

  /** Generated for each token pair: a session id, a family id and the signature's serial. */
  datatype Fresh = Fresh(sessionId: Id, familyId: Id, serial: nat)

  /** generateTokenPair over newSessionIdentifiers: the claims carry the new identifiers. */
  function Sign(accountId: Id, realm: Realm, ids: Fresh): Token {
    Token(Claims(accountId, realm, ids.sessionId, ids.familyId), ids.serial)
  }

  predicate MayAct(realm: Realm, account: AccountRow) {
    realm.AdministrationRealm? ==> account.isActive
  }

  /** The create call of a login at time now. */
  function LoginCall(realm: Realm, accountId: Id, ids: Fresh, now: Instant, ttl: nat): Families.Call {
    Families.Create(ids.sessionId, ids.familyId, realm, accountId, Sign(accountId, realm, ids),
                    now + ttl, now + SESSION_ABSOLUTE_TTL_MS)
  }

  /** The rotate call of a refresh: session and family come from the presented token's
      claims, while the replacement token is signed over a brand-new family id. */
  function RefreshInput(realm: Realm, accountId: Id, token: Token, ids: Fresh, now: Instant, ttl: nat): RotationInput {
    RotationInput(realm, accountId, token.claims.sessionId, token.claims.familyId, token,
                  ids.sessionId, Sign(accountId, realm, ids), now + ttl)
  }

  function ReplyTo(answer: Answer, replacement: Token): Reply {
    match answer
    case Rotated => Issued(replacement)
    case RefreshTokenReused => Refused(TokenReused)
    case RefreshTokenInvalid => Refused(TokenInvalid)
    case DuplicateSession => Refused(StorageConflict)
  }

  class AuthenticationService {
    const store: AuthSessionStore
    const realm: Realm
    var lastLogin: map<Id, Instant>

    constructor (store: AuthSessionStore, realm: Realm)
      ensures this.store == store && this.realm == realm && lastLogin == map[]
    {
      this.store := store;
      this.realm := realm;
      lastLogin := map[];
    }

    /** The account is looked up by e-mail and its password compared before this call decides. */
    method Login(account: Option<AccountRow>, passwordMatches: bool, ids: Fresh, now: Instant, ttl: nat,
                 loginInstant: Instant)
      returns (reply: Reply)
      modifies store, `lastLogin
      ensures account.None? || !passwordMatches ==> reply == Refused(InvalidCredentials)
      ensures account.Some? && passwordMatches && realm.AdministrationRealm? && !account.value.isActive ==>
                reply == Refused(AccountInactive)
      ensures account.Some? && passwordMatches && (realm.AdministrationRealm? ==> account.value.isActive) ==>
                && reply == (if ids.sessionId in old(store.sessions) then Refused(StorageConflict)
                             else Issued(Sign(account.value.id, realm, ids)))
                && store.sessions ==
                    Families.Apply(old(store.sessions), LoginCall(realm, account.value.id, ids, now, ttl))
      ensures account.None? || !passwordMatches || (realm.AdministrationRealm? && !account.value.isActive) ==>
                store.sessions == old(store.sessions)
      ensures lastLogin == if reply.Issued? && account.Some? then old(lastLogin)[account.value.id := loginInstant]
                else old(lastLogin)
    {
      if account.None? || !passwordMatches { return Refused(InvalidCredentials); }
      if !MayAct(realm, account.value) { return Refused(AccountInactive); }
      var token := Sign(account.value.id, realm, ids);
      var created := store.Create(ids.sessionId, ids.familyId, realm, account.value.id, token,
                                  now + ttl, now + SESSION_ABSOLUTE_TTL_MS);
      if !created { return Refused(StorageConflict); }
      lastLogin := lastLogin[account.value.id := loginInstant];
      reply := Issued(token);
    }

    /** account is the row of the token's subject; verified is the signature check. */
    method Refresh(token: Token, verified: bool, account: Option<AccountRow>, ids: Fresh, now: Instant,
                   stamp: Instant, ttl: nat)
      returns (reply: Reply)
      modifies store
      ensures !verified || token.claims.realm != realm ==>
                reply == Refused(TokenInvalid) && store.sessions == old(store.sessions)
      ensures verified && token.claims.realm == realm && account.None? ==>
                reply == Refused(AccountNotFound) && store.sessions == old(store.sessions)
      ensures verified && token.claims.realm == realm && account.Some? && realm.AdministrationRealm?
              && !account.value.isActive ==>
                reply == Refused(AccountInactive) && store.sessions == old(store.sessions)
      ensures verified && token.claims.realm == realm && account.Some?
              && (realm.AdministrationRealm? ==> account.value.isActive) ==>
                var input := RefreshInput(realm, account.value.id, token, ids, now, ttl);
                && reply == ReplyTo(AnswerOf(old(store.sessions), input, now), input.replacementToken)
                && (AnswerOf(old(store.sessions), input, now) == DuplicateSession ==>
                      reply == Refused(StorageConflict))
                && store.sessions == AfterRotate(old(store.sessions), input, now, stamp)
    {
      if !verified || token.claims.realm != realm { return Refused(TokenInvalid); }
      if account.None? { return Refused(AccountNotFound); }
      if !MayAct(realm, account.value) { return Refused(AccountInactive); }
      var replacement := Sign(account.value.id, realm, ids);
      var input := RotationInput(realm, account.value.id, token.claims.sessionId, token.claims.familyId, token,
                                 ids.sessionId, replacement, now + ttl);
      var answer := store.Rotate(input, now, stamp);
      reply := ReplyTo(answer, replacement);
    }

    method Logout(accountId: Id, token: Token, verified: bool, stamp: Instant) returns (loggedOut: bool)
      modifies store
      ensures loggedOut == (verified && token.claims.realm == realm && token.claims.sub == accountId)
      ensures store.sessions == if loggedOut
                then AfterRevoke(old(store.sessions), realm, accountId, token.claims.sessionId, stamp)
                                else old(store.sessions)
    {
      if !verified || token.claims.realm != realm || token.claims.sub != accountId { return false; }
      store.Revoke(realm, accountId, token.claims.sessionId, stamp);
      loggedOut := true;
    }
  }

  // ----- Runs of logins and refreshes -----

  /** The session table with the refresh tokens handed out by login and by refresh. */
  datatype Flow = Flow(sessions: Sessions, byLogin: set<Token>, byRefresh: set<Token>)

  datatype Move =
    | LogIn(realm: Realm, accountId: Id, ids: Fresh, now: Instant, ttl: nat)
    | Refreshing(token: Token, ids: Fresh, now: Instant, stamp: Instant, ttl: nat)
    | LogOut(token: Token, stamp: Instant)
    | Revocation(realm: Realm, accountId: Id, reason: string, stamp: Instant)

  /** A token's own realm and subject are used: the context check and the account lookup passed. */
  function InputOf(move: Move): RotationInput
    requires move.Refreshing?
  {
    RefreshInput(move.token.claims.realm, move.token.claims.sub, move.token, move.ids, move.now, move.ttl)
  }

  function CallOf(move: Move): Families.Call {
    match move
    case LogIn(realm, account, ids, now, ttl) => LoginCall(realm, account, ids, now, ttl)
    case Refreshing(_, _, now, stamp, _) => Families.Rotate(InputOf(move), now, stamp)
    case LogOut(token, stamp) => Families.Revoke(token.claims.realm, token.claims.sub, token.claims.sessionId, stamp)
    case Revocation(realm, account, reason, stamp) => Families.RevokeAccount(realm, account, reason, stamp)
  }

  /** Generated identifiers do not occur in the table yet. */
  ghost predicate Unused(f: Flow, ids: Fresh) {
    && ids.sessionId !in f.sessions
    && forall id :: id in f.sessions ==> f.sessions[id].familyId != ids.familyId
  }

  /** Only issued tokens verify. */
  ghost predicate Possible(f: Flow, move: Move) {
    match move
    case LogIn(_, _, ids, _, _) => Unused(f, ids)
    case Refreshing(token, ids, _, _, _) => token in f.byLogin + f.byRefresh && Unused(f, ids)
    case LogOut(token, _) => token in f.byLogin + f.byRefresh
    case Revocation(_, _, _, _) => true
  }

  function After(f: Flow, move: Move): Flow {
    Flow(Families.Apply(f.sessions, CallOf(move)),
         if move.LogIn? then f.byLogin + {Sign(move.accountId, move.realm, move.ids)} else f.byLogin,
         if move.Refreshing? && AnswerOf(f.sessions, InputOf(move), move.now) == Rotated
         then f.byRefresh + {InputOf(move).replacementToken} else f.byRefresh)
  }

  ghost predicate IsFlow(flows: seq<Flow>, moves: seq<Move>) {
    && |flows| == |moves| + 1 && flows[0] == Flow(map[], {}, {})
    && forall i :: 0 <= i < |moves| ==> Possible(flows[i], moves[i]) && flows[i + 1] == After(flows[i], moves[i])
  }

  /** Any flow goes on with a login or a refresh over new identifiers, with a refresh or a logout by any
      issued token, or with the closing of any account. */
  lemma FlowGoesOn(flows: seq<Flow>, moves: seq<Move>, move: Move)
    requires IsFlow(flows, moves)
    requires move.LogIn? || move.Refreshing? ==>
               forall id :: id in flows[|moves|].sessions ==>
                 id != move.ids.sessionId && flows[|moves|].sessions[id].familyId != move.ids.familyId
    requires move.Refreshing? || move.LogOut? ==>
               move.token in flows[|moves|].byLogin || move.token in flows[|moves|].byRefresh
    ensures IsFlow(flows + [After(flows[|moves|], move)], moves + [move])
  {
    var longer, more := flows + [After(flows[|moves|], move)], moves + [move];
    forall i | 0 <= i < |more| ensures Possible(longer[i], more[i]) && longer[i + 1] == After(longer[i], more[i]) {
      if i < |moves| {
        assert longer[i] == flows[i] && longer[i + 1] == flows[i + 1] && more[i] == moves[i];
      }
    }
  }

  function Tables(flows: seq<Flow>): seq<Sessions> {
    seq(|flows|, i requires 0 <= i < |flows| => flows[i].sessions)
  }

  function Calls(moves: seq<Move>): seq<Families.Call> {
    seq(|moves|, i requires 0 <= i < |moves| => CallOf(moves[i]))
  }

  /** Every flow is a run of the session store in which each create starts a fresh family. */
  lemma FlowIsRun(flows: seq<Flow>, moves: seq<Move>)
    requires IsFlow(flows, moves)
    ensures Families.IsRun(Tables(flows), Calls(moves))
  {
  }

  /** The row a token names was stored for that token. */
  ghost predicate Stored(sessions: Sessions, t: Token) {
    && t.claims.sessionId in sessions
    && sessions[t.claims.sessionId].digest == Sha256(t)
    && sessions[t.claims.sessionId].accountId == t.claims.sub && sessions[t.claims.sessionId].realm == t.claims.realm
  }

  /** Login tokens name the family their row is stored under; refresh tokens name another. */
  ghost predicate ClaimsInv(f: Flow) {
    && (forall t :: t in f.byLogin ==>
        Stored(f.sessions, t) && f.sessions[t.claims.sessionId].familyId == t.claims.familyId)
    && (forall t :: t in f.byRefresh ==>
        Stored(f.sessions, t) && f.sessions[t.claims.sessionId].familyId != t.claims.familyId)
    && (forall t, u :: t in f.byLogin && u in f.byLogin && t.claims.familyId == u.claims.familyId ==> t == u)
  }

  lemma AfterKeepsClaims(f: Flow, move: Move)
    requires ClaimsInv(f) && Families.RowsPaired(f.sessions) && Possible(f, move)
    ensures ClaimsInv(After(f, move))
  {
    Families.ApplyWritesOnce(f.sessions, CallOf(move));
  }

  /** In every reachable state the familyId claim equals the stored family for login
      tokens and differs from it for refresh tokens. */
  lemma {:induction false} ClaimsAlways(flows: seq<Flow>, moves: seq<Move>, i: nat)
    requires IsFlow(flows, moves) && i < |flows|
    ensures ClaimsInv(flows[i])
  {
    if i > 0 {
      ClaimsAlways(flows, moves, i - 1);
      FlowIsRun(flows, moves);
      Families.RowsAlwaysPaired(Tables(flows), Calls(moves), i - 1);
      AfterKeepsClaims(flows[i - 1], moves[i - 1]);
    }
  }

  /** A second-generation token always takes the NOT_FOUND outcome and changes nothing. */
  lemma SecondGenerationNotFound(flows: seq<Flow>, moves: seq<Move>, i: nat)
    requires IsFlow(flows, moves) && i < |moves| && moves[i].Refreshing? && moves[i].token in flows[i].byRefresh
    ensures Judge(flows[i].sessions, InputOf(moves[i]), moves[i].now) == NotFound
    ensures AnswerOf(flows[i].sessions, InputOf(moves[i]), moves[i].now) == RefreshTokenInvalid
    ensures flows[i + 1] == flows[i]
  {
    ClaimsAlways(flows, moves, i);
  }

  /** A refresh with a login token succeeds exactly while its session is unrevoked and neither expiry has come. */
  lemma LoginTokenRefreshExact(flows: seq<Flow>, moves: seq<Move>, i: nat)
    requires IsFlow(flows, moves) && i < |moves| && moves[i].Refreshing? && moves[i].token in flows[i].byLogin
    ensures moves[i].token.claims.sessionId in flows[i].sessions
    ensures var session := flows[i].sessions[moves[i].token.claims.sessionId];
            AnswerOf(flows[i].sessions, InputOf(moves[i]), moves[i].now) == Rotated <==>
              session.revokedAt.None? && moves[i].now < session.expiresAt && moves[i].now < session.absoluteExpiresAt
  {
    var id := moves[i].token.claims.sessionId;
    ClaimsAlways(flows, moves, i);
    FlowIsRun(flows, moves);
    Families.RowsAlwaysPaired(Tables(flows), Calls(moves), i);
    if flows[i].sessions[id].replacedBy.Some? {
      Families.ReplacedIsRevoked(Tables(flows), Calls(moves), i, id);
    }
  }

  ghost predicate RotatedAt(flows: seq<Flow>, moves: seq<Move>, i: nat) {
    && i < |moves| && i < |flows| && moves[i].Refreshing?
    && AnswerOf(flows[i].sessions, InputOf(moves[i]), moves[i].now) == Rotated
  }

  /** A refresh succeeds only for a login token, on a session stored under its family. */
  lemma RotatesLoginToken(flows: seq<Flow>, moves: seq<Move>, i: nat)
    requires IsFlow(flows, moves) && RotatedAt(flows, moves, i)
    ensures moves[i].token in flows[i].byLogin
    ensures moves[i].token.claims.sessionId in flows[i].sessions
    ensures flows[i].sessions[moves[i].token.claims.sessionId].familyId == moves[i].token.claims.familyId
  {
    ClaimsAlways(flows, moves, i);
  }

  lemma {:induction false} LoginTokensKept(flows: seq<Flow>, moves: seq<Move>, i: nat, j: nat)
    requires IsFlow(flows, moves) && i <= j < |flows|
    ensures flows[i].byLogin <= flows[j].byLogin
    decreases j
  {
    if i < j {
      LoginTokensKept(flows, moves, i, j - 1);
    }
  }

  // ----- What login, refresh and logout leave in the table -----

  /** A login stores one unrevoked row that expires after the given duration and, however it is
      refreshed, thirty days after the login. */
  lemma LoginStores(flows: seq<Flow>, moves: seq<Move>, i: nat)
    requires IsFlow(flows, moves) && i < |moves| && moves[i].LogIn?
    ensures var ids, token := moves[i].ids, Token(Claims(moves[i].accountId, moves[i].realm, moves[i].ids.sessionId,
                                                        moves[i].ids.familyId), moves[i].ids.serial);
            && token in flows[i + 1].byLogin && ids.sessionId !in flows[i].sessions
            && flows[i + 1].sessions ==
               flows[i].sessions[ids.sessionId :=
                 Session(moves[i].accountId, moves[i].realm, ids.familyId, Sha256(token), moves[i].now + moves[i].ttl,
                         moves[i].now + 2_592_000_000, None, None, None)]
  {
    assert Possible(flows[i], moves[i]);
  }

  /** How a refresh with an issued token is answered. */
  lemma RefreshAnswered(flows: seq<Flow>, moves: seq<Move>, i: nat)
    requires IsFlow(flows, moves) && i < |moves| && moves[i].Refreshing?
    ensures var token, answer := moves[i].token, AnswerOf(flows[i].sessions, InputOf(moves[i]), moves[i].now);
            var reply := ReplyTo(answer, InputOf(moves[i]).replacementToken);
            && token.claims.sessionId in flows[i].sessions
            && var row := flows[i].sessions[token.claims.sessionId];
               && (reply.Issued? <==> row.familyId == token.claims.familyId && Alive(row, moves[i].now))
               && (reply.Issued? ==>
                     var claims := Claims(token.claims.sub, token.claims.realm, moves[i].ids.sessionId,
                                          moves[i].ids.familyId);
                     reply.refreshToken == Token(claims, moves[i].ids.serial))
               && (reply == Refused(TokenReused) <==> row.familyId == token.claims.familyId && WasRotated(row))
               && (reply == Refused(TokenInvalid) <==>
                   row.familyId != token.claims.familyId || (!Alive(row, moves[i].now) && !WasRotated(row)))
  {
    var id := moves[i].token.claims.sessionId;
    ClaimsAlways(flows, moves, i);
    FlowIsRun(flows, moves);
    Families.RowsAlwaysPaired(Tables(flows), Calls(moves), i);
    AnswersExact(flows[i].sessions, InputOf(moves[i]), moves[i].now);
    if flows[i].sessions[id].replacedBy.Some? {
      Families.ReplacedIsRevoked(Tables(flows), Calls(moves), i, id);
    }
  }

  /** The session a refresh opens expires after the given duration from the refresh or when its
      family ends, whichever comes first. */
  lemma RefreshExpiry(flows: seq<Flow>, moves: seq<Move>, i: nat)
    requires IsFlow(flows, moves) && RotatedAt(flows, moves, i)
    ensures moves[i].token.claims.sessionId in flows[i].sessions
    ensures moves[i].ids.sessionId in flows[i + 1].sessions
    ensures ExpiresFirst(flows[i + 1].sessions[moves[i].ids.sessionId].expiresAt, moves[i].now + moves[i].ttl,
                         flows[i].sessions[moves[i].token.claims.sessionId].absoluteExpiresAt)
  {
    RotatedRows(flows[i].sessions, InputOf(moves[i]), moves[i].now, moves[i].stamp);
  }

  /** A logout revokes the session of its token, as logged out if it was unrevoked, and no other row. */
  lemma LogoutRevokes(flows: seq<Flow>, moves: seq<Move>, i: nat)
    requires IsFlow(flows, moves) && i < |moves| && moves[i].LogOut?
    ensures var before, after, id := flows[i].sessions, flows[i + 1].sessions, moves[i].token.claims.sessionId;
            && after.Keys == before.Keys && id in before && after[id].revokedAt.Some?
            && MarkedNow(before[id], after[id], moves[i].stamp, "logout")
            && (before[id].revokedAt.None? ==> after[id].revokeReason == Some("logout"))
            && forall other :: other in before && other != id ==> after[other] == before[other]
  {
    var token := moves[i].token;
    ClaimsAlways(flows, moves, i);
    FlowIsRun(flows, moves);
    Families.RowsAlwaysPaired(Tables(flows), Calls(moves), i);
    assert Possible(flows[i], moves[i]);
    forall id | id in flows[i].sessions
      ensures id in flows[i + 1].sessions
      ensures if id == token.claims.sessionId
              then MarkedNow(flows[i].sessions[id], flows[i + 1].sessions[id], moves[i].stamp, "logout")
              else flows[i + 1].sessions[id] == flows[i].sessions[id]
    {
      RevokedRows(flows[i].sessions, token.claims.realm, token.claims.sub, token.claims.sessionId, moves[i].stamp, id);
    }
  }

  /** After the logout of a token no refresh with it ever succeeds. */
  lemma NoRefreshAfterLogout(flows: seq<Flow>, moves: seq<Move>, i: nat, j: nat)
    requires IsFlow(flows, moves) && i < |moves| && moves[i].LogOut?
    requires i < j && RotatedAt(flows, moves, j)
    ensures moves[j].token != moves[i].token
  {
    if moves[j].token == moves[i].token {
      LogoutRevokes(flows, moves, i);
      FlowIsRun(flows, moves);
      Families.RowWrittenOnce(Tables(flows), Calls(moves), moves[i].token.claims.sessionId, i + 1, j);
      AnswersExact(flows[j].sessions, InputOf(moves[j]), moves[j].now);
    }
  }

  /** After an account is closed no token that was stored for it before is ever exchanged. */
  lemma NoRefreshAfterClosing(flows: seq<Flow>, moves: seq<Move>, i: nat, j: nat)
    requires IsFlow(flows, moves) && i < |moves| && moves[i].Revocation?
    requires i < j && RotatedAt(flows, moves, j) && moves[j].token in flows[i].byLogin
    ensures moves[j].token.claims.sub != moves[i].accountId || moves[j].token.claims.realm != moves[i].realm
  {
    var id, move := moves[j].token.claims.sessionId, moves[i];
    if moves[j].token.claims.sub == move.accountId && moves[j].token.claims.realm == move.realm {
      ClaimsAlways(flows, moves, i);
      AccountRevokedRows(flows[i].sessions, move.realm, move.accountId, move.reason, move.stamp, id);
      FlowIsRun(flows, moves);
      Families.RowWrittenOnce(Tables(flows), Calls(moves), id, i + 1, j);
      AnswersExact(flows[j].sessions, InputOf(moves[j]), moves[j].now);
    }
  }

  /** The failing input: a login, a refresh that succeeds, and a refresh with the token it
      issued, refused although that token's session is unrevoked and unexpired. */
  lemma SecondGenerationRefused() returns (flows: seq<Flow>, moves: seq<Move>)
    ensures IsFlow(flows, moves) && |moves| == 3 && moves[0].LogIn? && moves[1].Refreshing? && moves[2].Refreshing?
    ensures RotatedAt(flows, moves, 1) && moves[2].token == InputOf(moves[1]).replacementToken
    ensures moves[2].token in flows[2].byRefresh && Stored(flows[2].sessions, moves[2].token)
    ensures var session := flows[2].sessions[moves[2].token.claims.sessionId];
            session.revokedAt.None? && moves[2].now < session.expiresAt && moves[2].now < session.absoluteExpiresAt
    ensures Judge(flows[2].sessions, InputOf(moves[2]), moves[2].now) == NotFound && !RotatedAt(flows, moves, 2)
  {
    var first := Sign(5, CustomerRealm, Fresh(1, 11, 0));
    var second := Sign(5, CustomerRealm, Fresh(2, 12, 0));
    moves := [LogIn(CustomerRealm, 5, Fresh(1, 11, 0), 0, 1000), Refreshing(first, Fresh(2, 12, 0), 1, 1, 1000),
              Refreshing(second, Fresh(3, 13, 0), 2, 2, 1000)];
    var start := Flow(map[], {}, {});
    var loggedIn := After(start, moves[0]);
    var refreshed := After(loggedIn, moves[1]);
    flows := [start, loggedIn, refreshed, After(refreshed, moves[2])];
    assert loggedIn.sessions == map[1 := NewSession(CustomerRealm, 5, 11, first, 1000, SESSION_ABSOLUTE_TTL_MS)];
    assert InputOf(moves[1]) == RotationInput(CustomerRealm, 5, 1, 11, first, 2, second, 1001);
    assert Judge(loggedIn.sessions, InputOf(moves[1]), 1) == Valid;
    assert refreshed.byRefresh == {second} && refreshed.sessions[2].familyId == 11;
  }

  /** Each login family undergoes at most one successful rotation, ever. */
  lemma LoginFamilyRotatesOnce(flows: seq<Flow>, moves: seq<Move>, i: nat, j: nat)
    requires IsFlow(flows, moves) && RotatedAt(flows, moves, i) && RotatedAt(flows, moves, j)
    requires moves[i].token.claims.familyId == moves[j].token.claims.familyId
    ensures i == j
  {
    RotatesLoginToken(flows, moves, i);
    RotatesLoginToken(flows, moves, j);
    var later := if i < j then j else i;
    LoginTokensKept(flows, moves, i, later);
    LoginTokensKept(flows, moves, j, later);
    ClaimsAlways(flows, moves, later);
    FlowIsRun(flows, moves);
    Families.RotatesOnce(Tables(flows), Calls(moves), moves[i].token.claims.sessionId, i, j);
  }

  /** No token is ever exchanged twice. */
  lemma TokenExchangedOnce(flows: seq<Flow>, moves: seq<Move>, i: nat, j: nat)
    requires IsFlow(flows, moves) && RotatedAt(flows, moves, i) && RotatedAt(flows, moves, j)
    requires moves[i].token == moves[j].token
    ensures i == j
  {
    LoginFamilyRotatesOnce(flows, moves, i, j);
  }

  /** However refreshing goes, nothing succeeds thirty days after the login. */
  lemma ThirtyDaysAfterLogin(flows: seq<Flow>, moves: seq<Move>, i: nat, j: nat)
    requires IsFlow(flows, moves) && i < |moves| && moves[i].LogIn?
    requires i < j && RotatedAt(flows, moves, j) && moves[j].token.claims.familyId == moves[i].ids.familyId
    ensures moves[j].now < moves[i].now + SESSION_ABSOLUTE_TTL_MS
    ensures moves[j].ids.sessionId in flows[j + 1].sessions
    ensures flows[j + 1].sessions[moves[j].ids.sessionId].expiresAt <= moves[i].now + SESSION_ABSOLUTE_TTL_MS
  {
    RotatesLoginToken(flows, moves, j);
    FlowIsRun(flows, moves);
    Families.NoRotationPastAbsoluteExpiry(Tables(flows), Calls(moves), i, j, moves[j].token.claims.sessionId);
  }
}
