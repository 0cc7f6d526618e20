/** The recovery query behind "never lose the last administrator", the runtime
    permission decision of the administration guard, and their agreement. */
module RecoveryCapability {
  import opened Basics
  import opened AuthorizationTables

  /** One joined row: an assignment and a mapping of the same usable role whose
      permission is effective and has the given code, for an active administrator. */
  predicate Joined(t: Tables, assignment: (Id, Id), mapping: (Id, Id), code: string) {
    && assignment in t.assignments && mapping in t.mappings
    && assignment.1 == mapping.0
    && RoleUsable(t, mapping.0)
    && mapping.1 in t.permissions
    && t.permissions[mapping.1].Effective()
    && t.permissions[mapping.1].code == code
    && assignment.0 in t.subjects
    && t.subjects[assignment.0].Administrator?
    && t.subjects[assignment.0].isActive
  }

  /** The EXISTS query of the guard's repository. It filters on is_active, not on deleted_at. */
  predicate HasPermission(t: Tables, administrator: Id, code: string) {
    exists a, m :: a in t.assignments && m in t.mappings && a.0 == administrator && Joined(t, a, m, code)
  }

  /** The distinct recovery codes one administrator's group contains. */
  function RecoveryCodesOf(t: Tables, administrator: Id): (codes: set<string>)
    ensures codes <= RECOVERY
  {
    set a, m | a in t.assignments && m in t.mappings && a.0 == administrator
               && m.1 in t.permissions && t.permissions[m.1].code in RECOVERY
               && Joined(t, a, m, t.permissions[m.1].code)
             :: t.permissions[m.1].code
  }

  /** GROUP BY administrator HAVING COUNT(DISTINCT code) = n, over non-deleted administrators. */
  function RecoveryAdmins(t: Tables): set<Id> {
    set a | a in t.assignments && SubjectLive(t, a.0) && |RecoveryCodesOf(t, a.0)| == |RECOVERY| :: a.0
  }

  predicate HasRecovery(t: Tables) {
    RecoveryAdmins(t) != {}
  }

  datatype Requirement = All(codes: seq<string>) | Any(codes: seq<string>)
  datatype Principal = Principal(id: Id, administrationRealm: bool)

  /** The guard's verdict on a route. */
  predicate CanActivate(t: Tables, requirement: Option<Requirement>, principal: Option<Principal>) {
    if requirement.None? || requirement.value.codes == [] then true
    else if principal.None? || !principal.value.administrationRealm then false
    else match requirement.value
      case Any(codes) => exists code :: code in codes && HasPermission(t, principal.value.id, code)
      case All(codes) => forall code :: code in codes ==> HasPermission(t, principal.value.id, code)
  }

  /** What a verified access token says. */
  datatype AccessClaims = AccessClaims(sub: Id, accessToken: bool, administrationRealm: bool, hasSession: bool)

  datatype Authentication = Authenticated(principal: Principal) | TokenInvalid | AccountNotFound | AccountInactive

  /** The account that token validation accepts: not soft-deleted, and active. */
  predicate Authenticates(t: Tables, administrator: Id) {
    SubjectLive(t, administrator) && t.subjects[administrator].Administrator? && t.subjects[administrator].isActive
  }

  /** The token strategy, which runs before the permission guard on every guarded route. */
  function Validate(t: Tables, claims: AccessClaims): Authentication {
    if !claims.accessToken || !claims.administrationRealm || !claims.hasSession then TokenInvalid
    else if !SubjectLive(t, claims.sub) || !t.subjects[claims.sub].Administrator? then AccountNotFound
    else if !t.subjects[claims.sub].isActive then AccountInactive
    else Authenticated(Principal(claims.sub, true))
  }

  function AccessTokenOf(administrator: Id): AccessClaims {
    AccessClaims(administrator, true, true, true)
  }

  /** A request with these claims reaches the handler of a route with this requirement. */
  predicate Serves(t: Tables, requirement: Option<Requirement>, claims: AccessClaims) {
    match Validate(t, claims)
    case Authenticated(principal) => CanActivate(t, requirement, Some(principal))
    case _ => false
  }

  lemma RecoveryCodeExact(t: Tables, administrator: Id, code: string)
    requires code in RECOVERY
    ensures code in RecoveryCodesOf(t, administrator) <==> HasPermission(t, administrator, code)
  {
    if HasPermission(t, administrator, code) {
      var a, m :| a in t.assignments && m in t.mappings && a.0 == administrator && Joined(t, a, m, code);
      assert t.permissions[m.1].code == code;
    }
  }

  /** The counting query selects exactly the non-deleted administrators whom the
      guard would allow on every recovery permission. */
  lemma RecoveryAdminsExact(t: Tables, administrator: Id)
    ensures administrator in RecoveryAdmins(t) <==>
            SubjectLive(t, administrator) && forall code :: code in RECOVERY ==> HasPermission(t, administrator, code)
  {
    forall code | code in RECOVERY
      ensures code in RecoveryCodesOf(t, administrator) <==> HasPermission(t, administrator, code)
    {
      RecoveryCodeExact(t, administrator, code);
    }
    SubsetSameSize(RecoveryCodesOf(t, administrator), RECOVERY);
    if SubjectLive(t, administrator) && forall code :: code in RECOVERY ==> HasPermission(t, administrator, code) {
      assert HasPermission(t, administrator, ROLE_WRITE);
      var a, m :| a in t.assignments && m in t.mappings && a.0 == administrator && Joined(t, a, m, ROLE_WRITE);
      assert RecoveryCodesOf(t, administrator) == RECOVERY;
      assert a.0 in RecoveryAdmins(t);
    }
  }

  predicate PassesRecovery(t: Tables, administrator: Id) {
    forall code :: code in RECOVERY ==> HasPermission(t, administrator, code)
  }

  /** The recovery query and the guard's query filter administrators differently, and select the
      same ones: those that authenticate and pass on every recovery permission. */
  lemma RecoveryAdminsAuthenticate(t: Tables, administrator: Id)
    ensures administrator in RecoveryAdmins(t) <==> Authenticates(t, administrator) && PassesRecovery(t, administrator)
  {
    RecoveryAdminsExact(t, administrator);
    if PassesRecovery(t, administrator) {
      assert HasPermission(t, administrator, ROLE_WRITE);
    }
  }

  /** The counting query selects exactly the administrators whose requests are served on the
      role-write and on the assignment-write routes. */
  lemma RecoveryRoutesExact(t: Tables, administrator: Id)
    ensures administrator in RecoveryAdmins(t) <==>
              && Serves(t, Some(All([ROLE_WRITE])), AccessTokenOf(administrator))
              && Serves(t, Some(All([ASSIGNMENT_WRITE])), AccessTokenOf(administrator))
  {
    RecoveryAdminsAuthenticate(t, administrator);
    assert ROLE_WRITE in [ROLE_WRITE] && ASSIGNMENT_WRITE in [ASSIGNMENT_WRITE];
  }

  /** While recovery capability is present, one administrator is served on every route that
      asks for any or all of a list of recovery permissions. */
  lemma RecoveryAdminServed(t: Tables) returns (administrator: Id)
    requires HasRecovery(t)
    ensures Authenticates(t, administrator)
    ensures forall codes :: codes != [] && Recovering(codes) ==>
              && Serves(t, Some(All(codes)), AccessTokenOf(administrator))
              && Serves(t, Some(Any(codes)), AccessTokenOf(administrator))
  {
    administrator :| administrator in RecoveryAdmins(t);
    RecoveryAdminsAuthenticate(t, administrator);
    forall codes | codes != [] && Recovering(codes)
      ensures Serves(t, Some(All(codes)), AccessTokenOf(administrator))
      ensures Serves(t, Some(Any(codes)), AccessTokenOf(administrator))
    {
      assert codes[0] in codes;
    }
  }

  predicate Recovering(codes: seq<string>) {
    forall code :: code in codes ==> code in RECOVERY
  }

  /** Every effective grant of t is still a grant of t': assignments, role rows and
      mapping rows that t uses are all present and as usable in t'. */
  ghost predicate GrantsKept(t: Tables, t': Tables) {
    && t.assignments <= t'.assignments
    && t.mappings <= t'.mappings
    && t'.permissions == t.permissions && t'.subjects == t.subjects
    && (forall r :: RoleUsable(t, r) ==> RoleUsable(t', r))
  }

  /** Recovery capability is monotone in roles, mappings and assignments. */
  lemma RecoveryMonotone(t: Tables, t': Tables)
    requires GrantsKept(t, t') && HasRecovery(t)
    ensures HasRecovery(t')
  {
    var administrator :| administrator in RecoveryAdmins(t);
    RecoveryAdminsExact(t, administrator);
    RecoveryAdminsExact(t', administrator);
    forall code | code in RECOVERY
      ensures HasPermission(t', administrator, code)
    {
      var a, m :| a in t.assignments && m in t.mappings && a.0 == administrator && Joined(t, a, m, code);
      assert Joined(t', a, m, code);
    }
  }

  // ----- The same decisions row by row -----

  /** An assignment, its role, a mapping and its permission that together grant the code. */
  ghost predicate GrantedBy(t: Tables, subject: Id, role: Id, permission: Id, code: string) {
    && (subject, role) in t.assignments && (role, permission) in t.mappings
    && role in t.roles && !t.roles[role].deleted && t.roles[role].status == RoleActive
    && permission in t.permissions && !t.permissions[permission].deleted && !t.permissions[permission].deprecated
    && t.permissions[permission].code == code
  }

  ghost predicate Granted(t: Tables, subject: Id, code: string) {
    exists role, permission :: GrantedBy(t, subject, role, permission, code)
  }

  /** The guard's query holds exactly for an active administrator with such a grant. */
  lemma DecisionRows(t: Tables, administrator: Id, code: string)
    ensures HasPermission(t, administrator, code) <==>
              && administrator in t.subjects && t.subjects[administrator].Administrator?
              && t.subjects[administrator].isActive && Granted(t, administrator, code)
  {
    if HasPermission(t, administrator, code) {
      var a, m :| a in t.assignments && m in t.mappings && a.0 == administrator && Joined(t, a, m, code);
      assert a == (administrator, m.0) && m == (m.0, m.1);
      assert GrantedBy(t, administrator, m.0, m.1, code);
    }
    if administrator in t.subjects && t.subjects[administrator].Administrator? && t.subjects[administrator].isActive
       && Granted(t, administrator, code) {
      var r, x :| GrantedBy(t, administrator, r, x, code);
      assert Joined(t, (administrator, r), (r, x), code);
    }
  }

  /** An active administrator that is not soft-deleted is granted both recovery permissions. */
  ghost predicate Recoverer(t: Tables, administrator: Id) {
    && administrator in t.subjects && t.subjects[administrator].Administrator?
    && !t.subjects[administrator].deleted && t.subjects[administrator].isActive
    && Granted(t, administrator, "authorization:role:write")
    && Granted(t, administrator, "authorization:assignment:write")
  }

  ghost predicate Recoverable(t: Tables) {
    exists administrator :: Recoverer(t, administrator)
  }

  /** The grouped and counted query finds exactly these administrators. */
  lemma RecovererExact(t: Tables, administrator: Id)
    ensures administrator in RecoveryAdmins(t) <==> Recoverer(t, administrator)
  {
    RecoveryAdminsExact(t, administrator);
    DecisionRows(t, administrator, ROLE_WRITE);
    DecisionRows(t, administrator, ASSIGNMENT_WRITE);
    assert ROLE_WRITE in RECOVERY && ASSIGNMENT_WRITE in RECOVERY;
  }

  lemma RecoverableExact(t: Tables)
    ensures HasRecovery(t) <==> Recoverable(t)
  {
    if a :| a in RecoveryAdmins(t) {
      RecovererExact(t, a);
    }
    if a :| Recoverer(t, a) {
      RecovererExact(t, a);
    }
  }

  /** A request reaches the handler of a guarded route exactly when its claims are those of an
      administration access token with a session, its administrator is active and not soft-deleted,
      and the route asks for nothing or for permissions the administrator is granted. */
  lemma ServedExact(t: Tables, codes: seq<string>, claims: AccessClaims)
    ensures var a := claims.sub;
            var authenticated := && claims.accessToken && claims.administrationRealm && claims.hasSession
                                 && a in t.subjects && t.subjects[a].Administrator?
                                 && !t.subjects[a].deleted && t.subjects[a].isActive;
            && (Serves(t, None, claims) <==> authenticated)
            && (Serves(t, Some(All(codes)), claims) <==>
                authenticated && forall code :: code in codes ==> Granted(t, a, code))
            && (Serves(t, Some(Any(codes)), claims) <==>
                authenticated && (codes == [] || exists code :: code in codes && Granted(t, a, code)))
  {
    forall code ensures HasPermission(t, claims.sub, code) <==>
        && claims.sub in t.subjects && t.subjects[claims.sub].Administrator?
        && t.subjects[claims.sub].isActive && Granted(t, claims.sub, code)
    {
      DecisionRows(t, claims.sub, code);
    }
  }

  /** Without a principal of the administration realm the guard lets pass only routes that ask for nothing. */
  lemma GuardNeedsPrincipal(t: Tables, codes: seq<string>, principal: Option<Principal>)
    requires principal.Some? ==> !principal.value.administrationRealm
    ensures CanActivate(t, None, principal)
    ensures CanActivate(t, Some(All(codes)), principal) <==> codes == []
    ensures CanActivate(t, Some(Any(codes)), principal) <==> codes == []
  {
  }

  /** Which check refuses a token. */
  lemma ValidationRefusals(t: Tables, claims: AccessClaims)
    ensures var a, formed := claims.sub, claims.accessToken && claims.administrationRealm && claims.hasSession;
            var known := a in t.subjects && t.subjects[a].Administrator? && !t.subjects[a].deleted;
            && (Validate(t, claims) == TokenInvalid <==> !formed)
            && (Validate(t, claims) == AccountNotFound <==> formed && !known)
            && (Validate(t, claims) == AccountInactive <==> formed && known && !t.subjects[a].isActive)
            && (Validate(t, claims).Authenticated? ==>
                  Validate(t, claims).principal == Principal(a, true) && Authenticates(t, a))
            && (formed && Authenticates(t, a) ==> Validate(t, claims).Authenticated?)
  {
  }
}
