/** The last owner while the OWNER role itself is still to be created or activated: a
    replacement that found no active OWNER role cannot take away an owner that an
    activation makes in the meantime, because both would hold the provider's owner lock. */
module OwnerActivation {
  import opened Basics
  import opened AuthorizationTables
  import opened AuthorizationKernel
  import opened AuthorizationHistory
  import opened AuthorizationMachine
  import opened MachineRely
  import opened MachineFacts
  import opened MachineStability
  import opened MachineSafety

  predicate OwnerCoded(t: Tables, role: Id) {
    role in t.roles && t.roles[role].code == OWNER
  }

  predicate IsMembership(t: Tables, m: Id) {
    m in t.subjects && t.subjects[m].Membership?
  }

  /** The OWNER roles a validated replacement lists are usable, and OWNER stays usable. */
  ghost predicate ListsUsableOwners(t: Tables, x: Txn)
    requires x.op.ReplaceRoles?
  {
    x.Past(VALIDATE) ==> forall r :: r in x.op.roleIds && OwnerCoded(t, r) ==> RoleUsable(t, r)
  }

  /** A replacement that found no active OWNER role: the membership it rewrites holds none. */
  ghost predicate HoldsNoOwner(t: Tables, x: Txn)
    requires x.op.ReplaceRoles?
  {
    x.Past(READ_OWNER) && x.owners == {} && IsMembership(t, x.op.subjectId) ==>
      forall r :: r in OwnerRoles(t) ==> (x.op.subjectId, r) !in t.assignments
  }

  /** The owner lock of the provider is held, or still queued for. */
  predicate Covers(x: Txn, provider: Id) {
    OwnerLock(provider) in x.locks || (!x.Past(LOCK_PROVIDERS) && provider in x.queue)
  }

  /** An update of an OWNER role that is not active covers every provider with a membership assigned it. */
  ghost predicate CoversHolders(t: Tables, x: Txn)
    requires x.op.UpdateRole?
  {
    x.Past(QUERY_OWNERS) && OwnerCoded(t, x.op.roleId) && !RoleUsable(t, x.op.roleId) ==>
      forall row :: row in t.assignments && row.1 == x.op.roleId && IsMembership(t, row.0) ==>
        Covers(x, t.subjects[row.0].providerId)
  }

  ghost predicate OwnerSafe(t: Tables, x: Txn) {
    x.op.Home() == Platform.Provider ==>
      && (x.op.ReplaceRoles? ==> ListsUsableOwners(t, x) && HoldsNoOwner(t, x))
      && (x.op.UpdateRole? ==> CoversHolders(t, x))
  }

  // ----- A transaction's own statements -----

  lemma ReplaceKeepsOwnerSafe(db: Db, v: Db, x: Txn)
    requires x.op.ReplaceRoles? && x.op.platform == Platform.Provider && SubjectFacts(db, x) && x.pc < COMMIT
    requires ListsUsableOwners(db.provider, x) && HoldsNoOwner(db.provider, x)
    requires x.delta == NO_WRITES ==> v == db
    requires OwnerRoles(v.provider) == OwnerRoles(db.provider) && Statement(v, x).Next?
    ensures Statement(v, x).txn.op == x.op
    ensures ListsUsableOwners(db.provider, Statement(v, x).txn) && HoldsNoOwner(db.provider, Statement(v, x).txn)
  {
    if x.pc == VALIDATE {
      ReplaceValidates(db, x);
    }
  }

  lemma ReplaceValidates(db: Db, x: Txn)
    requires x.op.ReplaceRoles? && x.op.platform == Platform.Provider && x.pc == VALIDATE && SubjectReads(db, x).Next?
    ensures forall r :: r in x.op.roleIds ==> RoleUsable(db.provider, r)
  {
    var ids := Dedup(x.op.roleIds);
    ValidateRoleIdsExact(db, Platform.Provider, ids);
    forall r | r in x.op.roleIds ensures RoleUsable(db.provider, r) {
      assert r in ids;
    }
  }

  lemma UpdateKeepsCovers(db: Db, v: Db, x: Txn)
    requires x.op.UpdateRole? && x.op.platform == Platform.Provider && RoleFacts(db, x) && x.pc < COMMIT
    requires Wanted(x) <= x.locks
    requires CoversHolders(db.provider, x) && (x.delta == NO_WRITES ==> v == db) && Statement(v, x).Next?
    ensures Statement(v, x).txn.op == x.op && CoversHolders(db.provider, Statement(v, x).txn)
  {
    if x.pc == QUERY_OWNERS {
      HoldersQueued(db, x);
    } else if x.pc == LOCK_PROVIDERS {
      QueueTaken(db, x);
    }
  }

  lemma HoldersQueued(db: Db, x: Txn)
    requires x.op.UpdateRole? && x.op.platform == Platform.Provider && RoleFacts(db, x) && x.pc == QUERY_OWNERS
    ensures CoversHolders(db.provider, RoleReads(db, x).txn)
  {
    var t := db.provider;
    if OwnerCoded(t, x.op.roleId) {
      forall row | row in t.assignments && row.1 == x.op.roleId && IsMembership(t, row.0)
        ensures t.subjects[row.0].providerId in Ascending(ProvidersOf(t, x.op.roleId))
      {
        assert t.subjects[row.0].providerId in ProvidersOf(t, x.op.roleId);
      }
    }
  }

  lemma QueueTaken(db: Db, x: Txn)
    requires x.op.UpdateRole? && x.op.platform == Platform.Provider && x.pc == LOCK_PROVIDERS && Wanted(x) <= x.locks
    requires CoversHolders(db.provider, x)
    ensures CoversHolders(db.provider, RoleReads(db, x).txn)
  {
    var u := RoleReads(db, x).txn;
    forall provider | Covers(x, provider) ensures Covers(u, provider) {
      if provider in x.queue && x.queue[0] != provider {
        var i :| 0 < i < |x.queue| && x.queue[i] == provider;
        assert x.queue[1..][i - 1] == provider;
      }
    }
  }

  lemma ViewBeforeWrites(db: Db, x: Txn)
    ensures x.delta == NO_WRITES ==> View(db, x) == db
  {
    if x.delta == NO_WRITES {
      NoWritesView(db, x);
    }
  }

  lemma ExecKeepsOwnerSafe(db: Db, x: Txn)
    requires Facts(db, x) && OwnerSafe(db.provider, x) && x.pc < COMMIT && Exec(db, x).Next?
    ensures OwnerSafe(db.provider, Exec(db, x).txn)
  {
    var locked := x.(locks := x.locks + Wanted(x));
    assert Facts(db, locked) by {
      MoreLocks(db, x, Wanted(x));
    }
    ExecLocks(db, x);
    ViewBeforeWrites(db, x);
    if x.op.Home() == Platform.Provider && x.op.ReplaceRoles? {
      ViewShape(db, x);
      ReplaceKeepsOwnerSafe(db, View(db, x), locked);
    } else if x.op.Home() == Platform.Provider && x.op.UpdateRole? {
      UpdateKeepsCovers(db, View(db, x), locked);
    }
  }

  // ----- The commits of others -----

  /** An OWNER role that is active stays active. */
  lemma OwnerStaysUsable(t: Tables, op: Op, role: Id)
    requires op.Home() == Platform.Provider && (op.OnLiveRole() ==> RoleLive(t, op.roleId))
    requires op.UpdateRole? ==> StatusChangeAllowed(Platform.Provider, t.roles[op.roleId], op.newStatus)
    requires op.DeleteRole? ==> Deletable(t.roles[op.roleId])
    requires op.CreateRole? ==> op.roleId !in t.roles
    requires OwnerCoded(t, role)
    ensures OwnerCoded(TablesEffect(t, op), role)
    ensures RoleUsable(t, role) ==> RoleUsable(TablesEffect(t, op), role)
    ensures RoleUsable(TablesEffect(t, op), role) ==> RoleUsable(t, role) || (op.UpdateRole? && op.roleId == role)
  {
  }

  lemma ListsStable(t: Tables, op: Op, x: Txn)
    requires x.op.ReplaceRoles? && ListsUsableOwners(t, x)
    requires x.Past(VALIDATE) ==> forall r :: r in x.op.roleIds ==> r in t.roles
    requires op.Home() == Platform.Provider && (op.OnLiveRole() ==> RoleLive(t, op.roleId))
    requires op.UpdateRole? ==> StatusChangeAllowed(Platform.Provider, t.roles[op.roleId], op.newStatus)
    requires op.DeleteRole? ==> Deletable(t.roles[op.roleId])
    requires op.CreateRole? ==> op.roleId !in t.roles
    ensures ListsUsableOwners(TablesEffect(t, op), x)
  {
    var t' := TablesEffect(t, op);
    if x.Past(VALIDATE) {
      forall r | r in x.op.roleIds && OwnerCoded(t', r) ensures RoleUsable(t', r) {
        assert OwnerCoded(t, r);
        OwnerStaysUsable(t, op, r);
      }
    }
  }

  /** What the two transactions hold and know, at the commit of u. */
  ghost predicate Beside(db: Db, u: Txn, x: Txn) {
    && WellFormed(db) && u.op.Home() == Platform.Provider && u.pc == COMMIT && Applicable(db, u.op)
    && Needed(db, u.op) <= u.locks && u.locks !! x.locks
    && Facts(db, x) && OwnerSafe(db.provider, u) && OwnerSafe(db.provider, x)
  }

  lemma HoldsNoOwnerStable(db: Db, u: Txn, x: Txn)
    requires Beside(db, u, x) && x.op.ReplaceRoles? && x.op.platform == Platform.Provider
    ensures HoldsNoOwner(TablesEffect(db.provider, u.op), x)
  {
    var t, t', m := db.provider, TablesEffect(db.provider, u.op), x.op.subjectId;
    assert Constrained(db.Of(Platform.Provider));
    if x.Past(READ_OWNER) && x.owners == {} && IsMembership(t', m) {
      assert SubjectLive(t, m) && IsMembership(t, m) && SubjectLock(Platform.Provider, m) in x.locks;
      assert OwnerLock(t.subjects[m].providerId) in x.locks;
      AssignmentsKept(t, u.op, m);
      forall r | r in OwnerRoles(t') ensures (m, r) !in t'.assignments {
        if (m, r) in t'.assignments {
          assert (m, r) in RowsOf(t'.assignments, m);
          ActivationExcluded(db, u, x, r);
        }
      }
    }
  }

  /** Nobody commits the activation of an OWNER role that the rewritten membership holds. */
  lemma ActivationExcluded(db: Db, u: Txn, x: Txn, r: Id)
    requires Beside(db, u, x) && x.op.ReplaceRoles? && x.op.platform == Platform.Provider
    requires x.Past(READ_OWNER) && x.owners == {} && IsMembership(db.provider, x.op.subjectId)
    requires (x.op.subjectId, r) in db.provider.assignments
    ensures r !in OwnerRoles(TablesEffect(db.provider, u.op))
  {
    var t, t', m := db.provider, TablesEffect(db.provider, u.op), x.op.subjectId;
    assert Constrained(db.Of(Platform.Provider));
    assert r in t.roles && r !in OwnerRoles(t);
    if OwnerCoded(t, r) {
      OwnerStaysUsable(t, u.op, r);
      assert u.op.UpdateRole? && u.op.roleId == r ==> Covers(u, t.subjects[(m, r).0].providerId);
    } else {
      assert t'.roles[r].code != OWNER;
    }
  }

  lemma CoversStable(db: Db, u: Txn, x: Txn)
    requires Beside(db, u, x) && x.op.UpdateRole? && x.op.platform == Platform.Provider
    ensures CoversHolders(TablesEffect(db.provider, u.op), x)
  {
    var t, t', role := db.provider, TablesEffect(db.provider, u.op), x.op.roleId;
    assert Constrained(db.Of(Platform.Provider));
    if x.Past(QUERY_OWNERS) && OwnerCoded(t', role) && !RoleUsable(t', role) {
      assert RoleLive(t, role) && OwnerCoded(t, role);
      OwnerStaysUsable(t, u.op, role);
      forall row | row in t'.assignments && row.1 == role && IsMembership(t', row.0)
        ensures Covers(x, t'.subjects[row.0].providerId)
      {
        AssignmentOld(db, u, role, row);
        assert t'.subjects[row.0] == t.subjects[row.0];
      }
    }
  }

  /** An OWNER role that is not active gets no new holder. */
  lemma AssignmentOld(db: Db, u: Txn, role: Id, row: (Id, Id))
    requires WellFormed(db) && u.op.Home() == Platform.Provider && u.pc == COMMIT && Applicable(db, u.op)
    requires OwnerSafe(db.provider, u) && OwnerCoded(db.provider, role) && !RoleUsable(db.provider, role)
    requires row in TablesEffect(db.provider, u.op).assignments && row.1 == role
    ensures row in db.provider.assignments && row.0 in db.provider.subjects
    ensures TablesEffect(db.provider, u.op).subjects[row.0] == db.provider.subjects[row.0]
  {
    var t := db.provider;
    assert Constrained(db.Of(Platform.Provider));
    assert u.op.ReplaceRoles? ==> role !in u.op.roleIds;
    assert role !in OwnerRoles(t);
  }

  lemma OthersKeepOwnerSafe(db: Db, u: Txn, x: Txn)
    requires Beside(db, u, x)
    ensures OwnerSafe(TablesEffect(db.provider, u.op), x)
  {
    if x.op.Home() == Platform.Provider && x.op.ReplaceRoles? {
      ListsStable(db.provider, u.op, x);
      HoldsNoOwnerStable(db, u, x);
    } else if x.op.Home() == Platform.Provider && x.op.UpdateRole? {
      CoversStable(db, u, x);
    }
  }

  // ----- Every reachable state -----

  ghost predicate AllOwnerSafe(s: Sys)
    requires s.states != []
  {
    forall tid :: tid in s.txns ==> OwnerSafe(Now(s).provider, s.txns[tid])
  }

  lemma CommitKeepsOwnerSafe(s: Sys, tid: nat, s': Sys)
    requires Inv(s) && AllOwnerSafe(s) && StepOf(s, CommitTxn(tid), s')
    ensures AllOwnerSafe(s')
  {
    var db, u := Now(s), s.txns[tid];
    HistoryEnd(s);
    CommitIsEffect(db, u);
    EffectShape(db, u.op, Platform.Provider);
    forall other | other in s'.txns ensures OwnerSafe(Now(s').provider, s'.txns[other]) {
      if u.op.Home() == Platform.Provider {
        assert Beside(db, u, s.txns[other]);
        OthersKeepOwnerSafe(db, u, s.txns[other]);
      }
    }
  }

  lemma BeginKeepsOwnerSafe(s: Sys, tid: nat, op: Op)
    requires s.states != [] && AllOwnerSafe(s)
    ensures AllOwnerSafe(s.(txns := s.txns[tid := Start(op)]))
  {
    assert OwnerSafe(Now(s).provider, Start(op));
  }

  lemma RunKeepsOwnerSafe(s: Sys, tid: nat, s': Sys)
    requires Inv(s) && AllOwnerSafe(s) && StepOf(s, Run(tid), s') && Exec(Now(s), s.txns[tid]).Next?
    ensures AllOwnerSafe(s')
  {
    ExecKeepsOwnerSafe(Now(s), s.txns[tid]);
  }

  lemma DropKeepsOwnerSafe(s: Sys, tid: nat)
    requires s.states != [] && AllOwnerSafe(s)
    ensures AllOwnerSafe(s.(txns := s.txns - {tid}))
  {
  }

  lemma StepKeepsOwnerSafe(s: Sys, move: Move, s': Sys)
    requires Inv(s) && AllOwnerSafe(s) && StepOf(s, move, s')
    ensures s'.states != [] && AllOwnerSafe(s')
  {
    match move
    case Begin(tid, op) => BeginKeepsOwnerSafe(s, tid, op);
    case Run(tid) =>
      if Exec(Now(s), s.txns[tid]).Next? {
        RunKeepsOwnerSafe(s, tid, s');
      } else {
        DropKeepsOwnerSafe(s, tid);
      }
    case CommitTxn(tid) => CommitKeepsOwnerSafe(s, tid, s');
    case Rollback(tid) => DropKeepsOwnerSafe(s, tid);
  }

  lemma {:induction false} RunOwnerSafe(run: seq<Sys>, moves: seq<Move>, db: Db, n: nat)
    requires IsRun(run, moves, db) && WellFormed(db) && n < |run|
    ensures AllOwnerSafe(run[n])
  {
    if n > 0 {
      RunOwnerSafe(run, moves, db, n - 1);
      RunInv(run, moves, db, n - 1);
      StepKeepsOwnerSafe(run[n - 1], moves[n - 1], run[n]);
    }
  }
}
