/** Why the promise about deleted roles stops at ADMINISTRATION: on the other
    platforms deleteRole and replaceSubjectRoles share no lock, and one interleaving
    of the two commits an assignment to a deleted role. */
module StaleRoleRace {
  import opened Basics
  import opened AuthorizationTables
  import opened AuthorizationKernel
  import opened AuthorizationHistory
  import opened AuthorizationMachine
  import opened MachineFacts
  import opened MachineStability
  import opened MachineSafety
  import opened InterleavingTheorems

  /** No run from a database without assignments to deleted roles on p commits one. */
  ghost predicate SafeInEveryRun(p: Platform) {
    forall run, moves, db :: IsRun(run, moves, db) && WellFormed(db) && AssignmentsLive(db.Of(p)) ==>
      AssignmentsLive(Now(run[|run| - 1]).Of(p))
  }

  ghost predicate Reachable(db: Db, s: Sys) {
    exists run, moves :: IsRun(run, moves, db) && run[|run| - 1] == s
  }

  lemma Extend(db: Db, s: Sys, move: Move, s': Sys)
    requires Reachable(db, s) && WellFormed(db) && s.states != [] && StepOf(s, move, s')
    ensures s'.states != [] && Reachable(db, s')
  {
    var run, moves :| IsRun(run, moves, db) && run[|run| - 1] == s;
    assert IsRun(run + [s'], moves + [move], db);
  }

  lemma ReachableFacts(db: Db, s: Sys)
    requires Reachable(db, s) && WellFormed(db)
    ensures s.states != []
    ensures forall tid :: tid in s.txns ==> Facts(Now(s), s.txns[tid])
  {
    var run, moves :| IsRun(run, moves, db) && run[|run| - 1] == s;
    RunInv(run, moves, db, |run| - 1);
  }

  // ----- Each transaction can run to its commit while the other waits -----

  /** The reads of replaceSubjectRoles succeed on live, active roles. */
  lemma SubjectReadsPass(db: Db, t: Txn)
    requires t.op.ReplaceRoles? && !t.op.platform.Administration? && SubjectFacts(db, t) && !t.Past(VALIDATE)
    requires Applicable(db, t.op) && Current(db, t.op) && t.queue == []
    ensures Exec(db, t).Next? && Exec(db, t).txn.pc == t.pc + 1 && Exec(db, t).txn.queue == []
  {
    NoWritesView(db, t);
    ValidateRoleIdsExact(db, t.op.platform, Dedup(t.op.roleIds));
  }

  /** Another active member than the subject holds the owner role of the subject's provider. */
  ghost predicate OwnedByOther(t: Tables, subject: Id) {
    ProviderOf(t, subject).Some? ==>
      forall r :: r in OwnerRoles(t) ==>
        exists h :: h != subject && h in Holders(t, ProviderOf(t, subject).value, r)
  }

  lemma OwnerAssertionPasses(db: Db, t: Txn)
    requires t.op.ReplaceRoles? && t.op.platform == Platform.Provider && SubjectFacts(db, t) && t.pc == ASSERT_OWNER
    requires OwnedByOther(db.provider, t.op.subjectId)
    ensures OwnerCounted(View(db, t).provider, ProviderOf(View(db, t).provider, t.op.subjectId), t.owners,
                         Dedup(t.op.roleIds))
  {
    ViewShape(db, t);
    var v, provider := View(db, t).provider, ProviderOf(db.provider, t.op.subjectId);
    if provider.Some? {
      forall r | r in t.owners ensures Holders(v, provider.value, r) != {} {
        var h :| h != t.op.subjectId && h in Holders(db.provider, provider.value, r);
        assert (h, r) in v.assignments;
        assert h in Holders(v, provider.value, r);
      }
    }
  }

  /** After validation nothing stops replaceSubjectRoles, whatever happened to the roles. */
  lemma SubjectWritesPass(db: Db, t: Txn)
    requires t.op.ReplaceRoles? && !t.op.platform.Administration? && SubjectFacts(db, t) && t.Past(VALIDATE)
    requires t.pc < COMMIT
    requires t.op.platform == Platform.Provider ==> OwnedByOther(db.provider, t.op.subjectId)
    ensures Exec(db, t).Next?
    ensures Exec(db, t).txn.pc == t.pc + 1 || (Exec(db, t).txn.pc == t.pc && |Exec(db, t).txn.queue| < |t.queue|)
  {
    if t.pc == ASSERT_OWNER && t.op.platform == Platform.Provider {
      OwnerAssertionPasses(db, t);
    }
  }

  lemma DeletePasses(db: Db, t: Txn)
    requires t.op.DeleteRole? && !t.op.platform.Administration? && RoleFacts(db, t) && t.pc < COMMIT && t.queue == []
    requires Applicable(db, t.op) && Current(db, t.op)
    ensures Exec(db, t).Next? && Exec(db, t).txn.pc == t.pc + 1 && Exec(db, t).txn.queue == []
  {
    ViewShape(db, t);
    if !t.Past(WRITE_ROLE) {
      NoWritesView(db, t);
    }
  }

  /** s with transaction tid moved to its program point, everything else as it was. */
  ghost predicate MovedTo(s: Sys, tid: nat, point: nat, s': Sys) {
    && tid in s.txns && tid in s'.txns && s'.states == s.states
    && s'.txns == s.txns[tid := s'.txns[tid]]
    && s'.txns[tid].op == s.txns[tid].op && s'.txns[tid].pc == point
  }

  /** One statement of tid. */
  lemma RunOne(db: Db, s: Sys, tid: nat) returns (next: Sys)
    requires Reachable(db, s) && WellFormed(db) && s.states != [] && tid in s.txns && s.txns[tid].pc < COMMIT
    requires Exec(Now(s), s.txns[tid]).Next? && Available(s, tid, Wanted(s.txns[tid]))
    ensures Reachable(db, next) && next.states != [] && next == s.(txns := s.txns[tid := Exec(Now(s), s.txns[tid]).txn])
    ensures next.txns[tid].op == s.txns[tid].op && next.txns[tid].locks == s.txns[tid].locks + Wanted(s.txns[tid])
  {
    ExecLocks(Now(s), s.txns[tid]);
    next := s.(txns := s.txns[tid := Exec(Now(s), s.txns[tid]).txn]);
    Extend(db, s, Run(tid), next);
  }

  lemma DeleteWants(t: Txn)
    requires t.op.DeleteRole? && !t.op.platform.Administration? && t.queue == []
    ensures Wanted(t) <= {RoleLock(t.op.platform, t.op.roleId)}
  {
  }

  /** The next statement of deleteRole waits for its role lock at most, and passes. */
  lemma DeleteOne(db: Db, s: Sys, tid: nat) returns (next: Sys)
    requires Reachable(db, s) && WellFormed(db) && s.states != [] && tid in s.txns
    requires var t := s.txns[tid];
             && t.op.DeleteRole? && !t.op.platform.Administration? && t.queue == [] && t.pc < COMMIT
             && Applicable(Now(s), t.op) && Current(Now(s), t.op)
             && Available(s, tid, {RoleLock(t.op.platform, t.op.roleId)})
    ensures Reachable(db, next) && MovedTo(s, tid, s.txns[tid].pc + 1, next) && next.txns[tid].queue == []
  {
    var t := s.txns[tid];
    ReachableFacts(db, s);
    DeletePasses(Now(s), t);
    DeleteWants(t);
    next := RunOne(db, s, tid);
  }

  lemma RunDelete(db: Db, s: Sys, tid: nat) returns (s': Sys)
    requires Reachable(db, s) && WellFormed(db) && s.states != [] && tid in s.txns
    requires var t := s.txns[tid];
             && t.op.DeleteRole? && !t.op.platform.Administration? && t.queue == [] && t.pc <= COMMIT
             && Applicable(Now(s), t.op) && Current(Now(s), t.op)
             && Available(s, tid, {RoleLock(t.op.platform, t.op.roleId)})
    ensures Reachable(db, s') && MovedTo(s, tid, COMMIT, s')
    decreases COMMIT - s.txns[tid].pc
  {
    if s.txns[tid].pc == COMMIT {
      s' := s;
    } else {
      var next := DeleteOne(db, s, tid);
      s' := RunDelete(db, next, tid);
    }
  }

  /** Holds no key of a role table. */
  ghost predicate Keyless(t: Txn) {
    forall lock :: lock in t.locks ==> !lock.CodeKey? && !lock.FreshRole?
  }

  lemma RunReads(db: Db, s: Sys, tid: nat) returns (s': Sys)
    requires Reachable(db, s) && WellFormed(db) && s.states != [] && s.txns.Keys == {tid}
    requires var t := s.txns[tid];
             && t.op.ReplaceRoles? && !t.op.platform.Administration? && t.queue == [] && t.pc <= LOCK_MEMBERSHIP
             && Applicable(Now(s), t.op) && Current(Now(s), t.op)
    ensures Reachable(db, s') && MovedTo(s, tid, LOCK_MEMBERSHIP, s')
    ensures s'.txns[tid].locks <= s.txns[tid].locks + {SubjectLock(s.txns[tid].op.platform, s.txns[tid].op.subjectId)}
    ensures Keyless(s.txns[tid]) ==> Keyless(s'.txns[tid])
    decreases LOCK_MEMBERSHIP - s.txns[tid].pc
  {
    var t := s.txns[tid];
    if t.pc == LOCK_MEMBERSHIP {
      s' := s;
    } else {
      ReachableFacts(db, s);
      SubjectReadsPass(Now(s), t);
      var next := RunOne(db, s, tid);
      s' := RunReads(db, next, tid);
    }
  }

  /** The next statement of replaceSubjectRoles after validation, alone in the system. */
  lemma WriteOne(db: Db, s: Sys, tid: nat) returns (next: Sys)
    requires Reachable(db, s) && WellFormed(db) && s.states != [] && s.txns.Keys == {tid}
    requires var t := s.txns[tid];
             && t.op.ReplaceRoles? && !t.op.platform.Administration? && LOCK_MEMBERSHIP <= t.pc < COMMIT
             && (t.op.platform == Platform.Provider ==> OwnedByOther(Now(s).provider, t.op.subjectId))
    ensures Reachable(db, next) && tid in next.txns && MovedTo(s, tid, next.txns[tid].pc, next)
    ensures var t, u := s.txns[tid], next.txns[tid];
            && (u.pc == t.pc + 1 || (u.pc == t.pc && |u.queue| < |t.queue|))
            && (Keyless(t) ==> Keyless(u))
  {
    assert Facts(Now(s), s.txns[tid]) by {
      ReachableFacts(db, s);
    }
    SubjectWritesPass(Now(s), s.txns[tid]);
    next := RunOne(db, s, tid);
  }

  lemma RunWrites(db: Db, s: Sys, tid: nat) returns (s': Sys)
    requires Reachable(db, s) && WellFormed(db) && s.states != [] && s.txns.Keys == {tid}
    requires var t := s.txns[tid];
             && t.op.ReplaceRoles? && !t.op.platform.Administration? && LOCK_MEMBERSHIP <= t.pc <= COMMIT
             && (t.op.platform == Platform.Provider ==> OwnedByOther(Now(s).provider, t.op.subjectId))
    ensures Reachable(db, s') && MovedTo(s, tid, COMMIT, s')
    ensures Keyless(s.txns[tid]) ==> Keyless(s'.txns[tid])
    decreases COMMIT - s.txns[tid].pc, |s.txns[tid].queue|
  {
    if s.txns[tid].pc == COMMIT {
      s' := s;
    } else {
      var next := WriteOne(db, s, tid);
      s' := RunWrites(db, next, tid);
    }
  }

  // ----- The race -----

  function RaceSubject(p: Platform, member: Id): Subject {
    if p == Platform.Provider then Membership(false, 3, member, MemberActive) else Customer(false)
  }

  /** A custom role 1 nobody holds, the OWNER role 2 held by subject 8, and subject 7 without roles. */
  function RaceTables(p: Platform): Tables {
    Tables(map[1 := Role("AUDITOR", "Auditor", None, false, RoleActive, 1, false),
               2 := Role(OWNER, "Owner", None, true, RoleActive, 1, false)],
           map[], {}, {(8, 2)}, map[7 := RaceSubject(p, 7), 8 := RaceSubject(p, 8)])
  }

  function RaceDb(p: Platform): Db {
    Db(Tables(map[], map[], {}, {}, map[]), Tables(map[], map[], {}, {}, map[]), Tables(map[], map[], {}, {}, map[]),
       map[], [])
    .With(p, RaceTables(p))
  }

  lemma RaceDbReady(p: Platform)
    requires !p.Administration?
    ensures WellFormed(RaceDb(p)) && AssignmentsLive(RaceDb(p).Of(p))
    ensures Applicable(RaceDb(p), ReplaceRoles(p, 7, [1], 9)) && Current(RaceDb(p), ReplaceRoles(p, 7, [1], 9))
    ensures Applicable(RaceDb(p), DeleteRole(p, 1, 9)) && Current(RaceDb(p), DeleteRole(p, 1, 9))
  {
    forall q: Platform ensures Constrained(RaceDb(p).Of(q)) {
      assert RaceDb(p).Of(q) == if q == p then RaceTables(p) else Tables(map[], map[], {}, {}, map[]);
    }
  }

  lemma StillOwned()
    ensures OwnedByOther(Effect(RaceDb(Platform.Provider), DeleteRole(Platform.Provider, 1, 9)).provider, 7)
  {
    RaceDbReady(Platform.Provider);
    var t := Effect(RaceDb(Platform.Provider), DeleteRole(Platform.Provider, 1, 9)).provider;
    assert (8, 2) in t.assignments && ActiveMember(t, 8, 3);
    assert 8 in Holders(t, 3, 2);
    assert OwnerRoles(t) == {2};
  }

  /** Committing tid, ready to commit, appends the effect of its operation. */
  lemma CommitOne(db: Db, s: Sys, tid: nat) returns (next: Sys)
    requires Reachable(db, s) && WellFormed(db) && s.states != [] && tid in s.txns && s.txns[tid].pc == COMMIT
    ensures Applicable(Now(s), s.txns[tid].op)
    ensures Reachable(db, next) && next.states != [] && next.txns == s.txns - {tid}
    ensures next.states == s.states + [Effect(Now(s), s.txns[tid].op)]
  {
    ReachableFacts(db, s);
    CommitIsEffect(Now(s), s.txns[tid]);
    next := Sys(s.txns - {tid}, s.states + [View(Now(s), s.txns[tid])], s.ops + [s.txns[tid].op]);
    Extend(db, s, CommitTxn(tid), next);
  }

  lemma AssignmentRead(p: Platform) returns (s: Sys)
    requires !p.Administration?
    ensures WellFormed(RaceDb(p)) && Reachable(RaceDb(p), s) && s.states == [RaceDb(p)] && s.txns.Keys == {2}
    ensures s.txns[2].op == ReplaceRoles(p, 7, [1], 9) && s.txns[2].pc == LOCK_MEMBERSHIP
    ensures s.txns[2].locks <= {SubjectLock(p, 7)}
  {
    var db, assign := RaceDb(p), ReplaceRoles(p, 7, [1], 9);
    RaceDbReady(p);
    assert IsRun([Init(db)], [], db);
    var begun := Init(db).(txns := map[2 := Start(assign)]);
    Extend(db, Init(db), Begin(2, assign), begun);
    s := RunReads(db, begun, 2);
  }

  /** Transaction 2 reads and validates; then transaction 1 begins. */
  lemma AssignmentValidated(p: Platform) returns (s: Sys)
    requires !p.Administration?
    ensures WellFormed(RaceDb(p)) && Reachable(RaceDb(p), s) && s.states == [RaceDb(p)] && s.txns.Keys == {1, 2}
    ensures s.txns[1] == Start(DeleteRole(p, 1, 9))
    ensures s.txns[2].op == ReplaceRoles(p, 7, [1], 9) && s.txns[2].pc == LOCK_MEMBERSHIP
    ensures s.txns[2].locks <= {SubjectLock(p, 7)}
  {
    var read := AssignmentRead(p);
    s := read.(txns := read.txns[1 := Start(DeleteRole(p, 1, 9))]);
    Extend(RaceDb(p), read, Begin(1, DeleteRole(p, 1, 9)), s);
  }

  /** Transaction 1 finds the role unused and commits its deletion. */
  lemma RoleDeleted(p: Platform) returns (s: Sys)
    requires !p.Administration?
    ensures WellFormed(RaceDb(p)) && Reachable(RaceDb(p), s) && s.states != [] && s.txns.Keys == {2} && s.states != []
    ensures Applicable(RaceDb(p), DeleteRole(p, 1, 9)) && Now(s) == Effect(RaceDb(p), DeleteRole(p, 1, 9))
    ensures s.txns[2].op == ReplaceRoles(p, 7, [1], 9) && s.txns[2].pc == LOCK_MEMBERSHIP
  {
    RaceDbReady(p);
    s := AssignmentValidated(p);
    s := RunDelete(RaceDb(p), s, 1);
    s := CommitOne(RaceDb(p), s, 1);
  }

  /** replaceSubjectRoles validates role 1, deleteRole then finds it unused and commits,
      and replaceSubjectRoles still commits its assignment. */
  lemma Race(p: Platform) returns (s: Sys)
    requires !p.Administration?
    ensures Reachable(RaceDb(p), s) && s.states != [] && !AssignmentsLive(Now(s).Of(p))
  {
    s := RoleDeleted(p);
    if p == Platform.Provider {
      StillOwned();
    }
    s := RunWrites(RaceDb(p), s, 2);
    var before := Now(s);
    s := CommitOne(RaceDb(p), s, 2);
    RaceEnd(p, before);
  }

  lemma RaceEnd(p: Platform, before: Db)
    requires Applicable(RaceDb(p), DeleteRole(p, 1, 9)) && before == Effect(RaceDb(p), DeleteRole(p, 1, 9))
    requires Applicable(before, ReplaceRoles(p, 7, [1], 9))
    ensures !AssignmentsLive(Effect(before, ReplaceRoles(p, 7, [1], 9)).Of(p))
  {
    EffectShape(RaceDb(p), DeleteRole(p, 1, 9), p);
    EffectShape(before, ReplaceRoles(p, 7, [1], 9), p);
    assert 1 in Elements([1]) by {
      assert [1][0] == 1;
    }
    assert (7, 1) in Effect(before, ReplaceRoles(p, 7, [1], 9)).Of(p).assignments;
  }

  /** "No assignment refers to a deleted role" survives every interleaving on exactly
      one platform, ADMINISTRATION. */
  lemma LiveAssignmentsExactlyOnAdministration(p: Platform)
    ensures SafeInEveryRun(p) <==> p.Administration?
  {
    if p.Administration? {
      forall run, moves, db | IsRun(run, moves, db) && WellFormed(db) && AssignmentsLive(db.Of(p))
        ensures AssignmentsLive(Now(run[|run| - 1]).Of(p))
      {
        AdministrationAssignsLiveRoles(run, moves, db, |run| - 1);
      }
    } else {
      var s := Race(p);
      RaceDbReady(p);
      var run, moves :| IsRun(run, moves, RaceDb(p)) && run[|run| - 1] == s;
      assert !AssignmentsLive(Now(run[|run| - 1]).Of(p));
    }
  }
}
