/** The promises of the kernel, stated for every committed state of every interleaving
    of any number of transactions. */
module InterleavingTheorems {
  import opened Basics
  import opened AuthorizationTables
  import opened RecoveryCapability
  import opened AuthorizationKernel
  import opened AuthorizationHistory
  import opened AuthorizationMachine
  import opened MachineRely
  import opened MachineFacts
  import opened MachineStability
  import opened MachineSafety
  import opened OwnerActivation

  // ----- Every commit is the one-step operation -----

  /** A replacement on PROVIDER that found no active OWNER role made no last-owner check;
      it would pass that check on the state it commits. */
  ghost predicate StillCounted(db: Db, t: Txn) {
    t.op.ReplaceRoles? && t.op.platform == Platform.Provider && t.owners == {} ==>
      var v := View(db, t).provider;
      OwnerKept(v, ProviderOf(v, t.op.subjectId), Dedup(t.op.roleIds))
  }

  /** Serializability, and exactly where it stops. On ADMINISTRATION a commit is the
      operation executed in one step on the database of that moment. Elsewhere it is so
      exactly when the role checks made without a shared lock are still current and, for a
      replacement on PROVIDER that found no active OWNER role, none has come into its way. */
  lemma CommitMatchesExecute(s: Sys, tid: nat)
    requires Inv(s) && tid in s.txns && s.txns[tid].pc == COMMIT
    ensures var db, t := Now(s), s.txns[tid];
            && (t.op.Home().Administration? ==> Execute(db, t.op) == Committed(View(db, t)))
            && (Execute(db, t.op) == Committed(View(db, t)) <==> Current(db, t.op) && StillCounted(db, t))
            && (OwnerRoles(s.states[0].provider) != {} && t.op.ReplaceRoles? ==> t.owners != {})
  {
    var db, t := Now(s), s.txns[tid];
    CommitIsEffect(db, t);
    ExecuteExact(db, t.op);
    if !(t.op.ReplaceRoles? && t.op.platform == Platform.Provider && t.owners == {}) {
      CommitProtected(s, tid);
    }
  }

  lemma CommitProtected(s: Sys, tid: nat)
    requires Inv(s) && tid in s.txns && s.txns[tid].pc == COMMIT
    requires !(s.txns[tid].op.ReplaceRoles? && s.txns[tid].op.platform == Platform.Provider && s.txns[tid].owners == {})
    ensures Protected(View(Now(s), s.txns[tid]), s.txns[tid].op)
  {
    var db, t := Now(s), s.txns[tid];
    ViewShape(db, t);
    if t.op.ReplaceRoles? && t.op.platform == Platform.Provider {
      assert t.owners == OwnerRoles(db.provider);
    }
  }

  // ----- Recovery administrators -----

  /** createRole, which takes no lock, only adds grants. */
  lemma CreateAddsGrants(t: Tables, op: Op)
    requires op.CreateRole? && op.roleId !in t.roles
    ensures GrantsKept(t, TablesEffect(t, op))
  {
  }

  lemma RecoveryCommit(s: Sys, tid: nat)
    requires Inv(s) && tid in s.txns && s.txns[tid].pc == COMMIT && HasRecovery(Now(s).administration)
    ensures HasRecovery(View(Now(s), s.txns[tid]).administration)
  {
    var db, t := Now(s), s.txns[tid];
    CommitIsEffect(db, t);
    EffectShape(db, t.op, Administration);
    if !t.op.Home().Administration? {
      assert View(db, t).administration == db.administration;
    } else if t.op.CreateRole? {
      CreateAddsGrants(db.administration, t.op);
      RecoveryMonotone(db.administration, View(db, t).administration);
    } else {
      CommitProtected(s, tid);
    }
  }

  lemma StatesGrow(s: Sys, move: Move, s': Sys)
    requires s.states != [] && StepOf(s, move, s')
    ensures s.states <= s'.states && |s'.states| <= |s.states| + 1
    ensures |s'.states| > |s.states| ==> move.CommitTxn? && move.tid in s.txns && s.txns[move.tid].pc == COMMIT
                                         && Now(s') == View(Now(s), s.txns[move.tid])
  {
  }

  /** What the n-th move of a run commits, if it commits. */
  lemma NthMove(run: seq<Sys>, moves: seq<Move>, db: Db, n: nat)
    requires IsRun(run, moves, db) && WellFormed(db) && 0 < n < |run|
    ensures Inv(run[n - 1]) && run[n - 1].states[0] == db
    ensures run[n - 1].states <= run[n].states && |run[n].states| <= |run[n - 1].states| + 1
    ensures |run[n].states| > |run[n - 1].states| ==>
              var s, tid := run[n - 1], moves[n - 1].tid;
              tid in s.txns && s.txns[tid].pc == COMMIT && run[n].states[|s.states|] == View(Now(s), s.txns[tid])
  {
    RunInv(run, moves, db, n - 1);
    StatesGrow(run[n - 1], moves[n - 1], run[n]);
  }

  lemma RecoveryMove(run: seq<Sys>, moves: seq<Move>, db: Db, n: nat)
    requires IsRun(run, moves, db) && WellFormed(db) && 0 < n < |run|
    ensures run[n - 1].states != [] && run[n - 1].states <= run[n].states && |run[n].states| <= |run[n - 1].states| + 1
    ensures HasRecovery(Now(run[n - 1]).administration) ==> HasRecovery(Now(run[n]).administration)
  {
    NthMove(run, moves, db, n);
    if |run[n].states| > |run[n - 1].states| && HasRecovery(Now(run[n - 1]).administration) {
      RecoveryCommit(run[n - 1], moves[n - 1].tid);
    }
  }

  ghost predicate AlwaysRecoverable(states: seq<Db>) {
    forall k :: 0 <= k < |states| ==> HasRecovery(states[k].administration)
  }

  lemma GrownRecoverable(states: seq<Db>, more: seq<Db>)
    requires AlwaysRecoverable(states) && states <= more && 0 < |more| <= |states| + 1
    requires HasRecovery(more[|more| - 1].administration)
    ensures AlwaysRecoverable(more)
  {
  }

  lemma RecoverableMove(run: seq<Sys>, moves: seq<Move>, db: Db, n: nat)
    requires IsRun(run, moves, db) && WellFormed(db) && 0 < n < |run| && AlwaysRecoverable(run[n - 1].states)
    ensures AlwaysRecoverable(run[n].states)
  {
    RecoveryMove(run, moves, db, n);
    assert HasRecovery(Now(run[n - 1]).administration);
    GrownRecoverable(run[n - 1].states, run[n].states);
  }

  lemma {:induction false} StatesRecoverable(run: seq<Sys>, moves: seq<Move>, db: Db, n: nat)
    requires IsRun(run, moves, db) && WellFormed(db) && HasRecovery(db.administration) && n < |run|
    ensures AlwaysRecoverable(run[n].states)
  {
    if n > 0 {
      StatesRecoverable(run, moves, db, n - 1);
      RecoverableMove(run, moves, db, n);
    }
  }

  /** Never lose the last administrator: every state committed by any interleaving has an
      active, non-deleted administrator holding both recovery permissions, if the first has. */
  lemma RecoveryInEveryInterleaving(run: seq<Sys>, moves: seq<Move>, db: Db, n: nat, k: nat)
    requires IsRun(run, moves, db) && WellFormed(db) && HasRecovery(db.administration)
    requires n < |run| && k < |run[n].states|
    ensures HasRecovery(run[n].states[k].administration)
  {
    StatesRecoverable(run, moves, db, n);
  }

  /** So in every committed state some administrator's requests are served on the role-write and
      assignment-write routes, and on any other that asks for recovery permissions. */
  lemma GuardPassableInEveryInterleaving(run: seq<Sys>, moves: seq<Move>, db: Db, n: nat, k: nat)
    returns (administrator: Id)
    requires IsRun(run, moves, db) && WellFormed(db) && HasRecovery(db.administration)
    requires n < |run| && k < |run[n].states|
    ensures Authenticates(run[n].states[k].administration, administrator)
    ensures forall codes :: codes != [] && Recovering(codes) ==>
              Serves(run[n].states[k].administration, Some(All(codes)), AccessTokenOf(administrator))
  {
    RecoveryInEveryInterleaving(run, moves, db, n, k);
    administrator := RecoveryAdminServed(run[n].states[k].administration);
  }

  // ----- Provider owners -----

  lemma OwnerKeptByReplace(t: Tables, op: Op, provider: Id)
    requires op.ReplaceRoles? && HasOwner(t, provider)
    requires OwnerCounted(TablesEffect(t, op), ProviderOf(t, op.subjectId), OwnerRoles(t), Dedup(op.roleIds))
    ensures HasOwner(TablesEffect(t, op), provider)
  {
    var t' := TablesEffect(t, op);
    var r :| r in OwnerRoles(t) && Holders(t, provider, r) != {};
    var holder :| holder in Holders(t, provider, r);
    assert r in OwnerRoles(t');
    if holder != op.subjectId || r in op.roleIds {
      assert (holder, r) in t'.assignments;
      assert holder in Holders(t', provider, r);
    }
  }

  /** Rewriting the roles of a membership that holds no active OWNER role takes no owner away. */
  lemma OwnerKeptByOutsider(t: Tables, op: Op, provider: Id)
    requires op.ReplaceRoles? && HasOwner(t, provider)
    requires IsMembership(t, op.subjectId) ==> forall r :: r in OwnerRoles(t) ==> (op.subjectId, r) !in t.assignments
    ensures HasOwner(TablesEffect(t, op), provider)
  {
    var t' := TablesEffect(t, op);
    var r :| r in OwnerRoles(t) && Holders(t, provider, r) != {};
    var holder :| holder in Holders(t, provider, r);
    assert IsMembership(t, holder) && (holder, r) in t.assignments;
    assert r in OwnerRoles(t') && (holder, r) in t'.assignments;
    assert holder in Holders(t', provider, r);
  }

  lemma OwnerKeptByOthers(t: Tables, op: Op, provider: Id)
    requires HasOwner(t, provider) && !op.ReplaceRoles?
    requires op.OnLiveRole() ==> op.roleId in t.roles
    requires op.Provision? ==> op.membershipId !in t.subjects
    requires OwnerRoles(TablesEffect(t, op)) == OwnerRoles(t)
    ensures HasOwner(TablesEffect(t, op), provider)
  {
    var t' := TablesEffect(t, op);
    var r :| r in OwnerRoles(t) && Holders(t, provider, r) != {};
    var holder :| holder in Holders(t, provider, r);
    assert (holder, r) in t'.assignments;
    assert holder in Holders(t', provider, r);
  }

  lemma OwnerKeptByEffect(db: Db, op: Op, provider: Id)
    requires Applicable(db, op) && WellFormed(db) && HasOwner(db.provider, provider)
    requires !(op.ReplaceRoles? && op.platform == Platform.Provider)
    ensures HasOwner(Effect(db, op).provider, provider)
  {
    EffectShape(db, op, Platform.Provider);
    if op.Home() == Platform.Provider {
      assert Constrained(db.Of(Platform.Provider));
      OwnerRolesKept(db.provider, op);
      OwnerKeptByOthers(db.provider, op, provider);
    }
  }

  lemma ReplacementCommit(s: Sys, tid: nat, provider: Id)
    requires Inv(s) && AllOwnerSafe(s) && tid in s.txns && s.txns[tid].pc == COMMIT
    requires s.txns[tid].op.ReplaceRoles? && s.txns[tid].op.platform == Platform.Provider
    requires HasOwner(Now(s).provider, provider)
    ensures HasOwner(View(Now(s), s.txns[tid]).provider, provider)
  {
    var db, t := Now(s), s.txns[tid];
    CommitIsEffect(db, t);
    EffectShape(db, t.op, Platform.Provider);
    if t.owners == {} {
      assert HoldsNoOwner(db.provider, t);
      OwnerKeptByOutsider(db.provider, t.op, provider);
    } else {
      assert t.owners == OwnerRoles(db.provider);
      OwnerKeptByReplace(db.provider, t.op, provider);
    }
  }

  lemma OwnerCommit(s: Sys, tid: nat, provider: Id)
    requires Inv(s) && AllOwnerSafe(s) && tid in s.txns && s.txns[tid].pc == COMMIT
    requires HasOwner(Now(s).provider, provider)
    ensures HasOwner(View(Now(s), s.txns[tid]).provider, provider)
  {
    var db, t := Now(s), s.txns[tid];
    if t.op.ReplaceRoles? && t.op.platform == Platform.Provider {
      ReplacementCommit(s, tid, provider);
    } else {
      HistoryEnd(s);
      CommitIsEffect(db, t);
      OwnerKeptByEffect(db, t.op, provider);
    }
  }

  /** The states of a system grown by at most the commit of transaction tid. */
  ghost predicate GrownBy(s: Sys, tid: nat, states: seq<Db>)
    requires s.states != []
  {
    && s.states <= states && |states| <= |s.states| + 1
    && (|states| > |s.states| ==>
          tid in s.txns && s.txns[tid].pc == COMMIT && states[|s.states|] == View(Now(s), s.txns[tid]))
  }

  lemma OwnerGrowth(s: Sys, tid: nat, states: seq<Db>, provider: Id)
    requires Inv(s) && AllOwnerSafe(s) && GrownBy(s, tid, states)
    ensures HasOwner(Now(s).provider, provider) ==> HasOwner(states[|states| - 1].provider, provider)
  {
    if |states| > |s.states| && HasOwner(Now(s).provider, provider) {
      OwnerCommit(s, tid, provider);
    }
  }

  lemma OwnerGrowthAt(run: seq<Sys>, moves: seq<Move>, db: Db, m: nat, tid: nat, states: seq<Db>, provider: Id)
    requires IsRun(run, moves, db) && WellFormed(db) && m < |run| && run[m].states != [] && GrownBy(run[m], tid, states)
    ensures HasOwner(Now(run[m]).provider, provider) ==> HasOwner(states[|states| - 1].provider, provider)
  {
    RunInv(run, moves, db, m);
    RunOwnerSafe(run, moves, db, m);
    OwnerGrowth(run[m], tid, states, provider);
  }

  lemma NthGrowth(run: seq<Sys>, moves: seq<Move>, db: Db, n: nat) returns (tid: nat)
    requires IsRun(run, moves, db) && WellFormed(db) && 0 < n < |run|
    ensures run[n - 1].states != [] && GrownBy(run[n - 1], tid, run[n].states)
  {
    NthMove(run, moves, db, n);
    tid := if |run[n].states| > |run[n - 1].states| then moves[n - 1].tid else 0;
  }

  lemma OwnerMove(run: seq<Sys>, moves: seq<Move>, db: Db, provider: Id, n: nat)
    requires IsRun(run, moves, db) && WellFormed(db) && 0 < n < |run|
    ensures run[n - 1].states != [] && run[n - 1].states <= run[n].states && |run[n].states| <= |run[n - 1].states| + 1
    ensures HasOwner(Now(run[n - 1]).provider, provider) ==> HasOwner(Now(run[n]).provider, provider)
  {
    var tid := NthGrowth(run, moves, db, n);
    OwnerGrowthAt(run, moves, db, n - 1, tid, run[n].states, provider);
  }

  /** Never lose the last owner: a provider that has an active owner in one committed state
      has one in every later committed state of every interleaving, whether or not the run
      began with an active OWNER role. */
  lemma {:induction false} OwnerInEveryInterleaving(run: seq<Sys>, moves: seq<Move>, db: Db, provider: Id, n: nat,
                                                    i: nat, k: nat)
    requires IsRun(run, moves, db) && WellFormed(db)
    requires n < |run| && i <= k < |run[n].states| && HasOwner(run[n].states[i].provider, provider)
    ensures HasOwner(run[n].states[k].provider, provider)
    decreases n, k
  {
    if n > 0 && i < k {
      OwnerMove(run, moves, db, provider, n);
      OwnerInEveryInterleaving(run, moves, db, provider, n - 1, i, if k < |run[n - 1].states| then k else k - 1);
    }
  }

  /** Provider creation commits together with its first active owner. */
  lemma ProvisionHasOwner(db: Db, op: Op)
    requires op.Provision? && Applicable(db, op)
    ensures HasOwner(Effect(db, op).provider, op.providerId)
  {
    var t := Effect(db, op).provider;
    var r :| r in OwnerRoles(db.provider);
    assert r in OwnerRoles(t);
    assert (op.membershipId, r) in t.assignments;
    assert op.membershipId in Holders(t, op.providerId, r);
  }

  /** Every provider created during a run has an active owner from its creation on. */
  lemma CreatedProviderKeepsOwner(run: seq<Sys>, moves: seq<Move>, db: Db, n: nat, i: nat, k: nat)
    requires IsRun(run, moves, db) && WellFormed(db) && n < |run|
    requires i < |run[n].ops| && run[n].ops[i].Provision? && i < k < |run[n].states|
    ensures HasOwner(run[n].states[k].provider, run[n].ops[i].providerId)
  {
    RunInv(run, moves, db, n);
    ProvisionHasOwner(run[n].states[i], run[n].ops[i]);
    OwnerInEveryInterleaving(run, moves, db, run[n].ops[i].providerId, n, i + 1, k);
  }

  // ----- What an uncounted replacement can miss -----

  /** An OWNER role, active by now, that the replacement leaves its provider without: nobody of
      the provider holds it and the replacement does not give it. */
  predicate LeavesUnheld(t: Tables, op: Op, r: Id)
    requires op.ReplaceRoles?
  {
    && r in OwnerRoles(t) && r !in op.roleIds
    && ProviderOf(t, op.subjectId).Some? && Holders(t, ProviderOf(t, op.subjectId).value, r) == {}
  }

  /** Rewriting a membership that holds no active OWNER role changes no holder of one it is not given. */
  lemma HoldersUntouched(t: Tables, op: Op, provider: Id, r: Id)
    requires op.ReplaceRoles? && r in OwnerRoles(t) && r !in op.roleIds
    requires IsMembership(t, op.subjectId) ==> (op.subjectId, r) !in t.assignments
    ensures Holders(TablesEffect(t, op), provider, r) == Holders(t, provider, r)
  {
    var t' := TablesEffect(t, op);
    forall h ensures h in Holders(t', provider, r) <==> h in Holders(t, provider, r) {
      assert (h, r) in t'.assignments && IsMembership(t, h) <==> (h, r) in t.assignments && IsMembership(t, h);
    }
  }

  lemma CountedAfter(t: Tables, op: Op)
    requires op.ReplaceRoles?
    requires IsMembership(t, op.subjectId) ==> forall r :: r in OwnerRoles(t) ==> (op.subjectId, r) !in t.assignments
    ensures OwnerKept(TablesEffect(t, op), ProviderOf(TablesEffect(t, op), op.subjectId), Dedup(op.roleIds))
            <==> !exists r :: LeavesUnheld(t, op, r)
  {
    var t' := TablesEffect(t, op);
    var provider := ProviderOf(t, op.subjectId);
    assert OwnerRoles(t') == OwnerRoles(t) && ProviderOf(t', op.subjectId) == provider;
    if provider.Some? {
      forall r | r in OwnerRoles(t) && r !in op.roleIds
        ensures Holders(t', provider.value, r) == {} <==> LeavesUnheld(t, op, r)
      {
        HoldersUntouched(t, op, provider.value, r);
      }
    }
  }

  /** A replacement on PROVIDER that found no active OWNER role commits what Execute would,
      exactly unless a listed role was disabled or deleted since it was validated, or an OWNER
      role became active that nobody of the provider holds and the replacement does not give. */
  lemma UncountedMatchesExactly(s: Sys, tid: nat)
    requires Inv(s) && AllOwnerSafe(s) && tid in s.txns && s.txns[tid].pc == COMMIT
    requires s.txns[tid].op.ReplaceRoles? && s.txns[tid].op.platform == Platform.Provider && s.txns[tid].owners == {}
    ensures var db, t := Now(s), s.txns[tid];
            && OwnerRoles(s.states[0].provider) == {}
            && (StillCounted(db, t) <==> !exists r :: LeavesUnheld(db.provider, t.op, r))
            && (Execute(db, t.op) == Committed(View(db, t)) <==>
                  && (forall r :: r in t.op.roleIds ==> RoleUsable(db.provider, r))
                  && !exists r :: LeavesUnheld(db.provider, t.op, r))
  {
    var db, t := Now(s), s.txns[tid];
    CommitIsEffect(db, t);
    EffectShape(db, t.op, Platform.Provider);
    assert HoldsNoOwner(db.provider, t);
    CountedAfter(db.provider, t.op);
    CommitMatchesExecute(s, tid);
  }

  // ----- Protected roles -----

  /** In every interleaving a live system role keeps its status and is never deleted. */
  lemma SystemRoleInEveryInterleaving(run: seq<Sys>, moves: seq<Move>, db: Db, p: Platform, role: Id, n: nat, i: nat,
                                      k: nat)
    requires IsRun(run, moves, db) && WellFormed(db) && n < |run| && i <= k < |run[n].states|
    requires role in run[n].states[i].Of(p).roles
    requires run[n].states[i].Of(p).roles[role].isSystem && !run[n].states[i].Of(p).roles[role].deleted
    ensures role in run[n].states[k].Of(p).roles
    ensures var row, row' := run[n].states[i].Of(p).roles[role], run[n].states[k].Of(p).roles[role];
            row'.isSystem && !row'.deleted && row'.status == row.status
  {
    RunInv(run, moves, db, n);
    SystemRoleKept(run[n].states, run[n].ops, p, role, i, k);
  }

  // ----- Assignments to deleted roles -----

  ghost predicate AssignmentsLive(t: Tables) {
    forall row :: row in t.assignments ==> RoleLive(t, row.1)
  }

  /** With both checks current, no assignment to a deleted role appears. */
  lemma EffectAssignmentsLive(db: Db, op: Op, p: Platform)
    requires Applicable(db, op) && AssignmentsLive(db.Of(p))
    requires op.Home() == p ==> Current(db, op)
    ensures AssignmentsLive(Effect(db, op).Of(p))
  {
    EffectShape(db, op, p);
  }

  /** On ADMINISTRATION no interleaving commits an assignment to a deleted role. */
  lemma {:induction false} AdministrationAssignsLiveRoles(run: seq<Sys>, moves: seq<Move>, db: Db, n: nat)
    requires IsRun(run, moves, db) && WellFormed(db) && AssignmentsLive(db.administration) && n < |run|
    ensures AssignmentsLive(Now(run[n]).administration)
  {
    if n > 0 {
      AdministrationAssignsLiveRoles(run, moves, db, n - 1);
      NthMove(run, moves, db, n);
      if |run[n].states| > |run[n - 1].states| {
        var before, t := Now(run[n - 1]), run[n - 1].txns[moves[n - 1].tid];
        CommitIsEffect(before, t);
        EffectAssignmentsLive(before, t.op, Administration);
      }
    }
  }

  // ----- One-step runs -----

  /** Operations executed one after the other; a rejected one changes nothing. */
  function Serial(db: Db, ops: seq<Op>): Db {
    if ops == [] then db
    else
      var before := Serial(db, ops[..|ops| - 1]);
      var outcome := Execute(before, ops[|ops| - 1]);
      if outcome.Committed? then outcome.db else before
  }

  /** When every transaction runs in one step, no platform ever assigns a deleted role. */
  lemma {:induction false} SerialAssignsLiveRoles(db: Db, ops: seq<Op>, p: Platform)
    requires AssignmentsLive(db.Of(p))
    ensures AssignmentsLive(Serial(db, ops).Of(p))
  {
    if ops != [] {
      SerialAssignsLiveRoles(db, ops[..|ops| - 1], p);
      var before := Serial(db, ops[..|ops| - 1]);
      ExecuteExact(before, ops[|ops| - 1]);
      if Execute(before, ops[|ops| - 1]).Committed? {
        EffectAssignmentsLive(before, ops[|ops| - 1], p);
      }
    }
  }
}
