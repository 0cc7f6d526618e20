/** Why a replacement on PROVIDER is not always the one-step operation: while no active OWNER
    role exists it makes no last-owner check, and createRole, which takes no lock, can
    commit an OWNER role before it commits. */
module LateOwnerRole {
  import opened Basics
  import opened AuthorizationTables
  import opened AuthorizationKernel
  import opened AuthorizationHistory
  import opened AuthorizationMachine
  import opened MachineFacts
  import opened MachineStability
  import opened InterleavingTheorems
  import opened StaleRoleRace

  /** One membership of provider 3, and no role at all. */
  function BareDb(): Db {
    var none := Tables(map[], map[], {}, {}, map[]);
    Db(none, none.(subjects := map[7 := Membership(false, 3, 5, MemberActive)]), none, map[], [])
  }

  const ASSIGN := ReplaceRoles(Platform.Provider, 7, [], 9)
  const CREATE := Op.CreateRole(Platform.Provider, 1, OWNER, "Owner", None, [], 9)

  lemma BareDbReady()
    ensures WellFormed(BareDb()) && OwnerRoles(BareDb().provider) == {}
    ensures Applicable(BareDb(), ASSIGN) && Current(BareDb(), ASSIGN) && Applicable(BareDb(), CREATE)
  {
    forall p: Platform ensures Constrained(BareDb().Of(p)) {
    }
  }

  /** A creation without permissions passes every statement. */
  lemma CreatePasses(db: Db, t: Txn)
    requires t.op == CREATE && CreateFacts(db, t) && t.pc < COMMIT && t.queue == [] && Applicable(db, CREATE)
    ensures Exec(db, t).Next? && Exec(db, t).txn.pc == t.pc + 1 && Exec(db, t).txn.queue == []
  {
    if !t.Past(WRITE_ROLE) {
      NoWritesView(db, t);
    }
  }

  lemma RunCreate(s: Sys) returns (s': Sys)
    requires WellFormed(BareDb()) && Reachable(BareDb(), s) && s.states == [BareDb()] && s.txns.Keys == {1, 2}
    requires s.txns[1].op == CREATE && s.txns[1].pc <= COMMIT && s.txns[1].queue == [] && Keyless(s.txns[2])
    requires Applicable(BareDb(), CREATE)
    ensures Reachable(BareDb(), s') && MovedTo(s, 1, COMMIT, s')
    decreases COMMIT - s.txns[1].pc
  {
    if s.txns[1].pc == COMMIT {
      s' := s;
    } else {
      ReachableFacts(BareDb(), s);
      CreatePasses(BareDb(), s.txns[1]);
      var next := RunOne(BareDb(), s, 1);
      s' := RunCreate(next);
    }
  }

  /** The replacement runs to its commit without having found an OWNER role. */
  lemma ReplacementReady() returns (s: Sys)
    ensures WellFormed(BareDb()) && Reachable(BareDb(), s) && s.states == [BareDb()] && s.txns.Keys == {2}
    ensures s.txns[2].op == ASSIGN && s.txns[2].pc == COMMIT && s.txns[2].owners == {} && Keyless(s.txns[2])
  {
    BareDbReady();
    assert IsRun([Init(BareDb())], [], BareDb());
    s := Init(BareDb()).(txns := map[2 := Start(ASSIGN)]);
    Extend(BareDb(), Init(BareDb()), Begin(2, ASSIGN), s);
    s := RunReads(BareDb(), s, 2);
    s := RunWrites(BareDb(), s, 2);
    ReachableFacts(BareDb(), s);
  }

  /** Then an OWNER role is created and committed. */
  lemma RoleCreatedMeanwhile() returns (s: Sys)
    ensures WellFormed(BareDb()) && Reachable(BareDb(), s) && s.states != [] && s.txns.Keys == {2}
    ensures s.txns[2].op == ASSIGN && s.txns[2].pc == COMMIT && s.txns[2].owners == {}
    ensures Applicable(BareDb(), CREATE) && Now(s) == Effect(BareDb(), CREATE)
  {
    BareDbReady();
    var ready := ReplacementReady();
    s := ready.(txns := ready.txns[1 := Start(CREATE)]);
    Extend(BareDb(), ready, Begin(1, CREATE), s);
    s := RunCreate(s);
    s := CommitOne(BareDb(), s, 1);
  }

  lemma LateOwnerUncounted(db: Db)
    requires Applicable(BareDb(), CREATE) && db == Effect(BareDb(), CREATE) && Applicable(db, ASSIGN)
    ensures Execute(db, ASSIGN) == Failed(ProviderLastOwnerProtection)
    ensures !OwnerKept(Effect(db, ASSIGN).provider, ProviderOf(Effect(db, ASSIGN).provider, 7), Dedup([]))
  {
    EffectShape(BareDb(), CREATE, Platform.Provider);
    EffectShape(db, ASSIGN, Platform.Provider);
    var after := Effect(db, ASSIGN).provider;
    assert 1 in OwnerRoles(after) && Holders(after, 3, 1) == {};
    ExecuteExact(db, ASSIGN);
  }

  /** The replacement still commits, although executed on this state it would be refused
      for leaving the provider without an owner. */
  lemma OvertakenByOwnerRole() returns (s: Sys)
    ensures WellFormed(BareDb()) && Reachable(BareDb(), s) && s.states != [] && s.txns.Keys == {2}
    ensures s.txns[2].pc == COMMIT && s.txns[2].op == ASSIGN && Current(Now(s), ASSIGN)
    ensures !StillCounted(Now(s), s.txns[2])
    ensures Execute(Now(s), ASSIGN) == Failed(ProviderLastOwnerProtection)
  {
    s := RoleCreatedMeanwhile();
    ReachableFacts(BareDb(), s);
    CommitIsEffect(Now(s), s.txns[2]);
    LateOwnerUncounted(Now(s));
  }
}
