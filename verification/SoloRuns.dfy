/** A transaction that runs alone: its statements end where the one-step operation ends, with the
    same database or the same refusal. So the statement programs refuse nothing else, and
    refuse nothing with another error, than the operations they spell out. */
module SoloRuns {
  import opened Basics
  import opened AuthorizationTables
  import opened RecoveryCapability
  import opened AuthorizationKernel
  import opened AuthorizationMachine
  import opened MachineFacts
  import opened MachineStability

  /** Statement after statement of one transaction, while nothing else is committed. */
  ghost predicate Trace(db: Db, trace: seq<Txn>) {
    && trace != []
    && forall i :: 0 <= i < |trace| - 1 ==> trace[i].pc < COMMIT && Exec(db, trace[i]) == Next(trace[i + 1])
  }

  /** How a trace that cannot go on has ended. */
  ghost predicate EndsWith(db: Db, last: Txn, answer: Outcome) {
    if last.pc < COMMIT then Exec(db, last).Abort? && answer == Failed(Exec(db, last).error)
    else last.pc == COMMIT && answer == Committed(View(db, last))
  }

  /** The checks a transaction has passed hold, those without a lock too: nobody has changed anything. */
  ghost predicate Passed(db: Db, t: Txn) {
    && t.pc <= COMMIT && Asserted(db, t)
    && (t.op.DeleteRole? && t.Past(COUNT_USAGE) ==> !InUse(db.Of(t.op.platform), t.op.roleId))
    && (t.op.ReplaceRoles? ==>
          && (t.Past(VALIDATE) ==> forall r :: r in t.op.roleIds ==> RoleUsable(db.Of(t.op.platform), r))
          && (t.Past(READ_OWNER) ==> t.owners == OwnerRoles(db.provider)))
  }

  ghost predicate Advances(t: Txn, u: Txn) {
    u.pc == t.pc + 1 || (u.pc == t.pc && |u.queue| < |t.queue|)
  }

  lemma RoleAdvances(v: Db, t: Txn)
    requires t.op.OnLiveRole() && t.pc < COMMIT && Statement(v, t).Next?
    ensures Advances(t, Statement(v, t).txn)
  {
  }

  lemma SubjectAdvances(v: Db, t: Txn)
    requires t.op.ReplaceRoles? && t.pc < COMMIT && Statement(v, t).Next?
    ensures Advances(t, Statement(v, t).txn)
  {
  }

  lemma ExecAdvances(db: Db, t: Txn)
    requires t.pc < COMMIT && Exec(db, t).Next?
    ensures Advances(t, Exec(db, t).txn)
  {
    var locked := t.(locks := t.locks + Wanted(t));
    if t.op.OnLiveRole() {
      RoleAdvances(View(db, t), locked);
    } else if t.op.ReplaceRoles? {
      SubjectAdvances(View(db, t), locked);
    }
  }

  lemma RolesAccepted(db: Db, t: Txn)
    requires t.op.ReplaceRoles? && t.pc == VALIDATE && SubjectReads(db, t).Next?
    ensures forall r :: r in t.op.roleIds ==> RoleUsable(db.Of(t.op.platform), r)
  {
    ValidateRoleIdsExact(db, t.op.platform, Dedup(t.op.roleIds));
    assert forall r :: r in t.op.roleIds ==> r in Dedup(t.op.roleIds);
  }

  /** A statement keeps the accepted roles and the OWNER roles that were read. */
  lemma SubjectStatementKeeps(db: Db, v: Db, t: Txn)
    requires t.op.ReplaceRoles? && t.pc < COMMIT && Statement(v, t).Next?
    requires OwnerRoles(v.provider) == OwnerRoles(db.provider)
    requires t.Past(READ_OWNER) ==> t.owners == OwnerRoles(db.provider)
    ensures var u := Statement(v, t).txn;
            && u.op == t.op && (u.Past(READ_OWNER) ==> u.owners == OwnerRoles(db.provider))
            && (u.Past(VALIDATE) ==> t.Past(VALIDATE) || (t.pc == VALIDATE && SubjectReads(v, t).Next?))
  {
  }

  lemma SubjectKeepsPassed(db: Db, t: Txn)
    requires t.op.ReplaceRoles? && Facts(db, t) && Passed(db, t) && t.pc < COMMIT && Exec(db, t).Next?
    ensures var u := Exec(db, t).txn;
            && u.op == t.op
            && (u.Past(VALIDATE) ==> forall r :: r in t.op.roleIds ==> RoleUsable(db.Of(t.op.platform), r))
            && (u.Past(READ_OWNER) ==> u.owners == OwnerRoles(db.provider))
  {
    var locked := t.(locks := t.locks + Wanted(t));
    assert OwnerRoles(View(db, t).provider) == OwnerRoles(db.provider) by {
      ViewShape(db, t);
    }
    SubjectStatementKeeps(db, View(db, t), locked);
    if t.pc == VALIDATE {
      NoWritesView(db, t);
      RolesAccepted(db, locked);
    }
  }

  lemma DeleteKeepsPassed(db: Db, t: Txn)
    requires t.op.DeleteRole? && Facts(db, t) && Passed(db, t) && t.pc < COMMIT && Exec(db, t).Next?
    ensures Exec(db, t).txn.Past(COUNT_USAGE) ==> !InUse(db.Of(t.op.platform), t.op.roleId)
  {
    if t.pc == COUNT_USAGE {
      NoWritesView(db, t);
    }
  }

  lemma ExecKeepsPassed(db: Db, t: Txn)
    requires Facts(db, t) && Passed(db, t) && t.pc < COMMIT && Exec(db, t).Next?
    ensures Passed(db, Exec(db, t).txn)
  {
    assert Exec(db, t).txn.op == t.op by {
      ExecKeepsFacts(db, t);
    }
    ExecAdvances(db, t);
    ExecKeepsAsserted(db, t);
    if t.op.ReplaceRoles? {
      SubjectKeepsPassed(db, t);
    } else if t.op.DeleteRole? {
      DeleteKeepsPassed(db, t);
    }
  }

  // ----- Refusals -----

  lemma RoleRowsAreIn(db: Db, t: Txn)
    requires t.op.OnLiveRole() && RoleFacts(db, t) && t.Past(INSERT_PAIRS)
    ensures t.op.roleId in db.Of(t.op.platform).roles
    ensures View(db, t).Of(t.op.platform) == TablesEffect(db.Of(t.op.platform), t.op)
  {
    ViewShape(db, t);
    var tables := db.Of(t.op.platform);
    assert MergeTables(tables, t.delta).roles == TablesEffect(tables, t.op).roles;
    assert MergeTables(tables, t.delta).mappings == TablesEffect(tables, t.op).mappings;
  }

  lemma SubjectRowsAreIn(db: Db, t: Txn)
    requires t.op.ReplaceRoles? && SubjectFacts(db, t) && t.Past(INSERT_PAIRS)
    ensures View(db, t).Of(t.op.platform) == TablesEffect(db.Of(t.op.platform), t.op)
  {
    ViewShape(db, t);
    var tables := db.Of(t.op.platform);
    assert MergeTables(tables, t.delta).assignments == TablesEffect(tables, t.op).assignments;
  }

  /** A role operation is refused before its first write, or by a final assertion. */
  lemma RoleReadRefusal(db: Db, t: Txn)
    requires t.op.OnLiveRole() && RoleFacts(db, t) && Passed(db, t) && t.pc < WRITE_ROLE
    requires RoleReads(db, t.(locks := t.locks + Wanted(t))).Abort?
    ensures Execute(db, t.op) == Failed(RoleReads(db, t.(locks := t.locks + Wanted(t))).error)
  {
  }

  lemma RoleWriteRefusal(db: Db, t: Txn)
    requires t.op.OnLiveRole() && RoleFacts(db, t) && t.pc == WRITE_ROLE
    requires RoleWrites(db, t.(locks := t.locks + Wanted(t))).Abort?
    ensures Execute(db, t.op) == Failed(RoleWrites(db, t.(locks := t.locks + Wanted(t))).error)
  {
  }

  lemma EarlyRoleRefusal(db: Db, t: Txn)
    requires t.op.OnLiveRole() && Facts(db, t) && Passed(db, t) && !t.Past(WRITE_ROLE) && Exec(db, t).Abort?
    ensures Execute(db, t.op) == Failed(Exec(db, t).error)
  {
    assert View(db, t) == db by {
      NoWritesView(db, t);
    }
    if t.pc == WRITE_ROLE {
      RoleWriteRefusal(db, t);
    } else {
      RoleReadRefusal(db, t);
    }
  }

  /** Which final assertion refuses a role operation, on tables that are those of its effect. */
  lemma RoleAssertions(v: Db, t: Txn)
    requires t.op.OnLiveRole() && t.Past(WRITE_ROLE) && t.pc < COMMIT && RoleWrites(v, t).Abort?
    ensures (t.pc == ASSERT_RECOVERY && t.op.platform.Administration? && !HasRecovery(v.Of(t.op.platform))
             && RoleWrites(v, t).error == LastAdminProtection)
            || (t.pc == ASSERT_OWNER && t.op.ReplacePermissions? && OnOwnerRole(t)
                && !(RoleUsable(v.provider, t.op.roleId) && v.provider.roles[t.op.roleId].code == OWNER)
                && RoleWrites(v, t).error == ProviderOwnerProtection)
  {
  }

  /** The operation passes every check before its final assertions. */
  lemma RoleGuarded(db: Db, t: Txn)
    requires t.op.OnLiveRole() && RoleFacts(db, t) && Passed(db, t) && t.Past(INSERT_PAIRS)
    ensures Applicable(db, t.op) && Execute(db, t.op) == Guarded(Effect(db, t.op), t.op)
    ensures t.role == Some(db.Of(t.op.platform).roles[t.op.roleId])
  {
  }

  lemma GuardRefuses(after: Db, op: Op)
    requires op.OnLiveRole()
    ensures op.platform.Administration? && !HasRecovery(after.administration) ==>
              Guarded(after, op) == Failed(LastAdminProtection)
    ensures op.ReplacePermissions? && op.platform == Platform.Provider && op.roleId in after.provider.roles
            && after.provider.roles[op.roleId].code == OWNER && !RoleUsable(after.provider, op.roleId) ==>
              Guarded(after, op) == Failed(ProviderOwnerProtection)
  {
  }

  /** The tables of the operation's own platform are those its effect leaves, and so is the role's code. */
  lemma RoleViewIsEffect(db: Db, t: Txn)
    requires t.op.OnLiveRole() && RoleFacts(db, t) && Passed(db, t) && t.Past(INSERT_PAIRS)
    ensures Applicable(db, t.op) && View(db, t).Of(t.op.platform) == Effect(db, t.op).Of(t.op.platform)
    ensures t.op.roleId in View(db, t).Of(t.op.platform).roles && t.role.Some?
    ensures View(db, t).Of(t.op.platform).roles[t.op.roleId].code == t.role.value.code
  {
    RoleRowsAreIn(db, t);
    RoleGuarded(db, t);
  }

  lemma RecoveryRefused(db: Db, t: Txn)
    requires t.op.OnLiveRole() && RoleFacts(db, t) && Passed(db, t) && t.Past(INSERT_PAIRS)
    requires t.op.platform.Administration? && !HasRecovery(View(db, t).administration)
    ensures Execute(db, t.op) == Failed(LastAdminProtection)
  {
    RoleViewIsEffect(db, t);
    RoleGuarded(db, t);
    GuardRefuses(Effect(db, t.op), t.op);
  }

  lemma OwnerRefused(db: Db, t: Txn)
    requires t.op.ReplacePermissions? && RoleFacts(db, t) && Passed(db, t) && t.Past(INSERT_PAIRS) && OnOwnerRole(t)
    requires !(RoleUsable(View(db, t).provider, t.op.roleId)
               && View(db, t).provider.roles[t.op.roleId].code == OWNER)
    ensures Execute(db, t.op) == Failed(ProviderOwnerProtection)
  {
    RoleViewIsEffect(db, t);
    RoleGuarded(db, t);
    GuardRefuses(Effect(db, t.op), t.op);
  }

  lemma LateRoleRefusal(db: Db, t: Txn)
    requires t.op.OnLiveRole() && RoleFacts(db, t) && Passed(db, t) && t.Past(WRITE_ROLE) && t.pc < COMMIT
    requires RoleWrites(View(db, t), t.(locks := t.locks + Wanted(t))).Abort?
    ensures Execute(db, t.op) == Failed(RoleWrites(View(db, t), t.(locks := t.locks + Wanted(t))).error)
  {
    RoleAssertions(View(db, t), t.(locks := t.locks + Wanted(t)));
    if t.pc == ASSERT_RECOVERY {
      RecoveryRefused(db, t);
    } else {
      OwnerRefused(db, t);
    }
  }

  lemma SubjectReadRefusal(db: Db, t: Txn)
    requires t.op.ReplaceRoles? && SubjectFacts(db, t) && !t.Past(READ_ASSIGNMENTS)
    requires SubjectReads(db, t.(locks := t.locks + Wanted(t))).Abort?
    ensures Execute(db, t.op) == Failed(SubjectReads(db, t.(locks := t.locks + Wanted(t))).error)
  {
  }

  lemma SubjectAssertions(v: Db, t: Txn)
    requires t.op.ReplaceRoles? && t.Past(READ_ASSIGNMENTS) && t.pc < COMMIT && SubjectWrites(v, t).Abort?
    ensures (t.pc == ASSERT_RECOVERY && t.op.platform.Administration? && !HasRecovery(v.Of(t.op.platform))
             && SubjectWrites(v, t).error == LastAdminProtection)
            || (t.pc == ASSERT_OWNER && t.op.platform == Platform.Provider
                && !OwnerCounted(v.provider, ProviderOf(v.provider, t.op.subjectId), t.owners, Dedup(t.op.roleIds))
                && SubjectWrites(v, t).error == ProviderLastOwnerProtection)
  {
  }

  lemma SubjectGuarded(db: Db, t: Txn)
    requires t.op.ReplaceRoles? && SubjectFacts(db, t) && Passed(db, t) && t.Past(INSERT_PAIRS)
    ensures Applicable(db, t.op) && Execute(db, t.op) == Guarded(Effect(db, t.op), t.op)
  {
    ValidateRoleIdsExact(db, t.op.platform, Dedup(t.op.roleIds));
  }

  /** Counted over the OWNER roles that are still active, the assertion is the operation's. */
  lemma CountedIsKept(t: Tables, op: Op)
    requires op.ReplaceRoles?
    requires !OwnerCounted(TablesEffect(t, op), ProviderOf(TablesEffect(t, op), op.subjectId), OwnerRoles(t),
                           Dedup(op.roleIds))
    ensures !OwnerKept(TablesEffect(t, op), ProviderOf(TablesEffect(t, op), op.subjectId), Dedup(op.roleIds))
  {
    assert OwnerRoles(TablesEffect(t, op)) == OwnerRoles(t);
  }

  lemma LateSubjectRefusal(db: Db, t: Txn)
    requires t.op.ReplaceRoles? && Facts(db, t) && Passed(db, t) && t.Past(READ_ASSIGNMENTS) && t.pc < COMMIT
    requires Exec(db, t).Abort?
    ensures Execute(db, t.op) == Failed(Exec(db, t).error)
  {
    SubjectAssertions(View(db, t), t.(locks := t.locks + Wanted(t)));
    SubjectRowsAreIn(db, t);
    SubjectGuarded(db, t);
    if t.pc == ASSERT_OWNER {
      CountedIsKept(db.provider, t.op);
    }
  }

  lemma SubjectRefusal(db: Db, t: Txn)
    requires t.op.ReplaceRoles? && Facts(db, t) && Passed(db, t) && t.pc < COMMIT && Exec(db, t).Abort?
    ensures Execute(db, t.op) == Failed(Exec(db, t).error)
  {
    if t.Past(READ_ASSIGNMENTS) {
      LateSubjectRefusal(db, t);
    } else {
      NoWritesView(db, t);
      SubjectReadRefusal(db, t);
    }
  }

  lemma CreateRefusal(db: Db, t: Txn)
    requires t.op.CreateRole? && Facts(db, t) && t.pc < COMMIT && Exec(db, t).Abort?
    ensures Execute(db, t.op) == Failed(Exec(db, t).error)
  {
    if t.delta == NO_WRITES {
      NoWritesView(db, t);
    }
  }

  lemma ProvisionRefusal(db: Db, t: Txn)
    requires t.op.Provision? && Facts(db, t) && t.pc < COMMIT && Exec(db, t).Abort?
    ensures Execute(db, t.op) == Failed(Exec(db, t).error)
  {
    ViewShape(db, t);
    if t.delta == NO_WRITES {
      NoWritesView(db, t);
    }
  }

  lemma ApproveRefusal(db: Db, t: Txn)
    requires t.op.Approve? && Facts(db, t) && t.pc < COMMIT && Exec(db, t).Abort?
    ensures Execute(db, t.op) == Failed(Exec(db, t).error)
  {
    if t.delta == NO_WRITES {
      NoWritesView(db, t);
    }
  }

  lemma RefusalMatches(db: Db, t: Txn)
    requires Facts(db, t) && Passed(db, t) && t.pc < COMMIT && Exec(db, t).Abort?
    ensures Execute(db, t.op) == Failed(Exec(db, t).error)
  {
    if t.op.ReplaceRoles? {
      SubjectRefusal(db, t);
    } else if t.op.CreateRole? {
      CreateRefusal(db, t);
    } else if t.op.Provision? {
      ProvisionRefusal(db, t);
    } else if t.op.Approve? {
      ApproveRefusal(db, t);
    } else if t.Past(WRITE_ROLE) {
      LateRoleRefusal(db, t);
    } else {
      EarlyRoleRefusal(db, t);
    }
  }

  lemma CommitMatches(db: Db, t: Txn)
    requires Facts(db, t) && Passed(db, t) && t.pc == COMMIT
    ensures Execute(db, t.op) == Committed(View(db, t))
  {
    CommitIsEffect(db, t);
    ExecuteExact(db, t.op);
  }

  lemma {:induction false} RunsFrom(db: Db, t: Txn) returns (trace: seq<Txn>)
    requires Facts(db, t) && Passed(db, t)
    ensures Trace(db, trace) && trace[0] == t && EndsWith(db, trace[|trace| - 1], Execute(db, t.op))
    decreases COMMIT - t.pc, |t.queue|
  {
    if t.pc == COMMIT {
      CommitMatches(db, t);
      trace := [t];
    } else if Exec(db, t).Abort? {
      RefusalMatches(db, t);
      trace := [t];
    } else {
      ExecKeepsFacts(db, t);
      ExecKeepsPassed(db, t);
      ExecAdvances(db, t);
      var rest := RunsFrom(db, Exec(db, t).txn);
      trace := [t] + rest;
    }
  }

  /** Every operation, run alone statement by statement on any database, ends: at its commit with the
      database the one-step operation leaves, or at the statement that refuses it with its error. */
  lemma RunsAlone(db: Db, op: Op) returns (trace: seq<Txn>)
    ensures Trace(db, trace) && trace[0] == Start(op) && EndsWith(db, trace[|trace| - 1], Execute(db, op))
  {
    StartFacts(db, op);
    trace := RunsFrom(db, Start(op));
  }
}
