/** What every sequence of committed mutations keeps: table constraints, role
    versions that count audit rows, no lost update, nothing after a deletion, and
    an audit log from which mappings and assignments can be replayed. A history
    fixes only the effects of commits, so it covers serial runs and interleaved ones. */
module AuthorizationHistory {
  import opened Basics
  import opened AuthorizationTables
  import opened AuthorizationKernel

  ghost predicate IsHistory(states: seq<Db>, ops: seq<Op>) {
    && |states| == |ops| + 1
    && forall i :: 0 <= i < |ops| ==> Applicable(states[i], ops[i]) && states[i + 1] == Effect(states[i], ops[i])
  }

  ghost predicate WellFormed(db: Db) {
    forall p: Platform :: Constrained(db.Of(p))
  }

  /** A commit rewrites the tables of its own platform and appends its audit row. */
  lemma EffectShape(db: Db, op: Op, p: Platform)
    requires Applicable(db, op)
    ensures Effect(db, op).Of(p) == if p == op.Home() then TablesEffect(db.Of(p), op) else db.Of(p)
    ensures Effect(db, op).audit == db.audit + EventsOf(op, BeforeOf(db, op))
  {
  }

  // ----- Table constraints -----

  lemma EffectConstrained(db: Db, op: Op)
    requires WellFormed(db) && Applicable(db, op)
    ensures WellFormed(Effect(db, op))
  {
    var t := db.Of(op.Home());
    assert Constrained(t);
    var t' := TablesEffect(t, op);
    if op.CreateRole? || op.ReplacePermissions? {
      ValidatePermissionsExact(db, op.platform, Dedup(op.permissionIds));
      forall id | id in op.permissionIds ensures id in t.permissions {
        assert id in Elements(Dedup(op.permissionIds));
      }
    }
    assert Constrained(t');
    forall p: Platform ensures Constrained(Effect(db, op).Of(p)) {
      assert Constrained(db.Of(p));
      EffectShape(db, op, p);
    }
  }

  lemma {:induction false} HistoryWellFormed(states: seq<Db>, ops: seq<Op>, i: nat)
    requires IsHistory(states, ops) && WellFormed(states[0]) && i < |states|
    ensures WellFormed(states[i])
  {
    if i > 0 {
      HistoryWellFormed(states, ops, i - 1);
      EffectConstrained(states[i - 1], ops[i - 1]);
    }
  }

  // ----- Versions and audit rows -----

  function RoleEvents(audit: seq<Event>, p: Platform, role: Id): nat {
    if audit == [] then 0
    else RoleEvents(audit[..|audit| - 1], p, role) + if audit[|audit| - 1].TargetsRole(p, role) then 1 else 0
  }

  lemma {:induction false} RoleEventsAppend(audit: seq<Event>, more: seq<Event>, p: Platform, role: Id)
    requires |more| <= 1
    ensures RoleEvents(audit + more, p, role) ==
            RoleEvents(audit, p, role) + if more != [] && more[0].TargetsRole(p, role) then 1 else 0
  {
    if more == [] {
      assert audit + more == audit;
    } else {
      assert (audit + more)[..|audit + more| - 1] == audit;
    }
  }

  lemma VersionStep(db: Db, op: Op, p: Platform, role: Id)
    requires Applicable(db, op)
    requires RoleEvents(db.audit, p, role) == if role in db.Of(p).roles then db.Of(p).roles[role].version else 0
    ensures var db' := Effect(db, op);
            RoleEvents(db'.audit, p, role) == if role in db'.Of(p).roles then db'.Of(p).roles[role].version else 0
  {
    EffectShape(db, op, p);
    RoleEventsAppend(db.audit, EventsOf(op, BeforeOf(db, op)), p, role);
  }

  /** The version of a role created in the history counts the audit rows on it. */
  lemma {:induction false} VersionCountsEvents(states: seq<Db>, ops: seq<Op>, p: Platform, role: Id, n: nat)
    requires IsHistory(states, ops) && n < |states|
    requires role !in states[0].Of(p).roles && RoleEvents(states[0].audit, p, role) == 0
    ensures RoleEvents(states[n].audit, p, role) ==
            if role in states[n].Of(p).roles then states[n].Of(p).roles[role].version else 0
  {
    if n > 0 {
      VersionCountsEvents(states, ops, p, role, n - 1);
      VersionStep(states[n - 1], ops[n - 1], p, role);
    }
  }

  lemma RoleRowStep(db: Db, op: Op, p: Platform, role: Id)
    requires Applicable(db, op) && role in db.Of(p).roles
    ensures var row, rows := db.Of(p).roles[role], Effect(db, op).Of(p).roles;
            && role in rows && rows[role].code == row.code && rows[role].isSystem == row.isSystem
            && rows[role].version == row.version
                + (if op.Home() == p && op.OnLiveRole() && op.roleId == role then 1 else 0)
            && (row.deleted ==> rows[role] == row)
  {
    EffectShape(db, op, p);
  }

  /** A role row never disappears, its version never falls, its code and system
      flag never change, and once deleted the row never changes at all. */
  lemma {:induction false} RoleRowMonotone(states: seq<Db>, ops: seq<Op>, p: Platform, role: Id, i: nat, j: nat)
    requires IsHistory(states, ops) && i <= j < |states|
    requires role in states[i].Of(p).roles
    ensures role in states[j].Of(p).roles
    ensures states[i].Of(p).roles[role].version <= states[j].Of(p).roles[role].version
    ensures states[i].Of(p).roles[role].code == states[j].Of(p).roles[role].code
    ensures states[i].Of(p).roles[role].isSystem == states[j].Of(p).roles[role].isSystem
    ensures states[i].Of(p).roles[role].deleted ==> states[j].Of(p).roles[role] == states[i].Of(p).roles[role]
    decreases j
  {
    if i < j {
      RoleRowMonotone(states, ops, p, role, i, j - 1);
      RoleRowStep(states[j - 1], ops[j - 1], p, role);
    }
  }

  /** No lost update: of two committed versioned writes to one role, the later one
      expected a strictly larger version. */
  lemma NoLostUpdate(states: seq<Db>, ops: seq<Op>, i: nat, j: nat)
    requires IsHistory(states, ops) && i < j < |ops|
    requires ops[i].Versioned() && ops[j].Versioned()
    requires ops[i].platform == ops[j].platform && ops[i].roleId == ops[j].roleId
    ensures ops[i].expectedVersion < ops[j].expectedVersion
  {
    RoleRowStep(states[i], ops[i], ops[i].platform, ops[i].roleId);
    RoleRowMonotone(states, ops, ops[i].platform, ops[i].roleId, i + 1, j);
  }

  /** Nothing commits on a role after its deletion: no later create, update,
      permission change or second deletion names it, and its row stays as deleted. */
  lemma DeletionIsFinal(states: seq<Db>, ops: seq<Op>, i: nat, j: nat)
    requires IsHistory(states, ops) && i < j < |ops|
    requires ops[i].DeleteRole? && (ops[j].OnLiveRole() || ops[j].CreateRole?)
    requires ops[i].platform == ops[j].platform
    ensures ops[i].roleId != ops[j].roleId
    ensures ops[i].roleId in states[j].Of(ops[i].platform).roles
    ensures states[j].Of(ops[i].platform).roles[ops[i].roleId] == states[i + 1].Of(ops[i].platform).roles[ops[i].roleId]
  {
    EffectShape(states[i], ops[i], ops[i].platform);
    RoleRowMonotone(states, ops, ops[i].platform, ops[i].roleId, i + 1, j);
  }

  /** The status rules, on the row: a live system role is neither switched nor deleted, and the
      live OWNER role of PROVIDER is neither disabled nor deleted. */
  lemma ProtectedRowStep(db: Db, op: Op, p: Platform, role: Id)
    requires Applicable(db, op) && role in db.Of(p).roles && !db.Of(p).roles[role].deleted
    ensures role in Effect(db, op).Of(p).roles
    ensures var row, row' := db.Of(p).roles[role], Effect(db, op).Of(p).roles[role];
            && (row.isSystem ==> row'.isSystem && !row'.deleted && row'.status == row.status)
            && (p == Platform.Provider && row.code == "OWNER" ==>
                row'.code == "OWNER" && !row'.deleted && (row.status == RoleActive ==> row'.status == RoleActive))
  {
    EffectShape(db, op, p);
  }

  /** A system role that was live once keeps its status and is never deleted. */
  lemma {:induction false} SystemRoleKept(states: seq<Db>, ops: seq<Op>, p: Platform, role: Id, i: nat, j: nat)
    requires IsHistory(states, ops) && i <= j < |states| && role in states[i].Of(p).roles
    requires states[i].Of(p).roles[role].isSystem && !states[i].Of(p).roles[role].deleted
    ensures role in states[j].Of(p).roles
    ensures var row, row' := states[i].Of(p).roles[role], states[j].Of(p).roles[role];
            row'.isSystem && !row'.deleted && row'.status == row.status
    decreases j
  {
    if i < j {
      SystemRoleKept(states, ops, p, role, i, j - 1);
      ProtectedRowStep(states[j - 1], ops[j - 1], p, role);
    }
  }

  /** The OWNER role of PROVIDER, custom or not, stays live with its code and, once active, active. */
  lemma {:induction false} OwnerRoleKept(states: seq<Db>, ops: seq<Op>, role: Id, i: nat, j: nat)
    requires IsHistory(states, ops) && i <= j < |states| && role in states[i].provider.roles
    requires states[i].provider.roles[role].code == "OWNER" && !states[i].provider.roles[role].deleted
    ensures role in states[j].provider.roles
    ensures var row, row' := states[i].provider.roles[role], states[j].provider.roles[role];
            row'.code == "OWNER" && !row'.deleted && (row.status == RoleActive ==> row'.status == RoleActive)
    decreases j
  {
    if i < j {
      OwnerRoleKept(states, ops, role, i, j - 1);
      ProtectedRowStep(states[j - 1], ops[j - 1], Platform.Provider, role);
    }
  }

  // ----- Audit replay -----

  /** The permission set a role has after the events, starting from start. */
  function ReplayRole(events: seq<Event>, p: Platform, role: Id, start: set<Id>): set<Id> {
    if events == [] then start
    else
      var e := events[|events| - 1];
      if e.TargetsRole(p, role) && (e.action.RoleCreated? || e.action.RolePermissionsReplaced?) then e.action.after
      else ReplayRole(events[..|events| - 1], p, role, start)
  }

  function ReplaySubject(events: seq<Event>, p: Platform, subject: Id, start: set<Id>): set<Id> {
    if events == [] then start
    else
      var e := events[|events| - 1];
      if e.TargetsSubject(p, subject) then e.action.after
      else ReplaySubject(events[..|events| - 1], p, subject, start)
  }

  /** Every recorded before-state is what the events before it replay to. */
  ghost predicate RoleChained(events: seq<Event>, p: Platform, role: Id, start: set<Id>) {
    forall k :: 0 <= k < |events| && events[k].TargetsRole(p, role) && events[k].action.RolePermissionsReplaced? ==>
      events[k].action.before == ReplayRole(events[..k], p, role, start)
  }

  ghost predicate SubjectChained(events: seq<Event>, p: Platform, subject: Id, start: set<Id>) {
    forall k :: 0 <= k < |events| && events[k].TargetsSubject(p, subject) ==>
      events[k].action.before == ReplaySubject(events[..k], p, subject, start)
  }

  /** The audit rows written between the first state and state n. */
  function Since(states: seq<Db>, n: nat): seq<Event>
    requires n < |states| && |states[0].audit| <= |states[n].audit|
  {
    states[n].audit[|states[0].audit|..]
  }

  lemma {:induction false} AuditGrows(states: seq<Db>, ops: seq<Op>, n: nat)
    requires IsHistory(states, ops) && n < |states|
    ensures states[0].audit <= states[n].audit
  {
    if n > 0 {
      AuditGrows(states, ops, n - 1);
      assert states[n - 1].audit <= states[n].audit;
    }
  }

  lemma SinceStep(states: seq<Db>, ops: seq<Op>, n: nat)
    requires IsHistory(states, ops) && 0 < n < |states|
    ensures states[0].audit <= states[n - 1].audit <= states[n].audit
    ensures Since(states, n) == Since(states, n - 1) + EventsOf(ops[n - 1], BeforeOf(states[n - 1], ops[n - 1]))
  {
    AuditGrows(states, ops, n - 1);
  }

  lemma PermissionsAfter(t: Tables, op: Op, role: Id)
    requires op.OnLiveRole() ==> op.roleId in t.roles
    requires Constrained(t)
    requires op.CreateRole? ==> op.roleId !in t.roles
    ensures PermissionsOf(TablesEffect(t, op), role) ==
            if (op.CreateRole? || op.ReplacePermissions?) && op.roleId == role then Elements(op.permissionIds)
            else PermissionsOf(t, role)
  {
    var t' := TablesEffect(t, op);
    if (op.CreateRole? || op.ReplacePermissions?) && op.roleId == role {
      forall x | x in Elements(op.permissionIds) ensures x in PermissionsOf(t', role) {
        assert (role, x) in t'.mappings;
      }
    } else {
      forall x ensures x in PermissionsOf(t', role) <==> x in PermissionsOf(t, role) {
        assert (role, x) in t'.mappings <==> (role, x) in t.mappings;
      }
    }
  }

  /** The operation creates the subject: only provisioning does, with its owner membership. */
  predicate Provisions(op: Op, p: Platform, subject: Id) {
    op.Provision? && p == Platform.Provider && op.membershipId == subject
  }

  lemma AssignmentsAfter(t: Tables, op: Op, subject: Id)
    requires op.OnLiveRole() ==> op.roleId in t.roles
    requires op.Provision? && op.membershipId == subject ==> RolesOf(t, subject) == {}
    ensures RolesOf(TablesEffect(t, op), subject) ==
            if op.ReplaceRoles? && op.subjectId == subject then Elements(op.roleIds)
            else if op.Provision? && op.membershipId == subject then OwnerRoles(t)
            else RolesOf(t, subject)
  {
    var t' := TablesEffect(t, op);
    if op.ReplaceRoles? && op.subjectId == subject {
      forall x | x in Elements(op.roleIds) ensures x in RolesOf(t', subject) {
        assert (subject, x) in t'.assignments;
      }
    } else if op.Provision? && op.membershipId == subject {
      forall x ensures x in RolesOf(t', subject) <==> x in OwnerRoles(t) {
        assert (subject, x) in t.assignments ==> (subject, x).1 in RolesOf(t, subject);
        assert (subject, x) in t'.assignments <==> x in OwnerRoles(t);
      }
    } else {
      forall x ensures x in RolesOf(t', subject) <==> x in RolesOf(t, subject) {
        assert (subject, x) in t'.assignments <==> (subject, x) in t.assignments;
      }
    }
  }

  lemma RoleReplayStep(db: Db, op: Op, p: Platform, role: Id)
    requires Applicable(db, op) && WellFormed(db)
    ensures var e := EventsOf(op, BeforeOf(db, op));
            && |e| <= 1
            && (e != [] && e[0].TargetsRole(p, role) && e[0].action.RolePermissionsReplaced? ==>
                  e[0].action.before == PermissionsOf(db.Of(p), role))
            && PermissionsOf(Effect(db, op).Of(p), role) ==
               if e != [] && e[0].TargetsRole(p, role)
                  && (e[0].action.RoleCreated? || e[0].action.RolePermissionsReplaced?)
               then e[0].action.after else PermissionsOf(db.Of(p), role)
  {
    EffectShape(db, op, p);
    assert Constrained(db.Of(p));
    if op.Home() == p {
      PermissionsAfter(db.Of(p), op, role);
    }
  }

  lemma SubjectReplayStep(db: Db, op: Op, p: Platform, subject: Id)
    requires Applicable(db, op) && WellFormed(db)
    ensures var e := EventsOf(op, BeforeOf(db, op));
            && |e| <= 1
            && (e != [] && e[0].TargetsSubject(p, subject) ==>
                  subject in db.Of(p).subjects && e[0].action.before == RolesOf(db.Of(p), subject))
            && (Provisions(op, p, subject) ==>
                subject !in db.Of(p).subjects && RolesOf(db.Of(p), subject) == {} && e == [])
            && (subject in Effect(db, op).Of(p).subjects <==>
                subject in db.Of(p).subjects || Provisions(op, p, subject))
            && RolesOf(Effect(db, op).Of(p), subject) ==
               if e != [] && e[0].TargetsSubject(p, subject) then e[0].action.after
               else if Provisions(op, p, subject) then OwnerRoles(db.provider)
               else RolesOf(db.Of(p), subject)
  {
    EffectShape(db, op, p);
    assert Constrained(db.Of(p));
    if op.Home() == p {
      AssignmentsAfter(db.Of(p), op, subject);
    }
  }

  /** Replaying the audit rows over the initial mapping of any role gives its
      current mapping, and every recorded before-state is the previous after-state. */
  lemma {:induction false} RoleReplay(states: seq<Db>, ops: seq<Op>, p: Platform, role: Id, n: nat)
    requires IsHistory(states, ops) && WellFormed(states[0]) && n < |states|
    ensures states[0].audit <= states[n].audit
    ensures PermissionsOf(states[n].Of(p), role) ==
            ReplayRole(Since(states, n), p, role, PermissionsOf(states[0].Of(p), role))
    ensures RoleChained(Since(states, n), p, role, PermissionsOf(states[0].Of(p), role))
  {
    if n > 0 {
      RoleReplay(states, ops, p, role, n - 1);
      SinceStep(states, ops, n);
      HistoryWellFormed(states, ops, n - 1);
      var db, op := states[n - 1], ops[n - 1];
      RoleReplayStep(db, op, p, role);
      ExtendRoleReplay(Since(states, n - 1), EventsOf(op, BeforeOf(db, op)), p, role,
                       PermissionsOf(states[0].Of(p), role));
    }
  }

  lemma ExtendRoleReplay(events: seq<Event>, more: seq<Event>, p: Platform, role: Id, start: set<Id>)
    requires |more| <= 1 && RoleChained(events, p, role, start)
    requires more != [] && more[0].TargetsRole(p, role) && more[0].action.RolePermissionsReplaced? ==>
               more[0].action.before == ReplayRole(events, p, role, start)
    ensures RoleChained(events + more, p, role, start)
    ensures ReplayRole(events + more, p, role, start) ==
            if more != [] && more[0].TargetsRole(p, role)
               && (more[0].action.RoleCreated? || more[0].action.RolePermissionsReplaced?)
            then more[0].action.after else ReplayRole(events, p, role, start)
  {
    if more == [] {
      assert events + more == events;
    } else {
      assert (events + more)[..|events|] == events;
      forall k | 0 <= k < |events| ensures (events + more)[..k] == events[..k] {
      }
    }
  }

  /** The role set a subject starts with: what it holds in the first state or, for a
      membership provisioned later, the OWNER role its creation assigned without an audit row. */
  function Origin(states: seq<Db>, ops: seq<Op>, p: Platform, subject: Id, n: nat): set<Id>
    requires n <= |ops| && n < |states|
  {
    if n == 0 then RolesOf(states[0].Of(p), subject)
    else if Provisions(ops[n - 1], p, subject) then OwnerRoles(states[n - 1].provider)
    else Origin(states, ops, p, subject, n - 1)
  }

  predicate Targeted(events: seq<Event>, p: Platform, subject: Id) {
    exists k :: 0 <= k < |events| && events[k].TargetsSubject(p, subject)
  }

  /** The same for the role set of every subject, from its origin on. */
  lemma {:induction false} SubjectReplay(states: seq<Db>, ops: seq<Op>, p: Platform, subject: Id, n: nat)
    requires IsHistory(states, ops) && WellFormed(states[0]) && n < |states|
    ensures states[0].audit <= states[n].audit
    ensures RolesOf(states[n].Of(p), subject) ==
            ReplaySubject(Since(states, n), p, subject, Origin(states, ops, p, subject, n))
    ensures SubjectChained(Since(states, n), p, subject, Origin(states, ops, p, subject, n))
    ensures Targeted(Since(states, n), p, subject) ==> subject in states[n].Of(p).subjects
  {
    if n > 0 {
      SubjectReplay(states, ops, p, subject, n - 1);
      SinceStep(states, ops, n);
      HistoryWellFormed(states, ops, n - 1);
      var db, op := states[n - 1], ops[n - 1];
      SubjectReplayStep(db, op, p, subject);
      if Provisions(op, p, subject) {
        UntargetedReplay(Since(states, n), p, subject, OwnerRoles(db.provider));
      } else {
        ExtendSubjectReplay(Since(states, n - 1), EventsOf(op, BeforeOf(db, op)), p, subject,
                            Origin(states, ops, p, subject, n - 1));
        TargetedGrows(Since(states, n - 1), EventsOf(op, BeforeOf(db, op)), p, subject);
      }
    }
  }

  lemma TargetedGrows(events: seq<Event>, more: seq<Event>, p: Platform, subject: Id)
    requires |more| <= 1
    ensures Targeted(events + more, p, subject) <==>
            Targeted(events, p, subject) || (more != [] && more[0].TargetsSubject(p, subject))
  {
    if k :| 0 <= k < |events| && events[k].TargetsSubject(p, subject) {
      assert (events + more)[k].TargetsSubject(p, subject);
    }
    if more != [] && more[0].TargetsSubject(p, subject) {
      assert (events + more)[|events|].TargetsSubject(p, subject);
    }
  }

  /** Events about others replay to the start; an event about the subject hides the start. */
  lemma {:induction false} UntargetedReplay(events: seq<Event>, p: Platform, subject: Id, start: set<Id>)
    requires !Targeted(events, p, subject)
    ensures ReplaySubject(events, p, subject, start) == start
    ensures SubjectChained(events, p, subject, start)
  {
    if events != [] {
      var front := events[..|events| - 1];
      forall k | 0 <= k < |front| ensures !front[k].TargetsSubject(p, subject) {
        assert front[k] == events[k];
      }
      UntargetedReplay(front, p, subject, start);
      assert !events[|events| - 1].TargetsSubject(p, subject);
    }
  }

  lemma {:induction false} TargetedReplay(events: seq<Event>, p: Platform, subject: Id, start: set<Id>, start': set<Id>)
    requires Targeted(events, p, subject)
    ensures ReplaySubject(events, p, subject, start) == ReplaySubject(events, p, subject, start')
  {
    var front, last := events[..|events| - 1], events[|events| - 1];
    if !last.TargetsSubject(p, subject) {
      var k :| 0 <= k < |events| && events[k].TargetsSubject(p, subject);
      assert front[k].TargetsSubject(p, subject);
      TargetedReplay(front, p, subject, start, start');
    }
  }

  /** Some operation among the first n creates the subject. */
  predicate ProvisionedBy(ops: seq<Op>, p: Platform, subject: Id, n: nat)
    requires n <= |ops|
  {
    exists i :: 0 <= i < n && Provisions(ops[i], p, subject)
  }

  lemma {:induction false} OriginExact(states: seq<Db>, ops: seq<Op>, p: Platform, subject: Id, n: nat)
    requires IsHistory(states, ops) && n < |states|
    ensures if ProvisionedBy(ops, p, subject, n) then Origin(states, ops, p, subject, n) != {}
            else Origin(states, ops, p, subject, n) == RolesOf(states[0].Of(p), subject)
    ensures subject in states[n].Of(p).subjects <==>
              subject in states[0].Of(p).subjects || ProvisionedBy(ops, p, subject, n)
    ensures subject in states[0].Of(p).subjects ==> !ProvisionedBy(ops, p, subject, n)
  {
    if n > 0 {
      OriginExact(states, ops, p, subject, n - 1);
      EffectShape(states[n - 1], ops[n - 1], p);
    }
  }

  /** Replaying the log over the first state alone gives a subject's current roles exactly unless
      its membership was provisioned since and never audited: OWNER was then assigned unseen. */
  lemma SubjectReplayExact(states: seq<Db>, ops: seq<Op>, p: Platform, subject: Id, n: nat)
    requires IsHistory(states, ops) && WellFormed(states[0]) && n < |states|
    ensures states[0].audit <= states[n].audit
    ensures RolesOf(states[n].Of(p), subject) ==
            ReplaySubject(Since(states, n), p, subject, RolesOf(states[0].Of(p), subject))
            <==> !(ProvisionedBy(ops, p, subject, n) && !Targeted(Since(states, n), p, subject))
  {
    SubjectReplay(states, ops, p, subject, n);
    OriginExact(states, ops, p, subject, n);
    var start, origin := RolesOf(states[0].Of(p), subject), Origin(states, ops, p, subject, n);
    if Targeted(Since(states, n), p, subject) {
      TargetedReplay(Since(states, n), p, subject, start, origin);
    } else {
      UntargetedReplay(Since(states, n), p, subject, start);
      UntargetedReplay(Since(states, n), p, subject, origin);
      assert Constrained(states[0].Of(p));
      assert subject !in states[0].Of(p).subjects ==> start == {};
    }
  }

  /** A provider just created: its owner membership holds OWNER and the log says nothing about it. */
  lemma ProvisionedUnseen(db: Db, op: Op)
    requires WellFormed(db) && op.Provision? && Applicable(db, op)
    ensures var after := Effect(db, op);
            && after.audit == db.audit && RolesOf(after.provider, op.membershipId) == OwnerRoles(db.provider) != {}
            && ReplaySubject([], Platform.Provider, op.membershipId, RolesOf(db.provider, op.membershipId)) == {}
  {
    SubjectReplayStep(db, op, Platform.Provider, op.membershipId);
    EffectShape(db, op, Platform.Provider);
  }

  /** A concrete such history: one usable OWNER role, one customer, one provisioning. */
  lemma UnseenOwnerExists() returns (db: Db, op: Op)
    ensures WellFormed(db) && op.Provision? && Applicable(db, op) && IsHistory([db, Effect(db, op)], [op])
    ensures RolesOf(Effect(db, op).provider, op.membershipId) !=
            ReplaySubject(Since([db, Effect(db, op)], 1), Platform.Provider, op.membershipId,
                          RolesOf(db.provider, op.membershipId))
  {
    var none := Tables(map[], map[], {}, {}, map[]);
    var owner := Role(OWNER, "Owner", None, true, RoleActive, 1, false);
    db := Db(none.(subjects := map[7 := Customer(false)]), none.(roles := map[2 := owner]), none, map[], []);
    op := Provision(3, 8, 7);
    assert 2 in OwnerRoles(db.provider);
    forall p: Platform ensures Constrained(db.Of(p)) {
    }
    SubjectReplayStep(db, op, Platform.Provider, 8);
    assert Since([db, Effect(db, op)], 1) == [];
  }

  lemma ExtendSubjectReplay(events: seq<Event>, more: seq<Event>, p: Platform, subject: Id, start: set<Id>)
    requires |more| <= 1 && SubjectChained(events, p, subject, start)
    requires more != [] && more[0].TargetsSubject(p, subject) ==>
               more[0].action.before == ReplaySubject(events, p, subject, start)
    ensures SubjectChained(events + more, p, subject, start)
    ensures ReplaySubject(events + more, p, subject, start) ==
            if more != [] && more[0].TargetsSubject(p, subject) then more[0].action.after
            else ReplaySubject(events, p, subject, start)
  {
    if more == [] {
      assert events + more == events;
    } else {
      assert (events + more)[..|events|] == events;
      forall k | 0 <= k < |events| ensures (events + more)[..k] == events[..k] {
      }
    }
  }
}
