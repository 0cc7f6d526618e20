/** What a commit may change for a transaction that holds a given set of locks. */
module MachineRely {
  import opened Basics
  import opened AuthorizationTables
  import opened AuthorizationKernel
  import opened AuthorizationHistory
  import opened AuthorizationMachine

  /** Rows that concern locks in held are as they were; other rows may differ, but
      rows never disappear, permissions and subjects are fixed, and OWNER stays usable. */
  ghost predicate TablesRely(p: Platform, t: Tables, t': Tables, held: set<Lock>) {
    && t'.permissions == t.permissions
    && (forall s :: s in t.subjects ==> s in t'.subjects && t'.subjects[s] == t.subjects[s])
    && (forall r :: r in t.roles ==> r in t'.roles)
    && (forall r :: r in t.roles && RoleLock(p, r) in held ==>
          t'.roles[r] == t.roles[r] && RowsOf(t'.mappings, r) == RowsOf(t.mappings, r))
    && (forall s :: s in t.subjects && SubjectLock(p, s) in held ==>
        RowsOf(t'.assignments, s) == RowsOf(t.assignments, s))
    && (forall r :: r !in t.roles && FreshRole(p, r) in held ==> r !in t'.roles)
    && (forall c :: !CodeInUse(t, c) && CodeKey(p, c) in held ==> !CodeInUse(t', c))
    && (p == Platform.Provider ==> ProviderRely(t, t', held))
    && (p.Administration? && RecoveryLock in held ==> RecoveryRely(t, t'))
  }

  ghost predicate ProviderRely(t: Tables, t': Tables, held: set<Lock>) {
    && (OwnerRoles(t) != {} ==> OwnerRoles(t') == OwnerRoles(t))
    && (forall m :: m !in t.subjects && FreshMembership(m) in held ==> m !in t'.subjects)
    && (forall m :: m in t.subjects && t.subjects[m].Membership? && OwnerLock(t.subjects[m].providerId) in held ==>
          RowsOf(t'.assignments, m) == RowsOf(t.assignments, m))
  }

  /** Under the recovery lock only new roles with their own mappings appear. */
  ghost predicate RecoveryRely(t: Tables, t': Tables) {
    && t'.assignments == t.assignments && t'.subjects == t.subjects
    && t.mappings <= t'.mappings
    && (forall r :: r in t.roles ==> r in t'.roles && t'.roles[r] == t.roles[r])
  }

  ghost predicate AccountsRely(db: Db, db': Db, held: set<Lock>) {
    && (forall a :: a in db.accounts && AccountRow(a) in held ==>
        a in db'.accounts && db'.accounts[a] == db.accounts[a])
    && (forall a :: a !in db.accounts && FreshProvider(a) in held ==> a !in db'.accounts)
    && (forall c :: !HasAccount(db, c) && CustomerKey(c) in held ==> !HasAccount(db', c))
  }

  ghost predicate Rely(db: Db, db': Db, held: set<Lock>) {
    && (forall p: Platform :: TablesRely(p, db.Of(p), db'.Of(p), held))
    && AccountsRely(db, db', held)
  }

  /** The locks that make an operation's effect invisible to others. */
  function Needed(db: Db, op: Op): set<Lock> {
    match op
    case CreateRole(p, id, code, _, _, _, _) => {FreshRole(p, id), CodeKey(p, code)}
    case ReplaceRoles(p, id, _, _) =>
      {SubjectLock(p, id)}
      + (if p.Administration? then {RecoveryLock} else {})
      + (if p == Platform.Provider && ProviderOf(db.provider, id).Some?
         then {OwnerLock(ProviderOf(db.provider, id).value)} else {})
    case Provision(provider, membership, customer) =>
      {FreshProvider(provider), FreshMembership(membership), CustomerKey(customer)}
    case Approve(id) => {AccountRow(id)}
    case _ => {RoleLock(op.platform, op.roleId)} + (if op.platform.Administration? then {RecoveryLock} else {})
  }

  lemma RowsKept(rows: set<(Id, Id)>, rows': set<(Id, Id)>, a: Id)
    requires forall x :: (a, x) in rows <==> (a, x) in rows'
    ensures RowsOf(rows, a) == RowsOf(rows', a)
  {
    forall row ensures row in RowsOf(rows, a) <==> row in RowsOf(rows', a) {
      assert row.0 == a ==> row == (a, row.1);
    }
  }

  /** The usable OWNER role is never lost, and no second one appears. */
  lemma OwnerRolesKept(t: Tables, op: Op)
    requires Constrained(t) && OwnerRoles(t) != {} && op.Home() == Platform.Provider
    requires op.CreateRole? ==> op.roleId !in t.roles && !CodeInUse(t, op.code)
    requires op.OnLiveRole() ==> RoleLive(t, op.roleId)
    requires op.UpdateRole? ==> StatusChangeAllowed(op.platform, t.roles[op.roleId], op.newStatus)
    requires op.DeleteRole? ==> Deletable(t.roles[op.roleId])
    ensures OwnerRoles(TablesEffect(t, op)) == OwnerRoles(t)
  {
    var t' := TablesEffect(t, op);
    var owner :| owner in OwnerRoles(t);
    assert t'.roles[owner].code == OWNER && t'.roles[owner].Usable();
    assert CodeInUse(t, t.roles[owner].code);
    assert forall r :: r in OwnerRoles(t') ==> r in t.roles && t.roles[r].code == OWNER;
  }

  lemma MappingsKept(t: Tables, op: Op, role: Id)
    requires op.OnLiveRole() ==> op.roleId in t.roles
    requires op.CreateRole? || op.OnLiveRole() ==> op.roleId != role
    ensures RowsOf(TablesEffect(t, op).mappings, role) == RowsOf(t.mappings, role)
  {
    RowsKept(TablesEffect(t, op).mappings, t.mappings, role);
  }

  lemma AssignmentsKept(t: Tables, op: Op, subject: Id)
    requires op.OnLiveRole() ==> op.roleId in t.roles
    requires op.ReplaceRoles? ==> op.subjectId != subject
    requires op.Provision? ==> op.membershipId != subject
    ensures RowsOf(TablesEffect(t, op).assignments, subject) == RowsOf(t.assignments, subject)
  {
    RowsKept(TablesEffect(t, op).assignments, t.assignments, subject);
  }

  /** A commit whose own locks nobody in held shares is invisible through held. */
  lemma EffectTablesRely(db: Db, op: Op, held: set<Lock>)
    requires Applicable(db, op) && WellFormed(db) && Needed(db, op) !! held
    ensures TablesRely(op.Home(), db.Of(op.Home()), TablesEffect(db.Of(op.Home()), op), held)
  {
    var p, t := op.Home(), db.Of(op.Home());
    var t' := TablesEffect(t, op);
    assert Constrained(t);
    forall r | r in t.roles && RoleLock(p, r) in held
      ensures t'.roles[r] == t.roles[r] && RowsOf(t'.mappings, r) == RowsOf(t.mappings, r)
    {
      MappingsKept(t, op, r);
    }
    forall s | s in t.subjects && SubjectLock(p, s) in held
      ensures RowsOf(t'.assignments, s) == RowsOf(t.assignments, s)
    {
      AssignmentsKept(t, op, s);
    }
    forall c | !CodeInUse(t, c) && CodeKey(p, c) in held
      ensures !CodeInUse(t', c)
    {
      assert forall r :: r in t.roles ==> t'.roles[r].code == t.roles[r].code;
    }
    if p == Platform.Provider {
      EffectProviderRely(db, op, held);
    }
  }

  lemma EffectProviderRely(db: Db, op: Op, held: set<Lock>)
    requires Applicable(db, op) && WellFormed(db) && Needed(db, op) !! held && op.Home() == Platform.Provider
    ensures ProviderRely(db.provider, TablesEffect(db.provider, op), held)
  {
    var t := db.Of(Platform.Provider);
    assert Constrained(t);
    if OwnerRoles(t) != {} {
      OwnerRolesKept(t, op);
    }
    forall m | m in t.subjects && t.subjects[m].Membership? && OwnerLock(t.subjects[m].providerId) in held
      ensures RowsOf(TablesEffect(t, op).assignments, m) == RowsOf(t.assignments, m)
    {
      AssignmentsKept(t, op, m);
    }
  }

  lemma EffectAccountsRely(db: Db, op: Op, held: set<Lock>)
    requires Applicable(db, op) && Needed(db, op) !! held
    ensures AccountsRely(db, Effect(db, op), held)
  {
    assert forall a :: a in db.accounts ==>
        Effect(db, op).accounts[a].ownerCustomerId == db.accounts[a].ownerCustomerId;
  }

  lemma SameTablesRely(p: Platform, t: Tables, held: set<Lock>)
    ensures TablesRely(p, t, t, held)
  {
  }

  lemma EffectRely(db: Db, op: Op, held: set<Lock>)
    requires Applicable(db, op) && WellFormed(db) && Needed(db, op) !! held
    ensures Rely(db, Effect(db, op), held)
  {
    EffectTablesRely(db, op, held);
    EffectAccountsRely(db, op, held);
    forall p: Platform ensures TablesRely(p, db.Of(p), Effect(db, op).Of(p), held) {
      EffectShape(db, op, p);
      SameTablesRely(p, db.Of(p), held);
    }
  }
}
