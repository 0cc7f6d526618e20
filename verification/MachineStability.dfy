/** The facts and final assertions of a running transaction survive every commit of
    another transaction that holds none of its locks; and what a transaction knows
    at its commit makes its overlay the effect of its operation. */
module MachineStability {
  import opened Basics
  import opened AuthorizationTables
  import opened RecoveryCapability
  import opened AuthorizationKernel
  import opened AuthorizationMachine
  import opened MachineRely
  import opened MachineFacts

  lemma SameRowsSameColumns(t: Tables, t': Tables, a: Id)
    ensures RowsOf(t.mappings, a) == RowsOf(t'.mappings, a) ==> PermissionsOf(t, a) == PermissionsOf(t', a)
    ensures RowsOf(t.assignments, a) == RowsOf(t'.assignments, a) ==> RolesOf(t, a) == RolesOf(t', a)
  {
    assert PermissionsOf(t, a) == set row | row in RowsOf(t.mappings, a) :: row.1;
    assert PermissionsOf(t', a) == set row | row in RowsOf(t'.mappings, a) :: row.1;
    assert RolesOf(t, a) == set row | row in RowsOf(t.assignments, a) :: row.1;
    assert RolesOf(t', a) == set row | row in RowsOf(t'.assignments, a) :: row.1;
  }

  lemma ValidationStable(db: Db, db': Db, p: Platform, ids: seq<Id>)
    requires db.Of(p).permissions == db'.Of(p).permissions && Distinct(ids)
    ensures ValidatePermissions(db, p, ids).None? <==> ValidatePermissions(db', p, ids).None?
    ensures OwnerPermissionsKept(db.Of(p), ids) <==> OwnerPermissionsKept(db'.Of(p), ids)
  {
    ValidatePermissionsExact(db, p, ids);
    ValidatePermissionsExact(db', p, ids);
  }

  lemma RoleFactsStable(db: Db, db': Db, t: Txn)
    requires t.op.OnLiveRole() && RoleFacts(db, t)
    requires TablesRely(t.op.platform, db.Of(t.op.platform), db'.Of(t.op.platform), t.locks)
    ensures RoleFacts(db', t)
  {
    SameRowsSameColumns(db.Of(t.op.platform), db'.Of(t.op.platform), t.op.roleId);
    if t.op.ReplacePermissions? {
      ValidationStable(db, db', t.op.platform, Dedup(t.op.permissionIds));
    }
  }

  lemma SubjectFactsStable(db: Db, db': Db, t: Txn)
    requires t.op.ReplaceRoles? && SubjectFacts(db, t)
    requires TablesRely(t.op.platform, db.Of(t.op.platform), db'.Of(t.op.platform), t.locks)
    requires ProviderRely(db.provider, db'.provider, t.locks)
    ensures SubjectFacts(db', t)
  {
    SameRowsSameColumns(db.Of(t.op.platform), db'.Of(t.op.platform), t.op.subjectId);
  }

  lemma CreateFactsStable(db: Db, db': Db, t: Txn)
    requires t.op.CreateRole? && CreateFacts(db, t)
    requires TablesRely(t.op.platform, db.Of(t.op.platform), db'.Of(t.op.platform), t.locks)
    ensures CreateFacts(db', t)
  {
    ValidationStable(db, db', t.op.platform, Dedup(t.op.permissionIds));
  }

  lemma FactsStable(db: Db, db': Db, t: Txn)
    requires Facts(db, t) && Rely(db, db', t.locks)
    ensures Facts(db', t)
  {
    assert TablesRely(t.op.Home(), db.Of(t.op.Home()), db'.Of(t.op.Home()), t.locks);
    assert TablesRely(Platform.Provider, db.Of(Platform.Provider), db'.Of(Platform.Provider), t.locks);
    assert TablesRely(Marketplace, db.Of(Marketplace), db'.Of(Marketplace), t.locks);
    match t.op
    case CreateRole(_, _, _, _, _, _, _) => CreateFactsStable(db, db', t);
    case ReplaceRoles(_, _, _, _) => SubjectFactsStable(db, db', t);
    case Provision(_, _, _) =>
    case Approve(_) =>
    case _ => RoleFactsStable(db, db', t);
  }

  /** Recovery capability seen by the lock holder survives, because others only add roles. */
  lemma RecoveryStable(t: Tables, t': Tables, d: Delta)
    requires RecoveryRely(t, t') && t'.permissions == t.permissions
    requires forall row :: row in d.deletedMappings ==> row in t.mappings
    requires HasRecovery(MergeTables(t, d))
    ensures HasRecovery(MergeTables(t', d))
  {
    var m, m' := MergeTables(t, d), MergeTables(t', d);
    assert m.mappings <= m'.mappings;
    assert m.assignments == m'.assignments;
    RecoveryMonotone(m, m');
  }

  /** The owner count of the lock holder's provider survives. */
  lemma OwnerCountStable(db: Db, db': Db, t: Txn)
    requires t.op.ReplaceRoles? && t.op.platform == Platform.Provider && SubjectFacts(db, t) && t.Past(ASSERT_OWNER)
    requires TablesRely(Platform.Provider, db.provider, db'.provider, t.locks)
    requires OwnerCounted(View(db, t).provider, ProviderOf(View(db, t).provider, t.op.subjectId), t.owners,
                          Dedup(t.op.roleIds))
    ensures OwnerCounted(View(db', t).provider, ProviderOf(View(db', t).provider, t.op.subjectId), t.owners,
                         Dedup(t.op.roleIds))
  {
    var v, v' := View(db, t).provider, View(db', t).provider;
    ViewShape(db, t);
    ViewShape(db', t);
    var provider := ProviderOf(v, t.op.subjectId);
    assert provider == ProviderOf(v', t.op.subjectId);
    if provider.Some? {
      forall r | r in t.owners && r !in t.op.roleIds
        ensures RoleUsable(v', r) && Holders(v', provider.value, r) != {}
      {
        assert r in OwnerRoles(db'.provider);
        var holder :| holder in Holders(v, provider.value, r);
        assert (holder, r) in v.assignments && ActiveMember(v, holder, provider.value);
        assert (holder, r) in v'.assignments by {
          assert (holder, r) !in t.delta.insertedAssignments by {
            assert t.delta.insertedAssignments <= Pairs(t.op.subjectId, Elements(Dedup(t.op.roleIds)));
          }
          assert (holder, r) in RowsOf(db.provider.assignments, holder);
          assert (holder, r) in RowsOf(db'.provider.assignments, holder);
        }
        assert holder in Holders(v', provider.value, r);
      }
    }
  }

  lemma GuardedRecoveryStable(db: Db, db': Db, t: Txn)
    requires Facts(db, t) && Guards(t.op) && t.op.platform.Administration? && t.Past(ASSERT_RECOVERY)
    requires TablesRely(Administration, db.administration, db'.administration, t.locks)
    requires HasRecovery(View(db, t).administration)
    ensures HasRecovery(View(db', t).administration)
  {
    ViewShape(db, t);
    ViewShape(db', t);
    RecoveryStable(db.administration, db'.administration, t.delta);
  }

  lemma OwnerRoleStable(db: Db, db': Db, t: Txn)
    requires t.op.ReplacePermissions? && t.op.platform == Platform.Provider && RoleFacts(db, t) && t.Past(ASSERT_OWNER)
    requires RoleUsable(View(db, t).provider, t.op.roleId)
    ensures RoleUsable(View(db', t).provider, t.op.roleId)
  {
    ViewShape(db, t);
    ViewShape(db', t);
    assert t.op.roleId in t.delta.roles;
  }

  lemma AssertedStable(db: Db, db': Db, t: Txn)
    requires Facts(db, t) && Asserted(db, t) && Rely(db, db', t.locks)
    ensures Asserted(db', t)
  {
    assert TablesRely(Platform.Provider, db.Of(Platform.Provider), db'.Of(Platform.Provider), t.locks);
    assert TablesRely(Administration, db.Of(Administration), db'.Of(Administration), t.locks);
    if t.Past(ASSERT_RECOVERY) && Guards(t.op) && t.op.platform.Administration? {
      GuardedRecoveryStable(db, db', t);
    } else if t.Past(ASSERT_OWNER) && t.op.ReplaceRoles? && t.op.platform == Platform.Provider {
      OwnerCountStable(db, db', t);
    } else if t.Past(ASSERT_OWNER) && t.op.ReplacePermissions? && OnOwnerRole(t) {
      OwnerRoleStable(db, db', t);
    }
  }

  // ----- Commit -----

  lemma CommitRoleTables(tables: Tables, t: Txn)
    requires t.op.OnLiveRole() && t.pc == COMMIT && RoleDelta(tables, t)
    requires t.op.roleId in tables.roles && t.role == Some(tables.roles[t.op.roleId])
    ensures MergeTables(tables, t.delta) == TablesEffect(tables, t.op)
  {
    var merged, effect := MergeTables(tables, t.delta), TablesEffect(tables, t.op);
    assert merged.roles == effect.roles;
    assert merged.mappings == effect.mappings;
  }

  lemma CommitRole(db: Db, t: Txn)
    requires t.op.OnLiveRole() && t.pc == COMMIT && RoleFacts(db, t)
    ensures Applicable(db, t.op) && Needed(db, t.op) <= t.locks
    ensures t.op.platform.Administration? ==> Current(db, t.op)
    ensures View(db, t) == Effect(db, t.op)
  {
    CommitRoleTables(db.Of(t.op.platform), t);
    assert db.accounts + t.delta.accounts == db.accounts;
    assert t.delta.events == EventsOf(t.op, BeforeOf(db, t.op));
  }

  lemma CommitSubject(db: Db, t: Txn)
    requires t.op.ReplaceRoles? && t.pc == COMMIT && SubjectFacts(db, t)
    ensures Applicable(db, t.op) && Needed(db, t.op) <= t.locks
    ensures t.op.platform.Administration? ==> Current(db, t.op)
    ensures View(db, t) == Effect(db, t.op)
  {
    ViewShape(db, t);
    var tables := db.Of(t.op.platform);
    assert MergeTables(tables, t.delta) == TablesEffect(tables, t.op);
    assert db.accounts + t.delta.accounts == AccountsEffect(db.accounts, t.op);
  }

  lemma CommitCreate(db: Db, t: Txn)
    requires t.op.CreateRole? && t.pc == COMMIT && CreateFacts(db, t)
    ensures Applicable(db, t.op) && Needed(db, t.op) <= t.locks && Current(db, t.op)
    ensures View(db, t) == Effect(db, t.op)
  {
    ViewShape(db, t);
    var tables := db.Of(t.op.platform);
    assert MergeTables(tables, t.delta) == TablesEffect(tables, t.op);
    assert db.accounts + t.delta.accounts == AccountsEffect(db.accounts, t.op);
  }

  lemma CommitProvisionTables(db: Db, t: Txn)
    requires t.op.Provision? && t.pc == COMMIT && ProvisionFacts(db, t)
    ensures MergeTables(db.provider, t.delta) == TablesEffect(db.provider, t.op)
    ensures db.accounts + t.delta.accounts == AccountsEffect(db.accounts, t.op)
  {
  }

  lemma CommitProvision(db: Db, t: Txn)
    requires t.op.Provision? && t.pc == COMMIT && ProvisionFacts(db, t)
    ensures Applicable(db, t.op) && Needed(db, t.op) <= t.locks && Current(db, t.op)
    ensures View(db, t) == Effect(db, t.op)
  {
    ViewShape(db, t);
    CommitProvisionTables(db, t);
  }

  lemma CommitApprove(db: Db, t: Txn)
    requires t.op.Approve? && t.pc == COMMIT && ApproveFacts(db, t)
    ensures Applicable(db, t.op) && Needed(db, t.op) <= t.locks && Current(db, t.op)
    ensures View(db, t) == Effect(db, t.op)
  {
    ViewShape(db, t);
    assert MergeTables(db.provider, t.delta) == TablesEffect(db.provider, t.op);
    assert db.accounts + t.delta.accounts == AccountsEffect(db.accounts, t.op);
  }

  /** At commit the lock-protected checks hold of the committed database of that
      moment, on ADMINISTRATION so do the others, and the writes are the whole effect. */
  lemma CommitIsEffect(db: Db, t: Txn)
    requires t.pc == COMMIT && Facts(db, t)
    ensures Applicable(db, t.op) && Needed(db, t.op) <= t.locks
    ensures t.op.Home().Administration? ==> Current(db, t.op)
    ensures View(db, t) == Effect(db, t.op)
  {
    match t.op
    case CreateRole(_, _, _, _, _, _, _) => CommitCreate(db, t);
    case ReplaceRoles(_, _, _, _) => CommitSubject(db, t);
    case Provision(_, _, _) => CommitProvision(db, t);
    case Approve(_) => CommitApprove(db, t);
    case _ => CommitRole(db, t);
  }
}
