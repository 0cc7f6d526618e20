/** What the kernel's invariants mean for the runtime of providers: in every committed state of
    every interleaving an operating provider has somebody able to write for it, and
    whoever that is holds the permissions OWNER must carry. */
module ProviderGuarantees {
  import opened Basics
  import opened AuthorizationTables
  import opened AuthorizationKernel
  import opened AuthorizationHistory
  import opened AuthorizationMachine
  import opened MachineSafety
  import opened InterleavingTheorems
  import opened MutationConsequences
  import opened ProviderAccess

  /** Unique keys and foreign keys of the provider tables. */
  ghost predicate Keyed(db: Db) {
    UniqueMembers(db.provider) && UniqueOwners(db.accounts) && MembersKnown(db)
  }

  lemma EffectKeepsKeys(db: Db, op: Op)
    requires Applicable(db, op) && Keyed(db)
    ensures Keyed(Effect(db, op))
  {
    var db' := Effect(db, op);
    EffectShape(db, op, Platform.Provider);
    forall m, p, c | Joins(db'.provider, m, p, c) && !(op.Provision? && m == op.membershipId)
      ensures Joins(db.provider, m, p, c) && p in db.accounts
    {
    }
  }

  lemma {:induction false} HistoryKeyed(states: seq<Db>, ops: seq<Op>, i: nat)
    requires IsHistory(states, ops) && Keyed(states[0]) && i < |states|
    ensures Keyed(states[i])
  {
    if i > 0 {
      HistoryKeyed(states, ops, i - 1);
      EffectKeepsKeys(states[i - 1], ops[i - 1]);
    }
  }

  lemma CommittedKeyed(run: seq<Sys>, moves: seq<Move>, db: Db, n: nat, k: nat)
    requires IsRun(run, moves, db) && WellFormed(db) && Keyed(db) && n < |run| && k < |run[n].states|
    ensures Keyed(run[n].states[k])
  {
    RunInv(run, moves, db, n);
    HistoryKeyed(run[n].states, run[n].ops, k);
  }

  /** A provider that has an owner in one committed state can, in every later committed state of
      every interleaving, be written for by some customer exactly when it is operating. */
  lemma WritableInEveryInterleaving(run: seq<Sys>, moves: seq<Move>, db: Db, provider: Id, n: nat, i: nat, k: nat)
    requires IsRun(run, moves, db) && WellFormed(db) && Keyed(db)
    requires n < |run| && i <= k < |run[n].states| && HasOwner(run[n].states[i].provider, provider)
    ensures Keyed(run[n].states[k])
    ensures (exists c :: CanWrite(run[n].states[k], Migrated, c, Some(Uuid(provider)))) <==>
              Operating(run[n].states[k], provider)
  {
    OwnerInEveryInterleaving(run, moves, db, provider, n, i, k);
    CommittedKeyed(run, moves, db, n, k);
    SomebodyCanWriteExact(run[n].states[k], provider);
  }

  /** The same for every provider created during the run, from its creation on. */
  lemma CreatedProviderWritable(run: seq<Sys>, moves: seq<Move>, db: Db, n: nat, i: nat, k: nat)
    requires IsRun(run, moves, db) && WellFormed(db) && Keyed(db) && n < |run|
    requires i < |run[n].ops| && run[n].ops[i].Provision? && i < k < |run[n].states|
    ensures Keyed(run[n].states[k])
    ensures (exists c :: CanWrite(run[n].states[k], Migrated, c, Some(Uuid(run[n].ops[i].providerId)))) <==>
              Operating(run[n].states[k], run[n].ops[i].providerId)
  {
    RunInv(run, moves, db, n);
    ProvisionHasOwner(run[n].states[i], run[n].ops[i]);
    WritableInEveryInterleaving(run, moves, db, run[n].ops[i].providerId, n, i + 1, k);
  }

  /** A creator cannot write for the new provider before its approval and can right after it. */
  lemma CreatedThenApproved(db: Db, op: Op)
    requires op.Provision? && Applicable(db, op) && Keyed(db) && Applicable(Effect(db, op), Approve(op.providerId))
    ensures var created, approved := Effect(db, op), Effect(Effect(db, op), Approve(op.providerId));
            && Keyed(created) && !CanWrite(created, Migrated, op.customerId, Some(Uuid(op.providerId)))
            && Keyed(approved) && CanWrite(approved, Migrated, op.customerId, Some(Uuid(op.providerId)))
  {
    var created, approved := Effect(db, op), Effect(Effect(db, op), Approve(op.providerId));
    EffectKeepsKeys(db, op);
    EffectKeepsKeys(created, Approve(op.providerId));
    WriteAccessExact(created, op.customerId, op.providerId);
    var r :| r in OwnerRoles(db.provider);
    assert r in OwnerRoles(approved.provider) && (op.membershipId, r) in approved.provider.assignments;
    assert OwnsThrough(approved.provider, op.membershipId, op.customerId, op.providerId);
    WriteAccessExact(approved, op.customerId, op.providerId);
  }

  // ----- What an owner may do -----

  /** The role grants every required code through an effective permission. */
  predicate Equipped(t: Tables, role: Id) {
    forall code :: code in OWNER_PERMISSIONS ==> MapsTo(t, role, code)
  }

  /** There is a role with code OWNER, and every such role is equipped. */
  predicate OwnerEquipped(t: Tables) {
    CodeInUse(t, OWNER) && forall r :: r in t.roles && t.roles[r].code == OWNER ==> Equipped(t, r)
  }

  lemma MapsToKept(t: Tables, t': Tables, role: Id, code: string)
    requires MapsTo(t, role, code) && t'.permissions == t.permissions
    requires forall row :: row in t.mappings && row.0 == role ==> row in t'.mappings
    ensures MapsTo(t', role, code)
  {
    var row :| row in t.mappings && row.0 == role && Carries(t, row.1, code);
    assert row in t'.mappings && Carries(t', row.1, code);
  }

  /** The check on a replacement of the OWNER role's permissions equips it again. */
  lemma ReplacementEquips(db: Db, op: Op)
    requires op.ReplacePermissions? && op.platform == Platform.Provider && Applicable(db, op)
    requires db.provider.roles[op.roleId].code == OWNER
    ensures Equipped(Effect(db, op).provider, op.roleId)
  {
    var t, t' := db.provider, Effect(db, op).provider;
    EffectShape(db, op, Platform.Provider);
    ValidatePermissionsExact(db, Platform.Provider, Dedup(op.permissionIds));
    forall code | code in OWNER_PERMISSIONS ensures MapsTo(t', op.roleId, code) {
      var id :| id in Dedup(op.permissionIds) && id in t.permissions && t.permissions[id].code == code;
      assert id in Elements(op.permissionIds);
      assert (op.roleId, id) in t'.mappings && Carries(t', id, code);
    }
  }

  lemma OthersKeepEquipped(db: Db, op: Op, role: Id)
    requires Applicable(db, op) && role in db.provider.roles && Equipped(db.provider, role)
    requires !(op.ReplacePermissions? && op.platform == Platform.Provider && op.roleId == role)
    ensures Equipped(Effect(db, op).provider, role)
  {
    EffectShape(db, op, Platform.Provider);
    forall code | code in OWNER_PERMISSIONS ensures MapsTo(Effect(db, op).provider, role, code) {
      assert MapsTo(db.provider, role, code);
      MapsToKept(db.provider, Effect(db, op).provider, role, code);
    }
  }

  lemma EffectKeepsEquipped(db: Db, op: Op)
    requires Applicable(db, op) && OwnerEquipped(db.provider)
    ensures OwnerEquipped(Effect(db, op).provider)
  {
    var t, t' := db.provider, Effect(db, op).provider;
    EffectShape(db, op, Platform.Provider);
    var owner :| owner in t.roles && t.roles[owner].code == OWNER;
    RoleRowStep(db, op, Platform.Provider, owner);
    assert owner in t'.roles && t'.roles[owner].code == OWNER;
    forall r | r in t'.roles && t'.roles[r].code == OWNER ensures Equipped(t', r) {
      if r in t.roles {
        RoleRowStep(db, op, Platform.Provider, r);
      }
      if op.ReplacePermissions? && op.platform == Platform.Provider && op.roleId == r {
        ReplacementEquips(db, op);
      } else {
        OthersKeepEquipped(db, op, r);
      }
    }
  }

  lemma {:induction false} HistoryEquipped(states: seq<Db>, ops: seq<Op>, i: nat)
    requires IsHistory(states, ops) && OwnerEquipped(states[0].provider) && i < |states|
    ensures OwnerEquipped(states[i].provider)
  {
    if i > 0 {
      HistoryEquipped(states, ops, i - 1);
      EffectKeepsEquipped(states[i - 1], ops[i - 1]);
    }
  }

  /** Codes of the permissions a resolved context carries. */
  function EffectiveCodes(t: Tables, context: Context): set<string> {
    set id | id in EffectivePermissions(t, context) && id in t.permissions :: t.permissions[id].code
  }

  lemma EquippedContext(t: Tables, context: Context, role: Id)
    requires Equipped(t, role) && role in EffectiveRoles(t, context)
    ensures OWNER_PERMISSIONS <= EffectiveCodes(t, context)
  {
    forall code | code in OWNER_PERMISSIONS ensures code in EffectiveCodes(t, context) {
      assert MapsTo(t, role, code);
      var row :| row in t.mappings && row.0 == role && Carries(t, row.1, code);
      assert row.1 in EffectivePermissions(t, context);
    }
  }

  /** In every committed state of every interleaving, a customer allowed to write effectively
      holds the permissions the OWNER role must carry. */
  lemma WritersHoldOwnerPermissions(run: seq<Sys>, moves: seq<Move>, db: Db, n: nat, k: nat, customer: Id,
                                    provider: Option<ProviderRef>)
    requires IsRun(run, moves, db) && WellFormed(db) && Keyed(db) && OwnerEquipped(db.provider)
    requires n < |run| && k < |run[n].states|
    ensures Keyed(run[n].states[k])
    ensures CanWrite(run[n].states[k], Migrated, customer, provider) ==>
              OWNER_PERMISSIONS <= EffectiveCodes(run[n].states[k].provider,
                                                  Resolve(run[n].states[k], Migrated, customer, provider).context)
  {
    CommittedKeyed(run, moves, db, n, k);
    RunInv(run, moves, db, n);
    HistoryEquipped(run[n].states, run[n].ops, k);
    var now := run[n].states[k];
    if CanWrite(now, Migrated, customer, provider) {
      var context := Resolve(now, Migrated, customer, provider).context;
      var r :| r in EffectiveRoles(now.provider, context) && now.provider.roles[r].code == OWNER;
      EquippedContext(now.provider, context, r);
    }
  }
}
