/** What a committed mutation means for the administrators it concerns: which permission
    decisions the guard takes afterwards, and how a later mutation takes it back. */
module MutationConsequences {
  import opened Basics
  import opened AuthorizationTables
  import opened RecoveryCapability
  import opened AuthorizationKernel
  import opened AuthorizationHistory

  // ----- Decisions, role by role -----

  /** The role is usable and mapped to an effective permission with the code. */
  predicate Gives(t: Tables, role: Id, code: string) {
    RoleUsable(t, role) && MapsTo(t, role, code)
  }

  predicate MapsTo(t: Tables, role: Id, code: string) {
    exists row :: row in t.mappings && row.0 == role && Carries(t, row.1, code)
  }

  predicate Carries(t: Tables, permission: Id, code: string) {
    permission in t.permissions && t.permissions[permission].Effective() && t.permissions[permission].code == code
  }

  predicate ActiveAdministrator(t: Tables, administrator: Id) {
    administrator in t.subjects && t.subjects[administrator].Administrator? && t.subjects[administrator].isActive
  }

  /** The guard's EXISTS over four joined tables is: active, and assigned some role that gives the code. */
  lemma DecisionByRoles(t: Tables, administrator: Id, code: string)
    ensures HasPermission(t, administrator, code) <==>
              && ActiveAdministrator(t, administrator)
              && exists r :: (administrator, r) in t.assignments && Gives(t, r, code)
  {
    if HasPermission(t, administrator, code) {
      var a, m :| a in t.assignments && m in t.mappings && a.0 == administrator && Joined(t, a, m, code);
      assert (administrator, a.1) in t.assignments && Carries(t, m.1, code);
      assert Gives(t, a.1, code);
    }
    if ActiveAdministrator(t, administrator) && exists r :: (administrator, r) in t.assignments && Gives(t, r, code) {
      var r :| (administrator, r) in t.assignments && Gives(t, r, code);
      var m :| m in t.mappings && m.0 == r && Carries(t, m.1, code);
      assert Joined(t, (administrator, r), m, code);
    }
  }

  /** Two tables with the same subjects and assignments decide alike when their assigned roles give alike. */
  lemma SameDecisions(t: Tables, t': Tables, administrator: Id, code: string)
    requires t'.subjects == t.subjects && t'.assignments == t.assignments
    requires forall r :: (administrator, r) in t.assignments ==> (Gives(t', r, code) <==> Gives(t, r, code))
    ensures HasPermission(t', administrator, code) <==> HasPermission(t, administrator, code)
  {
    DecisionByRoles(t, administrator, code);
    DecisionByRoles(t', administrator, code);
  }

  lemma SameMappings(t: Tables, t': Tables, role: Id, code: string)
    requires t'.permissions == t.permissions
    requires forall row: (Id, Id) :: row.0 == role ==> (row in t'.mappings <==> row in t.mappings)
    ensures MapsTo(t', role, code) <==> MapsTo(t, role, code)
  {
    if MapsTo(t, role, code) {
      var row :| row in t.mappings && row.0 == role && Carries(t, row.1, code);
      assert row in t'.mappings && Carries(t', row.1, code);
    }
    if MapsTo(t', role, code) {
      var row :| row in t'.mappings && row.0 == role && Carries(t', row.1, code);
      assert row in t.mappings && Carries(t, row.1, code);
    }
  }

  /** Creating or deleting a role changes no decision about anybody: a new role is not
      assigned yet, and a deleted one is assigned to nobody. */
  lemma CreateAndDeleteDecideNothing(db: Db, op: Op, administrator: Id, code: string)
    requires (op.CreateRole? || op.DeleteRole?) && Applicable(db, op) && Current(db, op)
    requires Constrained(db.Of(op.platform))
    ensures HasPermission(Effect(db, op).Of(op.platform), administrator, code) <==>
            HasPermission(db.Of(op.platform), administrator, code)
  {
    var t, t' := db.Of(op.platform), Effect(db, op).Of(op.platform);
    EffectShape(db, op, op.platform);
    forall r | (administrator, r) in t.assignments ensures Gives(t', r, code) <==> Gives(t, r, code) {
      assert r != op.roleId;
      SameMappings(t, t', r, code);
    }
    SameDecisions(t, t', administrator, code);
  }

  /** The status a role has after an update. */
  function StatusAfter(t: Tables, op: Op): RoleStatus
    requires op.UpdateRole? && op.roleId in t.roles
  {
    if op.newStatus.Some? then op.newStatus.value else t.roles[op.roleId].status
  }

  lemma UpdateGives(db: Db, op: Op, role: Id, code: string)
    requires op.UpdateRole? && Applicable(db, op)
    ensures var t, t' := db.Of(op.platform), Effect(db, op).Of(op.platform);
            Gives(t', role, code) <==>
              if role == op.roleId then StatusAfter(t, op) == RoleActive && MapsTo(t, role, code)
              else Gives(t, role, code)
  {
    EffectShape(db, op, op.platform);
    SameMappings(db.Of(op.platform), Effect(db, op).Of(op.platform), role, code);
  }

  /** After an update an administrator may do what other roles give, and what the updated role
      is mapped to exactly if it is assigned and its status is now active. */
  lemma UpdateDecides(db: Db, op: Op, administrator: Id, code: string)
    requires op.UpdateRole? && Applicable(db, op)
    ensures var t := db.Of(op.platform);
            HasPermission(Effect(db, op).Of(op.platform), administrator, code) <==>
              ActiveAdministrator(t, administrator) &&
              (|| (exists r :: r != op.roleId && (administrator, r) in t.assignments && Gives(t, r, code))
               || ((administrator, op.roleId) in t.assignments && StatusAfter(t, op) == RoleActive
                   && MapsTo(t, op.roleId, code)))
  {
    var t, t' := db.Of(op.platform), Effect(db, op).Of(op.platform);
    EffectShape(db, op, op.platform);
    DecisionByRoles(t', administrator, code);
    forall r ensures Gives(t', r, code) <==>
        if r == op.roleId then StatusAfter(t, op) == RoleActive && MapsTo(t, r, code) else Gives(t, r, code)
    {
      UpdateGives(db, op, r, code);
    }
  }

  /** After a replacement of its permissions a usable role gives exactly the codes of the new list. */
  lemma PermissionsDecide(db: Db, op: Op, role: Id, code: string)
    requires op.ReplacePermissions? && Applicable(db, op)
    ensures var t, t' := db.Of(op.platform), Effect(db, op).Of(op.platform);
            Gives(t', role, code) <==>
              if role == op.roleId
              then RoleUsable(t, role) && exists id :: id in op.permissionIds && Carries(t, id, code)
              else Gives(t, role, code)
  {
    var t, t' := db.Of(op.platform), Effect(db, op).Of(op.platform);
    EffectShape(db, op, op.platform);
    if role == op.roleId {
      assert forall id :: id in Elements(op.permissionIds) <==> id in op.permissionIds;
      forall id | id in op.permissionIds ensures (role, id) in t'.mappings {
      }
      assert forall row :: row in t'.mappings && row.0 == role ==> row.1 in op.permissionIds;
      if id :| id in op.permissionIds && Carries(t, id, code) {
        assert (role, id) in t'.mappings && Carries(t', (role, id).1, code);
      }
      if MapsTo(t', role, code) {
        var row :| row in t'.mappings && row.0 == role && Carries(t', row.1, code);
        assert Carries(t, row.1, code);
      }
    } else {
      SameMappings(t, t', role, code);
    }
  }

  /** After a replacement of roles the subject may do exactly what the listed roles give, and
      nobody else's decisions change. */
  lemma RolesDecide(db: Db, op: Op, administrator: Id, code: string)
    requires op.ReplaceRoles? && Applicable(db, op)
    ensures var t, t' := db.Of(op.platform), Effect(db, op).Of(op.platform);
            HasPermission(t', administrator, code) <==>
              if administrator == op.subjectId
              then ActiveAdministrator(t, administrator) && exists r :: r in op.roleIds && Gives(t, r, code)
              else HasPermission(t, administrator, code)
  {
    var t, t' := db.Of(op.platform), Effect(db, op).Of(op.platform);
    EffectShape(db, op, op.platform);
    DecisionByRoles(t, administrator, code);
    DecisionByRoles(t', administrator, code);
    forall r ensures Gives(t', r, code) <==> Gives(t, r, code) {
      SameMappings(t, t', r, code);
    }
    assert forall r :: r in Elements(op.roleIds) <==> r in op.roleIds;
    forall r ensures (administrator, r) in t'.assignments <==>
                     if administrator == op.subjectId then r in op.roleIds else (administrator, r) in t.assignments
    {
    }
  }

  /** Deleting an unused role changes no recovery capability. */
  lemma DeletionKeepsRecovery(db: Db, op: Op)
    requires op.DeleteRole? && op.platform.Administration? && Applicable(db, op) && Current(db, op)
    requires Constrained(db.Of(op.platform))
    ensures HasRecovery(Effect(db, op).administration) <==> HasRecovery(db.administration)
  {
    var t, t' := db.administration, Effect(db, op).administration;
    EffectShape(db, op, Administration);
    forall a ensures a in RecoveryAdmins(t') <==> a in RecoveryAdmins(t) {
      RecoveryAdminsExact(t, a);
      RecoveryAdminsExact(t', a);
      forall code ensures HasPermission(t', a, code) <==> HasPermission(t, a, code) {
        CreateAndDeleteDecideNothing(db, op, a, code);
      }
    }
  }

  /** A live role is deleted exactly when it is custom, unused and its code is not OWNER, whatever
      its platform, and on ADMINISTRATION only while somebody holds the recovery permissions. */
  lemma DeletionExact(db: Db, p: Platform, role: Id, actor: Id)
    requires RoleLive(db.Of(p), role) && Constrained(db.Of(p))
    ensures var t := db.Of(p);
            Execute(db, Op.DeleteRole(p, role, actor)).Committed? <==>
              && !t.roles[role].isSystem && t.roles[role].code != OWNER
              && (forall subject :: (subject, role) !in t.assignments)
              && (p.Administration? ==> HasRecovery(t))
  {
    var t, op := db.Of(p), Op.DeleteRole(p, role, actor);
    ExecuteExact(db, op);
    if row :| row in t.assignments && row.1 == role {
      assert (row.0, role) in t.assignments;
    }
    if p.Administration? && Applicable(db, op) && Current(db, op) {
      DeletionKeepsRecovery(db, op);
    }
  }

  /** On every platform a custom, unused role with code OWNER can be created and never deleted. */
  lemma OwnerCodeUndeletable(p: Platform, actor: Id) returns (db: Db, role: Id)
    ensures WellFormed(db) && Execute(db, Op.CreateRole(p, role, OWNER, "Owner", None, [], actor)).Committed?
    ensures var created := Effect(db, Op.CreateRole(p, role, OWNER, "Owner", None, [], actor));
            && !created.Of(p).roles[role].isSystem && !InUse(created.Of(p), role)
            && Execute(created, Op.DeleteRole(p, role, actor)) == Failed(SystemRoleImmutable)
  {
    var none := Tables(map[], map[], {}, {}, map[]);
    db, role := Db(none, none, none, map[], []), 1;
    forall q: Platform ensures db.Of(q) == none {
    }
    ExecuteExact(db, Op.CreateRole(p, role, OWNER, "Owner", None, [], actor));
    EffectShape(db, Op.CreateRole(p, role, OWNER, "Owner", None, [], actor), p);
  }

  // ----- Taking a mutation back -----

  lemma ReplacedBack(rows: set<(Id, Id)>, key: Id, ids: set<Id>)
    ensures var changed := rows - RowsOf(rows, key) + Pairs(key, ids);
            changed - RowsOf(changed, key) + Pairs(key, set row | row in rows && row.0 == key :: row.1) == rows
  {
    var before := set row | row in rows && row.0 == key :: row.1;
    var changed := rows - RowsOf(rows, key) + Pairs(key, ids);
    var restored := changed - RowsOf(changed, key) + Pairs(key, before);
    forall row: (Id, Id) ensures row in restored <==> row in rows {
      if row.0 == key {
        assert row == (key, row.1);
        assert row in restored <==> row.1 in before;
      }
    }
  }

  /** Assigning the before-state of the audit row restores the platform's tables exactly. */
  lemma RolesTakenBack(db: Db, op: Op, back: Op)
    requires op.ReplaceRoles? && Applicable(db, op)
    requires back.ReplaceRoles? && back.platform == op.platform && back.subjectId == op.subjectId
    requires Elements(back.roleIds) == BeforeOf(db, op) && Applicable(Effect(db, op), back)
    ensures Effect(Effect(db, op), back).Of(op.platform) == db.Of(op.platform)
  {
    EffectShape(db, op, op.platform);
    EffectShape(Effect(db, op), back, op.platform);
    ReplacedBack(db.Of(op.platform).assignments, op.subjectId, Elements(op.roleIds));
  }

  /** Mapping the before-state of the audit row restores the tables but for two more versions. */
  lemma PermissionsTakenBack(db: Db, op: Op, back: Op)
    requires op.ReplacePermissions? && Applicable(db, op)
    requires back.ReplacePermissions? && back.platform == op.platform && back.roleId == op.roleId
    requires Elements(back.permissionIds) == BeforeOf(db, op) && Applicable(Effect(db, op), back)
    ensures back.expectedVersion == op.expectedVersion + 1
    ensures var t := db.Of(op.platform);
            Effect(Effect(db, op), back).Of(op.platform) ==
            t.(roles := t.roles[op.roleId := t.roles[op.roleId].(version := op.expectedVersion + 2)])
  {
    EffectShape(db, op, op.platform);
    EffectShape(Effect(db, op), back, op.platform);
    ReplacedBack(db.Of(op.platform).mappings, op.roleId, Elements(op.permissionIds));
  }

  /** Writing back name, description and status restores the role but for two more versions. */
  lemma UpdateTakenBack(db: Db, op: Op, back: Op)
    requires op.UpdateRole? && Applicable(db, op)
    requires back.UpdateRole? && back.platform == op.platform && back.roleId == op.roleId
    requires Applicable(Effect(db, op), back)
    requires var role := db.Of(op.platform).roles[op.roleId];
             && back.newName == Some(role.name) && back.newDescription == Some(role.description)
             && back.newStatus == Some(role.status)
    ensures back.expectedVersion == op.expectedVersion + 1
    ensures var t := db.Of(op.platform);
            Effect(Effect(db, op), back).Of(op.platform) ==
            t.(roles := t.roles[op.roleId := t.roles[op.roleId].(version := op.expectedVersion + 2)])
  {
    EffectShape(db, op, op.platform);
    EffectShape(Effect(db, op), back, op.platform);
  }
}
