/** The mutating transactions in their imperative form: each works on its own copy
    of the tables, statement by statement and row by row, and installs it only on commit. */
module AuthorizationStore {
  import opened Basics
  import opened AuthorizationTables
  import opened AuthorizationKernel

  /** One INSERT for each id. */
  method InsertRows(table: set<(Id, Id)>, a: Id, ids: seq<Id>) returns (rows: set<(Id, Id)>)
    ensures rows == table + Pairs(a, Elements(ids))
  {
    rows := table;
    for i := 0 to |ids|
      invariant rows == table + Pairs(a, Elements(ids[..i]))
    {
      rows := rows + {(a, ids[i])};
      assert Elements(ids[..i + 1]) == Elements(ids[..i]) + {ids[i]};
    }
    assert ids[..|ids|] == ids;
  }

  /** ensureOwnerMembership: reactivates the customer's membership row in the provider, soft-deleted
      or suspended as it may be, or inserts one, and assigns it the active OWNER role. */
  method EnsureOwnerMembership(t: Tables, provider: Id, customer: Id, generatedId: Id)
    returns (error: Option<Error>, membership: Id, work: Tables)
    ensures error == Some(ProviderForbidden) <==> OwnerRoles(t) == {}
    ensures error == Some(ProviderAlreadyExists) <==>
            OwnerRoles(t) != {} && !HasMember(t, provider, customer) && generatedId in t.subjects
    ensures error.None? ==>
              && (if HasMember(t, provider, customer) then Joins(t, membership, provider, customer)
                  else membership == generatedId)
              && work == t.(subjects := t.subjects[membership := Membership(false, provider, customer, MemberActive)],
                            assignments := t.assignments + Pairs(membership, OwnerRoles(t)))
              && (UniqueMembers(t) ==> UniqueMembers(work)) && HasOwner(work, provider)
    ensures error.None? || error == Some(ProviderForbidden) || error == Some(ProviderAlreadyExists)
  {
    membership, work := generatedId, t;
    var owners := OwnerRoles(t);
    if owners == {} { return Some(ProviderForbidden), membership, work; }
    if HasMember(t, provider, customer) {
      var row :| row in t.subjects && Joins(t, row, provider, customer);
      membership := row;
      var restored := t.subjects[membership].(deleted := false, memberStatus := MemberActive);
      work := work.(subjects := work.subjects[membership := restored]);
    } else {
      if generatedId in t.subjects { return Some(ProviderAlreadyExists), membership, work; }
      work := work.(subjects := work.subjects[membership := Membership(false, provider, customer, MemberActive)]);
    }
    work := work.(assignments := work.assignments + Pairs(membership, owners));
    EnsuredOwner(t, provider, customer, membership, work);
    error := None;
  }

  lemma EnsuredOwner(t: Tables, provider: Id, customer: Id, membership: Id, work: Tables)
    requires OwnerRoles(t) != {}
    requires if HasMember(t, provider, customer) then Joins(t, membership, provider, customer)
               else membership !in t.subjects
    requires work == t.(subjects := t.subjects[membership := Membership(false, provider, customer, MemberActive)],
                        assignments := t.assignments + Pairs(membership, OwnerRoles(t)))
    ensures UniqueMembers(t) ==> UniqueMembers(work)
    ensures HasOwner(work, provider)
  {
    forall m, n, p, c | UniqueMembers(t) && Joins(work, m, p, c) && Joins(work, n, p, c) ensures m == n {
      assert m != membership ==> Joins(t, m, p, c);
      assert n != membership ==> Joins(t, n, p, c);
    }
    var r :| r in OwnerRoles(t);
    assert r in OwnerRoles(work) && (membership, r) in work.assignments;
    assert membership in Holders(work, provider, r);
  }

  /** A provider without an account row has no membership yet. */
  lemma NewProviderMemberless(db: Db, provider: Id, customer: Id)
    requires MembersKnown(db) && provider !in db.accounts
    ensures !HasMember(db.provider, provider, customer)
  {
    if m :| m in db.provider.subjects && Joins(db.provider, m, provider, customer) {
      assert false;
    }
  }

  class Store {
    var db: Db

    constructor (initial: Db)
      ensures db == initial
    {
      db := initial;
    }

    /** Commits the working tables with the transaction's audit rows, unless a
        final assertion refuses them. */
    method Finish(op: Op, work: Tables, events: seq<Event>) returns (outcome: Outcome)
      modifies this
      ensures var after := old(db).With(op.Home(), work).(audit := old(db).audit + events);
              && outcome == Guarded(after, op)
              && db == if outcome.Committed? then after else old(db)
    {
      var after := db.With(op.Home(), work).(audit := db.audit + events);
      outcome := Guarded(after, op);
      if outcome.Committed? {
        db := after;
      }
    }

    method CreateRole(platform: Platform, roleId: Id, code: string, name: string, description: Option<string>,
                      permissionIds: seq<Id>, actor: Id)
      returns (outcome: Outcome)
      modifies this
      ensures outcome == Execute(old(db),
                                 Op.CreateRole(platform, roleId, code, name, description, permissionIds, actor))
      ensures db == if outcome.Committed? then outcome.db else old(db)
    {
      var op := Op.CreateRole(platform, roleId, code, name, description, permissionIds, actor);
      var ids := Dedup(permissionIds);
      var work := db.Of(platform);
      var invalid := ValidatePermissions(db, platform, ids);
      if invalid.Some? { return Failed(invalid.value); }
      if roleId in work.roles || CodeInUse(work, code) { return Failed(RoleCodeExists); }
      work := work.(roles := work.roles[roleId := NewRole(op)]);
      var mappings := InsertRows(work.mappings, roleId, ids);
      work := work.(mappings := mappings);
      outcome := Finish(op, work, EventsOf(op, {}));
    }

    method UpdateRole(platform: Platform, roleId: Id, name: Option<string>, description: Option<Option<string>>,
                      status: Option<RoleStatus>, expectedVersion: nat, actor: Id)
      returns (outcome: Outcome)
      modifies this
      ensures outcome == Execute(old(db),
                                 Op.UpdateRole(platform, roleId, name, description, status, expectedVersion, actor))
      ensures db == if outcome.Committed? then outcome.db else old(db)
    {
      var op := Op.UpdateRole(platform, roleId, name, description, status, expectedVersion, actor);
      var work := db.Of(platform);
      if !RoleLive(work, roleId) { return Failed(RoleNotFound); }
      var current := work.roles[roleId];
      if !StatusChangeAllowed(platform, current, status) { return Failed(SystemRoleImmutable); }
      if current.version != expectedVersion { return Failed(RoleVersionConflict); }
      work := work.(roles := work.roles[roleId := UpdatedRole(op, current)]);
      outcome := Finish(op, work, EventsOf(op, {}));
    }

    method DeleteRole(platform: Platform, roleId: Id, actor: Id) returns (outcome: Outcome)
      modifies this
      ensures outcome == Execute(old(db), Op.DeleteRole(platform, roleId, actor))
      ensures db == if outcome.Committed? then outcome.db else old(db)
    {
      var op := Op.DeleteRole(platform, roleId, actor);
      var work := db.Of(platform);
      if !RoleLive(work, roleId) { return Failed(RoleNotFound); }
      var role := work.roles[roleId];
      if !Deletable(role) { return Failed(SystemRoleImmutable); }
      if InUse(work, roleId) { return Failed(RoleInUse); }
      work := work.(roles := work.roles[roleId := UpdatedRole(op, role)]);
      outcome := Finish(op, work, EventsOf(op, {}));
    }

    method ReplaceRolePermissions(platform: Platform, roleId: Id, permissionIds: seq<Id>, expectedVersion: nat,
                                  actor: Id)
      returns (outcome: Outcome)
      modifies this
      ensures outcome == Execute(old(db), ReplacePermissions(platform, roleId, permissionIds, expectedVersion, actor))
      ensures db == if outcome.Committed? then outcome.db else old(db)
    {
      var op := ReplacePermissions(platform, roleId, permissionIds, expectedVersion, actor);
      var ids := Dedup(permissionIds);
      var work := db.Of(platform);
      if !RoleLive(work, roleId) { return Failed(RoleNotFound); }
      var role := work.roles[roleId];
      var before := PermissionsOf(work, roleId);
      var invalid := ValidatePermissions(db, platform, ids);
      if invalid.Some? { return Failed(invalid.value); }
      if platform == Platform.Provider && role.code == OWNER && !OwnerPermissionsKept(work, ids) {
        return Failed(ProviderOwnerProtection);
      }
      if role.version != expectedVersion { return Failed(RoleVersionConflict); }
      work := work.(roles := work.roles[roleId := UpdatedRole(op, role)]);
      var mappings := InsertRows(work.mappings - RowsOf(work.mappings, roleId), roleId, ids);
      work := work.(mappings := mappings);
      outcome := Finish(op, work, EventsOf(op, before));
    }

    method ReplaceSubjectRoles(platform: Platform, subjectId: Id, roleIds: seq<Id>, actor: Id)
      returns (outcome: Outcome)
      modifies this
      ensures outcome == Execute(old(db), ReplaceRoles(platform, subjectId, roleIds, actor))
      ensures db == if outcome.Committed? then outcome.db else old(db)
    {
      var op := ReplaceRoles(platform, subjectId, roleIds, actor);
      var ids := Dedup(roleIds);
      var work := db.Of(platform);
      if !SubjectLive(work, subjectId) { return Failed(SubjectNotFound); }
      var invalid := ValidateRoleIds(db, platform, ids);
      if invalid.Some? { return Failed(invalid.value); }
      if exists r :: r in ids && RoleLive(work, r) && work.roles[r].status != RoleActive {
        return Failed(DisabledRole);
      }
      var before := RolesOf(work, subjectId);
      var assignments := InsertRows(work.assignments - RowsOf(work.assignments, subjectId), subjectId, ids);
      work := work.(assignments := assignments);
      outcome := Finish(op, work, EventsOf(op, before));
    }

    /** Creates a pending provider account and, in the same transaction, its owner membership. */
    method CreateProvider(providerId: Id, membershipId: Id, customerId: Id) returns (outcome: Outcome)
      requires MembersKnown(db)
      modifies this
      ensures outcome == Execute(old(db), Provision(providerId, membershipId, customerId))
      ensures db == if outcome.Committed? then outcome.db else old(db)
      ensures MembersKnown(db)
    {
      if HasAccount(db, customerId) || providerId in db.accounts { return Failed(ProviderAlreadyExists); }
      if customerId !in db.marketplace.subjects { return Failed(ForeignKeyViolation); }
      NewProviderMemberless(db, providerId, customerId);
      var accounts := db.accounts[providerId := Account(customerId, AccountActive, Pending, false)];
      var error, membership, work := EnsureOwnerMembership(db.provider, providerId, customerId, membershipId);
      if error.Some? { return Failed(error.value); }
      assert db.audit + [] == db.audit;
      db := db.(provider := work, accounts := accounts);
      outcome := Committed(db);
    }

    method ApproveProvider(accountId: Id) returns (outcome: Outcome)
      modifies this
      ensures outcome == Execute(old(db), Approve(accountId))
      ensures db == if outcome.Committed? then outcome.db else old(db)
    {
      if accountId !in db.accounts || db.accounts[accountId].deleted { return Failed(ProviderNotFound); }
      var account := db.accounts[accountId];
      if account.verification != Pending { return Failed(ProviderNotPending); }
      if !SubjectLive(db.marketplace, account.ownerCustomerId) { return Failed(ProviderForbidden); }
      var accounts := db.accounts[accountId := account.(status := AccountActive, verification := Verified)];
      assert db.audit + [] == db.audit;
      db := db.(accounts := accounts);
      outcome := Committed(db);
    }
  }
}
