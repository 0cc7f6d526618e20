/** The relational state the authorization services work on: one set of role,
    permission, mapping, assignment and subject tables for each platform, the
    provider accounts, and the audit log shared by all platforms. */
module AuthorizationTables {
  import opened Basics

  datatype Platform = Marketplace | Provider | Administration

  datatype RoleStatus = RoleActive | RoleDisabled

  datatype Role = Role(
    code: string, name: string, description: Option<string>,
    isSystem: bool, status: RoleStatus, version: nat, deleted: bool)
  {
    predicate Usable() { !deleted && status == RoleActive }
  }

  datatype Permission = Permission(code: string, isAssignable: bool, deprecated: bool, deleted: bool)
  {
    predicate Effective() { !deleted && !deprecated }
  }

  datatype MemberStatus = MemberActive | MemberSuspended | MemberRemoved

  datatype Subject =
    | Customer(deleted: bool)
    | Membership(deleted: bool, providerId: Id, customerId: Id, memberStatus: MemberStatus)
    | Administrator(deleted: bool, isActive: bool)

  /** The tables one platform owns; mappings are (role, permission) rows and
      assignments are (subject, role) rows. */
  datatype Tables = Tables(
    roles: map<Id, Role>,
    permissions: map<Id, Permission>,
    mappings: set<(Id, Id)>,
    assignments: set<(Id, Id)>,
    subjects: map<Id, Subject>)

  datatype AccountStatus = AccountActive | AccountSuspended
  datatype Verification = Unverified | Pending | Verified | Rejected
  datatype Account = Account(ownerCustomerId: Id, status: AccountStatus, verification: Verification, deleted: bool)

  /** What an audit row says happened; before and after states are kept where
      they carry permission or role ids. */
  datatype Action =
    | RoleCreated(after: set<Id>)
    | RoleUpdated
    | RoleDisabledByUpdate
    | RoleDeleted
    | RolePermissionsReplaced(before: set<Id>, after: set<Id>)
    | SubjectRolesReplaced(before: set<Id>, after: set<Id>)

  datatype Event = Event(platform: Platform, target: Id, action: Action, actor: Id)
  {
    predicate TargetsRole(p: Platform, role: Id) {
      platform == p && target == role && !action.SubjectRolesReplaced?
    }
    predicate TargetsSubject(p: Platform, subject: Id) {
      platform == p && target == subject && action.SubjectRolesReplaced?
    }
  }

  datatype Db = Db(
    marketplace: Tables, provider: Tables, administration: Tables,
    accounts: map<Id, Account>, audit: seq<Event>)
  {
    function Of(p: Platform): Tables {
      match p
      case Marketplace => marketplace
      case Provider => provider
      case Administration => administration
    }

    function With(p: Platform, t: Tables): Db {
      match p
      case Marketplace => this.(marketplace := t)
      case Provider => this.(provider := t)
      case Administration => this.(administration := t)
    }
  }

  const OWNER := "OWNER"
  const ROLE_WRITE := "authorization:role:write"
  const ASSIGNMENT_WRITE := "authorization:assignment:write"
  const RECOVERY: set<string> := {ROLE_WRITE, ASSIGNMENT_WRITE}
  const OWNER_PERMISSIONS: set<string> := {"provider-account:read", "provider-account:update"}

  predicate RoleLive(t: Tables, role: Id) {
    role in t.roles && !t.roles[role].deleted
  }

  predicate RoleUsable(t: Tables, role: Id) {
    role in t.roles && t.roles[role].Usable()
  }

  predicate SubjectLive(t: Tables, subject: Id) {
    subject in t.subjects && !t.subjects[subject].deleted
  }

  function PermissionsOf(t: Tables, role: Id): set<Id> {
    set row | row in t.mappings && row.0 == role :: row.1
  }

  function RolesOf(t: Tables, subject: Id): set<Id> {
    set row | row in t.assignments && row.0 == subject :: row.1
  }

  function Pairs(a: Id, bs: set<Id>): set<(Id, Id)> {
    set b | b in bs :: (a, b)
  }

  /** The rows with first column a. */
  function RowsOf(rows: set<(Id, Id)>, a: Id): set<(Id, Id)> {
    set row | row in rows && row.0 == a
  }

  function Elements(ids: seq<Id>): set<Id> {
    set id | id in ids
  }

  /** Foreign keys and unique role codes, which the schema enforces. */
  ghost predicate Constrained(t: Tables) {
    && (forall row :: row in t.mappings ==> row.0 in t.roles && row.1 in t.permissions)
    && (forall row :: row in t.assignments ==> row.0 in t.subjects && row.1 in t.roles)
    && (forall a, b :: a in t.roles && b in t.roles && t.roles[a].code == t.roles[b].code ==> a == b)
  }

  /** Unique owner_customer_id, soft-deleted rows included. */
  ghost predicate UniqueOwners(accounts: map<Id, Account>) {
    forall a, b :: a in accounts && b in accounts && accounts[a].ownerCustomerId == accounts[b].ownerCustomerId ==>
        a == b
  }

  predicate Joins(t: Tables, membership: Id, provider: Id, customer: Id) {
    && membership in t.subjects && t.subjects[membership].Membership?
    && t.subjects[membership].providerId == provider && t.subjects[membership].customerId == customer
  }

  /** Unique (provider_id, customer_id), soft-deleted rows included. */
  ghost predicate UniqueMembers(t: Tables) {
    forall m, n, p, c :: Joins(t, m, p, c) && Joins(t, n, p, c) ==> m == n
  }

  predicate HasMember(t: Tables, provider: Id, customer: Id) {
    exists m :: m in t.subjects && Joins(t, m, provider, customer)
  }

  /** The foreign key of a membership's provider. */
  ghost predicate MembersKnown(db: Db) {
    forall m :: m in db.provider.subjects && db.provider.subjects[m].Membership? ==>
      db.provider.subjects[m].providerId in db.accounts
  }

  /** A duplicate-free list and its set of elements have the same size. */
  lemma {:induction false} DistinctCardinality(ids: seq<Id>)
    requires Distinct(ids)
    ensures |Elements(ids)| == |ids|
  {
    if ids != [] {
      var rest := ids[..|ids| - 1];
      DistinctCardinality(rest);
      assert Elements(ids) == Elements(rest) + {ids[|ids| - 1]};
    }
  }

  /** Two sets one inside the other are equal exactly when they have the same size. */
  lemma SubsetSameSize<T>(small: set<T>, big: set<T>)
    requires small <= big
    ensures |small| == |big| <==> small == big
  {
    assert big == small + (big - small);
    assert |big| == |small| + |big - small|;
  }
}
