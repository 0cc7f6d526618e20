/** The operator backfill that repairs legacy provider accounts, owner authority and estate
    bindings. Its statements commit one by one, so a failing run keeps what it did. */
module LegacyProviderBackfill {
  import opened Basics
  import opened AuthorizationTables
  import opened AuthorizationKernel
  import opened EstateOwnership
  import ProviderAccess

  datatype Report = Finished(created: nat) | OwnerRoleMissing | InvariantsFailed

  /** The owners of estates that are not soft-deleted. */
  function LiveOwners(estates: map<Id, Estate>): set<Id> {
    set e | e in estates && !estates[e].deleted :: estates[e].customerId
  }

  /** The customer owns an estate that is not soft-deleted. */
  predicate HasLiveEstate(estates: map<Id, Estate>, customer: Id) {
    exists e :: e in estates && !estates[e].deleted && estates[e].customerId == customer
  }

  lemma LiveOwnersExact(estates: map<Id, Estate>, customer: Id)
    ensures customer in LiveOwners(estates) <==> HasLiveEstate(estates, customer)
  {
    if HasLiveEstate(estates, customer) {
      var e :| e in estates && !estates[e].deleted && estates[e].customerId == customer;
    }
  }

  // ----- The statements -----

  function Reactivated(accounts: map<Id, Account>, owners: set<Id>): map<Id, Account> {
    map a | a in accounts ::
      if !accounts[a].deleted && accounts[a].ownerCustomerId in owners
      then accounts[a].(status := AccountActive, verification := Verified) else accounts[a]
  }

  /** The row is the membership of its provider's owner, that provider being one of the given ones. */
  predicate OwnerRow(accounts: map<Id, Account>, providers: set<Id>, row: Subject) {
    && row.Membership? && row.providerId in providers && row.providerId in accounts
    && accounts[row.providerId].ownerCustomerId == row.customerId
  }

  /** ON CONFLICT (provider_id, customer_id) DO UPDATE, for the rows that exist. */
  function Restored(db: Db, providers: set<Id>): map<Id, Subject> {
    map m | m in db.provider.subjects ::
      if OwnerRow(db.accounts, providers, db.provider.subjects[m])
      then db.provider.subjects[m].(deleted := false, memberStatus := MemberActive) else db.provider.subjects[m]
  }

  /** The active owner memberships that get the role; here a soft-deleted account counts too. */
  function OwnerMembers(db: Db, owners: set<Id>): set<Id> {
    set m | m in db.provider.subjects && ActiveOwner(db, owners, db.provider.subjects[m])
  }

  predicate ActiveOwner(db: Db, owners: set<Id>, row: Subject) {
    && OwnerRow(db.accounts, db.accounts.Keys, row) && row.customerId in owners && !row.deleted
    && row.memberStatus == MemberActive
  }

  // ----- The final self-check -----

  function UnboundLive(estates: map<Id, Estate>): set<Id> {
    set e | e in estates && !estates[e].deleted && estates[e].providerId.None?
  }

  function ActiveOwnerships(db: Db, provider: Id): set<Id>
    requires provider in db.accounts
  {
    set m | m in db.provider.subjects && Joins(db.provider, m, provider, db.accounts[provider].ownerCustomerId)
            && ActiveMember(db.provider, m, provider)
  }

  function WithoutOneOwnership(db: Db, owners: set<Id>): set<Id> {
    set p | p in OwnedAccounts(db.accounts, owners) && |ActiveOwnerships(db, p)| != 1
  }

  function WithoutRole(db: Db, owners: set<Id>, role: Id): set<Id> {
    set m | m in OwnerMembers(db, owners) && (m, role) !in db.provider.assignments
  }

  // ----- The run as functions -----

  /** Accounts inserted and reactivated, estates bound. */
  function AccountsPhase(s: State, accountIds: Generator, membershipIds: Generator): State
    requires Ready(s, accountIds, membershipIds)
  {
    var owners := LiveOwners(s.estates);
    AccountsInserted(s.db, owners, accountIds, ProviderIds(s));
    var accounts := Reactivated(WithAccounts(s.db, owners, accountIds).accounts, owners);
    s.(db := s.db.(accounts := accounts), estates := BoundEstates(s.estates, accounts))
  }

  /** Memberships upserted, OWNER granted. */
  function MembersPhase(db: Db, owners: set<Id>, membershipIds: Generator): Db
    requires FreshIds(membershipIds, db.provider.subjects.Keys)
  {
    var upserted := WithMembers(db, owners, membershipIds);
    var t := upserted.provider;
    upserted.(provider := t.(assignments := t.assignments + Grants(OwnerMembers(upserted, owners), OwnerRoles(t))))
  }

  function WithMembers(db: Db, owners: set<Id>, membershipIds: Generator): Db
    requires FreshIds(membershipIds, db.provider.subjects.Keys)
  {
    var providers := OwnedAccounts(db.accounts, owners);
    var subjects := Restored(db, providers) + MissingMemberships(db, providers, membershipIds);
    db.(provider := db.provider.(subjects := subjects))
  }

  function Backfill(s: State, accountIds: Generator, membershipIds: Generator): State
    requires Ready(s, accountIds, membershipIds)
  {
    var first := AccountsPhase(s, accountIds, membershipIds);
    if OwnerRoles(s.db.provider) == {} then first
    else first.(db := MembersPhase(first.db, LiveOwners(s.estates), membershipIds))
  }

  function ReportOf(s: State, accountIds: Generator, membershipIds: Generator): Report
    requires Ready(s, accountIds, membershipIds)
  {
    var s' := Backfill(s, accountIds, membershipIds);
    var owners := LiveOwners(s'.estates);
    if OwnerRoles(s.db.provider) == {} then OwnerRoleMissing
    else if UnboundLive(s'.estates) != {} || WithoutOneOwnership(s'.db, owners) != {}
            || exists r :: r in OwnerRoles(s.db.provider) && WithoutRole(s'.db, owners, r) != {} then InvariantsFailed
    else Finished(|Accountless(s.db, LiveOwners(s.estates))|)
  }

  class LegacyDatabase {
    var db: Db
    var estates: map<Id, Estate>
    const providerRequired: bool

    constructor (start: State)
      ensures Contents() == start
    {
      db, estates, providerRequired := start.db, start.estates, start.providerRequired;
    }

    function Contents(): State
      reads this
    {
      State(db, estates, providerRequired)
    }

    /** The first three statements. */
    method RestoreAccounts(accountIds: Generator, ghost membershipIds: Generator) returns (created: nat)
      requires Ready(Contents(), accountIds, membershipIds)
      modifies this
      ensures Contents() == AccountsPhase(old(Contents()), accountIds, membershipIds)
      ensures created == |Accountless(old(db), LiveOwners(old(estates)))|
    {
      AccountsInserted(db, LiveOwners(estates), accountIds, ProviderIds(Contents()));
      created := |Accountless(db, LiveOwners(estates))|;
      db := WithAccounts(db, LiveOwners(estates), accountIds);
      db := db.(accounts := Reactivated(db.accounts, LiveOwners(estates)));
      estates := BoundEstates(estates, db.accounts);
    }

    /** The upsert of owner memberships and the grant of the role to the active ones. */
    method RestoreOwners(ownerRole: Id, membershipIds: Generator)
      requires OwnerRoles(db.provider) == {ownerRole} && FreshIds(membershipIds, db.provider.subjects.Keys)
      modifies `db
      ensures db == MembersPhase(old(db), LiveOwners(estates), membershipIds)
    {
      var owners := LiveOwners(estates);
      var providers := OwnedAccounts(db.accounts, owners);
      var subjects := Restored(db, providers) + MissingMemberships(db, providers, membershipIds);
      db := db.(provider := db.provider.(subjects := subjects));
      var granted := Grants(OwnerMembers(db, owners), {ownerRole});
      db := db.(provider := db.provider.(assignments := db.provider.assignments + granted));
    }

    method Run(accountIds: Generator, membershipIds: Generator) returns (report: Report)
      requires Ready(Contents(), accountIds, membershipIds)
      modifies this
      ensures Contents() == Backfill(old(Contents()), accountIds, membershipIds)
      ensures report == ReportOf(old(Contents()), accountIds, membershipIds)
    {
      var created := RestoreAccounts(accountIds, membershipIds);
      PhaseKeepsOwners(old(Contents()), accountIds, membershipIds);
      if OwnerRoles(db.provider) == {} { return OwnerRoleMissing; }
      var ownerRole :| ownerRole in OwnerRoles(db.provider);
      SingleOwnerRole(db.provider, ownerRole);
      RestoreOwners(ownerRole, membershipIds);
      var owners := LiveOwners(estates);
      if |UnboundLive(estates)| != 0 || |WithoutOneOwnership(db, owners)| != 0
         || |WithoutRole(db, owners, ownerRole)| != 0 {
        return InvariantsFailed;
      }
      report := Finished(created);
    }
  }

  lemma SingleOwnerRole(t: Tables, role: Id)
    requires Constrained(t) && role in OwnerRoles(t)
    ensures OwnerRoles(t) == {role}
  {
  }

  lemma OwnersKept(estates: map<Id, Estate>, accounts: map<Id, Account>)
    requires UniqueOwners(accounts)
    ensures LiveOwners(BoundEstates(estates, accounts)) == LiveOwners(estates)
  {
    var bound := BoundEstates(estates, accounts);
    forall c | c in LiveOwners(estates) ensures c in LiveOwners(bound) {
      var e :| e in estates && !estates[e].deleted && estates[e].customerId == c;
      assert e in bound && !bound[e].deleted && bound[e].customerId == c;
    }
  }

  lemma PhaseKeepsOwners(s: State, accountIds: Generator, membershipIds: Generator)
    requires Ready(s, accountIds, membershipIds)
    ensures var first := AccountsPhase(s, accountIds, membershipIds);
            LiveOwners(first.estates) == LiveOwners(s.estates) && first.db.provider == s.db.provider
            && first.providerRequired == s.providerRequired && UniqueOwners(first.db.accounts)
  {
    var owners := LiveOwners(s.estates);
    AccountsInserted(s.db, owners, accountIds, ProviderIds(s));
    OwnersKept(s.estates, Reactivated(WithAccounts(s.db, owners, accountIds).accounts, owners));
  }

  // ----- What the memberships look like afterwards -----

  /** The upsert leaves exactly one row for every owner. */
  lemma UpsertedKeys(db: Db, owners: set<Id>, membershipIds: Generator)
    requires UniqueMembers(db.provider) && FreshIds(membershipIds, db.provider.subjects.Keys)
    ensures var t' := WithMembers(db, owners, membershipIds).provider;
            && UniqueMembers(t') && db.provider.subjects.Keys <= t'.subjects.Keys
            && forall p :: p in OwnedAccounts(db.accounts, owners) ==> HasMember(t', p, db.accounts[p].ownerCustomerId)
  {
    var providers := OwnedAccounts(db.accounts, owners);
    MembershipsInserted(db, providers, membershipIds);
    var plain := db.provider.(subjects := db.provider.subjects + MissingMemberships(db, providers, membershipIds));
    var t' := WithMembers(db, owners, membershipIds).provider;
    forall m, p, c ensures Joins(t', m, p, c) <==> Joins(plain, m, p, c) {
    }
    forall p | p in providers ensures HasMember(t', p, db.accounts[p].ownerCustomerId) {
      var m :| m in plain.subjects && Joins(plain, m, p, db.accounts[p].ownerCustomerId);
      assert Joins(t', m, p, db.accounts[p].ownerCustomerId);
    }
  }

  /** The owners' rows are active afterwards, and no other row is touched. */
  lemma UpsertedRows(db: Db, owners: set<Id>, membershipIds: Generator)
    requires UniqueMembers(db.provider) && FreshIds(membershipIds, db.provider.subjects.Keys)
    ensures var t, t' := db.provider, WithMembers(db, owners, membershipIds).provider;
            var providers := OwnedAccounts(db.accounts, owners);
            && (forall m :: m in t'.subjects && OwnerRow(db.accounts, providers, t'.subjects[m]) ==>
                  !t'.subjects[m].deleted && t'.subjects[m].memberStatus == MemberActive)
            && (forall m :: m in t.subjects && !OwnerRow(db.accounts, providers, t.subjects[m]) ==>
                  m in t'.subjects && t'.subjects[m] == t.subjects[m])
  {
  }

  /** The upsert leaves an active membership of the account's owner. */
  lemma OwnershipRow(db: Db, owners: set<Id>, membershipIds: Generator, p: Id) returns (m: Id)
    requires UniqueMembers(db.provider) && FreshIds(membershipIds, db.provider.subjects.Keys)
    requires p in OwnedAccounts(db.accounts, owners)
    ensures var t := WithMembers(db, owners, membershipIds).provider;
            && Joins(t, m, p, db.accounts[p].ownerCustomerId)
            && !t.subjects[m].deleted && t.subjects[m].memberStatus == MemberActive
  {
    UpsertedKeys(db, owners, membershipIds);
    UpsertedRows(db, owners, membershipIds);
    var t := WithMembers(db, owners, membershipIds).provider;
    assert HasMember(t, p, db.accounts[p].ownerCustomerId);
    m :| m in t.subjects && Joins(t, m, p, db.accounts[p].ownerCustomerId);
    assert OwnerRow(db.accounts, OwnedAccounts(db.accounts, owners), t.subjects[m]);
  }

  /** Every live account of an estate owner has exactly one active owner membership. */
  lemma OneOwnership(db: Db, owners: set<Id>, membershipIds: Generator, p: Id) returns (m: Id)
    requires UniqueMembers(db.provider) && FreshIds(membershipIds, db.provider.subjects.Keys)
    requires p in OwnedAccounts(db.accounts, owners)
    ensures ActiveOwnerships(MembersPhase(db, owners, membershipIds), p) == {m}
    ensures m in OwnerMembers(MembersPhase(db, owners, membershipIds), owners)
  {
    m := OwnershipRow(db, owners, membershipIds, p);
    UpsertedKeys(db, owners, membershipIds);
    var t, db' := WithMembers(db, owners, membershipIds).provider, MembersPhase(db, owners, membershipIds);
    forall n | n in ActiveOwnerships(db', p) ensures n == m {
      assert Joins(t, n, p, db.accounts[p].ownerCustomerId);
    }
    assert m in ActiveOwnerships(db', p);
  }

  /** Once an active OWNER role exists, the membership and owner-role counts are always zero. */
  lemma CountsAreZero(db: Db, owners: set<Id>, membershipIds: Generator)
    requires UniqueMembers(db.provider) && FreshIds(membershipIds, db.provider.subjects.Keys)
    ensures var db' := MembersPhase(db, owners, membershipIds);
            && WithoutOneOwnership(db', owners) == {}
            && forall r :: r in OwnerRoles(db.provider) ==> WithoutRole(db', owners, r) == {}
  {
    var db' := MembersPhase(db, owners, membershipIds);
    forall p | p in OwnedAccounts(db'.accounts, owners) ensures |ActiveOwnerships(db', p)| == 1 {
      var m := OneOwnership(db, owners, membershipIds, p);
    }
    forall m, r | m in OwnerMembers(db', owners) && r in OwnerRoles(db.provider)
      ensures (m, r) in db'.provider.assignments
    {
      assert m in OwnerMembers(WithMembers(db, owners, membershipIds), owners);
    }
  }

  // ----- When it succeeds -----

  /** A live estate is bound already, or its owner has a live account, or is live without any account row. */
  predicate Bindable(s: State, e: Id)
    requires e in s.estates
  {
    var estate := s.estates[e];
    || estate.providerId.Some? || HasLiveAccount(s.db.accounts, estate.customerId)
    || (SubjectLive(s.db.marketplace, estate.customerId) && !HasAccount(s.db, estate.customerId))
  }

  lemma EstateBound(s: State, accountIds: Generator, membershipIds: Generator, e: Id)
    requires Ready(s, accountIds, membershipIds) && e in s.estates && !s.estates[e].deleted
    ensures Bindable(s, e) <==> e !in UnboundLive(Backfill(s, accountIds, membershipIds).estates)
  {
    var owners := LiveOwners(s.estates);
    AccountsInserted(s.db, owners, accountIds, ProviderIds(s));
    var accounts := WithAccounts(s.db, owners, accountIds).accounts;
    assert s.estates[e].customerId in owners;
    ReactivationKeepsLife(accounts, owners, s.estates[e].customerId);
  }

  lemma ReactivationKeepsLife(accounts: map<Id, Account>, owners: set<Id>, customer: Id)
    ensures HasLiveAccount(Reactivated(accounts, owners), customer) <==> HasLiveAccount(accounts, customer)
  {
    var accounts' := Reactivated(accounts, owners);
    assert forall a :: LiveAccountFor(accounts', a, customer) <==> LiveAccountFor(accounts, a, customer);
  }

  /** The backfill finishes exactly when an active OWNER role exists and every live estate
      is bindable: the self-check can only fail through unbound live estates. */
  lemma BackfillExact(s: State, accountIds: Generator, membershipIds: Generator)
    requires Ready(s, accountIds, membershipIds)
    ensures ReportOf(s, accountIds, membershipIds).Finished? <==>
              OwnerRoles(s.db.provider) != {} && forall e :: e in s.estates && !s.estates[e].deleted ==> Bindable(s, e)
  {
    var s' := Backfill(s, accountIds, membershipIds);
    PhaseKeepsOwners(s, accountIds, membershipIds);
    CountsAreZero(AccountsPhase(s, accountIds, membershipIds).db, LiveOwners(s.estates), membershipIds);
    forall e | e in s.estates && !s.estates[e].deleted ensures Bindable(s, e) <==> e !in UnboundLive(s'.estates) {
      EstateBound(s, accountIds, membershipIds, e);
    }
    if e :| e in UnboundLive(s'.estates) {
      assert e in s.estates && !s.estates[e].deleted;
    }
  }

  // ----- Running it again -----

  lemma ReactivatedTwice(accounts: map<Id, Account>, owners: set<Id>)
    ensures Reactivated(Reactivated(accounts, owners), owners) == Reactivated(accounts, owners)
  {
  }

  lemma ReactivationKeepsOwners(db: Db, owners: set<Id>, customers: set<Id>)
    ensures Accountless(db.(accounts := Reactivated(db.accounts, owners)), customers) == Accountless(db, customers)
  {
    var db' := db.(accounts := Reactivated(db.accounts, owners));
    forall c ensures HasAccount(db', c) <==> HasAccount(db, c) {
      if HasAccount(db, c) {
        var a :| a in db.accounts && db.accounts[a].ownerCustomerId == c;
        assert a in db'.accounts && db'.accounts[a].ownerCustomerId == c;
      }
    }
  }

  lemma AccountsPhaseDone(s: State, accountIds: Generator, membershipIds: Generator)
    requires Ready(s, accountIds, membershipIds)
    ensures var first := AccountsPhase(s, accountIds, membershipIds);
            && Accountless(first.db, LiveOwners(s.estates)) == {}
            && Reactivated(first.db.accounts, LiveOwners(s.estates)) == first.db.accounts
            && UniqueOwners(first.db.accounts) && BoundEstates(first.estates, first.db.accounts) == first.estates
  {
    var owners := LiveOwners(s.estates);
    AccountsInserted(s.db, owners, accountIds, ProviderIds(s));
    var db := WithAccounts(s.db, owners, accountIds);
    ReactivatedTwice(db.accounts, owners);
    ReactivationKeepsOwners(db, owners, owners);
    BindingTwice(s.estates, Reactivated(db.accounts, owners));
  }

  lemma NothingLeftToRestore(db: Db, owners: set<Id>, membershipIds: Generator)
    requires UniqueMembers(db.provider) && FreshIds(membershipIds, db.provider.subjects.Keys)
    ensures var db' := WithMembers(db, owners, membershipIds);
            Restored(db', OwnedAccounts(db.accounts, owners)) == db'.provider.subjects
  {
    UpsertedRows(db, owners, membershipIds);
  }

  /** Granting roles changes neither members nor what is still missing. */
  lemma GrantsKeepMembers(db: Db, providers: set<Id>, assignments: set<(Id, Id)>)
    ensures var db' := db.(provider := db.provider.(assignments := assignments));
            && (UniqueMembers(db.provider) ==> UniqueMembers(db'.provider))
            && Memberless(db', providers) == Memberless(db, providers)
            && Restored(db', providers) == Restored(db, providers)
  {
    var t' := db.provider.(assignments := assignments);
    assert forall m, p, c :: Joins(t', m, p, c) <==> Joins(db.provider, m, p, c);
    forall p, c ensures HasMember(t', p, c) <==> HasMember(db.provider, p, c) {
      assert forall m :: Joins(t', m, p, c) <==> Joins(db.provider, m, p, c);
    }
  }

  lemma MembersPhaseKeys(db: Db, owners: set<Id>, membershipIds: Generator)
    requires UniqueMembers(db.provider) && Constrained(db.provider)
    requires FreshIds(membershipIds, db.provider.subjects.Keys)
    ensures var db' := MembersPhase(db, owners, membershipIds);
            && UniqueMembers(db'.provider) && Constrained(db'.provider) && db'.accounts == db.accounts
            && OwnerRoles(db'.provider) == OwnerRoles(db.provider)
  {
    UpsertedKeys(db, owners, membershipIds);
    var upserted := WithMembers(db, owners, membershipIds);
    GrantsKeepMembers(upserted, OwnedAccounts(db.accounts, owners),
                      MembersPhase(db, owners, membershipIds).provider.assignments);
  }

  lemma MembersPhaseDone(db: Db, owners: set<Id>, membershipIds: Generator)
    requires UniqueMembers(db.provider) && FreshIds(membershipIds, db.provider.subjects.Keys)
    ensures var db' := MembersPhase(db, owners, membershipIds);
            && Memberless(db', OwnedAccounts(db.accounts, owners)) == {}
            && Restored(db', OwnedAccounts(db.accounts, owners)) == db'.provider.subjects
            && Grants(OwnerMembers(db', owners), OwnerRoles(db.provider)) <= db'.provider.assignments
  {
    UpsertedKeys(db, owners, membershipIds);
    NothingLeftToRestore(db, owners, membershipIds);
    var upserted, db' := WithMembers(db, owners, membershipIds), MembersPhase(db, owners, membershipIds);
    GrantsKeepMembers(upserted, OwnedAccounts(db.accounts, owners), db'.provider.assignments);
    assert OwnerMembers(db', owners) == OwnerMembers(upserted, owners);
  }

  lemma NothingToRestore(s: State, accountIds: Generator, membershipIds: Generator)
    requires Ready(s, accountIds, membershipIds)
    requires Accountless(s.db, LiveOwners(s.estates)) == {}
    requires Reactivated(s.db.accounts, LiveOwners(s.estates)) == s.db.accounts
    requires BoundEstates(s.estates, s.db.accounts) == s.estates
    ensures AccountsPhase(s, accountIds, membershipIds) == s
  {
    assert WithAccounts(s.db, LiveOwners(s.estates), accountIds) == s.db;
  }

  lemma NothingToGrant(db: Db, owners: set<Id>, membershipIds: Generator)
    requires FreshIds(membershipIds, db.provider.subjects.Keys)
    requires Memberless(db, OwnedAccounts(db.accounts, owners)) == {}
    requires Restored(db, OwnedAccounts(db.accounts, owners)) == db.provider.subjects
    requires Grants(OwnerMembers(db, owners), OwnerRoles(db.provider)) <= db.provider.assignments
    ensures MembersPhase(db, owners, membershipIds) == db
  {
    assert WithMembers(db, owners, membershipIds) == db;
    var t := db.provider;
    assert t.assignments + Grants(OwnerMembers(db, owners), OwnerRoles(t)) == t.assignments;
  }

  /** The state of a run meets the schema again, and its accounts phase has nothing left to do. */
  lemma AgainReady(s: State, accountIds: Generator, membershipIds: Generator, accountIds': Generator,
                   membershipIds': Generator)
    requires Ready(s, accountIds, membershipIds)
    requires var s' := Backfill(s, accountIds, membershipIds);
             FreshIds(accountIds', ProviderIds(s')) && FreshIds(membershipIds', s'.db.provider.subjects.Keys)
    ensures Ready(Backfill(s, accountIds, membershipIds), accountIds', membershipIds')
  {
    PhaseKeepsOwners(s, accountIds, membershipIds);
    MembersPhaseKeys(AccountsPhase(s, accountIds, membershipIds).db, LiveOwners(s.estates), membershipIds);
  }

  lemma AgainAccounts(s: State, accountIds: Generator, membershipIds: Generator, accountIds': Generator,
                      membershipIds': Generator)
    requires Ready(s, accountIds, membershipIds)
    requires Ready(Backfill(s, accountIds, membershipIds), accountIds', membershipIds')
    ensures var s' := Backfill(s, accountIds, membershipIds);
            && LiveOwners(s'.estates) == LiveOwners(s.estates) && Accountless(s'.db, LiveOwners(s'.estates)) == {}
            && AccountsPhase(s', accountIds', membershipIds') == s'
  {
    var s', first := Backfill(s, accountIds, membershipIds), AccountsPhase(s, accountIds, membershipIds);
    PhaseKeepsOwners(s, accountIds, membershipIds);
    AccountsPhaseDone(s, accountIds, membershipIds);
    assert s'.db.accounts == first.db.accounts && s'.estates == first.estates;
    assert Accountless(s'.db, LiveOwners(s.estates)) == {} by {
      assert forall c :: HasAccount(s'.db, c) <==> HasAccount(first.db, c);
    }
    NothingToRestore(s', accountIds', membershipIds');
  }

  lemma AgainMembers(s: State, accountIds: Generator, membershipIds: Generator, membershipIds': Generator)
    requires Ready(s, accountIds, membershipIds) && OwnerRoles(s.db.provider) != {}
    requires FreshIds(membershipIds', Backfill(s, accountIds, membershipIds).db.provider.subjects.Keys)
    ensures var s' := Backfill(s, accountIds, membershipIds);
            && MembersPhase(s'.db, LiveOwners(s.estates), membershipIds') == s'.db
            && OwnerRoles(s'.db.provider) == OwnerRoles(s.db.provider)
  {
    PhaseKeepsOwners(s, accountIds, membershipIds);
    var db := AccountsPhase(s, accountIds, membershipIds).db;
    MembersPhaseKeys(db, LiveOwners(s.estates), membershipIds);
    MembersPhaseDone(db, LiveOwners(s.estates), membershipIds);
    NothingToGrant(MembersPhase(db, LiveOwners(s.estates), membershipIds), LiveOwners(s.estates), membershipIds');
  }

  /** Whatever the first run reported, a second one creates no account and changes nothing. */
  lemma SecondRunChangesNothing(s: State, accountIds: Generator, membershipIds: Generator, accountIds': Generator,
                                membershipIds': Generator)
    requires Ready(s, accountIds, membershipIds)
    requires var s' := Backfill(s, accountIds, membershipIds);
             FreshIds(accountIds', ProviderIds(s')) && FreshIds(membershipIds', s'.db.provider.subjects.Keys)
    ensures var s' := Backfill(s, accountIds, membershipIds);
            && Ready(s', accountIds', membershipIds') && Backfill(s', accountIds', membershipIds') == s'
            && (ReportOf(s, accountIds, membershipIds).Finished? ==>
                ReportOf(s', accountIds', membershipIds') == Finished(0))
  {
    AgainReady(s, accountIds, membershipIds, accountIds', membershipIds');
    AgainAccounts(s, accountIds, membershipIds, accountIds', membershipIds');
    if OwnerRoles(s.db.provider) != {} {
      AgainMembers(s, accountIds, membershipIds, membershipIds');
    } else {
      PhaseKeepsOwners(s, accountIds, membershipIds);
    }
  }

  // ----- What it repairs, and what it leaves alone -----

  /** The account is live and its owner has a live estate. */
  predicate ServedAccount(estates: map<Id, Estate>, accounts: map<Id, Account>, p: Id) {
    p in accounts && !accounts[p].deleted && HasLiveEstate(estates, accounts[p].ownerCustomerId)
  }

  lemma ServedExact(estates: map<Id, Estate>, accounts: map<Id, Account>, p: Id)
    ensures ServedAccount(estates, accounts, p) <==> p in OwnedAccounts(accounts, LiveOwners(estates))
  {
    if p in accounts {
      LiveOwnersExact(estates, accounts[p].ownerCustomerId);
    }
  }

  /** With an active OWNER role, every live account whose owner has a live estate ends
      active, verified, and with an active membership through which that owner owns it. */
  lemma OwnersRestored(s: State, accountIds: Generator, membershipIds: Generator, p: Id)
    requires Ready(s, accountIds, membershipIds) && OwnerRoles(s.db.provider) != {}
    requires ServedAccount(s.estates, Backfill(s, accountIds, membershipIds).db.accounts, p)
    ensures var db' := Backfill(s, accountIds, membershipIds).db;
            && ProviderAccess.Operating(db', p)
            && exists m :: ProviderAccess.OwnsThrough(db'.provider, m, db'.accounts[p].ownerCustomerId, p)
  {
    ServedExact(s.estates, Backfill(s, accountIds, membershipIds).db.accounts, p);
    PhaseKeepsOwners(s, accountIds, membershipIds);
    var db, owners := AccountsPhase(s, accountIds, membershipIds).db, LiveOwners(s.estates);
    var db' := MembersPhase(db, owners, membershipIds);
    var m := OneOwnership(db, owners, membershipIds, p);
    CountsAreZero(db, owners, membershipIds);
    var r :| r in OwnerRoles(s.db.provider);
    assert m !in WithoutRole(db', owners, r) && m in ActiveOwnerships(db', p);
    assert r in OwnerRoles(db'.provider) && (m, r) in db'.provider.assignments;
    assert ProviderAccess.OwnsThrough(db'.provider, m, db'.accounts[p].ownerCustomerId, p);
  }

  /** So after such a run the owner of every one of these providers may write for it. */
  lemma RestoredOwnersCanWrite(s: State, accountIds: Generator, membershipIds: Generator, p: Id)
    requires Ready(s, accountIds, membershipIds) && OwnerRoles(s.db.provider) != {}
    requires ServedAccount(s.estates, Backfill(s, accountIds, membershipIds).db.accounts, p)
    ensures var db' := Backfill(s, accountIds, membershipIds).db;
            && UniqueMembers(db'.provider) && UniqueOwners(db'.accounts)
            && ProviderAccess.CanWrite(db', ProviderAccess.Migrated, db'.accounts[p].ownerCustomerId,
                                       Some(ProviderAccess.Uuid(p)))
  {
    PhaseKeepsOwners(s, accountIds, membershipIds);
    OwnersRestored(s, accountIds, membershipIds, p);
    var db' := Backfill(s, accountIds, membershipIds).db;
    MembersPhaseKeys(AccountsPhase(s, accountIds, membershipIds).db, LiveOwners(s.estates), membershipIds);
    ProviderAccess.WriteAccessExact(db', db'.accounts[p].ownerCustomerId, p);
  }

  predicate OwnsEstate(estates: map<Id, Estate>, row: Subject) {
    row.Membership? && HasLiveEstate(estates, row.customerId)
  }

  /** Accounts that are soft-deleted or of other owners, and bound estates, stay as they were. */
  lemma OtherAccountsUntouched(s: State, accountIds: Generator, membershipIds: Generator)
    requires Ready(s, accountIds, membershipIds)
    ensures var accounts, accounts' := s.db.accounts, Backfill(s, accountIds, membershipIds).db.accounts;
            && accounts.Keys <= accounts'.Keys
            && forall a ::
                 a in accounts && (accounts[a].deleted || !HasLiveEstate(s.estates, accounts[a].ownerCustomerId)) ==>
                 accounts'[a] == accounts[a]
    ensures var s' := Backfill(s, accountIds, membershipIds);
            && s'.estates.Keys == s.estates.Keys
            && forall e :: e in s.estates && s.estates[e].providerId.Some? ==> s'.estates[e] == s.estates[e]
  {
    AccountsInserted(s.db, LiveOwners(s.estates), accountIds, ProviderIds(s));
    forall a | a in s.db.accounts && s.db.accounts[a].ownerCustomerId in LiveOwners(s.estates)
      ensures HasLiveEstate(s.estates, s.db.accounts[a].ownerCustomerId)
    {
      LiveOwnersExact(s.estates, s.db.accounts[a].ownerCustomerId);
    }
  }

  /** Roles, granted assignments and every membership that is not an estate owner's own stay
      as they were, and so do the other platforms. */
  lemma OtherMembersUntouched(s: State, accountIds: Generator, membershipIds: Generator)
    requires Ready(s, accountIds, membershipIds)
    ensures var t, t' := s.db.provider, Backfill(s, accountIds, membershipIds).db.provider;
            && t.subjects.Keys <= t'.subjects.Keys && t.assignments <= t'.assignments && t'.roles == t.roles
            && forall m :: m in t.subjects && !OwnsEstate(s.estates, t.subjects[m]) ==>
                t'.subjects[m] == t.subjects[m]
    ensures var db' := Backfill(s, accountIds, membershipIds).db;
            db'.marketplace == s.db.marketplace && db'.administration == s.db.administration && db'.audit == s.db.audit
  {
    PhaseKeepsOwners(s, accountIds, membershipIds);
    UpsertedKeys(AccountsPhase(s, accountIds, membershipIds).db, LiveOwners(s.estates), membershipIds);
    UpsertedRows(AccountsPhase(s, accountIds, membershipIds).db, LiveOwners(s.estates), membershipIds);
    forall m | m in s.db.provider.subjects && s.db.provider.subjects[m].Membership?
               && s.db.provider.subjects[m].customerId in LiveOwners(s.estates)
      ensures OwnsEstate(s.estates, s.db.provider.subjects[m])
    {
      LiveOwnersExact(s.estates, s.db.provider.subjects[m].customerId);
    }
  }

  // ----- Who receives OWNER -----

  /** The membership is the one of its provider's owner, and that owner has a live estate. */
  predicate OfEstateOwner(db: Db, owners: set<Id>, m: Id) {
    m in db.provider.subjects && OwnerRow(db.accounts, db.accounts.Keys, db.provider.subjects[m])
    && db.provider.subjects[m].customerId in owners
  }

  predicate AlreadyActive(t: Tables, m: Id) {
    m in t.subjects && t.subjects[m].Membership? && !t.subjects[m].deleted && t.subjects[m].memberStatus == MemberActive
  }

  /** The upsert leaves an estate owner's membership active exactly when its account is live
      or the membership was active before. */
  lemma ActiveAfterUpsert(db: Db, owners: set<Id>, membershipIds: Generator, m: Id)
    requires FreshIds(membershipIds, db.provider.subjects.Keys)
    requires OfEstateOwner(WithMembers(db, owners, membershipIds), owners, m)
    ensures var db' := WithMembers(db, owners, membershipIds);
            m in OwnerMembers(db', owners) <==>
              !db.accounts[db'.provider.subjects[m].providerId].deleted || AlreadyActive(db.provider, m)
  {
  }

  lemma PhaseGrantsExact(db: Db, owners: set<Id>, membershipIds: Generator, m: Id, r: Id)
    requires FreshIds(membershipIds, db.provider.subjects.Keys)
    ensures var db' := MembersPhase(db, owners, membershipIds);
            (m, r) in db'.provider.assignments <==>
              || (m, r) in db.provider.assignments
              || (r in OwnerRoles(db.provider) && OfEstateOwner(db', owners, m)
                  && (!db.accounts[db'.provider.subjects[m].providerId].deleted || AlreadyActive(db.provider, m)))
  {
    var upserted := WithMembers(db, owners, membershipIds);
    if OfEstateOwner(upserted, owners, m) {
      ActiveAfterUpsert(db, owners, membershipIds, m);
    }
    assert OwnerRoles(upserted.provider) == OwnerRoles(db.provider);
  }

  /** The membership is the one of its provider's owner, who has a live estate. */
  predicate OfLiveOwner(db: Db, estates: map<Id, Estate>, m: Id) {
    && m in db.provider.subjects && OwnsEstate(estates, db.provider.subjects[m])
    && db.provider.subjects[m].providerId in db.accounts
    && db.accounts[db.provider.subjects[m].providerId].ownerCustomerId == db.provider.subjects[m].customerId
  }

  /** A run adds exactly these assignments: the active OWNER role to the memberships of estate
      owners in their own provider, if the account is live or the membership was active already. */
  lemma GrantsExact(s: State, accountIds: Generator, membershipIds: Generator, m: Id, r: Id)
    requires Ready(s, accountIds, membershipIds)
    ensures var t, db' := s.db.provider, Backfill(s, accountIds, membershipIds).db;
            (m, r) in db'.provider.assignments <==>
              || (m, r) in t.assignments
              || (r in OwnerRoles(t) && OfLiveOwner(db', s.estates, m)
                  && (!db'.accounts[db'.provider.subjects[m].providerId].deleted || AlreadyActive(t, m)))
  {
    PhaseKeepsOwners(s, accountIds, membershipIds);
    PhaseGrantsExact(AccountsPhase(s, accountIds, membershipIds).db, LiveOwners(s.estates), membershipIds, m, r);
    var subjects := Backfill(s, accountIds, membershipIds).db.provider.subjects;
    if m in subjects && subjects[m].Membership? {
      LiveOwnersExact(s.estates, subjects[m].customerId);
    }
  }

  /** The grant reaches a soft-deleted provider: its owner's membership, active already, gets OWNER. */
  lemma SoftDeletedProviderGranted() returns (s: State, generate: Generator, m: Id, r: Id)
    ensures Ready(s, generate, generate) && m in s.db.provider.subjects && s.db.provider.subjects[m].Membership?
    ensures var p := s.db.provider.subjects[m].providerId; p in s.db.accounts && s.db.accounts[p].deleted
    ensures (m, r) !in s.db.provider.assignments && (m, r) in Backfill(s, generate, generate).db.provider.assignments
  {
    var none := Tables(map[], map[], {}, {}, map[]);
    var owner := Role(OWNER, "Owner", None, true, RoleActive, 1, false);
    var t := none.(roles := map[2 := owner], subjects := map[8 := Membership(false, 3, 7, MemberActive)]);
    var accounts := map[3 := Account(7, AccountActive, Verified, true)];
    s := State(Db(none.(subjects := map[7 := Customer(false)]), t, none, accounts, []),
               map[9 := Estate(7, Some(3), false)], false);
    generate, m, r := (key: Id) => key + 100, 8, 2;
    assert ProviderIds(s) == {3} && LiveOwners(s.estates) == {7} by {
      assert s.estates[9].customerId == 7;
    }
    GrantsExact(s, generate, generate, m, r);
    OtherAccountsUntouched(s, generate, generate);
    OtherMembersKept(s, generate, m);
  }

  /** A membership of a soft-deleted account is not touched. */
  lemma OtherMembersKept(s: State, generate: Generator, m: Id)
    requires Ready(s, generate, generate) && m in s.db.provider.subjects && s.db.provider.subjects[m].Membership?
    requires var p := s.db.provider.subjects[m].providerId; p in s.db.accounts && s.db.accounts[p].deleted
    ensures m in Backfill(s, generate, generate).db.provider.subjects
    ensures Backfill(s, generate, generate).db.provider.subjects[m] == s.db.provider.subjects[m]
  {
    PhaseKeepsOwners(s, generate, generate);
    OtherAccountsUntouched(s, generate, generate);
    UpsertedRows(AccountsPhase(s, generate, generate).db, LiveOwners(s.estates), generate);
    UpsertedKeys(AccountsPhase(s, generate, generate).db, LiveOwners(s.estates), generate);
  }
}
