/** The contract migration that makes the provider the canonical owner of every estate. */
module EstateOwnershipMigration {
  import opened Basics
  import opened AuthorizationTables
  import opened AuthorizationKernel
  import opened EstateOwnership

  datatype Result = Contracted | UnresolvedEstates(count: nat) | DanglingEstates(count: nat)

  /** The owners of all estates, soft-deleted estates included. */
  function Owners(estates: map<Id, Estate>): set<Id> {
    set e | e in estates :: estates[e].customerId
  }

  /** Step 2: the missing owner memberships, with OWNER granted to exactly those rows. */
  function WithOwnerMemberships(db: Db, owners: set<Id>, generate: Generator): Db
    requires forall a, b :: generate(a) == generate(b) ==> a == b
  {
    var rows := MissingMemberships(db, OwnedAccounts(db.accounts, owners), generate);
    db.(provider := db.provider.(subjects := db.provider.subjects + rows,
                                 assignments := db.provider.assignments + Grants(rows.Keys, OwnerRoles(db.provider))))
  }

  function Unbound(estates: map<Id, Estate>): set<Id> {
    set e | e in estates && estates[e].providerId.None?
  }

  function Dangling(s: State): set<Id> {
    set e | e in s.estates && s.estates[e].providerId.Some? && s.estates[e].providerId.value !in s.db.accounts
  }

  /** Steps 1 to 3. */
  function Backfilled(s: State, accountIds: Generator, membershipIds: Generator): State
    requires Ready(s, accountIds, membershipIds)
  {
    AccountsInserted(s.db, Owners(s.estates), accountIds, ProviderIds(s));
    var db := WithAccounts(s.db, Owners(s.estates), accountIds);
    s.(db := WithOwnerMemberships(db, Owners(s.estates), membershipIds),
       estates := BoundEstates(s.estates, db.accounts))
  }

  function ResultOf(backfilled: State): Result {
    if Unbound(backfilled.estates) != {} then UnresolvedEstates(|Unbound(backfilled.estates)|)
    else if Dangling(backfilled) != {} then DanglingEstates(|Dangling(backfilled)|)
    else Contracted
  }

  /** The state the migration leaves: everything or, if it throws, nothing. */
  function Migrate(s: State, accountIds: Generator, membershipIds: Generator): State
    requires Ready(s, accountIds, membershipIds)
  {
    var backfilled := Backfilled(s, accountIds, membershipIds);
    if ResultOf(backfilled).Contracted? then backfilled.(providerRequired := true) else s
  }

  class EstateDatabase {
    var db: Db
    var estates: map<Id, Estate>
    var providerRequired: bool

    constructor (start: State)
      ensures Contents() == start
    {
      db, estates, providerRequired := start.db, start.estates, start.providerRequired;
    }

    function Contents(): State
      reads this
    {
      State(db, estates, providerRequired)
    }

    /** up: six statements in one transaction. */
    method Up(accountIds: Generator, membershipIds: Generator) returns (result: Result)
      requires Ready(Contents(), accountIds, membershipIds)
      modifies this
      ensures result == ResultOf(Backfilled(old(Contents()), accountIds, membershipIds))
      ensures Contents() == Migrate(old(Contents()), accountIds, membershipIds)
    {
      var start := Contents();
      AccountsInserted(db, Owners(estates), accountIds, ProviderIds(start));
      db := WithAccounts(db, Owners(estates), accountIds);
      var rows := MissingMemberships(db, OwnedAccounts(db.accounts, Owners(estates)), membershipIds);
      var t := db.provider;
      db := db.(provider := t.(subjects := t.subjects + rows,
                               assignments := t.assignments + Grants(rows.Keys, OwnerRoles(t))));
      estates := BoundEstates(estates, db.accounts);
      var unresolved := Unbound(estates);
      if unresolved != {} {
        db, estates := start.db, start.estates;
        return UnresolvedEstates(|unresolved|);
      }
      var dangling := Dangling(Contents());
      if dangling != {} {
        db, estates := start.db, start.estates;
        return DanglingEstates(|dangling|);
      }
      providerRequired := true;
      result := Contracted;
    }

    /** down: relaxes the column and keeps the bindings. */
    method Down()
      modifies this
      ensures Contents() == old(Contents()).(providerRequired := false)
    {
      providerRequired := false;
    }
  }

  // ----- When it succeeds -----

  /** An unbound estate needs a live account of its owner, or a live owner without any
      account row; a bound one needs its account row. */
  predicate Resolvable(s: State, e: Id)
    requires e in s.estates
  {
    var estate := s.estates[e];
    if estate.providerId.Some? then estate.providerId.value in s.db.accounts
    else HasLiveAccount(s.db.accounts, estate.customerId)
         || (SubjectLive(s.db.marketplace, estate.customerId) && !HasAccount(s.db, estate.customerId))
  }

  lemma EstateResolved(s: State, accountIds: Generator, membershipIds: Generator, e: Id)
    requires Ready(s, accountIds, membershipIds) && e in s.estates
    ensures var s' := Backfilled(s, accountIds, membershipIds);
            Resolvable(s, e) <==> e !in Unbound(s'.estates) && e !in Dangling(s')
  {
    AccountsInserted(s.db, Owners(s.estates), accountIds, ProviderIds(s));
    var db := WithAccounts(s.db, Owners(s.estates), accountIds);
    var estate := s.estates[e];
    assert estate.customerId in Owners(s.estates);
    if estate.providerId.Some? {
      assert estate.providerId.value in ProviderIds(s);
    } else {
      assert HasLiveAccount(db.accounts, estate.customerId) <==> Resolvable(s, e);
    }
  }

  /** The migration succeeds exactly when every estate row is resolvable. */
  lemma ContractExact(s: State, accountIds: Generator, membershipIds: Generator)
    requires Ready(s, accountIds, membershipIds)
    ensures ResultOf(Backfilled(s, accountIds, membershipIds)).Contracted? <==>
              forall e :: e in s.estates ==> Resolvable(s, e)
  {
    var s' := Backfilled(s, accountIds, membershipIds);
    forall e | e in s.estates ensures Resolvable(s, e) <==> e !in Unbound(s'.estates) && e !in Dangling(s') {
      EstateResolved(s, accountIds, membershipIds, e);
    }
    if ResultOf(s').Contracted? {
      assert forall e :: e in s.estates ==> e !in Unbound(s'.estates) && e !in Dangling(s');
    } else if Unbound(s'.estates) != {} {
      var e :| e in Unbound(s'.estates);
    } else {
      var e :| e in Dangling(s');
    }
  }

  // ----- What it changes -----

  /** Every estate ends at an existing provider: the one it had, or a live account of its owner. */
  lemma EveryEstateOwned(s: State, accountIds: Generator, membershipIds: Generator, e: Id)
    requires Ready(s, accountIds, membershipIds) && ResultOf(Backfilled(s, accountIds, membershipIds)).Contracted?
    requires e in s.estates
    ensures var s', estate := Migrate(s, accountIds, membershipIds), s.estates[e];
            && s'.providerRequired && s'.estates.Keys == s.estates.Keys
            && s'.estates[e].providerId.Some? && s'.estates[e].providerId.value in s'.db.accounts
            && s'.estates[e] == estate.(providerId := s'.estates[e].providerId)
            && (estate.providerId.Some? ==> s'.estates[e] == estate)
            && (estate.providerId.None? ==>
                  var account := s'.db.accounts[s'.estates[e].providerId.value];
                  !account.deleted && account.ownerCustomerId == estate.customerId)
  {
    var s' := Backfilled(s, accountIds, membershipIds);
    assert e !in Unbound(s'.estates) && e !in Dangling(s');
  }

  /** The row is an active membership of the owner of one of the given accounts. */
  ghost predicate InsertedFor(accounts: map<Id, Account>, providers: set<Id>, row: Subject) {
    exists p :: p in providers && p in accounts && row == OwnerMembership(accounts, p)
  }

  lemma MembershipStep(db: Db, owners: set<Id>, generate: Generator)
    requires UniqueMembers(db.provider) && FreshIds(generate, db.provider.subjects.Keys)
    ensures var db' := WithOwnerMemberships(db, owners, generate);
            && (forall m :: m in db.provider.subjects ==>
                m in db'.provider.subjects && db'.provider.subjects[m] == db.provider.subjects[m])
            && db.provider.assignments <= db'.provider.assignments
            && (forall row :: row in db'.provider.assignments && row !in db.provider.assignments ==>
                  row.0 in db'.provider.subjects && row.0 !in db.provider.subjects && row.1 in OwnerRoles(db.provider))
            && (forall m :: m in db'.provider.subjects && m !in db.provider.subjects ==>
                  InsertedFor(db.accounts, OwnedAccounts(db.accounts, owners), db'.provider.subjects[m]))
  {
    MembershipsInserted(db, OwnedAccounts(db.accounts, owners), generate);
  }

  /** Insert-only: no account that existed before changes, and the new ones belong to live
      owners who had none. */
  lemma OnlyInsertsAccounts(s: State, accountIds: Generator, membershipIds: Generator)
    requires Ready(s, accountIds, membershipIds)
    ensures var accounts, accounts' := s.db.accounts, Migrate(s, accountIds, membershipIds).db.accounts;
            && (forall a :: a in accounts ==> a in accounts' && accounts'[a] == accounts[a])
            && (forall a :: a in accounts' && a !in accounts ==>
                  accounts'[a] == Account(accounts'[a].ownerCustomerId, AccountActive, Verified, false)
                  && accounts'[a].ownerCustomerId in Accountless(s.db, Owners(s.estates)))
  {
    AccountsInserted(s.db, Owners(s.estates), accountIds, ProviderIds(s));
  }

  /** Insert-only: no membership, assignment or role that existed before changes; new memberships
      are active ones of the owners of live accounts, and OWNER goes only to memberships
      inserted by this run. The other platforms and the audit log are untouched. */
  lemma OnlyInsertsAuthority(s: State, accountIds: Generator, membershipIds: Generator)
    requires Ready(s, accountIds, membershipIds)
    ensures var t, s' := s.db.provider, Migrate(s, accountIds, membershipIds); var t' := s'.db.provider;
            && t'.roles == t.roles && t'.permissions == t.permissions && t'.mappings == t.mappings
            && (forall m :: m in t.subjects ==> m in t'.subjects && t'.subjects[m] == t.subjects[m])
            && t.assignments <= t'.assignments
            && (forall row :: row in t'.assignments && row !in t.assignments ==>
                  row.0 in t'.subjects && row.0 !in t.subjects && row.1 in OwnerRoles(t))
            && (forall m :: m in t'.subjects && m !in t.subjects ==>
                  InsertedFor(s'.db.accounts, OwnedAccounts(s'.db.accounts, Owners(s.estates)), t'.subjects[m]))
            && s'.db.marketplace == s.db.marketplace && s'.db.administration == s.db.administration
            && s'.db.audit == s.db.audit
  {
    MembershipStep(WithAccounts(s.db, Owners(s.estates), accountIds), Owners(s.estates), membershipIds);
  }

  /** An account whose owner had no membership row gets an active owner. */
  lemma GrantedOwner(db: Db, owners: set<Id>, generate: Generator, a: Id)
    requires UniqueMembers(db.provider) && FreshIds(generate, db.provider.subjects.Keys)
    requires OwnerRoles(db.provider) != {}
    requires a in Memberless(db, OwnedAccounts(db.accounts, owners))
    ensures HasOwner(WithOwnerMemberships(db, owners, generate).provider, a)
  {
    var t' := WithOwnerMemberships(db, owners, generate).provider;
    var r :| r in OwnerRoles(db.provider);
    assert r in OwnerRoles(t') && (generate(a), r) in t'.assignments;
    assert generate(a) in Holders(t', a, r);
  }

  /** Every account the migration creates has its owner as an active OWNER member. */
  lemma NewAccountsHaveOwner(s: State, accountIds: Generator, membershipIds: Generator, a: Id)
    requires Ready(s, accountIds, membershipIds) && OwnerRoles(s.db.provider) != {}
    requires a in Migrate(s, accountIds, membershipIds).db.accounts && a !in s.db.accounts
    ensures HasOwner(Migrate(s, accountIds, membershipIds).db.provider, a)
  {
    var owners := Owners(s.estates);
    AccountsInserted(s.db, owners, accountIds, ProviderIds(s));
    var db := WithAccounts(s.db, owners, accountIds);
    assert a !in ProviderIds(s);
    assert a in Memberless(db, OwnedAccounts(db.accounts, owners));
    GrantedOwner(db, owners, membershipIds, a);
  }

  // ----- Running it again -----

  lemma MembershipsComplete(db: Db, owners: set<Id>, generate: Generator)
    requires UniqueMembers(db.provider) && Constrained(db.provider) && FreshIds(generate, db.provider.subjects.Keys)
    ensures var db' := WithOwnerMemberships(db, owners, generate);
            && UniqueMembers(db'.provider) && Constrained(db'.provider)
            && Memberless(db', OwnedAccounts(db'.accounts, owners)) == {}
  {
    var providers := OwnedAccounts(db.accounts, owners);
    MembershipsInserted(db, providers, generate);
    var rows, db' := MissingMemberships(db, providers, generate), WithOwnerMemberships(db, owners, generate);
    var t' := db.provider.(subjects := db.provider.subjects + rows);
    assert forall m, p, c :: Joins(db'.provider, m, p, c) <==> Joins(t', m, p, c);
    forall p | p in providers ensures HasMember(db'.provider, p, db.accounts[p].ownerCustomerId) {
      assert HasMember(t', p, db.accounts[p].ownerCustomerId);
    }
  }

  lemma BackfilledReady(s: State, accountIds: Generator, membershipIds: Generator)
    requires Ready(s, accountIds, membershipIds)
    ensures var s' := Backfilled(s, accountIds, membershipIds);
            && UniqueOwners(s'.db.accounts) && UniqueMembers(s'.db.provider) && Constrained(s'.db.provider)
            && Accountless(s'.db, Owners(s.estates)) == {}
            && Memberless(s'.db, OwnedAccounts(s'.db.accounts, Owners(s.estates))) == {}
  {
    var owners := Owners(s.estates);
    AccountsInserted(s.db, owners, accountIds, ProviderIds(s));
    var db := WithAccounts(s.db, owners, accountIds);
    MembershipsComplete(db, owners, membershipIds);
    assert forall c :: HasAccount(WithOwnerMemberships(db, owners, membershipIds), c) <==> HasAccount(db, c);
  }

  lemma NoAccountMissing(db: Db, owners: set<Id>, generate: Generator)
    requires Accountless(db, owners) == {} && forall a, b :: generate(a) == generate(b) ==> a == b
    ensures WithAccounts(db, owners, generate) == db
  {
    assert db.accounts + NewAccounts({}, generate) == db.accounts;
  }

  lemma NoMembershipMissing(db: Db, owners: set<Id>, generate: Generator)
    requires Memberless(db, OwnedAccounts(db.accounts, owners)) == {}
    requires forall a, b :: generate(a) == generate(b) ==> a == b
    ensures WithOwnerMemberships(db, owners, generate) == db
  {
    var rows := NewMemberships(db, {}, generate);
    assert rows == map[];
    assert db.provider.subjects + rows == db.provider.subjects;
    assert Grants(rows.Keys, OwnerRoles(db.provider)) == {};
  }

  lemma NothingMissing(s: State, accountIds: Generator, membershipIds: Generator)
    requires Ready(s, accountIds, membershipIds)
    requires Accountless(s.db, Owners(s.estates)) == {}
    requires Memberless(s.db, OwnedAccounts(s.db.accounts, Owners(s.estates))) == {}
    ensures Backfilled(s, accountIds, membershipIds) == s.(estates := BoundEstates(s.estates, s.db.accounts))
  {
    NoAccountMissing(s.db, Owners(s.estates), accountIds);
    NoMembershipMissing(s.db, Owners(s.estates), membershipIds);
  }

  lemma BindingKeepsOwners(estates: map<Id, Estate>, accounts: map<Id, Account>)
    requires UniqueOwners(accounts)
    ensures Owners(BoundEstates(estates, accounts)) == Owners(estates)
  {
    var bound := BoundEstates(estates, accounts);
    forall c | c in Owners(estates) ensures c in Owners(bound) {
      var e :| e in estates && estates[e].customerId == c;
      assert e in bound && bound[e].customerId == c;
    }
  }

  /** Backfilling a backfilled state changes nothing. */
  lemma BackfilledTwice(s: State, accountIds: Generator, membershipIds: Generator, again: State,
                        accountIds': Generator, membershipIds': Generator)
    requires Ready(s, accountIds, membershipIds) && Ready(again, accountIds', membershipIds')
    requires var s' := Backfilled(s, accountIds, membershipIds); again.db == s'.db && again.estates == s'.estates
    ensures Backfilled(again, accountIds', membershipIds') == again
  {
    BackfilledReady(s, accountIds, membershipIds);
    var s' := Backfilled(s, accountIds, membershipIds);
    BackfilledEstates(s, accountIds, membershipIds);
    BindingKeepsOwners(s.estates, s'.db.accounts);
    NothingMissing(again, accountIds', membershipIds');
    BindingTwice(s.estates, s'.db.accounts);
  }

  lemma BackfilledEstates(s: State, accountIds: Generator, membershipIds: Generator)
    requires Ready(s, accountIds, membershipIds)
    ensures var s' := Backfilled(s, accountIds, membershipIds);
            UniqueOwners(s'.db.accounts) && s'.estates == BoundEstates(s.estates, s'.db.accounts)
  {
    AccountsInserted(s.db, Owners(s.estates), accountIds, ProviderIds(s));
  }

  /** Running it again, after down or not and whatever uuids are generated, is a no-op. */
  lemma RerunIsNoOp(s: State, accountIds: Generator, membershipIds: Generator, required: bool, accountIds': Generator,
                    membershipIds': Generator)
    requires Ready(s, accountIds, membershipIds) && ResultOf(Backfilled(s, accountIds, membershipIds)).Contracted?
    requires var s' := Migrate(s, accountIds, membershipIds);
             FreshIds(accountIds', ProviderIds(s')) && FreshIds(membershipIds', s'.db.provider.subjects.Keys)
    ensures var s' := Migrate(s, accountIds, membershipIds);
            && Ready(s'.(providerRequired := required), accountIds', membershipIds')
            && Migrate(s'.(providerRequired := required), accountIds', membershipIds') == s'
  {
    BackfilledReady(s, accountIds, membershipIds);
    var again := Migrate(s, accountIds, membershipIds).(providerRequired := required);
    assert ProviderIds(again) == ProviderIds(Migrate(s, accountIds, membershipIds));
    BackfilledTwice(s, accountIds, membershipIds, again, accountIds', membershipIds');
    assert Dangling(again) == Dangling(Backfilled(s, accountIds, membershipIds));
  }
}
