/** Estates beside the provider tables, and the set-based statements that the contract
    migration and the operator backfill are made of. */
module EstateOwnership {
  import opened Basics
  import opened AuthorizationTables
  import opened AuthorizationKernel

  datatype Estate = Estate(customerId: Id, providerId: Option<Id>, deleted: bool)

  datatype State = State(db: Db, estates: map<Id, Estate>, providerRequired: bool)

  /** The uuid a statement generates for the row it inserts on behalf of a key. */
  type Generator = Id -> Id

  ghost predicate FreshIds(generate: Generator, taken: set<Id>) {
    && (forall key :: generate(key) !in taken)
    && (forall a, b :: generate(a) == generate(b) ==> a == b)
  }

  /** The provider ids that occur anywhere. */
  function ProviderIds(s: State): set<Id> {
    s.db.accounts.Keys
    + (set e | e in s.estates && s.estates[e].providerId.Some? :: s.estates[e].providerId.value)
    + (set m | m in s.db.provider.subjects && s.db.provider.subjects[m].Membership?
             :: s.db.provider.subjects[m].providerId)
  }

  /** What the schema guarantees before a run, with the ids the run will generate. */
  ghost predicate Ready(s: State, accountIds: Generator, membershipIds: Generator) {
    && UniqueOwners(s.db.accounts) && UniqueMembers(s.db.provider) && Constrained(s.db.provider)
    && FreshIds(accountIds, ProviderIds(s)) && FreshIds(membershipIds, s.db.provider.subjects.Keys)
  }

  predicate LiveAccountFor(accounts: map<Id, Account>, account: Id, customer: Id) {
    account in accounts && accounts[account].ownerCustomerId == customer && !accounts[account].deleted
  }

  predicate HasLiveAccount(accounts: map<Id, Account>, customer: Id) {
    exists a :: a in accounts && LiveAccountFor(accounts, a, customer)
  }

  // ----- INSERT INTO tbl_provider_account ... ON CONFLICT (owner_customer_id) DO NOTHING -----

  /** The live customers among the owners that have no account row at all. */
  function Accountless(db: Db, owners: set<Id>): set<Id> {
    set c | c in owners && SubjectLive(db.marketplace, c) && !HasAccount(db, c)
  }

  function NewAccounts(customers: set<Id>, generate: Generator): (rows: map<Id, Account>)
    requires forall a, b :: generate(a) == generate(b) ==> a == b
    ensures forall c :: c in customers ==>
              generate(c) in rows && rows[generate(c)] == Account(c, AccountActive, Verified, false)
    ensures forall a :: a in rows ==> a == generate(rows[a].ownerCustomerId) && rows[a].ownerCustomerId in customers
    ensures forall a :: a in rows ==> rows[a] == Account(rows[a].ownerCustomerId, AccountActive, Verified, false)
  {
    map c | c in customers :: generate(c) := Account(c, AccountActive, Verified, false)
  }

  function WithAccounts(db: Db, owners: set<Id>, generate: Generator): Db
    requires forall a, b :: generate(a) == generate(b) ==> a == b
  {
    db.(accounts := db.accounts + NewAccounts(Accountless(db, owners), generate))
  }

  /** Afterwards every live owner has exactly one account; existing accounts are as they were. */
  lemma AccountsInserted(db: Db, owners: set<Id>, generate: Generator, taken: set<Id>)
    requires UniqueOwners(db.accounts) && db.accounts.Keys <= taken && FreshIds(generate, taken)
    ensures var db' := WithAccounts(db, owners, generate);
            && UniqueOwners(db'.accounts) && Accountless(db', owners) == {}
            && (forall a :: a in db.accounts ==> a in db'.accounts && db'.accounts[a] == db.accounts[a])
            && (forall a :: a in db'.accounts && a !in db.accounts ==>
                  a !in taken
                  && db'.accounts[a] == Account(db'.accounts[a].ownerCustomerId, AccountActive, Verified, false)
                  && db'.accounts[a].ownerCustomerId in Accountless(db, owners))
            && (forall c :: HasLiveAccount(db'.accounts, c) <==>
                HasLiveAccount(db.accounts, c) || c in Accountless(db, owners))
  {
    var rows := NewAccounts(Accountless(db, owners), generate);
    var db' := WithAccounts(db, owners, generate);
    forall c | c in Accountless(db, owners) ensures HasAccount(db', c) && HasLiveAccount(db'.accounts, c) {
      assert generate(c) in db'.accounts && LiveAccountFor(db'.accounts, generate(c), c);
    }
    forall c | HasAccount(db, c) ensures HasAccount(db', c) {
      var a :| a in db.accounts && db.accounts[a].ownerCustomerId == c;
      assert a in db'.accounts && db'.accounts[a].ownerCustomerId == c;
    }
    forall c | HasLiveAccount(db.accounts, c) ensures HasLiveAccount(db'.accounts, c) {
      var a :| a in db.accounts && LiveAccountFor(db.accounts, a, c);
      assert a in db'.accounts && LiveAccountFor(db'.accounts, a, c);
    }
  }

  // ----- UPDATE tbl_estate SET fk_provider_id ... WHERE fk_provider_id IS NULL -----

  function LiveAccountOf(accounts: map<Id, Account>, customer: Id): (account: Option<Id>)
    requires UniqueOwners(accounts)
    ensures account.Some? <==> HasLiveAccount(accounts, customer)
    ensures account.Some? ==> LiveAccountFor(accounts, account.value, customer)
  {
    if HasLiveAccount(accounts, customer) then
      var a :| a in accounts && LiveAccountFor(accounts, a, customer);
      Some(a)
    else None
  }

  function BoundEstates(estates: map<Id, Estate>, accounts: map<Id, Account>): map<Id, Estate>
    requires UniqueOwners(accounts)
  {
    map e | e in estates ::
      if estates[e].providerId.None? then estates[e].(providerId := LiveAccountOf(accounts, estates[e].customerId))
      else estates[e]
  }

  /** A repetition finds nothing to bind. */
  lemma BindingTwice(estates: map<Id, Estate>, accounts: map<Id, Account>)
    requires UniqueOwners(accounts)
    ensures BoundEstates(BoundEstates(estates, accounts), accounts) == BoundEstates(estates, accounts)
  {
  }

  // ----- Owner memberships -----

  /** The live accounts whose owner is among the given customers. */
  function OwnedAccounts(accounts: map<Id, Account>, owners: set<Id>): set<Id> {
    set p | p in accounts && !accounts[p].deleted && accounts[p].ownerCustomerId in owners
  }

  /** The given accounts whose owner has no membership row in them at all. */
  function Memberless(db: Db, providers: set<Id>): set<Id> {
    set p | p in providers && p in db.accounts && !HasMember(db.provider, p, db.accounts[p].ownerCustomerId)
  }

  function OwnerMembership(accounts: map<Id, Account>, provider: Id): Subject
    requires provider in accounts
  {
    Membership(false, provider, accounts[provider].ownerCustomerId, MemberActive)
  }

  function NewMemberships(db: Db, providers: set<Id>, generate: Generator): (rows: map<Id, Subject>)
    requires providers <= db.accounts.Keys && forall a, b :: generate(a) == generate(b) ==> a == b
    ensures forall p :: p in providers ==> generate(p) in rows && rows[generate(p)] == OwnerMembership(db.accounts, p)
    ensures forall m :: m in rows ==> rows[m].Membership? && rows[m].providerId in providers
                                      && m == generate(rows[m].providerId)
                                      && rows[m] == OwnerMembership(db.accounts, rows[m].providerId)
  {
    map p | p in providers :: generate(p) := OwnerMembership(db.accounts, p)
  }

  function Grants(memberships: set<Id>, roles: set<Id>): set<(Id, Id)> {
    set m, r | m in memberships && r in roles :: (m, r)
  }

  /** The memberships to be inserted for the given accounts. */
  function MissingMemberships(db: Db, providers: set<Id>, generate: Generator): map<Id, Subject>
    requires forall a, b :: generate(a) == generate(b) ==> a == b
  {
    NewMemberships(db, Memberless(db, providers), generate)
  }

  /** Inserting them gives each account exactly one owner membership row and keeps every other row. */
  lemma MembershipsInserted(db: Db, providers: set<Id>, generate: Generator)
    requires UniqueMembers(db.provider) && FreshIds(generate, db.provider.subjects.Keys)
    requires providers <= db.accounts.Keys
    ensures var rows := MissingMemberships(db, providers, generate);
            var t' := db.provider.(subjects := db.provider.subjects + rows);
            && rows.Keys !! db.provider.subjects.Keys && UniqueMembers(t')
            && (forall m :: m in db.provider.subjects ==> m in t'.subjects && t'.subjects[m] == db.provider.subjects[m])
            && (forall p :: p in providers ==> HasMember(t', p, db.accounts[p].ownerCustomerId))
  {
    var rows := MissingMemberships(db, providers, generate);
    var t' := db.provider.(subjects := db.provider.subjects + rows);
    forall m, p, c | Joins(t', m, p, c) ensures m in rows <==> !HasMember(db.provider, p, c) {
      if m !in rows {
        assert Joins(db.provider, m, p, c);
      }
    }
    forall m, n, p, c | Joins(t', m, p, c) && Joins(t', n, p, c) ensures m == n {
      if m !in rows && n !in rows {
        assert Joins(db.provider, m, p, c) && Joins(db.provider, n, p, c);
      }
    }
    forall p | p in providers ensures HasMember(t', p, db.accounts[p].ownerCustomerId) {
      if p in Memberless(db, providers) {
        assert Joins(t', generate(p), p, db.accounts[p].ownerCustomerId);
      } else {
        var m :| m in db.provider.subjects && Joins(db.provider, m, p, db.accounts[p].ownerCustomerId);
        assert Joins(t', m, p, db.accounts[p].ownerCustomerId);
      }
    }
  }
}
