/** The ownership contract in terms of rows: when it holds, what it counts when it does not, and
    exactly the rows it inserts and binds. Here soft-deleted estates count like the others. */
module ContractRows {
  import opened Basics
  import opened AuthorizationTables
  import opened AuthorizationKernel
  import opened KernelRows
  import opened EstateOwnership
  import opened EstateOwnershipMigration
  import BackfillRows

  predicate HasEstate(estates: map<Id, Estate>, customer: Id) {
    exists e :: e in estates && estates[e].customerId == customer
  }

  /** A live customer without any account row, soft-deleted ones included. */
  predicate WithoutAccount(s: State, customer: Id) {
    && customer in s.db.marketplace.subjects && !s.db.marketplace.subjects[customer].deleted
    && forall a :: a in s.db.accounts ==> s.db.accounts[a].ownerCustomerId != customer
  }

  predicate OwnsLiveAccount(accounts: map<Id, Account>, customer: Id) {
    exists a :: a in accounts && !accounts[a].deleted && accounts[a].ownerCustomerId == customer
  }

  lemma OwnersExact(estates: map<Id, Estate>, customer: Id)
    ensures customer in Owners(estates) <==> HasEstate(estates, customer)
  {
  }

  lemma LiveAccountExact(accounts: map<Id, Account>, customer: Id)
    ensures HasLiveAccount(accounts, customer) <==> OwnsLiveAccount(accounts, customer)
  {
    if HasLiveAccount(accounts, customer) {
      var a :| a in accounts && LiveAccountFor(accounts, a, customer);
    }
    if a :| a in accounts && !accounts[a].deleted && accounts[a].ownerCustomerId == customer {
      assert LiveAccountFor(accounts, a, customer);
    }
  }

  // ----- The result -----

  /** No account can be bound to the unbound estate. */
  predicate Unresolved(s: State, e: Id) {
    && e in s.estates && s.estates[e].providerId.None?
    && !OwnsLiveAccount(s.db.accounts, s.estates[e].customerId) && !WithoutAccount(s, s.estates[e].customerId)
  }

  /** The estate is bound to an account that does not exist. */
  predicate Dangles(s: State, e: Id) {
    e in s.estates && s.estates[e].providerId.Some? && s.estates[e].providerId.value !in s.db.accounts
  }

  lemma EstateJudged(s: State, accountIds: Generator, membershipIds: Generator, e: Id)
    requires Ready(s, accountIds, membershipIds)
    ensures var s' := Backfilled(s, accountIds, membershipIds);
            && (e in Unbound(s'.estates) <==> Unresolved(s, e))
            && (!Unresolved(s, e) ==> (e in Dangling(s') <==> Dangles(s, e)))
  {
    if e in s.estates {
      var c := s.estates[e].customerId;
      OwnersExact(s.estates, c);
      LiveAccountExact(s.db.accounts, c);
      AccountsInserted(s.db, Owners(s.estates), accountIds, ProviderIds(s));
      assert c in Accountless(s.db, Owners(s.estates)) <==> WithoutAccount(s, c);
      if s.estates[e].providerId.Some? {
        assert s.estates[e].providerId.value in ProviderIds(s);
      }
    }
  }

  /** It succeeds exactly when no estate is unresolved or dangling, and otherwise reports how many
      are unresolved or, if none is, how many dangle, and leaves everything as it was. */
  lemma ResultExact(s: State, accountIds: Generator, membershipIds: Generator)
    requires Ready(s, accountIds, membershipIds)
    ensures var unresolved := set e | e in s.estates && Unresolved(s, e);
            var dangling := set e | e in s.estates && Dangles(s, e);
            var result := ResultOf(Backfilled(s, accountIds, membershipIds));
            && (result == if unresolved != {} then UnresolvedEstates(|unresolved|)
                          else if dangling != {} then DanglingEstates(|dangling|) else Contracted)
            && (!result.Contracted? ==> Migrate(s, accountIds, membershipIds) == s)
  {
    var s' := Backfilled(s, accountIds, membershipIds);
    forall e
      ensures e in Unbound(s'.estates) <==> Unresolved(s, e)
      ensures !Unresolved(s, e) ==> (e in Dangling(s') <==> Dangles(s, e))
    {
      EstateJudged(s, accountIds, membershipIds, e);
    }
    assert Unbound(s'.estates) == set e | e in s.estates && Unresolved(s, e);
    if Unbound(s'.estates) == {} {
      assert forall e :: !Unresolved(s, e);
      assert Dangling(s') == set e | e in s.estates && Dangles(s, e);
    }
  }

  // ----- What it inserts -----

  /** Every account row stays; the new rows are one active, verified account for each live customer who
      owns an estate and had no account. */
  lemma AccountsExact(s: State, accountIds: Generator, membershipIds: Generator)
    requires Ready(s, accountIds, membershipIds) && ResultOf(Backfilled(s, accountIds, membershipIds)).Contracted?
    ensures var accounts, accounts' := s.db.accounts, Migrate(s, accountIds, membershipIds).db.accounts;
            && UniqueOwners(accounts') && (forall a :: a in accounts ==> a in accounts' && accounts'[a] == accounts[a])
            && (forall a :: a in accounts' && a !in accounts ==>
                  var c := accounts'[a].ownerCustomerId;
                  HasEstate(s.estates, c) && WithoutAccount(s, c)
                  && accounts'[a] == Account(c, AccountActive, Verified, false))
            && (forall c :: HasEstate(s.estates, c) && WithoutAccount(s, c) ==>
                exists a :: a in accounts' && a !in accounts && accounts'[a].ownerCustomerId == c)
  {
    var accounts' := Migrate(s, accountIds, membershipIds).db.accounts;
    AccountsInserted(s.db, Owners(s.estates), accountIds, ProviderIds(s));
    forall c | HasEstate(s.estates, c) && WithoutAccount(s, c)
      ensures exists a :: a in accounts' && a !in s.db.accounts && accounts'[a].ownerCustomerId == c
    {
      assert c in Accountless(s.db, Owners(s.estates));
      assert accountIds(c) in accounts' && accountIds(c) !in ProviderIds(s);
    }
  }

  /** The account is live and its owner owns an estate. */
  predicate EstateOwners(s: State, accounts: map<Id, Account>, p: Id) {
    p in accounts && !accounts[p].deleted && HasEstate(s.estates, accounts[p].ownerCustomerId)
  }

  /** The membership of an account's owner, active, where the owner had no membership row. */
  predicate NewMember(s: State, accounts: map<Id, Account>, row: Subject) {
    && row.Membership? && EstateOwners(s, accounts, row.providerId)
    && row == Membership(false, row.providerId, accounts[row.providerId].ownerCustomerId, MemberActive)
    && !BackfillRows.Enrolled(s.db.provider, row.providerId, row.customerId)
  }

  lemma OwnedExact(s: State, accounts: map<Id, Account>, p: Id)
    ensures p in OwnedAccounts(accounts, Owners(s.estates)) <==> EstateOwners(s, accounts, p)
  {
    if p in accounts {
      OwnersExact(s.estates, accounts[p].ownerCustomerId);
    }
  }

  /** Every membership row stays; the new ones are exactly the missing memberships of estate owners in
      their own live accounts, and exactly these get the active OWNER role. */
  lemma MembersExact(s: State, accountIds: Generator, membershipIds: Generator)
    requires Ready(s, accountIds, membershipIds) && ResultOf(Backfilled(s, accountIds, membershipIds)).Contracted?
    ensures var t, db' := s.db.provider, Migrate(s, accountIds, membershipIds).db; var t' := db'.provider;
            && t' == t.(subjects := t'.subjects, assignments := t'.assignments)
            && (forall m :: m in t.subjects ==> m in t'.subjects && t'.subjects[m] == t.subjects[m])
            && (forall m :: m in t'.subjects && m !in t.subjects ==> NewMember(s, db'.accounts, t'.subjects[m]))
            && (forall p :: EstateOwners(s, db'.accounts, p) ==>
                BackfillRows.Enrolled(t', p, db'.accounts[p].ownerCustomerId))
            && (forall m: Id, r: Id :: (m, r) in t'.assignments <==>
                (m, r) in t.assignments || (m in t'.subjects && m !in t.subjects && ActiveOwnerRole(t, r)))
  {
    var db := WithAccounts(s.db, Owners(s.estates), accountIds);
    var rows := MissingMemberships(db, OwnedAccounts(db.accounts, Owners(s.estates)), membershipIds);
    var t' := Migrate(s, accountIds, membershipIds).db.provider;
    MembershipsInserted(db, OwnedAccounts(db.accounts, Owners(s.estates)), membershipIds);
    forall m | m in rows ensures NewMember(s, db.accounts, rows[m]) {
      OwnedExact(s, db.accounts, rows[m].providerId);
      BackfillRows.EnrolledExact(s.db.provider, rows[m].providerId, rows[m].customerId);
    }
    forall p | EstateOwners(s, db.accounts, p)
      ensures BackfillRows.Enrolled(t', p, db.accounts[p].ownerCustomerId)
    {
      OwnedExact(s, db.accounts, p);
      var m :| m in t'.subjects && Joins(t', m, p, db.accounts[p].ownerCustomerId);
    }
    assert forall r :: r in OwnerRoles(s.db.provider) <==> ActiveOwnerRole(s.db.provider, r);
  }
}
