/** The operator backfill in terms of rows: whom it gives an account, which accounts, memberships and
    assignments it changes, and that it changes nothing else. An owner counts exactly while
    some estate of theirs is not soft-deleted. */
module BackfillRows {
  import opened Basics
  import opened AuthorizationTables
  import opened AuthorizationKernel
  import opened KernelRows
  import opened EstateOwnership
  import opened LegacyProviderBackfill

  lemma OwnerRoleExact(t: Tables)
    ensures OwnerRoles(t) == {} <==> !HasOwnerRole(t)
    ensures forall r :: r in OwnerRoles(t) <==> ActiveOwnerRole(t, r)
  {
    assert forall r :: r in OwnerRoles(t) <==> ActiveOwnerRole(t, r);
  }

  // ----- Accounts -----

  /** A live customer with a live estate who has no account row, not even a soft-deleted one. */
  predicate Unserved(s: State, customer: Id) {
    && HasLiveEstate(s.estates, customer)
    && customer in s.db.marketplace.subjects && !s.db.marketplace.subjects[customer].deleted
    && forall a :: a in s.db.accounts ==> s.db.accounts[a].ownerCustomerId != customer
  }

  /** An account becomes active and verified if it is live and its owner has a live estate; any
      other is left as it is. */
  predicate AccountAfter(s: State, accounts': map<Id, Account>, a: Id)
    requires a in s.db.accounts
  {
    var row := s.db.accounts[a];
    && a in accounts'
    && accounts'[a] == if !row.deleted && HasLiveEstate(s.estates, row.ownerCustomerId)
                       then Account(row.ownerCustomerId, AccountActive, Verified, false) else row
  }

  predicate InsertedAccount(s: State, accounts': map<Id, Account>, a: Id) {
    && a in accounts' && Unserved(s, accounts'[a].ownerCustomerId)
    && accounts'[a] == Account(accounts'[a].ownerCustomerId, AccountActive, Verified, false)
  }

  lemma AccountlessExact(s: State, customer: Id)
    ensures customer in Accountless(s.db, LiveOwners(s.estates)) <==> Unserved(s, customer)
  {
    LiveOwnersExact(s.estates, customer);
  }

  /** Exactly the live accounts of owners with a live estate are repaired, exactly the unserved
      customers get a new one, and no other account row is written. */
  lemma AccountsExact(s: State, accountIds: Generator, membershipIds: Generator)
    requires Ready(s, accountIds, membershipIds)
    ensures var accounts' := Backfill(s, accountIds, membershipIds).db.accounts;
            && UniqueOwners(accounts') && (forall a :: a in s.db.accounts ==> AccountAfter(s, accounts', a))
            && (forall a :: a in accounts' && a !in s.db.accounts ==> InsertedAccount(s, accounts', a))
            && (forall c :: Unserved(s, c) ==>
                exists a :: a in accounts' && a !in s.db.accounts && accounts'[a].ownerCustomerId == c)
  {
    var owners, accounts' := LiveOwners(s.estates), Backfill(s, accountIds, membershipIds).db.accounts;
    AccountsInserted(s.db, owners, accountIds, ProviderIds(s));
    PhaseKeepsOwners(s, accountIds, membershipIds);
    forall a | a in s.db.accounts ensures AccountAfter(s, accounts', a) {
      LiveOwnersExact(s.estates, s.db.accounts[a].ownerCustomerId);
    }
    forall a | a in accounts' && a !in s.db.accounts ensures InsertedAccount(s, accounts', a) {
      AccountlessExact(s, accounts'[a].ownerCustomerId);
    }
    forall c | Unserved(s, c)
      ensures exists a :: a in accounts' && a !in s.db.accounts && accounts'[a].ownerCustomerId == c
    {
      AccountlessExact(s, c);
      assert accountIds(c) in accounts' && accountIds(c) !in ProviderIds(s);
    }
  }

  // ----- Estates -----

  predicate LiveAccountOwnedBy(accounts: map<Id, Account>, a: Id, customer: Id) {
    a in accounts && !accounts[a].deleted && accounts[a].ownerCustomerId == customer
  }

  /** A bound estate stays; an unbound one, soft-deleted or not, gets its owner's live account if there is one. */
  lemma EstatesExact(s: State, accountIds: Generator, membershipIds: Generator, e: Id)
    requires Ready(s, accountIds, membershipIds) && e in s.estates
    ensures var s' := Backfill(s, accountIds, membershipIds);
            && s'.estates.Keys == s.estates.Keys && s'.providerRequired == s.providerRequired
            && var row, row' := s.estates[e], s'.estates[e];
               && row'.customerId == row.customerId && row'.deleted == row.deleted
               && (row.providerId.Some? ==> row' == row)
               && (row.providerId.None? ==>
                     && (row'.providerId.Some? ==>
                           LiveAccountOwnedBy(s'.db.accounts, row'.providerId.value, row.customerId))
                     && (row'.providerId.None? ==>
                           forall a :: !LiveAccountOwnedBy(s'.db.accounts, a, row.customerId)))
  {
    PhaseKeepsOwners(s, accountIds, membershipIds);
    BoundExactly(s.estates, AccountsPhase(s, accountIds, membershipIds).db.accounts, e);
  }

  lemma BoundExactly(estates: map<Id, Estate>, accounts: map<Id, Account>, e: Id)
    requires UniqueOwners(accounts) && e in estates
    ensures var row, row' := estates[e], BoundEstates(estates, accounts)[e];
            && row'.customerId == row.customerId && row'.deleted == row.deleted
            && (row.providerId.Some? ==> row' == row)
            && (row.providerId.None? && row'.providerId.Some? ==>
                  LiveAccountOwnedBy(accounts, row'.providerId.value, row.customerId))
            && (row.providerId.None? && row'.providerId.None? ==>
                  forall a :: !LiveAccountOwnedBy(accounts, a, row.customerId))
  {
    if a :| LiveAccountOwnedBy(accounts, a, estates[e].customerId) {
      assert LiveAccountFor(accounts, a, estates[e].customerId);
    }
  }

  // ----- Memberships -----

  /** The membership of the owner of an account, the owner having a live estate. */
  predicate OfOwner(s: State, accounts: map<Id, Account>, row: Subject) {
    && row.Membership? && row.providerId in accounts && accounts[row.providerId].ownerCustomerId == row.customerId
    && HasLiveEstate(s.estates, row.customerId)
  }

  /** Such a membership in a live account becomes undeleted and active; any other stays. */
  predicate MemberAfter(s: State, db': Db, m: Id)
    requires m in s.db.provider.subjects
  {
    var row := s.db.provider.subjects[m];
    && m in db'.provider.subjects
    && db'.provider.subjects[m] ==
       if OfOwner(s, db'.accounts, row) && !db'.accounts[row.providerId].deleted
       then Membership(false, row.providerId, row.customerId, MemberActive) else row
  }

  /** The customer has a membership row in the provider, in whatever state. */
  predicate Enrolled(t: Tables, provider: Id, customer: Id) {
    exists m :: m in t.subjects && t.subjects[m].Membership? && t.subjects[m].providerId == provider
                && t.subjects[m].customerId == customer
  }

  lemma EnrolledExact(t: Tables, provider: Id, customer: Id)
    ensures HasMember(t, provider, customer) <==> Enrolled(t, provider, customer)
  {
    if m :| m in t.subjects && t.subjects[m].Membership? && t.subjects[m].providerId == provider
            && t.subjects[m].customerId == customer {
      assert Joins(t, m, provider, customer);
    }
  }

  predicate InsertedMember(s: State, db': Db, m: Id) {
    && m in db'.provider.subjects
    && var row := db'.provider.subjects[m];
       && OfOwner(s, db'.accounts, row) && !db'.accounts[row.providerId].deleted && !row.deleted
       && row.memberStatus == MemberActive
       && !Enrolled(s.db.provider, row.providerId, row.customerId)
  }

  lemma MembersExact(s: State, accountIds: Generator, membershipIds: Generator)
    requires Ready(s, accountIds, membershipIds) && HasOwnerRole(s.db.provider)
    ensures var db' := Backfill(s, accountIds, membershipIds).db;
            && UniqueMembers(db'.provider)
            && (forall m :: m in s.db.provider.subjects ==> MemberAfter(s, db', m))
            && (forall m :: m in db'.provider.subjects && m !in s.db.provider.subjects ==> InsertedMember(s, db', m))
  {
    OwnerRoleExact(s.db.provider);
    PhaseKeepsOwners(s, accountIds, membershipIds);
    var first, owners := AccountsPhase(s, accountIds, membershipIds).db, LiveOwners(s.estates);
    var db' := MembersPhase(first, owners, membershipIds);
    MembersPhaseKeys(first, owners, membershipIds);
    forall m | m in s.db.provider.subjects ensures MemberAfter(s, db', m) {
      if s.db.provider.subjects[m].Membership? {
        ServedExact(s.estates, db'.accounts, s.db.provider.subjects[m].providerId);
      }
    }
    forall m | m in db'.provider.subjects && m !in s.db.provider.subjects ensures InsertedMember(s, db', m) {
      var p := db'.provider.subjects[m].providerId;
      assert p in Memberless(first, OwnedAccounts(first.accounts, owners));
      ServedExact(s.estates, db'.accounts, p);
      EnrolledExact(s.db.provider, p, db'.provider.subjects[m].customerId);
    }
  }

  /** An undeleted, active membership of the account's owner in it. */
  predicate OwnsActively(db: Db, m: Id, p: Id) {
    && p in db.accounts && m in db.provider.subjects
    && db.provider.subjects[m] == Membership(false, p, db.accounts[p].ownerCustomerId, MemberActive)
  }

  /** The membership is the only one of the account's owner in it. */
  predicate OnlyMember(db: Db, m: Id, p: Id) {
    forall n :: n in db.provider.subjects && IsOwnersRow(db, n, p) ==> n == m
  }

  predicate IsOwnersRow(db: Db, n: Id, p: Id) {
    && p in db.accounts && n in db.provider.subjects && db.provider.subjects[n].Membership?
    && db.provider.subjects[n].providerId == p && db.provider.subjects[n].customerId == db.accounts[p].ownerCustomerId
  }

  lemma PhaseOwner(db: Db, owners: set<Id>, membershipIds: Generator, p: Id) returns (m: Id)
    requires UniqueMembers(db.provider) && FreshIds(membershipIds, db.provider.subjects.Keys)
    requires p in OwnedAccounts(db.accounts, owners)
    ensures OwnsActively(MembersPhase(db, owners, membershipIds), m, p)
    ensures forall r :: r in OwnerRoles(db.provider) ==>
              (m, r) in MembersPhase(db, owners, membershipIds).provider.assignments
  {
    m := OneOwnership(db, owners, membershipIds, p);
    CountsAreZero(db, owners, membershipIds);
    var db' := MembersPhase(db, owners, membershipIds);
    assert m in ActiveOwnerships(db', p);
    forall r | r in OwnerRoles(db.provider) ensures (m, r) in db'.provider.assignments {
      assert m !in WithoutRole(db', owners, r);
    }
  }

  lemma UniqueOnly(db: Db, m: Id, p: Id)
    requires UniqueMembers(db.provider) && p in db.accounts && OwnsActively(db, m, p)
    ensures OnlyMember(db, m, p)
  {
    forall n | n in db.provider.subjects && IsOwnersRow(db, n, p) ensures n == m {
      assert Joins(db.provider, n, p, db.accounts[p].ownerCustomerId);
      assert Joins(db.provider, m, p, db.accounts[p].ownerCustomerId);
    }
  }

  /** The membership is the only one of the account's owner in it, is active, and holds OWNER. */
  ghost predicate SoleOwner(roles: Tables, db: Db, m: Id, p: Id) {
    && OwnsActively(db, m, p) && OnlyMember(db, m, p)
    && forall r: Id :: ActiveOwnerRole(roles, r) ==> (m, r) in db.provider.assignments
  }

  /** Each of these accounts ends with such a membership. */
  lemma ServedHasOwner(s: State, accountIds: Generator, membershipIds: Generator, p: Id)
    requires Ready(s, accountIds, membershipIds) && HasOwnerRole(s.db.provider)
    ensures var db' := Backfill(s, accountIds, membershipIds).db;
            ServedAccount(s.estates, db'.accounts, p) ==> exists m :: SoleOwner(s.db.provider, db', m, p)
  {
    var db' := Backfill(s, accountIds, membershipIds).db;
    if ServedAccount(s.estates, db'.accounts, p) {
      assert UniqueMembers(db'.provider) by {
        MembersExact(s, accountIds, membershipIds);
      }
      OwnerRoleExact(s.db.provider);
      PhaseKeepsOwners(s, accountIds, membershipIds);
      var first := AccountsPhase(s, accountIds, membershipIds).db;
      ServedExact(s.estates, first.accounts, p);
      var m := PhaseOwner(first, LiveOwners(s.estates), membershipIds, p);
      UniqueOnly(db', m, p);
      assert SoleOwner(s.db.provider, db', m, p);
    }
  }

  // ----- Assignments -----

  /** Afterwards the membership is undeleted, active and its provider's owner's, who has a live estate. */
  predicate Grantee(s: State, db': Db, m: Id) {
    && m in db'.provider.subjects && OfOwner(s, db'.accounts, db'.provider.subjects[m])
    && !db'.provider.subjects[m].deleted && db'.provider.subjects[m].memberStatus == MemberActive
  }

  lemma PhaseAssignments(s: State, db: Db, membershipIds: Generator, m: Id, r: Id)
    requires FreshIds(membershipIds, db.provider.subjects.Keys)
    ensures var db' := MembersPhase(db, LiveOwners(s.estates), membershipIds);
            && ((m, r) in db'.provider.assignments <==>
                (m, r) in db.provider.assignments || (r in OwnerRoles(db.provider) && Grantee(s, db', m)))
            && db'.provider ==
               db.provider.(subjects := db'.provider.subjects, assignments := db'.provider.assignments)
  {
    var upserted := WithMembers(db, LiveOwners(s.estates), membershipIds);
    assert OwnerRoles(upserted.provider) == OwnerRoles(db.provider);
    if m in upserted.provider.subjects && upserted.provider.subjects[m].Membership? {
      LiveOwnersExact(s.estates, upserted.provider.subjects[m].customerId);
    }
  }

  /** Exactly these memberships get exactly the active OWNER role. */
  lemma AssignmentsExact(s: State, accountIds: Generator, membershipIds: Generator, m: Id, r: Id)
    requires Ready(s, accountIds, membershipIds)
    ensures var t, db' := s.db.provider, Backfill(s, accountIds, membershipIds).db;
            && ((m, r) in db'.provider.assignments <==>
                (m, r) in t.assignments || (ActiveOwnerRole(t, r) && Grantee(s, db', m)))
            && db'.provider == t.(subjects := db'.provider.subjects, assignments := db'.provider.assignments)
            && (!HasOwnerRole(t) ==> db'.provider == t)
  {
    OwnerRoleExact(s.db.provider);
    PhaseKeepsOwners(s, accountIds, membershipIds);
    PhaseAssignments(s, AccountsPhase(s, accountIds, membershipIds).db, membershipIds, m, r);
  }

  /** A new assignment means a live estate of the customer who holds it. */
  lemma GrantedForLiveEstate(s: State, accountIds: Generator, membershipIds: Generator, m: Id, r: Id)
    requires Ready(s, accountIds, membershipIds) && (m, r) !in s.db.provider.assignments
    requires (m, r) in Backfill(s, accountIds, membershipIds).db.provider.assignments
    ensures m in Backfill(s, accountIds, membershipIds).db.provider.subjects
    ensures var row := Backfill(s, accountIds, membershipIds).db.provider.subjects[m];
            && row.Membership?
            && exists e :: e in s.estates && !s.estates[e].deleted && s.estates[e].customerId == row.customerId
  {
    AssignmentsExact(s, accountIds, membershipIds, m, r);
  }

  // ----- The report -----

  /** A live estate is bound, or its owner has a live account, or is unserved. */
  predicate CanBind(s: State, e: Id)
    requires e in s.estates
  {
    || s.estates[e].providerId.Some?
    || (exists a :: a in s.db.accounts && LiveAccountOwnedBy(s.db.accounts, a, s.estates[e].customerId))
    || Unserved(s, s.estates[e].customerId)
  }

  lemma BindableExact(s: State, e: Id)
    requires e in s.estates && !s.estates[e].deleted
    ensures Bindable(s, e) <==> CanBind(s, e)
  {
    var c := s.estates[e].customerId;
    assert HasLiveEstate(s.estates, c);
    if HasLiveAccount(s.db.accounts, c) {
      var a :| a in s.db.accounts && LiveAccountFor(s.db.accounts, a, c);
      assert LiveAccountOwnedBy(s.db.accounts, a, c);
    }
    if a :| a in s.db.accounts && LiveAccountOwnedBy(s.db.accounts, a, c) {
      assert LiveAccountFor(s.db.accounts, a, c);
    }
  }

  /** What the run reports, and that it counts the accounts it created. */
  lemma ReportExact(s: State, accountIds: Generator, membershipIds: Generator)
    requires Ready(s, accountIds, membershipIds)
    ensures var report, db' := ReportOf(s, accountIds, membershipIds), Backfill(s, accountIds, membershipIds).db;
            && (report == OwnerRoleMissing <==> !HasOwnerRole(s.db.provider))
            && (report.Finished? <==>
                  HasOwnerRole(s.db.provider) && forall e :: e in s.estates && !s.estates[e].deleted ==> CanBind(s, e))
            && (report.Finished? ==> report.created == |db'.accounts.Keys - s.db.accounts.Keys|)
  {
    OwnerRoleExact(s.db.provider);
    assert ReportOf(s, accountIds, membershipIds).Finished? <==>
        HasOwnerRole(s.db.provider) && forall e :: e in s.estates && !s.estates[e].deleted ==> Bindable(s, e) by {
      BackfillExact(s, accountIds, membershipIds);
    }
    forall e | e in s.estates && !s.estates[e].deleted ensures Bindable(s, e) <==> CanBind(s, e) {
      BindableExact(s, e);
    }
    CreatedCounted(s, accountIds, membershipIds);
  }

  lemma CreatedCounted(s: State, accountIds: Generator, membershipIds: Generator)
    requires Ready(s, accountIds, membershipIds)
    ensures |Accountless(s.db, LiveOwners(s.estates))| ==
            |Backfill(s, accountIds, membershipIds).db.accounts.Keys - s.db.accounts.Keys|
  {
    var owners := LiveOwners(s.estates);
    var rows := NewAccounts(Accountless(s.db, owners), accountIds);
    PhaseKeepsOwners(s, accountIds, membershipIds);
    assert Backfill(s, accountIds, membershipIds).db.accounts.Keys == s.db.accounts.Keys + rows.Keys;
    assert forall c :: accountIds(c) !in s.db.accounts;
    assert rows.Keys == Backfill(s, accountIds, membershipIds).db.accounts.Keys - s.db.accounts.Keys;
    assert rows.Keys == set c | c in Accountless(s.db, owners) :: accountIds(c);
    ImageSize(Accountless(s.db, owners), accountIds);
  }

  /** An injective generator gives as many ids as there are keys. */
  lemma {:induction false} ImageSize(keys: set<Id>, generate: Generator)
    requires forall a, b :: generate(a) == generate(b) ==> a == b
    ensures |set c | c in keys :: generate(c)| == |keys|
  {
    if c :| c in keys {
      ImageSize(keys - {c}, generate);
      assert (set k | k in keys :: generate(k)) == (set k | k in keys - {c} :: generate(k)) + {generate(c)};
    }
  }
}
