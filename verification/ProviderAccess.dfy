/** Who may act for a provider: the choice of a provider context for a customer, the
    policies that guard supply features, and the effective authority behind them. */
module ProviderAccess {
  import opened Basics
  import opened AuthorizationTables
  import opened AuthorizationKernel

  /** A provider id as the caller wrote it. */
  datatype ProviderRef = Malformed | Uuid(id: Id)

  /** What the membership query meets: no data source, its tables, a missing table, or another failure. */
  datatype Schema = NoDataSource | Migrated | TableMissing | QueryFailing

  datatype AccessError =
    | AccountForbidden | AccountNotFound | ContextRequired | AccountSuspended | AccountNotVerified | QueryFailed

  datatype Context = Context(
    customerId: Id, providerId: Id, providerStatus: AccountStatus, verification: Verification,
    membershipId: Option<Id>, membershipStatus: Option<MemberStatus>)

  datatype Resolution = Resolved(context: Context) | Denied(error: AccessError)

  predicate LiveProvider(db: Db, provider: Id) {
    provider in db.accounts && !db.accounts[provider].deleted
  }

  /** The membership query: active, live memberships of the customer in live providers. */
  function MembershipsOf(db: Db, customer: Id, provider: Option<Id>): set<Id> {
    set m | m in db.provider.subjects && SelectedMembership(db, db.provider.subjects[m], customer, provider)
  }

  predicate SelectedMembership(db: Db, row: Subject, customer: Id, provider: Option<Id>) {
    && row.Membership? && row.customerId == customer && !row.deleted && row.memberStatus == MemberActive
    && LiveProvider(db, row.providerId) && (provider.Some? ==> row.providerId == provider.value)
  }

  /** With a provider named there is at most one row, by the unique key. */
  lemma AtMostOneMembership(db: Db, customer: Id, provider: Id, m: Id, n: Id)
    requires UniqueMembers(db.provider)
    requires m in MembershipsOf(db, customer, Some(provider)) && n in MembershipsOf(db, customer, Some(provider))
    ensures m == n
  {
    assert Joins(db.provider, m, provider, customer) && Joins(db.provider, n, provider, customer);
  }

  lemma Singleton(s: set<Id>, m: Id, n: Id)
    requires |s| <= 1 && m in s && n in s
    ensures m == n
  {
    assert {m, n} <= s;
    SubsetSameSize({m}, s);
  }

  function MembershipContext(db: Db, customer: Id, m: Id): Context
    requires m in db.provider.subjects && SelectedMembership(db, db.provider.subjects[m], customer, None)
  {
    var row := db.provider.subjects[m];
    var account := db.accounts[row.providerId];
    Context(customer, row.providerId, account.status, account.verification, Some(m), Some(row.memberStatus))
  }

  /** The compatibility path over the owner's own account. */
  function LegacyResolve(db: Db, customer: Id, provider: Option<ProviderRef>): Resolution
    requires UniqueOwners(db.accounts)
  {
    if !(exists a :: a in db.accounts && OwnsLive(db, customer, a)) then Denied(AccountNotFound)
    else
      var a :| a in db.accounts && OwnsLive(db, customer, a);
      if provider.Some? && provider.value != Uuid(a) then Denied(AccountForbidden)
      else Resolved(Context(customer, a, db.accounts[a].status, db.accounts[a].verification, None, None))
  }

  predicate OwnsLive(db: Db, customer: Id, account: Id) {
    LiveProvider(db, account) && db.accounts[account].ownerCustomerId == customer
  }

  function Named(provider: Option<ProviderRef>): Option<Id> {
    if provider.Some? && provider.value.Uuid? then Some(provider.value.id) else None
  }

  function Resolve(db: Db, schema: Schema, customer: Id, provider: Option<ProviderRef>): Resolution
    requires UniqueMembers(db.provider) && UniqueOwners(db.accounts)
  {
    if schema.NoDataSource? then LegacyResolve(db, customer, provider)
    else if provider == Some(Malformed) then Denied(AccountForbidden)
    else if schema.QueryFailing? then Denied(QueryFailed)
    else
      var memberships := if schema.Migrated? then MembershipsOf(db, customer, Named(provider)) else {};
      if schema.Migrated? && memberships == {} then Denied(if provider.Some? then AccountForbidden else AccountNotFound)
      else if provider.Some? && memberships == {} then Denied(AccountForbidden)
      else if provider.None? && |memberships| > 1 then Denied(ContextRequired)
      else if memberships == {} then LegacyResolve(db, customer, provider)
      else
        assert forall m, n :: m in memberships && n in memberships ==> m == n by {
          forall m, n | m in memberships && n in memberships ensures m == n {
            if provider.Some? {
              AtMostOneMembership(db, customer, provider.value.id, m, n);
            } else {
              Singleton(memberships, m, n);
            }
          }
        }
        var m :| m in memberships;
        Resolved(MembershipContext(db, customer, m))
  }

  /** A resolved context is the customer's own: a live provider, the named one if one was named,
      reached through an active membership or, on the fallback path only, as its owner. */
  lemma ResolvedContextSound(db: Db, schema: Schema, customer: Id, provider: Option<ProviderRef>)
    requires UniqueMembers(db.provider) && UniqueOwners(db.accounts)
    requires Resolve(db, schema, customer, provider).Resolved?
    ensures var context := Resolve(db, schema, customer, provider).context;
            && context.customerId == customer
            && context.providerId in db.accounts && !db.accounts[context.providerId].deleted
            && (provider.Some? ==> provider.value == Uuid(context.providerId))
            && context.providerStatus == db.accounts[context.providerId].status
            && context.verification == db.accounts[context.providerId].verification
            && (context.membershipId.Some? <==> schema.Migrated?)
            && (schema.Migrated? ==>
                  && context.membershipStatus == Some(MemberActive)
                  && context.membershipId.value in db.provider.subjects
                  && db.provider.subjects[context.membershipId.value] ==
                     Membership(false, context.providerId, customer, MemberActive))
            && (!schema.Migrated? ==> db.accounts[context.providerId].ownerCustomerId == customer)
  {
    if schema.Migrated? {
      var memberships := MembershipsOf(db, customer, Named(provider));
      var m :| && m in memberships
               && Resolve(db, schema, customer, provider).context == MembershipContext(db, customer, m);
    }
  }

  /** On a migrated database a request without a provider is told to name one exactly when the
      customer has two active memberships in live providers, and finds nothing exactly without any. */
  lemma AmbiguityExact(db: Db, customer: Id)
    requires UniqueMembers(db.provider) && UniqueOwners(db.accounts)
    ensures var resolution, memberships := Resolve(db, Migrated, customer, None), MembershipsOf(db, customer, None);
            && (resolution == Denied(ContextRequired) <==>
                exists m, n :: m in memberships && n in memberships && m != n)
            && (resolution == Denied(AccountNotFound) <==> memberships == {})
  {
    var memberships := MembershipsOf(db, customer, None);
    if |memberships| > 1 {
      var m :| m in memberships;
      assert memberships == {m} + (memberships - {m});
      assert memberships - {m} != {};
      var n :| n in memberships - {m};
    } else {
      forall m, n | m in memberships && n in memberships ensures m == n {
        Singleton(memberships, m, n);
      }
    }
  }

  /** An active, undeleted membership of the customer in an undeleted provider. */
  predicate MemberOf(db: Db, customer: Id, m: Id, provider: Id) {
    && m in db.provider.subjects && db.provider.subjects[m] == Membership(false, provider, customer, MemberActive)
    && provider in db.accounts && !db.accounts[provider].deleted
  }

  /** The customer owns an undeleted provider account. */
  predicate OwnerOf(db: Db, customer: Id, provider: Id) {
    && provider in db.accounts && !db.accounts[provider].deleted
    && db.accounts[provider].ownerCustomerId == customer
  }

  /** On a migrated database a named provider is resolved exactly for its members and forbidden to
      everybody else, and so is a malformed name. */
  lemma NamedResolutionExact(db: Db, customer: Id, provider: Id)
    requires UniqueMembers(db.provider) && UniqueOwners(db.accounts)
    ensures var resolution := Resolve(db, Migrated, customer, Some(Uuid(provider)));
            && (resolution.Resolved? <==> exists m :: MemberOf(db, customer, m, provider))
            && (!resolution.Resolved? ==> resolution == Denied(AccountForbidden))
    ensures Resolve(db, Migrated, customer, Some(Malformed)) == Denied(AccountForbidden)
  {
    var memberships := MembershipsOf(db, customer, Some(provider));
    assert forall m :: m in memberships <==> MemberOf(db, customer, m, provider);
    if memberships != {} {
      var m :| m in memberships;
    }
  }

  /** Without a name the only membership is resolved, and several or none are told apart. */
  lemma UnnamedResolutionExact(db: Db, customer: Id)
    requires UniqueMembers(db.provider) && UniqueOwners(db.accounts)
    ensures var resolution := Resolve(db, Migrated, customer, None);
            && (resolution == Denied(AccountNotFound) <==> forall m, p :: !MemberOf(db, customer, m, p))
            && (resolution == Denied(ContextRequired) <==>
                exists m, n, p, q :: MemberOf(db, customer, m, p) && MemberOf(db, customer, n, q) && m != n)
            && (resolution.Resolved? || resolution == Denied(AccountNotFound) || resolution == Denied(ContextRequired))
  {
    var memberships := MembershipsOf(db, customer, None);
    AmbiguityExact(db, customer);
    forall m, p | MemberOf(db, customer, m, p) ensures m in memberships {
    }
    forall m | m in memberships ensures MemberOf(db, customer, m, db.provider.subjects[m].providerId) {
    }
    if Resolve(db, Migrated, customer, None) == Denied(ContextRequired) {
      var m, n :| m in memberships && n in memberships && m != n;
      assert MemberOf(db, customer, m, db.provider.subjects[m].providerId);
      assert MemberOf(db, customer, n, db.provider.subjects[n].providerId);
    }
  }

  /** The fallback resolves the customer's own account, if it is the named one or none is named. With a
      missing table a name is always refused, and a failing query is passed on. */
  lemma FallbackResolutionExact(db: Db, customer: Id, provider: Option<ProviderRef>)
    requires UniqueMembers(db.provider) && UniqueOwners(db.accounts)
    ensures var resolution := Resolve(db, NoDataSource, customer, provider);
            && (resolution == Denied(AccountNotFound) <==> forall a :: !OwnerOf(db, customer, a))
            && (resolution.Resolved? <==>
                exists a :: OwnerOf(db, customer, a) && (provider.None? || provider == Some(Uuid(a))))
            && (!resolution.Resolved? && resolution != Denied(AccountNotFound) ==>
                resolution == Denied(AccountForbidden))
    ensures Resolve(db, TableMissing, customer, None) == Resolve(db, NoDataSource, customer, None)
    ensures provider.Some? ==> Resolve(db, TableMissing, customer, provider) == Denied(AccountForbidden)
    ensures Resolve(db, QueryFailing, customer, provider) ==
            Denied(if provider == Some(Malformed) then AccountForbidden else QueryFailed)
  {
    if a :| OwnerOf(db, customer, a) {
      assert a in db.accounts && OwnsLive(db, customer, a);
    }
    if a :| a in db.accounts && OwnsLive(db, customer, a) {
      assert OwnerOf(db, customer, a);
    }
  }

  // ----- Policies -----

  function RequireActiveProvider(context: Context): Option<AccessError> {
    if context.membershipStatus.Some? && context.membershipStatus.value != MemberActive then Some(AccountForbidden)
    else if context.providerStatus != AccountActive then Some(AccessError.AccountSuspended)
    else if context.verification != Verified then Some(AccountNotVerified)
    else None
  }

  /** The roles a context carries; none without an active membership. */
  function EffectiveRoles(t: Tables, context: Context): set<Id> {
    if context.membershipId.None? || context.membershipStatus != Some(MemberActive) then {}
    else set row | row in t.assignments && row.0 == context.membershipId.value && RoleUsable(t, row.1) :: row.1
  }

  function EffectivePermissions(t: Tables, context: Context): set<Id> {
    set r, row | r in EffectiveRoles(t, context) && row in t.mappings && row.0 == r
                 && row.1 in t.permissions && t.permissions[row.1].Effective() :: row.1
  }

  function RequireOwner(t: Tables, context: Context): Option<AccessError> {
    if exists r :: r in EffectiveRoles(t, context) && t.roles[r].code == OWNER then None else Some(AccountForbidden)
  }

  function RequireWriteAccess(t: Tables, context: Context): Option<AccessError> {
    var denied := RequireActiveProvider(context);
    if denied.Some? then denied else RequireOwner(t, context)
  }

  /** The policies in the order of their refusals. */
  lemma PoliciesExact(t: Tables, context: Context)
    ensures var denied, inactive := RequireActiveProvider(context),
                                    context.membershipStatus.Some? && context.membershipStatus.value != MemberActive;
            var suspended := context.providerStatus == AccountStatus.AccountSuspended;
            && (denied == Some(AccountForbidden) <==> inactive)
            && (denied == Some(AccessError.AccountSuspended) <==> !inactive && suspended)
            && (denied == Some(AccountNotVerified) <==> !inactive && !suspended && context.verification != Verified)
            && (denied.None? <==> !inactive && !suspended && context.verification == Verified)
    ensures RequireWriteAccess(t, context) ==
            if RequireActiveProvider(context).Some? then RequireActiveProvider(context)
            else if RequireOwner(t, context).Some? then Some(AccountForbidden) else None
  {
  }

  /** A role is effective for a context exactly if its active membership is assigned it and it is usable. */
  lemma EffectiveRolesExact(t: Tables, context: Context, r: Id)
    ensures r in EffectiveRoles(t, context) <==>
              && context.membershipStatus == Some(MemberActive) && context.membershipId.Some?
              && (context.membershipId.value, r) in t.assignments
              && r in t.roles && !t.roles[r].deleted && t.roles[r].status == RoleActive
  {
  }

  /** A permission is effective exactly if the active membership is assigned a usable role that is
      mapped to it, and it is neither deleted nor deprecated; any other context has none. */
  lemma EffectivePermissionsExact(t: Tables, context: Context, p: Id)
    ensures p in EffectivePermissions(t, context) <==>
              && context.membershipStatus == Some(MemberActive) && context.membershipId.Some?
              && exists r :: && (context.membershipId.value, r) in t.assignments && (r, p) in t.mappings
                             && r in t.roles && !t.roles[r].deleted && t.roles[r].status == RoleActive
                             && p in t.permissions && !t.permissions[p].deleted && !t.permissions[p].deprecated
  {
    if p in EffectivePermissions(t, context) {
      var r, row :| r in EffectiveRoles(t, context) && row in t.mappings && row.0 == r && row.1 == p;
      assert (r, p) in t.mappings;
    }
    if r :| r in EffectiveRoles(t, context) && (r, p) in t.mappings && p in t.permissions
            && t.permissions[p].Effective() {
      assert (r, p).0 == r && (r, p).1 == p;
    }
  }

  /** Two active memberships that are assigned the same roles have the same permissions. */
  lemma SameRolesSamePermissions(t: Tables, context: Context, other: Context)
    requires context.membershipStatus == Some(MemberActive) && context.membershipId.Some?
    requires other.membershipStatus == Some(MemberActive) && other.membershipId.Some?
    requires forall r: Id :: (context.membershipId.value, r) in t.assignments <==>
                             (other.membershipId.value, r) in t.assignments
    ensures EffectivePermissions(t, context) == EffectivePermissions(t, other)
    ensures EffectiveRoles(t, context) == EffectiveRoles(t, other)
  {
    forall p ensures p in EffectivePermissions(t, context) <==> p in EffectivePermissions(t, other) {
      EffectivePermissionsExact(t, context, p);
      EffectivePermissionsExact(t, other, p);
    }
    forall r ensures r in EffectiveRoles(t, context) <==> r in EffectiveRoles(t, other) {
      EffectiveRolesExact(t, context, r);
      EffectiveRolesExact(t, other, r);
    }
  }

  /** resolve followed by requireWriteAccess. */
  predicate CanWrite(db: Db, schema: Schema, customer: Id, provider: Option<ProviderRef>)
    requires UniqueMembers(db.provider) && UniqueOwners(db.accounts)
  {
    var resolution := Resolve(db, schema, customer, provider);
    resolution.Resolved? && RequireWriteAccess(db.provider, resolution.context).None?
  }

  // ----- Exactly who can write -----

  predicate Operating(db: Db, provider: Id) {
    && provider in db.accounts && !db.accounts[provider].deleted
    && db.accounts[provider].status == AccountActive && db.accounts[provider].verification == Verified
  }

  /** The membership is an active one of this customer in this provider and holds the usable OWNER role. */
  predicate OwnsThrough(t: Tables, m: Id, customer: Id, provider: Id) {
    && m in t.subjects && t.subjects[m] == Membership(false, provider, customer, MemberActive)
    && exists r :: r in t.roles && !t.roles[r].deleted && t.roles[r].status == RoleActive && t.roles[r].code == "OWNER"
                   && (m, r) in t.assignments
  }

  lemma OwnerRolesOfContext(t: Tables, context: Context, m: Id)
    requires context.membershipId == Some(m) && context.membershipStatus == Some(MemberActive)
    ensures RequireOwner(t, context).None? <==>
              exists r :: r in t.roles && !t.roles[r].deleted && t.roles[r].status == RoleActive
                          && t.roles[r].code == "OWNER" && (m, r) in t.assignments
  {
    forall r ensures r in EffectiveRoles(t, context) && t.roles[r].code == OWNER <==>
        r in t.roles && !t.roles[r].deleted && t.roles[r].status == RoleActive && t.roles[r].code == "OWNER"
        && (m, r) in t.assignments {
    }
  }

  /** A customer can write for a named provider exactly when that provider is live, active and
      verified and an active membership of the customer in it holds the active OWNER role. */
  lemma WriteAccessExact(db: Db, customer: Id, provider: Id)
    requires UniqueMembers(db.provider) && UniqueOwners(db.accounts)
    ensures CanWrite(db, Migrated, customer, Some(Uuid(provider))) <==>
              Operating(db, provider) && exists m :: OwnsThrough(db.provider, m, customer, provider)
  {
    var memberships := MembershipsOf(db, customer, Some(provider));
    if m :| m in memberships {
      assert forall n :: n in memberships ==> n == m by {
        forall n | n in memberships ensures n == m {
          AtMostOneMembership(db, customer, provider, n, m);
        }
      }
      OwnerRolesOfContext(db.provider, MembershipContext(db, customer, m), m);
      assert OwnsThrough(db.provider, m, customer, provider) <==>
          RequireOwner(db.provider, MembershipContext(db, customer, m)).None?;
      assert forall n :: OwnsThrough(db.provider, n, customer, provider) ==> n in memberships;
    } else if Operating(db, provider) {
      assert forall m :: OwnsThrough(db.provider, m, customer, provider) ==> m in memberships;
    }
  }

  /** Without a named provider it must be the customer's only active membership in a live provider. */
  lemma UnnamedWriteAccessExact(db: Db, customer: Id)
    requires UniqueMembers(db.provider) && UniqueOwners(db.accounts)
    ensures CanWrite(db, Migrated, customer, None) <==>
              |MembershipsOf(db, customer, None)| == 1
              && exists m :: m in MembershipsOf(db, customer, None)
                             && Operating(db, db.provider.subjects[m].providerId)
                             && OwnsThrough(db.provider, m, customer, db.provider.subjects[m].providerId)
  {
    var memberships := MembershipsOf(db, customer, None);
    if |memberships| == 1 {
      var m :| m in memberships;
      SubsetSameSize({m}, memberships);
      assert memberships == {m};
      OwnerRolesOfContext(db.provider, MembershipContext(db, customer, m), m);
    }
  }

  /** A legacy-fallback context, or a failing query, never grants write access. */
  lemma LegacyNeverWrites(db: Db, schema: Schema, customer: Id, provider: Option<ProviderRef>)
    requires UniqueMembers(db.provider) && UniqueOwners(db.accounts) && !schema.Migrated?
    ensures !CanWrite(db, schema, customer, provider)
  {
  }

  /** A provider has somebody able to write exactly when it is operating and has an active owner. */
  lemma SomebodyCanWriteExact(db: Db, provider: Id)
    requires UniqueMembers(db.provider) && UniqueOwners(db.accounts)
    ensures (exists c :: CanWrite(db, Migrated, c, Some(Uuid(provider)))) <==>
              Operating(db, provider) && HasOwner(db.provider, provider)
  {
    if HasOwner(db.provider, provider) {
      var r :| r in OwnerRoles(db.provider) && Holders(db.provider, provider, r) != {};
      var m :| m in Holders(db.provider, provider, r);
      assert OwnsThrough(db.provider, m, db.provider.subjects[m].customerId, provider);
      WriteAccessExact(db, db.provider.subjects[m].customerId, provider);
    }
    if c :| CanWrite(db, Migrated, c, Some(Uuid(provider))) {
      WriteAccessExact(db, c, provider);
      var m :| OwnsThrough(db.provider, m, c, provider);
      var r :| && r in db.provider.roles && !db.provider.roles[r].deleted && db.provider.roles[r].status == RoleActive
               && db.provider.roles[r].code == "OWNER" && (m, r) in db.provider.assignments;
      assert r in OwnerRoles(db.provider);
      assert m in Holders(db.provider, provider, r);
    }
  }
}
