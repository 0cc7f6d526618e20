/** The verifier that runs over the discovered and the applied migrations. */
module MigrationVerifier {
  import opened Basics

  /** A row of the migrations table, in id order. */
  datatype Applied = Applied(name: string, timestamp: int)

  datatype Failure =
    | Unnamed | NamesRepeat | Unstamped(name: string) | TimestampRepeats(timestamp: nat)
    | Pending | CountDiffers | AppliedRepeat | NotDiscovered | OutOfOrder

  // ----- Timestamps in names -----

  predicate AllDigits(s: string) {
    forall i :: 0 <= i < |s| ==> '0' <= s[i] <= '9'
  }

  function Value(digits: string): nat
    requires AllDigits(digits)
  {
    if digits == [] then 0
    else
      var last := digits[|digits| - 1];
      Value(digits[..|digits| - 1]) * 10 + (last as int - '0' as int)
  }

  /** The 13 digits a name ends with. */
  function TimestampOf(name: string): Option<nat> {
    if |name| >= 13 && AllDigits(name[|name| - 13..]) then Some(Value(name[|name| - 13..])) else None
  }

  function Power(n: nat): nat { if n == 0 then 1 else 10 * Power(n - 1) }

  /** Positional notation: every digit counts with the power of ten of its place. */
  lemma {:induction false} ValueByPlace(digits: string, k: nat)
    requires AllDigits(digits) && k < |digits|
    ensures Value(digits) ==
            Value(digits[..k]) * Power(|digits| - k)
            + (digits[k] as int - '0' as int) * Power(|digits| - k - 1) + Value(digits[k + 1..])
  {
    var n := |digits| - 1;
    if k < n {
      var front := digits[..n];
      ValueByPlace(front, k);
      assert front[..k] == digits[..k] && digits[k + 1..][..n - k - 1] == front[k + 1..];
      Tenfold(Value(front[..k]), Power(n - k));
      Tenfold(digits[k] as int - '0' as int, Power(n - k - 1));
    } else {
      assert digits[k + 1..] == [] && Power(1) == 10 * Power(0) && Power(0) == 1;
    }
  }

  lemma Tenfold(a: int, p: int)
    ensures a * p * 10 == a * (10 * p)
  {
  }

  lemma LastDigitUnique(x: nat, y: nat, c: nat, d: nat)
    requires c < 10 && d < 10
    ensures x * 10 + c == y * 10 + d <==> x == y && c == d
  {
  }

  /** Digit strings of one length have one value exactly when they are the same. */
  lemma {:induction false} ValueInjective(a: string, b: string)
    requires AllDigits(a) && AllDigits(b) && |a| == |b|
    ensures Value(a) == Value(b) <==> a == b
  {
    if a != [] {
      var n := |a| - 1;
      ValueInjective(a[..n], b[..n]);
      LastDigitUnique(Value(a[..n]), Value(b[..n]), a[n] as int - '0' as int, b[n] as int - '0' as int);
      assert a == a[..n] + [a[n]] && b == b[..n] + [b[n]];
    }
  }

  /** The last 13 characters are digits. */
  predicate DigitTail(name: string) {
    |name| >= 13 && forall k :: |name| - 13 <= k < |name| ==> '0' <= name[k] <= '9'
  }

  /** The last 13 characters are the same. */
  predicate SameTail(name: string, other: string) {
    |name| >= 13 && |other| >= 13 && name[|name| - 13..] == other[|other| - 13..]
  }

  /** A name is stamped exactly when its last 13 characters are digits, and two stamped names carry
      one timestamp exactly when these characters are the same. */
  lemma TimestampExact(name: string, other: string)
    ensures TimestampOf(name).Some? <==> DigitTail(name)
    ensures TimestampOf(name).Some? && TimestampOf(other).Some? ==>
              (TimestampOf(name) == TimestampOf(other) <==> SameTail(name, other))
  {
    if TimestampOf(name).Some? && TimestampOf(other).Some? {
      ValueInjective(name[|name| - 13..], other[|other| - 13..]);
    }
    if |name| >= 13 {
      var tail, start := name[|name| - 13..], |name| - 13;
      assert forall i :: 0 <= i < 13 ==> tail[i] == name[start + i];
      assert forall k :: start <= k < |name| ==> name[k] == tail[k - start];
    }
  }

  /** What the timestamp check accepts, in characters: every name ends in 13 digits, and a name that
      is not on the allowlist shares them with no other. */
  lemma AcceptedExact(names: seq<string>, allowlist: set<string>)
    ensures Stamped(names) && !ForbiddenCollision(names, allowlist) <==>
              && (forall i :: 0 <= i < |names| ==> DigitTail(names[i]))
              && forall i, j :: 0 <= i < |names| && 0 <= j < |names| && i != j && names[i] !in allowlist ==>
                  !SameTail(names[i], names[j])
  {
    forall i, j | 0 <= i < |names| && 0 <= j < |names|
      ensures TimestampOf(names[i]).Some? <==> DigitTail(names[i])
      ensures TimestampOf(names[i]).Some? && TimestampOf(names[j]).Some? ==>
                (TimestampOf(names[i]) == TimestampOf(names[j]) <==> SameTail(names[i], names[j]))
    {
      TimestampExact(names[i], names[j]);
    }
    if Stamped(names) {
      forall i, j | 0 <= i < |names| && 0 <= j < |names| && i != j
        ensures SharesTimestamp(names, i, j) <==> SameTail(names[i], names[j])
      {
      }
    }
  }

  /** Those of the first n names that carry a timestamp, in discovery order. */
  function GroupUpTo(names: seq<string>, n: nat, timestamp: nat): seq<string>
    requires n <= |names|
  {
    if n == 0 then []
    else
      var last := names[n - 1];
      GroupUpTo(names, n - 1, timestamp) + if TimestampOf(last) == Some(timestamp) then [last] else []
  }

  predicate Carries(names: seq<string>, n: nat, timestamp: nat, name: string)
    requires n <= |names|
  {
    TimestampOf(name) == Some(timestamp) && exists k :: 0 <= k < n && names[k] == name
  }

  lemma {:induction false} GroupMembers(names: seq<string>, n: nat, timestamp: nat, name: string)
    requires n <= |names|
    ensures name in GroupUpTo(names, n, timestamp) <==> Carries(names, n, timestamp, name)
  {
    if n > 0 {
      GroupMembers(names, n - 1, timestamp, name);
      if Carries(names, n - 1, timestamp, name) {
        var k :| 0 <= k < n - 1 && names[k] == name;
        assert 0 <= k < n && names[k] == name;
      }
    }
  }

  function Group(names: seq<string>, timestamp: nat): seq<string> {
    GroupUpTo(names, |names|, timestamp)
  }

  predicate SharesTimestamp(names: seq<string>, i: nat, j: nat) {
    && i < |names| && j < |names| && i != j && TimestampOf(names[i]).Some?
    && TimestampOf(names[i]) == TimestampOf(names[j])
  }

  lemma {:induction false} SharedMakesTwo(names: seq<string>, n: nat, i: nat, j: nat)
    requires SharesTimestamp(names, i, j) && i < j < n <= |names|
    ensures |GroupUpTo(names, n, TimestampOf(names[i]).value)| >= 2
    decreases n
  {
    if j < n - 1 {
      SharedMakesTwo(names, n - 1, i, j);
    } else {
      GroupMembers(names, n - 1, TimestampOf(names[i]).value, names[i]);
      assert names[i] in GroupUpTo(names, n - 1, TimestampOf(names[i]).value);
    }
  }

  lemma {:induction false} TwoAreShared(names: seq<string>, n: nat, i: nat) returns (j: nat)
    requires i < n <= |names| && TimestampOf(names[i]).Some? && |GroupUpTo(names, n, TimestampOf(names[i]).value)| >= 2
    ensures SharesTimestamp(names, i, j)
    decreases n
  {
    var t := TimestampOf(names[i]).value;
    if i == n - 1 {
      var other := GroupUpTo(names, n - 1, t)[0];
      GroupMembers(names, n - 1, t, other);
      j :| 0 <= j < n - 1 && names[j] == other;
    } else if TimestampOf(names[n - 1]) == Some(t) {
      j := n - 1;
    } else {
      j := TwoAreShared(names, n - 1, i);
    }
  }

  /** Some two migrations share a timestamp and one of that group is not on the allowlist. */
  predicate ForbiddenCollision(names: seq<string>, allowlist: set<string>) {
    exists i, j :: 0 <= i < |names| && 0 <= j < |names| && SharesTimestamp(names, i, j) && names[i] !in allowlist
  }

  predicate Forbidden(group: seq<string>, allowlist: set<string>) {
    |group| >= 2 && exists name :: name in group && name !in allowlist
  }

  /** Judging group by group finds exactly the forbidden collisions. */
  lemma GroupsDecide(names: seq<string>, allowlist: set<string>)
    ensures ForbiddenCollision(names, allowlist) <==> exists t :: Forbidden(Group(names, t), allowlist)
  {
    if t :| Forbidden(Group(names, t), allowlist) {
      var name :| name in Group(names, t) && name !in allowlist;
      GroupMembers(names, |names|, t, name);
      var i :| 0 <= i < |names| && names[i] == name;
      var j := TwoAreShared(names, |names|, i);
    }
    if i, j :| 0 <= i < |names| && 0 <= j < |names| && SharesTimestamp(names, i, j) && names[i] !in allowlist {
      if i < j { SharedMakesTwo(names, |names|, i, j); } else { SharedMakesTwo(names, |names|, j, i); }
      GroupMembers(names, |names|, TimestampOf(names[i]).value, names[i]);
      assert names[i] in Group(names, TimestampOf(names[i]).value);
      assert Forbidden(Group(names, TimestampOf(names[i]).value), allowlist);
    }
  }

  predicate Stamped(names: seq<string>) {
    forall i :: 0 <= i < |names| ==> TimestampOf(names[i]).Some?
  }

  /** The Map after the first n names, which all carry timestamps: its keys and its groups. */
  ghost predicate Filled(groups: map<nat, seq<string>>, timestamps: seq<nat>, names: seq<string>, n: nat)
    requires n <= |names|
  {
    && (forall k :: 0 <= k < n ==> TimestampOf(names[k]).Some?)
    && (forall t :: t in groups <==> t in timestamps)
    && (forall t: nat :: Entry(groups, names, n, t))
  }

  ghost predicate Entry(groups: map<nat, seq<string>>, names: seq<string>, n: nat, t: nat)
    requires n <= |names|
  {
    GroupUpTo(names, n, t) == if t in groups then groups[t] else []
  }

  lemma EntryStep(groups: map<nat, seq<string>>, names: seq<string>, n: nat, stamp: nat, group: seq<string>, t: nat)
    requires n < |names| && TimestampOf(names[n]) == Some(stamp) && Entry(groups, names, n, t)
    requires group == (if stamp in groups then groups[stamp] else []) + [names[n]]
    ensures Entry(groups[stamp := group], names, n + 1, t)
  {
  }

  lemma FilledStep(groups: map<nat, seq<string>>, timestamps: seq<nat>, names: seq<string>, n: nat, stamp: nat,
                   group: seq<string>)
    requires n < |names| && TimestampOf(names[n]) == Some(stamp) && Filled(groups, timestamps, names, n)
    requires group == (if stamp in groups then groups[stamp] else []) + [names[n]]
    ensures Filled(groups[stamp := group], if stamp in groups then timestamps else timestamps + [stamp], names, n + 1)
  {
    var after, m := groups[stamp := group], n + 1;
    forall t: nat ensures Entry(after, names, m, t) {
      EntryStep(groups, names, n, stamp, group, t);
    }
  }

  /** The loop that fills the Map: its entries in insertion order, or the first name without a timestamp. */
  method GroupByTimestamp(names: seq<string>)
    returns (unstamped: Option<string>, groups: map<nat, seq<string>>, timestamps: seq<nat>)
    ensures unstamped.Some? ==> unstamped.value in names && TimestampOf(unstamped.value).None?
    ensures unstamped.None? ==> Filled(groups, timestamps, names, |names|)
  {
    groups, timestamps := map[], [];
    for i := 0 to |names|
      invariant Filled(groups, timestamps, names, i)
    {
      var stamp := TimestampOf(names[i]);
      if stamp.None? { return Some(names[i]), groups, timestamps; }
      var group := (if stamp.value in groups then groups[stamp.value] else []) + [names[i]];
      FilledStep(groups, timestamps, names, i, stamp.value, group);
      if stamp.value !in groups { timestamps := timestamps + [stamp.value]; }
      groups := groups[stamp.value := group];
    }
    unstamped := None;
  }

  /** The loop over the groups, in the order their timestamps were met. */
  method FirstForbidden(groups: map<nat, seq<string>>, timestamps: seq<nat>, allowlist: set<string>)
    returns (timestamp: Option<nat>)
    requires forall t :: t in timestamps ==> t in groups
    ensures timestamp.Some? ==> timestamp.value in groups && Forbidden(groups[timestamp.value], allowlist)
    ensures timestamp.None? ==> forall t :: t in timestamps ==> !Forbidden(groups[t], allowlist)
  {
    for k := 0 to |timestamps|
      invariant forall t :: t in timestamps[..k] ==> !Forbidden(groups[t], allowlist)
    {
      assert timestamps[..k + 1] == timestamps[..k] + [timestamps[k]];
      if Forbidden(groups[timestamps[k]], allowlist) { return Some(timestamps[k]); }
    }
    timestamp := None;
  }

  /** Accepts exactly the lists in which every name ends with a timestamp and no timestamp
      is shared outside the allowlist. */
  method AssertMigrationTimestamps(names: seq<string>, allowlist: set<string>) returns (failure: Option<Failure>)
    ensures failure.None? <==> Stamped(names) && !ForbiddenCollision(names, allowlist)
    ensures failure.Some? && failure.value.Unstamped? ==>
              failure.value.name in names && TimestampOf(failure.value.name).None?
    ensures failure.Some? && !failure.value.Unstamped? ==>
              && failure.value.TimestampRepeats? && Stamped(names)
              && Forbidden(Group(names, failure.value.timestamp), allowlist)
  {
    var unstamped, groups, timestamps := GroupByTimestamp(names);
    if unstamped.Some? { return Some(Unstamped(unstamped.value)); }
    var collision := FirstForbidden(groups, timestamps, allowlist);
    GroupsDecide(names, allowlist);
    if collision.Some? {
      assert Entry(groups, names, |names|, collision.value);
      assert Forbidden(Group(names, collision.value), allowlist);
      return Some(TimestampRepeats(collision.value));
    }
    forall t: nat ensures !Forbidden(Group(names, t), allowlist) {
      assert Entry(groups, names, |names|, t);
    }
    failure := None;
  }

  // ----- Sets of names -----

  function NameSet(names: seq<string>): set<string> {
    set name | name in names
  }

  lemma DistinctSnoc(front: seq<string>, last: string)
    ensures Distinct(front + [last]) <==> Distinct(front) && last !in front
  {
    var names := front + [last];
    if Distinct(names) {
      assert forall i :: 0 <= i < |front| ==> front[i] == names[i] && names[i] != names[|front|];
    }
  }

  /** new Set(names).size equals the length exactly for distinct names. */
  lemma {:induction false} SetSize(names: seq<string>)
    ensures |NameSet(names)| <= |names|
    ensures |NameSet(names)| == |names| <==> Distinct(names)
  {
    if names != [] {
      var front, last := names[..|names| - 1], names[|names| - 1];
      SetSize(front);
      assert names == front + [last];
      assert NameSet(names) == NameSet(front) + {last};
      DistinctSnoc(front, last);
    }
  }

  lemma {:induction false} DistinctMultiplicity(names: seq<string>, name: string)
    requires Distinct(names)
    ensures multiset(names)[name] == if name in names then 1 else 0
  {
    if names != [] {
      var front := names[..|names| - 1];
      DistinctMultiplicity(front, name);
      assert names == front + [names[|names| - 1]];
    }
  }

  /** Distinct names drawn from a list no longer than them are a permutation of it. */
  lemma Pigeonhole(applied: seq<string>, discovered: seq<string>)
    requires |applied| == |discovered| && Distinct(applied) && NameSet(applied) <= NameSet(discovered)
    ensures multiset(applied) == multiset(discovered) && Distinct(discovered)
  {
    SetSize(applied);
    SetSize(discovered);
    assert NameSet(discovered) == NameSet(applied) + (NameSet(discovered) - NameSet(applied));
    assert NameSet(applied) == NameSet(discovered);
    forall name ensures multiset(applied)[name] == multiset(discovered)[name] {
      DistinctMultiplicity(applied, name);
      DistinctMultiplicity(discovered, name);
      assert name in applied <==> name in NameSet(applied);
      assert name in discovered <==> name in NameSet(discovered);
    }
  }

  method AssertMigrationMetadata(names: seq<string>, allowlist: set<string>) returns (failure: Option<Failure>)
    ensures failure.None? <==>
              "" !in names && Distinct(names) && Stamped(names) && !ForbiddenCollision(names, allowlist)
    ensures failure == Some(Unnamed) <==> "" in names
    ensures failure == Some(NamesRepeat) <==> "" !in names && !Distinct(names)
  {
    if "" in names { return Some(Unnamed); }
    SetSize(names);
    if |NameSet(names)| != |names| { return Some(NamesRepeat); }
    failure := AssertMigrationTimestamps(names, allowlist);
  }

  // ----- Applied migrations -----

  function AppliedNames(rows: seq<Applied>): (names: seq<string>)
    ensures |names| == |rows|
  {
    seq(|rows|, i requires 0 <= i < |rows| => rows[i].name)
  }

  /** Every later row carries at least the timestamp of every earlier one. */
  predicate SortedByTimestamp(rows: seq<Applied>) {
    forall i, j :: 0 <= i < j < |rows| ==> rows[i].timestamp <= rows[j].timestamp
  }

  /** What it means that everything discovered was applied, once and in order. */
  ghost predicate FullyApplied(discovered: seq<string>, rows: seq<Applied>) {
    && Distinct(discovered) && multiset(AppliedNames(rows)) == multiset(discovered) && SortedByTimestamp(rows)
  }

  lemma PermutationFacts(applied: seq<string>, discovered: seq<string>)
    requires multiset(applied) == multiset(discovered) && Distinct(discovered)
    ensures |applied| == |discovered| && Distinct(applied) && NameSet(applied) == NameSet(discovered)
  {
    assert |multiset(applied)| == |applied| && |multiset(discovered)| == |discovered|;
    assert forall name :: name in applied <==> name in multiset(applied);
    assert forall name :: name in discovered <==> name in multiset(discovered);
    assert NameSet(applied) == NameSet(discovered);
    SetSize(discovered);
    SetSize(applied);
  }

  /** Passes exactly when nothing is pending and the applied names are a permutation of the
      distinct discovered ones, sorted by timestamp over the whole list. */
  method AssertAllMigrationsApplied(names: seq<string>, pending: bool, rows: seq<Applied>)
    returns (failure: Option<Failure>)
    ensures failure.None? <==> !pending && FullyApplied(names, rows)
    ensures failure == Some(Pending) <==> pending
    ensures failure == Some(CountDiffers) <==> !pending && |rows| != |names|
    ensures failure == Some(AppliedRepeat) <==> !pending && |rows| == |names| && !Distinct(AppliedNames(rows))
    ensures failure == Some(NotDiscovered) <==>
              !pending && |rows| == |names| && Distinct(AppliedNames(rows))
              && exists i :: 0 <= i < |rows| && rows[i].name !in names
    ensures failure.Some? ==> failure.value in {Pending, CountDiffers, AppliedRepeat, NotDiscovered, OutOfOrder}
  {
    if pending { return Some(Pending); }
    var applied := AppliedNames(rows);
    if multiset(applied) == multiset(names) && Distinct(names) {
      PermutationFacts(applied, names);
    }
    if |rows| != |names| { return Some(CountDiffers); }
    SetSize(applied);
    if |NameSet(applied)| != |applied| { return Some(AppliedRepeat); }
    if !(NameSet(applied) <= NameSet(names)) {
      var name :| name in NameSet(applied) && name !in NameSet(names);
      var i :| 0 <= i < |applied| && applied[i] == name;
      assert rows[i].name !in names;
      return Some(NotDiscovered);
    }
    assert forall i :: 0 <= i < |rows| ==> rows[i].name == applied[i] && applied[i] in NameSet(applied);
    Pigeonhole(applied, names);
    var index := 1;
    while index < |rows|
      invariant 1 <= index
      invariant index <= |rows| || index == 1
      invariant forall i, j :: 0 <= i < j < index && j < |rows| ==> rows[i].timestamp <= rows[j].timestamp
    {
      if rows[index].timestamp < rows[index - 1].timestamp { return Some(OutOfOrder); }
      index := index + 1;
    }
    failure := None;
  }
}
