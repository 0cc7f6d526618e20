/** The role-permission matrix: permissions grouped by category in the order they were
    read, and for each live role its mapped permission ids. */
module AuthorizationMatrix {
  import opened Basics
  import opened AuthorizationTables

  datatype MatrixPermission = MatrixPermission(id: Id, code: string, category: string)
  datatype PermissionGroup = PermissionGroup(category: string, permissions: seq<MatrixPermission>)

  // ----- Permission groups -----

  function OfCategory(permissions: seq<MatrixPermission>, category: string): seq<MatrixPermission> {
    if permissions == [] then []
    else
      var last := permissions[|permissions| - 1];
      OfCategory(permissions[..|permissions| - 1], category) + if last.category == category then [last] else []
  }

  /** The categories in the order they first occur. */
  function Categories(permissions: seq<MatrixPermission>): (categories: seq<string>)
    ensures Distinct(categories)
  {
    if permissions == [] then []
    else
      var front, last := Categories(permissions[..|permissions| - 1]), permissions[|permissions| - 1].category;
      if last in front then front else front + [last]
  }

  predicate HasCategory(permissions: seq<MatrixPermission>, category: string) {
    exists i :: 0 <= i < |permissions| && permissions[i].category == category
  }

  lemma {:induction false} CategoriesExact(permissions: seq<MatrixPermission>, category: string)
    ensures category in Categories(permissions) <==> HasCategory(permissions, category)
    ensures category !in Categories(permissions) ==> OfCategory(permissions, category) == []
  {
    if permissions != [] {
      var front, last := permissions[..|permissions| - 1], permissions[|permissions| - 1];
      CategoriesExact(front, category);
      if i :| 0 <= i < |front| && front[i].category == category {
        assert permissions[i].category == category;
      }
      if i :| 0 <= i < |permissions| && permissions[i].category == category && i < |front| {
        assert front[i].category == category;
      }
    }
  }

  /** The entries of the Map: one group for each category. */
  function GroupsOf(permissions: seq<MatrixPermission>): (groups: seq<PermissionGroup>)
    ensures |groups| == |Categories(permissions)|
  {
    var categories := Categories(permissions);
    seq(|categories|,
        i requires 0 <= i < |categories| => PermissionGroup(categories[i], OfCategory(permissions, categories[i])))
  }

  lemma CategoryStep(front: seq<MatrixPermission>, last: MatrixPermission, category: string)
    ensures OfCategory(front + [last], category) ==
            OfCategory(front, category) + if last.category == category then [last] else []
    ensures Categories(front + [last]) ==
            Categories(front) + if last.category in Categories(front) then [] else [last.category]
  {
    assert (front + [last])[..|front|] == front;
  }

  /** The Map after some permissions: their categories in insertion order, each with its group. */
  ghost predicate Filled(byCategory: map<string, seq<MatrixPermission>>, categories: seq<string>,
                         permissions: seq<MatrixPermission>)
  {
    && categories == Categories(permissions)
    && (forall c :: c in byCategory <==> c in categories)
    && (forall c :: c in byCategory ==> byCategory[c] == OfCategory(permissions, c))
  }

  lemma FilledStep(byCategory: map<string, seq<MatrixPermission>>, categories: seq<string>,
                   front: seq<MatrixPermission>, last: MatrixPermission, group: seq<MatrixPermission>)
    requires Filled(byCategory, categories, front)
    requires group == (if last.category in byCategory then byCategory[last.category] else []) + [last]
    ensures Filled(byCategory[last.category := group],
                   if last.category in byCategory then categories else categories + [last.category], front + [last])
  {
    CategoriesExact(front, last.category);
    CategoryStep(front, last, last.category);
    forall c | c in byCategory && c != last.category ensures OfCategory(front + [last], c) == byCategory[c] {
      CategoryStep(front, last, c);
    }
  }

  lemma FilledGroups(byCategory: map<string, seq<MatrixPermission>>, categories: seq<string>,
                     permissions: seq<MatrixPermission>)
    requires Filled(byCategory, categories, permissions)
    ensures forall k :: 0 <= k < |categories| ==> categories[k] in byCategory
    ensures seq(|categories|,
                k requires 0 <= k < |categories| => PermissionGroup(categories[k], byCategory[categories[k]]))
            == GroupsOf(permissions)
  {
  }

  method GroupPermissions(permissions: seq<MatrixPermission>) returns (groups: seq<PermissionGroup>)
    ensures groups == GroupsOf(permissions)
  {
    var byCategory: map<string, seq<MatrixPermission>>, categories: seq<string> := map[], [];
    var i := 0;
    while i < |permissions|
      invariant 0 <= i <= |permissions|
      invariant Filled(byCategory, categories, permissions[..i])
    {
      var category := permissions[i].category;
      var group := (if category in byCategory then byCategory[category] else []) + [permissions[i]];
      FilledStep(byCategory, categories, permissions[..i], permissions[i], group);
      assert permissions[..i + 1] == permissions[..i] + [permissions[i]];
      if category !in byCategory { categories := categories + [category]; }
      byCategory := byCategory[category := group];
      i := i + 1;
    }
    assert permissions[..|permissions|] == permissions;
    FilledGroups(byCategory, categories, permissions);
    groups := seq(|categories|,
                  k requires 0 <= k < |categories| => PermissionGroup(categories[k], byCategory[categories[k]]));
  }

  function Flatten(groups: seq<PermissionGroup>): seq<MatrixPermission> {
    if groups == [] then [] else Flatten(groups[..|groups| - 1]) + groups[|groups| - 1].permissions
  }

  /** Equal categories stand together. */
  predicate Contiguous(permissions: seq<MatrixPermission>) {
    forall i, j, k :: 0 <= i < j < k < |permissions| && permissions[i].category == permissions[k].category ==>
      permissions[j].category == permissions[i].category
  }

  lemma {:induction false} LastCategory(permissions: seq<MatrixPermission>)
    requires permissions != [] && Contiguous(permissions)
    ensures Categories(permissions) != []
    ensures Categories(permissions)[|Categories(permissions)| - 1] == permissions[|permissions| - 1].category
  {
    var front, last := permissions[..|permissions| - 1], permissions[|permissions| - 1];
    CategoriesExact(front, last.category);
    if last.category in Categories(front) {
      var i :| 0 <= i < |front| && front[i].category == last.category;
      assert permissions[i].category == permissions[|permissions| - 1].category;
      LastCategory(front);
      assert front[|front| - 1].category == last.category;
    }
  }

  lemma FlattenLast(groups: seq<PermissionGroup>, front: seq<PermissionGroup>)
    requires |groups| == |front| + 1 && groups[..|front|] == front
    ensures Flatten(groups) == Flatten(front) + groups[|front|].permissions
  {
  }

  lemma GroupAt(front: seq<MatrixPermission>, last: MatrixPermission, k: nat)
    requires k < |Categories(front)|
    ensures k < |GroupsOf(front + [last])|
    ensures GroupsOf(front + [last])[k].category == Categories(front)[k]
    ensures GroupsOf(front + [last])[k].permissions ==
            GroupsOf(front)[k].permissions + if last.category == Categories(front)[k] then [last] else []
  {
    CategoryStep(front, last, Categories(front)[k]);
  }

  /** A further permission of the last category joins the last group. */
  lemma JoinsLastGroup(front: seq<MatrixPermission>, last: MatrixPermission)
    requires Categories(front) != [] && Categories(front)[|Categories(front)| - 1] == last.category
    ensures Flatten(GroupsOf(front + [last])) == Flatten(GroupsOf(front)) + [last]
  {
    var before, after, n := GroupsOf(front), GroupsOf(front + [last]), |Categories(front)| - 1;
    CategoryStep(front, last, last.category);
    forall k | 0 <= k < n ensures after[k] == before[k] {
      GroupAt(front, last, k);
    }
    GroupAt(front, last, n);
    assert after[..n] == before[..n];
    assert Flatten(after[..n]) + (before[n].permissions + [last]) ==
           Flatten(before[..n]) + before[n].permissions + [last];
  }

  lemma NewGroup(front: seq<MatrixPermission>, last: MatrixPermission)
    requires last.category !in Categories(front)
    ensures |GroupsOf(front + [last])| == |GroupsOf(front)| + 1
    ensures GroupsOf(front + [last])[|GroupsOf(front)|].permissions == [last]
  {
    CategoryStep(front, last, last.category);
    CategoriesExact(front, last.category);
    assert [] + [last] == [last];
  }

  lemma OldGroups(front: seq<MatrixPermission>, last: MatrixPermission)
    requires last.category !in Categories(front)
    ensures |GroupsOf(front)| <= |GroupsOf(front + [last])|
    ensures GroupsOf(front + [last])[..|GroupsOf(front)|] == GroupsOf(front)
  {
    var before, after := GroupsOf(front), GroupsOf(front + [last]);
    CategoryStep(front, last, last.category);
    forall k | 0 <= k < |before| ensures after[k] == before[k] {
      GroupAt(front, last, k);
    }
  }

  /** The first permission of a category makes a new last group. */
  lemma OpensGroup(front: seq<MatrixPermission>, last: MatrixPermission)
    requires last.category !in Categories(front)
    ensures Flatten(GroupsOf(front + [last])) == Flatten(GroupsOf(front)) + [last]
  {
    NewGroup(front, last);
    OldGroups(front, last);
    FlattenLast(GroupsOf(front + [last]), GroupsOf(front));
  }

  lemma {:induction false} ContiguousFlattens(permissions: seq<MatrixPermission>)
    requires Contiguous(permissions)
    ensures Flatten(GroupsOf(permissions)) == permissions
  {
    if permissions != [] {
      var front, last := permissions[..|permissions| - 1], permissions[|permissions| - 1];
      assert permissions == front + [last];
      ContiguousFlattens(front);
      if last.category in Categories(front) {
        LastCategory(permissions);
        LastCategory(front);
        CategoryStep(front, last, last.category);
        JoinsLastGroup(front, last);
      } else {
        OpensGroup(front, last);
      }
    }
  }

  /** Every permission of a group has the group's category, and categories differ. */
  predicate Homogeneous(groups: seq<PermissionGroup>) {
    && (forall g, i :: 0 <= g < |groups| && 0 <= i < |groups[g].permissions| ==>
        groups[g].permissions[i].category == groups[g].category)
    && (forall g, h :: 0 <= g < h < |groups| ==> groups[g].category != groups[h].category)
  }

  lemma {:induction false} HomogeneousFlatten(groups: seq<PermissionGroup>)
    requires Homogeneous(groups)
    ensures Contiguous(Flatten(groups))
    ensures forall i :: 0 <= i < |Flatten(groups)| ==>
              exists g :: 0 <= g < |groups| && groups[g].category == Flatten(groups)[i].category
  {
    if groups != [] {
      var front, last := groups[..|groups| - 1], groups[|groups| - 1];
      HomogeneousFlatten(front);
      forall i | 0 <= i < |Flatten(front)| ensures Flatten(front)[i].category != last.category {
        var g :| 0 <= g < |front| && front[g].category == Flatten(front)[i].category;
        assert groups[g].category != groups[|groups| - 1].category;
      }
      forall i | 0 <= i < |Flatten(groups)|
        ensures exists g :: 0 <= g < |groups| && groups[g].category == Flatten(groups)[i].category
      {
        if i < |Flatten(front)| {
          var g :| 0 <= g < |front| && front[g].category == Flatten(front)[i].category;
          assert groups[g].category == Flatten(groups)[i].category;
        } else {
          assert groups[|groups| - 1].category == Flatten(groups)[i].category;
        }
      }
    }
  }

  lemma {:induction false} CategoryMembers(permissions: seq<MatrixPermission>, category: string, i: nat)
    requires i < |OfCategory(permissions, category)|
    ensures OfCategory(permissions, category)[i].category == category
  {
    var front := OfCategory(permissions[..|permissions| - 1], category);
    if i < |front| {
      CategoryMembers(permissions[..|permissions| - 1], category, i);
    }
  }

  /** A group lists the permissions of its category at all their places, in the order of the list. */
  lemma {:induction false} GroupPlaces(permissions: seq<MatrixPermission>, category: string) returns (places: seq<nat>)
    ensures |places| == |OfCategory(permissions, category)| && Rising(places)
    ensures forall i :: 0 <= i < |places| ==>
              places[i] < |permissions| && permissions[places[i]] == OfCategory(permissions, category)[i]
    ensures forall k :: 0 <= k < |permissions| ==> (permissions[k].category == category <==> k in places)
  {
    places := [];
    if permissions != [] {
      var front := permissions[..|permissions| - 1];
      var earlier := GroupPlaces(front, category);
      places := earlier + if permissions[|front|].category == category then [|front|] else [];
    }
  }

  /** Concatenating the groups gives back the permission list unchanged exactly when its
      categories stand together; the groups themselves are always homogeneous. */
  lemma ConcatenationExact(permissions: seq<MatrixPermission>)
    ensures Homogeneous(GroupsOf(permissions))
    ensures Flatten(GroupsOf(permissions)) == permissions <==> Contiguous(permissions)
  {
    var groups := GroupsOf(permissions);
    forall g, i | 0 <= g < |groups| && 0 <= i < |groups[g].permissions|
      ensures groups[g].permissions[i].category == groups[g].category
    {
      CategoryMembers(permissions, groups[g].category, i);
    }
    HomogeneousFlatten(groups);
    if Contiguous(permissions) {
      ContiguousFlattens(permissions);
    }
  }

  /** A collation: any total order on category names. */
  ghost predicate TotalOrder(precedes: (string, string) -> bool) {
    && (forall a, b :: precedes(a, b) || precedes(b, a))
    && (forall a, b :: precedes(a, b) && precedes(b, a) ==> a == b)
    && (forall a, b, c :: precedes(a, b) && precedes(b, c) ==> precedes(a, c))
  }

  ghost predicate OrderedByCategory(permissions: seq<MatrixPermission>, precedes: (string, string) -> bool) {
    forall i, j :: 0 <= i < j < |permissions| ==> precedes(permissions[i].category, permissions[j].category)
  }

  /** ORDER BY category, in whatever collation, leaves equal categories together, so the
      concatenated groups are the list that was read. */
  lemma OrderedConcatenation(permissions: seq<MatrixPermission>, precedes: (string, string) -> bool)
    requires TotalOrder(precedes) && OrderedByCategory(permissions, precedes)
    ensures Contiguous(permissions) && Flatten(GroupsOf(permissions)) == permissions
  {
    forall i, j, k | 0 <= i < j < k < |permissions| && permissions[i].category == permissions[k].category
      ensures permissions[j].category == permissions[i].category
    {
      assert precedes(permissions[i].category, permissions[j].category);
      assert precedes(permissions[j].category, permissions[k].category);
    }
    ContiguousFlattens(permissions);
  }

  // ----- Assignments -----

  /** The permission ids mapped to a role, in order. */
  function MappedTo(mappings: seq<(Id, Id)>, role: Id): seq<Id> {
    if mappings == [] then []
    else
      var last := mappings[|mappings| - 1];
      MappedTo(mappings[..|mappings| - 1], role) + if last.0 == role then [last.1] else []
  }

  method FillAssignments(roles: seq<Id>, mappings: seq<(Id, Id)>) returns (assignments: map<Id, seq<Id>>)
    ensures assignments == map r | r in roles :: MappedTo(mappings, r)
  {
    assignments := map[];
    var i := 0;
    while i < |roles|
      invariant 0 <= i <= |roles|
      invariant assignments == map r | r in roles[..i] :: []
    {
      assert roles[..i + 1] == roles[..i] + [roles[i]];
      assignments := assignments[roles[i] := []];
      i := i + 1;
    }
    var k := 0;
    while k < |mappings|
      invariant 0 <= k <= |mappings|
      invariant assignments.Keys == Elements(roles)
      invariant forall r :: r in assignments ==> assignments[r] == MappedTo(mappings[..k], r)
    {
      assert mappings[..k + 1][..k] == mappings[..k];
      var role := mappings[k].0;
      if role in assignments {
        assignments := assignments[role := assignments[role] + [mappings[k].1]];
      }
      k := k + 1;
    }
    assert mappings[..|mappings|] == mappings;
  }

  predicate Precedes(a: (Id, Id), b: (Id, Id)) {
    a.0 < b.0 || (a.0 == b.0 && a.1 < b.1)
  }

  /** ORDER BY role_id, permission_id over a table without repeated rows. */
  predicate Ordered(mappings: seq<(Id, Id)>) {
    forall i, j :: 0 <= i < j < |mappings| ==> Precedes(mappings[i], mappings[j])
  }

  lemma {:induction false} MappedIds(mappings: seq<(Id, Id)>, role: Id)
    ensures forall id :: id in MappedTo(mappings, role) <==> (role, id) in mappings
    ensures Ordered(mappings) ==> Rising(MappedTo(mappings, role))
  {
    if mappings != [] {
      var front, last := mappings[..|mappings| - 1], mappings[|mappings| - 1];
      MappedIds(front, role);
      assert mappings == front + [last];
      if Ordered(mappings) && last.0 == role {
        var ids := MappedTo(front, role);
        forall i | 0 <= i < |ids| ensures ids[i] < last.1 {
          assert ids[i] in ids;
          assert (role, ids[i]) in front;
        }
      }
    }
  }

  /** Over the rows read from a platform's tables: exactly the live roles have an entry, and it
      lists the role's mapped permission ids once each, in ascending order. */
  lemma EntriesExact(t: Tables, roles: seq<Id>, mappings: seq<(Id, Id)>, role: Id)
    requires forall r :: r in roles <==> RoleLive(t, r)
    requires Ordered(mappings) && forall row :: row in mappings <==> row in t.mappings
    ensures var assignments := map r | r in roles :: MappedTo(mappings, r);
            && (role in assignments <==> RoleLive(t, role))
            && (role in assignments ==>
                Elements(assignments[role]) == PermissionsOf(t, role) && Rising(assignments[role]))
  {
    MappedIds(mappings, role);
    forall id ensures id in PermissionsOf(t, role) <==> id in MappedTo(mappings, role) {
      if (role, id) in t.mappings {
        assert (role, id).1 in PermissionsOf(t, role);
      }
    }
  }
}
