/**
 * The part of the ORM the views rely on: `filter(**lookups)` keeps, in order, the rows that
 * satisfy every lookup, and `get(**lookups)` returns the single row that does or raises.
 * Lookups are first-order values; `matches` says when a row satisfies one.
 */
module QuerySets {
  import opened Wrappers
  import opened Models

  /** The keyword lookups the lead views pass to `Lead.objects.filter`. */
  datatype LeadLookup =
    | LeadIdIs(id: LeadId)                        // id=<pk>
    | OrganisationIs(organisation: OrganisationId) // organisation=<profile>
    | AgentIsNull(isNull: bool)                   // agent__isnull=<bool>
    | AgentUserIs(user: UserId)                   // agent__user=<user>
    | CategoryIsNull(isNull: bool)                // category__isnull=<bool>

  predicate LeadMatches(lead: Lead, q: LeadLookup) {
    match q
    case LeadIdIs(id) => lead.id == id
    case OrganisationIs(o) => lead.organisation == o
    case AgentIsNull(b) => lead.agent.None? == b
    case AgentUserIs(u) => lead.agent.Some? && lead.agent.value.user == u
    case CategoryIsNull(b) => lead.category.None? == b
  }

  /** The keyword lookups the category views pass to `Category.objects`. */
  datatype CategoryLookup =
    | CategoryIdIs(id: CategoryId)                         // id=<pk>
    | CategoryOrganisationIs(organisation: OrganisationId) // organisation=<profile>
    | NameIs(name: string)                                 // name=<text>

  predicate CategoryMatches(c: Category, q: CategoryLookup) {
    match q
    case CategoryIdIs(id) => c.id == id
    case CategoryOrganisationIs(o) => c.organisation == o
    case NameIs(n) => c.name == n
  }

  /** A row satisfies a list of keyword lookups when it satisfies each of them. */
  predicate MatchesAll<T, Q>(x: T, qs: seq<Q>, matches: (T, Q) -> bool) {
    forall i :: 0 <= i < |qs| ==> matches(x, qs[i])
  }

  lemma MatchesOne<T, Q>(q: Q, matches: (T, Q) -> bool)
    ensures forall x :: MatchesAll(x, [q], matches) <==> matches(x, q)
  {
    assert [q][0] == q;
  }

  lemma MatchesTwo<T, Q>(q1: Q, q2: Q, matches: (T, Q) -> bool)
    ensures forall x :: MatchesAll(x, [q1, q2], matches) <==> matches(x, q1) && matches(x, q2)
  {
    forall x ensures MatchesAll(x, [q1, q2], matches) <==> matches(x, q1) && matches(x, q2) {
      assert [q1, q2][0] == q1 && [q1, q2][1] == q2;
    }
  }

  lemma MatchesAllAppend<T, Q>(x: T, a: seq<Q>, b: seq<Q>, matches: (T, Q) -> bool)
    ensures MatchesAll(x, a + b, matches) <==> MatchesAll(x, a, matches) && MatchesAll(x, b, matches)
  {
    forall i | 0 <= i < |a| ensures (a + b)[i] == a[i] { }
    forall i | 0 <= i < |b| ensures (a + b)[|a| + i] == b[i] { }
    if MatchesAll(x, a, matches) && MatchesAll(x, b, matches) {
      forall i | 0 <= i < |a + b| ensures matches(x, (a + b)[i]) {
        if i >= |a| { assert (a + b)[i] == b[i - |a|]; }
      }
    }
  }

  /** `queryset.filter(**qs)`: the rows, in order, that satisfy the lookups. */
  function Filter<T(==,!new), Q>(s: seq<T>, qs: seq<Q>, matches: (T, Q) -> bool): (r: seq<T>)
    ensures forall x :: x in r <==> x in s && MatchesAll(x, qs, matches)
    ensures |r| <= |s|
    decreases |s|
  {
    if s == [] then []
    else (if MatchesAll(s[0], qs, matches) then [s[0]] else []) + Filter(s[1..], qs, matches)
  }

  /** Every row is kept exactly as often as it occurs when it satisfies the lookups, and dropped otherwise. */
  lemma {:induction false} FilterMultiset<T(!new), Q>(s: seq<T>, qs: seq<Q>, matches: (T, Q) -> bool, x: T)
    ensures multiset(Filter(s, qs, matches))[x] == if MatchesAll(x, qs, matches) then multiset(s)[x] else 0
    decreases |s|
  {
    if s != [] {
      assert s == [s[0]] + s[1..];
      FilterMultiset(s[1..], qs, matches, x);
    }
  }

  lemma {:induction false} FilterConcat<T(!new), Q>(a: seq<T>, b: seq<T>, qs: seq<Q>, matches: (T, Q) -> bool)
    ensures Filter(a + b, qs, matches) == Filter(a, qs, matches) + Filter(b, qs, matches)
    decreases |a|
  {
    if a == [] {
      assert a + b == b;
    } else {
      assert (a + b)[0] == a[0];
      assert (a + b)[1..] == a[1..] + b;
      FilterConcat(a[1..], b, qs, matches);
    }
  }

  /** Chaining `.filter(a).filter(b)` selects the same rows, in the same order, as one `.filter(a, b)`. */
  lemma {:induction false} FilterChain<T(!new), Q>(s: seq<T>, a: seq<Q>, b: seq<Q>, matches: (T, Q) -> bool)
    ensures Filter(Filter(s, a, matches), b, matches) == Filter(s, a + b, matches)
    decreases |s|
  {
    if s != [] {
      var head: seq<T> := if MatchesAll(s[0], a, matches) then [s[0]] else [];
      FilterConcat(head, Filter(s[1..], a, matches), b, matches);
      FilterChain(s[1..], a, b, matches);
      MatchesAllAppend(s[0], a, b, matches);
      if head != [] {
        assert head[1..] == [];
      }
    }
  }

  /** Two matching rows make a queryset of at least two. */
  lemma {:induction false} TwoMatchesMeanTwoRows<T(!new), Q>(s: seq<T>, qs: seq<Q>, matches: (T, Q) -> bool, i: nat, j: nat)
    requires i < j < |s| && MatchesAll(s[i], qs, matches) && MatchesAll(s[j], qs, matches)
    ensures |Filter(s, qs, matches)| >= 2
    decreases i
  {
    if i == 0 {
      assert s[j] == s[1..][j - 1];
      assert s[j] in Filter(s[1..], qs, matches);
    } else {
      TwoMatchesMeanTwoRows(s[1..], qs, matches, i - 1, j - 1);
    }
  }

  /** A queryset of at least two has two matching rows at distinct positions. */
  lemma {:induction false} TwoRowsMeanTwoMatches<T(!new), Q>(s: seq<T>, qs: seq<Q>, matches: (T, Q) -> bool)
    returns (i: nat, j: nat)
    requires |Filter(s, qs, matches)| >= 2
    ensures i < j < |s| && MatchesAll(s[i], qs, matches) && MatchesAll(s[j], qs, matches)
    decreases |s|
  {
    var rest := Filter(s[1..], qs, matches);
    if MatchesAll(s[0], qs, matches) {
      assert rest[0] in rest;
      var k :| 0 <= k < |s[1..]| && s[1..][k] == rest[0];
      i, j := 0, k + 1;
    } else {
      var i', j' := TwoRowsMeanTwoMatches(s[1..], qs, matches);
      i, j := i' + 1, j' + 1;
      assert s[i] == s[1..][i'] && s[j] == s[1..][j'];
    }
  }

  /**
   * `objects.get(**qs)`: the one row that satisfies the lookups; DoesNotExist when none does,
   * MultipleObjectsReturned when two rows do.
   */
  function Get<T(==,!new), Q>(s: seq<T>, qs: seq<Q>, matches: (T, Q) -> bool): (r: Result<T, Error>)
    ensures r.Success? ==> r.value in s && MatchesAll(r.value, qs, matches)
    ensures r.Success? ==> forall x :: x in s && MatchesAll(x, qs, matches) ==> x == r.value
    ensures r == Failure(DoesNotExist) <==> forall x :: x in s ==> !MatchesAll(x, qs, matches)
    ensures r == Failure(MultipleObjectsReturned) <==>
              exists i, j :: 0 <= i < j < |s| && MatchesAll(s[i], qs, matches) && MatchesAll(s[j], qs, matches)
    ensures r.Failure? ==> r.error == DoesNotExist || r.error == MultipleObjectsReturned
  {
    var rows := Filter(s, qs, matches);
    if |rows| == 0 then
      assert forall x :: x in s ==> !MatchesAll(x, qs, matches);
      Failure(DoesNotExist)
    else if |rows| == 1 then
      assert rows[0] in rows;
      assert forall x :: x in s && MatchesAll(x, qs, matches) ==> x == rows[0] by {
        forall x | x in s && MatchesAll(x, qs, matches) ensures x == rows[0] { assert x in rows; }
      }
      assert !exists i, j :: 0 <= i < j < |s| && MatchesAll(s[i], qs, matches) && MatchesAll(s[j], qs, matches) by {
        forall i, j | 0 <= i < j < |s| && MatchesAll(s[i], qs, matches) && MatchesAll(s[j], qs, matches) ensures false {
          TwoMatchesMeanTwoRows(s, qs, matches, i, j);
        }
      }
      Success(rows[0])
    else
      assert exists i, j :: 0 <= i < j < |s| && MatchesAll(s[i], qs, matches) && MatchesAll(s[j], qs, matches) by {
        var i, j := TwoRowsMeanTwoMatches(s, qs, matches);
      }
      assert rows[0] in rows;
      Failure(MultipleObjectsReturned)
  }

  /** Two complementary lookups split a queryset into two parts that together hold every row once. */
  lemma FilterPartition<T(!new), Q>(s: seq<T>, qs: seq<Q>, x: Q, y: Q, matches: (T, Q) -> bool)
    requires forall t :: matches(t, x) <==> !matches(t, y)
    ensures multiset(Filter(s, qs + [x], matches)) + multiset(Filter(s, qs + [y], matches))
              == multiset(Filter(s, qs, matches))
    ensures |Filter(s, qs + [x], matches)| + |Filter(s, qs + [y], matches)| == |Filter(s, qs, matches)|
  {
    var withX, withY, all := Filter(s, qs + [x], matches), Filter(s, qs + [y], matches), Filter(s, qs, matches);
    forall t ensures multiset(withX)[t] + multiset(withY)[t] == multiset(all)[t] {
      FilterMultiset(s, qs + [x], matches, t);
      FilterMultiset(s, qs + [y], matches, t);
      FilterMultiset(s, qs, matches, t);
      MatchesAllAppend(t, qs, [x], matches);
      MatchesAllAppend(t, qs, [y], matches);
      assert MatchesAll(t, [x], matches) <==> matches(t, x) by { assert [x][0] == x; }
      assert MatchesAll(t, [y], matches) <==> matches(t, y) by { assert [y][0] == y; }
    }
    assert multiset(withX) + multiset(withY) == multiset(all);
    assert |multiset(withX) + multiset(withY)| == |withX| + |withY|;
  }

  /** A filtered queryset keeps the uniqueness of a key column. */
  ghost predicate UniqueKeys<T>(s: seq<T>, key: T -> nat) {
    forall i, j :: 0 <= i < j < |s| ==> key(s[i]) != key(s[j])
  }

  lemma {:induction false} FilterKeepsUniqueKeys<T(!new), Q>(s: seq<T>, qs: seq<Q>, matches: (T, Q) -> bool, key: T -> nat)
    requires UniqueKeys(s, key)
    ensures UniqueKeys(Filter(s, qs, matches), key)
    decreases |s|
  {
    if s != [] {
      var rest := Filter(s[1..], qs, matches);
      FilterKeepsUniqueKeys(s[1..], qs, matches, key);
      if MatchesAll(s[0], qs, matches) {
        forall k | 0 <= k < |rest| ensures key(rest[k]) != key(s[0]) {
          assert rest[k] in s[1..];
        }
        var r := [s[0]] + rest;
        forall i, j | 0 <= i < j < |r| ensures key(r[i]) != key(r[j]) {
          assert r[j] == rest[j - 1];
          if i > 0 {
            assert r[i] == rest[i - 1];
          }
        }
      }
    }
  }

  lemma FilterKeepsUniqueLeadIds(s: seq<Lead>, qs: seq<LeadLookup>)
    requires UniqueLeadIds(s)
    ensures UniqueLeadIds(Filter(s, qs, LeadMatches))
  {
    FilterKeepsUniqueKeys(s, qs, LeadMatches, (l: Lead) => l.id);
  }

  lemma FilterKeepsUniqueCategoryIds(s: seq<Category>, qs: seq<CategoryLookup>)
    requires UniqueCategoryIds(s)
    ensures UniqueCategoryIds(Filter(s, qs, CategoryMatches))
  {
    FilterKeepsUniqueKeys(s, qs, CategoryMatches, (c: Category) => c.id);
  }

  /** With unique primary keys a lookup by `id=<pk>` never finds two rows. */
  lemma LeadGetByIdIsUnique(s: seq<Lead>, pk: LeadId)
    requires UniqueLeadIds(s)
    ensures Get(s, [LeadIdIs(pk)], LeadMatches) != Failure(MultipleObjectsReturned)
  {
    var byId := [LeadIdIs(pk)];
    forall i, j | 0 <= i < j < |s| && MatchesAll(s[i], byId, LeadMatches)
      ensures !MatchesAll(s[j], byId, LeadMatches)
    {
      assert LeadMatches(s[i], byId[0]);
    }
  }

  /** With unique primary keys a category lookup by `id=<pk>` never finds two rows. */
  lemma CategoryGetByIdIsUnique(s: seq<Category>, pk: CategoryId)
    requires UniqueCategoryIds(s)
    ensures Get(s, [CategoryIdIs(pk)], CategoryMatches) != Failure(MultipleObjectsReturned)
  {
    var byId := [CategoryIdIs(pk)];
    forall i, j | 0 <= i < j < |s| && MatchesAll(s[i], byId, CategoryMatches)
      ensures !MatchesAll(s[j], byId, CategoryMatches)
    {
      assert CategoryMatches(s[i], byId[0]);
    }
  }

  /** In a table with unique primary keys, two rows with the same key are the same row. */
  lemma SameIdSameLead(s: seq<Lead>, a: Lead, b: Lead)
    requires UniqueLeadIds(s) && a in s && b in s && a.id == b.id
    ensures a == b
  {
    var i :| 0 <= i < |s| && s[i] == a;
    var j :| 0 <= j < |s| && s[j] == b;
    assert i == j;
  }

  lemma SameIdSameCategory(s: seq<Category>, a: Category, b: Category)
    requires UniqueCategoryIds(s) && a in s && b in s && a.id == b.id
    ensures a == b
  {
    var i :| 0 <= i < |s| && s[i] == a;
    var j :| 0 <= j < |s| && s[j] == b;
    assert i == j;
  }
}
