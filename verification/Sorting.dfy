// Sorting by a number, as both readers of a session log do it at the end.
module Sorting {

  ghost predicate SortedBy<T>(items: seq<T>, key: T -> nat) {
    forall i, j | 0 <= i < j < |items| :: key(items[i]) <= key(items[j])
  }

  ghost predicate Distinct<T>(items: seq<T>) {
    forall i, j | 0 <= i < j < |items| :: items[i] != items[j]
  }

  method SortByKey<T(==)>(items: seq<T>, key: T -> nat) returns (sorted: seq<T>)
    ensures SortedBy(sorted, key) && multiset(sorted) == multiset(items)
    ensures Distinct(items) ==> Distinct(sorted)
  {
    sorted := [];
    for n := 0 to |items|
      invariant SortedBy(sorted, key) && multiset(sorted) == multiset(items[..n])
      invariant Distinct(items) ==> Distinct(sorted)
    {
      assert items[..n + 1] == items[..n] + [items[n]];
      assert Distinct(items) ==> items[n] !in multiset(items[..n]) && items[n] !in sorted;
      sorted := Insert(sorted, items[n], key);
    }
    assert items[..|items|] == items;
  }

  /** Behind the last item whose key is not larger. */
  method Insert<T(==)>(sorted: seq<T>, item: T, key: T -> nat) returns (r: seq<T>)
    requires SortedBy(sorted, key)
    ensures SortedBy(r, key) && multiset(r) == multiset(sorted) + multiset{item}
    ensures Distinct(sorted) && item !in sorted ==> Distinct(r)
  {
    hide SortedBy, Distinct;
    var i := |sorted|;
    while i > 0 && key(sorted[i - 1]) > key(item)
      invariant 0 <= i <= |sorted|
      invariant forall j | i <= j < |sorted| :: key(item) < key(sorted[j])
    {
      i := i - 1;
    }
    r := sorted[..i] + [item] + sorted[i..];
    InsertedCount(sorted, i, item);
    if Distinct(sorted) && item !in sorted {
      InsertedDistinct(sorted, i, item);
    }
    InsertedInOrder(sorted, i, item, key);
  }

  lemma {:induction false} InsertedAt<T>(sorted: seq<T>, i: nat, item: T)
    requires i <= |sorted|
    ensures
      var r := sorted[..i] + [item] + sorted[i..];
      && |r| == |sorted| + 1
      && forall j | 0 <= j < |r| :: r[j] == if j < i then sorted[j] else if j == i then item else sorted[j - 1]
  {
  }

  lemma {:induction false} InsertedCount<T>(sorted: seq<T>, i: nat, item: T)
    requires i <= |sorted|
    ensures multiset(sorted[..i] + [item] + sorted[i..]) == multiset(sorted) + multiset{item}
  {
    assert sorted == sorted[..i] + sorted[i..];
  }

  lemma {:induction false} InsertedDistinct<T>(sorted: seq<T>, i: nat, item: T)
    requires i <= |sorted| && Distinct(sorted) && item !in sorted
    ensures Distinct(sorted[..i] + [item] + sorted[i..])
  {
    InsertedAt(sorted, i, item);
  }

  lemma {:induction false} InsertedInOrder<T>(sorted: seq<T>, i: nat, item: T, key: T -> nat)
    requires SortedBy(sorted, key) && i <= |sorted|
    requires i > 0 ==> key(sorted[i - 1]) <= key(item)
    requires forall j | i <= j < |sorted| :: key(item) < key(sorted[j])
    ensures SortedBy(sorted[..i] + [item] + sorted[i..], key)
  {
    InsertedAt(sorted, i, item);
  }
}
