/** Python's stable `sorted`, for an order given by "must come before". */
module PySort {
  import opened Collections

  /** A strict weak order: what comparing sort keys gives. */
  ghost predicate StrictWeakOrder<T(!new)>(before: (T, T) -> bool) {
    && (forall a, b :: before(a, b) ==> !before(b, a))
    && (forall a, b, c :: before(a, c) ==> before(a, b) || before(b, c))
  }

  function Insert<T>(before: (T, T) -> bool, x: T, sorted: seq<T>): seq<T> {
    if sorted != [] && before(sorted[0], x) then [sorted[0]] + Insert(before, x, sorted[1..]) else [x] + sorted
  }

  /** Equal elements keep their order. */
  function Sort<T>(before: (T, T) -> bool, items: seq<T>): seq<T> {
    if items == [] then [] else Insert(before, items[0], Sort(before, items[1..]))
  }

  ghost predicate Ordered<T>(before: (T, T) -> bool, items: seq<T>) {
    forall i, j :: 0 <= i < j < |items| ==> !before(items[j], items[i])
  }

  lemma {:induction false} InsertMembers<T>(before: (T, T) -> bool, x: T, sorted: seq<T>)
    ensures multiset(Insert(before, x, sorted)) == multiset(sorted) + multiset{x}
    ensures forall i :: 0 <= i < |Insert(before, x, sorted)| ==>
      Insert(before, x, sorted)[i] == x || Insert(before, x, sorted)[i] in sorted
  {
    if sorted != [] && before(sorted[0], x) {
      InsertMembers(before, x, sorted[1..]);
      assert sorted == [sorted[0]] + sorted[1..];
    }
  }

  lemma {:induction false} InsertOrdered<T(!new)>(before: (T, T) -> bool, x: T, sorted: seq<T>)
    requires StrictWeakOrder(before) && Ordered(before, sorted)
    ensures Ordered(before, Insert(before, x, sorted))
  {
    if sorted != [] && before(sorted[0], x) {
      var rest := Insert(before, x, sorted[1..]);
      InsertOrdered(before, x, sorted[1..]);
      InsertMembers(before, x, sorted[1..]);
      forall i | 0 <= i < |rest| ensures !before(rest[i], sorted[0]) {
        if rest[i] != x {
          var k :| 0 <= k < |sorted| - 1 && sorted[1..][k] == rest[i];
          assert rest[i] == sorted[k + 1];
        }
      }
    } else {
      forall i | 0 <= i < |sorted| ensures !before(sorted[i], x) {
      }
    }
  }

  lemma {:induction false} SortOrdered<T(!new)>(before: (T, T) -> bool, items: seq<T>)
    requires StrictWeakOrder(before)
    ensures Ordered(before, Sort(before, items))
    ensures multiset(Sort(before, items)) == multiset(items)
  {
    if items != [] {
      SortOrdered(before, items[1..]);
      InsertOrdered(before, items[0], Sort(before, items[1..]));
      InsertMembers(before, items[0], Sort(before, items[1..]));
      assert items == [items[0]] + items[1..];
    }
  }

  lemma SortMembers<T(!new)>(before: (T, T) -> bool, items: seq<T>)
    requires StrictWeakOrder(before)
    ensures |Sort(before, items)| == |items|
    ensures forall x :: x in Sort(before, items) <==> x in items
  {
    SortOrdered(before, items);
    assert |multiset(Sort(before, items))| == |multiset(items)|;
    forall x ensures x in Sort(before, items) <==> x in items {
      assert x in Sort(before, items) <==> x in multiset(Sort(before, items));
      assert x in items <==> x in multiset(items);
    }
  }

  lemma {:induction false} DistinctByCount<T>(items: seq<T>)
    ensures Distinct(items) <==> forall x :: x in items ==> multiset(items)[x] == 1
  {
    if items != [] {
      var front, last := items[..|items| - 1], items[|items| - 1];
      assert items == front + [last];
      DistinctByCount(front);
      if Distinct(items) {
        assert Distinct(front);
        assert last !in front;
        forall x | x in items ensures multiset(items)[x] == 1 {
          if x in front {
            assert multiset(front)[x] == 1;
          }
        }
      }
      if forall x :: x in items ==> multiset(items)[x] == 1 {
        assert last in items && multiset(items)[last] == multiset(front)[last] + 1;
        assert last !in front;
        forall x | x in front ensures multiset(front)[x] == 1 {
          assert x in items && multiset(items)[x] == multiset(front)[x];
        }
      }
    }
  }

  lemma SortDistinct<T(!new)>(before: (T, T) -> bool, items: seq<T>)
    requires StrictWeakOrder(before) && Distinct(items)
    ensures Distinct(Sort(before, items))
  {
    SortOrdered(before, items);
    SortMembers(before, items);
    DistinctByCount(items);
    DistinctByCount(Sort(before, items));
  }

  ghost predicate StrictlyOrdered<T>(before: (T, T) -> bool, items: seq<T>) {
    forall i, j :: 0 <= i < j < |items| ==> before(items[i], items[j])
  }

  lemma EmptyTogether<T(!new)>(a: seq<T>, b: seq<T>)
    requires forall x :: x in a <==> x in b
    ensures a == [] <==> b == []
  {
    if a != [] {
      assert a[0] in b;
    }
    if b != [] {
      assert b[0] in a;
    }
  }

  /** Two strictly ordered lists with the same members are the same list. */
  lemma {:induction false} StrictlyOrderedUnique<T(!new)>(before: (T, T) -> bool, a: seq<T>, b: seq<T>)
    requires forall x, y :: before(x, y) ==> !before(y, x)
    requires StrictlyOrdered(before, a) && StrictlyOrdered(before, b)
    requires forall x :: x in a <==> x in b
    ensures a == b
  {
    EmptyTogether(a, b);
    if a != [] {
      assert a[0] in b && b[0] in a;
      assert a[0] == b[0];
      forall x ensures x in a[1..] <==> x in b[1..] {
        assert a == [a[0]] + a[1..] && b == [b[0]] + b[1..];
        assert x in a[1..] ==> x in a && x != a[0];
        assert x in b[1..] ==> x in b && x != b[0];
      }
      StrictlyOrderedUnique(before, a[1..], b[1..]);
    }
  }

  /** Sorting distinct elements by a total order. */
  lemma SortStrict<T(!new)>(before: (T, T) -> bool, items: seq<T>)
    requires StrictWeakOrder(before) && Distinct(items)
    requires forall i, j :: 0 <= i < |items| && 0 <= j < |items| && items[i] != items[j] ==>
               before(items[i], items[j]) || before(items[j], items[i])
    ensures StrictlyOrdered(before, Sort(before, items))
  {
    SortOrdered(before, items);
    SortMembers(before, items);
    SortDistinct(before, items);
    var sorted := Sort(before, items);
    forall i, j | 0 <= i < j < |sorted| ensures before(sorted[i], sorted[j]) {
      assert sorted[i] in items && sorted[j] in items;
    }
  }
}
