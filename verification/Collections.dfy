/** Small operations on sequences and sets shared by the modules. */
module Collections {

  /** Python's `items[:n]`. */
  function First<T>(items: seq<T>, n: nat): seq<T> {
    if |items| <= n then items else items[..n]
  }

  /** Python's `items[-n:]` for a positive `n`. */
  function LastN<T>(items: seq<T>, n: nat): seq<T> {
    if |items| <= n then items else items[|items| - n..]
  }

  function Max(a: int, b: int): int {
    if a >= b then a else b
  }

  ghost predicate Distinct<T>(items: seq<T>) {
    forall i, j :: 0 <= i < j < |items| ==> items[i] != items[j]
  }

  /** `dict.fromkeys`: the first occurrence of each value. */
  function Dedupe<T(==)>(items: seq<T>): seq<T> {
    if items == [] then []
    else
      var front := Dedupe(items[..|items| - 1]);
      if items[|items| - 1] in front then front else front + [items[|items| - 1]]
  }

  lemma {:induction false} DedupeMembers<T>(items: seq<T>)
    ensures Distinct(Dedupe(items))
    ensures forall x :: x in Dedupe(items) <==> x in items
  {
    if items != [] {
      DedupeMembers(items[..|items| - 1]);
      assert items == items[..|items| - 1] + [items[|items| - 1]];
    }
  }

  lemma SubsetSize<T>(a: set<T>, b: set<T>)
    requires a <= b
    ensures |a| <= |b|
  {
    assert b == a + (b - a);
  }
}
