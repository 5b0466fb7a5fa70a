/** `slices.Sorted` as its contract: some permutation in which nothing stands before a lesser one.
    The sort is not stable, so nothing more is promised about equivalent elements. */
module Sorting {

  ghost predicate StrictOrder<T(!new)>(less: (T, T) -> bool) {
    && (forall a :: !less(a, a))
    && (forall a, b, c :: less(a, b) && less(b, c) ==> less(a, c))
    && (forall a, b, c :: less(a, c) ==> less(a, b) || less(b, c))
  }

  ghost predicate InOrder<T>(less: (T, T) -> bool, s: seq<T>) {
    forall i, j :: 0 <= i < j < |s| ==> !less(s[j], s[i])
  }

  ghost predicate IsSorting<T>(less: (T, T) -> bool, s: seq<T>, r: seq<T>) {
    multiset(s) == multiset(r) && InOrder(less, r)
  }

  method Sorted<T(!new)>(s: seq<T>, less: (T, T) -> bool) returns (r: seq<T>)
    requires StrictOrder(less)
    ensures IsSorting(less, s, r)
  {
    r := [];
    for i := 0 to |s|
      invariant IsSorting(less, s[..i], r)
    {
      assert s[..i + 1] == s[..i] + [s[i]];
      var pos := 0;
      while pos < |r| && !less(s[i], r[pos])
        invariant 0 <= pos <= |r|
        invariant forall k :: 0 <= k < pos ==> !less(s[i], r[k])
      {
        pos := pos + 1;
      }
      InsertInOrder(less, r, s[i], pos);
      r := r[..pos] + [s[i]] + r[pos..];
    }
    assert s[..|s|] == s;
  }

  lemma NotBefore<T(!new)>(less: (T, T) -> bool, x: T, y: T, z: T)
    requires StrictOrder(less) && less(x, y) && !less(z, y)
    ensures !less(z, x)
  {
  }

  lemma InsertInOrder<T(!new)>(less: (T, T) -> bool, r: seq<T>, x: T, pos: nat)
    requires StrictOrder(less) && InOrder(less, r) && pos <= |r|
    requires forall k :: 0 <= k < pos ==> !less(x, r[k])
    requires pos < |r| ==> less(x, r[pos])
    ensures InOrder(less, r[..pos] + [x] + r[pos..])
    ensures multiset(r[..pos] + [x] + r[pos..]) == multiset(r) + multiset{x}
  {
    hide StrictOrder;
    assert r == r[..pos] + r[pos..];
    forall k | pos <= k < |r|
      ensures !less(r[k], x)
    {
      if k == pos {
        Irreflexive(less, r[pos]);
      }
      NotBefore(less, x, r[pos], r[k]);
    }
  }

  lemma Irreflexive<T(!new)>(less: (T, T) -> bool, x: T)
    requires StrictOrder(less)
    ensures !less(x, x)
  {
  }

  ghost predicate Comparable<T>(less: (T, T) -> bool, s: seq<T>) {
    forall x, y :: x in s && y in s && x != y ==> less(x, y) || less(y, x)
  }

  lemma FirstIsNotAfter<T(!new)>(less: (T, T) -> bool, s: seq<T>, x: T)
    requires StrictOrder(less) && InOrder(less, s) && x in s
    ensures !less(x, s[0])
  {
    var i :| 0 <= i < |s| && s[i] == x;
  }

  lemma SameHeads<T(!new)>(less: (T, T) -> bool, a: seq<T>, b: seq<T>)
    requires StrictOrder(less) && InOrder(less, a) && InOrder(less, b) && Comparable(less, a)
    requires a != [] && b != [] && a[0] in b && b[0] in a
    ensures a[0] == b[0]
  {
    FirstIsNotAfter(less, a, b[0]);
    FirstIsNotAfter(less, b, a[0]);
  }

  lemma SameElements<T>(a: seq<T>, b: seq<T>, x: T)
    requires multiset(a) == multiset(b)
    ensures x in a <==> x in b
    ensures |a| == |b|
  {
    assert x in a <==> x in multiset(a);
    assert x in b <==> x in multiset(b);
    assert |multiset(a)| == |a| && |multiset(b)| == |b|;
  }

  lemma Tail<T(!new)>(less: (T, T) -> bool, a: seq<T>)
    requires a != [] && InOrder(less, a)
    ensures InOrder(less, a[1..])
    ensures Comparable(less, a) ==> Comparable(less, a[1..])
    ensures multiset(a[1..]) == multiset(a) - multiset{a[0]}
  {
    assert a == [a[0]] + a[1..];
  }

  lemma SameFirsts<T(!new)>(less: (T, T) -> bool, a: seq<T>, b: seq<T>)
    requires StrictOrder(less) && InOrder(less, a) && InOrder(less, b) && Comparable(less, a)
    requires multiset(a) == multiset(b) && a != []
    ensures b != [] && a[0] == b[0]
    ensures multiset(a[1..]) == multiset(b[1..])
  {
    SameElements(a, b, a[0]);
    SameElements(a, b, b[0]);
    SameHeads(less, a, b);
    hide StrictOrder, InOrder, Comparable;
    Tail(less, a);
    Tail(less, b);
  }

  /** Where distinct elements are always comparable, there is only one way to sort. */
  lemma {:induction false} SortingIsUnique<T(!new)>(less: (T, T) -> bool, a: seq<T>, b: seq<T>)
    requires StrictOrder(less) && InOrder(less, a) && InOrder(less, b) && Comparable(less, a)
    requires multiset(a) == multiset(b)
    ensures a == b
  {
    hide StrictOrder, InOrder, Comparable;
    if a == [] {
      assert |multiset(a)| == |multiset(b)|;
    } else {
      SameFirsts(less, a, b);
      Tail(less, a);
      Tail(less, b);
      SortingIsUnique(less, a[1..], b[1..]);
      assert a == [a[0]] + a[1..] == [b[0]] + b[1..] == b;
    }
  }

  ghost predicate Increasing<T>(less: (T, T) -> bool, s: seq<T>) {
    forall i, j :: 0 <= i < j < |s| ==> less(s[i], s[j])
  }

  lemma IncreasingIsInOrder<T(!new)>(less: (T, T) -> bool, s: seq<T>)
    requires StrictOrder(less) && Increasing(less, s)
    ensures InOrder(less, s) && Comparable(less, s)
    ensures forall i, j :: 0 <= i < j < |s| ==> s[i] != s[j]
  {
    forall x, y | x in s && y in s && x != y
      ensures less(x, y) || less(y, x)
    {
      var i :| 0 <= i < |s| && s[i] == x;
      var j :| 0 <= j < |s| && s[j] == y;
    }
  }

  lemma {:induction false} DistinctCount<T>(s: seq<T>, x: T)
    requires forall i, j :: 0 <= i < j < |s| ==> s[i] != s[j]
    ensures multiset(s)[x] == if x in s then 1 else 0
  {
    if s != [] {
      var n := |s| - 1;
      DistinctCount(s[..n], x);
      assert s == s[..n] + [s[n]];
    }
  }

  /** An increasing slice is known by its elements. */
  lemma IncreasingIsUnique<T(!new)>(less: (T, T) -> bool, a: seq<T>, b: seq<T>)
    requires StrictOrder(less) && Increasing(less, a) && Increasing(less, b)
    requires forall x :: x in a <==> x in b
    ensures a == b
  {
    IncreasingIsInOrder(less, a);
    IncreasingIsInOrder(less, b);
    hide StrictOrder, Increasing, InOrder, Comparable;
    forall x
      ensures multiset(a)[x] == multiset(b)[x]
    {
      DistinctCount(a, x);
      DistinctCount(b, x);
    }
    assert multiset(a) == multiset(b);
    SortingIsUnique(less, a, b);
  }
}
