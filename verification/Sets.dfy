/** The elements of a slice, and sizes of finite sets. */
module Sets {

  function Elems<T>(s: seq<T>): set<T> {
    set x | x in s
  }

  lemma {:induction false} SubsetSize<T>(a: set<T>, b: set<T>)
    requires a <= b
    ensures |a| <= |b|
  {
    if a != {} {
      var x :| x in a;
      SubsetSize(a - {x}, b - {x});
    }
  }

  /** The rows of a result set, in any order. */
  method Rows<T(==)>(s: set<T>) returns (r: seq<T>)
    ensures multiset(r) == multiset(s) && Elems(r) == s
  {
    r := [];
    var remaining := s;
    while remaining != {}
      invariant remaining <= s && multiset(r) + multiset(remaining) == multiset(s) && Elems(r) == s - remaining
      decreases remaining
    {
      var x :| x in remaining;
      assert multiset(remaining) == multiset(remaining - {x}) + multiset{x};
      assert Elems(r + [x]) == Elems(r) + {x};
      remaining := remaining - {x};
      r := r + [x];
    }
  }
}
