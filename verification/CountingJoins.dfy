/** The idiom by which the SQL statements decide set inclusion: join two tag tables, count the joined
    rows of each pair, and keep the pairs for which the count equals the number of rows on the left.
    A left row is (tag id, left id), a right row is (tag id, right id). */
module CountingJoins {
  import opened Sets

  /** All rows of one id on the left. */
  function LeftRows(left: set<(int, int)>, i: int): set<(int, int)> {
    set r | r in left && r.1 == i
  }

  /** The rows of one id on the left that join with one id on the right. */
  function SharedRows<K(==)>(left: set<(int, int)>, right: set<(int, K)>, i: int, k: K): set<(int, int)> {
    set r | r in left && r.1 == i && (r.0, k) in right
  }

  /** The pairs that join at all, and in all rows. */
  function MatchedPairs<K(==)>(left: set<(int, int)>, right: set<(int, K)>): set<(int, K)> {
    set a, b | a in left && b in right && a.0 == b.0 && |LeftRows(left, a.1)| == |SharedRows(left, right, a.1, b.1)|
      :: (a.1, b.1)
  }

  /** A finite subset with as many elements is the whole set. */
  lemma SameSizeSubset<T>(a: set<T>, b: set<T>)
    requires a <= b
    ensures |a| == |b| <==> a == b
  {
    if a != b {
      var x :| x in b && x !in a;
      SubsetSize(a, b - {x});
    }
  }

  /** Counting decides inclusion. A left id without rows matches nothing. */
  lemma MatchedPairsMeans<K>(left: set<(int, int)>, right: set<(int, K)>, i: int, k: K)
    ensures (i, k) in MatchedPairs(left, right)
      <==> LeftRows(left, i) != {} && forall t :: (t, i) in left ==> (t, k) in right
  {
    var rows, shared := LeftRows(left, i), SharedRows(left, right, i, k);
    SameSizeSubset(shared, rows);
    if (i, k) in MatchedPairs(left, right) {
      var a :| a in left && a.1 == i && |rows| == |shared|;
      assert a in rows;
      forall t | (t, i) in left
        ensures (t, k) in right
      {
        assert (t, i) in rows;
      }
    }
    if rows != {} && forall t :: (t, i) in left ==> (t, k) in right {
      var a :| a in rows;
      assert (a.0, i) == a && (a.0, k) in right;
      assert rows == shared;
      assert (a.0, k).0 == a.0;
    }
  }
}
