/** Greedy matching of two slices: `SliceSubsetWith` and `SliceContentEqWith` of pkg/utils/cmp/slice.go.
    Both pair each element of one slice with the first unused partner they meet and never go back. */
module Matching {
  import opened Sets
  import opened CountingJoins

  // ---- pairings --------------------------------------------------------------------------------

  /** `m[j]` is the position in `ys` that `xs[j]` is paired with; no position is used twice. */
  ghost predicate Injection<X, Y>(m: seq<nat>, xs: seq<X>, ys: seq<Y>, rel: (X, Y) -> bool) {
    && |m| == |xs|
    && (forall j :: 0 <= j < |m| ==> m[j] < |ys| && rel(xs[j], ys[m[j]]))
    && (forall i, j :: 0 <= i < j < |m| ==> m[i] != m[j])
  }

  ghost predicate HasInjection<X, Y>(xs: seq<X>, ys: seq<Y>, rel: (X, Y) -> bool) {
    exists m :: Injection(m, xs, ys, rel)
  }

  /** Every element takes the first related position that is still free. */
  ghost predicate FirstFit<X, Y>(m: seq<nat>, xs: seq<X>, ys: seq<Y>, rel: (X, Y) -> bool) {
    && Injection(m, xs, ys, rel)
    && (forall j, k :: 0 <= j < |m| && 0 <= k < m[j] && rel(xs[j], ys[k]) ==> k in m[..j])
  }

  ghost predicate HasFirstFit<X, Y>(xs: seq<X>, ys: seq<Y>, rel: (X, Y) -> bool) {
    exists m :: FirstFit(m, xs, ys, rel)
  }

  /** A run that has paired a proper prefix and finds no free partner for the next element. */
  ghost predicate Stuck<X, Y>(m: seq<nat>, xs: seq<X>, ys: seq<Y>, rel: (X, Y) -> bool) {
    && |m| < |xs| && Injection(m, xs[..|m|], ys, rel)
    && (forall k :: 0 <= k < |ys| && rel(xs[|m|], ys[k]) ==> k in m)
  }

  /** Related to a common element means related to the same elements. An equivalence is the special
      case with one type on both sides. */
  ghost predicate Rectangular<X(!new), Y(!new)>(rel: (X, Y) -> bool) {
    forall x, x', y, y' :: rel(x, y) && rel(x', y) && rel(x', y') ==> rel(x, y')
  }

  ghost predicate Equivalence<X(!new)>(rel: (X, X) -> bool) {
    && (forall x :: rel(x, x))
    && (forall x, y :: rel(x, y) ==> rel(y, x))
    && (forall x, y, z :: rel(x, y) && rel(y, z) ==> rel(x, z))
  }

  lemma EquivalenceIsRectangular<X(!new)>(rel: (X, X) -> bool)
    requires Equivalence(rel)
    ensures Rectangular(rel)
  {
    forall x, x', y, y' | rel(x, y) && rel(x', y) && rel(x', y')
      ensures rel(x, y')
    {
      assert rel(y, x') && rel(x, x');
    }
  }

  // ---- the exchange argument -------------------------------------------------------------------

  /** A full pairing can be changed to agree with a greedy choice, without touching earlier choices. */
  lemma Exchange<X(!new), Y(!new)>(m: seq<nat>, n: nat, k: nat, xs: seq<X>, ys: seq<Y>, rel: (X, Y) -> bool) returns (m': seq<nat>)
    requires Rectangular(rel) && Injection(m, xs, ys, rel)
    requires n < |xs| && k < |ys| && rel(xs[n], ys[k]) && k !in m[..n]
    ensures Injection(m', xs, ys, rel) && m'[..n] == m[..n] && m'[n] == k
  {
    if j :| n < j < |m| && m[j] == k {
      m' := m[n := k][j := m[n]];
    } else {
      m' := m[n := k];
    }
  }

  lemma StuckHasNoExtension<X, Y>(m0: seq<nat>, m: seq<nat>, xs: seq<X>, ys: seq<Y>, rel: (X, Y) -> bool)
    requires Stuck(m0, xs, ys, rel) && m0 <= m
    ensures !Injection(m, xs, ys, rel)
  {
    if |m0| < |m| && m[|m0|] in m0 {
      var j :| 0 <= j < |m0| && m0[j] == m[|m0|];
      assert m[j] == m0[j];
    }
  }

  /** Every partial pairing is the beginning of a full one, if there is a full one at all. */
  lemma {:induction false} Extends<X(!new), Y(!new)>(m0: seq<nat>, xs: seq<X>, ys: seq<Y>, rel: (X, Y) -> bool) returns (m: seq<nat>)
    requires Rectangular(rel) && HasInjection(xs, ys, rel)
    requires |m0| <= |xs| && Injection(m0, xs[..|m0|], ys, rel)
    ensures Injection(m, xs, ys, rel) && m0 <= m
  {
    if m0 == [] {
      m :| Injection(m, xs, ys, rel);
    } else {
      var n := |m0| - 1;
      assert Injection(m0[..n], xs[..n], ys, rel);
      var shorter := Extends(m0[..n], xs, ys, rel);
      assert m0[n] !in m0[..n];
      m := Exchange(shorter, n, m0[n], xs, ys, rel);
      assert m0 == m0[..n] + [m0[n]] && m[..n + 1] == m[..n] + [m[n]];
    }
  }

  /** For a rectangular relation greed never loses: no run gets stuck when a full pairing exists. */
  lemma GreedIsComplete<X(!new), Y(!new)>(m0: seq<nat>, xs: seq<X>, ys: seq<Y>, rel: (X, Y) -> bool)
    requires Rectangular(rel) && Stuck(m0, xs, ys, rel)
    ensures !HasInjection(xs, ys, rel)
  {
    if HasInjection(xs, ys, rel) {
      var m := Extends(m0, xs, ys, rel);
      StuckHasNoExtension(m0, m, xs, ys, rel);
    }
  }

  /** Main result for map order: a run can miss an existing pairing for some inputs exactly when the
      relation is not rectangular. */
  lemma OrderDoesNotMatterIffRectangular<X(!new), Y(!new)>(rel: (X, Y) -> bool)
    ensures Rectangular(rel) <==>
      forall xs: seq<X>, ys: seq<Y>, m0 :: |xs| == |ys| && Stuck(m0, xs, ys, rel) ==> !HasInjection(xs, ys, rel)
  {
    if Rectangular(rel) {
      forall xs: seq<X>, ys: seq<Y>, m0 | |xs| == |ys| && Stuck(m0, xs, ys, rel)
        ensures !HasInjection(xs, ys, rel)
      {
        GreedIsComplete(m0, xs, ys, rel);
      }
    } else {
      var x, x', y, y' :| rel(x, y) && rel(x', y) && rel(x', y') && !rel(x, y');
      assert Stuck([0], [x', x], [y, y'], rel);
      assert Injection([1, 0], [x', x], [y, y'], rel);
    }
  }

  /** Main result for slice order: the first-fit scan finds every existing pairing exactly when the
      relation is rectangular. */
  lemma FirstFitIsCompleteIffRectangular<X(!new), Y(!new)>(rel: (X, Y) -> bool)
    ensures Rectangular(rel) <==>
      forall xs: seq<X>, ys: seq<Y> :: HasInjection(xs, ys, rel) ==> HasFirstFit(xs, ys, rel)
  {
    if Rectangular(rel) {
      forall xs: seq<X>, ys: seq<Y> | HasInjection(xs, ys, rel)
        ensures HasFirstFit(xs, ys, rel)
      {
        var m, ok := FirstFitRun(xs, ys, rel);
        if !ok {
          GreedIsComplete(m, xs, ys, rel);
        }
      }
    } else {
      var x, x', y, y' :| rel(x, y) && rel(x', y) && rel(x', y') && !rel(x, y');
      var xs, ys := [x', x], [y, y'];
      assert Injection([1, 0], xs, ys, rel);
      assert rel(xs[0], ys[0]) && !rel(xs[1], ys[1]);
      forall m
        ensures !FirstFit(m, xs, ys, rel)
      {
        assert m == [] || m[..0] == [];
      }
      assert HasInjection(xs, ys, rel) && !HasFirstFit(xs, ys, rel);
    }
  }

  /** The first free partner, or none when `k` comes to the end. */
  lemma FirstPartner<X, Y>(x: X, ys: seq<Y>, used: seq<nat>, rel: (X, Y) -> bool) returns (k: nat)
    ensures k <= |ys| && (k < |ys| ==> rel(x, ys[k]) && k !in used)
    ensures forall l :: 0 <= l < k && rel(x, ys[l]) ==> l in used
  {
    k := 0;
    while k < |ys| && !(rel(x, ys[k]) && k !in used)
      invariant k <= |ys|
      invariant forall l :: 0 <= l < k && rel(x, ys[l]) ==> l in used
    {
      k := k + 1;
    }
  }

  lemma FirstFitExtends<X, Y>(m: seq<nat>, xs: seq<X>, x: X, ys: seq<Y>, rel: (X, Y) -> bool, k: nat)
    requires FirstFit(m, xs, ys, rel) && k < |ys| && rel(x, ys[k]) && k !in m
    requires forall l :: 0 <= l < k && rel(x, ys[l]) ==> l in m
    ensures FirstFit(m + [k], xs + [x], ys, rel)
  {
    assert forall j :: 0 <= j <= |m| ==> (m + [k])[..j] == m[..j];
  }

  lemma StuckStays<X, Y>(m: seq<nat>, xs: seq<X>, x: X, ys: seq<Y>, rel: (X, Y) -> bool)
    requires Stuck(m, xs, ys, rel)
    ensures Stuck(m, xs + [x], ys, rel)
  {
    assert (xs + [x])[..|m|] == xs[..|m|];
  }

  lemma {:induction false} FirstFitRun<X, Y>(xs: seq<X>, ys: seq<Y>, rel: (X, Y) -> bool) returns (m: seq<nat>, ok: bool)
    ensures ok ==> FirstFit(m, xs, ys, rel)
    ensures !ok ==> Stuck(m, xs, ys, rel)
  {
    if xs == [] {
      m, ok := [], true;
    } else {
      var init, x := xs[..|xs| - 1], xs[|xs| - 1];
      assert xs == init + [x];
      m, ok := FirstFitRun(init, ys, rel);
      if ok {
        var k := FirstPartner(x, ys, m, rel);
        if k < |ys| {
          FirstFitExtends(m, init, x, ys, rel, k);
          m := m + [k];
        } else {
          assert xs[..|m|] == init;
          ok := false;
        }
      } else {
        StuckStays(m, init, x, ys, rel);
      }
    }
  }

  // ---- the methods -----------------------------------------------------------------------------

  function Flip<A, B>(pred: (A, B) -> bool): (B, A) -> bool {
    (b: B, a: A) => pred(a, b)
  }

  /** `rest` holds references into `a`, here positions. The result is exactly what a first-fit scan of
      `b` over `a` finds, whatever the predicate. */
  method SliceSubsetWith<A, B>(a: seq<A>, b: seq<B>, pred: (A, B) -> bool) returns (r: bool)
    ensures r <==> HasFirstFit(b, a, Flip(pred))
  {
    ghost var rel := Flip(pred);
    if |b| == 0 {
      assert FirstFit([], b, a, rel);
      return true;
    }
    if |a| < |b| {
      NoRoom(b, a, rel);
      return false;
    }
    var rest: seq<nat> := seq(|a|, i => i);
    forall k: nat | k < |a|
      ensures k in rest
    {
      assert rest[k] == k;
    }
    ghost var m: seq<nat> := [];
    for n := 0 to |b|
      invariant FirstFit(m, b[..n], a, rel)
      invariant Unused(rest, m, |a|)
      invariant forall full :: FirstFit(full, b, a, rel) ==> m <= full
    {
      var i := 0;
      while i < |rest| && !pred(a[rest[i]], b[n])
        invariant 0 <= i <= |rest|
        invariant forall l :: 0 <= l < i ==> !pred(a[rest[l]], b[n])
      {
        i := i + 1;
      }
      if i == |rest| {
        NothingFits(m, n, b, a, rel);
        return false;
      }
      TakesFirst(m, n, rest, i, b, a, rel);
      Splice(rest, i, m, |a|);
      m := m + [rest[i]];
      rest := rest[..i] + rest[i + 1..];
    }
    assert b[..|b|] == b;
    return true;
  }

  /** The positions that are not paired yet, in ascending order. */
  ghost predicate Unused(rest: seq<nat>, m: seq<nat>, n: nat) {
    && (forall i, j :: 0 <= i < j < |rest| ==> rest[i] < rest[j])
    && (forall p :: 0 <= p < |rest| ==> rest[p] < n && rest[p] !in m)
    && (forall k :: 0 <= k < n && k !in m ==> k in rest)
  }

  lemma Splice(rest: seq<nat>, i: nat, m: seq<nat>, n: nat)
    requires Unused(rest, m, n) && i < |rest|
    ensures Unused(rest[..i] + rest[i + 1..], m + [rest[i]], n)
  {
    var spliced := rest[..i] + rest[i + 1..];
    forall k | 0 <= k < n && k !in m + [rest[i]]
      ensures k in spliced
    {
      assert k !in m && k != rest[i];
      var p :| 0 <= p < |rest| && rest[p] == k;
      assert spliced[if p < i then p else p - 1] == k;
    }
  }

  lemma NoRoom<X, Y>(xs: seq<X>, ys: seq<Y>, rel: (X, Y) -> bool)
    requires |ys| < |xs|
    ensures !HasInjection(xs, ys, rel)
  {
    forall m
      ensures !Injection(m, xs, ys, rel)
    {
      if Injection(m, xs, ys, rel) {
        InjectionFits(m, |ys|);
      }
    }
  }

  lemma {:induction false} InjectionFits(m: seq<nat>, bound: nat)
    requires forall j :: 0 <= j < |m| ==> m[j] < bound
    requires forall i, j :: 0 <= i < j < |m| ==> m[i] != m[j]
    ensures |m| <= bound
  {
    DistinctSize(m);
    SubsetSize(Elems(m), Below(bound));
  }

  lemma {:induction false} DistinctSize<T>(s: seq<T>)
    requires forall i, j :: 0 <= i < j < |s| ==> s[i] != s[j]
    ensures |Elems(s)| == |s|
  {
    if s != [] {
      var n := |s| - 1;
      DistinctSize(s[..n]);
      assert Elems(s) == Elems(s[..n]) + {s[n]};
    }
  }

  function Below(n: nat): (s: set<nat>)
    ensures |s| == n && forall i :: i in s <==> 0 <= i < n
  {
    if n == 0 then {} else Below(n - 1) + {n - 1}
  }

  lemma NothingFits<X, Y>(m: seq<nat>, n: nat, xs: seq<X>, ys: seq<Y>, rel: (X, Y) -> bool)
    requires n < |xs| && |m| == n && forall k :: 0 <= k < |ys| && k !in m ==> !rel(xs[n], ys[k])
    requires forall full :: FirstFit(full, xs, ys, rel) ==> m <= full
    ensures !HasFirstFit(xs, ys, rel)
  {
    forall full
      ensures !FirstFit(full, xs, ys, rel)
    {
      if n < |full| && full[n] in m {
        var j :| 0 <= j < n && m[j] == full[n];
        assert full[j] == m[j] || !(m <= full);
      }
    }
  }

  lemma TakesFirst<X, Y>(m: seq<nat>, n: nat, rest: seq<nat>, i: nat, xs: seq<X>, ys: seq<Y>, rel: (X, Y) -> bool)
    requires n < |xs| && FirstFit(m, xs[..n], ys, rel)
    requires Unused(rest, m, |ys|)
    requires i < |rest| && rel(xs[n], ys[rest[i]]) && forall l :: 0 <= l < i ==> !rel(xs[n], ys[rest[l]])
    requires forall full :: FirstFit(full, xs, ys, rel) ==> m <= full
    ensures FirstFit(m + [rest[i]], xs[..n + 1], ys, rel)
    ensures forall full :: FirstFit(full, xs, ys, rel) ==> m + [rest[i]] <= full
  {
    var k := rest[i];
    var m' := m + [k];
    assert k in rest;
    forall l | 0 <= l < k && l !in m
      ensures !rel(xs[n], ys[l])
    {
      assert l in rest;
      var p :| 0 <= p < |rest| && rest[p] == l;
    }
    assert forall j :: 0 <= j < n ==> m'[..j] == m[..j];
    assert m'[..n] == m;
    forall full | FirstFit(full, xs, ys, rel)
      ensures m' <= full
    {
      assert full[..n] == m;
      assert full[n] !in full[..n];
    }
  }

  /** The keys of `bm` are visited in an arbitrary order. A true answer comes with a bijection; a false
      one with a run that got stuck, so for a rectangular relation the order never shows. */
  method SliceContentEqWith<S(!new), T(!new)>(a: seq<S>, b: seq<T>, equiv: (S, T) -> bool) returns (r: bool)
    ensures r ==> |a| == |b| && HasInjection(a, b, equiv)
    ensures !r ==> |a| != |b| || exists m :: Stuck(m, a, b, equiv)
    ensures Rectangular(equiv) ==> (r <==> |a| == |b| && HasInjection(a, b, equiv))
  {
    if |a| != |b| {
      return false;
    }
    if |a| == 0 {
      assert Injection([], a, b, equiv);
      return true;
    }
    hide Injection, Stuck, Rectangular;
    var bm: map<nat, T> := map i: nat | i < |b| :: b[i];
    ghost var m: seq<nat> := [];
    NothingPaired(a, b, equiv);
    for n := 0 to |a|
      invariant Injection(m, a[..n], b, equiv)
      invariant bm.Keys == Below(|b|) - Elems(m)
      invariant forall k :: k in bm ==> bm[k] == b[k]
    {
      var unseen := bm.Keys;
      var found := false;
      while unseen != {}
        invariant unseen <= bm.Keys
        invariant forall k :: k in bm.Keys - unseen ==> !equiv(a[n], b[k])
        decreases unseen
      {
        var k :| k in unseen;
        unseen := unseen - {k};
        if equiv(a[n], bm[k]) {
          found := true;
          Pairs(m, n, k, a, b, equiv);
          m := m + [k];
          bm := bm - {k};
          break;
        }
      }
      if !found {
        RunsOut(m, n, bm.Keys, a, b, equiv);
        return false;
      }
    }
    assert a[..|a|] == a;
    AllUsed(m, a, b, equiv);
    return |bm| == 0;
  }

  lemma NothingPaired<S, T>(a: seq<S>, b: seq<T>, equiv: (S, T) -> bool)
    ensures Injection([], a[..0], b, equiv)
  {
  }

  lemma Pairs<S, T>(m: seq<nat>, n: nat, k: nat, a: seq<S>, b: seq<T>, equiv: (S, T) -> bool)
    requires n < |a| && k < |b| && equiv(a[n], b[k]) && k !in m
    requires Injection(m, a[..n], b, equiv)
    ensures Injection(m + [k], a[..n + 1], b, equiv)
  {
  }

  lemma RunsOut<S(!new), T(!new)>(m: seq<nat>, n: nat, keys: set<nat>, a: seq<S>, b: seq<T>, equiv: (S, T) -> bool)
    requires n < |a| && Injection(m, a[..n], b, equiv)
    requires keys == Below(|b|) - Elems(m) && forall k :: k in keys ==> !equiv(a[n], b[k])
    ensures Stuck(m, a, b, equiv)
    ensures Rectangular(equiv) ==> !HasInjection(a, b, equiv)
  {
    assert |m| == n;
    forall k | 0 <= k < |b| && k !in m
      ensures !equiv(a[n], b[k])
    {
      assert k in keys;
    }
    if Rectangular(equiv) {
      GreedIsComplete(m, a, b, equiv);
    }
  }

  /** An injection between slices of one length reaches every position. */
  lemma AllUsed<S, T>(m: seq<nat>, a: seq<S>, b: seq<T>, equiv: (S, T) -> bool)
    requires |a| == |b| && Injection(m, a, b, equiv)
    ensures Elems(m) == Below(|b|)
  {
    DistinctSize(m);
    SameSizeSubset(Elems(m), Below(|b|));
  }

  // ---- equality: bags --------------------------------------------------------------------------

  function Positions<T(==)>(s: seq<T>, v: T): set<int> {
    set i | 0 <= i < |s| && s[i] == v
  }

  lemma {:induction false} PositionsCount<T>(s: seq<T>, v: T)
    ensures |Positions(s, v)| == multiset(s)[v]
  {
    if s != [] {
      var n := |s| - 1;
      PositionsCount(s[..n], v);
      assert s == s[..n] + [s[n]];
      assert Positions(s, v) == Positions(s[..n], v) + (if s[n] == v then {n} else {});
    }
  }

  function Same<T(==)>(): (T, T) -> bool {
    (x: T, y: T) => x == y
  }

  /** The partners of all occurrences of one value. */
  lemma {:induction false} PairedPositions<T>(m: seq<nat>, xs: seq<T>, ys: seq<T>, v: T) returns (image: set<int>)
    requires Injection(m, xs, ys, Same())
    ensures image == (set k | k in m && ys[k] == v)
    ensures |image| == |Positions(xs, v)|
  {
    hide Positions;
    if xs == [] {
      image := {};
      NoPositions(v);
    } else {
      var n := |xs| - 1;
      var shorter := PairedPositions(m[..n], xs[..n], ys, v);
      LastPosition(xs, v);
      assert m == m[..n] + [m[n]];
      assert Same()(xs[n], ys[m[n]]);
      image := if xs[n] == v then shorter + {m[n]} else shorter;
    }
  }

  lemma NoPositions<T>(v: T)
    ensures Positions([], v) == {}
  {
  }

  lemma LastPosition<T>(s: seq<T>, v: T)
    requires s != []
    ensures |Positions(s, v)| == |Positions(s[..|s| - 1], v)| + (if s[|s| - 1] == v then 1 else 0)
  {
    var n := |s| - 1;
    assert Positions(s, v) == Positions(s[..n], v) + (if s[n] == v then {n} else {});
  }

  /** For `==` a pairing exists exactly when the first bag is contained in the second. */
  lemma PairingIsBagInclusion<T>(xs: seq<T>, ys: seq<T>)
    ensures HasInjection(xs, ys, Same()) <==> multiset(xs) <= multiset(ys)
  {
    var m, ok := FirstFitRun(xs, ys, Same());
    if ok {
      forall v
        ensures multiset(xs)[v] <= multiset(ys)[v]
      {
        var image := PairedPositions(m, xs, ys, v);
        assert image <= Positions(ys, v);
        SubsetSize(image, Positions(ys, v));
        PositionsCount(xs, v);
        PositionsCount(ys, v);
      }
    } else {
      TooFew(m, xs, ys);
      forall m'
        ensures !Injection(m', xs, ys, Same())
      {
        if Injection(m', xs, ys, Same()) {
          var v := xs[|m|];
          var image := PairedPositions(m', xs, ys, v);
          assert image <= Positions(ys, v);
          SubsetSize(image, Positions(ys, v));
          PositionsCount(xs, v);
          PositionsCount(ys, v);
        }
      }
    }
  }

  lemma TooFew<T>(m: seq<nat>, xs: seq<T>, ys: seq<T>)
    requires Stuck(m, xs, ys, Same())
    ensures multiset(xs)[xs[|m|]] > multiset(ys)[xs[|m|]]
  {
    var n, v := |m|, xs[|m|];
    var image := PairedPositions(m, xs[..n], ys, v);
    assert Positions(ys, v) <= image;
    SubsetSize(Positions(ys, v), image);
    SubsetSize(Positions(xs[..n], v) + {n}, Positions(xs, v));
    PositionsCount(xs, v);
    PositionsCount(ys, v);
  }

  /** `SliceContentEq` is multiset equality. */
  method SliceContentEq<T(==, !new)>(a: seq<T>, b: seq<T>) returns (r: bool)
    ensures r <==> multiset(a) == multiset(b)
  {
    r := SliceContentEqWith(a, b, Same());
    EquivalenceIsRectangular<T>(Same());
    PairingIsBagInclusion(a, b);
    SameSizeBags(a, b);
  }

  lemma SameSizeBags<T>(a: seq<T>, b: seq<T>)
    ensures multiset(a) == multiset(b) <==> |a| == |b| && multiset(a) <= multiset(b)
  {
    assert |multiset(a)| == |a| && |multiset(b)| == |b|;
    if |a| == |b| && multiset(a) <= multiset(b) {
      assert multiset(b) == multiset(a) + (multiset(b) - multiset(a));
      assert |multiset(b) - multiset(a)| == 0;
    }
  }
}
