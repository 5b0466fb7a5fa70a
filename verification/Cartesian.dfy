/** `MapCartesian` of pkg/utils/combination/cartesian.go: one choice per key, keys taken in any order. */
module Cartesian {
  import opened Sets

  /** An index for each key of `keys`. */
  ghost predicate IsTuple<K(!new), V>(basis: map<K, seq<V>>, keys: set<K>, tuple: map<K, nat>) {
    tuple.Keys == keys <= basis.Keys && forall k :: k in keys ==> tuple[k] < |basis[k]|
  }

  /** The choice that an index tuple stands for. */
  ghost function Choice<K(!new), V>(basis: map<K, seq<V>>, keys: set<K>, tuple: map<K, nat>): map<K, V>
    requires IsTuple(basis, keys, tuple)
  {
    map k | k in tuple :: basis[k][tuple[k]]
  }

  /** `choices` lists the choice of every index tuple; `tuples` says which, and has each of them once. */
  ghost predicate Enumerates<K(!new), V>(basis: map<K, seq<V>>, keys: set<K>, choices: seq<map<K, V>>, tuples: seq<map<K, nat>>) {
    && |choices| == |tuples|
    && (forall i :: 0 <= i < |tuples| ==> IsTuple(basis, keys, tuples[i]) && choices[i] == Choice(basis, keys, tuples[i]))
    && (forall i, j :: 0 <= i < j < |tuples| ==> tuples[i] != tuples[j])
    && (forall tuple :: IsTuple(basis, keys, tuple) ==> tuple in tuples)
  }

  /** The same, for the tuples in which `topic` has an index below `n`. */
  ghost predicate EnumeratesBelow<K(!new), V>(basis: map<K, seq<V>>, keys: set<K>, topic: K, n: nat, choices: seq<map<K, V>>, tuples: seq<map<K, nat>>) {
    && |choices| == |tuples| && topic in keys
    && (forall i :: 0 <= i < |tuples| ==>
      IsTuple(basis, keys, tuples[i]) && tuples[i][topic] < n && choices[i] == Choice(basis, keys, tuples[i]))
    && (forall i, j :: 0 <= i < j < |tuples| ==> tuples[i] != tuples[j])
    && (forall tuple :: IsTuple(basis, keys, tuple) && tuple[topic] < n ==> tuple in tuples)
  }

  function WithAll<K, V>(maps: seq<map<K, V>>, topic: K, item: V): (r: seq<map<K, V>>)
    ensures |r| == |maps| && forall i :: 0 <= i < |r| ==> r[i] == maps[i][topic := item]
  {
    seq(|maps|, i requires 0 <= i < |maps| => maps[i][topic := item])
  }

  /** A tuple over one key more, and back. */
  lemma TupleStep<K(!new), V>(basis: map<K, seq<V>>, keys: set<K>, topic: K, n: nat, tuple: map<K, nat>)
    requires topic !in keys && topic in basis && n < |basis[topic]|
    ensures IsTuple(basis, keys, tuple) ==>
      && IsTuple(basis, keys + {topic}, tuple[topic := n])
      && Choice(basis, keys + {topic}, tuple[topic := n]) == Choice(basis, keys, tuple)[topic := basis[topic][n]]
      && tuple[topic := n] - {topic} == tuple
    ensures IsTuple(basis, keys + {topic}, tuple) && tuple[topic] == n ==>
      && IsTuple(basis, keys, tuple - {topic})
      && tuple == (tuple - {topic})[topic := n]
  {
  }

  /** The same, for the tuples in which `topic` has the index `n`. */
  ghost predicate EnumeratesAt<K(!new), V>(basis: map<K, seq<V>>, keys: set<K>, topic: K, n: nat, choices: seq<map<K, V>>, tuples: seq<map<K, nat>>) {
    && |choices| == |tuples| && topic in keys
    && (forall i :: 0 <= i < |tuples| ==>
      IsTuple(basis, keys, tuples[i]) && tuples[i][topic] == n && choices[i] == Choice(basis, keys, tuples[i]))
    && (forall i, j :: 0 <= i < j < |tuples| ==> tuples[i] != tuples[j])
    && (forall tuple :: IsTuple(basis, keys, tuple) && tuple[topic] == n ==> tuple in tuples)
  }

  lemma OneItem<K(!new), V>(basis: map<K, seq<V>>, keys: set<K>, topic: K, n: nat, known: seq<map<K, V>>, tuples: seq<map<K, nat>>)
    requires topic !in keys && topic in basis && n < |basis[topic]|
    requires Enumerates(basis, keys, known, tuples)
    ensures EnumeratesAt(basis, keys + {topic}, topic, n, WithAll(known, topic, basis[topic][n]), WithAll<K, nat>(tuples, topic, n))
  {
    hide IsTuple, Choice;
    var block := WithAll<K, nat>(tuples, topic, n);
    forall i | 0 <= i < |tuples|
      ensures IsTuple(basis, keys + {topic}, block[i]) && block[i][topic] == n && block[i] - {topic} == tuples[i]
      ensures WithAll(known, topic, basis[topic][n])[i] == Choice(basis, keys + {topic}, block[i])
    {
      TupleStep(basis, keys, topic, n, tuples[i]);
    }
    forall tuple | IsTuple(basis, keys + {topic}, tuple) && TupleAt(basis, keys + {topic}, topic, tuple) == n
      ensures tuple in block
    {
      TupleStep(basis, keys, topic, n, tuple);
      var i :| 0 <= i < |tuples| && tuples[i] == tuple - {topic};
      assert block[i] == tuple;
    }
  }

  lemma DistinctTogether<K>(a: seq<map<K, nat>>, b: seq<map<K, nat>>)
    requires forall i, j :: 0 <= i < j < |a| ==> a[i] != a[j]
    requires forall i, j :: 0 <= i < j < |b| ==> b[i] != b[j]
    requires forall i, j :: 0 <= i < |a| && 0 <= j < |b| ==> a[i] != b[j]
    ensures forall i, j :: 0 <= i < j < |a + b| ==> (a + b)[i] != (a + b)[j]
  {
    var s := a + b;
    forall i, j | 0 <= i < j < |s|
      ensures s[i] != s[j]
    {
      assert i < |a| ==> s[i] == a[i];
      assert i >= |a| ==> s[i] == b[i - |a|];
      assert j < |a| ==> s[j] == a[j];
      assert j >= |a| ==> s[j] == b[j - |a|];
    }
  }

  lemma JoinItems<K(!new), V>(basis: map<K, seq<V>>, keys: set<K>, topic: K, n: nat,
      done: seq<map<K, V>>, doneTuples: seq<map<K, nat>>, more: seq<map<K, V>>, moreTuples: seq<map<K, nat>>)
    requires EnumeratesBelow(basis, keys, topic, n, done, doneTuples) && EnumeratesAt(basis, keys, topic, n, more, moreTuples)
    ensures EnumeratesBelow(basis, keys, topic, n + 1, done + more, doneTuples + moreTuples)
  {
    var all := doneTuples + moreTuples;
    DistinctTogether(doneTuples, moreTuples);
    forall i | 0 <= i < |all|
      ensures IsTuple(basis, keys, all[i]) && TupleAt(basis, keys, topic, all[i]) < n + 1 && (done + more)[i] == Choice(basis, keys, all[i])
    {
      hide Choice;
      assert i >= |doneTuples| ==> all[i] == moreTuples[i - |doneTuples|] && (done + more)[i] == more[i - |doneTuples|];
    }
    hide IsTuple, Choice;
    forall tuple | IsTuple(basis, keys, tuple) && TupleAt(basis, keys, topic, tuple) < n + 1
      ensures tuple in all
    {
      assert tuple in doneTuples || tuple in moreTuples;
    }
  }

  lemma NextItem<K(!new), V>(basis: map<K, seq<V>>, keys: set<K>, topic: K, n: nat,
      known: seq<map<K, V>>, tuples: seq<map<K, nat>>, done: seq<map<K, V>>, doneTuples: seq<map<K, nat>>)
    requires topic !in keys && topic in basis && n < |basis[topic]|
    requires Enumerates(basis, keys, known, tuples)
    requires EnumeratesBelow(basis, keys + {topic}, topic, n, done, doneTuples)
    ensures EnumeratesBelow(basis, keys + {topic}, topic, n + 1, done + WithAll(known, topic, basis[topic][n]), doneTuples + WithAll<K, nat>(tuples, topic, n))
  {
    hide Enumerates, EnumeratesBelow, EnumeratesAt;
    OneItem(basis, keys, topic, n, known, tuples);
    JoinItems(basis, keys + {topic}, topic, n, done, doneTuples, WithAll(known, topic, basis[topic][n]), WithAll<K, nat>(tuples, topic, n));
  }

  ghost function TupleAt<K(!new), V>(basis: map<K, seq<V>>, keys: set<K>, topic: K, tuple: map<K, nat>): nat
    requires topic in keys && IsTuple(basis, keys, tuple)
  {
    tuple[topic]
  }

  /** The inner function `cartesian`: every item of the topic is put into a clone of what is known. */
  method Extend<K(==, !new), V>(basis: map<K, seq<V>>, known: seq<map<K, V>>, rem: seq<K>, ghost keys: set<K>, ghost tuples: seq<map<K, nat>>)
    returns (r: seq<map<K, V>>, ghost all: seq<map<K, nat>>)
    requires forall i :: 0 <= i < |rem| ==> rem[i] in basis && rem[i] !in keys
    requires forall i, j :: 0 <= i < j < |rem| ==> rem[i] != rem[j]
    requires Enumerates(basis, keys, known, tuples)
    ensures Enumerates(basis, keys + Elems(rem), r, all)
    decreases |rem|
  {
    hide Enumerates, EnumeratesBelow;
    if |rem| <= 0 {
      assert keys + Elems(rem) == keys;
      return known, tuples;
    }
    var topic := rem[0];
    var newKnown: seq<map<K, V>> := [];
    ghost var newTuples: seq<map<K, nat>> := [];
    NothingBelow(basis, keys + {topic}, topic);
    for n := 0 to |basis[topic]|
      invariant EnumeratesBelow(basis, keys + {topic}, topic, n, newKnown, newTuples)
    {
      var item := basis[topic][n];
      NextItem(basis, keys, topic, n, known, tuples, newKnown, newTuples);
      ghost var nextKnown := newKnown + WithAll(known, topic, item);
      newTuples := newTuples + WithAll<K, nat>(tuples, topic, n);
      var clone := known;
      for i := 0 to |clone|
        invariant |clone| == |known|
        invariant forall k :: 0 <= k < |clone| ==> clone[k] == if k < i then known[k][topic := item] else known[k]
      {
        clone := clone[i := clone[i][topic := item]];
      }
      assert clone == WithAll(known, topic, item);
      newKnown := newKnown + clone;
      assert newKnown == nextKnown;
    }
    AllBelow(basis, keys + {topic}, topic, newKnown, newTuples);
    r, all := Extend(basis, newKnown, rem[1..], keys + {topic}, newTuples);
    assert rem == [topic] + rem[1..];
    assert keys + {topic} + Elems(rem[1..]) == keys + Elems(rem);
  }

  lemma NothingBelow<K(!new), V>(basis: map<K, seq<V>>, keys: set<K>, topic: K)
    requires topic in keys
    ensures EnumeratesBelow(basis, keys, topic, 0, [], [])
  {
  }

  lemma AllBelow<K(!new), V>(basis: map<K, seq<V>>, keys: set<K>, topic: K, choices: seq<map<K, V>>, tuples: seq<map<K, nat>>)
    requires topic in keys && topic in basis && EnumeratesBelow(basis, keys, topic, |basis[topic]|, choices, tuples)
    ensures Enumerates(basis, keys, choices, tuples)
  {
  }

  /** Main result: whatever order the keys come in, the result has one entry for every index tuple, and
      that entry is the choice the tuple stands for. A basis without keys gives nothing. */
  method MapCartesian<K(==, !new), V>(basis: map<K, seq<V>>) returns (r: seq<map<K, V>>, ghost tuples: seq<map<K, nat>>)
    ensures basis == map[] ==> r == []
    ensures basis != map[] ==> Enumerates(basis, basis.Keys, r, tuples)
  {
    if |basis| == 0 {
      return [], [];
    }
    var keys: seq<K> := [];
    var unseen := basis.Keys;
    while unseen != {}
      invariant unseen <= basis.Keys && Elems(keys) == basis.Keys - unseen
      invariant forall k :: k in keys ==> k in Elems(keys)
      invariant forall i, j :: 0 <= i < j < |keys| ==> keys[i] != keys[j]
      invariant forall k :: k in keys ==> basis[k] != []
      decreases unseen
    {
      var k :| k in unseen;
      if |basis[k]| == 0 {
        NoTuples(basis, k);
        return [], [];
      }
      assert k !in Elems(keys);
      unseen := unseen - {k};
      assert Elems(keys + [k]) == Elems(keys) + {k};
      keys := keys + [k];
    }
    var seed, rem := keys[0], keys[1..];
    assert keys == [seed] + rem;
    assert seed in Elems(keys) && forall i :: 0 <= i < |rem| ==> rem[i] in Elems(keys);
    var known := seq(|basis[seed]|, i requires 0 <= i < |basis[seed]| => map[seed := basis[seed][i]]);
    tuples := seq(|basis[seed]|, i => map[seed := i]);
    SeedEnumerates(basis, seed, known, tuples);
    hide Enumerates;
    r, tuples := Extend(basis, known, rem, {seed}, tuples);
    assert {seed} + Elems(rem) == Elems(keys) == basis.Keys;
  }

  lemma NoTuples<K(!new), V>(basis: map<K, seq<V>>, k: K)
    requires k in basis && basis[k] == []
    ensures Enumerates(basis, basis.Keys, [], [])
  {
    forall tuple
      ensures !IsTuple(basis, basis.Keys, tuple)
    {
    }
  }

  lemma SeedEnumerates<K(!new), V>(basis: map<K, seq<V>>, seed: K, known: seq<map<K, V>>, tuples: seq<map<K, nat>>)
    requires seed in basis && |known| == |tuples| == |basis[seed]|
    requires forall i :: 0 <= i < |known| ==> known[i] == map[seed := basis[seed][i]]
    requires forall i :: 0 <= i < |tuples| ==> tuples[i] == map[seed := i]
    ensures Enumerates(basis, {seed}, known, tuples)
  {
    forall i, j | 0 <= i < j < |tuples|
      ensures tuples[i] != tuples[j]
    {
      assert tuples[i][seed] == i && tuples[j][seed] == j;
    }
    forall tuple | IsTuple(basis, {seed}, tuple)
      ensures tuple in tuples
    {
      var i := tuple[seed];
      assert tuples[i] == tuple;
    }
  }
}
