/** The insertion-ordered map of pkg/utils/maps/ordered.go.

    `Ordered` is the abstract value: a key sequence and a dictionary that always agree.
    `OrderedMap` is the mutable object whose methods update both fields. */
module OrderedMaps {
  import opened Results

  datatype Ordered<K(==), V> = Ordered(keys: seq<K>, entries: map<K, V>) {

    /** The key sequence lists every key of the dictionary exactly once. */
    ghost predicate Valid() {
      && (forall i, j :: 0 <= i < j < |keys| ==> keys[i] != keys[j])
      && (set k | k in keys) == entries.Keys
    }

    predicate Has(k: K) {
      k in entries
    }

    function Set(k: K, v: V): (r: Ordered<K, V>)
      ensures Valid() ==> r.Valid()
    {
      Ordered(if k in entries then keys else keys + [k], entries[k := v])
    }

    function Values(): (vs: seq<V>)
      requires Valid()
      ensures |vs| == |keys| && forall i :: 0 <= i < |vs| ==> vs[i] == entries[keys[i]]
    {
      seq(|keys|, i requires 0 <= i < |keys| => entries[keys[i]])
    }
  }

  function Empty<K, V>(): (r: Ordered<K, V>)
    ensures r.Valid()
  {
    Ordered([], map[])
  }

  /** A key that is not there yet goes to the end. */
  lemma SetNew<K(!new), V>(o: Ordered<K, V>, k: K, v: V)
    requires o.Valid() && !o.Has(k)
    ensures o.Set(k, v).Valid() && o.Set(k, v).keys == o.keys + [k] && o.Set(k, v).Values() == o.Values() + [v]
  {
    assert forall j :: 0 <= j < |o.keys| ==> o.keys[j] in (set x | x in o.keys);
  }

  /** A known key keeps its place, and every key but it its value. */
  lemma SetKnown<K, V>(o: Ordered<K, V>, k: K, v: V, other: K)
    requires o.Valid() && o.Has(k) && o.Has(other)
    ensures o.Set(k, v).keys == o.keys && o.Set(k, v).Has(other)
    ensures o.Set(k, v).entries[other] == if other == k then v else o.entries[other]
  {
  }

  /** `keys` without the (only) occurrence of `k`. */
  function Without<K(==)>(keys: seq<K>, k: K): seq<K> {
    if keys == [] then []
    else if keys[0] == k then keys[1..]
    else [keys[0]] + Without(keys[1..], k)
  }

  lemma {:induction false} WithoutIsDifference<K(!new)>(keys: seq<K>, k: K)
    requires forall i, j :: 0 <= i < j < |keys| ==> keys[i] != keys[j]
    ensures forall x :: x in Without(keys, k) <==> x in keys && x != k
    ensures forall i, j :: 0 <= i < j < |Without(keys, k)| ==> Without(keys, k)[i] != Without(keys, k)[j]
  {
    if keys != [] {
      WithoutIsDifference(keys[1..], k);
      assert keys == [keys[0]] + keys[1..];
      assert keys[0] != k ==> keys[0] !in Without(keys[1..], k);
    }
  }

  lemma {:induction false} WithoutAt<K(!new)>(keys: seq<K>, k: K, i: nat)
    requires i < |keys| && keys[i] == k && k !in keys[..i]
    ensures Without(keys, k) == keys[..i] + keys[i + 1..]
  {
    if i > 0 {
      assert keys[0] in keys[..i];
      assert keys[1..][..i - 1] == keys[..i][1..];
      WithoutAt(keys[1..], k, i - 1);
      assert keys[..i] + keys[i + 1..] == [keys[0]] + (keys[1..][..i - 1] + keys[1..][i..]);
    }
  }

  class OrderedMap<K(==, !new), V> {
    var keys: seq<K>
    var m: map<K, V>

    ghost function View(): Ordered<K, V>
      reads this
    {
      Ordered(keys, m)
    }

    ghost predicate Valid()
      reads this
    {
      View().Valid()
    }

    constructor ()
      ensures View() == Empty() && Valid()
    {
      keys, m := [], map[];
    }

    method Set(k: K, v: V)
      requires Valid()
      modifies this
      ensures View() == old(View()).Set(k, v) && Valid()
    {
      if k !in m {
        keys := keys + [k];
      }
      m := m[k := v];
    }

    method Get(k: K) returns (v: Option<V>)
      requires Valid()
      ensures v == if k in View().entries then Some(View().entries[k]) else None
      ensures v.Some? <==> k in View().keys
    {
      if k in m {
        v := Some(m[k]);
      } else {
        v := None;
      }
    }

    /** Removing a key keeps the order of all other keys, and every other entry. */
    method Delete(k: K)
      requires Valid()
      modifies this
      ensures Valid()
      ensures m == old(m) - {k} && keys == Without(old(keys), k)
    {
      ValidWithout(View(), k);
      m := m - {k};
      var i := 0;
      while i < |keys|
        invariant 0 <= i <= |keys| && keys == old(keys) && m == old(m) - {k}
        invariant k !in keys[..i]
      {
        if keys[i] == k {
          WithoutAt(keys, k, i);
          keys := keys[..i] + keys[i + 1..];
          return;
        }
        i := i + 1;
      }
      WithoutAbsent(keys, k);
    }
  }

  lemma ValidWithout<K(!new), V>(o: Ordered<K, V>, k: K)
    requires o.Valid()
    ensures Ordered(Without(o.keys, k), o.entries - {k}).Valid()
  {
    WithoutIsDifference(o.keys, k);
    assert forall x :: x in o.keys <==> x in (set y | y in o.keys);
  }

  lemma {:induction false} WithoutAbsent<K(!new)>(keys: seq<K>, k: K)
    requires k !in keys
    ensures Without(keys, k) == keys
  {
    if keys != [] {
      WithoutAbsent(keys[1..], k);
    }
  }

  /** Setting a fresh key appends it; setting a known key keeps its place; and re-setting a
      deleted key moves it to the end, after every survivor. */
  lemma {:induction false} DeleteThenSetMovesToEnd<K(!new), V>(o: Ordered<K, V>, k: K, v: V)
    requires o.Valid() && k in o.keys
    ensures var again := Ordered(Without(o.keys, k), o.entries - {k}).Set(k, v);
            && again.Valid()
            && again.keys == Without(o.keys, k) + [k]
            && again.entries == o.entries[k := v]
  {
    ValidWithout(o, k);
  }
}
