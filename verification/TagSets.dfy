/** `TagSet` of pkg/domain/tags.go: dedupe and sort by insertion into a buffer of fixed capacity, at the
    position that `BinarySearch` of pkg/utils/slices/slice.go finds. Time parsing is a parameter. */
module TagSets {
  import opened Results
  import opened Sets
  import opened Strings
  import opened Sorting
  import opened TagStore

  const SYSTEM_TAG_PREFIX := "knit#"
  const KEY_KNIT_ID := "knit#id"
  const KEY_KNIT_TIMESTAMP := "knit#timestamp"
  const KEY_KNIT_TRANSIENT := "knit#transient"
  const VALUE_PROCESSING := "processing"
  const VALUE_FAILED := "failed"

  predicate IsSystemTag(t: Tag) {
    HasPrefix(t.key, SYSTEM_TAG_PREFIX)
  }

  lemma ReservedKeys()
    ensures HasPrefix(KEY_KNIT_ID, SYSTEM_TAG_PREFIX) && HasPrefix(KEY_KNIT_TIMESTAMP, SYSTEM_TAG_PREFIX)
    ensures HasPrefix(KEY_KNIT_TRANSIENT, SYSTEM_TAG_PREFIX)
    ensures KEY_KNIT_ID != KEY_KNIT_TIMESTAMP && KEY_KNIT_ID != KEY_KNIT_TRANSIENT && KEY_KNIT_TIMESTAMP != KEY_KNIT_TRANSIENT
    ensures VALUE_PROCESSING != VALUE_FAILED
  {
    assert KEY_KNIT_ID[5] == 'i' && KEY_KNIT_TIMESTAMP[6] == 'i' && KEY_KNIT_TRANSIENT[6] == 'r';
  }

  /** Parsing and printing of RFC 3339 times; a parsed time is an instant in nanoseconds. */
  datatype Clock = Clock(parse: string -> Option<int>, format: int -> string)

  // ---- the order of tags -----------------------------------------------------------------------

  predicate TagLess(a: Tag, b: Tag) {
    if a.key != b.key then Less(a.key, b.key) else Less(a.value, b.value)
  }

  function TagOrder(): (Tag, Tag) -> bool {
    (a: Tag, b: Tag) => TagLess(a, b)
  }

  lemma TagLessLaws(a: Tag, b: Tag, c: Tag)
    ensures !TagLess(a, a)
    ensures TagLess(a, b) && TagLess(b, c) ==> TagLess(a, c)
    ensures a != b ==> TagLess(a, b) || TagLess(b, a)
  {
    LessIrreflexive(a.key);
    LessIrreflexive(a.value);
    LessTotal(a.key, b.key);
    LessTotal(a.value, b.value);
    if Less(a.key, b.key) && Less(b.key, c.key) {
      LessTransitive(a.key, b.key, c.key);
    }
    if Less(a.key, b.key) {
      LessAsymmetric(a.key, b.key);
    }
    if Less(a.value, b.value) && Less(b.value, c.value) {
      LessTransitive(a.value, b.value, c.value);
    }
  }

  lemma TagOrderIsStrict()
    ensures StrictOrder(TagOrder())
    ensures forall a, b :: a != b ==> TagOrder()(a, b) || TagOrder()(b, a)
  {
    var less := TagOrder();
    forall a: Tag, b: Tag, c: Tag
      ensures !less(a, a)
      ensures less(a, b) && less(b, c) ==> less(a, c)
      ensures a != b ==> less(a, b) || less(b, a)
      ensures less(a, c) ==> less(a, b) || less(b, c)
    {
      hide TagLess;
      TagLessLaws(a, b, c);
      TagLessLaws(b, c, a);
      TagLessLaws(c, b, a);
      TagLessLaws(b, a, c);
    }
  }

  // ---- binary search ---------------------------------------------------------------------------

  function BinarySearch<T>(sli: seq<T>, item: T, less: (T, T) -> bool): (r: nat)
    ensures r <= |sli|
  {
    if |sli| == 0 then 0
    else
      var pos := |sli| / 2;
      if !less(sli[pos], item) then BinarySearch(sli[..pos], item, less)
      else pos + 1 + BinarySearch(sli[pos + 1..], item, less)
  }

  /** In a sorted slice the result parts what is less than the item from what is not. */
  lemma {:induction false} BinarySearchIsLowerBound<T(!new)>(sli: seq<T>, item: T, less: (T, T) -> bool)
    requires StrictOrder(less) && InOrder(less, sli)
    ensures forall k :: 0 <= k < |sli| ==> (k < BinarySearch(sli, item, less) <==> less(sli[k], item))
  {
    if |sli| > 0 {
      var pos := |sli| / 2;
      var left, right := sli[..pos], sli[pos + 1..];
      if !less(sli[pos], item) {
        BinarySearchIsLowerBound(left, item, less);
        forall k | 0 <= k < |sli|
          ensures k < BinarySearch(sli, item, less) <==> less(sli[k], item)
        {
          if k < pos {
            assert left[k] == sli[k];
          } else if k > pos {
            assert !less(sli[k], sli[pos]);
          }
        }
      } else {
        BinarySearchIsLowerBound(right, item, less);
        forall k | 0 <= k < |sli|
          ensures k < BinarySearch(sli, item, less) <==> less(sli[k], item)
        {
          if k < pos {
            assert !less(sli[pos], sli[k]);
          } else if k > pos {
            assert right[k - pos - 1] == sli[k];
          }
        }
      }
    }
  }

  // ---- classes of tags -------------------------------------------------------------------------

  function UnixMicro(clock: Clock, t: Tag): Option<int> {
    if t.key != KEY_KNIT_TIMESTAMP then None
    else match clock.parse(t.value) case None => None case Some(nanos) => Some(nanos / 1000)
  }

  /** Equal, or timestamps of one microsecond. */
  predicate SameClass(clock: Clock, a: Tag, b: Tag) {
    a == b || (UnixMicro(clock, a).Some? && UnixMicro(clock, a) == UnixMicro(clock, b))
  }

  predicate Seen(clock: Clock, ts: seq<Tag>, t: Tag) {
    exists u :: u in ts && SameClass(clock, u, t)
  }

  /** The tags that are the first of their class. */
  ghost function Firsts(clock: Clock, ts: seq<Tag>): set<Tag> {
    set i | 0 <= i < |ts| && !Seen(clock, ts[..i], ts[i]) :: ts[i]
  }

  ghost predicate IsNormalForm(clock: Clock, ts: seq<Tag>, r: seq<Tag>) {
    Increasing(TagOrder(), r) && Elems(r) == Firsts(clock, ts)
  }

  function Insert(r: seq<Tag>, t: Tag): seq<Tag> {
    var pos := BinarySearch(r, t, TagOrder());
    r[..pos] + [t] + r[pos..]
  }

  /** What `normalize` leaves in the set. */
  function Normal(clock: Clock, ts: seq<Tag>): seq<Tag> {
    if ts == [] then []
    else
      var init, t := ts[..|ts| - 1], ts[|ts| - 1];
      if Seen(clock, init, t) then Normal(clock, init) else Insert(Normal(clock, init), t)
  }

  lemma InsertSorted(r: seq<Tag>, t: Tag)
    requires Increasing(TagOrder(), r) && t !in r
    ensures Increasing(TagOrder(), Insert(r, t)) && Elems(Insert(r, t)) == Elems(r) + {t}
  {
    TagOrderIsStrict();
    var pos := BinarySearch(r, t, TagOrder());
    forall i, j | 0 <= i < j < |r|
      ensures !TagLess(r[j], r[i])
    {
      TagLessLaws(r[i], r[j], r[i]);
    }
    BinarySearchIsLowerBound(r, t, TagOrder());
    InsertAt(r, t, pos);
  }

  lemma InsertAt(r: seq<Tag>, t: Tag, pos: nat)
    requires Increasing(TagOrder(), r) && t !in r && pos <= |r|
    requires forall k :: 0 <= k < |r| ==> (k < pos <==> TagLess(r[k], t))
    ensures Increasing(TagOrder(), r[..pos] + [t] + r[pos..]) && Elems(r[..pos] + [t] + r[pos..]) == Elems(r) + {t}
  {
    hide TagLess;
    var r' := r[..pos] + [t] + r[pos..];
    forall k | pos <= k < |r|
      ensures TagLess(t, r[k])
    {
      assert r[k] in r;
      TagLessLaws(t, r[k], t);
    }
    assert r == r[..pos] + r[pos..];
  }

  lemma FirstsStep(clock: Clock, ts: seq<Tag>, t: Tag)
    ensures Firsts(clock, ts + [t]) == Firsts(clock, ts) + (if Seen(clock, ts, t) then {} else {t})
  {
    hide Seen;
    var ts' := ts + [t];
    assert forall i :: 0 <= i < |ts| ==> ts'[i] == ts[i] && ts'[..i] == ts[..i];
    assert ts'[..|ts|] == ts;
  }

  /** Main result: the normal form is strictly sorted and holds exactly the first of each class. */
  lemma {:induction false} NormalIsNormalForm(clock: Clock, ts: seq<Tag>)
    ensures IsNormalForm(clock, ts, Normal(clock, ts))
  {
    if ts == [] {
      assert Elems<Tag>([]) == {};
    } else {
      var init, t := ts[..|ts| - 1], ts[|ts| - 1];
      NormalIsNormalForm(clock, init);
      assert ts == init + [t];
      FirstsStep(clock, init, t);
      if !Seen(clock, init, t) {
        assert t !in init;
        InsertSorted(Normal(clock, init), t);
      }
    }
  }

  /** No two tags share a class. */
  ghost predicate Separate(clock: Clock, ts: seq<Tag>) {
    forall a, b :: a in ts && b in ts && SameClass(clock, a, b) ==> a == b
  }

  /** Normalizing loses nothing if and only if no two different tags share a class. */
  lemma NormalKeepsAllIffSeparate(clock: Clock, ts: seq<Tag>)
    ensures Elems(Normal(clock, ts)) <= Elems(ts)
    ensures Elems(Normal(clock, ts)) == Elems(ts) <==> Separate(clock, ts)
  {
    hide SameClass, Normal;
    NormalIsNormalForm(clock, ts);
    if Separate(clock, ts) {
      forall t | t in ts
        ensures t in Firsts(clock, ts)
      {
        var u := FirstOfClass(clock, ts, t);
      }
    }
    if Elems(Normal(clock, ts)) == Elems(ts) {
      forall a, b | a in ts && b in ts && SameClass(clock, a, b)
        ensures a == b
      {
        assert a in Elems(ts) && b in Elems(ts);
        FirstsAreApart(clock, ts, a, b);
      }
    }
  }

  lemma SameClassLaws(clock: Clock, a: Tag, b: Tag, c: Tag)
    ensures SameClass(clock, a, a)
    ensures SameClass(clock, a, b) ==> SameClass(clock, b, a) && a.key == b.key && (a.key != KEY_KNIT_TIMESTAMP ==> a == b)
    ensures SameClass(clock, a, b) && SameClass(clock, b, c) ==> SameClass(clock, a, c)
  {
  }

  /** Normal forms ascend by key, and by value under one key. */
  lemma NormalAscends(clock: Clock, ts: seq<Tag>, i: nat, j: nat)
    requires i < j < |Normal(clock, ts)|
    ensures var a, b := Normal(clock, ts)[i], Normal(clock, ts)[j];
      if a.key == b.key then Less(a.value, b.value) else Less(a.key, b.key)
  {
    NormalIsNormalForm(clock, ts);
    assert TagOrder()(Normal(clock, ts)[i], Normal(clock, ts)[j]);
  }

  /** The reserved keys, and that all keys with their prefix are reserved. */
  lemma ReservedByPrefix(t: Tag)
    ensures IsSystemTag(t) <==> |t.key| >= 5 && t.key[..5] == "knit#"
    ensures KEY_KNIT_ID == "knit#" + "id" && KEY_KNIT_TIMESTAMP == "knit#" + "timestamp" && KEY_KNIT_TRANSIENT == "knit#" + "transient"
  {
  }

  lemma {:induction false} FirstOfClass(clock: Clock, ts: seq<Tag>, t: Tag) returns (u: Tag)
    requires t in ts
    ensures u in Firsts(clock, ts) && SameClass(clock, u, t)
  {
    var n := |ts| - 1;
    assert ts == ts[..n] + [ts[n]];
    FirstsStep(clock, ts[..n], ts[n]);
    if t in ts[..n] {
      u := FirstOfClass(clock, ts[..n], t);
    } else if Seen(clock, ts[..n], t) {
      var v :| v in ts[..n] && SameClass(clock, v, t);
      u := FirstOfClass(clock, ts[..n], v);
      SameClassLaws(clock, u, v, t);
    } else {
      u := t;
      SameClassLaws(clock, t, t, t);
    }
  }

  /** Normalizing again changes nothing, and no other slice is a normal form. */
  lemma NormalizeTwice(clock: Clock, ts: seq<Tag>)
    ensures Normal(clock, Normal(clock, ts)) == Normal(clock, ts)
    ensures forall r :: IsNormalForm(clock, ts, r) ==> r == Normal(clock, ts)
  {
    var once := Normal(clock, ts);
    NormalIsNormalForm(clock, ts);
    NormalIsNormalForm(clock, once);
    FirstsOfDistinctClasses(clock, ts, once);
    TagOrderIsStrict();
    assert forall t :: t in once <==> t in Elems(once);
    assert forall t :: t in Normal(clock, once) <==> t in Elems(Normal(clock, once));
    IncreasingIsUnique(TagOrder(), once, Normal(clock, once));
    forall r | IsNormalForm(clock, ts, r)
      ensures r == once
    {
      assert forall t :: t in r <==> t in Elems(r);
      IncreasingIsUnique(TagOrder(), once, r);
    }
  }

  lemma EarlierIsSeen(clock: Clock, ts: seq<Tag>)
    ensures forall i, j :: 0 <= i < j < |ts| && SameClass(clock, ts[i], ts[j]) ==> Seen(clock, ts[..j], ts[j])
  {
    forall i, j | 0 <= i < j < |ts| && SameClass(clock, ts[i], ts[j])
      ensures Seen(clock, ts[..j], ts[j])
    {
      assert ts[..j][i] == ts[i];
    }
  }

  lemma FirstsAreApart(clock: Clock, ts: seq<Tag>, a: Tag, b: Tag)
    requires a in Firsts(clock, ts) && b in Firsts(clock, ts) && SameClass(clock, a, b)
    ensures a == b
  {
    var i :| 0 <= i < |ts| && ts[i] == a && !Seen(clock, ts[..i], a);
    var j :| 0 <= j < |ts| && ts[j] == b && !Seen(clock, ts[..j], b);
    assert SameClass(clock, b, a);
    EarlierIsSeen(clock, ts);
  }

  lemma FirstsOfDistinctClasses(clock: Clock, ts: seq<Tag>, r: seq<Tag>)
    requires IsNormalForm(clock, ts, r)
    ensures Firsts(clock, r) == Elems(r)
  {
    forall i | 0 <= i < |r|
      ensures !Seen(clock, r[..i], r[i])
    {
      forall u | u in r[..i]
        ensures !SameClass(clock, u, r[i])
      {
        var j :| 0 <= j < i && r[j] == u;
        TagLessLaws(r[j], r[i], r[j]);
        assert r[i] in Elems(r) && u in Elems(r);
        if SameClass(clock, u, r[i]) {
          FirstsAreApart(clock, ts, u, r[i]);
        }
      }
    }
    forall t | t in r
      ensures t in Firsts(clock, r)
    {
      var i :| 0 <= i < |r| && r[i] == t;
    }
  }

  // ---- duplicates as documented ------------------------------------------------------------------

  /** Equal, or timestamps of one instant. */
  predicate SameInstant(clock: Clock, a: Tag, b: Tag) {
    || a == b
    || (a.key == KEY_KNIT_TIMESTAMP && b.key == KEY_KNIT_TIMESTAMP && clock.parse(a.value).Some? && clock.parse(a.value) == clock.parse(b.value))
  }

  ghost function FirstsByInstant(clock: Clock, ts: seq<Tag>): set<Tag> {
    set i | 0 <= i < |ts| && !(exists u :: u in ts[..i] && SameInstant(clock, u, ts[i])) :: ts[i]
  }

  lemma SameInstantLaws(clock: Clock, a: Tag, b: Tag, c: Tag)
    ensures SameInstant(clock, a, a) && (SameInstant(clock, a, b) ==> SameInstant(clock, b, a) && SameClass(clock, a, b))
    ensures SameInstant(clock, a, b) && SameInstant(clock, b, c) ==> SameInstant(clock, a, c)
  {
  }

  lemma {:induction false} FirstOfInstant(clock: Clock, ts: seq<Tag>, t: Tag) returns (u: Tag)
    requires t in ts
    ensures u in FirstsByInstant(clock, ts) && SameInstant(clock, u, t)
  {
    var n := |ts| - 1;
    var init := ts[..n];
    assert ts == init + [ts[n]];
    assert forall i :: 0 <= i < n ==> init[..i] == ts[..i];
    if t in init {
      u := FirstOfInstant(clock, init, t);
    } else if exists v :: v in init && SameInstant(clock, v, t) {
      var v :| v in init && SameInstant(clock, v, t);
      u := FirstOfInstant(clock, init, v);
      SameInstantLaws(clock, u, v, t);
    } else {
      u := t;
      SameInstantLaws(clock, t, t, t);
    }
  }

  /** Timestamps of one microsecond are of one instant. */
  ghost predicate Microseconds(clock: Clock, ts: seq<Tag>) {
    forall a, b :: a in ts && b in ts && SameClass(clock, a, b) ==> SameInstant(clock, a, b)
  }

  lemma SeenAlike(clock: Clock, ts: seq<Tag>)
    requires Microseconds(clock, ts)
    ensures Firsts(clock, ts) == FirstsByInstant(clock, ts)
  {
    hide SameClass, SameInstant;
    forall i | 0 <= i < |ts|
      ensures Seen(clock, ts[..i], ts[i]) <==> exists u :: u in ts[..i] && SameInstant(clock, u, ts[i])
    {
      forall u | u in ts[..i]
        ensures SameClass(clock, u, ts[i]) <==> SameInstant(clock, u, ts[i])
      {
        SameInstantLaws(clock, u, ts[i], u);
      }
    }
  }

  /** Main result: normalizing keeps the first tag of every instant, as documented, if and only if no two
      timestamps share a microsecond without being the same instant. */
  lemma NormalIsByInstantIffMicroseconds(clock: Clock, ts: seq<Tag>)
    ensures Elems(Normal(clock, ts)) == FirstsByInstant(clock, ts) <==> Microseconds(clock, ts)
  {
    NormalIsNormalForm(clock, ts);
    hide Normal, SameClass, SameInstant;
    if Microseconds(clock, ts) {
      SeenAlike(clock, ts);
    }
    if Firsts(clock, ts) == FirstsByInstant(clock, ts) {
      hide Firsts, FirstsByInstant;
      forall a, b | a in ts && b in ts && SameClass(clock, a, b)
        ensures SameInstant(clock, a, b)
      {
        var x := FirstOfInstant(clock, ts, a);
        var y := FirstOfInstant(clock, ts, b);
        SameInstantLaws(clock, x, a, a);
        SameInstantLaws(clock, y, b, b);
        SameClassLaws(clock, x, a, b);
        SameClassLaws(clock, b, y, b);
        SameClassLaws(clock, y, b, y);
        SameClassLaws(clock, x, b, y);
        FirstsAreApart(clock, ts, x, y);
        SameInstantLaws(clock, a, x, b);
      }
    }
  }

  /** Two timestamps a nanosecond apart: only the first one is left. */
  lemma OneOfTwoInstantsIsLost(clock: Clock, v: string, w: string)
    requires clock.parse(v) == Some(0) && clock.parse(w) == Some(1)
    ensures var a, b := Tag(KEY_KNIT_TIMESTAMP, v), Tag(KEY_KNIT_TIMESTAMP, w);
      Normal(clock, [a, b]) == [a] && FirstsByInstant(clock, [a, b]) == {a, b}
  {
    var a, b := Tag(KEY_KNIT_TIMESTAMP, v), Tag(KEY_KNIT_TIMESTAMP, w);
    var ts := [a, b];
    assert ts[..1] == [a] && ts[..0] == [];
    assert Seen(clock, [a], b) by {
      assert SameClass(clock, a, b);
    }
    assert Normal(clock, [a]) == [a] by {
      assert [a][..0] == [];
    }
    assert ts[0] in FirstsByInstant(clock, ts) && ts[1] in FirstsByInstant(clock, ts);
  }

  // ---- the class -------------------------------------------------------------------------------

  /** `append(normalized[:pos+1], normalized[pos:]...)` and the assignment after it. The requires clause
      is what keeps both within the capacity: the re-slicing reaches `pos + 1`, the append `len + 1`. */
  method InsertInPlace(buffer: array<Tag>, len: nat, pos: nat, t: Tag)
    requires pos <= len < buffer.Length
    modifies buffer
    ensures buffer[..len + 1] == old(buffer[..len])[..pos] + [t] + old(buffer[..len])[pos..]
  {
    forall k | pos <= k < len {
      buffer[k + 1] := buffer[k];
    }
    buffer[pos] := t;
    Opened(buffer[..len + 1], old(buffer[..len]), pos, t);
  }

  lemma Opened(r: seq<Tag>, before: seq<Tag>, pos: nat, t: Tag)
    requires |r| == |before| + 1 && pos <= |before|
    requires forall k :: 0 <= k < pos ==> r[k] == before[k]
    requires r[pos] == t
    requires forall k :: pos <= k < |before| ==> r[k + 1] == before[k]
    ensures r == before[..pos] + [t] + before[pos..]
  {
    forall k | pos < k < |r|
      ensures r[k] == before[pos..][k - pos - 1]
    {
      assert r[k - 1 + 1] == before[k - 1];
    }
  }

  lemma NormalStep(clock: Clock, ts: seq<Tag>, t: Tag)
    ensures Normal(clock, ts + [t]) ==
      if Seen(clock, ts, t) then Normal(clock, ts) else
        var r := Normal(clock, ts);
        var pos := BinarySearch(r, t, TagOrder());
        r[..pos] + [t] + r[pos..]
  {
    assert (ts + [t])[..|ts|] == ts;
  }

  /** The loop of `normalize`; `buffer[..len]` is the slice being built. */
  method Deduplicated(clock: Clock, tags: seq<Tag>) returns (r: seq<Tag>)
    ensures r == Normal(clock, tags)
  {
    hide Remembers, Seen, Normal, Insert, BinarySearch, TagLess, TagOrder, Noted;
    NothingRemembered(clock);
    var known: set<Tag> := {};
    var knownTimestamp: set<int> := {};
    var buffer := new Tag[|tags|];
    var len := 0;
    for i := 0 to |tags|
      invariant len <= i && buffer[..len] == Normal(clock, tags[..i])
      invariant Remembers(clock, tags[..i], known, knownTimestamp)
    {
      var t := tags[i];
      assert tags[..i + 1] == tags[..i] + [t];
      NormalStep(clock, tags[..i], t);
      RemembersNext(clock, tags[..i], known, knownTimestamp, t);
      var duplicate := t in known;
      if !duplicate && t.key == KEY_KNIT_TIMESTAMP {
        var ts := clock.parse(t.value);
        if ts.Some? {
          var um := ts.value / 1000;
          duplicate := um in knownTimestamp;
        }
      }
      if duplicate {
        continue;
      }
      knownTimestamp := Noted(knownTimestamp, UnixMicro(clock, t));
      known := known + {t};
      var pos := BinarySearch(buffer[..len], t, TagOrder());
      InsertInPlace(buffer, len, pos, t);
      len := len + 1;
    }
    assert tags[..|tags|] == tags;
    return buffer[..len];
  }

  class TagSet {
    var tags: seq<Tag>
    var normalized: bool // a latch: once true, `tags` is its own normal form

    ghost predicate Valid(clock: Clock)
      reads this
    {
      normalized ==> Normal(clock, tags) == tags
    }

    constructor (tags: seq<Tag>)
      ensures this.tags == tags && !normalized
    {
      this.tags, normalized := tags, false;
    }

    /** `Normalize`, without its mutex. */
    method Normalize(clock: Clock)
      requires Valid(clock)
      modifies this
      ensures Valid(clock) && normalized && tags == Normal(clock, old(tags))
    {
      if normalized {
        return;
      }
      NormalizeInPlace(clock);
    }

    /** `normalize`. */
    method NormalizeInPlace(clock: Clock)
      modifies this
      ensures Valid(clock) && normalized && tags == Normal(clock, old(tags))
    {
      NormalizeTwice(clock, tags);
      if |tags| <= 1 {
        ShortIsNormal(clock, tags);
        normalized := true;
        return;
      }
      tags := Deduplicated(clock, tags);
      normalized := true;
    }

    /** `Slice` of a set that is not nil. */
    method Slice(clock: Clock) returns (r: seq<Tag>)
      requires Valid(clock)
      modifies this
      ensures Valid(clock) && normalized && tags == Normal(clock, old(tags))
      ensures r == Normal(clock, old(tags))
    {
      Normalize(clock);
      return tags;
    }

    /** `SystemTag` of a set that is not nil. */
    method SystemTag(clock: Clock) returns (r: seq<Tag>)
      requires Valid(clock)
      modifies this
      ensures Valid(clock) && normalized && tags == Normal(clock, old(tags))
      ensures r == SystemTags(Normal(clock, old(tags)))
    {
      Normalize(clock);
      r := [];
      for i := 0 to |tags|
        invariant tags == Normal(clock, old(tags)) && normalized && Valid(clock)
        invariant r == SystemTags(tags[..i])
      {
        assert tags[..i + 1] == tags[..i] + [tags[i]];
        if IsSystemTag(tags[i]) {
          r := r + [tags[i]];
        }
      }
      assert tags[..|tags|] == tags;
    }
  }

  function SystemTags(ts: seq<Tag>): seq<Tag> {
    if ts == [] then []
    else
      var init, t := SystemTags(ts[..|ts| - 1]), ts[|ts| - 1];
      if IsSystemTag(t) then init + [t] else init
  }

  lemma {:induction false} SystemTagsMean(ts: seq<Tag>)
    ensures Increasing(TagOrder(), ts) ==> Increasing(TagOrder(), SystemTags(ts))
    ensures forall t :: t in SystemTags(ts) <==> t in ts && IsSystemTag(t)
  {
    hide TagLess, IsSystemTag;
    if ts != [] {
      var init, t := ts[..|ts| - 1], ts[|ts| - 1];
      SystemTagsMean(init);
      assert ts == init + [t];
      if Increasing(TagOrder(), ts) {
        forall u | u in init
          ensures TagLess(u, t)
        {
          var i :| 0 <= i < |init| && init[i] == u;
          assert ts[i] == u;
        }
      }
    }
  }

  lemma ShortIsNormal(clock: Clock, ts: seq<Tag>)
    requires |ts| <= 1
    ensures Normal(clock, ts) == ts
  {
    if |ts| == 1 {
      assert ts[..0] == [];
      assert !Seen(clock, [], ts[0]);
      assert Normal(clock, []) == [];
    }
  }

  // ---- what the two lookup tables remember -----------------------------------------------------

  /** The tables hold first representatives only, yet they recognise every class met so far. */
  ghost predicate Remembers(clock: Clock, ts: seq<Tag>, known: set<Tag>, knownTimestamp: set<int>) {
    && (forall t :: t in known ==> t in ts)
    && (forall t :: t in ts && UnixMicro(clock, t).None? ==> t in known)
    && (forall um :: um in knownTimestamp <==> exists t :: t in ts && UnixMicro(clock, t) == Some(um))
  }

  lemma RemembersSeen(clock: Clock, ts: seq<Tag>, known: set<Tag>, knownTimestamp: set<int>, t: Tag)
    requires Remembers(clock, ts, known, knownTimestamp)
    ensures Seen(clock, ts, t) <==>
      t in known || (UnixMicro(clock, t).Some? && UnixMicro(clock, t).value in knownTimestamp)
  {
    var micro := UnixMicro(clock, t);
    if micro.Some? && micro.value in knownTimestamp {
      var u :| u in ts && UnixMicro(clock, u) == micro;
      assert SameClass(clock, u, t);
    }
    if t in known {
      assert SameClass(clock, t, t);
    }
  }

  function Noted(knownTimestamp: set<int>, micro: Option<int>): set<int> {
    match micro
    case None => knownTimestamp
    case Some(um) => knownTimestamp + {um}
  }

  lemma NothingRemembered(clock: Clock)
    ensures Remembers(clock, [], {}, {}) && Normal(clock, []) == []
  {
  }

  lemma RemembersNext(clock: Clock, ts: seq<Tag>, known: set<Tag>, knownTimestamp: set<int>, t: Tag)
    requires Remembers(clock, ts, known, knownTimestamp)
    ensures Seen(clock, ts, t) <==>
      t in known || (UnixMicro(clock, t).Some? && UnixMicro(clock, t).value in knownTimestamp)
    ensures Seen(clock, ts, t) ==> Remembers(clock, ts + [t], known, knownTimestamp)
    ensures !Seen(clock, ts, t) ==>
      Remembers(clock, ts + [t], known + {t}, Noted(knownTimestamp, UnixMicro(clock, t)))
  {
    RemembersSeen(clock, ts, known, knownTimestamp, t);
    var ts' := ts + [t];
    assert forall u :: u in ts' <==> u in ts || u == t;
  }
}
