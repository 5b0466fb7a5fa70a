/** Plan specs that mean the same feed the same bytes to the hash. */
module PlanHash {
  import opened Results
  import opened Sets
  import opened Strings
  import opened Sorting
  import opened Paths
  import opened TagStore
  import opened TagSets
  import opened PlanParams
  import opened PlanSpecs

  // ---- specs that mean the same ----------------------------------------------------------------

  ghost predicate Covers(clock: Clock, ts: seq<Tag>, us: seq<Tag>) {
    forall t :: t in ts ==> exists u :: u in us && SameClass(clock, t, u)
  }

  /** The same classes of tags, in any order and number. */
  ghost predicate SameTags(clock: Clock, ts: seq<Tag>, us: seq<Tag>) {
    Covers(clock, ts, us) && Covers(clock, us, ts)
  }

  /** The same path up to one trailing slash, and the same tags. */
  ghost predicate SameMount(clock: Clock, a: MountPoint, b: MountPoint) {
    Trimmed(a.path) == Trimmed(b.path) && SameTags(clock, a.tags, b.tags)
  }

  ghost predicate SameMounts(clock: Clock, a: seq<MountPoint>, b: seq<MountPoint>) {
    && (forall x :: x in a ==> exists y :: y in b && SameMount(clock, x, y))
    && (forall y :: y in b ==> exists x :: x in a && SameMount(clock, x, y))
  }

  ghost predicate SameLog(clock: Clock, a: Option<seq<Tag>>, b: Option<seq<Tag>>) {
    match (a, b)
    case (None, None) => true
    case (Some(ts), Some(us)) => SameTags(clock, ts, us)
    case _ => false
  }

  ghost predicate SameSpec(clock: Clock, p: Params, q: Params) {
    && p.image == q.image && p.version == q.version && p.entrypoint == q.entrypoint && p.args == q.args
    && multiset(p.onNode) == multiset(q.onNode)
    && SameMounts(clock, p.inputs, q.inputs)
    && SameMounts(clock, p.outputs, q.outputs)
    && SameLog(clock, p.log, q.log)
  }

  /** The printed form of a time is no finer than a microsecond. */
  ghost predicate PrintsMicroseconds(clock: Clock) {
    forall x, y :: x / 1000 == y / 1000 ==> clock.format(x) == clock.format(y)
  }

  // ---- tags ------------------------------------------------------------------------------------

  ghost predicate OneTimestamp(ts: seq<Tag>) {
    forall a, b :: a in ts && b in ts && a.key == KEY_KNIT_TIMESTAMP && b.key == KEY_KNIT_TIMESTAMP ==> a == b
  }

  /** The tag with the spelling of a timestamp forgotten. */
  function Unspelled(t: Tag): Tag {
    if t.key == KEY_KNIT_TIMESTAMP then Tag(t.key, "") else t
  }

  function AllUnspelled(ts: seq<Tag>): (r: seq<Tag>)
    ensures |r| == |ts| && forall i :: 0 <= i < |r| ==> r[i] == Unspelled(ts[i])
  {
    seq(|ts|, i requires 0 <= i < |ts| => Unspelled(ts[i]))
  }

  lemma NormalMembers(clock: Clock, ts: seq<Tag>, t: Tag)
    ensures t in Normal(clock, ts) <==> t in Firsts(clock, ts)
    ensures t in Normal(clock, ts) ==> t in ts
  {
    NormalIsNormalForm(clock, ts);
    assert t in Normal(clock, ts) <==> t in Elems(Normal(clock, ts));
  }

  /** Normalizing forgets no class. */
  lemma NormalCovers(clock: Clock, ts: seq<Tag>, us: seq<Tag>, t: Tag) returns (u: Tag)
    requires Covers(clock, ts, us) && t in Normal(clock, ts)
    ensures u in Normal(clock, us) && SameClass(clock, t, u)
  {
    NormalMembers(clock, ts, t);
    var v :| v in us && SameClass(clock, t, v);
    u := FirstOfClass(clock, us, v);
    NormalMembers(clock, us, u);
    SameClassLaws(clock, u, v, t);
    SameClassLaws(clock, v, t, t);
    SameClassLaws(clock, t, v, u);
  }

  /** With one timestamp at most, its spelling does not decide where it stands. */
  lemma UnspelledIncreasing(ts: seq<Tag>)
    requires Increasing(TagOrder(), ts) && OneTimestamp(ts)
    ensures Increasing(TagOrder(), AllUnspelled(ts))
  {
    forall i, j | 0 <= i < j < |ts|
      ensures TagLess(Unspelled(ts[i]), Unspelled(ts[j]))
    {
      assert TagOrder()(ts[i], ts[j]);
      TagLessLaws(ts[i], ts[j], ts[i]);
      assert ts[i].key != ts[j].key || ts[i].key != KEY_KNIT_TIMESTAMP;
    }
  }

  lemma UnspelledMembers(clock: Clock, ts: seq<Tag>, us: seq<Tag>, x: Tag)
    requires Covers(clock, ts, us) && x in AllUnspelled(Normal(clock, ts))
    ensures x in AllUnspelled(Normal(clock, us))
  {
    var a, b := Normal(clock, ts), Normal(clock, us);
    var i :| 0 <= i < |a| && AllUnspelled(a)[i] == x;
    var u := NormalCovers(clock, ts, us, a[i]);
    SameClassLaws(clock, a[i], u, u);
    var j :| 0 <= j < |b| && b[j] == u;
    assert AllUnspelled(b)[j] == x;
  }

  /** The normal forms agree position by position, up to the spelling of the timestamp. */
  lemma NormalFormsAgree(clock: Clock, ts: seq<Tag>, us: seq<Tag>)
    requires SameTags(clock, ts, us)
    requires OneTimestamp(Normal(clock, ts)) && OneTimestamp(Normal(clock, us))
    ensures |Normal(clock, ts)| == |Normal(clock, us)|
    ensures forall i :: 0 <= i < |Normal(clock, ts)| ==> SameClass(clock, Normal(clock, ts)[i], Normal(clock, us)[i])
  {
    var a, b := Normal(clock, ts), Normal(clock, us);
    NormalIsNormalForm(clock, ts);
    NormalIsNormalForm(clock, us);
    UnspelledIncreasing(a);
    UnspelledIncreasing(b);
    TagOrderIsStrict();
    forall x
      ensures x in AllUnspelled(a) <==> x in AllUnspelled(b)
    {
      if x in AllUnspelled(a) {
        UnspelledMembers(clock, ts, us, x);
      }
      if x in AllUnspelled(b) {
        UnspelledMembers(clock, us, ts, x);
      }
    }
    IncreasingIsUnique(TagOrder(), AllUnspelled(a), AllUnspelled(b));
    assert |AllUnspelled(a)| == |AllUnspelled(b)|;
    hide Increasing, StrictOrder, TagOrder, IsNormalForm, SameTags, Normal;
    forall i | 0 <= i < |a|
      ensures SameClass(clock, a[i], b[i])
    {
      assert AllUnspelled(a)[i] == AllUnspelled(b)[i];
      AgreeAt(clock, ts, us, i);
    }
  }

  lemma AgreeAt(clock: Clock, ts: seq<Tag>, us: seq<Tag>, i: nat)
    requires SameTags(clock, ts, us) && OneTimestamp(Normal(clock, us))
    requires i < |Normal(clock, ts)| && i < |Normal(clock, us)|
    requires Unspelled(Normal(clock, ts)[i]) == Unspelled(Normal(clock, us)[i])
    ensures SameClass(clock, Normal(clock, ts)[i], Normal(clock, us)[i])
  {
    var s, t := Normal(clock, ts)[i], Normal(clock, us)[i];
    if s.key == KEY_KNIT_TIMESTAMP {
      var u := NormalCovers(clock, ts, us, s);
      SameClassLaws(clock, s, u, u);
      assert u == t;
    }
  }

  lemma SameClassSameText(clock: Clock, a: Tag, b: Tag)
    requires PrintsMicroseconds(clock) && SameClass(clock, a, b)
    ensures TagText(clock, a) == TagText(clock, b)
  {
  }

  lemma SameTagsSameTexts(clock: Clock, ts: seq<Tag>, us: seq<Tag>)
    requires PrintsMicroseconds(clock) && SameTags(clock, ts, us)
    requires OneTimestamp(Normal(clock, ts)) && OneTimestamp(Normal(clock, us))
    ensures TagTexts(clock, Normal(clock, ts)) == TagTexts(clock, Normal(clock, us))
  {
    var a, b := Normal(clock, ts), Normal(clock, us);
    NormalFormsAgree(clock, ts, us);
    forall i | 0 <= i < |a|
      ensures TagTexts(clock, a)[i] == TagTexts(clock, b)[i]
    {
      SameClassSameText(clock, a[i], b[i]);
    }
  }

  // ---- mountpoints -----------------------------------------------------------------------------

  ghost predicate OneTimestampEach(clock: Clock, mps: seq<MountPoint>) {
    forall mp :: mp in mps ==> OneTimestamp(Normal(clock, mp.tags))
  }

  function PathsOf(mps: seq<MountPoint>): (r: seq<string>)
    ensures |r| == |mps| && forall i :: 0 <= i < |r| ==> r[i] == mps[i].path
  {
    seq(|mps|, i requires 0 <= i < |mps| => mps[i].path)
  }

  /** Sorting came before trimming, but the trimmed paths are in order as well. */
  lemma TrimmedPathsIncrease(mps: seq<MountPoint>, r: seq<MountPoint>)
    requires Arranged(mps, r) && Apart(multiset(mps))
    ensures Increasing(TextOrder(), PathsOf(r))
  {
    var s: seq<MountPoint> :| IsSorting(PathOrder(), mps, s) && r == TrimAll(s);
    forall i, j | 0 <= i < j < |r|
      ensures Less(r[i].path, r[j].path)
    {
      hide PathOverlap, Apart, Trimmed;
      var a, b := s[i].path, s[j].path;
      assert !PathOrder()(s[j], s[i]);
      ApartAt(s, i, j);
      OverlapLaws(Trimmed(a), Trimmed(b));
      OverlapLaws(Trimmed(a), Trimmed(a));
      TrimmingKeepsOrder(b, a);
      LessTotal(Trimmed(a), Trimmed(b));
    }
  }

  lemma ArrangedTo(mps: seq<MountPoint>, r: seq<MountPoint>, given: MountPoint)
    requires Arranged(mps, r) && given in mps
    ensures Trim(given) in r
  {
    var s: seq<MountPoint> :| IsSorting(PathOrder(), mps, s) && r == TrimAll(s);
    SameElementsOf(mps, s);
    var i :| 0 <= i < |s| && s[i] == given;
    assert r[i] == Trim(given);
  }

  lemma ArrangedFrom(mps: seq<MountPoint>, r: seq<MountPoint>, i: nat) returns (given: MountPoint)
    requires Arranged(mps, r) && i < |r|
    ensures given in mps && r[i] == Trim(given)
  {
    var s: seq<MountPoint> :| IsSorting(PathOrder(), mps, s) && r == TrimAll(s);
    SameElementsOf(mps, s);
    given := s[i];
  }

  /** The partner of an arranged mountpoint. */
  lemma Partner(clock: Clock, mps: seq<MountPoint>, r: seq<MountPoint>, mps': seq<MountPoint>, r': seq<MountPoint>, i: nat)
    returns (y: MountPoint)
    requires Arranged(mps, r) && Arranged(mps', r') && SameMounts(clock, mps, mps') && i < |r|
    ensures y in r' && y.path == r[i].path && SameTags(clock, r[i].tags, y.tags)
  {
    hide Arranged, SameTags, Trimmed;
    var given := ArrangedFrom(mps, r, i);
    var given' :| given' in mps' && SameMount(clock, given, given');
    ArrangedTo(mps', r', given');
    y := Trim(given');
  }

  lemma SameMountsSymmetric(clock: Clock, a: seq<MountPoint>, b: seq<MountPoint>)
    requires SameMounts(clock, a, b)
    ensures SameMounts(clock, b, a)
  {
    hide SameTags;
    forall x, y | SameMount(clock, x, y)
      ensures SameMount(clock, y, x)
    {
      SameTagsSymmetric(clock, x.tags, y.tags);
    }
  }

  lemma SameTagsSymmetric(clock: Clock, ts: seq<Tag>, us: seq<Tag>)
    ensures SameTags(clock, ts, us) <==> SameTags(clock, us, ts)
  {
  }

  lemma PathCovered(clock: Clock, mps: seq<MountPoint>, r: seq<MountPoint>, mps': seq<MountPoint>, r': seq<MountPoint>, path: string)
    requires Arranged(mps, r) && Arranged(mps', r') && SameMounts(clock, mps, mps') && path in PathsOf(r)
    ensures path in PathsOf(r')
  {
    var i :| 0 <= i < |r| && PathsOf(r)[i] == path;
    var y := Partner(clock, mps, r, mps', r', i);
    var j :| 0 <= j < |r'| && r'[j] == y;
    assert PathsOf(r')[j] == path;
  }

  /** Arranging brings the same mountpoints into the same places. */
  lemma SamePlaces(clock: Clock, mps: seq<MountPoint>, r: seq<MountPoint>, mps': seq<MountPoint>, r': seq<MountPoint>)
    requires Arranged(mps, r) && Arranged(mps', r') && SameMounts(clock, mps, mps')
    requires Apart(multiset(mps)) && Apart(multiset(mps'))
    ensures |r| == |r'|
    ensures forall i :: 0 <= i < |r| ==> r[i].path == r'[i].path && SameTags(clock, r[i].tags, r'[i].tags)
  {
    hide Apart, SameMounts, Arranged, SameTags;
    SameMountsSymmetric(clock, mps, mps');
    TrimmedPathsIncrease(mps, r);
    TrimmedPathsIncrease(mps', r');
    TextOrderIsStrict();
    forall path
      ensures path in PathsOf(r) <==> path in PathsOf(r')
    {
      if path in PathsOf(r) {
        PathCovered(clock, mps, r, mps', r', path);
      }
      if path in PathsOf(r') {
        PathCovered(clock, mps', r', mps, r, path);
      }
    }
    IncreasingIsUnique(TextOrder(), PathsOf(r), PathsOf(r'));
    IncreasingIsInOrder(TextOrder(), PathsOf(r'));
    hide Increasing, StrictOrder, InOrder, Comparable;
    assert |PathsOf(r)| == |PathsOf(r')|;
    forall i | 0 <= i < |r|
      ensures r[i].path == r'[i].path && SameTags(clock, r[i].tags, r'[i].tags)
    {
      assert PathsOf(r)[i] == PathsOf(r')[i];
      var y := Partner(clock, mps, r, mps', r', i);
      var j :| 0 <= j < |r'| && r'[j] == y;
      assert PathsOf(r')[j] == PathsOf(r')[i];
    }
  }

  lemma SameMountTexts(clock: Clock, mps: seq<MountPoint>, r: seq<MountPoint>, mps': seq<MountPoint>, r': seq<MountPoint>)
    requires PrintsMicroseconds(clock)
    requires Arranged(mps, r) && Arranged(mps', r') && SameMounts(clock, mps, mps')
    requires Apart(multiset(mps)) && Apart(multiset(mps'))
    requires OneTimestampEach(clock, mps) && OneTimestampEach(clock, mps')
    ensures MountTexts(clock, r) == MountTexts(clock, r')
  {
    hide Apart, SameMounts, Arranged, SameTags, PrintsMicroseconds, OneTimestamp, Concat, TagTexts, Normal, Trimmed;
    SamePlaces(clock, mps, r, mps', r');
    forall i | 0 <= i < |r|
      ensures MountText(clock, r[i]) == MountText(clock, r'[i])
    {
      var given := ArrangedFrom(mps, r, i);
      var given' := ArrangedFrom(mps', r', i);
      SameTagsSameTexts(clock, r[i].tags, r'[i].tags);
    }
  }

  // ---- specs -----------------------------------------------------------------------------------

  lemma AcceptedHasOneTimestamp(env: Env, p: Params)
    requires Acceptable(env, p)
    ensures OneTimestampEach(env.clock, p.inputs) && OneTimestampEach(env.clock, p.outputs)
    ensures p.log.Some? ==> OneTimestamp(Normal(env.clock, p.log.value))
  {
    ReservedKeys();
    hide Normal, SystemTags, Apart, PathOk;
    forall mp | mp in p.inputs
      ensures OneTimestamp(Normal(env.clock, mp.tags))
    {
      AcceptedInputTags(env, p, mp);
    }
    forall mp | mp in p.outputs
      ensures OneTimestamp(Normal(env.clock, mp.tags))
    {
      assert OutputOk(env, Trim(mp));
      SystemTagsMean(Normal(env.clock, mp.tags));
      NoSystemTags(Normal(env.clock, mp.tags));
    }
    if p.log.Some? {
      NoSystemTags(Normal(env.clock, p.log.value));
    }
  }

  lemma NoSystemTags(ts: seq<Tag>)
    requires SystemTags(ts) == []
    ensures OneTimestamp(ts)
  {
    SystemTagsMean(ts);
    ReservedKeys();
    assert forall t :: t in ts ==> t !in SystemTags(ts) && t.key != KEY_KNIT_TIMESTAMP;
  }

  lemma ApartParts(a: seq<MountPoint>, b: seq<MountPoint>)
    requires Apart(multiset(a + b))
    ensures Apart(multiset(a)) && Apart(multiset(b))
  {
    hide PathOverlap, Trimmed;
    assert multiset(a + b) == multiset(a) + multiset(b);
    assert forall x :: multiset(a)[x] <= multiset(a + b)[x] && multiset(b)[x] <= multiset(a + b)[x];
  }

  lemma SameNodeOrder(p: Params, p': Params, q: Params, q': Params)
    requires Canonical(p, p') && Canonical(q, q') && multiset(p.onNode) == multiset(q.onNode)
    ensures p'.onNode == q'.onNode
  {
    hide Arranged, OnNodeLess;
    OnNodeOrderIsStrict();
    SortingIsUnique(OnNodeOrder(), p'.onNode, q'.onNode);
  }

  /** Main result: accepted specs that differ only in the order of on-node entries, mountpoints and tags,
      in repeated or respelled tags, and in one trailing slash of a path, hash the same text. */
  lemma SameSpecSameHashInput(env: Env, p: Params, p': Params, q: Params, q': Params)
    requires PrintsMicroseconds(env.clock)
    requires Acceptable(env, p) && Canonical(p, p')
    requires Acceptable(env, q) && Canonical(q, q')
    requires SameSpec(env.clock, p, q)
    ensures HashInput(env.clock, p') == HashInput(env.clock, q')
  {
    SameNodeOrder(p, p', q, q');
    AcceptedHasOneTimestamp(env, p);
    AcceptedHasOneTimestamp(env, q);
    hide OneTimestampEach, OneTimestamp, Apart, SameMounts, Arranged, SameTags, PrintsMicroseconds, MountTexts, Concat;
    ApartParts(p.inputs, p.outputs);
    ApartParts(q.inputs, q.outputs);
    SameMountTexts(env.clock, p.inputs, p'.inputs, q.inputs, q'.inputs);
    SameMountTexts(env.clock, p.outputs, p'.outputs, q.outputs, q'.outputs);
    if p.log.Some? {
      SameTagsSameTexts(env.clock, p.log.value, q.log.value);
    }
  }
}
