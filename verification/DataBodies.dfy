/** The simple view of a data's tags: `GetDataBody` and `UserTagsOfData` of
    pkg/domain/internal/db/postgres/data.go. Rows arrive in any order. */
module DataBodies {
  import opened Results
  import opened Sets
  import opened Strings
  import opened Sorting
  import opened TagStore
  import opened TagSets
  import opened Nomination
  import opened DataFind

  /** `NewTag`: what it refuses of system tags. */
  function NewTag(parseTime: string -> Option<int>, key: string, value: string): Option<Tag> {
    if HasPrefix(key, SYSTEM_TAG_PREFIX) && key == KEY_KNIT_TIMESTAMP && parseTime(value).None? then None
    else if HasPrefix(key, SYSTEM_TAG_PREFIX) && key == KEY_KNIT_TRANSIENT && value != VALUE_PROCESSING && value != VALUE_FAILED then None
    else Some(Tag(key, value))
  }

  function Get(m: map<string, seq<Tag>>, k: string): seq<Tag> {
    if k in m then m[k] else []
  }

  /** The rows of the query: links of the wanted data. */
  function Links(t: TagTables, knitIds: set<string>): set<(int, string)> {
    set r | r in t.tagData && r.1 in knitIds
  }

  ghost function TagsOfLinks(t: TagTables, links: set<(int, string)>, k: string): set<Tag>
    requires Interned(t) && links <= t.tagData
  {
    set r | r in links && r.1 == k :: TagOf(t, r.0)
  }

  method UserTagsOfData(t: TagTables, knitIds: set<string>, parseTime: string -> Option<int>)
    returns (r: Result<map<string, seq<Tag>>, Tag>)
    requires Interned(t)
    ensures r.Ok? ==> r.value.Keys <= knitIds && forall k :: k in knitIds ==> Elems(Get(r.value, k)) == UserTags(t, k)
    ensures r.Ok? ==> forall k :: k in r.value ==> r.value[k] != []
    ensures r.Ok? ==> forall k, x :: k in knitIds && x in UserTags(t, k) ==> NewTag(parseTime, x.key, x.value).Some?
    ensures r.Err? ==> exists k :: k in knitIds && r.error in UserTags(t, k) && NewTag(parseTime, r.error.key, r.error.value).None?
  {
    var rows := Links(t, knitIds);
    var result: map<string, seq<Tag>> := map[];
    var remaining := rows;
    while remaining != {}
      invariant remaining <= rows
      invariant result.Keys <= knitIds
      invariant forall k :: k in result ==> result[k] != []
      invariant forall k :: Elems(Get(result, k)) == TagsOfLinks(t, rows - remaining, k)
      invariant forall q :: q in rows - remaining ==> var x := TagOf(t, q.0); NewTag(parseTime, x.key, x.value).Some?
      decreases remaining
    {
      var row :| row in remaining;
      ghost var before := rows - remaining;
      remaining := remaining - {row};
      assert rows - remaining == before + {row};
      var found := TagOf(t, row.0);
      var tag := NewTag(parseTime, found.key, found.value);
      if tag.None? {
        assert found in UserTags(t, row.1);
        return Err(found);
      }
      LinkAdds(t, before, row, result);
      result := result[row.1 := Get(result, row.1) + [tag.value]];
    }
    AllLinks(t, knitIds);
    assert rows - remaining == rows;
    return Ok(result);
  }

  lemma LinkAdds(t: TagTables, links: set<(int, string)>, row: (int, string), result: map<string, seq<Tag>>)
    requires Interned(t) && links <= t.tagData && row in t.tagData
    requires forall k :: Elems(Get(result, k)) == TagsOfLinks(t, links, k)
    ensures forall k :: Elems(Get(result[row.1 := Get(result, row.1) + [TagOf(t, row.0)]], k)) == TagsOfLinks(t, links + {row}, k)
  {
    var next := result[row.1 := Get(result, row.1) + [TagOf(t, row.0)]];
    forall k
      ensures Elems(Get(next, k)) == TagsOfLinks(t, links + {row}, k)
    {
      hide Interned;
      if k == row.1 {
        assert Elems(Get(next, k)) == Elems(Get(result, k)) + {TagOf(t, row.0)};
        assert TagsOfLinks(t, links + {row}, k) == TagsOfLinks(t, links, k) + {TagOf(t, row.0)};
      } else {
        assert TagsOfLinks(t, links + {row}, k) == TagsOfLinks(t, links, k);
      }
    }
  }

  lemma AllLinks(t: TagTables, knitIds: set<string>)
    requires Interned(t)
    ensures forall k :: k in knitIds ==> TagsOfLinks(t, Links(t, knitIds), k) == UserTags(t, k)
  {
  }

  // ---- the body --------------------------------------------------------------------------------

  /** The tags that the first loop collects for a row. */
  function RowTags(d: Tables, env: Env, k: string): seq<Tag>
    requires k in d.data && d.data[k] in d.run
  {
    [Tag(KEY_KNIT_ID, k)]
    + (if ProcessingStatus(d.run[d.data[k]]) then [Tag(KEY_KNIT_TRANSIENT, VALUE_PROCESSING)] else [])
    + (if FailedStatus(d.run[d.data[k]]) then [Tag(KEY_KNIT_TRANSIENT, VALUE_FAILED)] else [])
    + (if k in d.knitTimestamp then [Tag(KEY_KNIT_TIMESTAMP, env.formatTime(d.knitTimestamp[k]))] else [])
  }

  lemma RowAndUserTags(d: Tables, env: Env, k: string, user: seq<Tag>)
    requires SchemaOk(d) && k in d.data && Elems(user) == UserTags(d.tags, k)
    ensures Elems(RowTags(d, env, k) + user) == Body(d, env, k)
  {
    var all := RowTags(d, env, k) + user;
    var body := BodyTags(d, k);
    hide UserTags, Interned;
    forall t | t in all
      ensures t in Body(d, env, k)
    {
      if t in user {
        assert t in Elems(user) && UserTag(t) in body;
        assert Render(UserTag(t), env.formatTime) == t;
      } else {
        RowTagInBody(d, env, k, t);
      }
    }
    forall t | t in Body(d, env, k)
      ensures t in all
    {
      var b :| b in body && Render(b, env.formatTime) == t;
      if b.UserTag? {
        assert t in Elems(user);
      }
    }
  }

  lemma RowTagInBody(d: Tables, env: Env, k: string, t: Tag)
    requires SchemaOk(d) && k in d.data && t in RowTags(d, env, k)
    ensures t in Body(d, env, k)
  {
    hide UserTags, Interned;
    var body := BodyTags(d, k);
    if t == Tag(KEY_KNIT_ID, k) {
      assert KnitIdTag(k) in body && Render(KnitIdTag(k), env.formatTime) == t;
    } else if t == Tag(KEY_KNIT_TRANSIENT, VALUE_PROCESSING) {
      assert TransientTag(VALUE_PROCESSING) in body && Render(TransientTag(VALUE_PROCESSING), env.formatTime) == t;
    } else if t == Tag(KEY_KNIT_TRANSIENT, VALUE_FAILED) {
      assert TransientTag(VALUE_FAILED) in body && Render(TransientTag(VALUE_FAILED), env.formatTime) == t;
    } else {
      var time := d.knitTimestamp[k];
      assert TimestampTag(time) in body && Render(TimestampTag(time), env.formatTime) == t;
    }
  }

  /** What `GetDataBody` returns for a data: a normal form of its body. */
  ghost predicate IsBodyOf(d: Tables, env: Env, clock: Clock, k: string, tags: seq<Tag>)
    requires SchemaOk(d) && k in d.data
  {
    exists all :: Elems(all) == Body(d, env, k) && tags == Normal(clock, all)
  }

  /** All linked tags of the data can be made into tags again. */
  ghost predicate Readable(d: Tables, env: Env, knitIds: set<string>)
    requires SchemaOk(d)
  {
    forall k, t :: k in knitIds && t in UserTags(d.tags, k) ==> NewTag(env.parseTime, t.key, t.value).Some?
  }

  /** Linked times that cannot be parsed and unknown states of a run are what cannot be read. */
  lemma ReadableMeans(d: Tables, env: Env, knitIds: set<string>)
    requires SchemaOk(d)
    ensures Readable(d, env, knitIds) <==>
      forall k, t :: k in knitIds && t in UserTags(d.tags, k) ==>
        && (t.key == KEY_KNIT_TIMESTAMP ==> env.parseTime(t.value).Some?)
        && (t.key == KEY_KNIT_TRANSIENT ==> t.value == VALUE_PROCESSING || t.value == VALUE_FAILED)
  {
    ReservedKeys();
    hide UserTags, Interned;
    assert HasPrefix(KEY_KNIT_TIMESTAMP, SYSTEM_TAG_PREFIX) && HasPrefix(KEY_KNIT_TRANSIENT, SYSTEM_TAG_PREFIX);
  }

  /** `GetDataBody`: it fails exactly if a wanted data has a linked tag that `NewTag` refuses; otherwise each
      wanted data that there is gets a normal form of its body. */
  method GetDataBody(d: Tables, env: Env, clock: Clock, knitIds: set<string>)
    returns (r: Result<map<string, seq<Tag>>, Tag>)
    requires SchemaOk(d)
    ensures r.Ok? <==> Readable(d, env, knitIds)
    ensures r.Ok? ==> r.value.Keys == knitIds * d.data.Keys && forall k :: k in r.value ==> IsBodyOf(d, env, clock, k, r.value[k])
  {
    hide Interned, UserTags, RowTags, IsBodyOf, Normal;
    var tags: map<string, seq<Tag>> := map k | k in knitIds && k in d.data :: RowTags(d, env, k);
    var user := UserTagsOfData(d.tags, knitIds, env.parseTime);
    if user.Err? {
      return Err(user.error);
    }
    var utags := user.value;
    OnlyKnownData(d, knitIds, utags);
    var rows := tags;
    tags := map k | k in rows :: rows[k] + Get(utags, k);
    var bodies: map<string, seq<Tag>> := map k | k in tags :: Normal(clock, tags[k]);
    forall k | k in bodies
      ensures IsBodyOf(d, env, clock, k, bodies[k])
    {
      RebuildsBody(d, env, clock, k, Get(utags, k));
    }
    return Ok(bodies);
  }

  lemma RebuildsBody(d: Tables, env: Env, clock: Clock, k: string, user: seq<Tag>)
    requires SchemaOk(d) && k in d.data && Elems(user) == UserTags(d.tags, k)
    ensures IsBodyOf(d, env, clock, k, Normal(clock, RowTags(d, env, k) + user))
  {
    hide Interned, UserTags, BodyTags, Normal, Body, RowTags;
    RowAndUserTags(d, env, k, user);
  }

  /** Two tags of a body share a class. */
  ghost predicate Doubled(d: Tables, env: Env, clock: Clock, k: string)
    requires SchemaOk(d) && k in d.data
  {
    exists a, b :: a in Body(d, env, k) && b in Body(d, env, k) && a != b && SameClass(clock, a, b)
  }

  /** What is returned is sorted, is part of the body, has a tag of every class in it, and is all of it if
      and only if no two tags of the body share a class. */
  lemma BodyOfMeans(d: Tables, env: Env, clock: Clock, k: string, tags: seq<Tag>)
    requires SchemaOk(d) && k in d.data && IsBodyOf(d, env, clock, k, tags)
    ensures Increasing(TagOrder(), tags) && Elems(tags) <= Body(d, env, k)
    ensures forall t :: t in Body(d, env, k) ==> exists u :: u in tags && SameClass(clock, u, t)
    ensures Elems(tags) == Body(d, env, k) <==> !Doubled(d, env, clock, k)
  {
    hide Interned, UserTags, BodyTags, Normal, Body, SameClass;
    var all :| Elems(all) == Body(d, env, k) && tags == Normal(clock, all);
    NormalIsNormalForm(clock, all);
    NormalKeepsAllIffSeparate(clock, all);
    assert forall t :: t in all <==> t in Elems(all);
    forall t | t in Body(d, env, k)
      ensures exists u :: u in tags && SameClass(clock, u, t)
    {
      var u := FirstOfClass(clock, all, t);
      assert u in Elems(tags);
    }
  }

  // ---- nomination and rendered tags --------------------------------------------------------------

  /** What inputs may require: user tags with user keys, ids and times. */
  predicate Requirable(b: BodyTag) {
    b.KnitIdTag? || b.TimestampTag? || (b.UserTag? && !IsSystemTag(b.tag))
  }

  ghost function Rendered(bs: set<BodyTag>, env: Env): set<Tag> {
    set b | b in bs :: Render(b, env.formatTime)
  }

  /** No linked system tag says what a row could say but does not, and no other time prints as the data's. */
  ghost predicate Unambiguous(d: Tables, env: Env, k: string)
    requires SchemaOk(d) && k in d.data
  {
    && (forall t :: t in UserTags(d.tags, k) && t.key == KEY_KNIT_ID ==> t.value == k)
    && (forall time :: PrintsAs(d, env, k, time) ==> IsTimeOf(d, k, time))
  }

  /** The time prints as a linked tag does, or as the data's own time. */
  ghost predicate PrintsAs(d: Tables, env: Env, k: string, time: int)
    requires SchemaOk(d) && k in d.data
  {
    || Tag(KEY_KNIT_TIMESTAMP, env.formatTime(time)) in UserTags(d.tags, k)
    || (k in d.knitTimestamp && env.formatTime(time) == env.formatTime(d.knitTimestamp[k]))
  }

  predicate IsTimeOf(d: Tables, k: string, time: int) {
    k in d.knitTimestamp && d.knitTimestamp[k] == time
  }

  lemma RequirableInBody(d: Tables, env: Env, k: string, b: BodyTag)
    requires SchemaOk(d) && k in d.data && Requirable(b)
    ensures b in BodyTags(d, k) <==>
      match b
      case UserTag(t) => t in UserTags(d.tags, k)
      case KnitIdTag(id) => id == k
      case TimestampTag(time) => IsTimeOf(d, k, time)
      case TransientTag(_) => false
  {
    BodyTagsUnfold(d, k, b);
  }

  lemma TimeInBody(d: Tables, env: Env, k: string, time: int)
    requires SchemaOk(d) && k in d.data
    ensures Tag(KEY_KNIT_TIMESTAMP, env.formatTime(time)) in Body(d, env, k) <==> PrintsAs(d, env, k, time)
  {
    ReservedKeys();
    hide Interned, UserTags;
    var t := Tag(KEY_KNIT_TIMESTAMP, env.formatTime(time));
    assert t in UserTags(d.tags, k) ==> UserTag(t) in BodyTags(d, k) && Render(UserTag(t), env.formatTime) == t;
    assert k in d.knitTimestamp ==> TimestampTag(d.knitTimestamp[k]) in BodyTags(d, k);
    assert k in d.knitTimestamp ==> Render(TimestampTag(d.knitTimestamp[k]), env.formatTime) == Tag(KEY_KNIT_TIMESTAMP, env.formatTime(d.knitTimestamp[k]));
    if t in Body(d, env, k) {
      var b :| b in BodyTags(d, k) && Render(b, env.formatTime) == t;
      RenderedInBody(d, env, k, b);
    }
  }

  /** What a rendering in the body says about where it comes from. */
  lemma RenderedRequirable(d: Tables, env: Env, k: string, b: BodyTag)
    requires SchemaOk(d) && k in d.data && Requirable(b)
    ensures Render(b, env.formatTime) in Body(d, env, k) <==>
      match b
      case UserTag(t) => t in UserTags(d.tags, k)
      case KnitIdTag(id) => id == k || Tag(KEY_KNIT_ID, id) in UserTags(d.tags, k)
      case TimestampTag(time) => PrintsAs(d, env, k, time)
      case TransientTag(_) => false
  {
    ReservedKeys();
    match b
    case UserTag(t) =>
      assert t.key != KEY_KNIT_TIMESTAMP && t.key != KEY_KNIT_ID && t.key != KEY_KNIT_TRANSIENT;
      InBody(d, env, k, t);
    case KnitIdTag(id) =>
      InBody(d, env, k, Tag(KEY_KNIT_ID, id));
    case TimestampTag(time) =>
      TimeInBody(d, env, k, time);
    case TransientTag(_) =>
  }

  ghost predicate SameBothWays(d: Tables, env: Env, k: string, b: BodyTag)
    requires SchemaOk(d) && k in d.data
  {
    b in BodyTags(d, k) <==> Render(b, env.formatTime) in Body(d, env, k)
  }

  lemma UnambiguousIffSame(d: Tables, env: Env, k: string)
    requires SchemaOk(d) && k in d.data
    ensures (forall b :: Requirable(b) ==> SameBothWays(d, env, k, b)) <==> Unambiguous(d, env, k)
  {
    hide Interned, UserTags, BodyTags, Body, Render;
    forall b | Requirable(b) && Unambiguous(d, env, k)
      ensures SameBothWays(d, env, k, b)
    {
      RequirableInBody(d, env, k, b);
      RenderedRequirable(d, env, k, b);
    }
    if forall b :: Requirable(b) ==> SameBothWays(d, env, k, b) {
      forall t | t in UserTags(d.tags, k) && t.key == KEY_KNIT_ID
        ensures t.value == k
      {
        assert t == Tag(KEY_KNIT_ID, t.value);
        SameAt(d, env, k, KnitIdTag(t.value));
      }
      forall time | PrintsAs(d, env, k, time)
        ensures IsTimeOf(d, k, time)
      {
        SameAt(d, env, k, TimestampTag(time));
      }
    }
  }

  lemma SameAt(d: Tables, env: Env, k: string, b: BodyTag)
    requires SchemaOk(d) && k in d.data && Requirable(b) && SameBothWays(d, env, k, b)
    ensures match b
      case KnitIdTag(id) => Tag(KEY_KNIT_ID, id) in UserTags(d.tags, k) ==> id == k
      case TimestampTag(time) => PrintsAs(d, env, k, time) ==> IsTimeOf(d, k, time)
      case _ => true
  {
    RequirableInBody(d, env, k, b);
    RenderedRequirable(d, env, k, b);
  }

  ghost predicate SameInclusion(d: Tables, env: Env, k: string, bs: set<BodyTag>)
    requires SchemaOk(d) && k in d.data
  {
    bs <= BodyTags(d, k) <==> Rendered(bs, env) <= Body(d, env, k)
  }

  /** Main result: what a data is nominated for is what the tags that `GetDataBody` rebuilds include, for
      all requirements, if and only if the data is unambiguous. */
  lemma InclusionsAgreeIffUnambiguous(d: Tables, env: Env, k: string)
    requires SchemaOk(d) && k in d.data
    ensures (forall bs :: (forall b :: b in bs ==> Requirable(b)) ==> SameInclusion(d, env, k, bs)) <==> Unambiguous(d, env, k)
  {
    UnambiguousIffSame(d, env, k);
    hide Interned, UserTags, BodyTags, Body, Render, Requirable, Unambiguous;
    if Unambiguous(d, env, k) {
      forall bs: set<BodyTag> | forall b :: b in bs ==> Requirable(b)
        ensures SameInclusion(d, env, k, bs)
      {
        forall b | b in bs
          ensures Render(b, env.formatTime) in Rendered(bs, env) && SameBothWays(d, env, k, b)
        {
        }
      }
    }
    if forall bs :: (forall b :: b in bs ==> Requirable(b)) ==> SameInclusion(d, env, k, bs) {
      forall b | Requirable(b)
        ensures SameBothWays(d, env, k, b)
      {
        assert SameInclusion(d, env, k, {b});
        assert Rendered({b}, env) == {Render(b, env.formatTime)};
      }
    }
  }

  /** So a done and unambiguous data matches an input exactly if the input requires something and all of it,
      rendered, is in the body. */
  lemma MatchesIsRendered(d: Tables, env: Env, i: int, k: string)
    requires SchemaOk(d) && i in d.input && IsDone(d, k) && Unambiguous(d, env, k)
    requires forall t :: t in InputTags(d.tags, i) ==> !IsSystemTag(t)
    ensures Matches(d, i, k) <==> RequiredTags(d, i) != {} && Rendered(RequiredTags(d, i), env) <= Body(d, env, k)
  {
    forall b | b in RequiredTags(d, i)
      ensures Requirable(b)
    {
      RequiredTagsUnfold(d, i, b);
    }
    hide Interned, UserTags, InputTags, RequiredTags, BodyTags, Body, Render, Requirable, Unambiguous;
    InclusionsAgreeIffUnambiguous(d, env, k);
    assert SameInclusion(d, env, k, RequiredTags(d, i));
  }

  /** Tags are linked to data that there are, so the loop over them makes no bodies of its own. */
  lemma OnlyKnownData(d: Tables, knitIds: set<string>, utags: map<string, seq<Tag>>)
    requires SchemaOk(d) && utags.Keys <= knitIds
    requires forall k :: k in knitIds ==> Elems(Get(utags, k)) == UserTags(d.tags, k)
    requires forall k :: k in utags ==> utags[k] != []
    ensures utags.Keys <= d.data.Keys
  {
    forall k | k in utags
      ensures k in d.data
    {
      assert utags[k][0] in Elems(Get(utags, k));
      var r :| r in d.tags.tagData && r.1 == k;
    }
  }
}
