/** `Find` of pkg/domain/data/db/postgres/data.go: the query record, the SQL statement, and what they
    mean in terms of the tag sets that `GetDataBody` rebuilds.
    White space trimming and time parsing are parameters. */
module DataFind {
  import opened Results
  import opened Sets
  import opened CountingJoins
  import opened TagStore
  import opened Nomination
  import opened Strings
  import opened TagSets
  import opened Sorting

  datatype FindQuery = FindQuery(
    userTag: seq<Tag>,
    knitId: Option<string>,
    timestamp: Option<string>,
    processing: Option<bool>,
    failed: Option<bool>)

  datatype Window = Window(since: Option<int>, until: Option<int>)

  function UserTagsIn(ts: set<Tag>): set<Tag> {
    set t | t in ts && !IsSystemTag(t)
  }

  // ---- building the query ----------------------------------------------------------------------

  /** A query for these tags is answered with nothing. */
  ghost predicate Contradictory(ts: set<Tag>) {
    || (exists a, b :: a in ts && b in ts && a.key == KEY_KNIT_ID && b.key == KEY_KNIT_ID && a != b)
    || (exists a, b :: a in ts && b in ts && a.key == KEY_KNIT_TIMESTAMP && b.key == KEY_KNIT_TIMESTAMP && a != b)
    || (Tag(KEY_KNIT_TRANSIENT, VALUE_PROCESSING) in ts && Tag(KEY_KNIT_TRANSIENT, VALUE_FAILED) in ts)
    || (exists t :: t in ts && t.key == KEY_KNIT_TRANSIENT && t.value != VALUE_PROCESSING && t.value != VALUE_FAILED)
    || (exists t :: t in ts && IsSystemTag(t) && t.key !in {KEY_KNIT_ID, KEY_KNIT_TIMESTAMP, KEY_KNIT_TRANSIENT})
  }

  ghost predicate UserTagsFor(ts: set<Tag>, q: FindQuery) {
    Elems(q.userTag) == UserTagsIn(ts) && |q.userTag| == |UserTagsIn(ts)|
  }

  ghost predicate SingleTagsFor(ts: set<Tag>, q: FindQuery) {
    && (forall v :: q.knitId == Some(v) <==> Tag(KEY_KNIT_ID, v) in ts)
    && (forall v :: q.timestamp == Some(v) <==> Tag(KEY_KNIT_TIMESTAMP, v) in ts)
    && (forall t :: t in ts && IsSystemTag(t) ==> t.key in {KEY_KNIT_ID, KEY_KNIT_TIMESTAMP, KEY_KNIT_TRANSIENT})
  }

  ghost predicate TransientTagsFor(ts: set<Tag>, q: FindQuery) {
    && (q.processing == Some(true) <==> Tag(KEY_KNIT_TRANSIENT, VALUE_PROCESSING) in ts)
    && (q.failed == Some(true) <==> Tag(KEY_KNIT_TRANSIENT, VALUE_FAILED) in ts)
    && (q.processing.Some? <==> q.failed.Some?)
    && (q.processing.Some? ==> q.processing.value != q.failed.value)
    && (forall t :: t in ts && t.key == KEY_KNIT_TRANSIENT ==> t.value == VALUE_PROCESSING || t.value == VALUE_FAILED)
  }

  /** The query record says what the tags say. */
  ghost predicate QueryFor(ts: set<Tag>, q: FindQuery) {
    UserTagsFor(ts, q) && SingleTagsFor(ts, q) && TransientTagsFor(ts, q)
  }

  /** What one tag does to the query: nothing is returned when it contradicts an earlier one. */
  function Absorb(q: FindQuery, t: Tag): Option<FindQuery> {
    if !IsSystemTag(t) then Some(q.(userTag := q.userTag + [t]))
    else if t.key == KEY_KNIT_ID then
      if q.knitId.Some? then None else Some(q.(knitId := Some(t.value)))
    else if t.key == KEY_KNIT_TRANSIENT then
      if t.value == VALUE_PROCESSING then
        if q.processing.Some? then None else Some(q.(processing := Some(true), failed := Some(false)))
      else if t.value == VALUE_FAILED then
        if q.failed.Some? then None else Some(q.(processing := Some(false), failed := Some(true)))
      else None
    else if t.key == KEY_KNIT_TIMESTAMP then
      if q.timestamp.Some? then None else Some(q.(timestamp := Some(t.value)))
    else None
  }

  lemma AbsorbUserTags(ts: set<Tag>, q: FindQuery, t: Tag)
    requires UserTagsFor(ts, q) && t !in ts && Absorb(q, t).Some?
    ensures UserTagsFor(ts + {t}, Absorb(q, t).value)
  {
    var ts', q' := ts + {t}, Absorb(q, t).value;
    if IsSystemTag(t) {
      assert UserTagsIn(ts') == UserTagsIn(ts);
    } else {
      assert UserTagsIn(ts') == UserTagsIn(ts) + {t};
      assert Elems(q'.userTag) == Elems(q.userTag) + {t};
    }
  }

  lemma AbsorbSingleTags(ts: set<Tag>, q: FindQuery, t: Tag)
    requires SingleTagsFor(ts, q) && t !in ts && Absorb(q, t).Some?
    ensures SingleTagsFor(ts + {t}, Absorb(q, t).value)
  {
    ReservedKeys();
  }

  lemma AbsorbTransientTags(ts: set<Tag>, q: FindQuery, t: Tag)
    requires TransientTagsFor(ts, q) && t !in ts && Absorb(q, t).Some?
    ensures TransientTagsFor(ts + {t}, Absorb(q, t).value)
  {
    ReservedKeys();
  }

  lemma AbsorbSome(ts: set<Tag>, q: FindQuery, t: Tag)
    requires QueryFor(ts, q) && t !in ts && Absorb(q, t).Some?
    ensures QueryFor(ts + {t}, Absorb(q, t).value)
  {
    hide Absorb, UserTagsFor, SingleTagsFor, TransientTagsFor;
    AbsorbUserTags(ts, q, t);
    AbsorbSingleTags(ts, q, t);
    AbsorbTransientTags(ts, q, t);
  }

  lemma AbsorbNone(ts: set<Tag>, q: FindQuery, t: Tag)
    requires QueryFor(ts, q) && t !in ts && Absorb(q, t).None?
    ensures Contradictory(ts + {t})
  {
    ReservedKeys();
    var ts' := ts + {t};
    assert t in ts';
    if t.key == KEY_KNIT_ID {
      var other := Tag(KEY_KNIT_ID, q.knitId.value);
      assert other in ts' && other != t;
    } else if t.key == KEY_KNIT_TIMESTAMP {
      var other := Tag(KEY_KNIT_TIMESTAMP, q.timestamp.value);
      assert other in ts' && other != t;
    } else if t.key == KEY_KNIT_TRANSIENT {
      assert t == Tag(KEY_KNIT_TRANSIENT, t.value);
    }
  }

  lemma ContradictoryMonotone(a: set<Tag>, b: set<Tag>)
    requires a <= b && Contradictory(a)
    ensures Contradictory(b)
  {
  }

  lemma QueryForNothing()
    ensures QueryFor({}, FindQuery([], None, None, None, None))
  {
    assert Elems<Tag>([]) == {} && UserTagsIn({}) == {};
  }

  lemma QueryForExcludesContradiction(ts: set<Tag>, q: FindQuery)
    requires QueryFor(ts, q)
    ensures !Contradictory(ts)
  {
    forall a | a in ts && a.key == KEY_KNIT_ID
      ensures q.knitId == Some(a.value)
    {
      assert a == Tag(KEY_KNIT_ID, a.value);
    }
    forall a | a in ts && a.key == KEY_KNIT_TIMESTAMP
      ensures q.timestamp == Some(a.value)
    {
      assert a == Tag(KEY_KNIT_TIMESTAMP, a.value);
    }
  }

  /** `makeDataFindQuery`. The normalised tags are a Go map, so they come in any order. */
  method MakeDataFindQuery(tags: seq<Tag>, trim: string -> string) returns (q: Option<FindQuery>, normalized: set<Tag>)
    ensures normalized == set t | t in tags :: Tag(trim(t.key), trim(t.value))
    ensures q.None? <==> Contradictory(normalized)
    ensures q.Some? ==> QueryFor(normalized, q.value)
  {
    normalized := {};
    for i := 0 to |tags|
      invariant normalized == set t | t in tags[..i] :: Tag(trim(t.key), trim(t.value))
    {
      normalized := normalized + {Tag(trim(tags[i].key), trim(tags[i].value))};
    }
    assert tags[..|tags|] == tags;

    var result := FindQuery([], None, None, None, None);
    var remaining := normalized;
    QueryForNothing();
    while remaining != {}
      invariant remaining <= normalized
      invariant QueryFor(normalized - remaining, result)
      decreases remaining
    {
      var t :| t in remaining;
      var next := Absorb(result, t);
      ghost var done := normalized - remaining;
      remaining := remaining - {t};
      assert normalized - remaining == done + {t};
      if next.None? {
        AbsorbNone(done, result, t);
        ContradictoryMonotone(done + {t}, normalized);
        return None, normalized;
      }
      AbsorbSome(done, result, t);
      result := next.value;
    }
    assert normalized - remaining == normalized;
    QueryForExcludesContradiction(normalized, result);
    return Some(result), normalized;
  }

  // ---- the statement ---------------------------------------------------------------------------

  /** What the environment supplies: when each run was updated, and time parsing and formatting. */
  datatype Env = Env(updatedAt: map<string, int>, parseTime: string -> Option<int>, formatTime: int -> string)

  predicate ProcessingStatus(s: Status) {
    Processing(s)
  }

  predicate FailedStatus(s: Status) {
    s == Failed || s == Invalidated
  }

  /** coalesce("timestamp", "run"."updated_at") */
  function EffectiveTime(d: Tables, env: Env, k: string): int
    requires k in d.data && d.data[k] in env.updatedAt
  {
    if k in d.knitTimestamp then d.knitTimestamp[k] else env.updatedAt[d.data[k]]
  }

  predicate InWindow(time: int, w: Window) {
    && (w.since.Some? ==> time >= w.since.value)
    && (w.until.Some? ==> time < w.until.value)
  }

  /** "_data" */
  function Candidates(d: Tables, env: Env, q: FindQuery, time: Option<int>, w: Window): set<string>
    requires SchemaKnown(d, env)
  {
    set k | k in d.data
      && (q.knitId.Some? ==> k == q.knitId.value)
      && (q.processing == Some(true) ==> ProcessingStatus(d.run[d.data[k]]))
      && (q.failed == Some(true) ==> FailedStatus(d.run[d.data[k]]))
      && (time.Some? ==> EffectiveTime(d, env, k) == time.value)
      && InWindow(EffectiveTime(d, env, k), w)
  }

  predicate SchemaKnown(d: Tables, env: Env) {
    forall k :: k in d.data ==> d.data[k] in d.run && d.data[k] in env.updatedAt
  }

  /** "query" joined with "tag_data" */
  function QueryRows(t: TagTables, query: set<Tag>, k: string): set<(int, string)> {
    set r | r in t.tagData && r.1 == k && r.0 in t.tag && t.tag[r.0].keyId in t.tagKey && TagOf(t, r.0) in query
  }

  /** "data": grouped and counted, or everything when no user tag is asked for. */
  function Selected(d: Tables, env: Env, q: FindQuery, time: Option<int>, w: Window): set<string>
    requires SchemaKnown(d, env)
  {
    var candidates := Candidates(d, env, q, time, w);
    var grouped := set k | k in candidates && QueryRows(d.tags, Elems(q.userTag), k) != {}
                     && |QueryRows(d.tags, Elems(q.userTag), k)| == |q.userTag|;
    grouped + if |q.userTag| == 0 then candidates else {}
  }

  // ---- what the statement means ----------------------------------------------------------------

  function Render(b: BodyTag, formatTime: int -> string): Tag {
    match b
    case UserTag(t) => t
    case KnitIdTag(id) => Tag(KEY_KNIT_ID, id)
    case TimestampTag(t) => Tag(KEY_KNIT_TIMESTAMP, formatTime(t))
    case TransientTag(v) => Tag(KEY_KNIT_TRANSIENT, v)
  }

  /** The tags that `GetDataBody` rebuilds, as strings. */
  ghost function Body(d: Tables, env: Env, k: string): set<Tag>
    requires SchemaOk(d) && k in d.data
  {
    set b | b in BodyTags(d, k) :: Render(b, env.formatTime)
  }

  /** The data that carry all tags asked for, in the window asked for. */
  ghost predicate Answers(d: Tables, env: Env, ts: set<Tag>, w: Window, k: string)
    requires SchemaOk(d) && SchemaKnown(d, env)
  {
    k in d.data && ts <= Body(d, env, k) && InWindow(EffectiveTime(d, env, k), w)
  }

  /** The system tags other than knit#timestamp that a row stands for by itself. */
  predicate RowDerives(d: Tables, k: string, t: Tag)
    requires k in d.data && d.data[k] in d.run
  {
    || t == Tag(KEY_KNIT_ID, k)
    || (t == Tag(KEY_KNIT_TRANSIENT, VALUE_PROCESSING) && ProcessingStatus(d.run[d.data[k]]))
    || (t == Tag(KEY_KNIT_TRANSIENT, VALUE_FAILED) && FailedStatus(d.run[d.data[k]]))
  }

  /** The system tags that the statement finds a row by. */
  predicate RowAnswers(d: Tables, env: Env, k: string, t: Tag)
    requires SchemaKnown(d, env) && k in d.data
  {
    if t.key == KEY_KNIT_TIMESTAMP then env.parseTime(t.value) == Some(EffectiveTime(d, env, k)) else RowDerives(d, k, t)
  }

  /** What the statement finds: user tags are looked up among the linked tags, system tags in the row. */
  ghost predicate Chosen(d: Tables, env: Env, ts: set<Tag>, w: Window, k: string)
    requires SchemaOk(d) && SchemaKnown(d, env)
  {
    && !Contradictory(ts) && k in d.data && UserTagsIn(ts) <= UserTags(d.tags, k)
    && (forall t :: t in ts && IsSystemTag(t) ==> RowAnswers(d, env, k, t))
    && InWindow(EffectiveTime(d, env, k), w)
  }

  lemma InBody(d: Tables, env: Env, k: string, t: Tag)
    requires SchemaOk(d) && k in d.data && t.key != KEY_KNIT_TIMESTAMP
    ensures t in Body(d, env, k) <==> t in UserTags(d.tags, k) || RowDerives(d, k, t)
  {
    ReservedKeys();
    var body := BodyTags(d, k);
    hide UserTags, Interned;
    assert KnitIdTag(k) in body;
    assert forall x :: x in UserTags(d.tags, k) <==> UserTag(x) in body;
    assert TransientTag(VALUE_PROCESSING) in body <==> ProcessingStatus(d.run[d.data[k]]);
    assert TransientTag(VALUE_FAILED) in body <==> FailedStatus(d.run[d.data[k]]);
    hide BodyTags;
    assert Render(UserTag(t), env.formatTime) == t;
    assert Render(KnitIdTag(k), env.formatTime) == Tag(KEY_KNIT_ID, k);
    assert Render(TransientTag(VALUE_PROCESSING), env.formatTime) == Tag(KEY_KNIT_TRANSIENT, VALUE_PROCESSING);
    assert Render(TransientTag(VALUE_FAILED), env.formatTime) == Tag(KEY_KNIT_TRANSIENT, VALUE_FAILED);
    if t in Body(d, env, k) {
      var b :| b in body && Render(b, env.formatTime) == t;
      RenderedInBody(d, env, k, b);
    }
  }

  lemma RenderedInBody(d: Tables, env: Env, k: string, b: BodyTag)
    requires SchemaOk(d) && k in d.data && b in BodyTags(d, k)
    ensures match b
      case UserTag(t) => t in UserTags(d.tags, k)
      case TimestampTag(time) => k in d.knitTimestamp && d.knitTimestamp[k] == time
      case _ => RowDerives(d, k, Render(b, env.formatTime))
  {
    hide UserTags, Interned;
  }

  /** As many rows as tags: interning is injective. */
  lemma {:induction false} RowsCountTags(t: TagTables, rows: set<(int, string)>, tags: set<Tag>, k: string)
    requires Interned(t) && (forall r :: r in rows ==> r.0 in t.tag && r.1 == k)
    requires tags == set r | r in rows :: TagOf(t, r.0)
    ensures |rows| == |tags|
  {
    if rows != {} {
      var r :| r in rows;
      var x := TagOf(t, r.0);
      forall q | q in rows - {r}
        ensures TagOf(t, q.0) != x
      {
        if TagOf(t, q.0) == x {
          InternedInjective(t, q.0, r.0);
        }
      }
      assert x in tags;
      assert tags - {x} == set q | q in rows - {r} :: TagOf(t, q.0);
      RowsCountTags(t, rows - {r}, tags - {x}, k);
    }
  }

  lemma RowsCoverQuery(d: Tables, query: set<Tag>, k: string)
    requires SchemaOk(d)
    ensures |QueryRows(d.tags, query, k)| == |query| <==> query <= UserTags(d.tags, k)
  {
    var rows := QueryRows(d.tags, query, k);
    var found := set r | r in rows :: TagOf(d.tags, r.0);
    RowsCountTags(d.tags, rows, found, k);
    assert found == query * UserTags(d.tags, k);
    SameSizeSubset(found, query);
  }

  /** The statement, whatever is asked for. */
  lemma SelectedMeans(d: Tables, env: Env, ts: set<Tag>, q: FindQuery, w: Window, k: string)
    requires SchemaOk(d) && SchemaKnown(d, env) && QueryFor(ts, q)
    requires q.timestamp.Some? ==> env.parseTime(q.timestamp.value).Some?
    ensures k in Selected(d, env, q, AskedTime(q, env), w) <==> Chosen(d, env, ts, w, k)
  {
    RowsCoverQuery(d, UserTagsIn(ts), k);
    QueryForExcludesContradiction(ts, q);
    assert |UserTagsIn(ts)| == 0 ==> UserTagsIn(ts) == {};
    if k in d.data {
      CandidateMeans(d, env, ts, q, w, k);
    }
    hide Contradictory, UserTags, UserTagsIn, Candidates, RowAnswers, Interned;
  }

  lemma CandidateMeans(d: Tables, env: Env, ts: set<Tag>, q: FindQuery, w: Window, k: string)
    requires SchemaKnown(d, env) && QueryFor(ts, q) && k in d.data
    requires q.timestamp.Some? ==> env.parseTime(q.timestamp.value).Some?
    ensures k in Candidates(d, env, q, AskedTime(q, env), w)
      <==> (forall t :: t in ts && IsSystemTag(t) ==> RowAnswers(d, env, k, t)) && InWindow(EffectiveTime(d, env, k), w)
  {
    ReservedKeys();
    if forall t :: t in ts && IsSystemTag(t) ==> RowAnswers(d, env, k, t) {
      if q.knitId.Some? {
        assert Tag(KEY_KNIT_ID, q.knitId.value) in ts;
      }
      if q.timestamp.Some? {
        assert Tag(KEY_KNIT_TIMESTAMP, q.timestamp.value) in ts;
      }
    }
    if k in Candidates(d, env, q, AskedTime(q, env), w) {
      forall t | t in ts && IsSystemTag(t)
        ensures RowAnswers(d, env, k, t)
      {
        AnswersOne(d, env, ts, q, w, k, t);
      }
    }
  }

  lemma AnswersOne(d: Tables, env: Env, ts: set<Tag>, q: FindQuery, w: Window, k: string, t: Tag)
    requires SchemaKnown(d, env) && QueryFor(ts, q) && k in d.data && t in ts && IsSystemTag(t)
    requires q.timestamp.Some? ==> env.parseTime(q.timestamp.value).Some?
    requires k in Candidates(d, env, q, AskedTime(q, env), w)
    ensures RowAnswers(d, env, k, t)
  {
    ReservedKeys();
    assert t == Tag(t.key, t.value);
    hide UserTagsFor, ProcessingStatus, FailedStatus, EffectiveTime, InWindow;
  }

  /** The window by itself: among what is found without one, it keeps the data whose time is at its beginning
      or later, and before its end. The time is the timestamp, or the last update of the run without one. */
  lemma WindowNarrows(d: Tables, env: Env, ts: set<Tag>, since: Option<int>, until: Option<int>, k: string)
    requires SchemaOk(d) && SchemaKnown(d, env)
    ensures k in d.knitTimestamp ==>
      (Chosen(d, env, ts, Window(since, until), k) <==>
        && Chosen(d, env, ts, Window(None, None), k)
        && (since.Some? ==> since.value <= d.knitTimestamp[k])
        && (until.Some? ==> d.knitTimestamp[k] < until.value))
    ensures k in d.data && k !in d.knitTimestamp ==>
      (Chosen(d, env, ts, Window(since, until), k) <==>
        && Chosen(d, env, ts, Window(None, None), k)
        && (since.Some? ==> since.value <= env.updatedAt[d.data[k]])
        && (until.Some? ==> env.updatedAt[d.data[k]] < until.value))
  {
    hide Contradictory, UserTags, UserTagsIn, RowAnswers, Interned;
  }

  /** A body holds the id, the time if there is one, the linked tags, and one thing about the run: nothing when it
      is done, that it failed, or that it goes on. */
  lemma BodyTagsMean(d: Tables, k: string)
    requires SchemaOk(d) && k in d.data
    ensures var status, body := d.run[d.data[k]], BodyTags(d, k);
      && (forall id :: KnitIdTag(id) in body <==> id == k)
      && (forall time :: TimestampTag(time) in body <==> k in d.knitTimestamp && d.knitTimestamp[k] == time)
      && (forall t :: UserTag(t) in body <==> t in UserTags(d.tags, k))
      && (TransientTag(VALUE_FAILED) in body <==> status == Failed || status == Invalidated)
      && (TransientTag(VALUE_PROCESSING) in body <==> status != Done && TransientTag(VALUE_FAILED) !in body)
  {
    ReservedKeys();
    hide UserTags, Interned;
  }

  // ---- where finding is answering ----------------------------------------------------------------

  predicate WithoutTimestamp(ts: set<Tag>) {
    forall t :: t in ts ==> t.key != KEY_KNIT_TIMESTAMP
  }

  /** Of the system tags linked to data, only knit#timestamp may say something that the row does not. */
  ghost predicate OwnTags(d: Tables)
    requires SchemaOk(d)
  {
    forall k, t :: k in d.data && t in UserTags(d.tags, k) && IsSystemTag(t) && t.key != KEY_KNIT_TIMESTAMP ==> RowDerives(d, k, t)
  }

  lemma DerivedIsSystem(d: Tables, k: string, t: Tag)
    requires k in d.data && d.data[k] in d.run && RowDerives(d, k, t)
    ensures IsSystemTag(t) && t.key in {KEY_KNIT_ID, KEY_KNIT_TRANSIENT}
  {
    ReservedKeys();
  }

  lemma RowIsConsistent(d: Tables, k: string, ts: set<Tag>)
    requires k in d.data && d.data[k] in d.run && WithoutTimestamp(ts)
    requires forall t :: t in ts && IsSystemTag(t) ==> RowDerives(d, k, t)
    ensures !Contradictory(ts)
  {
    ReservedKeys();
    var run := d.run[d.data[k]];
    assert !(ProcessingStatus(run) && FailedStatus(run));
    hide ProcessingStatus, FailedStatus;
    forall t | t in ts && IsSystemTag(t)
      ensures t == Tag(KEY_KNIT_ID, k) || t.key == KEY_KNIT_TRANSIENT
      ensures t.key == KEY_KNIT_TRANSIENT ==> t.value == if ProcessingStatus(run) then VALUE_PROCESSING else VALUE_FAILED
    {
    }
  }

  lemma ChosenIsAnswer(d: Tables, env: Env, ts: set<Tag>, w: Window, k: string)
    requires SchemaOk(d) && SchemaKnown(d, env) && OwnTags(d) && WithoutTimestamp(ts)
    ensures Chosen(d, env, ts, w, k) <==> Answers(d, env, ts, w, k)
  {
    if k in d.data {
      forall t | t in ts
        ensures t in Body(d, env, k) <==> if IsSystemTag(t) then RowDerives(d, k, t) else t in UserTags(d.tags, k)
      {
        InBody(d, env, k, t);
        if RowDerives(d, k, t) {
          DerivedIsSystem(d, k, t);
        }
      }
      if forall t :: t in ts && IsSystemTag(t) ==> RowDerives(d, k, t) {
        RowIsConsistent(d, k, ts);
      }
    }
    hide Body, UserTags, Interned, Contradictory, IsSystemTag, RowDerives;
  }

  /** A linked tag that the row does not derive is carried, but not found. */
  lemma LinkedIsNotFound(d: Tables, env: Env, k: string, t: Tag)
    requires SchemaOk(d) && SchemaKnown(d, env) && k in d.data && t in UserTags(d.tags, k)
    requires IsSystemTag(t) && t.key != KEY_KNIT_TIMESTAMP && !RowDerives(d, k, t)
    ensures Answers(d, env, {t}, Window(None, None), k) && !Chosen(d, env, {t}, Window(None, None), k)
  {
    InBody(d, env, k, t);
    hide Body, UserTags, Interned, RowDerives, IsSystemTag;
  }

  /** Main result: finding is answering, for all queries without knit#timestamp, if and only if every other
      system tag that is linked to a data is one that its row derives. */
  lemma FindsAnswersIffOwnTags(d: Tables, env: Env)
    requires SchemaOk(d) && SchemaKnown(d, env)
    ensures (forall ts, w, k :: WithoutTimestamp(ts) ==> (Chosen(d, env, ts, w, k) <==> Answers(d, env, ts, w, k))) <==> OwnTags(d)
  {
    hide Chosen, Answers, IsSystemTag, RowDerives;
    if OwnTags(d) {
      forall ts, w, k | WithoutTimestamp(ts)
        ensures Chosen(d, env, ts, w, k) <==> Answers(d, env, ts, w, k)
      {
        ChosenIsAnswer(d, env, ts, w, k);
      }
    }
    forall k, t | k in d.data && t in UserTags(d.tags, k) && IsSystemTag(t) && t.key != KEY_KNIT_TIMESTAMP && !RowDerives(d, k, t)
      ensures exists ts, w, x :: WithoutTimestamp(ts) && !(Chosen(d, env, ts, w, x) <==> Answers(d, env, ts, w, x))
    {
      LinkedIsNotFound(d, env, k, t);
      assert WithoutTimestamp({t});
    }
  }

  /** A data that is not stamped yet is found by the time its run was updated at, which it does not carry. */
  lemma UnstampedIsFoundByItsRun(d: Tables, env: Env, k: string, v: string)
    requires SchemaOk(d) && SchemaKnown(d, env) && k in d.data && k !in d.knitTimestamp
    requires env.parseTime(v) == Some(env.updatedAt[d.data[k]]) && Tag(KEY_KNIT_TIMESTAMP, v) !in UserTags(d.tags, k)
    ensures Chosen(d, env, {Tag(KEY_KNIT_TIMESTAMP, v)}, Window(None, None), k)
    ensures !Answers(d, env, {Tag(KEY_KNIT_TIMESTAMP, v)}, Window(None, None), k)
  {
    ReservedKeys();
    var t := Tag(KEY_KNIT_TIMESTAMP, v);
    if t in Body(d, env, k) {
      var b :| b in BodyTags(d, k) && Render(b, env.formatTime) == t;
      RenderedInBody(d, env, k, b);
    }
    hide Body, UserTags, Interned;
  }

  // ---- order -----------------------------------------------------------------------------------

  /** order by "raw_timestamp" ASC NULLS LAST, "knit_id" */
  predicate Before(timestamps: map<string, int>, a: string, b: string) {
    if a in timestamps && b in timestamps && timestamps[a] != timestamps[b] then timestamps[a] < timestamps[b]
    else if (a in timestamps) != (b in timestamps) then a in timestamps
    else Less(a, b)
  }

  function Order(timestamps: map<string, int>): (string, string) -> bool {
    (a, b) => Before(timestamps, a, b)
  }

  lemma BeforeIsTotalOrder(timestamps: map<string, int>, a: string, b: string, c: string)
    ensures !Before(timestamps, a, a)
    ensures Before(timestamps, a, b) && Before(timestamps, b, c) ==> Before(timestamps, a, c)
    ensures a != b ==> Before(timestamps, a, b) || Before(timestamps, b, a)
  {
    LessIrreflexive(a);
    LessTotal(a, b);
    if Less(a, b) && Less(b, c) {
      LessTransitive(a, b, c);
    }
  }

  lemma OrderIsStrict(timestamps: map<string, int>)
    ensures StrictOrder(Order(timestamps))
    ensures forall a, b :: a != b ==> Order(timestamps)(a, b) || Order(timestamps)(b, a)
  {
    var less := Order(timestamps);
    forall a: string, b: string, c: string
      ensures !less(a, a)
      ensures less(a, b) && less(b, c) ==> less(a, c)
      ensures a != b ==> less(a, b) || less(b, a)
      ensures less(a, c) ==> less(a, b) || less(b, c)
    {
      hide Before;
      BeforeIsTotalOrder(timestamps, a, b, c);
      BeforeIsTotalOrder(timestamps, b, c, a);
      BeforeIsTotalOrder(timestamps, c, b, a);
      BeforeIsTotalOrder(timestamps, b, a, c);
    }
  }

  /** Data with a timestamp come first, the oldest before the others, and ids decide what is left. */
  ghost predicate OldestFirst(timestamps: map<string, int>, r: seq<string>) {
    forall i, j :: 0 <= i < j < |r| ==>
      && (r[j] in timestamps ==> r[i] in timestamps && timestamps[r[i]] <= timestamps[r[j]])
      && ((r[i] in timestamps <==> r[j] in timestamps) && (r[i] in timestamps ==> timestamps[r[i]] == timestamps[r[j]]) ==>
            Less(r[i], r[j]))
  }

  lemma InOrderIsOldestFirst(timestamps: map<string, int>, r: seq<string>)
    requires InOrder(Order(timestamps), r) && forall i, j :: 0 <= i < j < |r| ==> r[i] != r[j]
    ensures OldestFirst(timestamps, r)
  {
    forall i, j | 0 <= i < j < |r|
      ensures Before(timestamps, r[i], r[j])
    {
      assert !Order(timestamps)(r[j], r[i]);
      BeforeIsTotalOrder(timestamps, r[i], r[j], r[i]);
    }
  }

  /** The time the query asks for, once it parses. */
  function AskedTime(q: FindQuery, env: Env): Option<int> {
    match q.timestamp
    case None => None
    case Some(text) => env.parseTime(text)
  }

  /** `find`: a timestamp that cannot be parsed is an error. */
  method FindIds(d: Tables, env: Env, q: FindQuery, w: Window) returns (r: Result<seq<string>, string>)
    requires SchemaKnown(d, env)
    ensures r.Err? <==> q.timestamp.Some? && env.parseTime(q.timestamp.value).None?
    ensures r.Ok? ==> multiset(r.value) == multiset(Selected(d, env, q, AskedTime(q, env), w))
    ensures r.Ok? ==> InOrder(Order(d.knitTimestamp), r.value)
  {
    var time := None;
    if q.timestamp.Some? {
      time := env.parseTime(q.timestamp.value);
      if time.None? {
        return Err(q.timestamp.value);
      }
    }
    var rows := Rows(Selected(d, env, q, time, w));
    OrderIsStrict(d.knitTimestamp);
    var sorted := Sorted(rows, Order(d.knitTimestamp));
    return Ok(sorted);
  }

  predicate Unparsable(ts: set<Tag>, env: Env) {
    exists t :: t in ts && t.key == KEY_KNIT_TIMESTAMP && env.parseTime(t.value).None?
  }

  /** Main result: a query is an error exactly if it asks for a time that cannot be parsed and is not
      contradictory; otherwise each data that is chosen is found, once, timestamped data first and oldest
      first, ties by id. */
  method Find(d: Tables, env: Env, tags: seq<Tag>, w: Window, trim: string -> string) returns (r: Result<seq<string>, string>)
    requires SchemaOk(d) && SchemaKnown(d, env)
    ensures var ts := set t | t in tags :: Tag(trim(t.key), trim(t.value));
      && (r.Err? <==> !Contradictory(ts) && Unparsable(ts, env))
      && (r.Ok? ==>
            && (forall k :: k in r.value <==> Chosen(d, env, ts, w, k))
            && (forall i, j :: 0 <= i < j < |r.value| ==> r.value[i] != r.value[j])
            && OldestFirst(d.knitTimestamp, r.value))
  {
    hide Contradictory, QueryFor, InOrder, Order;
    var q, ts := MakeDataFindQuery(tags, trim);
    if q.None? {
      return Ok([]);
    }
    QueryForExcludesContradiction(ts, q.value);
    OneTimeAsked(ts, q.value, env);
    r := FindIds(d, env, q.value, w);
    if r.Ok? {
      FoundMeans(d, env, ts, q.value, w, r.value);
      InOrderIsOldestFirst(d.knitTimestamp, r.value);
    }
  }

  lemma OneTimeAsked(ts: set<Tag>, q: FindQuery, env: Env)
    requires QueryFor(ts, q)
    ensures Unparsable(ts, env) <==> q.timestamp.Some? && env.parseTime(q.timestamp.value).None?
  {
    hide UserTagsFor, TransientTagsFor;
    if Unparsable(ts, env) {
      var t :| t in ts && t.key == KEY_KNIT_TIMESTAMP && env.parseTime(t.value).None?;
      assert t == Tag(KEY_KNIT_TIMESTAMP, t.value);
    }
    if q.timestamp.Some? {
      assert Tag(KEY_KNIT_TIMESTAMP, q.timestamp.value) in ts;
    }
  }

  lemma FoundMeans(d: Tables, env: Env, ts: set<Tag>, q: FindQuery, w: Window, found: seq<string>)
    requires SchemaOk(d) && SchemaKnown(d, env) && QueryFor(ts, q)
    requires q.timestamp.Some? ==> env.parseTime(q.timestamp.value).Some?
    requires multiset(found) == multiset(Selected(d, env, q, AskedTime(q, env), w))
    ensures forall k :: k in found <==> Chosen(d, env, ts, w, k)
    ensures forall i, j :: 0 <= i < j < |found| ==> found[i] != found[j]
  {
    hide QueryFor, Selected, Chosen;
    forall k
      ensures k in found <==> Chosen(d, env, ts, w, k)
    {
      assert k in found <==> k in multiset(found);
      SelectedMeans(d, env, ts, q, w, k);
    }
    DistinctRows(found, Selected(d, env, q, AskedTime(q, env), w));
  }

  lemma DistinctRows(r: seq<string>, s: set<string>)
    requires multiset(r) == multiset(s)
    ensures forall i, j :: 0 <= i < j < |r| ==> r[i] != r[j]
  {
    forall i, j | 0 <= i < j < |r|
      ensures r[i] != r[j]
    {
      assert r == r[..i] + [r[i]] + r[i + 1..j] + [r[j]] + r[j + 1..];
      assert multiset(s)[r[i]] <= 1;
    }
  }
}
