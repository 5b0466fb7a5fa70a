/** The upstream and downstream queries of `GetPlan` in pkg/domain/internal/db/postgres/plan.go. */
module PlanQueries {
  import opened CountingJoins
  import opened TagStore
  import opened Nomination

  predicate HasSystemTag(d: Tables, i: int) {
    i in d.knitidInput || i in d.timestampInput
  }

  /** Inputs to the outputs upstream of them. */
  function UpstreamMatch(d: Tables, inputs: set<int>): set<(int, int)> {
    var iTags := UpstreamInputRows(d, inputs);
    MatchedPairs(iTags, UpstreamOutputRows(d, iTags))
  }

  /** "i_tags" of the upstream query. */
  function UpstreamInputRows(d: Tables, inputs: set<int>): set<(int, int)> {
    set r | r in d.tags.tagInput && r.1 in inputs && !HasSystemTag(d, r.1)
  }

  /** "o_tags" of the upstream query: rows of the outputs with some tag that the inputs have. */
  function UpstreamOutputRows(d: Tables, iTags: set<(int, int)>): set<(int, int)> {
    var tagIds := set r | r in iTags :: r.0;
    set r | r in d.tags.tagOutput && r.0 in tagIds
  }

  /** "o_tags" of the downstream query. */
  function OutputRows(d: Tables, outputs: set<int>): set<(int, int)> {
    set r | r in d.tags.tagOutput && r.1 in outputs
  }

  /** "i_tags" of the downstream query: all rows of the inputs that share some tag with the outputs. */
  function RelatedRows(d: Tables, oTags: set<(int, int)>): set<(int, int)> {
    var tagIds := set r | r in oTags :: r.0;
    var related := set r | r in d.tags.tagInput && r.0 in tagIds :: r.1;
    set r | r in d.tags.tagInput && r.1 in related && !HasSystemTag(d, r.1)
  }

  /** Outputs to the inputs downstream of them, as (input id, output id) pairs again. */
  function DownstreamMatch(d: Tables, outputs: set<int>): set<(int, int)> {
    var oTags := OutputRows(d, outputs);
    MatchedPairs(RelatedRows(d, oTags), oTags)
  }

  /** What both queries mean: whatever carries the tags of the output satisfies the input. */
  ghost predicate Feeds(d: Tables, i: int, o: int)
    requires Interned(d.tags)
  {
    !HasSystemTag(d, i) && InputTags(d.tags, i) != {} && InputTags(d.tags, i) <= OutputTags(d.tags, o)
  }

  /** On interned tags, inclusion of rows is inclusion of tags. */
  lemma RowsIffOutputTags(t: TagTables, i: int, o: int)
    requires Interned(t)
    ensures LeftRows(t.tagInput, i) != {} <==> InputTags(t, i) != {}
    ensures (forall x :: (x, i) in t.tagInput ==> (x, o) in t.tagOutput) <==> InputTags(t, i) <= OutputTags(t, o)
  {
    if LeftRows(t.tagInput, i) != {} {
      var r :| r in LeftRows(t.tagInput, i);
      assert TagOf(t, r.0) in InputTags(t, i);
    }
    if InputTags(t, i) != {} {
      var x :| x in InputTags(t, i);
      var r :| r in t.tagInput && r.1 == i && TagOf(t, r.0) == x;
      assert r in LeftRows(t.tagInput, i);
    }
    if forall x :: (x, i) in t.tagInput ==> (x, o) in t.tagOutput {
      forall x | x in InputTags(t, i)
        ensures x in OutputTags(t, o)
      {
        var r :| r in t.tagInput && r.1 == i && TagOf(t, r.0) == x;
        assert (r.0, i) == r && (r.0, o) in t.tagOutput;
      }
    }
    if InputTags(t, i) <= OutputTags(t, o) {
      forall x | (x, i) in t.tagInput
        ensures (x, o) in t.tagOutput
      {
        assert TagOf(t, x) in InputTags(t, i);
        var q :| q in t.tagOutput && q.1 == o && TagOf(t, q.0) == TagOf(t, x);
        InternedInjective(t, q.0, x);
        assert q == (x, o);
      }
    }
  }

  /** Some row, and all rows, of an input are on the right. */
  ghost predicate AllJoin(left: set<(int, int)>, right: set<(int, int)>, i: int, o: int) {
    (exists x :: (x, i) in left) && forall x :: (x, i) in left ==> (x, o) in right
  }

  lemma LeftRowsExist(left: set<(int, int)>, i: int)
    ensures LeftRows(left, i) != {} <==> exists x :: (x, i) in left
  {
    if LeftRows(left, i) != {} {
      var r :| r in LeftRows(left, i);
      assert (r.0, i) in left;
    }
    if exists x :: (x, i) in left {
      var x :| (x, i) in left;
      assert (x, i) in LeftRows(left, i);
    }
  }

  lemma UpstreamRowsMean(d: Tables, inputs: set<int>, i: int, o: int)
    ensures var iTags := UpstreamInputRows(d, inputs);
      AllJoin(iTags, UpstreamOutputRows(d, iTags), i, o)
      <==> i in inputs && !HasSystemTag(d, i) && AllJoin(d.tags.tagInput, d.tags.tagOutput, i, o)
  {
    var iTags := UpstreamInputRows(d, inputs);
    var tagIds := set r | r in iTags :: r.0;
    assert forall x :: (x, i) in iTags <==> (x, i) in d.tags.tagInput && i in inputs && !HasSystemTag(d, i);
    assert forall x :: (x, i) in iTags ==> x in tagIds;
  }

  lemma UpstreamMeans(d: Tables, inputs: set<int>, i: int, o: int)
    requires Interned(d.tags)
    ensures (i, o) in UpstreamMatch(d, inputs) <==> i in inputs && Feeds(d, i, o)
  {
    hide InputTags, OutputTags, MatchedPairs, Interned, LeftRows, UpstreamInputRows, UpstreamOutputRows;
    var iTags := UpstreamInputRows(d, inputs);
    var oTags := UpstreamOutputRows(d, iTags);
    MatchedPairsMeans(iTags, oTags, i, o);
    RowsIffOutputTags(d.tags, i, o);
    LeftRowsExist(iTags, i);
    LeftRowsExist(d.tags.tagInput, i);
    UpstreamRowsMean(d, inputs, i, o);
    assert (i, o) in UpstreamMatch(d, inputs) <==> AllJoin(iTags, oTags, i, o);
    assert Feeds(d, i, o) <==> !HasSystemTag(d, i) && AllJoin(d.tags.tagInput, d.tags.tagOutput, i, o);
  }

  lemma RelatedRowsMean(d: Tables, oTags: set<(int, int)>, i: int, o: int)
    ensures forall x :: (x, i) in RelatedRows(d, oTags) ==> (x, i) in d.tags.tagInput && !HasSystemTag(d, i)
    ensures !HasSystemTag(d, i) && AllJoin(d.tags.tagInput, oTags, i, o) ==> AllJoin(RelatedRows(d, oTags), oTags, i, o)
    ensures AllJoin(RelatedRows(d, oTags), oTags, i, o) ==> AllJoin(d.tags.tagInput, oTags, i, o)
  {
    var tagIds := set r | r in oTags :: r.0;
    var related := set r | r in d.tags.tagInput && r.0 in tagIds :: r.1;
    assert forall x :: (x, i) in RelatedRows(d, oTags) ==> i in related;
    if !HasSystemTag(d, i) && i in related {
      assert forall x :: (x, i) in d.tags.tagInput ==> (x, i) in RelatedRows(d, oTags);
    }
    if AllJoin(d.tags.tagInput, oTags, i, o) {
      var x :| (x, i) in d.tags.tagInput;
      assert (x, o) in oTags;
      assert x in tagIds;
      assert i in related;
    }
  }

  lemma OutputRowsMean(d: Tables, outputs: set<int>, i: int, o: int)
    ensures AllJoin(d.tags.tagInput, OutputRows(d, outputs), i, o) <==> o in outputs && AllJoin(d.tags.tagInput, d.tags.tagOutput, i, o)
  {
  }

  lemma DownstreamMeans(d: Tables, outputs: set<int>, i: int, o: int)
    requires Interned(d.tags)
    ensures (i, o) in DownstreamMatch(d, outputs) <==> o in outputs && Feeds(d, i, o)
  {
    hide InputTags, OutputTags, MatchedPairs, Interned, LeftRows, RelatedRows, OutputRows;
    var oTags := OutputRows(d, outputs);
    var iTags := RelatedRows(d, oTags);
    MatchedPairsMeans(iTags, oTags, i, o);
    RowsIffOutputTags(d.tags, i, o);
    LeftRowsExist(iTags, i);
    LeftRowsExist(d.tags.tagInput, i);
    RelatedRowsMean(d, oTags, i, o);
    OutputRowsMean(d, outputs, i, o);
    assert (i, o) in DownstreamMatch(d, outputs) <==> AllJoin(iTags, oTags, i, o);
    assert Feeds(d, i, o) <==> !HasSystemTag(d, i) && AllJoin(d.tags.tagInput, d.tags.tagOutput, i, o);
  }

  ghost predicate Groups(m: map<int, seq<int>>, rows: set<(int, int)>) {
    && (forall a, b :: (a, b) in rows <==> a in m && b in m[a])
    && (forall a, i, j :: a in m && 0 <= i < j < |m[a]| ==> m[a][i] != m[a][j])
  }

  /** The loop over the rows of a result, in any order. */
  method Grouped(rows: set<(int, int)>) returns (m: map<int, seq<int>>)
    ensures Groups(m, rows)
  {
    m := map[];
    var remaining := rows;
    while remaining != {}
      invariant remaining <= rows && Groups(m, rows - remaining)
      decreases remaining
    {
      var row :| row in remaining;
      remaining := remaining - {row};
      m := m[row.0 := (if row.0 in m then m[row.0] else []) + [row.1]];
    }
  }

  /** The upstream outputs that `GetPlan` lists for inputs: each once. */
  method Upstreams(d: Tables, inputs: set<int>) returns (m: map<int, seq<int>>)
    requires Interned(d.tags)
    ensures forall i, o :: i in m && o in m[i] <==> i in inputs && Feeds(d, i, o)
    ensures forall i, j, k :: i in m && 0 <= j < k < |m[i]| ==> m[i][j] != m[i][k]
  {
    m := Grouped(UpstreamMatch(d, inputs));
    forall i, o
      ensures i in m && o in m[i] <==> i in inputs && Feeds(d, i, o)
    {
      hide UpstreamMatch, Feeds, Interned;
      UpstreamMeans(d, inputs, i, o);
    }
  }

  /** The downstream inputs that `GetPlan` lists for outputs: each once. */
  method Downstreams(d: Tables, outputs: set<int>) returns (m: map<int, seq<int>>)
    requires Interned(d.tags)
    ensures forall o, i :: o in m && i in m[o] <==> o in outputs && Feeds(d, i, o)
    ensures forall o, j, k :: o in m && 0 <= j < k < |m[o]| ==> m[o][j] != m[o][k]
  {
    var rows := set r | r in DownstreamMatch(d, outputs) :: (r.1, r.0);
    m := Grouped(rows);
    forall o, i
      ensures o in m && i in m[o] <==> o in outputs && Feeds(d, i, o)
    {
      hide DownstreamMatch, Feeds, Interned;
      DownstreamMeans(d, outputs, i, o);
      assert (o, i) in rows <==> (i, o) in DownstreamMatch(d, outputs);
    }
  }

  /** The two queries are converse: an output is listed upstream of an input exactly when the input
      is listed downstream of the output. Plan details are mirrored because of this. */
  lemma QueriesAreConverse(d: Tables, inputs: set<int>, outputs: set<int>, i: int, o: int)
    requires Interned(d.tags) && i in inputs && o in outputs
    ensures (i, o) in UpstreamMatch(d, inputs) <==> (i, o) in DownstreamMatch(d, outputs)
  {
    UpstreamMeans(d, inputs, i, o);
    DownstreamMeans(d, outputs, i, o);
  }

  /** The promise behind the plan graph: a done data that carries all tags of an output is nominated
      for every input listed downstream of that output. */
  lemma DownstreamIsNominated(d: Tables, outputs: set<int>, i: int, o: int, k: string)
    requires SchemaOk(d) && Exact(d) && i in d.input && IsDone(d, k)
    requires (i, o) in DownstreamMatch(d, outputs) && OutputTags(d.tags, o) <= UserTags(d.tags, k)
    ensures (k, i) in d.nomination
  {
    DownstreamMeans(d, outputs, i, o);
    RequiredWithinBody(d, i, k);
    RequiresSomething(d, i);
    hide InputTags, OutputTags, UserTags, RequiredTags, BodyTags, DownstreamMatch;
    ExactAt(d, k, i);
  }
}
