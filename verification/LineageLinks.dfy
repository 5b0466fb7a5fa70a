/** What the lineage command of cmd/knit/subcommands/data/lineage/command.go shows, told by the links that
    runs declare and by nothing else of its search. */
module LineageLinks {
  import opened Results
  import opened KnitGraph
  import opened LazyEdges
  import opened Reachability
  import opened Depths
  import opened Lineage
  import T = LineageTask

  /** A link leads from the data to the run. */
  ghost predicate Takes(run: RunDetail, k: string) {
    exists e :: e in RunLinks(run) && e.fromId == DataNodeId(k)
  }

  /** A link, that of an output or of the log, leads from the run to the data. */
  ghost predicate Makes(run: RunDetail, k: string) {
    exists e :: e in RunLinks(run) && e.toId == DataNodeId(k)
  }

  /** One run makes what the other one takes. */
  ghost predicate Feeds(u: Universe, maker: string, taker: string) {
    maker in u.runs && taker in u.runs && exists k :: k in u.data && Makes(u.runs[maker], k) && Takes(u.runs[taker], k)
  }

  ghost function LinkedRuns(u: Universe, dir: Direction): Adjacency {
    map r | r in u.runs :: set s | s in u.runs && if dir == Upstream then Feeds(u, s, r) else Feeds(u, r, s)
  }

  /** The run that makes the data, or those that take it. */
  ghost function RunsAt(u: Universe, dir: Direction, k: string): set<string> {
    set s | s in u.runs && if dir == Upstream then Makes(u.runs[s], k) else Takes(u.runs[s], k)
  }

  /** The runs up to `depth` links away from the data, counted in runs. */
  ghost function LinkedWithin(u: Universe, dir: Direction, root: string, depth: Depth): set<string> {
    var adj, start := LinkedRuns(u, dir), RunsAt(u, dir, root);
    if depth.infinity then set r | r in u.runs && InSomeDepth(adj, start, {}, r) else Within(adj, start, {}, depth.n)
  }

  // ---- links and what the search goes by ---------------------------------------------------------

  lemma TakesIsInput(run: RunDetail, k: string)
    ensures Takes(run, k) <==> k in NextData(Upstream, run)
  {
    if Takes(run, k) {
      var e :| e in RunLinks(run) && e.fromId == DataNodeId(k);
      T.LinkedInput(run, e);
    }
    if k in NextData(Upstream, run) {
      var a :| a in run.inputs && a.knitId == k;
      var i :| 0 <= i < |run.inputs| && run.inputs[i] == a;
      assert InputLinks(run.runId, run.inputs)[i] in RunLinks(run);
    }
  }

  lemma MakesIsOutput(run: RunDetail, k: string)
    ensures Makes(run, k) <==> k in NextData(Downstream, run)
  {
    if Makes(run, k) {
      var e :| e in RunLinks(run) && e.toId == DataNodeId(k);
      T.LinkedOutput(run, e);
    }
    if k in KnitIds(run.outputs) {
      var a :| a in run.outputs && a.knitId == k;
      var i :| 0 <= i < |run.outputs| && run.outputs[i] == a;
      assert OutputLinks(run.runId, run.outputs)[i] in RunLinks(run);
    }
    if run.log == Some(k) {
      assert Edge(RunNodeId(run.runId), DataNodeId(k), "(log)") in RunLinks(run);
    }
  }

  lemma SharedLink(u: Universe, e: Edge)
    requires Mirrored(u) && IsLink(e) && KnitOf(e) in u.data && RunOf(e) in u.runs && e in RunLinks(u.runs[RunOf(e)])
    ensures e in DataLinks(u.data[KnitOf(e)])
  {
    assert MirroredAt(u, e);
    assert multiset(RunLinks(u.runs[RunOf(e)]))[e] > 0;
  }

  lemma MakerIsUpstream(u: Universe, k: string, s: string)
    requires Mirrored(u) && k in u.data && s in u.runs && Makes(u.runs[s], k)
    ensures s == u.data[k].upstream.runId
  {
    var e :| e in RunLinks(u.runs[s]) && e.toId == DataNodeId(k);
    assert e.fromId == RunNodeId(s);
    hide RunLinks;
    SharedLink(u, e);
  }

  lemma TakerIsDownstream(u: Universe, k: string, s: string)
    requires Mirrored(u) && k in u.data && s in u.runs && Takes(u.runs[s], k)
    ensures s in NextRuns(Downstream, u.data[k])
  {
    var e :| e in RunLinks(u.runs[s]) && e.fromId == DataNodeId(k);
    assert e.toId == RunNodeId(s);
    hide RunLinks;
    SharedLink(u, e);
    var d := u.data[k];
    assert e in DownLinks(k, d.downstreams);
    var i :| 0 <= i < |d.downstreams| && DownLinks(k, d.downstreams)[i] == e;
    assert d.downstreams[i] in d.downstreams;
  }

  /** From a data, the search goes to the run that makes it, or to those that take it. */
  lemma NextRunsAreLinked(u: Universe, dir: Direction, k: string)
    requires Mirrored(u) && Closed(u) && T.Sourced(u) && k in u.data
    ensures NextRuns(dir, u.data[k]) == RunsAt(u, dir, k)
  {
    assert NextRuns(dir, u.data[k]) <= u.runs.Keys;
    hide Mirrored, Closed, T.Sourced, Makes, Takes;
    if dir == Upstream {
      T.UpstreamRunMakes(u, k);
      MakesIsOutput(u.runs[u.data[k].upstream.runId], k);
    }
    hide NextRuns;
    forall s | s in u.runs
      ensures s in NextRuns(dir, u.data[k]) <==> s in RunsAt(u, dir, k)
    {
      LinkedAt(u, dir, k, s);
    }
  }

  lemma LinkedAt(u: Universe, dir: Direction, k: string, s: string)
    requires Mirrored(u) && Closed(u) && T.Sourced(u) && k in u.data && s in u.runs
    ensures s in NextRuns(dir, u.data[k]) <==> s in RunsAt(u, dir, k)
  {
    match dir
    case Upstream =>
      T.UpstreamRunMakes(u, k);
      MakesIsOutput(u.runs[u.data[k].upstream.runId], k);
      if Makes(u.runs[s], k) {
        MakerIsUpstream(u, k, s);
      }
    case Downstream =>
      if s in NextRuns(Downstream, u.data[k]) {
        T.DownstreamRunTakes(u, k, s);
        TakesIsInput(u.runs[s], k);
      }
      if Takes(u.runs[s], k) {
        TakerIsDownstream(u, k, s);
      }
  }

  /** From a run, the search goes on to the runs that make what it takes, all of them, or that take what it
      makes. */
  lemma HopsAreLinks(u: Universe, dir: Direction, r: string, s: string)
    requires Mirrored(u) && Closed(u) && T.Sourced(u) && r in u.runs
    ensures s in RunGraph(u, dir)[r] <==> s in LinkedRuns(u, dir)[r]
  {
    hide Mirrored, T.Sourced, Makes, Takes, NextRuns, NextData;
    forall k | k in NextData(dir, u.runs[r])
      ensures k in u.data
    {
      TouchedByNext(dir, u.runs[r], k);
    }
    forall k
      ensures k in NextData(dir, u.runs[r]) <==> if dir == Upstream then Takes(u.runs[r], k) else Makes(u.runs[r], k)
      ensures k in u.data ==> NextRuns(dir, u.data[k]) == RunsAt(u, dir, k)
    {
      TakesIsInput(u.runs[r], k);
      MakesIsOutput(u.runs[r], k);
      if k in u.data {
        NextRunsAreLinked(u, dir, k);
      }
    }
    if s in RunGraph(u, dir)[r] {
      var k :| k in NextData(dir, u.runs[r]) && k in u.data && s in NextRuns(dir, u.data[k]);
      assert s in RunsAt(u, dir, k);
    }
    if s in LinkedRuns(u, dir)[r] {
      var k :| k in u.data && if dir == Upstream then Makes(u.runs[s], k) && Takes(u.runs[r], k) else Makes(u.runs[r], k) && Takes(u.runs[s], k);
      assert s in RunsAt(u, dir, k);
    }
  }

  lemma TouchedByNext(dir: Direction, run: RunDetail, k: string)
    requires k in NextData(dir, run)
    ensures k in Touch(run)
  {
  }

  lemma RunGraphIsLinked(u: Universe, dir: Direction)
    requires Mirrored(u) && Closed(u) && T.Sourced(u)
    ensures RunGraph(u, dir) == LinkedRuns(u, dir)
  {
    hide Mirrored, Closed, T.Sourced, RunsOf, NextData, Feeds;
    forall r | r in u.runs
      ensures RunGraph(u, dir)[r] == LinkedRuns(u, dir)[r]
    {
      forall s
        ensures s in RunGraph(u, dir)[r] <==> s in LinkedRuns(u, dir)[r]
      {
        HopsAreLinks(u, dir, r, s);
      }
    }
  }

  /** Main result: the two directions of the search are converse. */
  lemma DirectionsAreConverse(u: Universe, r: string, s: string)
    requires Mirrored(u) && Closed(u) && T.Sourced(u) && r in u.runs && s in u.runs
    ensures s in RunGraph(u, Upstream)[r] <==> r in RunGraph(u, Downstream)[s]
    ensures s in RunGraph(u, Upstream)[r] <==> Feeds(u, s, r)
  {
    hide Mirrored, Closed, T.Sourced, RunGraph, Feeds;
    HopsAreLinks(u, Upstream, r, s);
    HopsAreLinks(u, Downstream, s, r);
  }

  lemma WithinIsLinked(u: Universe, dir: Direction, root: string, depth: Depth)
    requires Mirrored(u) && Closed(u) && T.Sourced(u) && root in u.data
    ensures RunsWithin(u, dir, root, {}, depth) == LinkedWithin(u, dir, root, depth)
  {
    hide Mirrored, Closed, T.Sourced, RunGraph, LinkedRuns, Within;
    RunGraphIsLinked(u, dir);
    NextRunsAreLinked(u, dir, root);
    hide NextRuns, RunsAt;
    assert RunsOf(u, dir, {root}) == NextRuns(dir, u.data[root]);
  }

  lemma TouchIsLinked(run: RunDetail, k: string)
    ensures k in Touch(run) <==> Takes(run, k) || Makes(run, k)
  {
    hide Takes, Makes;
    TakesIsInput(run, k);
    MakesIsOutput(run, k);
  }

  /** Main result on the lineage command, told by links: the runs are those that are linked to the root upwards
      and downwards within the depth, the data are the root and every data with a link to one of these runs. */
  lemma LineageIsLinked(u: Universe, root: string, up: bool, down: bool, depth: Depth, g: Graph)
    requires Mirrored(u) && Closed(u) && T.Sourced(u) && T.Acyclic(u) && root in u.data
    requires Built(u, g) && T.Shows(u, root, up, down, depth, g)
    ensures g.Runs() == (if up then LinkedWithin(u, Upstream, root, depth) else {})
                        + if down then LinkedWithin(u, Downstream, root, depth) else {}
    ensures forall k :: k in g.Data() <==>
      k == root || exists r :: r in g.Runs() && r in u.runs && (Takes(u.runs[r], k) || Makes(u.runs[r], k))
  {
    hide Mirrored, Closed, T.Sourced, T.Acyclic, Built, T.Shows, Inv, RunsWithin, LinkedWithin, Touch, Takes, Makes;
    T.LineageIsInducedSubgraph(u, root, up, down, depth, g);
    WithinIsLinked(u, Upstream, root, depth);
    WithinIsLinked(u, Downstream, root, depth);
    forall r, k | r in u.runs
      ensures k in Touch(u.runs[r]) <==> Takes(u.runs[r], k) || Makes(u.runs[r], k)
    {
      TouchIsLinked(u.runs[r], k);
    }
  }
}
