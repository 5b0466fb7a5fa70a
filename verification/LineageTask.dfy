/** The lineage command as a whole: upstream, then downstream, on one graph. */
module LineageTask {
  import opened Results
  import opened KnitGraph
  import opened LazyEdges
  import opened Reachability
  import opened Depths
  import opened Lineage

  /** The runs and data that the command draws, told from the universe alone. The downstream pass
      runs on the graph that the upstream pass left, so it does not enter the runs found there. */
  ghost predicate Shows(u: Universe, root: string, up: bool, down: bool, depth: Depth, g: Graph) {
    var ancestors := if up then RunsWithin(u, Upstream, root, {}, depth) else {};
    var descendants := if down then RunsWithin(u, Downstream, root, ancestors, depth) else {};
    && g.Runs() == ancestors + descendants
    && g.Data() == {root} + Touched(u, g.Runs())
    && Emphasized(g) == {root}
  }

  lemma FirstPass(u: Universe, dir: Direction, root: string, depth: Depth, g: Graph)
    requires Searched(u, dir, root, depth, EmptyGraph(), g) && !depth.IsZero()
    ensures Shows(u, root, dir == Upstream, dir == Downstream, depth, g)
  {
    assert EmptyGraph().Runs() == {} && EmptyGraph().Data() == {} && Emphasized(EmptyGraph()) == {};
    assert g.Runs() - EmptyGraph().Runs() == g.Runs();
  }

  lemma SecondPass(u: Universe, root: string, depth: Depth, g1: Graph, g2: Graph)
    requires Shows(u, root, true, false, depth, g1) && !depth.IsZero()
    requires Searched(u, Downstream, root, depth, g1, g2)
    ensures Shows(u, root, true, true, depth, g2)
  {
    hide RunsWithin, Touched, Emphasized;
    assert g1.Runs() == RunsWithin(u, Upstream, root, {}, depth);
    assert root in g1.Data();
    assert g2.Runs() == g1.Runs() + (g2.Runs() - g1.Runs());
    TouchedUnion(u, g1.Runs(), g2.Runs() - g1.Runs());
  }

  method Task(u: Universe, upstream: bool, downstream: bool, numbers: Depth, knitId: string)
    returns (r: Result<DirectedGraph, TraceError>)
    requires Keyed(u)
    ensures numbers.IsZero() ==> r == Err(Usage)
    ensures !numbers.IsZero() && Closed(u) && knitId in u.data ==> r.Ok?
    ensures r.Ok? ==> fresh(r.value) && Built(u, r.value.View())
    ensures r.Ok? ==> Shows(u, knitId, upstream || !downstream, downstream || !upstream, numbers, r.value.View())
  {
    hide Built, Closed, Searched, Shows;
    if numbers.IsZero() {
      return Err(Usage);
    }
    var g := new DirectedGraph();
    BuiltEmpty(u);
    var shouldUpstream, shouldDownstream := upstream, downstream;
    if !shouldUpstream && !shouldDownstream {
      shouldUpstream, shouldDownstream := true, true;
    }
    if shouldUpstream {
      var traced := Trace(Upstream, u, g, knitId, numbers);
      if traced.Err? {
        return Err(traced.error);
      }
      FirstPass(u, Upstream, knitId, numbers, g.View());
    }
    ghost var between := g.View();
    if shouldDownstream {
      var traced := Trace(Downstream, u, g, knitId, numbers);
      if traced.Err? {
        return Err(traced.error);
      }
      if shouldUpstream {
        SecondPass(u, knitId, numbers, between, g.View());
      } else {
        FirstPass(u, Downstream, knitId, numbers, g.View());
      }
    }
    return Ok(g);
  }

  // ---- acyclic universes -----------------------------------------------------------------------

  /** Every run makes only data of a higher rank than the data it takes. */
  ghost predicate Ranked(u: Universe, rank: map<string, nat>) {
    && u.data.Keys <= rank.Keys
    && forall r, k, p ::
         (r in u.runs && k in KnitIds(u.runs[r].inputs) && p in NextData(Downstream, u.runs[r]) && k in rank && p in rank)
         ==> rank[k] < rank[p]
  }

  ghost predicate Acyclic(u: Universe) {
    exists rank :: Ranked(u, rank)
  }

  /** Every data comes from a mountpoint or from the log of its run. */
  ghost predicate Sourced(u: Universe) {
    forall k :: k in u.data ==> u.data[k].upstream.mountpoint.Some? || u.data[k].upstream.log
  }

  lemma DeclaredLinkIsShared(u: Universe, e: Edge)
    requires Mirrored(u) && IsLink(e) && KnitOf(e) in u.data && RunOf(e) in u.runs
    requires e in DataLinks(u.data[KnitOf(e)])
    ensures e in RunLinks(u.runs[RunOf(e)])
  {
    assert MirroredAt(u, e);
    assert multiset(DataLinks(u.data[KnitOf(e)]))[e] > 0;
  }

  lemma LinkedOutput(run: RunDetail, e: Edge)
    requires e in RunLinks(run) && e.toId.DataNodeId?
    ensures e.toId.knitId in NextData(Downstream, run)
  {
    if e in OutputLinks(run.runId, run.outputs) {
      var i :| 0 <= i < |run.outputs| && OutputLinks(run.runId, run.outputs)[i] == e;
      assert run.outputs[i] in run.outputs;
    }
  }

  lemma LinkedInput(run: RunDetail, e: Edge)
    requires e in RunLinks(run) && e.fromId.DataNodeId?
    ensures e.fromId.knitId in KnitIds(run.inputs)
  {
    assert e in InputLinks(run.runId, run.inputs);
    var j :| 0 <= j < |run.inputs| && InputLinks(run.runId, run.inputs)[j] == e;
    assert run.inputs[j] in run.inputs;
  }

  lemma UpstreamRunMakes(u: Universe, k: string)
    requires Mirrored(u) && Closed(u) && Sourced(u) && k in u.data
    ensures k in NextData(Downstream, u.runs[u.data[k].upstream.runId])
  {
    var d := u.data[k];
    var e := UpLinks(k, d.upstream)[0];
    assert e in UpLinks(k, d.upstream);
    assert d.upstream.runId in NextRuns(Upstream, d);
    hide NextData, NextRuns, RunLinks;
    DeclaredLinkIsShared(u, e);
    LinkedOutput(u.runs[d.upstream.runId], e);
  }

  lemma DownstreamRunTakes(u: Universe, k: string, r: string)
    requires Mirrored(u) && Closed(u) && k in u.data && r in NextRuns(Downstream, u.data[k])
    ensures r in u.runs && k in KnitIds(u.runs[r].inputs)
  {
    var d := u.data[k];
    var i :| 0 <= i < |d.downstreams| && d.downstreams[i].runId == r;
    var e := DownLinks(k, d.downstreams)[i];
    assert e in DownLinks(k, d.downstreams);
    hide NextData, RunLinks;
    DeclaredLinkIsShared(u, e);
    LinkedInput(u.runs[r], e);
  }

  /** Runs that take only data below the root, and runs that take some data at or above it. */
  ghost function Below(u: Universe, rank: map<string, nat>, root: string): set<string>
    requires Ranked(u, rank) && root in u.data && Closed(u)
  {
    set r | r in u.runs && forall k :: k in KnitIds(u.runs[r].inputs) && k in rank ==> rank[k] < rank[root]
  }

  ghost function Above(u: Universe, rank: map<string, nat>, root: string): set<string>
    requires Ranked(u, rank) && root in u.data && Closed(u)
  {
    set r | r in u.runs && exists k :: k in KnitIds(u.runs[r].inputs) && k in rank && rank[k] >= rank[root]
  }

  /** The run that made `k` takes only data of a lower rank. */
  lemma MakerBelow(u: Universe, rank: map<string, nat>, root: string, k: string, s: string)
    requires Mirrored(u) && Closed(u) && Sourced(u) && Ranked(u, rank) && root in u.data
    requires k in u.data && rank[k] <= rank[root] && s in NextRuns(Upstream, u.data[k])
    ensures s in Below(u, rank, root)
  {
    hide Mirrored, Sourced;
    UpstreamRunMakes(u, k);
  }

  /** A run that takes a data at or above the root counts as above. */
  lemma TakerAbove(u: Universe, rank: map<string, nat>, root: string, k: string, s: string)
    requires Mirrored(u) && Closed(u) && Ranked(u, rank) && root in u.data
    requires k in u.data && rank[k] >= rank[root] && s in NextRuns(Downstream, u.data[k])
    ensures s in Above(u, rank, root)
  {
    hide Mirrored;
    DownstreamRunTakes(u, k, s);
  }

  lemma AncestorsBelow(u: Universe, rank: map<string, nat>, root: string, n: nat)
    requires Mirrored(u) && Closed(u) && Sourced(u) && Ranked(u, rank) && root in u.data
    ensures Within(RunGraph(u, Upstream), RunsOf(u, Upstream, {root}), {}, n) <= Below(u, rank, root)
  {
    hide Mirrored, Sourced, Closed;
    var adj, start, good := RunGraph(u, Upstream), RunsOf(u, Upstream, {root}), Below(u, rank, root);
    forall s | s in start
      ensures s in good
    {
      MakerBelow(u, rank, root, root, s);
    }
    forall r, s | r in good && r in adj && s in adj[r]
      ensures s in good
    {
      var k :| k in NextData(Upstream, u.runs[r]) && k in u.data && s in NextRuns(Upstream, u.data[k]);
      assert rank[k] < rank[root];
      MakerBelow(u, rank, root, k, s);
    }
    WithinInduction(adj, start, n, good);
  }

  lemma DescendantsAbove(u: Universe, rank: map<string, nat>, root: string, n: nat)
    requires Mirrored(u) && Closed(u) && Ranked(u, rank) && root in u.data
    ensures Within(RunGraph(u, Downstream), RunsOf(u, Downstream, {root}), {}, n) <= Above(u, rank, root)
  {
    hide Mirrored, Closed;
    var adj, start, good := RunGraph(u, Downstream), RunsOf(u, Downstream, {root}), Above(u, rank, root);
    forall s | s in start
      ensures s in good
    {
      TakerAbove(u, rank, root, root, s);
    }
    forall r, s | r in good && r in adj && s in adj[r]
      ensures s in good
    {
      var p :| p in NextData(Downstream, u.runs[r]) && p in u.data && s in NextRuns(Downstream, u.data[p]);
      var k :| k in KnitIds(u.runs[r].inputs) && k in rank && rank[k] >= rank[root];
      assert rank[k] < rank[p];
      TakerAbove(u, rank, root, p, s);
    }
    WithinInduction(adj, start, n, good);
  }

  lemma AllAncestorsBelow(u: Universe, rank: map<string, nat>, root: string, depth: Depth)
    requires Mirrored(u) && Closed(u) && Sourced(u) && Ranked(u, rank) && root in u.data
    ensures RunsWithin(u, Upstream, root, {}, depth) <= Below(u, rank, root)
  {
    hide Mirrored, Sourced, Closed, Ranked, Below, Within, RunGraph, RunsOf;
    var adj, start := RunGraph(u, Upstream), RunsOf(u, Upstream, {root});
    forall n: nat
      ensures Within(adj, start, {}, n) <= Below(u, rank, root)
    {
      AncestorsBelow(u, rank, root, n);
    }
  }

  lemma BelowIsNotAbove(u: Universe, rank: map<string, nat>, root: string)
    requires Ranked(u, rank) && root in u.data && Closed(u)
    ensures Below(u, rank, root) !! Above(u, rank, root)
  {
  }

  /** Runs that take only data below the root are not in the way downstream. */
  lemma NothingInTheWay(u: Universe, rank: map<string, nat>, root: string, avoid: set<string>, depth: Depth)
    requires Mirrored(u) && Closed(u) && Ranked(u, rank) && root in u.data && avoid <= Below(u, rank, root)
    ensures RunsWithin(u, Downstream, root, avoid, depth) == RunsWithin(u, Downstream, root, {}, depth)
  {
    BelowIsNotAbove(u, rank, root);
    hide Mirrored, Closed, Ranked, Below, Above, Within, RunGraph, RunsOf;
    var adj, start := RunGraph(u, Downstream), RunsOf(u, Downstream, {root});
    forall n: nat
      ensures Within(adj, start, avoid, n) == Within(adj, start, {}, n)
    {
      DescendantsAbove(u, rank, root, n);
      AvoidUnreachable(adj, start, avoid, n);
    }
    assert forall r :: InSomeDepth(adj, start, avoid, r) <==> InSomeDepth(adj, start, {}, r);
  }

  /** In an acyclic universe the upstream pass leaves nothing in the way of the downstream pass. */
  lemma PassesDoNotInterfere(u: Universe, root: string, depth: Depth)
    requires Mirrored(u) && Closed(u) && Sourced(u) && Acyclic(u) && root in u.data
    ensures RunsWithin(u, Downstream, root, RunsWithin(u, Upstream, root, {}, depth), depth)
         == RunsWithin(u, Downstream, root, {}, depth)
  {
    var rank :| Ranked(u, rank);
    hide Mirrored, Closed, Sourced, Ranked, Below, RunsWithin;
    AllAncestorsBelow(u, rank, root, depth);
    NothingInTheWay(u, rank, root, RunsWithin(u, Upstream, root, {}, depth), depth);
  }

  /** Main result on the lineage command: the runs are exactly the ancestors and descendants within
      the depth, the data exactly the root and what these runs touch, and the edges exactly the
      declared links among them, each as often as declared, plus one root edge per input-less run. */
  lemma LineageIsInducedSubgraph(u: Universe, root: string, up: bool, down: bool, depth: Depth, g: Graph)
    requires Mirrored(u) && Closed(u) && Sourced(u) && Acyclic(u) && root in u.data
    requires Built(u, g) && Shows(u, root, up, down, depth, g)
    ensures g.Runs() == (if up then RunsWithin(u, Upstream, root, {}, depth) else {})
                        + if down then RunsWithin(u, Downstream, root, {}, depth) else {}
    ensures g.Data() == {root} + Touched(u, g.Runs())
    ensures Inv(u, g)
  {
    hide Built, Inv, Touched, Emphasized, RunsWithin;
    PassesDoNotInterfere(u, root, depth);
    BuiltInv(u, g);
  }
}
