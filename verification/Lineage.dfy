/** The lineage tracer of cmd/knit/subcommands/data/lineage/command.go: a breadth-first search,
    bounded by a depth or not, that grows one shared graph. */
module Lineage {
  import opened Results
  import opened Sets
  import opened KnitGraph
  import opened LazyEdges
  import opened Reachability
  import opened Depths

  datatype Direction = Upstream | Downstream

  datatype TraceError = DataNotFound(knitId: string) | RunNotFound(runId: string) | Usage

  // ---- one hop ---------------------------------------------------------------------------------

  function KnitIds(as': seq<Assignment>): set<string> {
    set a | a in as' :: a.knitId
  }

  function LogId(log: Option<string>): set<string> {
    if log.Some? then {log.value} else {}
  }

  /** The runs one hop from a data. */
  function NextRuns(dir: Direction, d: DataDetail): set<string> {
    match dir
    case Upstream => {d.upstream.runId}
    case Downstream => set a | a in d.downstreams :: a.runId
  }

  /** The data from which the search goes on after visiting a run. */
  function NextData(dir: Direction, r: RunDetail): set<string> {
    match dir
    case Upstream => KnitIds(r.inputs)
    case Downstream => KnitIds(r.outputs) + LogId(r.log)
  }

  /** Every data a run takes or makes. */
  function Touch(r: RunDetail): set<string> {
    KnitIds(r.inputs) + KnitIds(r.outputs) + LogId(r.log)
  }

  ghost function RunsOf(u: Universe, dir: Direction, ids: set<string>): set<string> {
    set k, r | k in ids && k in u.data && r in NextRuns(dir, u.data[k]) :: r
  }

  ghost function DataOf(u: Universe, dir: Direction, runs: set<string>): set<string> {
    set r, k | r in runs && r in u.runs && k in NextData(dir, u.runs[r]) :: k
  }

  ghost function Touched(u: Universe, runs: set<string>): set<string> {
    set r, k | r in runs && r in u.runs && k in Touch(u.runs[r]) :: k
  }

  /** Every reference in a detail leads to something the API can answer. */
  ghost predicate Closed(u: Universe) {
    && (forall k :: k in u.data ==> NextRuns(Upstream, u.data[k]) <= u.runs.Keys && NextRuns(Downstream, u.data[k]) <= u.runs.Keys)
    && (forall r :: r in u.runs ==> Touch(u.runs[r]) <= u.data.Keys)
  }

  // ---- what the tracing of a set of data leaves behind ------------------------------------------

  ghost function Emphasized(g: Graph): set<string> {
    set k | k in g.dataNodes.entries && g.dataNodes.entries[k].emphasize
  }

  /** `g` has grown from `g0` by the data `ids`, the runs `done` (where they were missing), and all
      that these new runs touch; `next` is where the search goes on. */
  ghost predicate GrewBy(u: Universe, dir: Direction, ids: set<string>, done: set<string>, g0: Graph, g: Graph, next: set<string>) {
    && g.Runs() == g0.Runs() + done
    && g.Data() == g0.Data() + ids + Touched(u, g.Runs() - g0.Runs())
    && next == DataOf(u, dir, g.Runs() - g0.Runs())
  }

  ghost predicate Expanded(u: Universe, dir: Direction, ids: set<string>, g0: Graph, g: Graph, next: set<string>) {
    && ids <= u.data.Keys
    && GrewBy(u, dir, ids, RunsOf(u, dir, ids), g0, g, next)
  }

  lemma TouchedUnion(u: Universe, a: set<string>, b: set<string>)
    ensures Touched(u, a + b) == Touched(u, a) + Touched(u, b)
  {
  }

  lemma DataOfUnion(u: Universe, dir: Direction, a: set<string>, b: set<string>)
    ensures DataOf(u, dir, a + b) == DataOf(u, dir, a) + DataOf(u, dir, b)
  {
  }

  lemma RunsOfUnion(u: Universe, dir: Direction, a: set<string>, b: set<string>)
    ensures RunsOf(u, dir, a + b) == RunsOf(u, dir, a) + RunsOf(u, dir, b)
  {
  }

  lemma SingleRun(u: Universe, dir: Direction, r: string)
    requires r in u.runs
    ensures Touched(u, {r}) == Touch(u.runs[r]) && DataOf(u, dir, {r}) == NextData(dir, u.runs[r])
  {
  }

  lemma GrewByRun(u: Universe, dir: Direction, ids: set<string>, done: set<string>, g0: Graph, g: Graph, next: set<string>,
                   r: string, g': Graph)
    requires GrewBy(u, dir, ids, done, g0, g, next)
    requires r in u.runs && !g.HasRun(r)
    requires g'.Runs() == g.Runs() + {r} && g'.Data() == g.Data() + Touch(u.runs[r])
    ensures GrewBy(u, dir, ids, done + {r}, g0, g', next + NextData(dir, u.runs[r]))
  {
    var before := g.Runs() - g0.Runs();
    assert g'.Runs() - g0.Runs() == before + {r};
    SingleRun(u, dir, r);
    TouchedUnion(u, before, {r});
    DataOfUnion(u, dir, before, {r});
  }

  lemma GrewByNothing(u: Universe, dir: Direction, g: Graph)
    ensures GrewBy(u, dir, {}, {}, g, g, {})
  {
    assert g.Runs() - g.Runs() == {};
  }

  lemma GrewByKnownRun(u: Universe, dir: Direction, ids: set<string>, done: set<string>, g0: Graph, g: Graph, next: set<string>, r: string)
    requires GrewBy(u, dir, ids, done, g0, g, next) && g.HasRun(r)
    ensures GrewBy(u, dir, ids, done + {r}, g0, g, next)
  {
  }

  /** First the data itself, then the runs one hop away from it. */
  lemma EnsureThenGrow(u: Universe, dir: Direction, k: string, g0: Graph, g1: Graph, g2: Graph, next: set<string>)
    requires k in u.data
    requires g1.Data() == g0.Data() + {k} && g1.Runs() == g0.Runs()
    requires GrewBy(u, dir, {}, NextRuns(dir, u.data[k]), g1, g2, next)
    ensures Expanded(u, dir, {k}, g0, g2, next)
  {
    assert RunsOf(u, dir, {k}) == NextRuns(dir, u.data[k]);
  }

  lemma ExpandedCompose(u: Universe, dir: Direction, a: set<string>, b: set<string>, g0: Graph, g1: Graph, g2: Graph,
                        next1: set<string>, next2: set<string>)
    requires Expanded(u, dir, a, g0, g1, next1) && Expanded(u, dir, b, g1, g2, next2)
    ensures Expanded(u, dir, a + b, g0, g2, next1 + next2)
  {
    hide RunsOf, Touched, DataOf;
    var runs1, runs2 := g1.Runs() - g0.Runs(), g2.Runs() - g1.Runs();
    assert g2.Runs() - g0.Runs() == runs1 + runs2;
    RunsOfUnion(u, dir, a, b);
    TouchedUnion(u, runs1, runs2);
    DataOfUnion(u, dir, runs1, runs2);
  }

  // ---- a single data ---------------------------------------------------------------------------

  /** Fetches and adds a data node unless it is already there. */
  method EnsureData(u: Universe, g: DirectedGraph, knitId: string, emphasize: bool) returns (r: Result<(), TraceError>)
    requires Keyed(u) && Built(u, g.View())
    modifies g
    ensures Built(u, g.View())
    ensures r.Err? <==> knitId !in u.data
    ensures r.Ok? ==> g.View().Data() == old(g.View().Data()) + {knitId} && g.View().Runs() == old(g.View().Runs())
    ensures r.Ok? ==> Emphasized(g.View()) == old(Emphasized(g.View())) + if emphasize && !old(g.View().HasData(knitId)) then {knitId} else {}
    ensures r.Ok? ==> knitId in g.dataNodes.entries && g.dataNodes.entries[knitId].detail == u.data[knitId]
  {
    hide Built, Keyed, AddData;
    if g.dataNodes.Has(knitId) {
      BuiltDetails(u, g.View());
      r := Ok(());
    } else if knitId !in u.data {
      r := Err(DataNotFound(knitId));
    } else {
      BuiltArrive(u, g.View(), DataArrives(knitId, emphasize));
      AddDataShape(u, g.View(), knitId, emphasize);
      var _ := g.AddDataNode(u.data[knitId], emphasize);
      r := Ok(());
    }
  }

  lemma AddDataShape(u: Universe, g: Graph, knitId: string, emphasize: bool)
    requires Keyed(u) && knitId in u.data && !g.HasData(knitId)
    ensures var g' := AddData(g, u.data[knitId], emphasize);
      && g'.Data() == g.Data() + {knitId} && g'.Runs() == g.Runs()
      && Emphasized(g') == Emphasized(g) + (if emphasize then {knitId} else {})
      && knitId in g'.dataNodes.entries && g'.dataNodes.entries[knitId].detail == u.data[knitId]
      && g' == Arrive(u, g, DataArrives(knitId, emphasize))
  {
  }

  /** What a run refers to can be answered. */
  lemma ClosedRun(u: Universe, runId: string)
    requires Keyed(u) && runId in u.runs
    ensures u.runs[runId].runId == runId
    ensures var run := u.runs[runId];
      Closed(u) ==> KnitIds(run.inputs) <= u.data.Keys && KnitIds(run.outputs) <= u.data.Keys && LogId(run.log) <= u.data.Keys
  {
  }

  method InsertRun(u: Universe, g: DirectedGraph, runId: string)
    requires Keyed(u) && Built(u, g.View()) && runId in u.runs && !g.View().HasRun(runId)
    modifies g
    ensures Built(u, g.View())
    ensures g.View().Data() == old(g.View().Data()) && g.View().Runs() == old(g.View().Runs()) + {runId}
    ensures Emphasized(g.View()) == old(Emphasized(g.View()))
  {
    BuiltArrive(u, g.View(), RunArrives(runId, false));
    var _ := g.AddRunNode(u.runs[runId], false);
  }

  /** Adds the data of a list of assignments, one by one. */
  method EnsureAll(u: Universe, g: DirectedGraph, as': seq<Assignment>) returns (r: Result<seq<string>, TraceError>)
    requires Keyed(u) && Built(u, g.View())
    modifies g
    ensures Built(u, g.View())
    ensures r.Err? ==> !(KnitIds(as') <= u.data.Keys)
    ensures r.Ok? ==> Elems(r.value) == KnitIds(as')
    ensures r.Ok? ==> g.View().Data() == old(g.View().Data()) + KnitIds(as') && g.View().Runs() == old(g.View().Runs())
    ensures r.Ok? ==> Emphasized(g.View()) == old(Emphasized(g.View()))
  {
    hide Built;
    var ids := [];
    for i := 0 to |as'|
      invariant Built(u, g.View())
      invariant Elems(ids) == KnitIds(as'[..i])
      invariant g.View().Data() == old(g.View().Data()) + KnitIds(as'[..i])
      invariant g.View().Runs() == old(g.View().Runs())
      invariant Emphasized(g.View()) == old(Emphasized(g.View()))
    {
      assert KnitIds(as'[..i + 1]) == KnitIds(as'[..i]) + {as'[i].knitId};
      var added := EnsureData(u, g, as'[i].knitId, false);
      if added.Err? {
        assert as'[i].knitId in KnitIds(as');
        return Err(added.error);
      }
      ids := ids + [as'[i].knitId];
    }
    assert as'[..|as'|] == as';
    return Ok(ids);
  }

  method AddEdgeFromRunToLog(u: Universe, g: DirectedGraph, run: RunDetail) returns (r: Result<seq<string>, TraceError>)
    requires Keyed(u) && Built(u, g.View())
    modifies g
    ensures Built(u, g.View())
    ensures r.Err? ==> !(LogId(run.log) <= u.data.Keys)
    ensures r.Ok? ==> Elems(r.value) == LogId(run.log)
    ensures r.Ok? ==> g.View().Data() == old(g.View().Data()) + LogId(run.log) && g.View().Runs() == old(g.View().Runs())
    ensures r.Ok? ==> Emphasized(g.View()) == old(Emphasized(g.View()))
  {
    if run.log.None? {
      return Ok([]);
    }
    var added := EnsureData(u, g, run.log.value, false);
    if added.Err? {
      return Err(added.error);
    }
    return Ok([run.log.value]);
  }

  /** What visiting a run promises, in either direction. */
  ghost predicate Visited(dir: Direction, run: RunDetail, g0: Graph, g: Graph, next: set<string>) {
    && g.Runs() == g0.Runs() + {run.runId}
    && g.Data() == g0.Data() + Touch(run)
    && Emphasized(g) == Emphasized(g0)
    && next == NextData(dir, run)
  }

  /** Nothing but data has come. */
  ghost predicate DataCame(g0: Graph, g: Graph, ids: set<string>) {
    g.Data() == g0.Data() + ids && g.Runs() == g0.Runs() && Emphasized(g) == Emphasized(g0)
  }

  lemma RunAndDataCame(dir: Direction, run: RunDetail, g0: Graph, g1: Graph, g2: Graph, g3: Graph, g4: Graph,
      a: set<string>, b: set<string>, c: set<string>, next: set<string>)
    requires g1.Data() == g0.Data() && g1.Runs() == g0.Runs() + {run.runId} && Emphasized(g1) == Emphasized(g0)
    requires DataCame(g1, g2, a) && DataCame(g2, g3, b) && DataCame(g3, g4, c)
    requires a + b + c == Touch(run) && next == NextData(dir, run)
    ensures Visited(dir, run, g0, g4, next)
  {
    hide Touch, NextData, Emphasized;
  }

  method VisitRunDownstream(u: Universe, g: DirectedGraph, runId: string) returns (r: Result<seq<string>, TraceError>)
    requires Keyed(u) && Built(u, g.View()) && runId in u.runs && !g.View().HasRun(runId)
    modifies g
    ensures Built(u, g.View())
    ensures r.Err? ==> !Closed(u)
    ensures r.Ok? ==> Visited(Downstream, u.runs[runId], old(g.View()), g.View(), Elems(r.value))
  {
    hide Built, Closed, Keyed, Emphasized, KnitIds, LogId, Visited;
    ClosedRun(u, runId);
    var run := u.runs[runId];
    ghost var g0 := g.View();
    InsertRun(u, g, runId);
    ghost var g1 := g.View();
    r := EnsureAll(u, g, run.inputs);
    if r.Err? {
      return;
    }
    ghost var g2 := g.View();
    r := EnsureAll(u, g, run.outputs);
    if r.Err? {
      return;
    }
    ghost var g3 := g.View();
    var outs := r.value;
    r := AddEdgeFromRunToLog(u, g, run);
    if r.Err? {
      return;
    }
    assert Elems(outs + r.value) == Elems(outs) + Elems(r.value);
    RunAndDataCame(Downstream, run, g0, g1, g2, g3, g.View(), KnitIds(run.inputs), KnitIds(run.outputs), LogId(run.log), Elems(outs + r.value));
    r := Ok(outs + r.value);
  }

  method VisitRunUpstream(u: Universe, g: DirectedGraph, runId: string) returns (r: Result<seq<string>, TraceError>)
    requires Keyed(u) && Built(u, g.View()) && runId in u.runs && !g.View().HasRun(runId)
    modifies g
    ensures Built(u, g.View())
    ensures r.Err? ==> !Closed(u)
    ensures r.Ok? ==> Visited(Upstream, u.runs[runId], old(g.View()), g.View(), Elems(r.value))
  {
    hide Built, Closed, Keyed, Emphasized, KnitIds, LogId, Visited;
    ClosedRun(u, runId);
    var run := u.runs[runId];
    ghost var g0 := g.View();
    InsertRun(u, g, runId);
    ghost var g1 := g.View();
    r := EnsureAll(u, g, run.outputs);
    if r.Err? {
      return;
    }
    ghost var g2 := g.View();
    r := AddEdgeFromRunToLog(u, g, run);
    if r.Err? {
      return;
    }
    ghost var g3 := g.View();
    r := EnsureAll(u, g, run.inputs);
    if r.Ok? {
      RunAndDataCame(Upstream, run, g0, g1, g2, g3, g.View(), KnitIds(run.outputs), LogId(run.log), KnitIds(run.inputs), Elems(r.value));
    }
  }

  // ---- one data --------------------------------------------------------------------------------

  function RunIds(ds: seq<AssignedTo>): set<string> {
    set a | a in ds :: a.runId
  }

  method VisitDownstreams(u: Universe, g: DirectedGraph, ds: seq<AssignedTo>) returns (r: Result<seq<string>, TraceError>)
    requires Keyed(u) && Built(u, g.View())
    modifies g
    ensures Built(u, g.View())
    ensures Closed(u) && RunIds(ds) <= u.runs.Keys ==> r.Ok?
    ensures r.Ok? ==> GrewBy(u, Downstream, {}, RunIds(ds), old(g.View()), g.View(), Elems(r.value))
    ensures r.Ok? ==> Emphasized(g.View()) == old(Emphasized(g.View()))
  {
    hide Built, GrewBy, Closed;
    ghost var g0 := g.View();
    var next := [];
    GrewByNothing(u, Downstream, g0);
    assert RunIds(ds[..0]) == {} && Elems(next) == {};
    for i := 0 to |ds|
      invariant Built(u, g.View())
      invariant GrewBy(u, Downstream, {}, RunIds(ds[..i]), g0, g.View(), Elems(next))
      invariant Emphasized(g.View()) == Emphasized(g0)
    {
      var toRunId := ds[i].runId;
      assert RunIds(ds[..i + 1]) == RunIds(ds[..i]) + {toRunId};
      if g.runNodes.Has(toRunId) {
        GrewByKnownRun(u, Downstream, {}, RunIds(ds[..i]), g0, g.View(), Elems(next), toRunId);
        continue;
      }
      if toRunId !in u.runs {
        assert toRunId in RunIds(ds);
        return Err(RunNotFound(toRunId));
      }
      ghost var before := g.View();
      var more := VisitRunDownstream(u, g, toRunId);
      if more.Err? {
        return more;
      }
      GrewByRun(u, Downstream, {}, RunIds(ds[..i]), g0, before, Elems(next), toRunId, g.View());
      assert Elems(next + more.value) == Elems(next) + Elems(more.value);
      next := next + more.value;
    }
    assert ds[..|ds|] == ds;
    return Ok(next);
  }

  method VisitUpstream(u: Universe, g: DirectedGraph, fromRunId: string) returns (r: Result<seq<string>, TraceError>)
    requires Keyed(u) && Built(u, g.View())
    modifies g
    ensures Built(u, g.View())
    ensures Closed(u) && fromRunId in u.runs ==> r.Ok?
    ensures r.Ok? ==> GrewBy(u, Upstream, {}, {fromRunId}, old(g.View()), g.View(), Elems(r.value))
    ensures r.Ok? ==> Emphasized(g.View()) == old(Emphasized(g.View()))
  {
    hide Built, GrewBy, Closed;
    ghost var g0 := g.View();
    GrewByNothing(u, Upstream, g0);
    if g.runNodes.Has(fromRunId) {
      GrewByKnownRun(u, Upstream, {}, {}, g0, g0, {}, fromRunId);
      assert {} + {fromRunId} == {fromRunId} && Elems<string>([]) == {};
      return Ok([]);
    }
    if fromRunId !in u.runs {
      return Err(RunNotFound(fromRunId));
    }
    r := VisitRunUpstream(u, g, fromRunId);
    if r.Ok? {
      GrewByRun(u, Upstream, {}, {}, g0, g0, {}, fromRunId, g.View());
      assert {} + {fromRunId} == {fromRunId} && {} + Elems(r.value) == Elems(r.value);
    }
  }

  /** What tracing from one data promises, in either direction. */
  ghost predicate Traced(u: Universe, dir: Direction, k: string, entry: bool, g0: Graph, g: Graph, next: seq<string>) {
    && Expanded(u, dir, {k}, g0, g, Elems(next))
    && Emphasized(g) == Emphasized(g0) + if entry && !g0.HasData(k) then {k} else {}
  }

  method TraceForSingleNode(dir: Direction, u: Universe, g: DirectedGraph, knitId: string, entry: bool)
    returns (r: Result<seq<string>, TraceError>)
    requires Keyed(u) && Built(u, g.View())
    modifies g
    ensures Built(u, g.View())
    ensures Closed(u) && knitId in u.data ==> r.Ok?
    ensures r.Ok? ==> Traced(u, dir, knitId, entry, old(g.View()), g.View(), r.value)
  {
    hide Built, GrewBy, Expanded;
    ghost var g0 := g.View();
    var added := EnsureData(u, g, knitId, entry);
    if added.Err? {
      return Err(added.error);
    }
    ghost var g1 := g.View();
    var d := g.dataNodes.entries[knitId].detail;
    match dir {
      case Upstream => r := VisitUpstream(u, g, d.upstream.runId);
      case Downstream => r := VisitDownstreams(u, g, d.downstreams);
    }
    if r.Ok? {
      EnsureThenGrow(u, dir, knitId, g0, g1, g.View(), Elems(r.value));
    }
  }

  // ---- one layer -------------------------------------------------------------------------------

  method TraceOneStep(dir: Direction, u: Universe, g: DirectedGraph, knitIds: seq<string>, entry: bool)
    returns (r: Result<seq<string>, TraceError>)
    requires Keyed(u) && Built(u, g.View())
    modifies g
    ensures Built(u, g.View())
    ensures Closed(u) && Elems(knitIds) <= u.data.Keys ==> r.Ok?
    ensures r.Ok? ==> Expanded(u, dir, Elems(knitIds), old(g.View()), g.View(), Elems(r.value))
    ensures r.Ok? && !entry ==> Emphasized(g.View()) == old(Emphasized(g.View()))
    ensures r.Ok? && |knitIds| == 1 ==> Traced(u, dir, knitIds[0], entry, old(g.View()), g.View(), r.value)
  {
    hide Built, GrewBy, Closed;
    ghost var g0 := g.View();
    var total := [];
    assert Expanded(u, dir, {}, g0, g0, {}) by {
      GrewByNothing(u, dir, g0);
      assert RunsOf(u, dir, {}) == {};
    }
    assert Elems(knitIds[..0]) == {} && Elems(total) == {};
    for i := 0 to |knitIds|
      invariant Built(u, g.View())
      invariant Expanded(u, dir, Elems(knitIds[..i]), g0, g.View(), Elems(total))
      invariant !entry || i == 0 ==> Emphasized(g.View()) == Emphasized(g0)
      invariant i == 1 ==> Traced(u, dir, knitIds[0], entry, g0, g.View(), total)
      invariant i == 0 ==> g.View() == g0 && total == []
    {
      assert Elems(knitIds[..i + 1]) == Elems(knitIds[..i]) + {knitIds[i]};
      ghost var before := g.View();
      var next := TraceForSingleNode(dir, u, g, knitIds[i], entry);
      if next.Err? {
        return next;
      }
      ExpandedCompose(u, dir, Elems(knitIds[..i]), {knitIds[i]}, g0, before, g.View(), Elems(total), Elems(next.value));
      assert Elems(total + next.value) == Elems(total) + Elems(next.value);
      assert [] + next.value == next.value;
      total := total + next.value;
    }
    assert knitIds[..|knitIds|] == knitIds;
    return Ok(total);
  }

  // ---- the whole search ------------------------------------------------------------------------

  /** Run-to-run hops: from a run, through a data it makes (or takes), to the next run. */
  ghost function RunGraph(u: Universe, dir: Direction): Adjacency {
    map r | r in u.runs :: RunsOf(u, dir, NextData(dir, u.runs[r]))
  }

  lemma ImageIsRunsOfData(u: Universe, dir: Direction, runs: set<string>)
    ensures Image(RunGraph(u, dir), runs) == RunsOf(u, dir, DataOf(u, dir, runs))
  {
    var adj := RunGraph(u, dir);
    forall s | s in Image(adj, runs)
      ensures s in RunsOf(u, dir, DataOf(u, dir, runs))
    {
      var r :| r in runs && r in adj && s in adj[r];
      var k :| k in NextData(dir, u.runs[r]) && k in u.data && s in NextRuns(dir, u.data[k]);
      assert k in DataOf(u, dir, runs);
    }
    forall s | s in RunsOf(u, dir, DataOf(u, dir, runs))
      ensures s in Image(adj, runs)
    {
      var k :| k in DataOf(u, dir, runs) && k in u.data && s in NextRuns(dir, u.data[k]);
      var r :| r in runs && r in u.runs && k in NextData(dir, u.runs[r]);
      assert s in adj[r];
    }
  }

  /** The runs within `depth` run-hops of `root`, not entering `avoid`. */
  ghost function RunsWithin(u: Universe, dir: Direction, root: string, avoid: set<string>, depth: Depth): set<string> {
    var adj, start := RunGraph(u, dir), RunsOf(u, dir, {root});
    if depth.infinity then set r | r in u.runs && InSomeDepth(adj, start, avoid, r)
    else Within(adj, start, avoid, depth.n)
  }

  /** What a search that began on `g0` has to show for itself. */
  ghost predicate Searched(u: Universe, dir: Direction, root: string, depth: Depth, g0: Graph, g: Graph) {
    && g.Runs() == g0.Runs() + RunsWithin(u, dir, root, g0.Runs(), depth)
    && g.Data() == g0.Data() + (if depth.IsZero() then {} else {root}) + Touched(u, g.Runs() - g0.Runs())
    && Emphasized(g) == Emphasized(g0) + if depth.IsZero() || g0.HasData(root) then {} else {root}
  }

  /** The search state after `d` layers: `ids` is the frontier. */
  ghost predicate Searching(u: Universe, dir: Direction, root: string, d: nat, g0: Graph, g: Graph, newest: set<string>, ids: set<string>) {
    && Layer(RunGraph(u, dir), RunsOf(u, dir, {root}), g0.Runs(), d, g.Runs(), newest)
    && ids == (if d == 0 then {root} else DataOf(u, dir, newest))
    && g.Data() == g0.Data() + (if d == 0 then {} else {root}) + Touched(u, g.Runs() - g0.Runs())
    && Emphasized(g) == Emphasized(g0) + (if d == 0 || g0.HasData(root) then {} else {root})
  }

  lemma OfferedRuns(u: Universe, dir: Direction, root: string, d: nat, newest: set<string>)
    ensures Offered(RunGraph(u, dir), RunsOf(u, dir, {root}), d, newest)
         == RunsOf(u, dir, if d == 0 then {root} else DataOf(u, dir, newest))
  {
    ImageIsRunsOfData(u, dir, newest);
  }

  lemma SearchStart(u: Universe, dir: Direction, root: string, g: Graph)
    ensures Searching(u, dir, root, 0, g, g, {}, {root})
  {
    assert g.Runs() - g.Runs() == {};
  }

  /** The frontier consists of data that the runs found so far have touched. */
  lemma FrontierTouched(u: Universe, dir: Direction, root: string, d: nat, g0: Graph, g: Graph, newest: set<string>)
    requires d > 0 && Layer(RunGraph(u, dir), RunsOf(u, dir, {root}), g0.Runs(), d, g.Runs(), newest)
    ensures DataOf(u, dir, newest) <= Touched(u, g.Runs() - g0.Runs())
  {
    assert newest <= g.Runs() - g0.Runs();
    forall k | k in DataOf(u, dir, newest)
      ensures k in Touched(u, g.Runs() - g0.Runs())
    {
      var r :| r in newest && r in u.runs && k in NextData(dir, u.runs[r]);
      assert k in Touch(u.runs[r]);
    }
  }

  lemma SearchStep(u: Universe, dir: Direction, root: string, d: nat, g0: Graph, g: Graph, newest: set<string>, ids: set<string>,
                   g': Graph, next: set<string>)
    requires Searching(u, dir, root, d, g0, g, newest, ids)
    requires Expanded(u, dir, ids, g, g', next)
    requires Emphasized(g') == Emphasized(g) + if d == 0 && !g.HasData(root) then {root} else {}
    ensures Searching(u, dir, root, d + 1, g0, g', g'.Runs() - g.Runs(), next)
  {
    hide RunGraph, RunsOf, DataOf, Touched, Emphasized, Within, Image;
    OfferedRuns(u, dir, root, d, newest);
    var adj, start := RunGraph(u, dir), RunsOf(u, dir, {root});
    LayerStep(adj, start, g0.Runs(), d, g.Runs(), newest, g'.Runs());
    var before, added := g.Runs() - g0.Runs(), g'.Runs() - g.Runs();
    assert g'.Runs() - g0.Runs() == before + added;
    TouchedUnion(u, before, added);
    if d == 0 {
      WithinUnfold(adj, start, g0.Runs(), 0);
      assert before == {};
      TouchedNothing(u);
    } else {
      FrontierTouched(u, dir, root, d, g0, g, newest);
    }
  }

  lemma TouchedNothing(u: Universe)
    ensures Touched(u, {}) == {}
  {
  }

  /** When the loop ends, because the depth is used up or nothing is left, the search is complete. */
  lemma SearchEnd(u: Universe, dir: Direction, root: string, depth: Depth, d: nat, g0: Graph, g: Graph, newest: set<string>, ids: set<string>)
    requires Searching(u, dir, root, d, g0, g, newest, ids)
    requires depth.infinity || d <= depth.n
    requires ids == {} || (!depth.infinity && d == depth.n)
    requires g.Runs() <= u.runs.Keys
    ensures Searched(u, dir, root, depth, g0, g)
  {
    hide RunGraph, Touched, Emphasized, DataOf;
    var adj, start := RunGraph(u, dir), RunsOf(u, dir, {root});
    if ids == {} {
      OfferedRuns(u, dir, root, d, newest);
      assert RunsOf(u, dir, ids) == {};
      forall n: nat
        ensures n >= d ==> Within(adj, start, g0.Runs(), n) == Within(adj, start, g0.Runs(), d)
        ensures Within(adj, start, g0.Runs(), n) <= Within(adj, start, g0.Runs(), d)
      {
        if n >= d {
          EmptyLayerIsFinal(adj, start, g0.Runs(), d, g.Runs(), newest, n);
        } else {
          WithinMonotone(adj, start, g0.Runs(), n, d);
        }
      }
      if depth.infinity {
        assert RunsWithin(u, dir, root, g0.Runs(), depth) == Within(adj, start, g0.Runs(), d);
      }
    }
  }

  lemma BuiltKnown(u: Universe, g: Graph)
    requires Keyed(u) && Built(u, g)
    ensures g.Runs() <= u.runs.Keys && g.Data() <= u.data.Keys
  {
    BuiltDetails(u, g);
  }

  lemma FrontierKnown(u: Universe, dir: Direction, runs: set<string>)
    requires Closed(u)
    ensures DataOf(u, dir, runs) <= u.data.Keys
  {
    forall k | k in DataOf(u, dir, runs)
      ensures k in u.data
    {
      var r :| r in runs && r in u.runs && k in NextData(dir, u.runs[r]);
      assert k in Touch(u.runs[r]);
    }
  }

  ghost function Unvisited(u: Universe, g: Graph): nat {
    |u.runs.Keys - g.Runs()|
  }

  /** One round of the loop below. */
  method TraceLayer(dir: Direction, u: Universe, g: DirectedGraph, root: string, depth: nat, knitIds: seq<string>,
                    ghost g0: Graph, ghost newest: set<string>)
    returns (r: Result<seq<string>, TraceError>, ghost newest': set<string>)
    requires Keyed(u) && Built(u, g.View())
    requires Searching(u, dir, root, depth, g0, g.View(), newest, Elems(knitIds))
    requires depth == 0 ==> knitIds == [root]
    modifies g
    ensures Built(u, g.View())
    ensures Closed(u) && Elems(knitIds) <= u.data.Keys ==> r.Ok? && Elems(r.value) <= u.data.Keys
    ensures r.Ok? ==> Searching(u, dir, root, depth + 1, g0, g.View(), newest', Elems(r.value))
    ensures r.Ok? ==> Unvisited(u, g.View()) <= old(Unvisited(u, g.View()))
    ensures r.Ok? && r.value != [] ==> Unvisited(u, g.View()) < old(Unvisited(u, g.View()))
  {
    hide Built, Closed, Expanded, GrewBy, Searching, Emphasized, Unvisited;
    ghost var before := g.View();
    r := TraceOneStep(dir, u, g, knitIds, depth == 0);
    newest' := g.View().Runs() - before.Runs();
    if r.Ok? {
      BuiltKnown(u, g.View());
      StepGrows(u, dir, Elems(knitIds), before, g.View(), Elems(r.value));
      SearchStep(u, dir, root, depth, g0, before, newest, Elems(knitIds), g.View(), Elems(r.value));
      assert r.value != [] ==> r.value[0] in Elems(r.value);
    }
  }

  /** `TraceUpStream` and `TraceDownStream`. The loop stops because a non-empty next frontier means
      that a run of the finite universe has been added. */
  method Trace(dir: Direction, u: Universe, g: DirectedGraph, rootKnitId: string, maxDepth: Depth)
    returns (r: Result<(), TraceError>)
    requires Keyed(u) && Built(u, g.View())
    modifies g
    ensures Built(u, g.View())
    ensures Closed(u) && rootKnitId in u.data ==> r.Ok?
    ensures r.Ok? ==> Searched(u, dir, rootKnitId, maxDepth, old(g.View()), g.View())
  {
    hide Built, Closed, Searching, Searched, Unvisited;
    ghost var g0 := g.View();
    var startKnitIds := [rootKnitId];
    var depth := 0;
    ghost var newest := {};
    SearchStart(u, dir, rootKnitId, g0);
    assert Elems(startKnitIds) == {rootKnitId};
    while (maxDepth.IsInfinity() || depth < maxDepth.n) && 0 < |startKnitIds|
      invariant Built(u, g.View())
      invariant maxDepth.infinity || depth <= maxDepth.n
      invariant depth == 0 ==> startKnitIds == [rootKnitId]
      invariant Searching(u, dir, rootKnitId, depth, g0, g.View(), newest, Elems(startKnitIds))
      invariant Closed(u) && rootKnitId in u.data ==> Elems(startKnitIds) <= u.data.Keys
      decreases Unvisited(u, g.View()), |startKnitIds| > 0
    {
      var next;
      next, newest := TraceLayer(dir, u, g, rootKnitId, depth, startKnitIds, g0, newest);
      if next.Err? {
        return Err(next.error);
      }
      startKnitIds := next.value;
      depth := depth + 1;
    }
    BuiltKnown(u, g.View());
    SearchEnd(u, dir, rootKnitId, maxDepth, depth, g0, g.View(), newest, Elems(startKnitIds));
    return Ok(());
  }

  lemma DataOfSome(u: Universe, dir: Direction, runs: set<string>)
    ensures DataOf(u, dir, runs) != {} ==> runs != {}
  {
    if DataOf(u, dir, runs) != {} {
      var k :| k in DataOf(u, dir, runs);
    }
  }

  lemma StepGrows(u: Universe, dir: Direction, ids: set<string>, g: Graph, g': Graph, next: set<string>)
    requires Expanded(u, dir, ids, g, g', next) && g'.Runs() <= u.runs.Keys
    ensures g.Runs() <= g'.Runs()
    ensures next != {} ==> Unvisited(u, g') < Unvisited(u, g)
    ensures Unvisited(u, g') <= Unvisited(u, g)
    ensures Closed(u) ==> next <= u.data.Keys
  {
    hide Touched, DataOf, RunsOf, Emphasized;
    var left, left' := u.runs.Keys - g.Runs(), u.runs.Keys - g'.Runs();
    if Closed(u) {
      FrontierKnown(u, dir, g'.Runs() - g.Runs());
    }
    SubsetSize(left', left);
    if next != {} {
      DataOfSome(u, dir, g'.Runs() - g.Runs());
      var r :| r in g'.Runs() - g.Runs();
      assert r in left && r !in left';
      SubsetSize(left', left - {r});
    }
  }
}
