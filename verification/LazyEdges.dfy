/** Why lazy edges are right: every way of adding data and run nodes, each at most once, draws
    exactly the declared links among the nodes that are present. */
module LazyEdges {
  import opened KnitGraph

  // ---- counting through FireAll and the parking loops -----------------------------------------

  lemma FireAllCount(thunks: seq<Thunk>, t: Thunk, arrived: NodeId, e: Edge)
    ensures Count(FireAll(thunks + [t], arrived), e)
         == Count(FireAll(thunks, arrived), e) + if t.Fire(arrived) == e then 1 else 0
  {
    FireAllAppend(thunks, t, arrived);
  }

  /** Every fired edge touches the node that has arrived and the kind of node that was parked. */
  lemma FiredTouches(thunks: seq<Thunk>, arrived: NodeId, e: Edge)
    requires Count(FireAll(thunks, arrived), e) > 0
    ensures exists t :: t in thunks && e == t.Fire(arrived)
  {
    var i :| 0 <= i < |FireAll(thunks, arrived)| && FireAll(thunks, arrived)[i] == e;
    assert thunks[i] in thunks;
  }

  ghost function LinksTo(table: ThunkTable, key: string, arrived: NodeId, e: Edge): nat {
    Count(FireAll(Parked(table, key), arrived), e)
  }

  lemma ParkCount(table: ThunkTable, key: string, t: Thunk, at: string, arrived: NodeId, e: Edge)
    ensures LinksTo(Park(table, key, t), at, arrived, e)
         == LinksTo(table, at, arrived, e) + if at == key && t.Fire(arrived) == e then 1 else 0
  {
    if at == key {
      FireAllCount(Parked(table, key), t, arrived, e);
    }
  }

  lemma CountAppend(a: seq<Edge>, b: seq<Edge>, e: Edge)
    ensures Count(a + b, e) == Count(a, e) + Count(b, e)
  {
  }

  lemma CountLast(a: seq<Edge>, last: Edge, e: Edge)
    ensures Count(a + [last], e) == Count(a, e) + if last == e then 1 else 0
    ensures Count([], e) == 0
  {
  }

  lemma {:induction false} ParkDownstreamsCount(table: ThunkTable, runs: set<string>, knitId: string, ds: seq<AssignedTo>, e: Edge)
    requires IsLink(e)
    ensures LinksTo(ParkDownstreams(table, runs, DataNodeId(knitId), ds), RunOf(e), RunNodeId(RunOf(e)), e)
         == LinksTo(table, RunOf(e), RunNodeId(RunOf(e)), e) + if RunOf(e) in runs then 0 else Count(DownLinks(knitId, ds), e)
  {
    hide LinksTo, Park, FireAll, Count;
    if ds == [] {
      assert DownLinks(knitId, ds) == [];
      CountLast([], e, e);
    } else {
      var init, last := ds[..|ds| - 1], ds[|ds| - 1];
      ParkDownstreamsCount(table, runs, knitId, init, e);
      assert DownLinks(knitId, ds) == DownLinks(knitId, init) + [Edge(DataNodeId(knitId), RunNodeId(last.runId), last.path)];
      CountLast(DownLinks(knitId, init), Edge(DataNodeId(knitId), RunNodeId(last.runId), last.path), e);
      ParkCount(ParkDownstreams(table, runs, DataNodeId(knitId), init), last.runId, FromParked(DataNodeId(knitId), last.path),
                RunOf(e), RunNodeId(RunOf(e)), e);
    }
  }

  lemma ParkUpstreamCount(table: ThunkTable, knitId: string, up: CreatedFrom, e: Edge)
    requires IsLink(e)
    ensures LinksTo(ParkUpstream(table, DataNodeId(knitId), up), RunOf(e), RunNodeId(RunOf(e)), e)
         == LinksTo(table, RunOf(e), RunNodeId(RunOf(e)), e) + Count(UpLinks(knitId, up), e)
  {
    if up.mountpoint.Some? {
      ParkCount(table, up.runId, ToParked(DataNodeId(knitId), up.mountpoint.value), RunOf(e), RunNodeId(RunOf(e)), e);
    } else if up.log {
      ParkCount(table, up.runId, ToParked(DataNodeId(knitId), "(log)"), RunOf(e), RunNodeId(RunOf(e)), e);
    }
  }

  lemma {:induction false} ParkInputsCount(table: ThunkTable, data: set<string>, runId: string, ins: seq<Assignment>, e: Edge)
    requires IsLink(e)
    ensures LinksTo(ParkInputs(table, data, RunNodeId(runId), ins), KnitOf(e), DataNodeId(KnitOf(e)), e)
         == LinksTo(table, KnitOf(e), DataNodeId(KnitOf(e)), e) + if KnitOf(e) in data then 0 else Count(InputLinks(runId, ins), e)
  {
    hide LinksTo, Park, FireAll, Count;
    if ins == [] {
      assert InputLinks(runId, ins) == [];
      CountLast([], e, e);
    } else {
      var init, last := ins[..|ins| - 1], ins[|ins| - 1];
      ParkInputsCount(table, data, runId, init, e);
      assert InputLinks(runId, ins) == InputLinks(runId, init) + [Edge(DataNodeId(last.knitId), RunNodeId(runId), last.path)];
      CountLast(InputLinks(runId, init), Edge(DataNodeId(last.knitId), RunNodeId(runId), last.path), e);
      ParkCount(ParkInputs(table, data, RunNodeId(runId), init), last.knitId, ToParked(RunNodeId(runId), last.path),
                KnitOf(e), DataNodeId(KnitOf(e)), e);
    }
  }

  lemma {:induction false} ParkOutputsCount(table: ThunkTable, data: set<string>, runId: string, outs: seq<Assignment>, e: Edge)
    requires IsLink(e)
    ensures LinksTo(ParkOutputs(table, data, RunNodeId(runId), outs), KnitOf(e), DataNodeId(KnitOf(e)), e)
         == LinksTo(table, KnitOf(e), DataNodeId(KnitOf(e)), e) + if KnitOf(e) in data then 0 else Count(OutputLinks(runId, outs), e)
  {
    hide LinksTo, Park, FireAll, Count;
    if outs == [] {
      assert OutputLinks(runId, outs) == [];
      CountLast([], e, e);
    } else {
      var init, last := outs[..|outs| - 1], outs[|outs| - 1];
      ParkOutputsCount(table, data, runId, init, e);
      assert OutputLinks(runId, outs) == OutputLinks(runId, init) + [Edge(RunNodeId(runId), DataNodeId(last.knitId), last.path)];
      CountLast(OutputLinks(runId, init), Edge(RunNodeId(runId), DataNodeId(last.knitId), last.path), e);
      ParkCount(ParkOutputs(table, data, RunNodeId(runId), init), last.knitId, FromParked(RunNodeId(runId), last.path),
                KnitOf(e), DataNodeId(KnitOf(e)), e);
    }
  }

  // ---- the tables keep their kinds -------------------------------------------------------------

  ghost predicate AllParkedAre(table: ThunkTable, forRuns: bool) {
    forall key, t :: key in table && t in table[key] ==> if forRuns then t.parked.DataNodeId? else t.parked.RunNodeId?
  }

  lemma {:induction false} ParkDownstreamsKinds(table: ThunkTable, runs: set<string>, knitId: string, ds: seq<AssignedTo>)
    requires AllParkedAre(table, true)
    ensures AllParkedAre(ParkDownstreams(table, runs, DataNodeId(knitId), ds), true)
  {
    if ds != [] {
      ParkDownstreamsKinds(table, runs, knitId, ds[..|ds| - 1]);
    }
  }

  lemma {:induction false} ParkInputsKinds(table: ThunkTable, data: set<string>, runId: string, ins: seq<Assignment>)
    requires AllParkedAre(table, false)
    ensures AllParkedAre(ParkInputs(table, data, RunNodeId(runId), ins), false)
  {
    if ins != [] {
      ParkInputsKinds(table, data, runId, ins[..|ins| - 1]);
    }
  }

  lemma {:induction false} ParkOutputsKinds(table: ThunkTable, data: set<string>, runId: string, outs: seq<Assignment>)
    requires AllParkedAre(table, false)
    ensures AllParkedAre(ParkOutputs(table, data, RunNodeId(runId), outs), false)
  {
    if outs != [] {
      ParkOutputsKinds(table, data, runId, outs[..|outs| - 1]);
    }
  }

  // ---- adding a data node ----------------------------------------------------------------------

  lemma DataLinksTouch(d: DataDetail, e: Edge)
    requires IsLink(e) && KnitOf(e) != d.knitId
    ensures Count(DataLinks(d), e) == 0
  {
    assert e !in UpLinks(d.knitId, d.upstream) && e !in DownLinks(d.knitId, d.downstreams);
  }

  lemma AddDataEdges(g: Graph, d: DataDetail, emphasize: bool, e: Edge)
    requires IsLink(e) && ParkedKinds(g)
    ensures Count(AddData(g, d, emphasize).edges, e)
         == Count(g.edges, e) + if KnitOf(e) == d.knitId then PendingOnData(g, e) else 0
  {
    var fired := FireAll(Parked(g.thunkData, d.knitId), DataNodeId(d.knitId));
    CountAppend(g.edges, fired, e);
    if Count(fired, e) > 0 {
      FiredTouches(Parked(g.thunkData, d.knitId), DataNodeId(d.knitId), e);
    }
  }

  lemma AddDataPendingOnRun(g: Graph, d: DataDetail, emphasize: bool, e: Edge)
    requires IsLink(e)
    ensures PendingOnRun(AddData(g, d, emphasize), e)
         == PendingOnRun(g, e) + if g.HasRun(RunOf(e)) then 0 else Count(DataLinks(d), e)
  {
    var k, runs := d.knitId, g.runNodes.entries.Keys;
    var afterUp := if d.upstream.runId in runs then g.thunkRun else ParkUpstream(g.thunkRun, DataNodeId(k), d.upstream);
    ParkUpstreamCount(g.thunkRun, k, d.upstream, e);
    ParkDownstreamsCount(afterUp, runs, k, d.downstreams, e);
    CountAppend(UpLinks(k, d.upstream), DownLinks(k, d.downstreams), e);
    assert RunOf(e) != d.upstream.runId ==> e !in UpLinks(k, d.upstream);
  }

  lemma AddDataLink(u: Universe, g: Graph, k: string, emphasize: bool, e: Edge)
    requires k in u.data && u.data[k].knitId == k && !g.HasData(k)
    requires IsLink(e) && ParkedKinds(g) && LinkInv(u, g, e)
    ensures LinkInv(u, AddData(g, u.data[k], emphasize), e)
  {
    var d := u.data[k];
    AddDataEdges(g, d, emphasize, e);
    AddDataPendingOnRun(g, d, emphasize, e);
    if KnitOf(e) != k {
      DataLinksTouch(d, e);
    }
  }

  lemma AddDataRoots(g: Graph, d: DataDetail, emphasize: bool)
    requires g.Valid() && ParkedKinds(g) && RootInv(g)
    ensures RootInv(AddData(g, d, emphasize))
  {
    var g' := AddData(g, d, emphasize);
    assert g'.roots == g.roots && RootedRuns(g') == RootedRuns(g);
    forall e: Edge | e.fromId.RootNodeId?
      ensures Count(g'.edges, e) == Count(g.edges, e)
    {
      AddDataRootCount(g, d, emphasize, e);
    }
    hide AddData, RootedRuns, Count, RootCount, ParkedKinds;
  }

  lemma AddDataRootCount(g: Graph, d: DataDetail, emphasize: bool, e: Edge)
    requires ParkedKinds(g) && e.fromId.RootNodeId?
    ensures Count(AddData(g, d, emphasize).edges, e) == Count(g.edges, e)
  {
    var fired := FireAll(Parked(g.thunkData, d.knitId), DataNodeId(d.knitId));
    CountAppend(g.edges, fired, e);
    if Count(fired, e) > 0 {
      FiredTouches(Parked(g.thunkData, d.knitId), DataNodeId(d.knitId), e);
    }
  }

  lemma AddDataOnlyLinks(g: Graph, d: DataDetail, emphasize: bool)
    requires ParkedKinds(g) && OnlyLinksAndRoots(g)
    ensures OnlyLinksAndRoots(AddData(g, d, emphasize))
  {
    var fired := FireAll(Parked(g.thunkData, d.knitId), DataNodeId(d.knitId));
    forall e | e in fired
      ensures IsLink(e)
    {
      FiredTouches(Parked(g.thunkData, d.knitId), DataNodeId(d.knitId), e);
    }
  }

  lemma AddDataKinds(g: Graph, d: DataDetail, emphasize: bool)
    requires ParkedKinds(g)
    ensures ParkedKinds(AddData(g, d, emphasize))
  {
    var runs := g.runNodes.entries.Keys;
    var afterUp := if d.upstream.runId in runs then g.thunkRun else ParkUpstream(g.thunkRun, DataNodeId(d.knitId), d.upstream);
    assert AllParkedAre(afterUp, true);
    ParkDownstreamsKinds(afterUp, runs, d.knitId, d.downstreams);
    assert AllParkedAre(AddData(g, d, emphasize).thunkRun, true);
  }

  lemma AddDataLinks(u: Universe, g: Graph, k: string, emphasize: bool)
    requires Mirrored(u) && NodesFrom(u, g) && ParkedKinds(g) && AllLinks(u, g) && k in u.data && !g.HasData(k)
    ensures AllLinks(u, AddData(g, u.data[k], emphasize))
  {
    forall e | IsLink(e)
      ensures LinkInv(u, AddData(g, u.data[k], emphasize), e)
    {
      assert LinkInv(u, g, e);
      AddDataLink(u, g, k, emphasize, e);
    }
  }

  lemma AddDataNodes(u: Universe, g: Graph, k: string, emphasize: bool)
    requires Keyed(u) && g.Valid() && NodesFrom(u, g) && k in u.data
    ensures AddData(g, u.data[k], emphasize).Valid() && NodesFrom(u, AddData(g, u.data[k], emphasize))
  {
  }

  lemma AddDataInv(u: Universe, g: Graph, k: string, emphasize: bool)
    requires Mirrored(u) && Inv(u, g) && k in u.data && !g.HasData(k)
    ensures Inv(u, AddData(g, u.data[k], emphasize))
  {
    hide AddData, NodesFrom, ParkedKinds, AllLinks, RootInv, OnlyLinksAndRoots, MirroredAt;
    AddDataNodes(u, g, k, emphasize);
    AddDataLinks(u, g, k, emphasize);
    AddDataRoots(g, u.data[k], emphasize);
    AddDataOnlyLinks(g, u.data[k], emphasize);
    AddDataKinds(g, u.data[k], emphasize);
  }

  // ---- adding a run node -----------------------------------------------------------------------

  lemma RunLinksTouch(r: RunDetail, e: Edge)
    requires IsLink(e) && RunOf(e) != r.runId
    ensures Count(RunLinks(r), e) == 0
  {
    assert e !in InputLinks(r.runId, r.inputs) && e !in OutputLinks(r.runId, r.outputs);
  }

  function RootEdge(g: Graph, r: RunDetail): seq<Edge> {
    if r.inputs == [] then [Edge(RootNodeId(|g.roots|), RunNodeId(r.runId), "")] else []
  }

  lemma AddRunEdges(g: Graph, r: RunDetail, emphasize: bool, e: Edge)
    requires IsLink(e) && ParkedKinds(g)
    ensures Count(AddRun(g, r, emphasize).edges, e)
         == Count(g.edges, e) + if RunOf(e) == r.runId then PendingOnRun(g, e) else 0
  {
    var fired := FireAll(Parked(g.thunkRun, r.runId), RunNodeId(r.runId));
    CountAppend(g.edges, fired, e);
    CountAppend(g.edges + fired, RootEdge(g, r), e);
    assert e !in RootEdge(g, r);
    if Count(fired, e) > 0 {
      FiredTouches(Parked(g.thunkRun, r.runId), RunNodeId(r.runId), e);
    }
  }

  lemma AddRunPendingOnData(g: Graph, r: RunDetail, emphasize: bool, e: Edge)
    requires IsLink(e)
    ensures PendingOnData(AddRun(g, r, emphasize), e)
         == PendingOnData(g, e) + if g.HasData(KnitOf(e)) then 0 else Count(RunLinks(r), e)
  {
    var id, data := r.runId, g.dataNodes.entries.Keys;
    var afterInputs := ParkInputs(g.thunkData, data, RunNodeId(id), r.inputs);
    var afterOutputs := ParkOutputs(afterInputs, data, RunNodeId(id), r.outputs);
    var logLinks := if r.log.Some? then [Edge(RunNodeId(id), DataNodeId(r.log.value), "(log)")] else [];
    ParkInputsCount(g.thunkData, data, id, r.inputs, e);
    ParkOutputsCount(afterInputs, data, id, r.outputs, e);
    if r.log.Some? {
      ParkCount(afterOutputs, r.log.value, FromParked(RunNodeId(id), "(log)"), KnitOf(e), DataNodeId(KnitOf(e)), e);
    }
    CountAppend(InputLinks(id, r.inputs), OutputLinks(id, r.outputs), e);
    CountAppend(InputLinks(id, r.inputs) + OutputLinks(id, r.outputs), logLinks, e);
  }

  /** The only place where mirroring matters: thunks parked by data must be what the run declares. */
  lemma AddRunLink(u: Universe, g: Graph, r: string, emphasize: bool, e: Edge)
    requires r in u.runs && u.runs[r].runId == r && !g.HasRun(r)
    requires g.Data() <= u.data.Keys
    requires IsLink(e) && ParkedKinds(g) && LinkInv(u, g, e) && MirroredAt(u, e)
    ensures LinkInv(u, AddRun(g, u.runs[r], emphasize), e)
  {
    var run := u.runs[r];
    AddRunEdges(g, run, emphasize, e);
    AddRunPendingOnData(g, run, emphasize, e);
    if RunOf(e) != r {
      RunLinksTouch(run, e);
    }
  }

  lemma {:induction false} InputlessStable(keys: seq<string>, runs: map<string, RunNode>, runs': map<string, RunNode>)
    requires forall k :: k in keys ==> k in runs && k in runs' && runs[k] == runs'[k]
    ensures InputlessRuns(keys, runs) == InputlessRuns(keys, runs')
  {
    if keys != [] {
      InputlessStable(keys[..|keys| - 1], runs, runs');
    }
  }

  lemma AddRunRooted(g: Graph, r: RunDetail, emphasize: bool)
    requires g.Valid() && !g.HasRun(r.runId)
    ensures RootedRuns(AddRun(g, r, emphasize)) == RootedRuns(g) + if r.inputs == [] then [r.runId] else []
  {
    var g' := AddRun(g, r, emphasize);
    assert forall k :: k in g.runNodes.keys ==> k in (set x | x in g.runNodes.keys);
    assert g'.runNodes.keys == g.runNodes.keys + [r.runId];
    assert g'.runNodes.keys[..|g'.runNodes.keys| - 1] == g.runNodes.keys;
    InputlessStable(g.runNodes.keys, g.runNodes.entries, g'.runNodes.entries);
  }

  lemma AddRunRootCount(g: Graph, r: RunDetail, emphasize: bool, e: Edge)
    requires e.fromId.RootNodeId? && ParkedKinds(g)
    ensures Count(AddRun(g, r, emphasize).edges, e) == Count(g.edges, e) + Count(RootEdge(g, r), e)
  {
    var fired := FireAll(Parked(g.thunkRun, r.runId), RunNodeId(r.runId));
    CountAppend(g.edges, fired, e);
    CountAppend(g.edges + fired, RootEdge(g, r), e);
    if Count(fired, e) > 0 {
      FiredTouches(Parked(g.thunkRun, r.runId), RunNodeId(r.runId), e);
    }
  }

  lemma RootCountAppend(rooted: seq<string>, r: string, e: Edge)
    requires e.fromId.RootNodeId?
    ensures RootCount(rooted + [r], e)
         == RootCount(rooted, e) + Count([Edge(RootNodeId(|rooted|), RunNodeId(r), "")], e)
  {
    var j := e.fromId.index;
    if j < |rooted| {
      assert (rooted + [r])[j] == rooted[j];
    }
  }

  lemma AddRunRootCounts(g: Graph, r: RunDetail, emphasize: bool, rooted: seq<string>)
    requires ParkedKinds(g) && RootCounts(g.edges, rooted) && |rooted| == |g.roots|
    ensures RootCounts(AddRun(g, r, emphasize).edges, rooted + if r.inputs == [] then [r.runId] else [])
  {
    forall e: Edge | e.fromId.RootNodeId?
      ensures Count(AddRun(g, r, emphasize).edges, e) == RootCount(rooted + if r.inputs == [] then [r.runId] else [], e)
    {
      AddRunRootCount(g, r, emphasize, e);
      RootCountAppend(rooted, r.runId, e);
      assert Count(g.edges, e) == RootCount(rooted, e);
    }
  }

  lemma AddRunRoots(g: Graph, r: RunDetail, emphasize: bool)
    requires g.Valid() && !g.HasRun(r.runId) && ParkedKinds(g) && RootInv(g)
    ensures RootInv(AddRun(g, r, emphasize))
  {
    hide AddRun, RootedRuns, RootCounts, ParkedKinds;
    AddRunRootNodes(g, r, emphasize);
    AddRunRooted(g, r, emphasize);
    AddRunRootCounts(g, r, emphasize, RootedRuns(g));
  }

  lemma AddRunRootNodes(g: Graph, r: RunDetail, emphasize: bool)
    requires g.Valid()
    ensures AddRun(g, r, emphasize).Valid()
    ensures AddRun(g, r, emphasize).roots == g.roots + if r.inputs == [] then [RootNodeId(|g.roots|)] else []
  {
  }

  lemma AddRunOnlyLinks(g: Graph, r: RunDetail, emphasize: bool)
    requires ParkedKinds(g) && OnlyLinksAndRoots(g)
    ensures OnlyLinksAndRoots(AddRun(g, r, emphasize))
  {
    var fired := FireAll(Parked(g.thunkRun, r.runId), RunNodeId(r.runId));
    forall e | e in fired
      ensures IsLink(e)
    {
      FiredTouches(Parked(g.thunkRun, r.runId), RunNodeId(r.runId), e);
    }
  }

  lemma AddRunKinds(g: Graph, r: RunDetail, emphasize: bool)
    requires ParkedKinds(g)
    ensures ParkedKinds(AddRun(g, r, emphasize))
  {
    var data := g.dataNodes.entries.Keys;
    assert AllParkedAre(g.thunkData, false);
    ParkInputsKinds(g.thunkData, data, r.runId, r.inputs);
    ParkOutputsKinds(ParkInputs(g.thunkData, data, RunNodeId(r.runId), r.inputs), data, r.runId, r.outputs);
    assert AllParkedAre(AddRun(g, r, emphasize).thunkData, false);
  }

  lemma AddRunLinks(u: Universe, g: Graph, r: string, emphasize: bool)
    requires Mirrored(u) && NodesFrom(u, g) && ParkedKinds(g) && AllLinks(u, g) && r in u.runs && !g.HasRun(r)
    ensures AllLinks(u, AddRun(g, u.runs[r], emphasize))
  {
    forall e | IsLink(e)
      ensures LinkInv(u, AddRun(g, u.runs[r], emphasize), e)
    {
      assert LinkInv(u, g, e) && MirroredAt(u, e);
      AddRunLink(u, g, r, emphasize, e);
    }
  }

  lemma AddRunNodes(u: Universe, g: Graph, r: string, emphasize: bool)
    requires Keyed(u) && g.Valid() && NodesFrom(u, g) && r in u.runs
    ensures AddRun(g, u.runs[r], emphasize).Valid() && NodesFrom(u, AddRun(g, u.runs[r], emphasize))
  {
  }

  lemma AddRunInv(u: Universe, g: Graph, r: string, emphasize: bool)
    requires Mirrored(u) && Inv(u, g) && r in u.runs && !g.HasRun(r)
    ensures Inv(u, AddRun(g, u.runs[r], emphasize))
  {
    hide AddRun, NodesFrom, ParkedKinds, AllLinks, RootInv, OnlyLinksAndRoots, MirroredAt;
    AddRunNodes(u, g, r, emphasize);
    AddRunLinks(u, g, r, emphasize);
    AddRunRoots(g, u.runs[r], emphasize);
    AddRunOnlyLinks(g, u.runs[r], emphasize);
    AddRunKinds(g, u.runs[r], emphasize);
  }

  // ---- any order of additions ------------------------------------------------------------------

  datatype Arrival = DataArrives(knitId: string, emphasize: bool) | RunArrives(runId: string, emphasize: bool) {
    function Node(): NodeId {
      match this
      case DataArrives(k, _) => DataNodeId(k)
      case RunArrives(r, _) => RunNodeId(r)
    }

    predicate KnownTo(u: Universe) {
      match this
      case DataArrives(k, _) => k in u.data
      case RunArrives(r, _) => r in u.runs
    }
  }

  /** Nodes of the universe arrive, each at most once. */
  ghost predicate AtMostOnce(u: Universe, arrivals: seq<Arrival>) {
    && (forall i :: 0 <= i < |arrivals| ==> arrivals[i].KnownTo(u))
    && (forall i, j :: 0 <= i < j < |arrivals| ==> arrivals[i].Node() != arrivals[j].Node())
  }

  function Arrive(u: Universe, g: Graph, a: Arrival): Graph
    requires a.KnownTo(u)
  {
    match a
    case DataArrives(k, emphasize) => AddData(g, u.data[k], emphasize)
    case RunArrives(r, emphasize) => AddRun(g, u.runs[r], emphasize)
  }

  /** The graph after the nodes have been added one by one. */
  ghost function Build(u: Universe, arrivals: seq<Arrival>): Graph
    requires AtMostOnce(u, arrivals)
  {
    if arrivals == [] then EmptyGraph()
    else Arrive(u, Build(u, arrivals[..|arrivals| - 1]), arrivals[|arrivals| - 1])
  }

  ghost predicate Present(g: Graph, n: NodeId) {
    match n
    case DataNodeId(k) => g.HasData(k)
    case RunNodeId(r) => g.HasRun(r)
    case _ => false
  }

  ghost predicate Arrives(arrivals: seq<Arrival>, n: NodeId) {
    exists i :: 0 <= i < |arrivals| && arrivals[i].Node() == n
  }

  lemma ArrivePresent(u: Universe, g: Graph, a: Arrival, n: NodeId)
    requires Keyed(u) && a.KnownTo(u)
    ensures Present(Arrive(u, g, a), n) <==> Present(g, n) || a.Node() == n
  {
  }

  lemma ArrivesAppend(arrivals: seq<Arrival>, a: Arrival, n: NodeId)
    ensures Arrives(arrivals + [a], n) <==> Arrives(arrivals, n) || a.Node() == n
  {
    if Arrives(arrivals, n) {
      var i :| 0 <= i < |arrivals| && arrivals[i].Node() == n;
      assert (arrivals + [a])[i].Node() == n;
    }
    assert (arrivals + [a])[|arrivals|].Node() == a.Node();
  }

  lemma {:induction false} BuildNodes(u: Universe, arrivals: seq<Arrival>, n: NodeId)
    requires Keyed(u) && AtMostOnce(u, arrivals)
    ensures Present(Build(u, arrivals), n) <==> Arrives(arrivals, n)
  {
    hide Arrives, Present, Arrive;
    if arrivals == [] {
      NothingPresent(n);
    } else {
      var init, last := arrivals[..|arrivals| - 1], arrivals[|arrivals| - 1];
      BuildNodes(u, init, n);
      ArrivePresent(u, Build(u, init), last, n);
      ArrivesAppend(init, last, n);
      assert arrivals == init + [last];
    }
  }

  lemma NothingPresent(n: NodeId)
    ensures !Present(EmptyGraph(), n) && !Arrives([], n)
  {
  }

  /** Main result on the graph: whatever the order in which distinct nodes arrive, every declared
      link with both ends present is drawn exactly as often as declared, every link with one end
      present is parked exactly once per declaration, and roots match input-less runs one to one. */
  lemma {:induction false} BuildInv(u: Universe, arrivals: seq<Arrival>)
    requires Mirrored(u) && AtMostOnce(u, arrivals)
    ensures Inv(u, Build(u, arrivals))
  {
    hide Inv, AddData, AddRun, MirroredAt;
    if arrivals == [] {
      EmptyInv(u);
    } else {
      var init, last := arrivals[..|arrivals| - 1], arrivals[|arrivals| - 1];
      BuildInv(u, init);
      BuildNodes(u, init, last.Node());
      assert last.KnownTo(u);
      match last
      case DataArrives(k, emphasize) => AddDataInv(u, Build(u, init), k, emphasize);
      case RunArrives(r, emphasize) => AddRunInv(u, Build(u, init), r, emphasize);
    }
  }

  ghost predicate SameNodes(a: seq<Arrival>, b: seq<Arrival>) {
    forall n :: Arrives(a, n) <==> Arrives(b, n)
  }

  /** Two orders of the same arrivals draw the same links. */
  lemma OrderDoesNotMatter(u: Universe, a: seq<Arrival>, b: seq<Arrival>, e: Edge)
    requires Mirrored(u) && AtMostOnce(u, a) && AtMostOnce(u, b) && SameNodes(a, b) && IsLink(e)
    ensures Count(Build(u, a).edges, e) == Count(Build(u, b).edges, e)
  {
    BuildLink(u, a, e);
    BuildLink(u, b, e);
    BuildNodes(u, a, DataNodeId(KnitOf(e)));
    BuildNodes(u, b, DataNodeId(KnitOf(e)));
    BuildNodes(u, a, RunNodeId(RunOf(e)));
    BuildNodes(u, b, RunNodeId(RunOf(e)));
  }

  lemma BuildLink(u: Universe, a: seq<Arrival>, e: Edge)
    requires Mirrored(u) && AtMostOnce(u, a) && IsLink(e)
    ensures LinkInv(u, Build(u, a), e)
  {
    BuildInv(u, a);
  }

  /** A graph that has come about by adding distinct nodes of the universe. */
  ghost predicate Built(u: Universe, g: Graph) {
    exists arrivals :: AtMostOnce(u, arrivals) && g == Build(u, arrivals)
  }

  lemma BuiltEmpty(u: Universe)
    ensures Built(u, EmptyGraph())
  {
    assert AtMostOnce(u, []) && EmptyGraph() == Build(u, []);
  }

  lemma BuiltArrive(u: Universe, g: Graph, a: Arrival)
    requires Keyed(u) && Built(u, g) && a.KnownTo(u) && !Present(g, a.Node())
    ensures Built(u, Arrive(u, g, a))
  {
    hide Present, Arrive;
    var arrivals :| AtMostOnce(u, arrivals) && g == Build(u, arrivals);
    BuildNodes(u, arrivals, a.Node());
    var longer := arrivals + [a];
    assert longer[..|longer| - 1] == arrivals;
    assert AtMostOnce(u, longer) && Arrive(u, g, a) == Build(u, longer);
  }

  lemma BuiltInv(u: Universe, g: Graph)
    requires Mirrored(u) && Built(u, g)
    ensures Inv(u, g)
  {
    var arrivals :| AtMostOnce(u, arrivals) && g == Build(u, arrivals);
    BuildInv(u, arrivals);
  }

  lemma ArriveDetails(u: Universe, g: Graph, a: Arrival)
    requires Keyed(u) && a.KnownTo(u) && NodesFrom(u, g)
    ensures NodesFrom(u, Arrive(u, g, a))
  {
  }

  lemma {:induction false} BuildDetails(u: Universe, arrivals: seq<Arrival>)
    requires Keyed(u) && AtMostOnce(u, arrivals)
    ensures NodesFrom(u, Build(u, arrivals))
  {
    hide NodesFrom, Arrive;
    if arrivals == [] {
      NothingFrom(u);
    } else {
      var init, last := arrivals[..|arrivals| - 1], arrivals[|arrivals| - 1];
      BuildDetails(u, init);
      ArriveDetails(u, Build(u, init), last);
    }
  }

  lemma NothingFrom(u: Universe)
    ensures NodesFrom(u, EmptyGraph())
  {
  }

  lemma BuiltDetails(u: Universe, g: Graph)
    requires Keyed(u) && Built(u, g)
    ensures NodesFrom(u, g)
  {
    var arrivals :| AtMostOnce(u, arrivals) && g == Build(u, arrivals);
    BuildDetails(u, arrivals);
  }

  lemma DataThenRun(u: Universe, k: string, r: string, e: Edge)
    requires Keyed(u) && k in u.data && r in u.runs && IsLink(e) && KnitOf(e) == k && RunOf(e) == r
    ensures Count(AddRun(AddData(EmptyGraph(), u.data[k], false), u.runs[r], false).edges, e) == DeclaredByData(u, e)
  {
    var g := AddData(EmptyGraph(), u.data[k], false);
    AddDataKinds(EmptyGraph(), u.data[k], false);
    AddDataEdges(EmptyGraph(), u.data[k], false, e);
    AddDataPendingOnRun(EmptyGraph(), u.data[k], false, e);
    AddRunEdges(g, u.runs[r], false, e);
  }

  lemma RunThenData(u: Universe, k: string, r: string, e: Edge)
    requires Keyed(u) && k in u.data && r in u.runs && IsLink(e) && KnitOf(e) == k && RunOf(e) == r
    ensures Count(AddData(AddRun(EmptyGraph(), u.runs[r], false), u.data[k], false).edges, e) == DeclaredByRun(u, e)
  {
    var g := AddRun(EmptyGraph(), u.runs[r], false);
    AddRunKinds(EmptyGraph(), u.runs[r], false);
    AddRunEdges(EmptyGraph(), u.runs[r], false, e);
    AddRunPendingOnData(EmptyGraph(), u.runs[r], false, e);
    AddDataEdges(g, u.data[k], false, e);
  }

  /** Mirrored details are not only enough for order independence but needed for it: whichever
      endpoint arrives first has its declaration drawn. */
  lemma OrderMattersIffUnmirrored(u: Universe, k: string, r: string, e: Edge)
    requires Keyed(u) && k in u.data && r in u.runs && IsLink(e) && KnitOf(e) == k && RunOf(e) == r
    ensures Count(AddRun(AddData(EmptyGraph(), u.data[k], false), u.runs[r], false).edges, e)
         == Count(AddData(AddRun(EmptyGraph(), u.runs[r], false), u.data[k], false).edges, e)
       <==> MirroredAt(u, e)
  {
    DataThenRun(u, k, r, e);
    RunThenData(u, k, r, e);
  }
}
