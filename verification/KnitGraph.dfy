/** The directed graph of cmd/knit/knitgraph/graph.go, as far as data and runs go.

    An edge is created lazily: the endpoint that arrives first parks a thunk under the key of the
    other endpoint, and the second one fires it. A thunk is kept here as the record of what it
    closes over: the parked endpoint, the direction and the label. */
module KnitGraph {
  import opened Results
  import opened OrderedMaps

  // ---- what the REST API answers -------------------------------------------------------------

  datatype Assignment = Assignment(knitId: string, path: string)

  datatype RunDetail = RunDetail(runId: string, inputs: seq<Assignment>, outputs: seq<Assignment>, log: Option<string>)

  datatype CreatedFrom = CreatedFrom(runId: string, mountpoint: Option<string>, log: bool)

  datatype AssignedTo = AssignedTo(runId: string, path: string)

  datatype DataDetail = DataDetail(knitId: string, upstream: CreatedFrom, downstreams: seq<AssignedTo>)

  // ---- nodes, edges and thunks ---------------------------------------------------------------

  datatype NodeId =
    | DataNodeId(knitId: string)
    | RunNodeId(runId: string)
    | RootNodeId(index: nat)
    | MountNodeId(planId: string, path: string)
    | PlanLogNodeId(planId: string)

  datatype Edge = Edge(fromId: NodeId, toId: NodeId, caption: string)

  datatype DataNode = DataNode(detail: DataDetail, emphasize: bool)

  datatype RunNode = RunNode(detail: RunDetail, emphasize: bool)

  datatype Thunk =
    | ToParked(parked: NodeId, caption: string)
    | FromParked(parked: NodeId, caption: string)
  {
    function Fire(arrived: NodeId): Edge {
      match this
      case ToParked(node, caption) => Edge(arrived, node, caption)
      case FromParked(node, caption) => Edge(node, arrived, caption)
    }
  }

  type ThunkTable = map<string, seq<Thunk>>

  function Parked<K>(table: map<K, seq<Thunk>>, key: K): seq<Thunk> {
    if key in table then table[key] else []
  }

  function Park<K>(table: map<K, seq<Thunk>>, key: K, thunk: Thunk): map<K, seq<Thunk>> {
    table[key := Parked(table, key) + [thunk]]
  }

  function FireAll(thunks: seq<Thunk>, arrived: NodeId): (es: seq<Edge>)
    ensures |es| == |thunks|
  {
    seq(|thunks|, i requires 0 <= i < |thunks| => thunks[i].Fire(arrived))
  }

  datatype Graph = Graph(
    dataNodes: Ordered<string, DataNode>,
    runNodes: Ordered<string, RunNode>,
    roots: seq<NodeId>,
    edges: seq<Edge>,
    thunkData: ThunkTable,
    thunkRun: ThunkTable)
  {
    ghost predicate Valid() {
      dataNodes.Valid() && runNodes.Valid()
    }

    predicate HasData(knitId: string) {
      dataNodes.Has(knitId)
    }

    predicate HasRun(runId: string) {
      runNodes.Has(runId)
    }

    ghost function Data(): set<string> {
      dataNodes.entries.Keys
    }

    ghost function Runs(): set<string> {
      runNodes.entries.Keys
    }
  }

  function EmptyGraph(): (g: Graph)
    ensures g.Valid()
  {
    Graph(Empty(), Empty(), [], [], map[], map[])
  }

  // ---- what the two Add operations do --------------------------------------------------------

  function ParkUpstream(table: ThunkTable, node: NodeId, up: CreatedFrom): ThunkTable {
    if up.mountpoint.Some? then Park(table, up.runId, ToParked(node, up.mountpoint.value))
    else if up.log then Park(table, up.runId, ToParked(node, "(log)"))
    else table[up.runId := Parked(table, up.runId)]
  }

  function ParkDownstreams(table: ThunkTable, runs: set<string>, node: NodeId, ds: seq<AssignedTo>): ThunkTable {
    if ds == [] then table
    else
      var rest := ParkDownstreams(table, runs, node, ds[..|ds| - 1]);
      var last := ds[|ds| - 1];
      if last.runId in runs then rest else Park(rest, last.runId, FromParked(node, last.path))
  }

  function ParkInputs(table: ThunkTable, data: set<string>, node: NodeId, ins: seq<Assignment>): ThunkTable {
    if ins == [] then table
    else
      var rest := ParkInputs(table, data, node, ins[..|ins| - 1]);
      var last := ins[|ins| - 1];
      if last.knitId in data then rest else Park(rest, last.knitId, ToParked(node, last.path))
  }

  function ParkOutputs(table: ThunkTable, data: set<string>, node: NodeId, outs: seq<Assignment>): ThunkTable {
    if outs == [] then table
    else
      var rest := ParkOutputs(table, data, node, outs[..|outs| - 1]);
      var last := outs[|outs| - 1];
      if last.knitId in data then rest else Park(rest, last.knitId, FromParked(node, last.path))
  }

  function ParkLog(table: ThunkTable, data: set<string>, node: NodeId, log: Option<string>): ThunkTable {
    if log.None? || log.value in data then table
    else Park(table, log.value, FromParked(node, "(log)"))
  }

  function AddData(g: Graph, d: DataDetail, emphasize: bool): (g': Graph)
    ensures g.Valid() ==> g'.Valid()
  {
    var node := DataNodeId(d.knitId);
    var runs := g.runNodes.entries.Keys;
    var thunkRun := if d.upstream.runId in runs then g.thunkRun else ParkUpstream(g.thunkRun, node, d.upstream);
    g.(dataNodes := g.dataNodes.Set(d.knitId, DataNode(d, emphasize)),
       edges := g.edges + FireAll(Parked(g.thunkData, d.knitId), node),
       thunkData := g.thunkData - {d.knitId},
       thunkRun := ParkDownstreams(thunkRun, runs, node, d.downstreams))
  }

  function AddRun(g: Graph, r: RunDetail, emphasize: bool): (g': Graph)
    ensures g.Valid() ==> g'.Valid()
  {
    var node := RunNodeId(r.runId);
    var data := g.dataNodes.entries.Keys;
    var afterInputs := ParkInputs(g.thunkData, data, node, r.inputs);
    var afterOutputs := ParkOutputs(afterInputs, data, node, r.outputs);
    var root := RootNodeId(|g.roots|);
    g.(runNodes := g.runNodes.Set(r.runId, RunNode(r, emphasize)),
       roots := if r.inputs == [] then g.roots + [root] else g.roots,
       edges := g.edges + FireAll(Parked(g.thunkRun, r.runId), node)
                + if r.inputs == [] then [Edge(root, node, "")] else [],
       thunkRun := g.thunkRun - {r.runId},
       thunkData := ParkLog(afterOutputs, data, node, r.log))
  }

  // ---- the object ----------------------------------------------------------------------------

  class DirectedGraph {
    var dataNodes: Ordered<string, DataNode>
    var runNodes: Ordered<string, RunNode>
    var rootNodes: seq<NodeId>
    var edges: seq<Edge>
    var thunkData: ThunkTable
    var thunkRun: ThunkTable

    ghost function View(): Graph
      reads this
    {
      Graph(dataNodes, runNodes, rootNodes, edges, thunkData, thunkRun)
    }

    constructor ()
      ensures View() == EmptyGraph()
    {
      dataNodes, runNodes, rootNodes, edges := Empty(), Empty(), [], [];
      thunkData, thunkRun := map[], map[];
    }

    method AddEdge(fromId: NodeId, toId: NodeId, caption: string)
      modifies this`edges
      ensures edges == old(edges) + [Edge(fromId, toId, caption)]
    {
      edges := edges + [Edge(fromId, toId, caption)];
    }

    method AddRootNode() returns (id: NodeId)
      modifies this`rootNodes
      ensures id == RootNodeId(|old(rootNodes)|) && rootNodes == old(rootNodes) + [id]
    {
      id := RootNodeId(|rootNodes|);
      rootNodes := rootNodes + [id];
    }

    /** Runs the thunks in the order in which they were parked. */
    method Invoke(thunks: seq<Thunk>, arrived: NodeId)
      modifies this`edges
      ensures edges == old(edges) + FireAll(thunks, arrived)
    {
      for i := 0 to |thunks|
        invariant edges == old(edges) + FireAll(thunks[..i], arrived)
      {
        FireAllAppend(thunks[..i], thunks[i], arrived);
        assert thunks[..i + 1] == thunks[..i] + [thunks[i]];
        var e := thunks[i].Fire(arrived);
        AddEdge(e.fromId, e.toId, e.caption);
      }
      assert thunks[..|thunks|] == thunks;
    }

    method AddDataNode(data: DataDetail, emphasize: bool) returns (id: NodeId)
      modifies this
      ensures View() == AddData(old(View()), data, emphasize)
      ensures id == DataNodeId(data.knitId)
    {
      id := DataNodeId(data.knitId);
      dataNodes := dataNodes.Set(data.knitId, DataNode(data, emphasize));
      Invoke(Parked(thunkData, data.knitId), id);
      thunkData := thunkData - {data.knitId};

      ParkForUpstream(id, data.upstream);
      ParkForDownstreams(id, data.downstreams);
    }

    method ParkForUpstream(id: NodeId, up: CreatedFrom)
      modifies this`thunkRun
      ensures thunkRun == if runNodes.Has(up.runId) then old(thunkRun) else ParkUpstream(old(thunkRun), id, up)
    {
      if !runNodes.Has(up.runId) {
        var thunks := Parked(thunkRun, up.runId);
        thunkRun := thunkRun[up.runId := thunks];
        if up.log {
          thunkRun := thunkRun[up.runId := thunks + [ToParked(id, "(log)")]];
        }
        if up.mountpoint.Some? {
          thunkRun := thunkRun[up.runId := thunks + [ToParked(id, up.mountpoint.value)]];
        }
      }
    }

    method ParkForDownstreams(id: NodeId, ds: seq<AssignedTo>)
      modifies this`thunkRun
      ensures thunkRun == ParkDownstreams(old(thunkRun), runNodes.entries.Keys, id, ds)
    {
      for i := 0 to |ds|
        invariant thunkRun == ParkDownstreams(old(thunkRun), runNodes.entries.Keys, id, ds[..i])
      {
        assert ds[..i + 1][..i] == ds[..i];
        if runNodes.Has(ds[i].runId) {
          continue;
        }
        var thunks := Parked(thunkRun, ds[i].runId);
        thunkRun := thunkRun[ds[i].runId := thunks + [FromParked(id, ds[i].path)]];
      }
      assert ds[..|ds|] == ds;
    }

    method AddRunNode(run: RunDetail, emphasize: bool) returns (id: NodeId)
      modifies this
      ensures View() == AddRun(old(View()), run, emphasize)
      ensures id == RunNodeId(run.runId)
    {
      hide FireAll, ParkInputs, ParkOutputs, ParkLog;
      id := RunNodeId(run.runId);
      runNodes := runNodes.Set(run.runId, RunNode(run, emphasize));
      Invoke(Parked(thunkRun, run.runId), id);
      thunkRun := thunkRun - {run.runId};

      ParkInputThunks(id, run.inputs);
      ParkOutputThunks(id, run.outputs);
      ParkLogThunk(id, run.log);
      if |run.inputs| == 0 {
        var rootId := AddRootNode();
        AddEdge(rootId, id, "");
      }
    }

    method ParkLogThunk(id: NodeId, log: Option<string>)
      modifies this`thunkData
      ensures thunkData == ParkLog(old(thunkData), dataNodes.entries.Keys, id, log)
    {
      if log.Some? && !dataNodes.Has(log.value) {
        var thunks := Parked(thunkData, log.value);
        thunkData := thunkData[log.value := thunks + [FromParked(id, "(log)")]];
      }
    }

    method ParkInputThunks(id: NodeId, ins: seq<Assignment>)
      modifies this`thunkData
      ensures thunkData == ParkInputs(old(thunkData), dataNodes.entries.Keys, id, ins)
    {
      for i := 0 to |ins|
        invariant thunkData == ParkInputs(old(thunkData), dataNodes.entries.Keys, id, ins[..i])
      {
        assert ins[..i + 1][..i] == ins[..i];
        if dataNodes.Has(ins[i].knitId) {
          continue;
        }
        var thunks := Parked(thunkData, ins[i].knitId);
        thunkData := thunkData[ins[i].knitId := thunks + [ToParked(id, ins[i].path)]];
      }
      assert ins[..|ins|] == ins;
    }

    method ParkOutputThunks(id: NodeId, outs: seq<Assignment>)
      modifies this`thunkData
      ensures thunkData == ParkOutputs(old(thunkData), dataNodes.entries.Keys, id, outs)
    {
      for i := 0 to |outs|
        invariant thunkData == ParkOutputs(old(thunkData), dataNodes.entries.Keys, id, outs[..i])
      {
        assert outs[..i + 1][..i] == outs[..i];
        if dataNodes.Has(outs[i].knitId) {
          continue;
        }
        var thunks := Parked(thunkData, outs[i].knitId);
        thunkData := thunkData[outs[i].knitId := thunks + [FromParked(id, outs[i].path)]];
      }
      assert outs[..|outs|] == outs;
    }
  }

  lemma FireAllAppend(thunks: seq<Thunk>, t: Thunk, arrived: NodeId)
    ensures FireAll(thunks + [t], arrived) == FireAll(thunks, arrived) + [t.Fire(arrived)]
  {
  }

  // ---- declared links ------------------------------------------------------------------------

  /** An edge between a data node and a run node, in either direction. */
  predicate IsLink(e: Edge) {
    (e.fromId.DataNodeId? && e.toId.RunNodeId?) || (e.fromId.RunNodeId? && e.toId.DataNodeId?)
  }

  function KnitOf(e: Edge): string
    requires IsLink(e)
  {
    if e.fromId.DataNodeId? then e.fromId.knitId else e.toId.knitId
  }

  function RunOf(e: Edge): string
    requires IsLink(e)
  {
    if e.fromId.RunNodeId? then e.fromId.runId else e.toId.runId
  }

  function InputLinks(runId: string, ins: seq<Assignment>): seq<Edge> {
    seq(|ins|, i requires 0 <= i < |ins| => Edge(DataNodeId(ins[i].knitId), RunNodeId(runId), ins[i].path))
  }

  function OutputLinks(runId: string, outs: seq<Assignment>): seq<Edge> {
    seq(|outs|, i requires 0 <= i < |outs| => Edge(RunNodeId(runId), DataNodeId(outs[i].knitId), outs[i].path))
  }

  /** The links that a run declares. */
  function RunLinks(r: RunDetail): seq<Edge> {
    InputLinks(r.runId, r.inputs) + OutputLinks(r.runId, r.outputs)
    + if r.log.Some? then [Edge(RunNodeId(r.runId), DataNodeId(r.log.value), "(log)")] else []
  }

  function UpLinks(knitId: string, up: CreatedFrom): seq<Edge> {
    if up.mountpoint.Some? then [Edge(RunNodeId(up.runId), DataNodeId(knitId), up.mountpoint.value)]
    else if up.log then [Edge(RunNodeId(up.runId), DataNodeId(knitId), "(log)")]
    else []
  }

  function DownLinks(knitId: string, ds: seq<AssignedTo>): seq<Edge> {
    seq(|ds|, i requires 0 <= i < |ds| => Edge(DataNodeId(knitId), RunNodeId(ds[i].runId), ds[i].path))
  }

  /** The links that a data declares. */
  function DataLinks(d: DataDetail): seq<Edge> {
    UpLinks(d.knitId, d.upstream) + DownLinks(d.knitId, d.downstreams)
  }

  // ---- the universe the API serves -----------------------------------------------------------

  datatype Universe = Universe(data: map<string, DataDetail>, runs: map<string, RunDetail>)

  /** How often the link `e` is declared by its data, and by its run. */
  ghost function DeclaredByData(u: Universe, e: Edge): nat
    requires IsLink(e)
  {
    if KnitOf(e) in u.data then multiset(DataLinks(u.data[KnitOf(e)]))[e] else 0
  }

  ghost function DeclaredByRun(u: Universe, e: Edge): nat
    requires IsLink(e)
  {
    if RunOf(e) in u.runs then multiset(RunLinks(u.runs[RunOf(e)]))[e] else 0
  }

  ghost predicate Keyed(u: Universe) {
    && (forall k :: k in u.data ==> u.data[k].knitId == k)
    && (forall r :: r in u.runs ==> u.runs[r].runId == r)
  }

  /** A data and a run tell the same story about the links between them. */
  ghost predicate MirroredAt(u: Universe, e: Edge)
    requires IsLink(e)
  {
    KnitOf(e) in u.data && RunOf(e) in u.runs ==> DeclaredByData(u, e) == DeclaredByRun(u, e)
  }

  ghost predicate Mirrored(u: Universe) {
    && Keyed(u)
    && (forall e :: IsLink(e) ==> MirroredAt(u, e))
  }

  // ---- the invariant -------------------------------------------------------------------------

  ghost function Count(es: seq<Edge>, e: Edge): nat {
    multiset(es)[e]
  }

  ghost function PendingOnRun(g: Graph, e: Edge): nat
    requires IsLink(e)
  {
    Count(FireAll(Parked(g.thunkRun, RunOf(e)), RunNodeId(RunOf(e))), e)
  }

  ghost function PendingOnData(g: Graph, e: Edge): nat
    requires IsLink(e)
  {
    Count(FireAll(Parked(g.thunkData, KnitOf(e)), DataNodeId(KnitOf(e))), e)
  }

  /** A link is drawn exactly as often as declared once both ends are present, and waits in exactly
      one of the tables, exactly as often as declared, while exactly one end is. */
  ghost predicate LinkInv(u: Universe, g: Graph, e: Edge)
    requires IsLink(e)
  {
    var hasData, hasRun := g.HasData(KnitOf(e)), g.HasRun(RunOf(e));
    && Count(g.edges, e) == (if hasData && hasRun then DeclaredByRun(u, e) else 0)
    && PendingOnRun(g, e) == (if hasData && !hasRun then DeclaredByData(u, e) else 0)
    && PendingOnData(g, e) == (if hasRun && !hasData then DeclaredByRun(u, e) else 0)
  }

  ghost predicate AllLinks(u: Universe, g: Graph) {
    forall e :: IsLink(e) ==> LinkInv(u, g, e)
  }

  ghost predicate NodesFrom(u: Universe, g: Graph) {
    && (forall k :: g.HasData(k) ==> k in u.data && g.dataNodes.entries[k].detail == u.data[k])
    && (forall r :: g.HasRun(r) ==> r in u.runs && g.runNodes.entries[r].detail == u.runs[r])
  }

  /** Only data nodes wait for runs, and only run nodes wait for data. */
  ghost predicate ParkedKinds(g: Graph) {
    && (forall r, t :: r in g.thunkRun && t in g.thunkRun[r] ==> t.parked.DataNodeId?)
    && (forall k, t :: k in g.thunkData && t in g.thunkData[k] ==> t.parked.RunNodeId?)
  }

  /** The runs without inputs, in the order in which they were added. */
  function InputlessRuns(keys: seq<string>, runs: map<string, RunNode>): (rs: seq<string>)
    requires forall k :: k in keys ==> k in runs
    ensures forall r :: r in rs <==> r in keys && runs[r].detail.inputs == []
  {
    if keys == [] then []
    else
      var last := keys[|keys| - 1];
      InputlessRuns(keys[..|keys| - 1], runs) + if runs[last].detail.inputs == [] then [last] else []
  }

  function RootedRuns(g: Graph): seq<string>
    requires g.Valid()
  {
    assert forall k :: k in g.runNodes.keys ==> k in (set x | x in g.runNodes.keys);
    InputlessRuns(g.runNodes.keys, g.runNodes.entries)
  }

  ghost function RootCount(rooted: seq<string>, e: Edge): nat
    requires e.fromId.RootNodeId?
  {
    var j := e.fromId.index;
    if j < |rooted| && e.toId == RunNodeId(rooted[j]) && e.caption == "" then 1 else 0
  }

  ghost predicate RootCounts(es: seq<Edge>, rooted: seq<string>) {
    forall e: Edge :: e.fromId.RootNodeId? ==> Count(es, e) == RootCount(rooted, e)
  }

  /** The j-th root node has exactly one edge, to the j-th run without inputs. */
  ghost predicate RootInv(g: Graph)
    requires g.Valid()
  {
    var rooted := RootedRuns(g);
    && |g.roots| == |rooted|
    && (forall j :: 0 <= j < |g.roots| ==> g.roots[j] == RootNodeId(j))
    && RootCounts(g.edges, rooted)
  }

  ghost predicate OnlyLinksAndRoots(g: Graph) {
    forall e :: e in g.edges ==> IsLink(e) || e.fromId.RootNodeId?
  }

  ghost predicate Inv(u: Universe, g: Graph) {
    && g.Valid()
    && NodesFrom(u, g)
    && ParkedKinds(g)
    && AllLinks(u, g)
    && RootInv(g)
    && OnlyLinksAndRoots(g)
  }

  lemma EmptyInv(u: Universe)
    ensures Inv(u, EmptyGraph())
  {
    forall e | IsLink(e)
      ensures LinkInv(u, EmptyGraph(), e)
    {
    }
  }
}
