/** What the lineage command of cmd/knit/subcommands/data/lineage/command.go shows of the tables behind the
    API: which run made a data, and which runs it is assigned to. */
module RunRelations {
  import opened Results
  import opened KnitGraph
  import opened LazyEdges
  import opened Reachability
  import opened Depths
  import L = Lineage
  import T = LineageTask
  import opened LineageLinks
  import opened Ledgers
  import opened RunOutputs
  import opened Outcomes
  import opened Orders
  import opened PlanDetails
  import opened RunDetails

  /** The data is assigned to an input of the run. */
  ghost predicate Consumes(db: Db, r: string, k: string) {
    exists a :: a in db.ledger.assign && a.0 == r && db.ledger.assign[a] == k
  }

  predicate Produces(db: Db, r: string, k: string) {
    k in db.tables.data && db.tables.data[k] == r
  }

  /** The runs that the search goes to from a data. */
  ghost function RunsOn(db: Db, dir: L.Direction, k: string): set<string> {
    set s | s in db.tables.run && Alive(db.tables, s) && if dir == L.Upstream then Produces(db, s, k) else Consumes(db, s, k)
  }

  /** Runs whose data are assigned to others. */
  ghost function Flow(db: Db, dir: L.Direction): Adjacency {
    map r | r in db.tables.run && Alive(db.tables, r) ::
      set s | s in db.tables.run && Alive(db.tables, s) && FlowsBy(db, dir, r, s)
  }

  ghost predicate FlowsBy(db: Db, dir: L.Direction, r: string, s: string) {
    exists k :: k in db.tables.data &&
      if dir == L.Upstream then Produces(db, s, k) && Consumes(db, r, k) else Produces(db, r, k) && Consumes(db, s, k)
  }

  ghost function FlowWithin(db: Db, dir: L.Direction, root: string, depth: Depth): set<string> {
    var adj, start := Flow(db, dir), RunsOn(db, dir, root);
    if depth.infinity then set r | r in db.tables.run && Alive(db.tables, r) && InSomeDepth(adj, start, {}, r)
    else Within(adj, start, {}, depth.n)
  }

  // ---- links are rows ----------------------------------------------------------------------------

  lemma TakesIsAssigned(db: Db, m: Mounts, uses: Uses, r: string, k: string)
    requires Coherent(db, m, uses) && Assemblable(db, m, uses) && Alive(db.tables, r)
    ensures Takes(RunOfTables(db, m, r), k) <==> Consumes(db, r, k)
  {
    TakesIsInput(RunOfTables(db, m, r), k);
    AssignedInputs(db, m, uses, r);
    hide Coherent, Assemblable, RunOfTables, Takes;
    if Takes(RunOfTables(db, m, r), k) {
      InputsClosed(db, m, uses, r, k);
      var i :| (r, i) in db.ledger.assign && db.ledger.assign[(r, i)] == k;
      assert (r, i).0 == r;
    }
    if Consumes(db, r, k) {
      var a :| a in db.ledger.assign && a.0 == r && db.ledger.assign[a] == k;
      var i := a.1;
      assert a == (r, i);
      InputListed(db, m, r, i);
    }
  }

  lemma InputListed(db: Db, m: Mounts, r: string, i: int)
    requires r in db.ledger.planOfRun && db.ledger.planOfRun[r] in m.inputs && db.ledger.planOfRun[r] in m.outputs
    requires i in m.inputs[db.ledger.planOfRun[r]]
    ensures AssignedData(db.ledger, r, i) in L.NextData(L.Upstream, RunOfTables(db, m, r))
  {
    var detail, ids := RunOfTables(db, m, r), m.inputs[db.ledger.planOfRun[r]];
    var j :| 0 <= j < |ids| && ids[j] == i;
    assert detail.inputs[j] in detail.inputs;
  }

  lemma MakesIsProduced(db: Db, m: Mounts, uses: Uses, r: string, k: string)
    requires Coherent(db, m, uses) && Assemblable(db, m, uses) && Alive(db.tables, r)
    ensures Makes(RunOfTables(db, m, r), k) <==> Produces(db, r, k)
  {
    var detail := RunOfTables(db, m, r);
    MakesIsOutput(detail, k);
    if Makes(detail, k) {
      OutputsClosed(db, m, uses, r, k);
    }
    if Produces(db, r, k) {
      var o := OutputKnown(db, m, uses, r, k);
      DataForMeans(db, m, uses, r, o, k);
      OutputsOfRun(db, m, uses, r);
      OutputListed(db, m, r, o, k);
    }
  }

  lemma OutputKnown(db: Db, m: Mounts, uses: Uses, r: string, k: string) returns (o: int)
    requires Coherent(db, m, uses) && Alive(db.tables, r) && Produces(db, r, k)
    ensures OutputFor(db.ledger, r, o) && IsOutput(db, r, o, k)
  {
    hide InputRowsOf, OutputRowsOf, UsesOf, Filled, InvalidatedAreEmpty, Complete;
    assert MadeAs(db, k);
    o := db.ledger.outputOfData[k];
  }

  lemma OutputListed(db: Db, m: Mounts, r: string, o: int, k: string)
    requires r in db.ledger.planOfRun && db.ledger.planOfRun[r] in m.inputs && db.ledger.planOfRun[r] in m.outputs
    requires DataFor(db, r, o) == k
    requires o in m.outputs[db.ledger.planOfRun[r]] || (db.ledger.planOfRun[r] in m.logOf && m.logOf[db.ledger.planOfRun[r]] == o)
    ensures k in L.NextData(L.Downstream, RunOfTables(db, m, r))
  {
    var detail, ids := RunOfTables(db, m, r), m.outputs[db.ledger.planOfRun[r]];
    if o in ids {
      var j :| 0 <= j < |ids| && ids[j] == o;
      assert detail.outputs[j] in detail.outputs;
    }
  }

  /** Links of the served runs are rows of the tables. */
  ghost predicate Agrees(u: Universe, db: Db) {
    && u.data.Keys == db.tables.data.Keys && (forall r :: r in u.runs <==> Alive(db.tables, r))
    && (forall r, k :: r in u.runs ==> (Takes(u.runs[r], k) <==> Consumes(db, r, k)))
    && (forall r, k :: r in u.runs ==> (Makes(u.runs[r], k) <==> Produces(db, r, k)))
  }

  lemma ServedAgrees(db: Db, m: Mounts, uses: Uses)
    requires Coherent(db, m, uses) && Assemblable(db, m, uses)
    ensures Agrees(Served(db, m, uses), db)
  {
    ServedMeans(db, m, uses);
    hide Coherent, Assemblable, Served, RunOfTables, Takes, Makes, Consumes, Produces;
    forall r, k | Alive(db.tables, r)
      ensures Takes(RunOfTables(db, m, r), k) <==> Consumes(db, r, k)
      ensures Makes(RunOfTables(db, m, r), k) <==> Produces(db, r, k)
    {
      TakesIsAssigned(db, m, uses, r, k);
      MakesIsProduced(db, m, uses, r, k);
    }
  }

  lemma RunsAtIsRunsOn(u: Universe, db: Db, dir: L.Direction, k: string)
    requires Agrees(u, db)
    ensures RunsAt(u, dir, k) == RunsOn(db, dir, k)
  {
    hide Takes, Makes, Consumes, Produces;
  }

  lemma FeedsIsFlow(u: Universe, db: Db, dir: L.Direction, r: string, s: string)
    requires Agrees(u, db) && r in u.runs && s in u.runs
    ensures FlowsBy(db, dir, r, s) <==> if dir == L.Upstream then Feeds(u, s, r) else Feeds(u, r, s)
  {
    hide Takes, Makes, Consumes, Produces;
  }

  lemma LinkedIsFlow(u: Universe, db: Db, dir: L.Direction)
    requires Agrees(u, db)
    ensures LinkedRuns(u, dir) == Flow(db, dir)
  {
    forall r, s | r in u.runs && s in u.runs
      ensures FlowsBy(db, dir, r, s) <==> if dir == L.Upstream then Feeds(u, s, r) else Feeds(u, r, s)
    {
      FeedsIsFlow(u, db, dir, r, s);
    }
    hide Feeds, FlowsBy, Takes, Makes, Consumes, Produces;
    forall r | r in u.runs
      ensures LinkedRuns(u, dir)[r] == Flow(db, dir)[r]
    {
    }
  }

  lemma WithinIsFlow(u: Universe, db: Db, dir: L.Direction, root: string, depth: Depth)
    requires Agrees(u, db)
    ensures LinkedWithin(u, dir, root, depth) == FlowWithin(db, dir, root, depth)
  {
    LinkedIsFlow(u, db, dir);
    RunsAtIsRunsOn(u, db, dir, root);
    hide LinkedRuns, Flow, RunsAt, RunsOn, Within, Takes, Makes, Consumes, Produces;
  }

  // ---- edges -------------------------------------------------------------------------------------

  /** The edge of an assignment, or of a data and the run that made it, with both ends shown. */
  ghost predicate RowEdge(db: Db, m: Mounts, g: Graph, e: Edge) {
    || (exists a :: a in db.ledger.assign && a.0 in g.Runs() && db.ledger.assign[a] in g.Data() && TakesEdge(db.ledger, m, a) == e)
    || (exists k :: k in db.tables.data && k in db.ledger.outputOfData && db.tables.data[k] in g.Runs() && k in g.Data() && MakesEdge(db, m, k) == e)
  }

  /** Every such edge is drawn once, and no other link is. */
  ghost predicate DrawsRows(db: Db, m: Mounts, g: Graph) {
    forall e :: IsLink(e) ==> Count(g.edges, e) == if RowEdge(db, m, g, e) then 1 else 0
  }

  lemma TakesDeclared(db: Db, m: Mounts, uses: Uses, r: string, e: Edge)
    requires Coherent(db, m, uses) && Assemblable(db, m, uses) && Alive(db.tables, r)
    requires e.fromId.DataNodeId? && e.toId == RunNodeId(r)
    ensures multiset(RunLinks(RunOfTables(db, m, r)))[e]
      == if exists a :: a in db.ledger.assign && TakesEdge(db.ledger, m, a) == e then 1 else 0
  {
    TakenByRun(db, m, uses, r, e);
    AssignedInputs(db, m, uses, r);
    hide Coherent, Assemblable, RunLinks, RunOfTables;
    if a :| a in db.ledger.assign && TakesEdge(db.ledger, m, a) == e {
      assert a == (r, a.1);
    }
  }

  lemma MakesDeclared(db: Db, m: Mounts, uses: Uses, r: string, e: Edge)
    requires Coherent(db, m, uses) && Assemblable(db, m, uses) && Alive(db.tables, r)
    requires e.toId.DataNodeId? && e.fromId == RunNodeId(r)
    ensures multiset(RunLinks(RunOfTables(db, m, r)))[e]
      == if exists k :: k in db.tables.data && k in db.ledger.outputOfData && MakesEdge(db, m, k) == e then 1 else 0
  {
    var k := e.toId.knitId;
    if k in db.tables.data {
      MadeByData(db, m, uses, k, e);
      SameMakes(db, m, uses, k, r, e);
    } else if multiset(RunLinks(RunOfTables(db, m, r)))[e] > 0 {
      assert e in RunLinks(RunOfTables(db, m, r));
      MakesIsProduced(db, m, uses, r, k);
    }
    MadeByRun(db, m, uses, r, e);
    hide Coherent, RunLinks, RunOfTables, OutputFor, DrawnFrom;
  }

  lemma CountOfLink(u: Universe, g: Graph, e: Edge)
    requires Inv(u, g) && IsLink(e)
    ensures Count(g.edges, e) == if KnitOf(e) in g.Data() && RunOf(e) in g.Runs() then DeclaredByRun(u, e) else 0
    ensures RunOf(e) in g.Runs() ==> RunOf(e) in u.runs
  {
    hide RootInv, ParkedKinds, OnlyLinksAndRoots, DeclaredByRun, DeclaredByData, PendingOnRun, PendingOnData;
    assert LinkInv(u, g, e);
    assert RunOf(e) in g.Runs() ==> g.HasRun(RunOf(e));
  }

  /** Some row stands for the edge. */
  ghost predicate HasRow(db: Db, m: Mounts, e: Edge)
    requires IsLink(e)
  {
    if e.fromId.DataNodeId? then exists a :: a in db.ledger.assign && TakesEdge(db.ledger, m, a) == e
    else exists k :: k in db.tables.data && k in db.ledger.outputOfData && MakesEdge(db, m, k) == e
  }

  lemma RowDeclared(db: Db, m: Mounts, uses: Uses, e: Edge)
    requires Coherent(db, m, uses) && Assemblable(db, m, uses) && IsLink(e) && Alive(db.tables, RunOf(e))
    ensures DeclaredByRun(Served(db, m, uses), e) == if HasRow(db, m, e) then 1 else 0
  {
    ServedMeans(db, m, uses);
    hide Coherent, Assemblable, Served, RunOfTables, RunLinks, TakesEdge, MakesEdge;
    if e.fromId.DataNodeId? {
      TakesDeclared(db, m, uses, RunOf(e), e);
    } else {
      MakesDeclared(db, m, uses, RunOf(e), e);
    }
  }

  lemma RowEdgeMeans(db: Db, m: Mounts, g: Graph, e: Edge)
    requires IsLink(e)
    ensures RowEdge(db, m, g, e) <==> RunOf(e) in g.Runs() && KnitOf(e) in g.Data() && HasRow(db, m, e)
  {
    forall a | a in db.ledger.assign && TakesEdge(db.ledger, m, a) == e
      ensures e.fromId.DataNodeId? && a.0 == RunOf(e) && db.ledger.assign[a] == KnitOf(e)
    {
      assert a == (a.0, a.1);
    }
    forall k | k in db.tables.data && k in db.ledger.outputOfData && MakesEdge(db, m, k) == e
      ensures e.fromId.RunNodeId? && db.tables.data[k] == RunOf(e) && k == KnitOf(e)
    {
    }
    hide TakesEdge, MakesEdge;
  }

  lemma DrawnOnce(db: Db, m: Mounts, uses: Uses, g: Graph, e: Edge)
    requires Coherent(db, m, uses) && Assemblable(db, m, uses) && Inv(Served(db, m, uses), g) && IsLink(e)
    ensures Count(g.edges, e) == if RowEdge(db, m, g, e) then 1 else 0
  {
    hide Coherent, Assemblable, Served, Inv, DeclaredByRun, Count, HasRow, RowEdge;
    CountOfLink(Served(db, m, uses), g, e);
    RowEdgeMeans(db, m, g, e);
    ServedMeans(db, m, uses);
    if RunOf(e) in g.Runs() {
      RowDeclared(db, m, uses, e);
    }
  }

  // ---- the command -------------------------------------------------------------------------------

  /** One of the runs takes or makes the data. */
  ghost predicate TouchedBy(db: Db, runs: set<string>, k: string) {
    exists r :: r in runs && (Consumes(db, r, k) || Produces(db, r, k))
  }

  /** What is shown, told by the tables. */
  ghost predicate ShowsRows(db: Db, m: Mounts, root: string, up: bool, down: bool, depth: Depth, g: Graph) {
    && g.Runs() == (if up then FlowWithin(db, L.Upstream, root, depth) else {})
                   + (if down then FlowWithin(db, L.Downstream, root, depth) else {})
    && (forall k :: k in g.Data() <==> k == root || TouchedBy(db, g.Runs(), k))
    && L.Emphasized(g) == {root}
    && DrawsRows(db, m, g)
  }

  /** Main result on tables and the lineage command together: it fails only on an unknown data or on depth zero,
      shows the runs that the data came from or went into, step by step within the depth, with all data that these
      take and make, and draws each assignment and each making among these once. */
  method DrawLineage(ghost db: Db, ghost m: Mounts, ghost uses: Uses, u: Universe, upstream: bool, downstream: bool, numbers: Depth, knitId: string)
    returns (r: Result<DirectedGraph, L.TraceError>)
    requires Good(db) && Orderly(db) && Made(db) && Complete(db)
    requires InputRowsOf(db.ledger, m) && OutputRowsOf(db.ledger, m) && UsesOf(db, uses)
    requires Assemblable(db, m, uses) && u == Served(db, m, uses)
    ensures r.Ok? <==> !numbers.IsZero() && knitId in db.tables.data
    ensures r.Ok? ==> ShowsRows(db, m, knitId, upstream || !downstream, downstream || !upstream, numbers, r.value.View())
  {
    hide Good, Orderly, Made, Complete, InputRowsOf, OutputRowsOf, UsesOf, Coherent, Assemblable, Served, ShowsRows, Mirrored, Keyed;
    hide L.Closed, T.Sourced, T.Acyclic, T.Shows, Built;
    ServedIsReady(db, m, uses);
    r := T.Task(u, upstream, downstream, numbers, knitId);
    if r.Ok? {
      RootIsKnown(u, knitId, upstream || !downstream, downstream || !upstream, numbers, r.value.View());
      ShownRows(db, m, uses, u, knitId, upstream || !downstream, downstream || !upstream, numbers, r.value.View());
    }
  }

  lemma ServedIsReady(db: Db, m: Mounts, uses: Uses)
    requires Good(db) && Orderly(db) && Made(db) && Complete(db)
    requires InputRowsOf(db.ledger, m) && OutputRowsOf(db.ledger, m) && UsesOf(db, uses)
    ensures Coherent(db, m, uses) && Assemblable(db, m, uses)
    ensures var u := Served(db, m, uses);
      Keyed(u) && Mirrored(u) && T.Sourced(u) && L.Closed(u) && T.Acyclic(u) && u.data.Keys == db.tables.data.Keys
  {
    hide Good, Orderly, Made, Complete, InputRowsOf, OutputRowsOf, UsesOf, Coherent, Assemblable, Served, L.Closed, T.Sourced, T.Acyclic, MirroredAt;
    ServedIsTraceable(db, m, uses);
    GoodIsCoherent(db, m, uses);
    ServedMeans(db, m, uses);
  }

  lemma RootIsKnown(u: Universe, root: string, up: bool, down: bool, depth: Depth, g: Graph)
    requires Mirrored(u) && Built(u, g) && T.Shows(u, root, up, down, depth, g)
    ensures root in u.data
  {
    BuiltInv(u, g);
    hide Mirrored, Built, L.RunsWithin, L.Touched;
    assert root in g.Data();
    assert g.HasData(root);
  }

  lemma ShownByRows(u: Universe, db: Db, root: string, up: bool, down: bool, depth: Depth, g: Graph)
    requires Agrees(u, db) && Mirrored(u) && T.Sourced(u) && L.Closed(u) && T.Acyclic(u) && root in u.data
    requires Built(u, g) && T.Shows(u, root, up, down, depth, g)
    ensures g.Runs() == (if up then FlowWithin(db, L.Upstream, root, depth) else {})
                        + if down then FlowWithin(db, L.Downstream, root, depth) else {}
    ensures forall k :: k in g.Data() <==> k == root || TouchedBy(db, g.Runs(), k)
    ensures Inv(u, g)
  {
    hide Mirrored, T.Sourced, L.Closed, T.Acyclic, Built, T.Shows, Takes, Makes, Consumes, Produces;
    hide LinkedWithin, FlowWithin, Inv, Agrees, TouchedBy;
    LineageIsLinked(u, root, up, down, depth, g);
    WithinIsFlow(u, db, L.Upstream, root, depth);
    WithinIsFlow(u, db, L.Downstream, root, depth);
    BuiltInv(u, g);
    RunsShownAreServed(u, g);
    forall k
      ensures (exists r :: r in g.Runs() && r in u.runs && (Takes(u.runs[r], k) || Makes(u.runs[r], k))) <==> TouchedBy(db, g.Runs(), k)
    {
      TouchedByRows(u, db, g, k);
    }
  }

  lemma ShownRows(db: Db, m: Mounts, uses: Uses, u: Universe, root: string, up: bool, down: bool, depth: Depth, g: Graph)
    requires Coherent(db, m, uses) && Assemblable(db, m, uses) && u == Served(db, m, uses) && root in u.data
    requires Mirrored(u) && T.Sourced(u) && L.Closed(u) && T.Acyclic(u)
    requires Built(u, g) && T.Shows(u, root, up, down, depth, g)
    ensures ShowsRows(db, m, root, up, down, depth, g)
  {
    hide Coherent, Assemblable, Served, Mirrored, T.Sourced, L.Closed, T.Acyclic, Built, T.Shows;
    hide FlowWithin, RowEdge, L.Emphasized, Inv, Agrees, TouchedBy, Count;
    ShownMark(u, root, up, down, depth, g);
    ServedAgrees(db, m, uses);
    ShownByRows(u, db, root, up, down, depth, g);
    forall e | IsLink(e)
      ensures Count(g.edges, e) == if RowEdge(db, m, g, e) then 1 else 0
    {
      DrawnOnce(db, m, uses, g, e);
    }
  }

  lemma ShownMark(u: Universe, root: string, up: bool, down: bool, depth: Depth, g: Graph)
    requires T.Shows(u, root, up, down, depth, g)
    ensures L.Emphasized(g) == {root}
  {
    hide L.RunsWithin, L.Touched, L.Emphasized;
  }

  lemma TouchedByRows(u: Universe, db: Db, g: Graph, k: string)
    requires Agrees(u, db) && forall r :: r in g.Runs() ==> r in u.runs
    ensures (exists r :: r in g.Runs() && r in u.runs && (Takes(u.runs[r], k) || Makes(u.runs[r], k))) <==> TouchedBy(db, g.Runs(), k)
  {
    hide Takes, Makes, Consumes, Produces;
  }

  lemma RunsShownAreServed(u: Universe, g: Graph)
    requires Inv(u, g)
    ensures forall r :: r in g.Runs() ==> r in u.runs
  {
    assert forall r :: r in g.Runs() ==> g.HasRun(r);
    hide AllLinks, RootInv, OnlyLinksAndRoots, ParkedKinds;
  }
}
