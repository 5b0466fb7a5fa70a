/** Details of data and runs, put together from one set of tables: `get` of
    pkg/domain/data/db/postgres/data.go and `GetRun` of pkg/domain/internal/db/postgres/run.go. This is why
    the lineage command may rely on them. */
module RunDetails {
  import opened Results
  import opened Nomination
  import opened KnitGraph
  import L = Lineage
  import T = LineageTask
  import opened Ledgers
  import opened RunOutputs
  import opened Outcomes
  import opened Orders
  import opened PlanDetails

  /** The rows of `assign` for each data as they arrive, without invalidated runs
      (pkg/api-types-binding/data/data.go). */
  type Uses = map<string, seq<(string, int)>>

  ghost predicate UsesOf(db: Db, uses: Uses) {
    && uses.Keys == db.tables.data.Keys
    && (forall k :: k in uses ==> Distinct(uses[k]))
    && (forall k, a :: k in uses ==> (a in uses[k] <==> a in db.ledger.assign && db.ledger.assign[a] == k && Alive(db.tables, a.0)))
  }

  /** What one set of tables promises the details. */
  ghost predicate Coherent(db: Db, m: Mounts, uses: Uses) {
    && InputRowsOf(db.ledger, m) && OutputRowsOf(db.ledger, m) && UsesOf(db, uses)
    && RunRefs(db.tables, db.ledger) && AssignRefs(db.tables, db.ledger) && InvalidatedAreEmpty(db.tables, db.ledger)
    && Filled(db.ledger) && Made(db) && Complete(db)
    && forall k :: k in db.tables.data ==> db.tables.data[k] in db.tables.run
  }

  // ---- assembling --------------------------------------------------------------------------------

  function AssignedData(x: Ledger, r: string, i: int): string {
    if (r, i) in x.assign then x.assign[(r, i)] else ""
  }

  /** The data of a run for an output. */
  ghost function DataFor(db: Db, r: string, o: int): (k: string)
    ensures HasOutput(db, r, o) ==> IsOutput(db, r, o, k)
  {
    if HasOutput(db, r, o) then
      var k :| k in db.tables.data && IsOutput(db, r, o, k);
      k
    else ""
  }

  function InputOf(x: Ledger, m: Mounts, r: string, i: int): Assignment {
    Assignment(AssignedData(x, r, i), Path(m.inputPath, i))
  }

  ghost function OutputOf(db: Db, m: Mounts, r: string, o: int): Assignment {
    Assignment(DataFor(db, r, o), Path(m.outputPath, o))
  }

  function UseOf(m: Mounts, a: (string, int)): AssignedTo {
    AssignedTo(a.0, Path(m.inputPath, a.1))
  }

  function Inputs(x: Ledger, m: Mounts, r: string, ids: seq<int>): (s: seq<Assignment>)
    ensures |s| == |ids| && forall j :: 0 <= j < |s| ==> s[j] == InputOf(x, m, r, ids[j])
  {
    seq(|ids|, j requires 0 <= j < |ids| => InputOf(x, m, r, ids[j]))
  }

  ghost function Outputs(db: Db, m: Mounts, r: string, ids: seq<int>): (s: seq<Assignment>)
    ensures |s| == |ids| && forall j :: 0 <= j < |s| ==> s[j] == OutputOf(db, m, r, ids[j])
  {
    seq(|ids|, j requires 0 <= j < |ids| => OutputOf(db, m, r, ids[j]))
  }

  function UsedBy(m: Mounts, uses: seq<(string, int)>): (s: seq<AssignedTo>)
    ensures |s| == |uses| && forall j :: 0 <= j < |s| ==> s[j] == UseOf(m, uses[j])
  {
    seq(|uses|, j requires 0 <= j < |uses| => UseOf(m, uses[j]))
  }

  ghost function RunOfTables(db: Db, m: Mounts, r: string): RunDetail
    requires r in db.ledger.planOfRun && db.ledger.planOfRun[r] in m.inputs && db.ledger.planOfRun[r] in m.outputs
  {
    var p := db.ledger.planOfRun[r];
    RunDetail(r, Inputs(db.ledger, m, r, m.inputs[p]), Outputs(db, m, r, m.outputs[p]),
              if p in m.logOf then Some(DataFor(db, r, m.logOf[p])) else None)
  }

  function DataOfTables(db: Db, m: Mounts, uses: Uses, k: string): DataDetail
    requires k in db.tables.data && k in db.ledger.outputOfData && k in uses
  {
    var o := db.ledger.outputOfData[k];
    var log := IsLog(db.ledger, m, o);
    DataDetail(k, CreatedFrom(db.tables.data[k], if log then None else Some(Path(m.outputPath, o)), log), UsedBy(m, uses[k]))
  }

  ghost predicate Assemblable(db: Db, m: Mounts, uses: Uses) {
    && (forall r :: Alive(db.tables, r) ==>
          r in db.ledger.planOfRun && db.ledger.planOfRun[r] in m.inputs && db.ledger.planOfRun[r] in m.outputs)
    && (forall k :: k in db.tables.data ==> k in db.ledger.outputOfData && k in uses)
  }

  lemma CoherentIsAssemblable(db: Db, m: Mounts, uses: Uses)
    requires Coherent(db, m, uses)
    ensures Assemblable(db, m, uses)
  {
    forall k | k in db.tables.data
      ensures k in db.ledger.outputOfData
    {
      assert MadeAs(db, k);
    }
  }

  /** What the API serves: all data, and the runs that have not been invalidated. */
  ghost function Served(db: Db, m: Mounts, uses: Uses): Universe
    requires Assemblable(db, m, uses)
  {
    Universe(map k | k in db.tables.data :: DataOfTables(db, m, uses, k),
             map r | r in db.tables.run && Alive(db.tables, r) :: RunOfTables(db, m, r))
  }

  // ---- counting ----------------------------------------------------------------------------------

  /** The edges of a list of different things, each drawn by its own edge. */
  ghost predicate DrawnBy<A(!new)>(es: seq<Edge>, s: seq<A>, draw: A -> Edge) {
    |es| == |s| && forall j :: 0 <= j < |s| ==> es[j] == draw(s[j])
  }

  lemma {:induction false} CountOnce<A(!new)>(es: seq<Edge>, s: seq<A>, draw: A -> Edge, e: Edge)
    requires Distinct(s) && DrawnBy(es, s, draw)
    requires forall a, b :: a in s && b in s && draw(a) == draw(b) ==> a == b
    ensures multiset(es)[e] == if exists a :: a in s && draw(a) == e then 1 else 0
  {
    if s != [] {
      var n := |s| - 1;
      CountOnce(es[..n], s[..n], draw, e);
      assert es == es[..n] + [es[n]] && s == s[..n] + [s[n]];
      assert s[n] !in s[..n];
      assert s[n] in s;
    }
  }

  // ---- links from data to runs -------------------------------------------------------------------

  function TakesEdge(x: Ledger, m: Mounts, a: (string, int)): Edge {
    Edge(DataNodeId(AssignedData(x, a.0, a.1)), RunNodeId(a.0), Path(m.inputPath, a.1))
  }

  /** An input is known by its run and its path. */
  lemma TakesEdgeIsOne(db: Db, m: Mounts, uses: Uses, a: (string, int), b: (string, int))
    requires Coherent(db, m, uses) && a in db.ledger.assign && b in db.ledger.assign
    requires TakesEdge(db.ledger, m, a) == TakesEdge(db.ledger, m, b)
    ensures a == b
  {
    hide Complete, Made, OutputRowsOf, UsesOf, InvalidatedAreEmpty;
    var x, r := db.ledger, a.0;
    assert (r, a.1) == a && (r, b.1) == b;
    assert a.1 in x.planOfInput && x.planOfInput[a.1] == x.planOfRun[r];
    assert b.1 in x.planOfInput && x.planOfInput[b.1] == x.planOfRun[r];
  }

  lemma NoneOf(es: seq<Edge>, e: Edge)
    requires forall j :: 0 <= j < |es| ==> es[j] != e
    ensures multiset(es)[e] == 0
  {
  }

  /** How often the data declares that a run takes it. */
  lemma TakenByData(db: Db, m: Mounts, uses: Uses, k: string, e: Edge)
    requires Coherent(db, m, uses) && Assemblable(db, m, uses) && k in db.tables.data && e.fromId.DataNodeId?
    ensures multiset(DataLinks(DataOfTables(db, m, uses, k)))[e]
      == if exists a :: a in uses[k] && TakesEdge(db.ledger, m, a) == e then 1 else 0
  {
    var detail, draw := DataOfTables(db, m, uses, k), (a: (string, int)) => TakesEdge(db.ledger, m, a);
    DataLinksApart(detail, e);
    hide Coherent, Assemblable, TakesEdge, DataLinks, DownLinks;
    UsedAreAssigned(db, m, uses, k);
    forall a, b | a in uses[k] && b in uses[k] && draw(a) == draw(b)
      ensures a == b
    {
      TakesEdgeIsOne(db, m, uses, a, b);
    }
    CountOnce(DownLinks(k, detail.downstreams), uses[k], draw, e);
  }

  lemma UsedAreAssigned(db: Db, m: Mounts, uses: Uses, k: string)
    requires Coherent(db, m, uses) && k in db.tables.data
    ensures k in uses && Distinct(uses[k]) && forall a :: a in uses[k] ==> a in db.ledger.assign
    ensures DrawnBy(DownLinks(k, UsedBy(m, uses[k])), uses[k], (a: (string, int)) => TakesEdge(db.ledger, m, a))
  {
    hide Complete, Made, InputRowsOf, OutputRowsOf, Filled;
    var s := uses[k];
    forall j | 0 <= j < |s|
      ensures DownLinks(k, UsedBy(m, s))[j] == TakesEdge(db.ledger, m, s[j])
    {
      assert s[j] in s && s[j] == (s[j].0, s[j].1);
    }
  }

  function LogLinks(r: RunDetail): seq<Edge> {
    if r.log.Some? then [Edge(RunNodeId(r.runId), DataNodeId(r.log.value), "(log)")] else []
  }

  lemma RunLinksApart(r: RunDetail, e: Edge)
    ensures e.fromId.DataNodeId? ==> multiset(RunLinks(r))[e] == multiset(InputLinks(r.runId, r.inputs))[e]
    ensures e.fromId.RunNodeId? ==> multiset(RunLinks(r))[e] == multiset(OutputLinks(r.runId, r.outputs))[e] + multiset(LogLinks(r))[e]
  {
    var ins, outs, logs := InputLinks(r.runId, r.inputs), OutputLinks(r.runId, r.outputs), LogLinks(r);
    assert RunLinks(r) == ins + outs + logs;
    if e.fromId.DataNodeId? {
      NoneOf(outs, e);
      NoneOf(logs, e);
    }
    if e.fromId.RunNodeId? {
      NoneOf(ins, e);
    }
  }

  lemma DataLinksApart(d: DataDetail, e: Edge)
    ensures e.fromId.DataNodeId? ==> multiset(DataLinks(d))[e] == multiset(DownLinks(d.knitId, d.downstreams))[e]
    ensures e.fromId.RunNodeId? ==> multiset(DataLinks(d))[e] == multiset(UpLinks(d.knitId, d.upstream))[e]
  {
    if e.fromId.DataNodeId? {
      NoneOf(UpLinks(d.knitId, d.upstream), e);
    }
    if e.fromId.RunNodeId? {
      NoneOf(DownLinks(d.knitId, d.downstreams), e);
    }
  }

  /** How often the run declares that it takes a data. */
  lemma TakenByRun(db: Db, m: Mounts, uses: Uses, r: string, e: Edge)
    requires Coherent(db, m, uses) && Assemblable(db, m, uses) && Alive(db.tables, r) && e.fromId.DataNodeId?
    ensures multiset(RunLinks(RunOfTables(db, m, r)))[e]
      == if exists i :: i in m.inputs[db.ledger.planOfRun[r]] && TakesEdge(db.ledger, m, (r, i)) == e then 1 else 0
  {
    var x, ids, detail := db.ledger, m.inputs[db.ledger.planOfRun[r]], RunOfTables(db, m, r);
    RunLinksApart(detail, e);
    var draw := (i: int) => TakesEdge(x, m, (r, i));
    hide Coherent, Assemblable, TakesEdge, RunLinks, InputLinks;
    InputsAssigned(db, m, uses, r);
    forall a, b | a in ids && b in ids && draw(a) == draw(b)
      ensures a == b
    {
      TakesEdgeIsOne(db, m, uses, (r, a), (r, b));
    }
    CountOnce(InputLinks(r, detail.inputs), ids, draw, e);
  }

  lemma AssignedInputs(db: Db, m: Mounts, uses: Uses, r: string)
    requires Coherent(db, m, uses) && Assemblable(db, m, uses) && Alive(db.tables, r)
    ensures var ids := m.inputs[db.ledger.planOfRun[r]];
      Distinct(ids) && forall i :: i in ids <==> (r, i) in db.ledger.assign
  {
    hide Complete, Made, OutputRowsOf, UsesOf, RunRefs, AssignRefs, InvalidatedAreEmpty;
  }

  lemma InputsAssigned(db: Db, m: Mounts, uses: Uses, r: string)
    requires Coherent(db, m, uses) && Assemblable(db, m, uses) && Alive(db.tables, r)
    ensures var ids := m.inputs[db.ledger.planOfRun[r]];
      && Distinct(ids) && (forall i :: i in ids <==> (r, i) in db.ledger.assign)
      && DrawnBy(InputLinks(r, Inputs(db.ledger, m, r, ids)), ids, (i: int) => TakesEdge(db.ledger, m, (r, i)))
  {
    AssignedInputs(db, m, uses, r);
    hide Coherent, Path, AssignedData;
  }

  lemma SameTakes(db: Db, m: Mounts, uses: Uses, k: string, r: string, e: Edge)
    requires Coherent(db, m, uses) && Assemblable(db, m, uses) && k in db.tables.data && Alive(db.tables, r)
    requires e.fromId == DataNodeId(k) && e.toId == RunNodeId(r)
    ensures multiset(DataLinks(DataOfTables(db, m, uses, k)))[e] == multiset(RunLinks(RunOfTables(db, m, r)))[e]
  {
    TakenByData(db, m, uses, k, e);
    TakenByRun(db, m, uses, r, e);
    InputsAssigned(db, m, uses, r);
    UsedAreAssigned(db, m, uses, k);
    var ids := m.inputs[db.ledger.planOfRun[r]];
    hide Complete, Made, OutputRowsOf, InputRowsOf, Filled;
    forall a | a in uses[k] && TakesEdge(db.ledger, m, a) == e
      ensures a.1 in ids && TakesEdge(db.ledger, m, (r, a.1)) == e
    {
      assert a == (r, a.1);
    }
    forall i | i in ids && TakesEdge(db.ledger, m, (r, i)) == e
      ensures (r, i) in uses[k]
    {
      assert (r, i).0 == r;
    }
  }

  // ---- links from runs to data -------------------------------------------------------------------

  function Caption(x: Ledger, m: Mounts, o: int): string {
    if IsLog(x, m, o) then "(log)" else Path(m.outputPath, o)
  }

  function MakesEdge(db: Db, m: Mounts, k: string): Edge
    requires k in db.tables.data && k in db.ledger.outputOfData
  {
    Edge(RunNodeId(db.tables.data[k]), DataNodeId(k), Caption(db.ledger, m, db.ledger.outputOfData[k]))
  }

  lemma MadeByData(db: Db, m: Mounts, uses: Uses, k: string, e: Edge)
    requires Assemblable(db, m, uses) && k in db.tables.data && e.fromId.RunNodeId?
    ensures multiset(DataLinks(DataOfTables(db, m, uses, k)))[e] == if MakesEdge(db, m, k) == e then 1 else 0
  {
    var detail := DataOfTables(db, m, uses, k);
    DataLinksApart(detail, e);
    assert UpLinks(k, detail.upstream) == [MakesEdge(db, m, k)];
  }

  /** The data of a run for an output is the data that says so. */
  lemma DataForMeans(db: Db, m: Mounts, uses: Uses, r: string, o: int, k: string)
    requires Coherent(db, m, uses) && Alive(db.tables, r) && OutputFor(db.ledger, r, o)
    ensures DataFor(db, r, o) == k <==> IsOutput(db, r, o, k)
  {
    hide InputRowsOf, OutputRowsOf, UsesOf, Filled, InvalidatedAreEmpty;
    assert HasOutput(db, r, o);
    var l := DataFor(db, r, o);
    if IsOutput(db, r, o, k) {
      assert SameMaking(db, k, l);
    }
  }

  /** Which output of a run, its log included, an edge goes from. */
  ghost predicate DrawnFrom(db: Db, m: Mounts, r: string, o: int, e: Edge) {
    e == Edge(RunNodeId(r), DataNodeId(DataFor(db, r, o)), Caption(db.ledger, m, o))
  }

  lemma OutputsOfRun(db: Db, m: Mounts, uses: Uses, r: string)
    requires Coherent(db, m, uses) && Assemblable(db, m, uses) && Alive(db.tables, r)
    ensures var p := db.ledger.planOfRun[r];
      && Distinct(m.outputs[p])
      && (forall o :: o in m.outputs[p] <==> OutputFor(db.ledger, r, o) && !IsLog(db.ledger, m, o))
      && (forall o :: OutputFor(db.ledger, r, o) && IsLog(db.ledger, m, o) <==> p in m.logOf && m.logOf[p] == o)
  {
    hide InputRowsOf, UsesOf, Filled, InvalidatedAreEmpty, Made, Complete;
  }

  lemma OneDataPerOutput(db: Db, m: Mounts, uses: Uses, r: string, a: int, b: int)
    requires Coherent(db, m, uses) && Alive(db.tables, r) && OutputFor(db.ledger, r, a) && OutputFor(db.ledger, r, b)
    requires DataFor(db, r, a) == DataFor(db, r, b)
    ensures a == b
  {
    DataForMeans(db, m, uses, r, a, DataFor(db, r, a));
    DataForMeans(db, m, uses, r, b, DataFor(db, r, b));
    hide Coherent;
  }

  lemma OutputLinksCount(db: Db, m: Mounts, uses: Uses, r: string, e: Edge)
    requires Coherent(db, m, uses) && Assemblable(db, m, uses) && Alive(db.tables, r)
    ensures var ids := m.outputs[db.ledger.planOfRun[r]];
      multiset(OutputLinks(r, Outputs(db, m, r, ids)))[e] == if exists o :: o in ids && DrawnFrom(db, m, r, o, e) then 1 else 0
  {
    var ids := m.outputs[db.ledger.planOfRun[r]];
    OutputsOfRun(db, m, uses, r);
    hide Coherent, Assemblable;
    var draw := (o: int) => Edge(RunNodeId(r), DataNodeId(DataFor(db, r, o)), Path(m.outputPath, o));
    forall a, b | a in ids && b in ids && draw(a) == draw(b)
      ensures a == b
    {
      OneDataPerOutput(db, m, uses, r, a, b);
    }
    CountOnce(OutputLinks(r, Outputs(db, m, r, ids)), ids, draw, e);
    forall o | o in ids
      ensures draw(o) == e <==> DrawnFrom(db, m, r, o, e)
    {
    }
  }

  /** How often the run declares that it makes a data. */
  lemma MadeByRun(db: Db, m: Mounts, uses: Uses, r: string, e: Edge)
    requires Coherent(db, m, uses) && Assemblable(db, m, uses) && Alive(db.tables, r) && e.fromId.RunNodeId?
    ensures multiset(RunLinks(RunOfTables(db, m, r)))[e]
      == if exists o :: OutputFor(db.ledger, r, o) && DrawnFrom(db, m, r, o, e) then 1 else 0
  {
    var p, detail := db.ledger.planOfRun[r], RunOfTables(db, m, r);
    RunLinksApart(detail, e);
    OutputLinksCount(db, m, uses, r, e);
    OutputsOfRun(db, m, uses, r);
    hide Coherent, Assemblable, RunLinks, OutputLinks, Outputs;
    if p in m.logOf {
      var log := m.logOf[p];
      assert LogLinks(detail) == [Edge(RunNodeId(r), DataNodeId(DataFor(db, r, log)), "(log)")];
      assert DrawnFrom(db, m, r, log, e) <==> LogLinks(detail)[0] == e;
      forall o | o in m.outputs[p] && DrawnFrom(db, m, r, o, e)
        ensures !DrawnFrom(db, m, r, log, e)
      {
        if DrawnFrom(db, m, r, log, e) {
          OneDataPerOutput(db, m, uses, r, o, log);
        }
      }
    }
  }

  lemma SameMakes(db: Db, m: Mounts, uses: Uses, k: string, r: string, e: Edge)
    requires Coherent(db, m, uses) && Assemblable(db, m, uses) && k in db.tables.data && Alive(db.tables, r)
    requires e.fromId == RunNodeId(r) && e.toId == DataNodeId(k)
    ensures multiset(DataLinks(DataOfTables(db, m, uses, k)))[e] == multiset(RunLinks(RunOfTables(db, m, r)))[e]
  {
    MadeByData(db, m, uses, k, e);
    MadeByRun(db, m, uses, r, e);
    assert MadeAs(db, k);
    var o := db.ledger.outputOfData[k];
    hide InputRowsOf, OutputRowsOf, UsesOf, Filled, InvalidatedAreEmpty, Complete, Made, DataLinks, RunLinks;
    if MakesEdge(db, m, k) == e {
      assert OutputFor(db.ledger, r, o) && IsOutput(db, r, o, k);
      DataForMeans(db, m, uses, r, o, k);
      assert DrawnFrom(db, m, r, o, e);
    }
    forall q | OutputFor(db.ledger, r, q) && DrawnFrom(db, m, r, q, e)
      ensures MakesEdge(db, m, k) == e
    {
      DataForMeans(db, m, uses, r, q, k);
    }
  }

  // ---- the universe ------------------------------------------------------------------------------

  lemma ServedIsMirroredAt(db: Db, m: Mounts, uses: Uses, e: Edge)
    requires Coherent(db, m, uses) && Assemblable(db, m, uses) && IsLink(e)
    ensures MirroredAt(Served(db, m, uses), e)
  {
    hide Coherent, Assemblable, DataOfTables, RunOfTables, DataLinks, RunLinks;
    var k, r := KnitOf(e), RunOf(e);
    if k in db.tables.data && Alive(db.tables, r) {
      if e.fromId.DataNodeId? {
        SameTakes(db, m, uses, k, r, e);
      } else {
        SameMakes(db, m, uses, k, r, e);
      }
    }
  }

  /** Main result: details from one set of tables are mirrored. */
  lemma ServedIsMirrored(db: Db, m: Mounts, uses: Uses)
    requires Coherent(db, m, uses) && Assemblable(db, m, uses)
    ensures Mirrored(Served(db, m, uses)) && T.Sourced(Served(db, m, uses))
  {
    forall e | IsLink(e)
      ensures MirroredAt(Served(db, m, uses), e)
    {
      ServedIsMirroredAt(db, m, uses, e);
    }
    hide MirroredAt, Coherent;
  }

  lemma InputsClosed(db: Db, m: Mounts, uses: Uses, r: string, k: string)
    requires Coherent(db, m, uses) && Assemblable(db, m, uses) && Alive(db.tables, r)
    requires k in L.KnitIds(RunOfTables(db, m, r).inputs)
    ensures k in db.tables.data && exists i :: (r, i) in db.ledger.assign && db.ledger.assign[(r, i)] == k
  {
    var detail, ids := RunOfTables(db, m, r), m.inputs[db.ledger.planOfRun[r]];
    AssignedInputs(db, m, uses, r);
    var j :| 0 <= j < |detail.inputs| && detail.inputs[j].knitId == k;
    hide InputRowsOf, OutputRowsOf, UsesOf, Filled, InvalidatedAreEmpty, Complete, Made, Assemblable;
    var i := ids[j];
    assert i in ids && (r, i) in db.ledger.assign;
  }

  lemma OutputsClosed(db: Db, m: Mounts, uses: Uses, r: string, k: string)
    requires Coherent(db, m, uses) && Assemblable(db, m, uses) && Alive(db.tables, r)
    requires k in L.NextData(L.Downstream, RunOfTables(db, m, r))
    ensures k in db.tables.data && db.tables.data[k] == r
  {
    var detail, p := RunOfTables(db, m, r), db.ledger.planOfRun[r];
    OutputsOfRun(db, m, uses, r);
    hide Coherent, Assemblable;
    if k in L.KnitIds(detail.outputs) {
      var j :| 0 <= j < |detail.outputs| && detail.outputs[j].knitId == k;
      var o := m.outputs[p][j];
      assert o in m.outputs[p];
      DataForMeans(db, m, uses, r, o, k);
    } else {
      DataForMeans(db, m, uses, r, m.logOf[p], k);
    }
  }

  lemma ServedDataClosed(db: Db, m: Mounts, uses: Uses, k: string, r: string)
    requires Coherent(db, m, uses) && Assemblable(db, m, uses) && k in db.tables.data
    ensures r in L.NextRuns(L.Upstream, DataOfTables(db, m, uses, k)) ==> Alive(db.tables, r)
    ensures r in L.NextRuns(L.Downstream, DataOfTables(db, m, uses, k)) ==> Alive(db.tables, r)
  {
    hide InputRowsOf, OutputRowsOf, Filled, Complete, Made;
    var detail := DataOfTables(db, m, uses, k);
    if r in L.NextRuns(L.Downstream, detail) {
      var j :| 0 <= j < |detail.downstreams| && detail.downstreams[j].runId == r;
      assert uses[k][j] in uses[k];
    }
  }

  lemma RunTouches(db: Db, m: Mounts, uses: Uses, r: string)
    requires Coherent(db, m, uses) && Assemblable(db, m, uses) && Alive(db.tables, r)
    ensures L.Touch(RunOfTables(db, m, r)) <= db.tables.data.Keys
  {
    var detail := RunOfTables(db, m, r);
    hide Coherent, Assemblable, RunOfTables, L.KnitIds, L.LogId;
    forall k | k in L.Touch(detail)
      ensures k in db.tables.data
    {
      if k in L.KnitIds(detail.inputs) {
        InputsClosed(db, m, uses, r, k);
      } else {
        assert k in L.NextData(L.Downstream, detail);
        OutputsClosed(db, m, uses, r, k);
      }
    }
  }

  lemma ServedMeans(db: Db, m: Mounts, uses: Uses)
    requires Assemblable(db, m, uses)
    ensures var u := Served(db, m, uses);
      && u.data.Keys == db.tables.data.Keys && (forall r :: r in u.runs <==> Alive(db.tables, r))
      && (forall k :: k in u.data ==> k in db.ledger.outputOfData && k in uses && u.data[k] == DataOfTables(db, m, uses, k))
      && (forall r :: r in u.runs ==>
            && r in db.ledger.planOfRun && db.ledger.planOfRun[r] in m.inputs && db.ledger.planOfRun[r] in m.outputs
            && u.runs[r] == RunOfTables(db, m, r))
  {
    hide DataOfTables, RunOfTables;
  }

  lemma ServedIsClosed(db: Db, m: Mounts, uses: Uses)
    requires Coherent(db, m, uses) && Assemblable(db, m, uses)
    ensures L.Closed(Served(db, m, uses))
  {
    hide Coherent, Assemblable, Served, DataOfTables, RunOfTables, L.NextRuns, L.Touch;
    var u := Served(db, m, uses);
    ServedMeans(db, m, uses);
    forall k | k in u.data
      ensures L.NextRuns(L.Upstream, u.data[k]) <= u.runs.Keys && L.NextRuns(L.Downstream, u.data[k]) <= u.runs.Keys
    {
      forall r
        ensures r in L.NextRuns(L.Upstream, u.data[k]) ==> r in u.runs
        ensures r in L.NextRuns(L.Downstream, u.data[k]) ==> r in u.runs
      {
        ServedDataClosed(db, m, uses, k, r);
      }
    }
    forall r | r in u.runs
      ensures L.Touch(u.runs[r]) <= u.data.Keys
    {
      RunTouches(db, m, uses, r);
    }
  }

  lemma RunsRankUp(db: Db, m: Mounts, uses: Uses, rank: string -> nat, bound: nat, r: string, k: string, p: string)
    requires Coherent(db, m, uses) && Assemblable(db, m, uses) && Alive(db.tables, r) && RunRank(db, rank, bound)
    requires k in L.KnitIds(RunOfTables(db, m, r).inputs) && p in L.NextData(L.Downstream, RunOfTables(db, m, r))
    ensures k in db.tables.data && p in db.tables.data && rank(db.tables.data[k]) < rank(db.tables.data[p])
  {
    hide Coherent, Assemblable, RunOfTables, L.NextData, L.KnitIds;
    InputsClosed(db, m, uses, r, k);
    OutputsClosed(db, m, uses, r, p);
    var i :| (r, i) in db.ledger.assign && db.ledger.assign[(r, i)] == k;
    assert (r, i).0 == r;
  }

  lemma ServedIsAcyclic(db: Db, m: Mounts, uses: Uses)
    requires Coherent(db, m, uses) && Assemblable(db, m, uses) && LineageAcyclic(db)
    ensures T.Acyclic(Served(db, m, uses))
  {
    hide Coherent, Assemblable, Served, DataOfTables, RunOfTables, L.NextData, L.KnitIds, RunRank;
    var u := Served(db, m, uses);
    ServedMeans(db, m, uses);
    var rank, bound :| RunRank(db, rank, bound);
    var ranks: map<string, nat> := map k | k in db.tables.data :: rank(db.tables.data[k]);
    forall r, k, p | r in u.runs && k in L.KnitIds(u.runs[r].inputs) && p in L.NextData(L.Downstream, u.runs[r])
      ensures k in ranks && p in ranks && ranks[k] < ranks[p]
    {
      RunsRankUp(db, m, uses, rank, bound, r, k, p);
    }
    assert T.Ranked(u, ranks);
  }

  /** Main result: what the API serves from the tables meets all premises of the result on the lineage
      command. */
  lemma ServedIsTraceable(db: Db, m: Mounts, uses: Uses)
    requires Good(db) && Orderly(db) && Made(db) && Complete(db)
    requires InputRowsOf(db.ledger, m) && OutputRowsOf(db.ledger, m) && UsesOf(db, uses)
    ensures Assemblable(db, m, uses)
    ensures var u := Served(db, m, uses);
      Mirrored(u) && T.Sourced(u) && L.Closed(u) && T.Acyclic(u)
  {
    GoodIsCoherent(db, m, uses);
    hide Good, Orderly, Made, Complete, InputRowsOf, OutputRowsOf, UsesOf, Coherent, Assemblable, LineageAcyclic, Served, Mirrored;
    hide T.Sourced, T.Acyclic, L.Closed;
    CoherentIsAssemblable(db, m, uses);
    ServedIsMirrored(db, m, uses);
    ServedIsClosed(db, m, uses);
    ServedIsAcyclic(db, m, uses);
  }

  lemma GoodIsCoherent(db: Db, m: Mounts, uses: Uses)
    requires Good(db) && Orderly(db) && Made(db) && Complete(db)
    requires InputRowsOf(db.ledger, m) && OutputRowsOf(db.ledger, m) && UsesOf(db, uses)
    ensures Coherent(db, m, uses) && LineageAcyclic(db)
  {
    RunsAgree(db);
    assert OncePerPattern(db.ledger) && LineageAcyclic(db);
    assert LedgerOk(db.tables, db.ledger);
    hide Good, SchemaOk, Exact, Made, Complete, InputRowsOf, OutputRowsOf, UsesOf, LineageAcyclic, RunRefs, AssignRefs, InvalidatedAreEmpty;
  }
}
