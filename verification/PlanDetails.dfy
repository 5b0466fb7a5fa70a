/** `GetPlan` of pkg/domain/internal/db/postgres/plan.go: plan details are put together from one set of
    tables, which is why the plan graph may rely on them. */
module PlanDetails {
  import opened Results
  import opened Sets
  import opened TagStore
  import opened Nomination
  import opened KnitGraph
  import opened PlanGraph
  import opened PlanEdges
  import opened PlanQueries
  import PlanTrace
  import opened PlanCycles
  import opened Ledgers

  /** The rows of mountpoints as they arrive: ids per plan, and paths. The log of a plan is apart. */
  datatype Mounts = Mounts(
    inputs: map<string, seq<int>>,
    outputs: map<string, seq<int>>,
    logOf: map<string, int>,
    inputPath: map<int, string>,
    outputPath: map<int, string>)

  predicate Distinct<T(==)>(s: seq<T>) {
    forall j, k :: 0 <= j < k < |s| ==> s[j] != s[k]
  }

  predicate IsLog(x: Ledger, m: Mounts, o: int) {
    o in x.planOfOutput && x.planOfOutput[o] in m.logOf && m.logOf[x.planOfOutput[o]] == o
  }

  /** Every mountpoint is in the rows of its plan, once, and paths in use by a plan differ. */
  ghost predicate InputRowsOf(x: Ledger, m: Mounts) {
    && m.inputs.Keys == x.plan.Keys && m.inputPath.Keys == x.planOfInput.Keys
    && (forall p :: p in m.inputs ==> Distinct(m.inputs[p]))
    && (forall p, i :: p in m.inputs ==> (i in m.inputs[p] <==> i in x.planOfInput && x.planOfInput[i] == p))
    && (forall i, j :: i in x.planOfInput && j in x.planOfInput && x.planOfInput[i] == x.planOfInput[j] && m.inputPath[i] == m.inputPath[j] ==> i == j)
  }

  predicate Siblings(x: Ledger, m: Mounts, a: int, b: int) {
    && a in x.planOfOutput && b in x.planOfOutput && x.planOfOutput[a] == x.planOfOutput[b]
    && !IsLog(x, m, a) && !IsLog(x, m, b)
  }

  ghost predicate OutputRowsOf(x: Ledger, m: Mounts) {
    && m.outputs.Keys == x.plan.Keys && m.outputPath.Keys == x.planOfOutput.Keys
    && m.logOf.Keys <= x.plan.Keys
    && (forall p :: p in m.logOf ==> m.logOf[p] in x.planOfOutput && x.planOfOutput[m.logOf[p]] == p)
    && (forall p :: p in m.outputs ==> Distinct(m.outputs[p]))
    && (forall p, o :: p in m.outputs ==> (o in m.outputs[p] <==> o in x.planOfOutput && x.planOfOutput[o] == p && !IsLog(x, m, o)))
    && (forall a, b :: Siblings(x, m, a, b) && m.outputPath[a] == m.outputPath[b] ==> a == b)
  }

  function Get(m: map<int, seq<int>>, k: int): seq<int> {
    if k in m then m[k] else []
  }

  // ---- assembling --------------------------------------------------------------------------------

  function Path(paths: map<int, string>, id: int): string {
    if id in paths then paths[id] else ""
  }

  function PlanOf(plans: map<int, string>, id: int): string {
    if id in plans then plans[id] else ""
  }

  function Upstream(x: Ledger, m: Mounts, o: int): PlanUpstream {
    if IsLog(x, m, o) then PlanUpstream(PlanOf(x.planOfOutput, o), None, true)
    else PlanUpstream(PlanOf(x.planOfOutput, o), Some(Path(m.outputPath, o)), false)
  }

  function UpstreamsOf(x: Ledger, m: Mounts, os: seq<int>): (r: seq<PlanUpstream>)
    ensures |r| == |os| && forall j :: 0 <= j < |r| ==> r[j] == Upstream(x, m, os[j])
  {
    seq(|os|, j requires 0 <= j < |os| => Upstream(x, m, os[j]))
  }

  function DownstreamsOf(x: Ledger, m: Mounts, ids: seq<int>): (r: seq<PlanDownstream>)
    ensures |r| == |ids| && forall j :: 0 <= j < |r| ==> r[j] == PlanDownstream(PlanOf(x.planOfInput, ids[j]), Path(m.inputPath, ids[j]))
  {
    seq(|ids|, j requires 0 <= j < |ids| => PlanDownstream(PlanOf(x.planOfInput, ids[j]), Path(m.inputPath, ids[j])))
  }

  function InputsOf(x: Ledger, m: Mounts, up: map<int, seq<int>>, ids: seq<int>): (r: seq<PlanInput>)
    ensures |r| == |ids| && forall j :: 0 <= j < |r| ==> r[j] == PlanInput(Path(m.inputPath, ids[j]), UpstreamsOf(x, m, Get(up, ids[j])))
  {
    seq(|ids|, j requires 0 <= j < |ids| => PlanInput(Path(m.inputPath, ids[j]), UpstreamsOf(x, m, Get(up, ids[j]))))
  }

  function OutputsOf(x: Ledger, m: Mounts, down: map<int, seq<int>>, ids: seq<int>): (r: seq<PlanOutput>)
    ensures |r| == |ids| && forall j :: 0 <= j < |r| ==> r[j] == PlanOutput(Path(m.outputPath, ids[j]), DownstreamsOf(x, m, Get(down, ids[j])))
  {
    seq(|ids|, j requires 0 <= j < |ids| => PlanOutput(Path(m.outputPath, ids[j]), DownstreamsOf(x, m, Get(down, ids[j]))))
  }

  function Detail(x: Ledger, m: Mounts, up: map<int, seq<int>>, down: map<int, seq<int>>, p: string): PlanDetail
    requires p in m.inputs && p in m.outputs
  {
    PlanDetail(p, InputsOf(x, m, up, m.inputs[p]), OutputsOf(x, m, down, m.outputs[p]),
               if p in m.logOf then Some(DownstreamsOf(x, m, Get(down, m.logOf[p]))) else None)
  }

  function Details(x: Ledger, m: Mounts, up: map<int, seq<int>>, down: map<int, seq<int>>): PlanUniverse
    requires m.inputs.Keys == m.outputs.Keys
  {
    map p | p in m.inputs :: Detail(x, m, up, down, p)
  }

  // ---- links as pairs of mountpoints -------------------------------------------------------------

  function OutputNode(x: Ledger, m: Mounts, o: int): NodeId {
    if IsLog(x, m, o) then PlanLogNodeId(PlanOf(x.planOfOutput, o)) else MountNodeId(PlanOf(x.planOfOutput, o), Path(m.outputPath, o))
  }

  function InputNode(x: Ledger, m: Mounts, i: int): NodeId {
    MountNodeId(PlanOf(x.planOfInput, i), Path(m.inputPath, i))
  }

  function LinkOf(x: Ledger, m: Mounts, pair: (int, int)): Edge {
    Edge(OutputNode(x, m, pair.1), InputNode(x, m, pair.0), "")
  }

  function LinksOf(x: Ledger, m: Mounts, pairs: seq<(int, int)>): (r: seq<Edge>)
    ensures |r| == |pairs| && forall j :: 0 <= j < |r| ==> r[j] == LinkOf(x, m, pairs[j])
  {
    seq(|pairs|, j requires 0 <= j < |pairs| => LinkOf(x, m, pairs[j]))
  }

  function InputPairs(i: int, os: seq<int>): (r: seq<(int, int)>)
    ensures |r| == |os| && forall k :: 0 <= k < |r| ==> r[k] == (i, os[k])
  {
    seq(|os|, k requires 0 <= k < |os| => (i, os[k]))
  }

  function OutputPairs(o: int, ids: seq<int>): (r: seq<(int, int)>)
    ensures |r| == |ids| && forall k :: 0 <= k < |r| ==> r[k] == (ids[k], o)
  {
    seq(|ids|, k requires 0 <= k < |ids| => (ids[k], o))
  }

  /** The pairs that the inputs of a plan list, and those that its outputs list. */
  function UpPairs(up: map<int, seq<int>>, ids: seq<int>): seq<(int, int)> {
    if ids == [] then [] else UpPairs(up, ids[..|ids| - 1]) + InputPairs(ids[|ids| - 1], Get(up, ids[|ids| - 1]))
  }

  function DownPairs(down: map<int, seq<int>>, ids: seq<int>): seq<(int, int)> {
    if ids == [] then [] else DownPairs(down, ids[..|ids| - 1]) + OutputPairs(ids[|ids| - 1], Get(down, ids[|ids| - 1]))
  }

  lemma {:induction false} UpPairsMean(up: map<int, seq<int>>, ids: seq<int>)
    requires Distinct(ids) && forall i :: i in up ==> Distinct(up[i])
    ensures Distinct(UpPairs(up, ids))
    ensures forall a :: a in UpPairs(up, ids) <==> a.0 in ids && a.1 in Get(up, a.0)
  {
    if ids != [] {
      var init, i := ids[..|ids| - 1], ids[|ids| - 1];
      UpPairsMean(up, init);
      var block := InputPairs(i, Get(up, i));
      assert ids == init + [i];
      InputPairsMean(i, Get(up, i));
      DistinctAppend(UpPairs(up, init), block);
    }
  }

  lemma InputPairsMean(i: int, os: seq<int>)
    ensures forall a :: a in InputPairs(i, os) <==> a.0 == i && a.1 in os
  {
    var r := InputPairs(i, os);
    forall a: (int, int) | a.0 == i && a.1 in os
      ensures a in r
    {
      var k :| 0 <= k < |os| && os[k] == a.1;
      assert r[k] == a;
    }
  }

  lemma OutputPairsMean(o: int, ids: seq<int>)
    ensures forall a :: a in OutputPairs(o, ids) <==> a.1 == o && a.0 in ids
  {
    var r := OutputPairs(o, ids);
    forall a: (int, int) | a.1 == o && a.0 in ids
      ensures a in r
    {
      var k :| 0 <= k < |ids| && ids[k] == a.0;
      assert r[k] == a;
    }
  }

  lemma DistinctAppend(a: seq<(int, int)>, b: seq<(int, int)>)
    requires Distinct(a) && Distinct(b) && forall x :: x in a ==> x !in b
    ensures Distinct(a + b)
  {
    assert forall j :: 0 <= j < |a| ==> a[j] in a;
    assert forall j :: 0 <= j < |b| ==> b[j] in b;
  }

  lemma {:induction false} DownPairsMean(down: map<int, seq<int>>, ids: seq<int>)
    requires Distinct(ids) && forall o :: o in down ==> Distinct(down[o])
    ensures Distinct(DownPairs(down, ids))
    ensures forall a :: a in DownPairs(down, ids) <==> a.1 in ids && a.0 in Get(down, a.1)
  {
    if ids != [] {
      var init, o := ids[..|ids| - 1], ids[|ids| - 1];
      DownPairsMean(down, init);
      var block := OutputPairs(o, Get(down, o));
      assert ids == init + [o];
      OutputPairsMean(o, Get(down, o));
      DistinctAppend(DownPairs(down, init), block);
    }
  }

  // ---- what a plan declares ----------------------------------------------------------------------

  lemma DrawnAppend(a: seq<Want>, b: seq<Want>)
    ensures DrawnAll(a + b) == DrawnAll(a) + DrawnAll(b)
  {
  }

  lemma LinksAppend(x: Ledger, m: Mounts, a: seq<(int, int)>, b: seq<(int, int)>)
    ensures LinksOf(x, m, a + b) == LinksOf(x, m, a) + LinksOf(x, m, b)
  {
    hide LinkOf;
  }

  lemma OneWant(x: Ledger, m: Mounts, i: int, o: int)
    ensures DrawnAll(UpWant(InputNode(x, m, i), Upstream(x, m, o))) == [LinkOf(x, m, (i, o))]
  {
  }

  lemma {:induction false} UpWantsOfLinks(x: Ledger, m: Mounts, i: int, os: seq<int>)
    ensures DrawnAll(UpWantsOf(InputNode(x, m, i), UpstreamsOf(x, m, os))) == LinksOf(x, m, InputPairs(i, os))
  {
    hide UpWant, Upstream, LinkOf, InputNode;
    var node := InputNode(x, m, i);
    if os != [] {
      var init, o := os[..|os| - 1], os[|os| - 1];
      UpWantsOfLinks(x, m, i, init);
      var all := UpstreamsOf(x, m, os);
      assert all[..|all| - 1] == UpstreamsOf(x, m, init);
      DrawnAppend(UpWantsOf(node, all[..|all| - 1]), UpWant(node, Upstream(x, m, o)));
      OneWant(x, m, i, o);
    }
  }

  lemma UpWantsUnfold(p: string, ins: seq<PlanInput>, last: PlanInput)
    ensures UpWants(p, ins + [last]) == UpWants(p, ins) + UpWantsOf(MountNodeId(p, last.path), last.upstreams)
  {
    assert (ins + [last])[..|ins|] == ins;
  }

  lemma InputsUnfold(x: Ledger, m: Mounts, up: map<int, seq<int>>, init: seq<int>, i: int)
    ensures InputsOf(x, m, up, init + [i]) == InputsOf(x, m, up, init) + [PlanInput(Path(m.inputPath, i), UpstreamsOf(x, m, Get(up, i)))]
    ensures UpPairs(up, init + [i]) == UpPairs(up, init) + InputPairs(i, Get(up, i))
  {
    hide UpstreamsOf, Get, Path;
    assert (init + [i])[..|init|] == init;
  }

  lemma {:induction false} UpWantsAreLinks(x: Ledger, m: Mounts, up: map<int, seq<int>>, p: string, ids: seq<int>)
    requires forall i :: i in ids ==> PlanOf(x.planOfInput, i) == p
    ensures DrawnAll(UpWants(p, InputsOf(x, m, up, ids))) == LinksOf(x, m, UpPairs(up, ids))
  {
    hide UpWants, UpWantsOf, DrawnAll, LinksOf, UpstreamsOf, PlanOf, Path, Get;
    if ids == [] {
      NoWants(x, m, p);
    } else {
      var init, i := ids[..|ids| - 1], ids[|ids| - 1];
      assert ids == init + [i];
      UpWantsAreLinks(x, m, up, p, init);
      var last := PlanInput(Path(m.inputPath, i), UpstreamsOf(x, m, Get(up, i)));
      InputsUnfold(x, m, up, init, i);
      hide InputsOf, UpPairs, InputPairs;
      UpWantsUnfold(p, InputsOf(x, m, up, init), last);
      UpWantsOfLinks(x, m, i, Get(up, i));
      DrawnAppend(UpWants(p, InputsOf(x, m, up, init)), UpWantsOf(InputNode(x, m, i), last.upstreams));
      LinksAppend(x, m, UpPairs(up, init), InputPairs(i, Get(up, i)));
    }
  }

  lemma NoWants(x: Ledger, m: Mounts, p: string)
    ensures DrawnAll(UpWants(p, [])) == [] && DrawnAll(OutWants(p, [])) == [] && LinksOf(x, m, []) == []
  {
  }

  lemma DownWantsOfLinks(x: Ledger, m: Mounts, o: int, ids: seq<int>)
    ensures DrawnAll(DownWantsOf(OutputNode(x, m, o), DownstreamsOf(x, m, ids))) == LinksOf(x, m, OutputPairs(o, ids))
  {
  }

  lemma OutWantsUnfold(p: string, outs: seq<PlanOutput>, last: PlanOutput)
    ensures OutWants(p, outs + [last]) == OutWants(p, outs) + DownWantsOf(MountNodeId(p, last.path), last.downstreams)
  {
    assert (outs + [last])[..|outs|] == outs;
  }

  lemma {:induction false} OutWantsAreLinks(x: Ledger, m: Mounts, down: map<int, seq<int>>, p: string, ids: seq<int>)
    requires forall o :: o in ids ==> PlanOf(x.planOfOutput, o) == p && !IsLog(x, m, o)
    ensures DrawnAll(OutWants(p, OutputsOf(x, m, down, ids))) == LinksOf(x, m, DownPairs(down, ids))
  {
    hide OutWants, DownWantsOf, DrawnAll, LinksOf, DownstreamsOf, PlanOf, IsLog;
    if ids == [] {
      NoWants(x, m, p);
    } else {
      var init, o := ids[..|ids| - 1], ids[|ids| - 1];
      OutWantsAreLinks(x, m, down, p, init);
      var last := PlanOutput(Path(m.outputPath, o), DownstreamsOf(x, m, Get(down, o)));
      assert OutputsOf(x, m, down, ids) == OutputsOf(x, m, down, init) + [last];
      OutWantsUnfold(p, OutputsOf(x, m, down, init), last);
      DownWantsOfLinks(x, m, o, Get(down, o));
      DrawnAppend(OutWants(p, OutputsOf(x, m, down, init)), DownWantsOf(OutputNode(x, m, o), last.downstreams));
      LinksAppend(x, m, DownPairs(down, init), OutputPairs(o, Get(down, o)));
    }
  }

  /** All outputs of a plan, its log last. */
  function AllOutputs(m: Mounts, p: string): seq<int>
    requires p in m.outputs
  {
    m.outputs[p] + if p in m.logOf then [m.logOf[p]] else []
  }

  lemma LogPairs(down: map<int, seq<int>>, os: seq<int>, o: int)
    ensures DownPairs(down, os + [o]) == DownPairs(down, os) + OutputPairs(o, Get(down, o))
  {
    assert (os + [o])[..|os|] == os;
  }

  lemma DeclaredUpLinks(x: Ledger, m: Mounts, up: map<int, seq<int>>, down: map<int, seq<int>>, p: string)
    requires InputRowsOf(x, m) && p in m.inputs && p in m.outputs
    ensures UpLinksOf(Detail(x, m, up, down, p)) == LinksOf(x, m, UpPairs(up, m.inputs[p]))
  {
    hide UpWants, DrawnAll, LinksOf, UpPairs;
    UpWantsAreLinks(x, m, up, p, m.inputs[p]);
  }

  lemma DeclaredDownLinks(x: Ledger, m: Mounts, up: map<int, seq<int>>, down: map<int, seq<int>>, p: string)
    requires OutputRowsOf(x, m) && p in m.inputs && p in m.outputs
    ensures DownLinksOf(Detail(x, m, up, down, p)) == LinksOf(x, m, DownPairs(down, AllOutputs(m, p)))
  {
    hide OutWants, DrawnAll, LinksOf, DownPairs, DownWantsOf;
    OutWantsAreLinks(x, m, down, p, m.outputs[p]);
    var detail, os := Detail(x, m, up, down, p), m.outputs[p];
    DrawnAppend(OutWants(p, detail.outputs), LogWants(p, detail.log));
    if p in m.logOf {
      var o := m.logOf[p];
      assert IsLog(x, m, o);
      DownWantsOfLinks(x, m, o, Get(down, o));
      LogPairs(down, os, o);
      LinksAppend(x, m, DownPairs(down, os), OutputPairs(o, Get(down, o)));
    } else {
      assert AllOutputs(m, p) == os;
      assert OutWants(p, detail.outputs) + LogWants(p, detail.log) == OutWants(p, detail.outputs);
    }
  }

  lemma {:induction false} CountLinks(x: Ledger, m: Mounts, pairs: seq<(int, int)>, e: Edge)
    requires Distinct(pairs)
    requires forall a, b :: a in pairs && b in pairs && LinkOf(x, m, a) == LinkOf(x, m, b) ==> a == b
    ensures Count(LinksOf(x, m, pairs), e) == if exists a :: a in pairs && LinkOf(x, m, a) == e then 1 else 0
  {
    hide LinkOf;
    if pairs != [] {
      var init, last := pairs[..|pairs| - 1], pairs[|pairs| - 1];
      CountLinks(x, m, init, e);
      assert pairs == init + [last];
      assert LinksOf(x, m, pairs) == LinksOf(x, m, init) + [LinkOf(x, m, last)];
      assert last !in init;
    }
  }

  // ---- one set of tables -------------------------------------------------------------------------

  /** What the two queries list: an input and an output are listed by each other, or by neither. */
  ghost predicate ListsFeeds(db: Db, up: map<int, seq<int>>, down: map<int, seq<int>>)
    requires Interned(db.tables.tags)
  {
    && (forall i :: i in up ==> Distinct(up[i])) && (forall o :: o in down ==> Distinct(down[o]))
    && (forall i, o :: o in Get(up, i) <==> i in db.ledger.planOfInput && Feeds(db.tables, i, o))
    && (forall i, o :: i in Get(down, o) <==> o in db.ledger.planOfOutput && Feeds(db.tables, i, o))
  }

  /** Only mountpoints that there are carry tags. */
  ghost predicate FeedersKnown(db: Db)
    requires Interned(db.tables.tags)
  {
    forall i, o :: Feeds(db.tables, i, o) ==> i in db.ledger.planOfInput && o in db.ledger.planOfOutput
  }

  lemma LinkNodes(x: Ledger, m: Mounts, a: (int, int), b: (int, int))
    requires InputRowsOf(x, m) && OutputRowsOf(x, m)
    requires a.0 in x.planOfInput && b.0 in x.planOfInput && a.1 in x.planOfOutput && b.1 in x.planOfOutput
    requires LinkOf(x, m, a) == LinkOf(x, m, b)
    ensures a == b
  {
    assert a.0 == b.0;
    if IsLog(x, m, a.1) {
      assert IsLog(x, m, b.1);
    } else {
      assert Siblings(x, m, a.1, b.1);
    }
  }

  lemma OneEach(db: Db, m: Mounts, pairs: seq<(int, int)>, e: Edge)
    requires Interned(db.tables.tags) && InputRowsOf(db.ledger, m) && OutputRowsOf(db.ledger, m)
    requires Distinct(pairs) && forall a :: a in pairs ==> Fed(db, a)
    ensures Count(LinksOf(db.ledger, m, pairs), e) == if exists a :: a in pairs && LinkOf(db.ledger, m, a) == e then 1 else 0
  {
    hide Interned, Feeds, LinkOf, InputRowsOf, OutputRowsOf;
    var x := db.ledger;
    forall a, b | a in pairs && b in pairs && LinkOf(x, m, a) == LinkOf(x, m, b)
      ensures a == b
    {
      LinkNodes(x, m, a, b);
    }
    CountLinks(x, m, pairs, e);
  }

  lemma InputsOfPlan(x: Ledger, m: Mounts, q: string)
    requires InputRowsOf(x, m) && q in m.inputs
    ensures Distinct(m.inputs[q]) && forall i :: i in m.inputs[q] <==> i in x.planOfInput && x.planOfInput[i] == q
  {
  }

  lemma Listed(db: Db, up: map<int, seq<int>>, down: map<int, seq<int>>, a: (int, int))
    requires Interned(db.tables.tags) && ListsFeeds(db, up, down) && FeedersKnown(db)
    ensures a.1 in Get(up, a.0) <==> Fed(db, a)
    ensures a.0 in Get(down, a.1) <==> Fed(db, a)
  {
    hide Interned, Feeds, Get;
  }

  lemma UpFed(db: Db, m: Mounts, up: map<int, seq<int>>, down: map<int, seq<int>>, q: string)
    requires Interned(db.tables.tags) && ListsFeeds(db, up, down) && FeedersKnown(db)
    requires InputRowsOf(db.ledger, m) && q in m.inputs
    ensures Distinct(UpPairs(up, m.inputs[q]))
    ensures forall a :: a in UpPairs(up, m.inputs[q]) <==> Fed(db, a) && db.ledger.planOfInput[a.0] == q
  {
    InputsOfPlan(db.ledger, m, q);
    UpPairsMean(up, m.inputs[q]);
    hide Interned, Feeds, InputRowsOf, ListsFeeds, FeedersKnown, UpPairs, Get;
    forall a
      ensures a in UpPairs(up, m.inputs[q]) <==> Fed(db, a) && db.ledger.planOfInput[a.0] == q
    {
      Listed(db, up, down, a);
    }
  }

  lemma DownFed(db: Db, m: Mounts, up: map<int, seq<int>>, down: map<int, seq<int>>, p: string)
    requires Interned(db.tables.tags) && ListsFeeds(db, up, down) && FeedersKnown(db)
    requires OutputRowsOf(db.ledger, m) && p in m.outputs
    ensures Distinct(DownPairs(down, AllOutputs(m, p)))
    ensures forall a :: a in DownPairs(down, AllOutputs(m, p)) <==> Fed(db, a) && db.ledger.planOfOutput[a.1] == p
  {
    AllOutputsMean(db.ledger, m, p);
    assert forall o :: o in down ==> Distinct(down[o]);
    hide Interned, Feeds, OutputRowsOf, AllOutputs, ListsFeeds, FeedersKnown, DownPairs, Get;
    DownPairsMean(down, AllOutputs(m, p));
    forall a
      ensures a in DownPairs(down, AllOutputs(m, p)) <==> Fed(db, a) && db.ledger.planOfOutput[a.1] == p
    {
      Listed(db, up, down, a);
    }
  }

  lemma AllOutputsMean(x: Ledger, m: Mounts, p: string)
    requires OutputRowsOf(x, m) && p in m.outputs
    ensures Distinct(AllOutputs(m, p))
    ensures forall o :: o in AllOutputs(m, p) <==> o in x.planOfOutput && x.planOfOutput[o] == p
  {
    assert p in m.logOf ==> IsLog(x, m, m.logOf[p]);
    assert forall j :: 0 <= j < |m.outputs[p]| ==> m.outputs[p][j] in m.outputs[p];
    forall o | o in x.planOfOutput && x.planOfOutput[o] == p
      ensures o in AllOutputs(m, p)
    {
      assert IsLog(x, m, o) ==> o == m.logOf[p];
    }
  }

  /** The output feeds the input. */
  ghost predicate Fed(db: Db, a: (int, int))
    requires Interned(db.tables.tags)
  {
    a.0 in db.ledger.planOfInput && a.1 in db.ledger.planOfOutput && Feeds(db.tables, a.0, a.1)
  }

  lemma EndsOf(x: Ledger, m: Mounts, a: (int, int), e: Edge)
    requires a.0 in x.planOfInput && a.1 in x.planOfOutput && LinkOf(x, m, a) == e && IsPlanLink(e)
    ensures e.toId.planId == x.planOfInput[a.0] && e.fromId.planId == x.planOfOutput[a.1]
  {
  }

  lemma DetailMirroredAt(db: Db, m: Mounts, up: map<int, seq<int>>, down: map<int, seq<int>>, e: Edge)
    requires Interned(db.tables.tags) && ListsFeeds(db, up, down) && FeedersKnown(db)
    requires InputRowsOf(db.ledger, m) && OutputRowsOf(db.ledger, m) && IsPlanLink(e)
    ensures m.inputs.Keys == m.outputs.Keys && MirroredPlanAt(Details(db.ledger, m, up, down), e)
  {
    var x, u, q, p := db.ledger, Details(db.ledger, m, up, down), e.toId.planId, e.fromId.planId;
    if p in u && q in u {
      DeclaredUpLinks(x, m, up, down, q);
      DeclaredDownLinks(x, m, up, down, p);
      UpFed(db, m, up, down, q);
      DownFed(db, m, up, down, p);
      var ups, downs := UpPairs(up, m.inputs[q]), DownPairs(down, AllOutputs(m, p));
      hide Interned, Feeds, LinkOf, LinksOf, InputRowsOf, OutputRowsOf, ListsFeeds, FeedersKnown, UpPairs, DownPairs, UpLinksOf, DownLinksOf, Detail, AllOutputs;
      OneEach(db, m, ups, e);
      OneEach(db, m, downs, e);
      forall a | LinkOf(x, m, a) == e && Fed(db, a)
        ensures a in ups <==> a in downs
      {
        EndsOf(x, m, a, e);
      }
    }
  }

  lemma InputPathsDiffer(x: Ledger, m: Mounts, p: string)
    requires InputRowsOf(x, m) && p in m.inputs
    ensures forall j, k :: 0 <= j < k < |m.inputs[p]| ==> Path(m.inputPath, m.inputs[p][j]) != Path(m.inputPath, m.inputs[p][k])
  {
    var ins := m.inputs[p];
    assert forall j :: 0 <= j < |ins| ==> ins[j] in ins;
  }

  lemma OutputPathsDiffer(x: Ledger, m: Mounts, p: string)
    requires OutputRowsOf(x, m) && p in m.outputs
    ensures forall j, k :: 0 <= j < k < |m.outputs[p]| ==> Path(m.outputPath, m.outputs[p][j]) != Path(m.outputPath, m.outputs[p][k])
  {
    var outs := m.outputs[p];
    assert forall j :: 0 <= j < |outs| ==> outs[j] in outs;
    hide IsLog;
    forall j, k | 0 <= j < k < |outs|
      ensures Path(m.outputPath, outs[j]) != Path(m.outputPath, outs[k])
    {
      assert Siblings(x, m, outs[j], outs[k]);
    }
  }

  lemma PathsDiffer(x: Ledger, m: Mounts, up: map<int, seq<int>>, down: map<int, seq<int>>, p: string)
    requires InputRowsOf(x, m) && OutputRowsOf(x, m) && p in m.inputs && p in m.outputs
    ensures UniquePaths(Detail(x, m, up, down, p))
  {
    InputPathsDiffer(x, m, p);
    OutputPathsDiffer(x, m, p);
    hide InputRowsOf, OutputRowsOf, Path, UpstreamsOf, DownstreamsOf;
  }

  /** Main result: details from one set of tables are mirrored. */
  lemma DetailsAreMirrored(db: Db, m: Mounts, up: map<int, seq<int>>, down: map<int, seq<int>>)
    requires Interned(db.tables.tags) && ListsFeeds(db, up, down) && FeedersKnown(db) && m.inputs.Keys == m.outputs.Keys
    requires InputRowsOf(db.ledger, m) && OutputRowsOf(db.ledger, m)
    ensures MirroredPlans(Details(db.ledger, m, up, down))
  {
    var u := Details(db.ledger, m, up, down);
    hide Interned, ListsFeeds, FeedersKnown, InputRowsOf, OutputRowsOf, MirroredPlanAt, UniquePaths;
    forall p | p in u
      ensures u[p].planId == p && UniquePaths(u[p])
    {
      PathsDiffer(db.ledger, m, up, down, p);
    }
    forall e | IsPlanLink(e)
      ensures MirroredPlanAt(u, e)
    {
      DetailMirroredAt(db, m, up, down, e);
    }
  }

  // ---- the search over them ----------------------------------------------------------------------

  lemma {:induction false} UpIdsMean(ins: seq<PlanInput>, q: string)
    requires q in PlanTrace.UpIds(ins)
    ensures exists j, k :: 0 <= j < |ins| && 0 <= k < |ins[j].upstreams| && ins[j].upstreams[k].planId == q
  {
    if q in PlanTrace.UpstreamIds(ins[0].upstreams) {
      var k :| 0 <= k < |ins[0].upstreams| && ins[0].upstreams[k].planId == q;
    } else {
      UpIdsMean(ins[1..], q);
      var j, k :| 0 <= j < |ins[1..]| && 0 <= k < |ins[1..][j].upstreams| && ins[1..][j].upstreams[k].planId == q;
      assert ins[j + 1].upstreams[k].planId == q;
    }
  }

  lemma {:induction false} DownIdsMean(outs: seq<PlanOutput>, q: string)
    requires q in PlanTrace.DownIds(outs)
    ensures exists j, k :: 0 <= j < |outs| && 0 <= k < |outs[j].downstreams| && outs[j].downstreams[k].planId == q
  {
    if q in PlanTrace.DownstreamIds(outs[0].downstreams) {
      var k :| 0 <= k < |outs[0].downstreams| && outs[0].downstreams[k].planId == q;
    } else {
      DownIdsMean(outs[1..], q);
      var j, k :| 0 <= j < |outs[1..]| && 0 <= k < |outs[1..][j].downstreams| && outs[1..][j].downstreams[k].planId == q;
      assert outs[j + 1].downstreams[k].planId == q;
    }
  }

  lemma FedDepends(db: Db, i: int, o: int)
    requires Interned(db.tables.tags) && Fed(db, (i, o))
    ensures DependsOn(db, db.ledger.planOfInput[i], db.ledger.planOfOutput[o])
  {
    assert Links(db, db.ledger.planOfInput[i], db.ledger.planOfOutput[o], i, o);
  }

  lemma NextUp(db: Db, m: Mounts, up: map<int, seq<int>>, down: map<int, seq<int>>, p: string, q: string)
    requires Interned(db.tables.tags) && ListsFeeds(db, up, down) && FeedersKnown(db)
    requires InputRowsOf(db.ledger, m) && p in m.inputs && p in m.outputs
    requires q in PlanTrace.Next(PlanTrace.Up, Detail(db.ledger, m, up, down, p))
    ensures DependsOn(db, p, q)
  {
    hide Interned, Feeds, ListsFeeds, FeedersKnown, DependsOn, Get;
    var x, detail := db.ledger, Detail(db.ledger, m, up, down, p);
    UpIdsMean(detail.inputs, q);
    var j, k :| 0 <= j < |detail.inputs| && 0 <= k < |detail.inputs[j].upstreams| && detail.inputs[j].upstreams[k].planId == q;
    var i := m.inputs[p][j];
    var o := Get(up, i)[k];
    InputsOfPlan(x, m, p);
    assert i in m.inputs[p] && o in Get(up, i);
    Listed(db, up, down, (i, o));
    FedDepends(db, i, o);
  }

  lemma NextDown(db: Db, m: Mounts, up: map<int, seq<int>>, down: map<int, seq<int>>, p: string, q: string)
    requires Interned(db.tables.tags) && ListsFeeds(db, up, down) && FeedersKnown(db)
    requires OutputRowsOf(db.ledger, m) && p in m.inputs && p in m.outputs
    requires q in PlanTrace.Next(PlanTrace.Down, Detail(db.ledger, m, up, down, p))
    ensures DependsOn(db, q, p)
  {
    hide Interned, Feeds, ListsFeeds, FeedersKnown, DependsOn, Get, IsLog;
    var x, detail := db.ledger, Detail(db.ledger, m, up, down, p);
    AllOutputsMean(x, m, p);
    var o, k: nat;
    if q in PlanTrace.DownIds(detail.outputs) {
      DownIdsMean(detail.outputs, q);
      var j :| 0 <= j < |detail.outputs| && exists n :: 0 <= n < |detail.outputs[j].downstreams| && detail.outputs[j].downstreams[n].planId == q;
      o := m.outputs[p][j];
      assert o in m.outputs[p];
    } else {
      o := m.logOf[p];
    }
    assert o in AllOutputs(m, p);
    k :| 0 <= k < |Get(down, o)| && PlanOf(x.planOfInput, Get(down, o)[k]) == q;
    var i := Get(down, o)[k];
    assert i in Get(down, o);
    Listed(db, up, down, (i, o));
    FedDepends(db, i, o);
  }

  lemma NextIsRanked(db: Db, m: Mounts, up: map<int, seq<int>>, down: map<int, seq<int>>, rank: string -> nat, bound: nat, p: string, q: string)
    requires Interned(db.tables.tags) && ListsFeeds(db, up, down) && FeedersKnown(db) && PlansKnown(db) && PlanRank(db, {}, rank, bound)
    requires InputRowsOf(db.ledger, m) && OutputRowsOf(db.ledger, m) && p in m.inputs && p in m.outputs
    ensures q in PlanTrace.Next(PlanTrace.Up, Detail(db.ledger, m, up, down, p)) ==> q in db.ledger.plan && rank(q) < rank(p)
    ensures q in PlanTrace.Next(PlanTrace.Down, Detail(db.ledger, m, up, down, p)) ==> q in db.ledger.plan && rank(p) < rank(q)
  {
    hide Interned, ListsFeeds, FeedersKnown, InputRowsOf, OutputRowsOf, PlansKnown, PlanRank, Detail, DependsOn;
    hide PlanTrace.Next;
    if q in PlanTrace.Next(PlanTrace.Up, Detail(db.ledger, m, up, down, p)) {
      NextUp(db, m, up, down, p, q);
      EdgeRanked(db, p, q, rank, bound);
    }
    if q in PlanTrace.Next(PlanTrace.Down, Detail(db.ledger, m, up, down, p)) {
      NextDown(db, m, up, down, p, q);
      EdgeRanked(db, q, p, rank, bound);
    }
  }

  /** Main result: a client that has these details searches a closed and acyclic universe. */
  lemma DetailsAreSearchable(db: Db, m: Mounts, up: map<int, seq<int>>, down: map<int, seq<int>>)
    requires Interned(db.tables.tags) && ListsFeeds(db, up, down) && FeedersKnown(db) && PlansKnown(db) && Acyclic(db, {})
    requires InputRowsOf(db.ledger, m) && OutputRowsOf(db.ledger, m) && m.inputs.Keys == m.outputs.Keys == db.ledger.plan.Keys
    ensures PlanTrace.PlansClosed(Details(db.ledger, m, up, down)) && PlanTrace.AcyclicPlans(Details(db.ledger, m, up, down))
  {
    hide Interned, ListsFeeds, FeedersKnown, InputRowsOf, OutputRowsOf, PlansKnown, PlanRank, Acyclic, Detail, Feeds;
    hide PlanTrace.Next, PlanTrace.PlansClosed, PlanTrace.AcyclicPlans;
    var u := Details(db.ledger, m, up, down);
    var rank, bound := Ranking(db, {});
    var ranks := map p | p in m.inputs :: rank(p) as int;
    forall p, q | p in u
      ensures q in PlanTrace.Next(PlanTrace.Up, u[p]) ==> q in u && ranks[q] < ranks[p]
      ensures q in PlanTrace.Next(PlanTrace.Down, u[p]) ==> q in u && ranks[p] < ranks[q]
    {
      NextIsRanked(db, m, up, down, rank, bound, p, q);
    }
    ClosedAndRanked(u, ranks);
  }

  lemma EdgeRanked(db: Db, q: string, p: string, rank: string -> nat, bound: nat)
    requires Interned(db.tables.tags) && PlansKnown(db) && PlanRank(db, {}, rank, bound) && DependsOn(db, q, p)
    ensures p in db.ledger.plan && q in db.ledger.plan && rank(p) < rank(q)
  {
    hide Interned, DependsOn, PlansKnown;
    EdgesAreKnown(db, q, p);
  }

  lemma ClosedAndRanked(u: PlanUniverse, ranks: map<string, int>)
    requires ranks.Keys == u.Keys
    requires forall p, q :: p in u && q in PlanTrace.Next(PlanTrace.Up, u[p]) ==> q in u && ranks[q] < ranks[p]
    requires forall p, q :: p in u && q in PlanTrace.Next(PlanTrace.Down, u[p]) ==> q in u && ranks[p] < ranks[q]
    ensures PlanTrace.PlansClosed(u) && PlanTrace.AcyclicPlans(u)
  {
    hide PlanTrace.Next;
    forall p, way | p in u
      ensures Elems(PlanTrace.Next(way, u[p])) <= u.Keys
    {
      assert way == PlanTrace.Up || way == PlanTrace.Down;
    }
    assert PlanTrace.Ranked(u, ranks);
  }

  /** The universe is put together from the lists of both queries on the tables. */
  ghost predicate FromTables(db: Db, m: Mounts, u: PlanUniverse)
    requires Interned(db.tables.tags) && m.inputs.Keys == m.outputs.Keys
  {
    exists up, down :: ListsFeeds(db, up, down) && u == Details(db.ledger, m, up, down)
  }

  /** `GetPlan`, for all plans. */
  method GetPlans(db: Db, m: Mounts) returns (u: PlanUniverse)
    requires SchemaOk(db.tables) && MountRefs(db.tables, db.ledger) && Interned(db.tables.tags) && Acyclic(db, {})
    requires InputRowsOf(db.ledger, m) && OutputRowsOf(db.ledger, m)
    ensures FromTables(db, m, u)
    ensures u.Keys == db.ledger.plan.Keys && MirroredPlans(u) && PlanTrace.PlansClosed(u) && PlanTrace.AcyclicPlans(u)
  {
    var up := Upstreams(db.tables, db.ledger.planOfInput.Keys);
    var down := Downstreams(db.tables, db.ledger.planOfOutput.Keys);
    MountpointsKnown(db);
    QueriesList(db, up, down);
    hide SchemaOk, MountRefs, Interned, Acyclic, ListsFeeds, FeedersKnown, MirroredPlans, PlansKnown;
    DetailsAreMirrored(db, m, up, down);
    DetailsAreSearchable(db, m, up, down);
    return Details(db.ledger, m, up, down);
  }

  lemma MountpointsKnown(db: Db)
    requires SchemaOk(db.tables) && MountRefs(db.tables, db.ledger) && Interned(db.tables.tags)
    ensures FeedersKnown(db) && PlansKnown(db)
  {
    forall i, o | Feeds(db.tables, i, o)
      ensures i in db.ledger.planOfInput && o in db.ledger.planOfOutput
    {
      var t :| t in InputTags(db.tables.tags, i);
      assert t in OutputTags(db.tables.tags, o);
    }
  }

  lemma QueriesList(db: Db, up: map<int, seq<int>>, down: map<int, seq<int>>)
    requires Interned(db.tables.tags)
    requires forall i, o :: i in up && o in up[i] <==> i in db.ledger.planOfInput && Feeds(db.tables, i, o)
    requires forall i, j, k :: i in up && 0 <= j < k < |up[i]| ==> up[i][j] != up[i][k]
    requires forall o, i :: o in down && i in down[o] <==> o in db.ledger.planOfOutput && Feeds(db.tables, i, o)
    requires forall o, j, k :: o in down && 0 <= j < k < |down[o]| ==> down[o][j] != down[o][k]
    ensures ListsFeeds(db, up, down)
  {
    hide Interned, Feeds;
  }
}
