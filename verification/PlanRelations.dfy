/** What the plan graph command of cmd/knit/subcommands/plan/graph/command.go shows of the tables behind the
    API: plans that depend on each other, and the mountpoints that feed each other. */
module PlanRelations {
  import opened Results
  import opened Sets
  import opened TagStore
  import opened Nomination
  import opened KnitGraph
  import opened PlanGraph
  import opened PlanEdges
  import opened PlanQueries
  import opened Reachability
  import opened Depths
  import T = PlanTrace
  import opened PlanCycles
  import opened Ledgers
  import opened PlanDetails

  /** The plans that each plan depends on. */
  ghost function DependsGraph(db: Db): (adj: Adjacency)
    requires Interned(db.tables.tags)
    ensures adj.Keys == db.ledger.plan.Keys
  {
    map p | p in db.ledger.plan :: set q | q in db.ledger.plan && DependsOn(db, p, q)
  }

  ghost function Relation(db: Db, way: T.Way): (adj: Adjacency)
    requires Interned(db.tables.tags)
    ensures adj.Keys == db.ledger.plan.Keys
  {
    if way == T.Up then DependsGraph(db) else Dependency(db)
  }

  /** The plans up to `depth` dependencies away. */
  ghost function Related(db: Db, way: T.Way, planId: string, depth: Depth): set<string>
    requires Interned(db.tables.tags) && planId in db.ledger.plan
  {
    var adj := Relation(db, way);
    if depth.infinity then set p | p in db.ledger.plan && InSomeDepth(adj, adj[planId], {}, p)
    else Within(adj, adj[planId], {}, depth.n)
  }

  // ---- details list exactly the dependencies -----------------------------------------------------

  lemma {:induction false} UpIdsHold(ins: seq<PlanInput>, j: nat, k: nat)
    requires j < |ins| && k < |ins[j].upstreams|
    ensures ins[j].upstreams[k].planId in T.UpIds(ins)
  {
    if j == 0 {
      assert T.UpstreamIds(ins[0].upstreams)[k] == ins[0].upstreams[k].planId;
    } else {
      UpIdsHold(ins[1..], j - 1, k);
    }
  }

  lemma {:induction false} DownIdsHold(outs: seq<PlanOutput>, j: nat, k: nat)
    requires j < |outs| && k < |outs[j].downstreams|
    ensures outs[j].downstreams[k].planId in T.DownIds(outs)
  {
    if j == 0 {
      assert T.DownstreamIds(outs[0].downstreams)[k] == outs[0].downstreams[k].planId;
    } else {
      DownIdsHold(outs[1..], j - 1, k);
    }
  }

  lemma UpListed(db: Db, m: Mounts, up: map<int, seq<int>>, down: map<int, seq<int>>, p: string, q: string)
    requires Interned(db.tables.tags) && ListsFeeds(db, up, down) && FeedersKnown(db)
    requires InputRowsOf(db.ledger, m) && p in m.inputs && p in m.outputs && DependsOn(db, p, q)
    ensures q in T.Next(T.Up, Detail(db.ledger, m, up, down, p))
  {
    hide Interned, Feeds, ListsFeeds, FeedersKnown, Get, IsLog, Detail, T.Next;
    var i, o :| Links(db, p, q, i, o);
    InputsOfPlan(db.ledger, m, p);
    hide InputRowsOf;
    Listed(db, up, down, (i, o));
    UpListedAt(db.ledger, m, up, down, p, i, o);
  }

  lemma UpListedAt(x: Ledger, m: Mounts, up: map<int, seq<int>>, down: map<int, seq<int>>, p: string, i: int, o: int)
    requires p in m.inputs && p in m.outputs && i in m.inputs[p] && o in Get(up, i)
    ensures PlanOf(x.planOfOutput, o) in T.Next(T.Up, Detail(x, m, up, down, p))
  {
    hide Get, IsLog, PlanOf;
    var j :| 0 <= j < |m.inputs[p]| && m.inputs[p][j] == i;
    var k :| 0 <= k < |Get(up, i)| && Get(up, i)[k] == o;
    UpIdsHold(Detail(x, m, up, down, p).inputs, j, k);
  }

  lemma DownListed(db: Db, m: Mounts, up: map<int, seq<int>>, down: map<int, seq<int>>, p: string, q: string)
    requires Interned(db.tables.tags) && ListsFeeds(db, up, down) && FeedersKnown(db)
    requires OutputRowsOf(db.ledger, m) && p in m.inputs && p in m.outputs && DependsOn(db, q, p)
    ensures q in T.Next(T.Down, Detail(db.ledger, m, up, down, p))
  {
    hide Interned, Feeds, ListsFeeds, FeedersKnown, Get, IsLog, OutputRowsOf;
    var i, o :| Links(db, q, p, i, o);
    AllOutputsMean(db.ledger, m, p);
    Listed(db, up, down, (i, o));
    var detail := Detail(db.ledger, m, up, down, p);
    var k :| 0 <= k < |Get(down, o)| && Get(down, o)[k] == i;
    if o in m.outputs[p] {
      var j :| 0 <= j < |m.outputs[p]| && m.outputs[p][j] == o;
      DownIdsHold(detail.outputs, j, k);
    } else {
      assert o in AllOutputs(m, p) && o == m.logOf[p];
      assert T.DownstreamIds(detail.log.value)[k] == q;
    }
  }

  lemma MountKeys(db: Db, m: Mounts)
    requires InputRowsOf(db.ledger, m) && OutputRowsOf(db.ledger, m)
    ensures m.inputs.Keys == m.outputs.Keys == db.ledger.plan.Keys
  {
  }

  lemma NextAt(db: Db, m: Mounts, up: map<int, seq<int>>, down: map<int, seq<int>>, way: T.Way, p: string)
    requires Interned(db.tables.tags) && ListsFeeds(db, up, down) && FeedersKnown(db) && PlansKnown(db)
    requires InputRowsOf(db.ledger, m) && OutputRowsOf(db.ledger, m) && p in db.ledger.plan
    ensures p in m.inputs && p in m.outputs
    ensures Elems(T.Next(way, Detail(db.ledger, m, up, down, p))) == Relation(db, way)[p]
  {
    MountKeys(db, m);
    var detail := Detail(db.ledger, m, up, down, p);
    hide Interned, ListsFeeds, FeedersKnown, PlansKnown, InputRowsOf, OutputRowsOf, Detail, DependsOn, T.Next;
    forall q
      ensures way == T.Up ==> (q in T.Next(T.Up, detail) <==> q in DependsGraph(db)[p])
      ensures way == T.Down ==> (q in T.Next(T.Down, detail) <==> q in Dependency(db)[p])
    {
      if way == T.Up {
        UpAt(db, m, up, down, p, q);
      } else {
        DownAt(db, m, up, down, p, q);
      }
    }
  }

  lemma UpAt(db: Db, m: Mounts, up: map<int, seq<int>>, down: map<int, seq<int>>, p: string, q: string)
    requires Interned(db.tables.tags) && ListsFeeds(db, up, down) && FeedersKnown(db) && PlansKnown(db)
    requires InputRowsOf(db.ledger, m) && OutputRowsOf(db.ledger, m) && p in db.ledger.plan && p in m.inputs && p in m.outputs
    ensures q in T.Next(T.Up, Detail(db.ledger, m, up, down, p)) <==> q in DependsGraph(db)[p]
  {
    hide Interned, ListsFeeds, FeedersKnown, PlansKnown, InputRowsOf, OutputRowsOf, Detail, DependsOn, T.Next;
    if q in T.Next(T.Up, Detail(db.ledger, m, up, down, p)) {
      NextUp(db, m, up, down, p, q);
    }
    if DependsOn(db, p, q) {
      EdgesAreKnown(db, p, q);
      UpListed(db, m, up, down, p, q);
    }
  }

  lemma DownAt(db: Db, m: Mounts, up: map<int, seq<int>>, down: map<int, seq<int>>, p: string, q: string)
    requires Interned(db.tables.tags) && ListsFeeds(db, up, down) && FeedersKnown(db) && PlansKnown(db)
    requires InputRowsOf(db.ledger, m) && OutputRowsOf(db.ledger, m) && p in db.ledger.plan && p in m.inputs && p in m.outputs
    ensures q in T.Next(T.Down, Detail(db.ledger, m, up, down, p)) <==> q in Dependency(db)[p]
  {
    hide Interned, ListsFeeds, FeedersKnown, PlansKnown, InputRowsOf, OutputRowsOf, Detail, DependsOn, T.Next;
    if q in T.Next(T.Down, Detail(db.ledger, m, up, down, p)) {
      NextDown(db, m, up, down, p, q);
    }
    if DependsOn(db, q, p) {
      EdgesAreKnown(db, q, p);
      DownListed(db, m, up, down, p, q);
    }
  }

  lemma SameAdjacency(u: PlanUniverse, way: T.Way, adj: Adjacency)
    requires u.Keys == adj.Keys && forall p :: p in u ==> Elems(T.Next(way, u[p])) == adj[p]
    ensures T.PlanAdjacency(u, way) == adj
  {
    hide T.Next, Elems;
  }

  lemma DetailsAt(db: Db, m: Mounts, up: map<int, seq<int>>, down: map<int, seq<int>>)
    requires InputRowsOf(db.ledger, m) && OutputRowsOf(db.ledger, m)
    ensures m.inputs.Keys == m.outputs.Keys == db.ledger.plan.Keys == Details(db.ledger, m, up, down).Keys
    ensures forall p :: p in db.ledger.plan ==> Details(db.ledger, m, up, down)[p] == Detail(db.ledger, m, up, down, p)
  {
    hide Detail;
  }

  /** The search goes along the dependencies and nothing else. */
  lemma NextIsRelated(db: Db, m: Mounts, u: PlanUniverse, way: T.Way)
    requires Interned(db.tables.tags) && FeedersKnown(db) && PlansKnown(db)
    requires InputRowsOf(db.ledger, m) && OutputRowsOf(db.ledger, m) && FromTables(db, m, u)
    ensures T.PlanAdjacency(u, way) == Relation(db, way)
  {
    var up, down :| ListsFeeds(db, up, down) && u == Details(db.ledger, m, up, down);
    DetailsAt(db, m, up, down);
    hide Interned, ListsFeeds, FeedersKnown, PlansKnown, InputRowsOf, OutputRowsOf, Details, Detail, Relation, Elems, T.Next, T.PlanAdjacency;
    forall p | p in u
      ensures Elems(T.Next(way, u[p])) == Relation(db, way)[p]
    {
      NextAt(db, m, up, down, way, p);
    }
    SameAdjacency(u, way, Relation(db, way));
  }

  lemma WithinIsRelated(db: Db, u: PlanUniverse, way: T.Way, planId: string, depth: Depth)
    requires Interned(db.tables.tags) && planId in db.ledger.plan && u.Keys == db.ledger.plan.Keys
    requires T.PlanAdjacency(u, way) == Relation(db, way)
    ensures T.PlansWithin(u, way, u[planId], {}, depth) == Related(db, way, planId, depth)
  {
    hide Interned, T.Next, DependsOn, Within, Relation;
    assert T.PlanAdjacency(u, way)[planId] == Elems(T.Next(way, u[planId]));
  }

  // ---- edges -------------------------------------------------------------------------------------

  /** The edge is that of an output and an input which it feeds, both of plans that are shown. */
  ghost predicate Feeding(db: Db, m: Mounts, shown: set<string>, a: (int, int), e: Edge)
    requires Interned(db.tables.tags)
  {
    && Fed(db, a) && LinkOf(db.ledger, m, a) == e
    && db.ledger.planOfInput[a.0] in shown && db.ledger.planOfOutput[a.1] in shown
  }

  /** Every pair that feeds is drawn once, and nothing else is. */
  ghost predicate DrawsFeeds(db: Db, m: Mounts, g: Plans)
    requires Interned(db.tables.tags)
  {
    forall e :: Count(g.edges, e) == if exists a :: Feeding(db, m, g.Ids(), a, e) then 1 else 0
  }

  lemma DeclaredOnce(db: Db, m: Mounts, u: PlanUniverse, e: Edge)
    requires Interned(db.tables.tags) && FeedersKnown(db) && IsPlanLink(e)
    requires InputRowsOf(db.ledger, m) && OutputRowsOf(db.ledger, m) && FromTables(db, m, u) && e.fromId.planId in u
    ensures DeclaredDown(u, e) == if exists a :: Fed(db, a) && LinkOf(db.ledger, m, a) == e then 1 else 0
  {
    var up, down :| ListsFeeds(db, up, down) && u == Details(db.ledger, m, up, down);
    var p := e.fromId.planId;
    MountKeys(db, m);
    DeclaredDownLinks(db.ledger, m, up, down, p);
    DownFed(db, m, up, down, p);
    var downs := DownPairs(down, AllOutputs(m, p));
    hide Interned, Feeds, LinkOf, LinksOf, InputRowsOf, OutputRowsOf, ListsFeeds, FeedersKnown, DownPairs, DownLinksOf, Detail, AllOutputs;
    OneEach(db, m, downs, e);
    forall a | Fed(db, a) && LinkOf(db.ledger, m, a) == e
      ensures a in downs
    {
      EndsOf(db.ledger, m, a, e);
    }
  }

  lemma FeedsOthers(db: Db, a: (int, int))
    requires Interned(db.tables.tags) && Acyclic(db, {}) && Fed(db, a)
    ensures db.ledger.planOfInput[a.0] != db.ledger.planOfOutput[a.1]
  {
    hide Interned, Feeds, DependsOn;
    var rank, bound := Ranking(db, {});
    FedDepends(db, a.0, a.1);
  }

  lemma FeedingIsPlanLink(db: Db, m: Mounts, a: (int, int), e: Edge)
    requires Interned(db.tables.tags) && Acyclic(db, {}) && Fed(db, a) && LinkOf(db.ledger, m, a) == e
    ensures IsPlanLink(e)
    ensures e.toId.planId == db.ledger.planOfInput[a.0] && e.fromId.planId == db.ledger.planOfOutput[a.1] != e.toId.planId
  {
    FeedsOthers(db, a);
    hide Interned, Acyclic, Feeds;
    EndsOf(db.ledger, m, a, e);
  }

  lemma FeedingIsFed(db: Db, m: Mounts, shown: set<string>, e: Edge)
    requires Interned(db.tables.tags) && Acyclic(db, {}) && IsPlanLink(e)
    ensures (exists a :: Feeding(db, m, shown, a, e)) <==>
      && e.fromId.planId != e.toId.planId && e.fromId.planId in shown && e.toId.planId in shown
      && exists a :: Fed(db, a) && LinkOf(db.ledger, m, a) == e
  {
    hide Interned, Acyclic, Feeds, LinkOf, Fed;
    forall a | Fed(db, a) && LinkOf(db.ledger, m, a) == e
      ensures Feeding(db, m, shown, a, e) <==> e.fromId.planId in shown && e.toId.planId in shown
      ensures e.fromId.planId != e.toId.planId
    {
      FeedingIsPlanLink(db, m, a, e);
    }
  }

  lemma CountOfLink(u: PlanUniverse, g: Plans, e: Edge)
    requires PlanInv(u, g) && IsPlanLink(e)
    ensures Count(g.edges, e) ==
      if e.fromId.planId != e.toId.planId && e.fromId.planId in g.Ids() && e.toId.planId in g.Ids() then DeclaredDown(u, e) else 0
    ensures e.fromId.planId in g.Ids() ==> e.fromId.planId in u
  {
    hide DeclaredUp, DeclaredDown, SlotLinks, MakeNode, Count;
    assert PlanLinkInv(u, g, e);
    assert e.fromId.planId in g.Ids() ==> g.Has(e.fromId.planId);
  }

  lemma DrawnOnce(db: Db, m: Mounts, u: PlanUniverse, g: Plans, e: Edge)
    requires Interned(db.tables.tags) && FeedersKnown(db) && Acyclic(db, {}) && PlanInv(u, g)
    requires InputRowsOf(db.ledger, m) && OutputRowsOf(db.ledger, m) && FromTables(db, m, u)
    ensures Count(g.edges, e) == if exists a :: Feeding(db, m, g.Ids(), a, e) then 1 else 0
  {
    assert !IsPlanLink(e) ==> Count(g.edges, e) == 0;
    hide Interned, FeedersKnown, Acyclic, InputRowsOf, OutputRowsOf, FromTables, LinkOf, PlanInv, DeclaredDown, Count, IsPlanLink;
    if IsPlanLink(e) {
      CountOfLink(u, g, e);
      FeedingIsFed(db, m, g.Ids(), e);
      if e.fromId.planId in g.Ids() {
        DeclaredOnce(db, m, u, e);
      }
    } else {
      forall a | Fed(db, a) && LinkOf(db.ledger, m, a) == e
        ensures false
      {
        FeedingIsPlanLink(db, m, a, e);
      }
    }
  }

  // ---- the command -------------------------------------------------------------------------------

  ghost predicate ShowsTables(db: Db, m: Mounts, planId: string, dir: T.Direction, depth: Depth, g: Plans)
    requires Interned(db.tables.tags)
  {
    && planId in db.ledger.plan
    && g.Ids() == {planId} + (if dir.upstream then Related(db, T.Up, planId, depth) else {})
                  + (if dir.downstream then Related(db, T.Down, planId, depth) else {})
    && T.EmphasizedPlans(g) == {planId}
    && DrawsFeeds(db, m, g)
  }

  /** Main result on tables and the plan graph command together: it fails only on an unknown plan or on depth
      zero, shows the plan with the plans that it depends on, and that depend on it, within the depth, and
      draws exactly the mountpoints of these that feed each other, each pair once. */
  method DrawPlans(db: Db, m: Mounts, upstream: Option<bool>, downstream: Option<bool>, numbers: Depth, planId: string)
    returns (r: Result<PlanDirectedGraph, T.PlanError>)
    requires SchemaOk(db.tables) && MountRefs(db.tables, db.ledger) && Interned(db.tables.tags) && Acyclic(db, {})
    requires InputRowsOf(db.ledger, m) && OutputRowsOf(db.ledger, m)
    ensures r.Ok? <==> !numbers.IsZero() && planId in db.ledger.plan
    ensures r.Ok? ==> forall dir :: T.Asked(upstream, downstream, dir) ==> ShowsTables(db, m, planId, dir, numbers, r.value.View())
  {
    MountpointsKnown(db);
    hide SchemaOk, MountRefs, Interned, Acyclic, InputRowsOf, OutputRowsOf, FeedersKnown, PlansKnown, ShowsTables;
    hide MirroredPlans, PlanInv, FromTables, T.PlansClosed, T.AcyclicPlans, T.ShowsOn, T.EmphasizedPlans, PlansBuilt, T.Induced;
    var u := GetPlans(db, m);
    r := T.Task(u, upstream, downstream, numbers, planId);
    if r.Ok? {
      forall dir | T.Asked(upstream, downstream, dir)
        ensures ShowsTables(db, m, planId, dir, numbers, r.value.View())
      {
        ShownTables(db, m, u, planId, dir, numbers, r.value.View());
      }
    }
  }

  lemma ShownTables(db: Db, m: Mounts, u: PlanUniverse, planId: string, dir: T.Direction, depth: Depth, g: Plans)
    requires Interned(db.tables.tags) && FeedersKnown(db) && PlansKnown(db) && Acyclic(db, {})
    requires InputRowsOf(db.ledger, m) && OutputRowsOf(db.ledger, m) && FromTables(db, m, u)
    requires planId in u && u.Keys == db.ledger.plan.Keys && u[planId].planId == planId && PlanInv(u, g)
    requires g.Ids() == T.Induced(u, u[planId], dir, depth) && T.EmphasizedPlans(g) == {planId}
    ensures ShowsTables(db, m, planId, dir, depth, g)
  {
    hide Interned, FeedersKnown, PlansKnown, Acyclic, InputRowsOf, OutputRowsOf, FromTables, PlanInv, Related, Feeding;
    hide T.EmphasizedPlans, T.PlansWithin, T.PlanAdjacency, Relation;
    forall way
      ensures T.PlansWithin(u, way, u[planId], {}, depth) == Related(db, way, planId, depth)
    {
      NextIsRelated(db, m, u, way);
      WithinIsRelated(db, u, way, planId, depth);
    }
    forall e
      ensures Count(g.edges, e) == if exists a :: Feeding(db, m, g.Ids(), a, e) then 1 else 0
    {
      DrawnOnce(db, m, u, g, e);
    }
  }
}
