/** The plan graph command of cmd/knit/subcommands/plan/graph/command.go. */
module PlanTrace {
  import opened Results
  import opened Sets
  import opened PlanGraph
  import opened PlanEdges
  import opened Reachability
  import opened Depths

  datatype Direction = Direction(upstream: bool, downstream: bool)

  datatype Way = Up | Down

  datatype PlanError = Usage | PlanNotFound(planId: string)

  function UpstreamIds(upss: seq<PlanUpstream>): seq<string> {
    seq(|upss|, i requires 0 <= i < |upss| => upss[i].planId)
  }

  function DownstreamIds(ds: seq<PlanDownstream>): seq<string> {
    seq(|ds|, i requires 0 <= i < |ds| => ds[i].planId)
  }

  function UpIds(ins: seq<PlanInput>): seq<string> {
    if ins == [] then [] else UpstreamIds(ins[0].upstreams) + UpIds(ins[1..])
  }

  function DownIds(outs: seq<PlanOutput>): seq<string> {
    if outs == [] then [] else DownstreamIds(outs[0].downstreams) + DownIds(outs[1..])
  }

  /** The plan ids that the search goes to from a plan. */
  function Next(way: Way, p: PlanDetail): seq<string> {
    match way
    case Up => UpIds(p.inputs)
    case Down => DownIds(p.outputs) + if p.log.Some? then DownstreamIds(p.log.value) else []
  }

  ghost predicate PlansClosed(u: PlanUniverse) {
    forall p, way :: p in u ==> Elems(Next(way, u[p])) <= u.Keys
  }

  ghost function PlanAdjacency(u: PlanUniverse, way: Way): Adjacency {
    map p | p in u :: Elems(Next(way, u[p]))
  }

  /** The plans within `depth` hops of `root`, not entering `avoid`. */
  ghost function PlansWithin(u: PlanUniverse, way: Way, root: PlanDetail, avoid: set<string>, depth: Depth): set<string> {
    var adj, start := PlanAdjacency(u, way), Elems(Next(way, root));
    if depth.infinity then set p | p in u && InSomeDepth(adj, start, avoid, p) else Within(adj, start, avoid, depth.n)
  }

  ghost function EmphasizedPlans(g: Plans): set<string> {
    set p | p in g.planNodes.entries && g.planNodes.entries[p].emphasize
  }

  // ---- one layer -------------------------------------------------------------------------------

  ghost function LeafIds(leaves: seq<PlanDetail>): set<string> {
    set p | p in leaves :: p.planId
  }

  ghost function NextOf(way: Way, leaves: seq<PlanDetail>): set<string> {
    set p, s | p in leaves && s in Next(way, p) :: s
  }

  ghost predicate FromLeaves(u: PlanUniverse, leaves: seq<PlanDetail>) {
    forall i :: 0 <= i < |leaves| ==> leaves[i].planId in u && u[leaves[i].planId] == leaves[i]
  }

  /** The emphasis after a plan has been added, or added again. */
  function Marked(marked: set<string>, planId: string, emphasize: bool): set<string> {
    if emphasize then marked + {planId} else marked - {planId}
  }

  lemma NodeSetShape(g: Plans, g': Plans, planId: string, node: PlanNode)
    requires g'.planNodes == g.planNodes.Set(planId, node)
    ensures g'.Ids() == g.Ids() + {planId}
    ensures EmphasizedPlans(g') == Marked(EmphasizedPlans(g), planId, node.emphasize)
  {
  }

  lemma AddPlanNodes(g: Plans, p: PlanDetail, emphasize: bool)
    ensures AddPlan(g, p, emphasize).planNodes == g.planNodes.Set(p.planId, MakeNode(p, emphasize))
  {
    hide Register, FireSlots, Slots, UpWants, OutWants, LogWants, SlotSet, MakeNode;
  }

  lemma AddPlanShape(g: Plans, p: PlanDetail, emphasize: bool)
    ensures var g' := AddPlan(g, p, emphasize);
      && g'.Ids() == g.Ids() + {p.planId}
      && EmphasizedPlans(g') == Marked(EmphasizedPlans(g), p.planId, emphasize)
  {
    AddPlanNodes(g, p, emphasize);
    assert MakeNode(p, emphasize).emphasize == emphasize;
    hide AddPlan, MakeNode, EmphasizedPlans;
    NodeSetShape(g, AddPlan(g, p, emphasize), p.planId, MakeNode(p, emphasize));
  }

  method AddFetched(u: PlanUniverse, g: PlanDirectedGraph, planId: string, emphasize: bool)
    requires WellFormed(u) && planId in u
    modifies g
    ensures old(PlansBuilt(u, g.View()) && !g.View().Has(planId)) ==> PlansBuilt(u, g.View())
    ensures g.View().Ids() == old(g.View().Ids()) + {planId}
    ensures EmphasizedPlans(g.View()) == Marked(old(EmphasizedPlans(g.View())), planId, emphasize)
  {
    hide PlansBuilt, AddPlan, EmphasizedPlans;
    if PlansBuilt(u, g.View()) && !g.View().Has(planId) {
      PlansBuiltAdd(u, g.View(), planId, emphasize);
    }
    AddPlanShape(g.View(), u[planId], emphasize);
    var _ := g.AddPlanNode(u[planId], emphasize);
  }

  lemma OnlyDrawnAreMarked(g: Plans)
    ensures EmphasizedPlans(g) <= g.Ids()
  {
  }

  /** What visiting some plan ids leaves behind: all of them present, and the new ones as leaves. */
  ghost predicate Visited(ids: set<string>, g0: Plans, g: Plans, fresh': seq<PlanDetail>) {
    && g.Ids() == g0.Ids() + ids
    && LeafIds(fresh') == g.Ids() - g0.Ids()
    && EmphasizedPlans(g) == EmphasizedPlans(g0)
  }

  method VisitNext(u: PlanUniverse, g: PlanDirectedGraph, ids: seq<string>) returns (r: Result<seq<PlanDetail>, PlanError>)
    requires WellFormed(u)
    modifies g
    ensures old(PlansBuilt(u, g.View())) ==> PlansBuilt(u, g.View())
    ensures Elems(ids) <= u.Keys ==> r.Ok?
    ensures r.Ok? ==> Visited(Elems(ids), old(g.View()), g.View(), r.value) && FromLeaves(u, r.value)
  {
    hide PlansBuilt, Visited, EmphasizedPlans, WellFormed;
    ghost var g0 := g.View();
    var fresh' := [];
    VisitedNothing(g0);
    assert Elems(ids[..0]) == {};
    for i := 0 to |ids|
      invariant PlansBuilt(u, g0) ==> PlansBuilt(u, g.View())
      invariant Visited(Elems(ids[..i]), g0, g.View(), fresh') && FromLeaves(u, fresh')
    {
      var planId := ids[i];
      assert Elems(ids[..i + 1]) == Elems(ids[..i]) + {planId};
      ghost var before := g.View();
      if g.planNodes.Has(planId) {
        VisitedAgain(Elems(ids[..i]), g0, before, fresh', planId);
        continue;
      }
      if planId !in u {
        assert planId in Elems(ids);
        return Err(PlanNotFound(planId));
      }
      AddFetched(u, g, planId, false);
      OnlyDrawnAreMarked(before);
      VisitedOneMore(u, Elems(ids[..i]), g0, before, g.View(), fresh', planId);
      fresh' := fresh' + [u[planId]];
    }
    assert ids[..|ids|] == ids;
    return Ok(fresh');
  }

  lemma VisitedAgain(ids: set<string>, g0: Plans, g: Plans, fresh': seq<PlanDetail>, planId: string)
    requires Visited(ids, g0, g, fresh') && g.Has(planId)
    ensures Visited(ids + {planId}, g0, g, fresh')
  {
    hide EmphasizedPlans;
  }

  lemma VisitedOneMore(u: PlanUniverse, ids: set<string>, g0: Plans, g: Plans, g': Plans, fresh': seq<PlanDetail>, planId: string)
    requires WellFormed(u) && planId in u && !g.Has(planId) && Visited(ids, g0, g, fresh')
    requires g'.Ids() == g.Ids() + {planId} && EmphasizedPlans(g') == EmphasizedPlans(g)
    ensures Visited(ids + {planId}, g0, g', fresh' + [u[planId]]) && u[planId].planId == planId
  {
    assert u[planId].planId == planId;
    hide EmphasizedPlans, WellFormed;
    assert LeafIds(fresh' + [u[planId]]) == LeafIds(fresh') + {planId};
  }

  lemma VisitedCompose(a: set<string>, b: set<string>, g0: Plans, g1: Plans, g2: Plans, x: seq<PlanDetail>, y: seq<PlanDetail>)
    requires Visited(a, g0, g1, x) && Visited(b, g1, g2, y)
    ensures Visited(a + b, g0, g2, x + y)
  {
    assert LeafIds(x + y) == LeafIds(x) + LeafIds(y);
  }

  lemma VisitedNothing(g: Plans)
    ensures Visited({}, g, g, [])
  {
  }

  /** All next plans of all leaves, in order. */
  method VisitLeaves(u: PlanUniverse, g: PlanDirectedGraph, leaves: seq<PlanDetail>, way: Way)
    returns (r: Result<seq<PlanDetail>, PlanError>)
    requires WellFormed(u)
    modifies g
    ensures old(PlansBuilt(u, g.View())) ==> PlansBuilt(u, g.View())
    ensures PlansClosed(u) && FromLeaves(u, leaves) ==> r.Ok?
    ensures r.Ok? ==> Visited(NextOf(way, leaves), old(g.View()), g.View(), r.value) && FromLeaves(u, r.value)
  {
    hide PlansBuilt, WellFormed, EmphasizedPlans, Visited, NextOf;
    ghost var g0 := g.View();
    var newLeaves := [];
    NextOfNothing(way);
    VisitedNothing(g0);
    assert leaves[..0] == [];
    for i := 0 to |leaves|
      invariant PlansBuilt(u, g0) ==> PlansBuilt(u, g.View())
      invariant Visited(NextOf(way, leaves[..i]), g0, g.View(), newLeaves) && FromLeaves(u, newLeaves)
    {
      NextOfLast(way, leaves[..i], leaves[i]);
      assert leaves[..i + 1] == leaves[..i] + [leaves[i]];
      ghost var before := g.View();
      var next := Next(way, leaves[i]);
      var more := VisitNext(u, g, next);
      if more.Err? {
        assert FromLeaves(u, leaves) ==> leaves[i] == u[leaves[i].planId];
        return more;
      }
      VisitedCompose(NextOf(way, leaves[..i]), Elems(next), g0, before, g.View(), newLeaves, more.value);
      newLeaves := newLeaves + more.value;
    }
    assert leaves[..|leaves|] == leaves;
    return Ok(newLeaves);
  }

  lemma NextOfNothing(way: Way)
    ensures NextOf(way, []) == {}
  {
  }

  lemma NextOfLast(way: Way, leaves: seq<PlanDetail>, last: PlanDetail)
    ensures NextOf(way, leaves + [last]) == NextOf(way, leaves) + Elems(Next(way, last))
  {
  }

  // ---- the whole search ------------------------------------------------------------------------

  ghost predicate Searching(u: PlanUniverse, way: Way, start: PlanDetail, d: nat, g0: Plans, g: Plans, leaves: seq<PlanDetail>) {
    var newest := if d == 0 then {} else LeafIds(leaves);
    && (d == 0 ==> leaves == [start])
    && FromLeaves(u, leaves)
    && Layer(PlanAdjacency(u, way), Elems(Next(way, start)), g0.Ids(), d, g.Ids(), newest)
    && EmphasizedPlans(g) == EmphasizedPlans(g0)
  }

  lemma OfferedPlans(u: PlanUniverse, way: Way, start: PlanDetail, d: nat, leaves: seq<PlanDetail>)
    requires FromLeaves(u, leaves) && (d == 0 ==> leaves == [start])
    ensures Offered(PlanAdjacency(u, way), Elems(Next(way, start)), d, if d == 0 then {} else LeafIds(leaves)) == NextOf(way, leaves)
  {
    if d == 0 {
      assert NextOf(way, leaves) == Elems(Next(way, start));
    } else {
      var adj := PlanAdjacency(u, way);
      forall s | s in Image(adj, LeafIds(leaves))
        ensures s in NextOf(way, leaves)
      {
        var p :| p in LeafIds(leaves) && p in adj && s in adj[p];
        var leaf :| leaf in leaves && leaf.planId == p;
        assert u[p] == leaf;
      }
      forall s | s in NextOf(way, leaves)
        ensures s in Image(adj, LeafIds(leaves))
      {
        var leaf :| leaf in leaves && s in Next(way, leaf);
        assert leaf.planId in LeafIds(leaves) && s in adj[leaf.planId];
      }
    }
  }

  lemma SearchStart(u: PlanUniverse, way: Way, start: PlanDetail, g: Plans)
    requires start.planId in u && u[start.planId] == start
    ensures Searching(u, way, start, 0, g, g, [start])
  {
  }

  lemma SearchStep(u: PlanUniverse, way: Way, start: PlanDetail, d: nat, g0: Plans, g: Plans, leaves: seq<PlanDetail>,
                   g': Plans, newLeaves: seq<PlanDetail>)
    requires Searching(u, way, start, d, g0, g, leaves)
    requires Visited(NextOf(way, leaves), g, g', newLeaves) && FromLeaves(u, newLeaves)
    ensures Searching(u, way, start, d + 1, g0, g', newLeaves)
  {
    hide PlanAdjacency, EmphasizedPlans, NextOf, LeafIds;
    OfferedPlans(u, way, start, d, leaves);
    LayerStep(PlanAdjacency(u, way), Elems(Next(way, start)), g0.Ids(), d, g.Ids(), if d == 0 then {} else LeafIds(leaves), g'.Ids());
  }

  ghost predicate Searched(u: PlanUniverse, way: Way, start: PlanDetail, depth: Depth, g0: Plans, g: Plans) {
    && g.Ids() == g0.Ids() + PlansWithin(u, way, start, g0.Ids(), depth)
    && EmphasizedPlans(g) == EmphasizedPlans(g0)
  }

  lemma SearchEnd(u: PlanUniverse, way: Way, start: PlanDetail, depth: Depth, d: nat, g0: Plans, g: Plans, leaves: seq<PlanDetail>)
    requires Searching(u, way, start, d, g0, g, leaves) && g.Ids() <= g0.Ids() + u.Keys
    requires depth.infinity || d <= depth.n
    requires leaves == [] || (!depth.infinity && d == depth.n)
    ensures Searched(u, way, start, depth, g0, g)
  {
    hide PlanAdjacency, EmphasizedPlans;
    var adj, first := PlanAdjacency(u, way), Elems(Next(way, start));
    if leaves == [] {
      OfferedPlans(u, way, start, d, leaves);
      assert NextOf(way, leaves) == {};
      forall n: nat
        ensures n >= d ==> Within(adj, first, g0.Ids(), n) == Within(adj, first, g0.Ids(), d)
        ensures Within(adj, first, g0.Ids(), n) <= Within(adj, first, g0.Ids(), d)
      {
        if n >= d {
          EmptyLayerIsFinal(adj, first, g0.Ids(), d, g.Ids(), if d == 0 then {} else LeafIds(leaves), n);
        } else {
          WithinMonotone(adj, first, g0.Ids(), n, d);
        }
      }
    }
  }

  ghost function Unvisited(u: PlanUniverse, g: Plans): nat {
    |u.Keys - g.Ids()|
  }

  lemma StepGrows(u: PlanUniverse, g: Plans, g': Plans, ids: set<string>, newLeaves: seq<PlanDetail>)
    requires Visited(ids, g, g', newLeaves) && FromLeaves(u, newLeaves)
    ensures g'.Ids() <= g.Ids() + u.Keys
    ensures Unvisited(u, g') <= Unvisited(u, g)
    ensures newLeaves != [] ==> Unvisited(u, g') < Unvisited(u, g)
  {
    forall p | p in g'.Ids() - g.Ids()
      ensures p in u
    {
      var leaf :| leaf in newLeaves && leaf.planId == p;
    }
    var left, left' := u.Keys - g.Ids(), u.Keys - g'.Ids();
    SubsetSize(left', left);
    if newLeaves != [] {
      var p := newLeaves[0];
      assert p in newLeaves && p.planId in LeafIds(newLeaves);
      SubsetSize(left', left - {p.planId});
    }
  }

  /** The depth left after `d` rounds of subtracting one. */
  function Left(depth: Depth, d: nat): Depth {
    if depth.infinity then NewInfinityDepth() else NewDepth(if depth.n < d then 0 else depth.n - d)
  }

  /** One round of the loop below. */
  method TraverseLayer(u: PlanUniverse, g: PlanDirectedGraph, leaves: seq<PlanDetail>, way: Way,
                       ghost start: PlanDetail, ghost d: nat, ghost g0: Plans)
    returns (r: Result<seq<PlanDetail>, PlanError>)
    requires WellFormed(u) && Searching(u, way, start, d, g0, g.View(), leaves)
    modifies g
    ensures old(PlansBuilt(u, g.View())) ==> PlansBuilt(u, g.View())
    ensures PlansClosed(u) ==> r.Ok?
    ensures r.Ok? ==> Searching(u, way, start, d + 1, g0, g.View(), r.value)
    ensures r.Ok? ==> g.View().Ids() <= old(g.View().Ids()) + u.Keys
    ensures r.Ok? ==> Unvisited(u, g.View()) <= old(Unvisited(u, g.View()))
    ensures r.Ok? && r.value != [] ==> Unvisited(u, g.View()) < old(Unvisited(u, g.View()))
  {
    hide PlansBuilt, WellFormed, EmphasizedPlans, PlansClosed, Unvisited, Visited;
    ghost var before := g.View();
    r := VisitLeaves(u, g, leaves, way);
    if r.Ok? {
      StepGrows(u, before, g.View(), NextOf(way, leaves), r.value);
      SearchStep(u, way, start, d, g0, before, leaves, g.View(), r.value);
    }
  }

  method Traverse(u: PlanUniverse, g: PlanDirectedGraph, start: PlanDetail, maxDepth: Depth, way: Way)
    returns (r: Result<(), PlanError>)
    requires WellFormed(u) && start.planId in u && u[start.planId] == start
    modifies g
    ensures old(PlansBuilt(u, g.View())) ==> PlansBuilt(u, g.View())
    ensures PlansClosed(u) ==> r.Ok?
    ensures r.Ok? ==> Searched(u, way, start, maxDepth, old(g.View()), g.View())
  {
    hide PlansBuilt, WellFormed, Searching, Searched, PlansClosed, Unvisited;
    ghost var g0, d := g.View(), 0;
    var leaves, depth := [start], maxDepth;
    SearchStart(u, way, start, g0);
    while 0 < |leaves|
      invariant PlansBuilt(u, g0) ==> PlansBuilt(u, g.View())
      invariant g.View().Ids() <= g0.Ids() + u.Keys
      invariant Searching(u, way, start, d, g0, g.View(), leaves)
      invariant maxDepth.infinity || d <= maxDepth.n
      invariant if d == 0 then depth == maxDepth else depth == Left(maxDepth, d)
      decreases Unvisited(u, g.View()), |leaves| > 0
    {
      if depth.IsZero() {
        break;
      }
      var newLeaves := TraverseLayer(u, g, leaves, way, start, d, g0);
      if newLeaves.Err? {
        return Err(newLeaves.error);
      }
      leaves := newLeaves.value;
      depth := depth.Add(-1);
      d := d + 1;
    }
    SearchEnd(u, way, start, maxDepth, d, g0, g.View(), leaves);
    return Ok(());
  }

  // ---- the command -----------------------------------------------------------------------------

  /** The plans that are drawn on top of those in `g0`, told from the universe alone. No pass enters what is
      drawn already. */
  ghost predicate ShowsOn(u: PlanUniverse, root: PlanDetail, dir: Direction, depth: Depth, g0: Plans, g: Plans) {
    var there := g0.Ids() + {root.planId};
    var ancestors := if dir.upstream then PlansWithin(u, Up, root, there, depth) else {};
    var descendants := if dir.downstream then PlansWithin(u, Down, root, there + ancestors, depth) else {};
    && g.Ids() == there + ancestors + descendants
    && EmphasizedPlans(g) == EmphasizedPlans(g0) + {root.planId}
  }

  /** The command starts with an empty graph. */
  ghost predicate Shows(u: PlanUniverse, root: PlanDetail, dir: Direction, depth: Depth, g: Plans) {
    ShowsOn(u, root, dir, depth, NoPlans(), g)
  }

  /** On any graph. Only where the root is drawn already its slots are brought a second time. */
  method MakeGraph(u: PlanUniverse, g: PlanDirectedGraph, planId: string, dir: Direction, maxDepth: Depth)
    returns (r: Result<(), PlanError>)
    requires WellFormed(u)
    modifies g
    ensures old(PlansBuilt(u, g.View()) && !g.View().Has(planId)) ==> PlansBuilt(u, g.View())
    ensures PlansClosed(u) && planId in u ==> r.Ok?
    ensures r.Ok? ==> planId in u && ShowsOn(u, u[planId], dir, maxDepth, old(g.View()), g.View())
  {
    hide PlansBuilt, PlansClosed, PlansWithin, EmphasizedPlans;
    if planId !in u {
      return Err(PlanNotFound(planId));
    }
    var p := u[planId];
    assert p.planId == planId;
    hide WellFormed;
    ghost var g0 := g.View();
    AddFetched(u, g, planId, true);
    ghost var g1 := g.View();
    if dir.upstream {
      var up := Traverse(u, g, p, maxDepth, Up);
      if up.Err? {
        return up;
      }
    }
    ghost var g2 := g.View();
    assert !dir.upstream ==> g1.Ids() + {} == g2.Ids();
    if dir.downstream {
      var down := Traverse(u, g, p, maxDepth, Down);
      if down.Err? {
        return down;
      }
    }
    assert !dir.downstream ==> g2.Ids() + {} == g.View().Ids();
    return Ok(());
  }

  /** Plan dependencies make no cycle: upstream plans rank lower, downstream plans rank higher. */
  ghost predicate Ranked(u: PlanUniverse, rank: map<string, int>) {
    && u.Keys <= rank.Keys
    && (forall p, q :: p in u && q in Next(Up, u[p]) && q in rank ==> rank[q] < rank[p])
    && (forall p, q :: p in u && q in Next(Down, u[p]) && q in rank ==> rank[p] < rank[q])
  }

  ghost predicate AcyclicPlans(u: PlanUniverse) {
    exists rank :: Ranked(u, rank)
  }

  ghost function Side(u: PlanUniverse, rank: map<string, int>, way: Way, bound: int): set<string> {
    set p | p in u && p in rank && if way == Up then rank[p] < bound else rank[p] > bound
  }

  lemma WithinSide(u: PlanUniverse, rank: map<string, int>, way: Way, root: PlanDetail, n: nat)
    requires PlansClosed(u) && Ranked(u, rank) && root.planId in u && u[root.planId] == root
    ensures Within(PlanAdjacency(u, way), Elems(Next(way, root)), {}, n) <= Side(u, rank, way, rank[root.planId])
  {
    var adj, start, good := PlanAdjacency(u, way), Elems(Next(way, root)), Side(u, rank, way, rank[root.planId]);
    assert start <= u.Keys;
    forall p, q | p in good && p in adj && q in adj[p]
      ensures q in good
    {
      assert q in Elems(Next(way, u[p]));
    }
    WithinInduction(adj, start, n, good);
  }

  lemma AvoidOtherSide(u: PlanUniverse, rank: map<string, int>, way: Way, root: PlanDetail, avoid: set<string>, depth: Depth)
    requires PlansClosed(u) && Ranked(u, rank) && root.planId in u && u[root.planId] == root
    requires avoid !! Side(u, rank, way, rank[root.planId])
    ensures PlansWithin(u, way, root, avoid, depth) == PlansWithin(u, way, root, {}, depth)
    ensures PlansWithin(u, way, root, {}, depth) <= Side(u, rank, way, rank[root.planId])
  {
    var adj, start := PlanAdjacency(u, way), Elems(Next(way, root));
    forall n: nat
      ensures Within(adj, start, avoid, n) == Within(adj, start, {}, n) <= Side(u, rank, way, rank[root.planId])
    {
      WithinSide(u, rank, way, root, n);
      AvoidUnreachable(adj, start, avoid, n);
    }
    assert forall p :: InSomeDepth(adj, start, avoid, p) <==> InSomeDepth(adj, start, {}, p);
  }

  /** The root and the plans within the depth, each direction by itself. */
  ghost function Induced(u: PlanUniverse, root: PlanDetail, dir: Direction, depth: Depth): set<string> {
    {root.planId} + (if dir.upstream then PlansWithin(u, Up, root, {}, depth) else {})
    + if dir.downstream then PlansWithin(u, Down, root, {}, depth) else {}
  }

  lemma FromNothing(u: PlanUniverse, root: PlanDetail, dir: Direction, depth: Depth, g: Plans)
    requires Shows(u, root, dir, depth, g)
    ensures var self := {root.planId};
      var ancestors := if dir.upstream then PlansWithin(u, Up, root, self, depth) else {};
      g.Ids() == self + ancestors + if dir.downstream then PlansWithin(u, Down, root, self + ancestors, depth) else {}
    ensures EmphasizedPlans(g) == {root.planId}
  {
    hide PlansWithin;
    assert EmphasizedPlans(NoPlans()) == {} && NoPlans().Ids() + {root.planId} == {root.planId};
  }

  lemma SidesApart(u: PlanUniverse, rank: map<string, int>, root: string)
    requires root in rank
    ensures {root} !! Side(u, rank, Up, rank[root]) !! Side(u, rank, Down, rank[root])
  {
  }

  lemma ShownIds(u: PlanUniverse, root: PlanDetail, dir: Direction, depth: Depth, g: Plans)
    requires PlansClosed(u) && AcyclicPlans(u) && root.planId in u && u[root.planId] == root
    requires Shows(u, root, dir, depth, g)
    ensures g.Ids() == Induced(u, root, dir, depth)
  {
    FromNothing(u, root, dir, depth, g);
    var rank :| Ranked(u, rank);
    var self := {root.planId};
    SidesApart(u, rank, root.planId);
    hide Shows, PlansWithin, PlansClosed, EmphasizedPlans, Ranked, Side;
    AvoidOtherSide(u, rank, Up, root, self, depth);
    var ancestors := if dir.upstream then PlansWithin(u, Up, root, {}, depth) else {};
    AvoidOtherSide(u, rank, Down, root, self + ancestors, depth);
  }

  /** Main result on the plan graph command: on an acyclic mirrored universe, the plans are exactly
      the root and those within the depth upstream or downstream, and the edges exactly the declared
      output-to-input and log-to-input pairs among them, each as often as declared. */
  lemma PlanGraphIsInducedSubgraph(u: PlanUniverse, root: PlanDetail, dir: Direction, depth: Depth, g: Plans)
    requires MirroredPlans(u) && PlansClosed(u) && AcyclicPlans(u) && root.planId in u && u[root.planId] == root
    requires PlansBuilt(u, g) && Shows(u, root, dir, depth, g)
    ensures g.Ids() == Induced(u, root, dir, depth)
    ensures EmphasizedPlans(g) == {root.planId}
    ensures PlanInv(u, g)
  {
    hide PlanInv, PlansBuilt, Shows, PlansWithin, EmphasizedPlans, MirroredPlans, AcyclicPlans, PlansClosed;
    PlansBuiltInv(u, g);
    FromNothing(u, root, dir, depth, g);
    ShownIds(u, root, dir, depth, g);
  }

  /** A direction is shown if its flag is set, and without any flag both are. */
  ghost predicate Asked(upstream: Option<bool>, downstream: Option<bool>, dir: Direction) {
    && (dir.upstream <==> upstream == Some(true) || (upstream.None? && downstream.None?))
    && (dir.downstream <==> downstream == Some(true) || (upstream.None? && downstream.None?))
  }

  /** The command from its own empty graph. */
  method Task(u: PlanUniverse, upstream: Option<bool>, downstream: Option<bool>, numbers: Depth, planId: string)
    returns (r: Result<PlanDirectedGraph, PlanError>)
    requires WellFormed(u)
    ensures numbers.IsZero() ==> r == Err(Usage)
    ensures !numbers.IsZero() && PlansClosed(u) && planId in u ==> r.Ok?
    ensures r.Ok? ==> fresh(r.value) && planId in u && PlansBuilt(u, r.value.View())
    ensures r.Ok? ==> forall dir :: Asked(upstream, downstream, dir) ==> Shows(u, u[planId], dir, numbers, r.value.View())
    ensures r.Ok? && MirroredPlans(u) && PlansClosed(u) && AcyclicPlans(u) ==>
      && (forall dir :: Asked(upstream, downstream, dir) ==> r.value.View().Ids() == Induced(u, u[planId], dir, numbers))
      && EmphasizedPlans(r.value.View()) == {planId}
      && PlanInv(u, r.value.View())
  {
    hide PlansBuilt, PlansClosed, MirroredPlans, AcyclicPlans, Induced, PlanInv, ShowsOn;
    if numbers.IsZero() {
      return Err(Usage);
    }
    var dir := Direction(true, true);
    if upstream.Some? || downstream.Some? {
      dir := Direction(upstream == Some(true), downstream == Some(true));
    }
    var g := new PlanDirectedGraph();
    NoPlansBuilt(u);
    var made := MakeGraph(u, g, planId, dir, numbers);
    if made.Err? {
      return Err(made.error);
    }
    if MirroredPlans(u) && PlansClosed(u) && AcyclicPlans(u) {
      PlanGraphIsInducedSubgraph(u, u[planId], dir, numbers, g.View());
    }
    return Ok(g);
  }
}
