/** Why the plan graph is right: adding plans, each at most once and in any order, draws exactly the
    declared output-to-input and log-to-input pairs between different plans that are present. */
module PlanEdges {
  import opened Results
  import opened OrderedMaps
  import opened KnitGraph
  import opened PlanGraph

  type PlanUniverse = map<string, PlanDetail>

  // ---- links and the slots they join -----------------------------------------------------------

  predicate IsPlanLink(e: Edge) {
    (e.fromId.MountNodeId? || e.fromId.PlanLogNodeId?) && e.toId.MountNodeId?
  }

  function SourceSlot(e: Edge): Slot
    requires IsPlanLink(e)
  {
    if e.fromId.PlanLogNodeId? then LogSlot(e.fromId.planId) else OutSlot(e.fromId.planId, e.fromId.path)
  }

  function TargetSlot(e: Edge): Slot
    requires IsPlanLink(e)
  {
    InSlot(e.toId.planId, e.toId.path)
  }

  function DrawnAll(wants: seq<Want>): seq<Edge> {
    seq(|wants|, i requires 0 <= i < |wants| => wants[i].Drawn())
  }

  function UpLinksOf(p: PlanDetail): seq<Edge> {
    DrawnAll(UpWants(p.planId, p.inputs))
  }

  function DownLinksOf(p: PlanDetail): seq<Edge> {
    DrawnAll(OutWants(p.planId, p.outputs) + LogWants(p.planId, p.log))
  }

  /** How often the plan at the target, and the plan at the source, declare the link. */
  ghost function DeclaredUp(u: PlanUniverse, e: Edge): nat
    requires IsPlanLink(e)
  {
    if e.toId.planId in u then Count(UpLinksOf(u[e.toId.planId]), e) else 0
  }

  ghost function DeclaredDown(u: PlanUniverse, e: Edge): nat
    requires IsPlanLink(e)
  {
    if e.fromId.planId in u then Count(DownLinksOf(u[e.fromId.planId]), e) else 0
  }

  ghost predicate UniquePaths(p: PlanDetail) {
    && (forall i, j :: 0 <= i < j < |p.inputs| ==> p.inputs[i].path != p.inputs[j].path)
    && (forall i, j :: 0 <= i < j < |p.outputs| ==> p.outputs[i].path != p.outputs[j].path)
  }

  ghost predicate WellFormed(u: PlanUniverse) {
    forall p :: p in u ==> u[p].planId == p && UniquePaths(u[p])
  }

  ghost predicate MirroredPlanAt(u: PlanUniverse, e: Edge)
    requires IsPlanLink(e)
  {
    e.fromId.planId in u && e.toId.planId in u ==> DeclaredUp(u, e) == DeclaredDown(u, e)
  }

  ghost predicate MirroredPlans(u: PlanUniverse) {
    && WellFormed(u)
    && (forall e :: IsPlanLink(e) ==> MirroredPlanAt(u, e))
  }

  // ---- shapes ----------------------------------------------------------------------------------

  predicate UpThunk(t: Thunk) {
    t.ToParked? && t.parked.MountNodeId?
  }

  predicate DownThunk(t: Thunk) {
    t.FromParked? && (t.parked.MountNodeId? || t.parked.PlanLogNodeId?)
  }

  predicate UpShape(w: Want) {
    !w.slot.InSlot? && UpThunk(w.thunk)
  }

  predicate DownShape(w: Want) {
    w.slot.InSlot? && DownThunk(w.thunk)
  }

  ghost predicate TableKinds(table: SlotTable) {
    forall s, t :: s in table && t in table[s] ==> if s.InSlot? then DownThunk(t) else UpThunk(t)
  }

  ghost predicate Paths(ins: seq<PlanInput>, path: string) {
    exists i :: 0 <= i < |ins| && ins[i].path == path
  }

  ghost predicate OutPaths(outs: seq<PlanOutput>, path: string) {
    exists i :: 0 <= i < |outs| && outs[i].path == path
  }

  lemma {:induction false} UpWantsOfShape(node: NodeId, upss: seq<PlanUpstream>)
    requires node.MountNodeId?
    ensures forall w :: w in UpWantsOf(node, upss) ==> UpShape(w) && w.thunk.parked == node
  {
    if upss != [] {
      UpWantsOfShape(node, upss[..|upss| - 1]);
    }
  }

  lemma {:induction false} UpWantsShape(id: string, ins: seq<PlanInput>)
    ensures forall w :: w in UpWants(id, ins) ==>
      UpShape(w) && w.thunk.parked.planId == id && Paths(ins, w.thunk.parked.path)
  {
    if ins != [] {
      var init, last := ins[..|ins| - 1], ins[|ins| - 1];
      UpWantsShape(id, init);
      UpWantsOfShape(MountNodeId(id, last.path), last.upstreams);
      assert Paths(ins, last.path);
      assert forall path :: Paths(init, path) ==> Paths(ins, path) by {
        forall path | Paths(init, path)
          ensures Paths(ins, path)
        {
          var i :| 0 <= i < |init| && init[i].path == path;
          assert ins[i].path == path;
        }
      }
    }
  }

  lemma {:induction false} OutWantsShape(id: string, outs: seq<PlanOutput>)
    ensures forall w :: w in OutWants(id, outs) ==>
      DownShape(w) && w.thunk.parked.MountNodeId? && w.thunk.parked.planId == id && OutPaths(outs, w.thunk.parked.path)
  {
    if outs != [] {
      var init, last := outs[..|outs| - 1], outs[|outs| - 1];
      OutWantsShape(id, init);
      assert OutPaths(outs, last.path);
      assert forall path :: OutPaths(init, path) ==> OutPaths(outs, path) by {
        forall path | OutPaths(init, path)
          ensures OutPaths(outs, path)
        {
          var i :| 0 <= i < |init| && init[i].path == path;
          assert outs[i].path == path;
        }
      }
    }
  }

  lemma LogWantsShape(id: string, log: Option<seq<PlanDownstream>>)
    ensures forall w :: w in LogWants(id, log) ==> DownShape(w) && w.thunk.parked == PlanLogNodeId(id) && log.Some?
  {
  }

  lemma {:induction false} SetInputsHas(ins: seq<PlanInput>, path: string)
    ensures SetInputs(ins).Has(path) <==> Paths(ins, path)
  {
    if ins != [] {
      var init, last := ins[..|ins| - 1], ins[|ins| - 1];
      SetInputsHas(init, path);
      assert forall i :: 0 <= i < |init| ==> init[i] == ins[i];
      assert Paths(ins, path) <==> Paths(init, path) || last.path == path;
    }
  }

  lemma {:induction false} SetOutputsHas(outs: seq<PlanOutput>, path: string)
    ensures SetOutputs(outs).Has(path) <==> OutPaths(outs, path)
  {
    if outs != [] {
      var init, last := outs[..|outs| - 1], outs[|outs| - 1];
      SetOutputsHas(init, path);
      assert forall i :: 0 <= i < |init| ==> init[i] == outs[i];
      assert OutPaths(outs, path) <==> OutPaths(init, path) || last.path == path;
    }
  }

  lemma {:induction false} SetInputsValues(ins: seq<PlanInput>)
    requires forall i, j :: 0 <= i < j < |ins| ==> ins[i].path != ins[j].path
    ensures SetInputs(ins).Values() == ins
    ensures |SetInputs(ins).keys| == |ins| && forall i :: 0 <= i < |ins| ==> SetInputs(ins).keys[i] == ins[i].path
  {
    if ins != [] {
      var init, last := ins[..|ins| - 1], ins[|ins| - 1];
      SetInputsValues(init);
      SetInputsHas(init, last.path);
      assert !Paths(init, last.path);
      SetNew(SetInputs(init), last.path, last);
    }
  }

  lemma {:induction false} SetOutputsValues(outs: seq<PlanOutput>)
    requires forall i, j :: 0 <= i < j < |outs| ==> outs[i].path != outs[j].path
    ensures SetOutputs(outs).Values() == outs
    ensures |SetOutputs(outs).keys| == |outs| && forall i :: 0 <= i < |outs| ==> SetOutputs(outs).keys[i] == outs[i].path
  {
    if outs != [] {
      var init, last := outs[..|outs| - 1], outs[|outs| - 1];
      SetOutputsValues(init);
      SetOutputsHas(init, last.path);
      assert !OutPaths(init, last.path);
      SetNew(SetOutputs(init), last.path, last);
    }
  }

  /** A declared link starts, and ends, at a slot that its plan has. */
  lemma UpLinkSlot(p: PlanDetail, e: Edge)
    requires IsPlanLink(e) && Count(UpLinksOf(p), e) > 0
    ensures e.toId.planId == p.planId && SetInputs(p.inputs).Has(e.toId.path)
  {
    UpWantsShape(p.planId, p.inputs);
    assert e in UpLinksOf(p);
    var i :| 0 <= i < |UpLinksOf(p)| && UpLinksOf(p)[i] == e;
    var w := UpWants(p.planId, p.inputs)[i];
    assert w in UpWants(p.planId, p.inputs);
    SetInputsHas(p.inputs, e.toId.path);
  }

  lemma DownLinkSlot(p: PlanDetail, e: Edge)
    requires IsPlanLink(e) && Count(DownLinksOf(p), e) > 0
    ensures e.fromId.planId == p.planId
    ensures if e.fromId.PlanLogNodeId? then p.log.Some? else SetOutputs(p.outputs).Has(e.fromId.path)
  {
    OutWantsShape(p.planId, p.outputs);
    LogWantsShape(p.planId, p.log);
    var wants := OutWants(p.planId, p.outputs) + LogWants(p.planId, p.log);
    assert e in DownLinksOf(p);
    var i :| 0 <= i < |DownLinksOf(p)| && DownLinksOf(p)[i] == e;
    assert wants[i] in wants;
    if e.fromId.MountNodeId? {
      SetOutputsHas(p.outputs, e.fromId.path);
    }
  }

  // ---- counting --------------------------------------------------------------------------------

  ghost function SlotLinks(table: SlotTable, s: Slot, e: Edge): nat {
    Count(FireAll(Parked(table, s), s.Node()), e)
  }

  lemma CountConcat(a: seq<Edge>, b: seq<Edge>, e: Edge)
    ensures Count(a + b, e) == Count(a, e) + Count(b, e)
    ensures Count([], e) == 0
    ensures forall x :: Count([x], e) == if x == e then 1 else 0
  {
  }

  lemma FiredAtSlot(table: SlotTable, s: Slot, e: Edge)
    requires TableKinds(table) && IsPlanLink(e)
    ensures SlotLinks(table, s, e) > 0 ==> s == SourceSlot(e) || s == TargetSlot(e)
  {
    var thunks := Parked(table, s);
    if SlotLinks(table, s, e) > 0 {
      assert e in FireAll(thunks, s.Node());
      var i :| 0 <= i < |thunks| && FireAll(thunks, s.Node())[i] == e;
      var t := thunks[i];
      assert s in table && t in table[s];
      match s
      case InSlot(_, _) => assert DownThunk(t) && e == Edge(t.parked, s.Node(), t.caption);
      case OutSlot(_, _) => assert UpThunk(t) && e == Edge(s.Node(), t.parked, t.caption);
      case LogSlot(_) => assert UpThunk(t) && e == Edge(s.Node(), t.parked, t.caption);
    }
  }

  lemma {:induction false} FireSlotsCount(table: SlotTable, slots: seq<Slot>, e: Edge)
    requires TableKinds(table) && IsPlanLink(e)
    requires forall i, j :: 0 <= i < j < |slots| ==> slots[i] != slots[j]
    ensures Count(FireSlots(table, slots), e)
         == (if SourceSlot(e) in slots then SlotLinks(table, SourceSlot(e), e) else 0)
            + (if TargetSlot(e) in slots then SlotLinks(table, TargetSlot(e), e) else 0)
  {
    hide TableKinds, FireAll, Count;
    if slots == [] {
      CountConcat([], [], e);
    } else {
      var init, last := slots[..|slots| - 1], slots[|slots| - 1];
      FireSlotsCount(table, init, e);
      CountConcat(FireSlots(table, init), FireAll(Parked(table, last), last.Node()), e);
      assert slots == init + [last];
      FiredAtSlot(table, last, e);
    }
  }

  lemma ParkSlotCount(table: SlotTable, w: Want, s: Slot, e: Edge)
    ensures SlotLinks(Park(table, w.slot, w.thunk), s, e) == SlotLinks(table, s, e) + if w.slot == s && w.Drawn() == e then 1 else 0
  {
    if s == w.slot {
      FireAllAppend(Parked(table, s), w.thunk, s.Node());
    }
  }

  lemma DrawnLast(wants: seq<Want>, e: Edge)
    requires wants != []
    ensures Count(DrawnAll(wants), e) == Count(DrawnAll(wants[..|wants| - 1]), e) + if wants[|wants| - 1].Drawn() == e then 1 else 0
  {
    assert DrawnAll(wants) == DrawnAll(wants[..|wants| - 1]) + [wants[|wants| - 1].Drawn()];
  }

  /** Registering wants that point up adds to the source slot of a link what the wants declare, or
      nothing when the source is there already; and it leaves all target slots alone. */
  lemma {:induction false} RegisterUp(table: SlotTable, nodes: PlanNodes, wants: seq<Want>, e: Edge)
    requires IsPlanLink(e) && forall w :: w in wants ==> UpShape(w)
    ensures SlotLinks(Register(table, nodes, wants), TargetSlot(e), e) == SlotLinks(table, TargetSlot(e), e)
    ensures !nodes.Has(SourceSlot(e).planId) ==>
      SlotLinks(Register(table, nodes, wants), SourceSlot(e), e) == SlotLinks(table, SourceSlot(e), e) + Count(DrawnAll(wants), e)
    ensures HasSlot(nodes, SourceSlot(e)) || Count(DrawnAll(wants), e) == 0 ==>
      SlotLinks(Register(table, nodes, wants), SourceSlot(e), e) == SlotLinks(table, SourceSlot(e), e)
  {
    if wants != [] {
      var init, last := wants[..|wants| - 1], wants[|wants| - 1];
      assert UpShape(last);
      hide SlotLinks, Count, DrawnAll;
      RegisterUp(table, nodes, init, e);
      DrawnLast(wants, e);
      var rest := Register(table, nodes, init);
      ParkSlotCount(rest, last, SourceSlot(e), e);
      ParkSlotCount(rest, last, TargetSlot(e), e);
    } else {
      assert DrawnAll(wants) == [];
    }
  }

  lemma {:induction false} RegisterDown(table: SlotTable, nodes: PlanNodes, wants: seq<Want>, e: Edge)
    requires IsPlanLink(e) && forall w :: w in wants ==> DownShape(w)
    ensures SlotLinks(Register(table, nodes, wants), SourceSlot(e), e) == SlotLinks(table, SourceSlot(e), e)
    ensures !nodes.Has(TargetSlot(e).planId) ==>
      SlotLinks(Register(table, nodes, wants), TargetSlot(e), e) == SlotLinks(table, TargetSlot(e), e) + Count(DrawnAll(wants), e)
    ensures HasSlot(nodes, TargetSlot(e)) || Count(DrawnAll(wants), e) == 0 ==>
      SlotLinks(Register(table, nodes, wants), TargetSlot(e), e) == SlotLinks(table, TargetSlot(e), e)
  {
    if wants != [] {
      var init, last := wants[..|wants| - 1], wants[|wants| - 1];
      assert DownShape(last);
      hide SlotLinks, Count, DrawnAll;
      RegisterDown(table, nodes, init, e);
      DrawnLast(wants, e);
      var rest := Register(table, nodes, init);
      ParkSlotCount(rest, last, SourceSlot(e), e);
      ParkSlotCount(rest, last, TargetSlot(e), e);
    } else {
      assert DrawnAll(wants) == [];
    }
  }

  lemma {:induction false} RegisterKinds(table: SlotTable, nodes: PlanNodes, wants: seq<Want>)
    requires TableKinds(table) && forall w :: w in wants ==> UpShape(w) || DownShape(w)
    ensures TableKinds(Register(table, nodes, wants))
  {
    if wants != [] {
      RegisterKinds(table, nodes, wants[..|wants| - 1]);
      assert UpShape(wants[|wants| - 1]) || DownShape(wants[|wants| - 1]);
    }
  }

  // ---- the invariant ---------------------------------------------------------------------------

  ghost predicate PlanLinkInv(u: PlanUniverse, g: Plans, e: Edge)
    requires IsPlanLink(e)
  {
    var p, q := e.fromId.planId, e.toId.planId;
    && Count(g.edges, e) == (if p != q && g.Has(p) && g.Has(q) then DeclaredDown(u, e) else 0)
    && SlotLinks(g.thunks, SourceSlot(e), e) == (if g.Has(q) && !g.Has(p) then DeclaredUp(u, e) else 0)
    && SlotLinks(g.thunks, TargetSlot(e), e) == (if g.Has(p) && !g.Has(q) then DeclaredDown(u, e) else 0)
  }

  ghost predicate PlanNodesFrom(u: PlanUniverse, nodes: PlanNodes) {
    forall p :: nodes.Has(p) ==> p in u && nodes.entries[p] == MakeNode(u[p], nodes.entries[p].emphasize)
  }

  ghost predicate AllPlanLinks(u: PlanUniverse, g: Plans) {
    forall e :: IsPlanLink(e) ==> PlanLinkInv(u, g, e)
  }

  ghost predicate OnlyPlanLinks(es: seq<Edge>) {
    forall e :: e in es ==> IsPlanLink(e)
  }

  ghost predicate PlanInv(u: PlanUniverse, g: Plans) {
    && g.planNodes.Valid()
    && PlanNodesFrom(u, g.planNodes)
    && TableKinds(g.thunks)
    && AllPlanLinks(u, g)
    && OnlyPlanLinks(g.edges)
  }

  // ---- adding a plan ---------------------------------------------------------------------------

  lemma SlotsOfNode(p: PlanDetail, emphasize: bool, nodes: PlanNodes, s: Slot)
    requires nodes.Has(p.planId) && nodes.entries[p.planId] == MakeNode(p, emphasize)
    ensures s in Slots(MakeNode(p, emphasize)) <==> s.planId == p.planId && HasSlot(nodes, s)
  {
    var n := MakeNode(p, emphasize);
    assert forall path :: path in n.inputs.keys <==> n.inputs.Has(path) by {
      assert forall path :: path in n.inputs.keys <==> path in (set k | k in n.inputs.keys);
    }
    assert forall path :: path in n.outputs.keys <==> n.outputs.Has(path) by {
      assert forall path :: path in n.outputs.keys <==> path in (set k | k in n.outputs.keys);
    }
    match s
    case InSlot(id, path) =>
      assert s in InSlots(p.planId, n.inputs.keys) <==> id == p.planId && path in n.inputs.keys by {
        if id == p.planId && path in n.inputs.keys {
          var i :| 0 <= i < |n.inputs.keys| && n.inputs.keys[i] == path;
          assert InSlots(p.planId, n.inputs.keys)[i] == s;
        }
      }
    case OutSlot(id, path) =>
      assert s in OutSlots(p.planId, n.outputs.keys) <==> id == p.planId && path in n.outputs.keys by {
        if id == p.planId && path in n.outputs.keys {
          var i :| 0 <= i < |n.outputs.keys| && n.outputs.keys[i] == path;
          assert OutSlots(p.planId, n.outputs.keys)[i] == s;
        }
      }
    case LogSlot(id) =>
  }

  /** A declared link names slots that the plans at both ends have, once they are present. */
  lemma DeclaredSlots(u: PlanUniverse, nodes: PlanNodes, e: Edge)
    requires PlanNodesFrom(u, nodes) && WellFormed(u) && IsPlanLink(e)
    ensures DeclaredDown(u, e) > 0 && nodes.Has(e.fromId.planId) ==> HasSlot(nodes, SourceSlot(e))
    ensures DeclaredUp(u, e) > 0 && nodes.Has(e.toId.planId) ==> HasSlot(nodes, TargetSlot(e))
  {
    if DeclaredDown(u, e) > 0 {
      DownLinkSlot(u[e.fromId.planId], e);
    }
    if DeclaredUp(u, e) > 0 {
      UpLinkSlot(u[e.toId.planId], e);
    }
  }

  ghost function UpCount(p: PlanDetail, e: Edge): nat {
    Count(UpLinksOf(p), e)
  }

  ghost function DownCount(p: PlanDetail, e: Edge): nat {
    Count(DownLinksOf(p), e)
  }

  /** The wants that `AddPlan` registers are those of the detail. */
  lemma AddPlanUnfold(g: Plans, p: PlanDetail, emphasize: bool)
    requires UniquePaths(p)
    ensures var g', slots := AddPlan(g, p, emphasize), Slots(MakeNode(p, emphasize));
      && g'.edges == g.edges + FireSlots(g.thunks, slots)
      && g'.thunks == Register(Register(g.thunks - SlotSet(slots), g'.planNodes, UpWants(p.planId, p.inputs)),
                               g'.planNodes, OutWants(p.planId, p.outputs) + LogWants(p.planId, p.log))
  {
    SetInputsValues(p.inputs);
    SetOutputsValues(p.outputs);
    var nodes := AddPlan(g, p, emphasize).planNodes;
    var slots := Slots(MakeNode(p, emphasize));
    RegisterAppend(Register(g.thunks - SlotSet(slots), nodes, UpWants(p.planId, p.inputs)), nodes,
                   OutWants(p.planId, p.outputs), LogWants(p.planId, p.log));
  }

  lemma ForgetSlots(table: SlotTable, slots: seq<Slot>, s: Slot, e: Edge)
    ensures SlotLinks(table - SlotSet(slots), s, e) == if s in slots then 0 else SlotLinks(table, s, e)
  {
  }

  /** What adding a plan does to the three counts of a link. */
  lemma AddPlanCounts(g: Plans, p: PlanDetail, emphasize: bool, e: Edge)
    requires UniquePaths(p) && TableKinds(g.thunks) && IsPlanLink(e)
    ensures var g', slots := AddPlan(g, p, emphasize), Slots(MakeNode(p, emphasize));
      var src, dst := SourceSlot(e), TargetSlot(e);
      && Count(g'.edges, e) == Count(g.edges, e) + (if src in slots then SlotLinks(g.thunks, src, e) else 0)
                               + (if dst in slots then SlotLinks(g.thunks, dst, e) else 0)
      && var src0, dst0 := (if src in slots then 0 else SlotLinks(g.thunks, src, e)), (if dst in slots then 0 else SlotLinks(g.thunks, dst, e));
      && (!g'.Has(src.planId) ==> SlotLinks(g'.thunks, src, e) == src0 + UpCount(p, e))
      && (HasSlot(g'.planNodes, src) || UpCount(p, e) == 0 ==> SlotLinks(g'.thunks, src, e) == src0)
      && (!g'.Has(dst.planId) ==> SlotLinks(g'.thunks, dst, e) == dst0 + DownCount(p, e))
      && (HasSlot(g'.planNodes, dst) || DownCount(p, e) == 0 ==> SlotLinks(g'.thunks, dst, e) == dst0)
  {
    var g', node := AddPlan(g, p, emphasize), MakeNode(p, emphasize);
    var slots := Slots(node);
    AddPlanUnfold(g, p, emphasize);
    SlotsDistinct(node);
    UpWantsShape(p.planId, p.inputs);
    OutWantsShape(p.planId, p.outputs);
    LogWantsShape(p.planId, p.log);
    hide SlotLinks, Count, AddPlan, Slots, MakeNode, HasSlot, Register, FireSlots, SlotSet, UpWants, OutWants, LogWants, TableKinds;
    var up, down := UpWants(p.planId, p.inputs), OutWants(p.planId, p.outputs) + LogWants(p.planId, p.log);
    var left := g.thunks - SlotSet(slots);
    CountConcat(g.edges, FireSlots(g.thunks, slots), e);
    FireSlotsCount(g.thunks, slots, e);
    ForgetSlots(g.thunks, slots, SourceSlot(e), e);
    ForgetSlots(g.thunks, slots, TargetSlot(e), e);
    RegisterUp(left, g'.planNodes, up, e);
    RegisterDown(Register(left, g'.planNodes, up), g'.planNodes, down, e);
  }

  lemma NotOfPlan(p: PlanDetail, e: Edge)
    requires IsPlanLink(e)
    ensures UpCount(p, e) > 0 ==> e.toId.planId == p.planId
    ensures DownCount(p, e) > 0 ==> e.fromId.planId == p.planId
  {
    if UpCount(p, e) > 0 {
      UpLinkSlot(p, e);
    }
    if DownCount(p, e) > 0 {
      DownLinkSlot(p, e);
    }
  }

  /** The case analysis of `AddPlanLink`, on the numbers alone. `p` and `q` are the plans at the two
      ends, `x` the new plan. */
  lemma AddPlanCases(u: PlanUniverse, g: Plans, g': Plans, x: string, e: Edge, srcNew: bool, dstNew: bool, up: nat, down: nat)
    requires IsPlanLink(e) && PlanLinkInv(u, g, e) && MirroredPlanAt(u, e)
    requires x in u && !g.Has(x) && g'.Ids() == g.Ids() + {x} && g'.Ids() <= u.Keys
    requires var p, q, src, dst := e.fromId.planId, e.toId.planId, SourceSlot(e), TargetSlot(e);
      && (srcNew <==> p == x && HasSlot(g'.planNodes, src)) && (dstNew <==> q == x && HasSlot(g'.planNodes, dst))
      && up == (if q == x then DeclaredUp(u, e) else 0) && down == (if p == x then DeclaredDown(u, e) else 0)
      && (DeclaredDown(u, e) > 0 && g'.Has(p) ==> HasSlot(g'.planNodes, src))
      && (DeclaredUp(u, e) > 0 && g'.Has(q) ==> HasSlot(g'.planNodes, dst))
      && Count(g'.edges, e) == Count(g.edges, e) + (if srcNew then SlotLinks(g.thunks, src, e) else 0)
                               + (if dstNew then SlotLinks(g.thunks, dst, e) else 0)
      && var src0, dst0 := (if srcNew then 0 else SlotLinks(g.thunks, src, e)), (if dstNew then 0 else SlotLinks(g.thunks, dst, e));
      && (!g'.Has(p) ==> SlotLinks(g'.thunks, src, e) == src0 + up)
      && (HasSlot(g'.planNodes, src) || up == 0 ==> SlotLinks(g'.thunks, src, e) == src0)
      && (!g'.Has(q) ==> SlotLinks(g'.thunks, dst, e) == dst0 + down)
      && (HasSlot(g'.planNodes, dst) || down == 0 ==> SlotLinks(g'.thunks, dst, e) == dst0)
    ensures PlanLinkInv(u, g', e)
  {
    hide SlotLinks, Count, HasSlot, DeclaredUp, DeclaredDown;
    var p, q := e.fromId.planId, e.toId.planId;
    assert g.Has(p) ==> p in u;
    assert g.Has(q) ==> q in u;
    if p == x && q == x {
    } else if p == x {
    } else if q == x {
    } else {
    }
  }

  lemma AddPlanNodes(u: PlanUniverse, g: Plans, x: string, emphasize: bool)
    requires WellFormed(u) && PlanNodesFrom(u, g.planNodes) && x in u
    ensures var g' := AddPlan(g, u[x], emphasize);
      && PlanNodesFrom(u, g'.planNodes) && g'.Ids() == g.Ids() + {x} && g'.Ids() <= u.Keys
      && g'.planNodes.entries[x] == MakeNode(u[x], emphasize)
      && (g.planNodes.Valid() ==> g'.planNodes.Valid())
  {
  }

  lemma AddPlanLink(u: PlanUniverse, g: Plans, x: string, emphasize: bool, e: Edge)
    requires WellFormed(u) && PlanNodesFrom(u, g.planNodes) && TableKinds(g.thunks) && x in u && !g.Has(x)
    requires IsPlanLink(e) && PlanLinkInv(u, g, e) && MirroredPlanAt(u, e)
    ensures PlanLinkInv(u, AddPlan(g, u[x], emphasize), e)
  {
    hide SlotLinks, Count, AddPlan, Slots, MakeNode, HasSlot, TableKinds, PlanNodesFrom, PlanLinkInv, MirroredPlanAt, UniquePaths;
    var g', slots := AddPlan(g, u[x], emphasize), Slots(MakeNode(u[x], emphasize));
    AddPlanNodes(u, g, x, emphasize);
    AddPlanCounts(g, u[x], emphasize, e);
    SlotsOfNode(u[x], emphasize, g'.planNodes, SourceSlot(e));
    SlotsOfNode(u[x], emphasize, g'.planNodes, TargetSlot(e));
    DeclaredSlots(u, g'.planNodes, e);
    NotOfPlan(u[x], e);
    AddPlanCases(u, g, g', x, e, SourceSlot(e) in slots, TargetSlot(e) in slots, UpCount(u[x], e), DownCount(u[x], e));
  }

  lemma AddPlanLinks(u: PlanUniverse, g: Plans, x: string, emphasize: bool)
    requires MirroredPlans(u) && PlanNodesFrom(u, g.planNodes) && TableKinds(g.thunks) && AllPlanLinks(u, g)
    requires x in u && !g.Has(x)
    ensures AllPlanLinks(u, AddPlan(g, u[x], emphasize))
  {
    forall e | IsPlanLink(e)
      ensures PlanLinkInv(u, AddPlan(g, u[x], emphasize), e)
    {
      assert PlanLinkInv(u, g, e) && MirroredPlanAt(u, e);
      hide PlanLinkInv, MirroredPlanAt, AddPlan, PlanNodesFrom, TableKinds;
      AddPlanLink(u, g, x, emphasize, e);
    }
  }

  lemma AddPlanKinds(u: PlanUniverse, g: Plans, x: string, emphasize: bool)
    requires WellFormed(u) && TableKinds(g.thunks) && x in u
    ensures TableKinds(AddPlan(g, u[x], emphasize).thunks)
  {
    var p := u[x];
    var nodes, slots := AddPlan(g, p, emphasize).planNodes, Slots(MakeNode(p, emphasize));
    AddPlanUnfold(g, p, emphasize);
    UpWantsShape(p.planId, p.inputs);
    OutWantsShape(p.planId, p.outputs);
    LogWantsShape(p.planId, p.log);
    assert TableKinds(g.thunks - SlotSet(slots));
    RegisterKinds(g.thunks - SlotSet(slots), nodes, UpWants(p.planId, p.inputs));
    RegisterKinds(Register(g.thunks - SlotSet(slots), nodes, UpWants(p.planId, p.inputs)), nodes,
                  OutWants(p.planId, p.outputs) + LogWants(p.planId, p.log));
  }

  lemma {:induction false} FiredAreLinks(table: SlotTable, slots: seq<Slot>)
    requires TableKinds(table)
    ensures OnlyPlanLinks(FireSlots(table, slots))
  {
    if slots != [] {
      FiredAreLinks(table, slots[..|slots| - 1]);
      var s := slots[|slots| - 1];
      var fired := FireAll(Parked(table, s), s.Node());
      forall i | 0 <= i < |fired|
        ensures IsPlanLink(fired[i])
      {
        var t := Parked(table, s)[i];
        assert s in table && t in table[s] && fired[i] == t.Fire(s.Node());
        match s
        case InSlot(_, _) => assert DownThunk(t);
        case OutSlot(_, _) => assert UpThunk(t);
        case LogSlot(_) => assert UpThunk(t);
      }
    }
  }

  lemma AddPlanInv(u: PlanUniverse, g: Plans, x: string, emphasize: bool)
    requires MirroredPlans(u) && PlanInv(u, g) && x in u && !g.Has(x)
    ensures PlanInv(u, AddPlan(g, u[x], emphasize))
  {
    AddPlanNodes(u, g, x, emphasize);
    AddPlanLinks(u, g, x, emphasize);
    AddPlanKinds(u, g, x, emphasize);
    AddPlanUnfold(g, u[x], emphasize);
    FiredAreLinks(g.thunks, Slots(MakeNode(u[x], emphasize)));
    hide AddPlan, AllPlanLinks, TableKinds, PlanNodesFrom;
  }

  lemma NoPlansInv(u: PlanUniverse)
    ensures PlanInv(u, NoPlans())
  {
    forall e | IsPlanLink(e)
      ensures PlanLinkInv(u, NoPlans(), e)
    {
    }
  }

  // ---- any order of additions ------------------------------------------------------------------

  datatype PlanArrival = PlanArrival(planId: string, emphasize: bool)

  ghost predicate EachPlanOnce(u: PlanUniverse, arrivals: seq<PlanArrival>) {
    && (forall i :: 0 <= i < |arrivals| ==> arrivals[i].planId in u)
    && (forall i, j :: 0 <= i < j < |arrivals| ==> arrivals[i].planId != arrivals[j].planId)
  }

  ghost function BuildPlans(u: PlanUniverse, arrivals: seq<PlanArrival>): Plans
    requires EachPlanOnce(u, arrivals)
  {
    if arrivals == [] then NoPlans()
    else
      var last := arrivals[|arrivals| - 1];
      AddPlan(BuildPlans(u, arrivals[..|arrivals| - 1]), u[last.planId], last.emphasize)
  }

  ghost function ArrivedIds(arrivals: seq<PlanArrival>): set<string> {
    set a | a in arrivals :: a.planId
  }

  ghost predicate FromUniverse(u: PlanUniverse, nodes: PlanNodes) {
    && PlanNodesFrom(u, nodes)
    && nodes.Valid()
  }

  lemma NothingBuilt(u: PlanUniverse)
    ensures FromUniverse(u, NoPlans().planNodes) && NoPlans().Ids() == ArrivedIds([])
  {
  }

  /** One more arrival of a plan that has not arrived yet. */
  lemma ArriveOnce(u: PlanUniverse, arrivals: seq<PlanArrival>, last: PlanArrival)
    requires EachPlanOnce(u, arrivals)
    ensures ArrivedIds(arrivals + [last]) == ArrivedIds(arrivals) + {last.planId}
    ensures last.planId in u && last.planId !in ArrivedIds(arrivals) ==> EachPlanOnce(u, arrivals + [last])
    ensures EachPlanOnce(u, arrivals + [last]) ==> last.planId in u && last.planId !in ArrivedIds(arrivals)
  {
    var longer := arrivals + [last];
    assert forall i :: 0 <= i < |arrivals| ==> longer[i] == arrivals[i] && arrivals[i] in arrivals;
    assert longer[|arrivals|] == last;
    if last.planId in ArrivedIds(arrivals) {
      var i :| 0 <= i < |arrivals| && arrivals[i].planId == last.planId;
      assert longer[i].planId == longer[|arrivals|].planId;
    }
  }

  lemma {:induction false} BuildPlansNodes(u: PlanUniverse, arrivals: seq<PlanArrival>)
    requires WellFormed(u) && EachPlanOnce(u, arrivals)
    ensures FromUniverse(u, BuildPlans(u, arrivals).planNodes) && BuildPlans(u, arrivals).Ids() == ArrivedIds(arrivals)
  {
    if arrivals == [] {
      NothingBuilt(u);
    } else {
      hide AddPlan, PlanNodesFrom, WellFormed, ArrivedIds;
      var init, last := arrivals[..|arrivals| - 1], arrivals[|arrivals| - 1];
      assert arrivals == init + [last];
      BuildPlansNodes(u, init);
      ArriveOnce(u, init, last);
      AddPlanNodes(u, BuildPlans(u, init), last.planId, last.emphasize);
    }
  }

  lemma BuildPlansStep(u: PlanUniverse, init: seq<PlanArrival>, last: PlanArrival)
    requires MirroredPlans(u) && EachPlanOnce(u, init) && last.planId in u && last.planId !in ArrivedIds(init)
    requires PlanInv(u, BuildPlans(u, init))
    ensures PlanInv(u, AddPlan(BuildPlans(u, init), u[last.planId], last.emphasize))
  {
    BuildPlansNodes(u, init);
    AddPlanInv(u, BuildPlans(u, init), last.planId, last.emphasize);
  }

  /** Main result on the plan graph: after any additions of distinct plans, in any order, each
      declared link between two different present plans is drawn exactly as often as declared, each
      with one present end waits in exactly one table, and nothing else is drawn. */
  lemma {:induction false} BuildPlansInv(u: PlanUniverse, arrivals: seq<PlanArrival>)
    requires MirroredPlans(u) && EachPlanOnce(u, arrivals)
    ensures PlanInv(u, BuildPlans(u, arrivals))
  {
    if arrivals == [] {
      NoPlansInv(u);
    } else {
      var init, last := arrivals[..|arrivals| - 1], arrivals[|arrivals| - 1];
      assert arrivals == init + [last];
      BuildPlansInv(u, init);
      ArriveOnce(u, init, last);
      BuildPlansStep(u, init, last);
      var g := AddPlan(BuildPlans(u, init), u[last.planId], last.emphasize);
      assert BuildPlans(u, arrivals) == g;
    }
  }

  /** A plan graph that has come about by adding distinct plans of the universe. */
  ghost predicate PlansBuilt(u: PlanUniverse, g: Plans) {
    exists arrivals: seq<PlanArrival> :: EachPlanOnce(u, arrivals) && g == BuildPlans(u, arrivals)
  }

  lemma NoPlansBuilt(u: PlanUniverse)
    ensures PlansBuilt(u, NoPlans())
  {
    assert EachPlanOnce(u, []) && NoPlans() == BuildPlans(u, []);
  }

  lemma PlansBuiltAdd(u: PlanUniverse, g: Plans, x: string, emphasize: bool)
    requires WellFormed(u) && PlansBuilt(u, g) && x in u && !g.Has(x)
    ensures PlansBuilt(u, AddPlan(g, u[x], emphasize))
  {
    hide PlanNodesFrom;
    var arrivals: seq<PlanArrival> :| EachPlanOnce(u, arrivals) && g == BuildPlans(u, arrivals);
    BuildPlansNodes(u, arrivals);
    hide AddPlan, EachPlanOnce, ArrivedIds, FromUniverse, WellFormed;
    var longer := arrivals + [PlanArrival(x, emphasize)];
    ArriveOnce(u, arrivals, PlanArrival(x, emphasize));
    assert longer[..|longer| - 1] == arrivals;
    assert AddPlan(g, u[x], emphasize) == BuildPlans(u, longer);
  }

  lemma PlansBuiltInv(u: PlanUniverse, g: Plans)
    requires MirroredPlans(u) && PlansBuilt(u, g)
    ensures PlanInv(u, g)
  {
    var arrivals: seq<PlanArrival> :| EachPlanOnce(u, arrivals) && g == BuildPlans(u, arrivals);
    BuildPlansInv(u, arrivals);
  }
}
