/** The plan half of the directed graph of cmd/knit/knitgraph/graph.go.

    A plan brings several slots at once: its inputs, its outputs and its log. The three thunk tables
    `thunkInput`, `thunkOutput` and `thunkPlanLog` are one table here, keyed by a tagged slot. */
module PlanGraph {
  import opened Results
  import opened OrderedMaps
  import opened KnitGraph

  datatype PlanUpstream = PlanUpstream(planId: string, mountpoint: Option<string>, log: bool)

  datatype PlanInput = PlanInput(path: string, upstreams: seq<PlanUpstream>)

  datatype PlanDownstream = PlanDownstream(planId: string, path: string)

  datatype PlanOutput = PlanOutput(path: string, downstreams: seq<PlanDownstream>)

  datatype PlanDetail = PlanDetail(planId: string, inputs: seq<PlanInput>, outputs: seq<PlanOutput>, log: Option<seq<PlanDownstream>>)

  datatype PlanNode = PlanNode(
    detail: PlanDetail,
    inputs: Ordered<string, PlanInput>,
    outputs: Ordered<string, PlanOutput>,
    emphasize: bool)

  datatype Slot = InSlot(planId: string, path: string) | OutSlot(planId: string, path: string) | LogSlot(planId: string) {
    function Node(): NodeId {
      match this
      case InSlot(p, path) => MountNodeId(p, path)
      case OutSlot(p, path) => MountNodeId(p, path)
      case LogSlot(p) => PlanLogNodeId(p)
    }
  }

  type SlotTable = map<Slot, seq<Thunk>>

  /** An edge that a plan asks for: the slot at the other end, and the thunk to park there. */
  datatype Want = Want(slot: Slot, thunk: Thunk) {
    function Drawn(): Edge {
      thunk.Fire(slot.Node())
    }
  }

  type PlanNodes = Ordered<string, PlanNode>

  predicate HasSlot(nodes: PlanNodes, s: Slot) {
    nodes.Has(s.planId) &&
    var node := nodes.entries[s.planId];
    match s
    case InSlot(_, path) => node.inputs.Has(path)
    case OutSlot(_, path) => node.outputs.Has(path)
    case LogSlot(_) => node.detail.log.Some?
  }

  datatype Plans = Plans(planNodes: PlanNodes, edges: seq<Edge>, thunks: SlotTable) {
    predicate Has(planId: string) {
      planNodes.Has(planId)
    }

    ghost function Ids(): set<string> {
      planNodes.entries.Keys
    }
  }

  // ---- building a node -------------------------------------------------------------------------

  function SetInputs(ins: seq<PlanInput>): (o: Ordered<string, PlanInput>)
    ensures o.Valid()
  {
    if ins == [] then Empty() else SetInputs(ins[..|ins| - 1]).Set(ins[|ins| - 1].path, ins[|ins| - 1])
  }

  function SetOutputs(outs: seq<PlanOutput>): (o: Ordered<string, PlanOutput>)
    ensures o.Valid()
  {
    if outs == [] then Empty() else SetOutputs(outs[..|outs| - 1]).Set(outs[|outs| - 1].path, outs[|outs| - 1])
  }

  function MakeNode(p: PlanDetail, emphasize: bool): (n: PlanNode)
    ensures n.inputs.Valid() && n.outputs.Valid()
  {
    PlanNode(p, SetInputs(p.inputs), SetOutputs(p.outputs), emphasize)
  }

  function InSlots(id: string, paths: seq<string>): seq<Slot> {
    seq(|paths|, i requires 0 <= i < |paths| => InSlot(id, paths[i]))
  }

  function OutSlots(id: string, paths: seq<string>): seq<Slot> {
    seq(|paths|, i requires 0 <= i < |paths| => OutSlot(id, paths[i]))
  }

  /** The slots of a node, in the order in which waiting thunks are invoked. */
  function Slots(n: PlanNode): seq<Slot> {
    InSlots(n.detail.planId, n.inputs.keys) + OutSlots(n.detail.planId, n.outputs.keys)
    + if n.detail.log.Some? then [LogSlot(n.detail.planId)] else []
  }

  lemma SlotsDistinct(n: PlanNode)
    requires n.inputs.Valid() && n.outputs.Valid()
    ensures forall i, j :: 0 <= i < j < |Slots(n)| ==> Slots(n)[i] != Slots(n)[j]
  {
  }

  // ---- what a plan asks for --------------------------------------------------------------------

  function UpWant(node: NodeId, ups: PlanUpstream): seq<Want> {
    if ups.log then [Want(LogSlot(ups.planId), ToParked(node, ""))]
    else if ups.mountpoint.Some? then [Want(OutSlot(ups.planId, ups.mountpoint.value), ToParked(node, ""))]
    else []
  }

  function UpWantsOf(node: NodeId, upss: seq<PlanUpstream>): seq<Want> {
    if upss == [] then [] else UpWantsOf(node, upss[..|upss| - 1]) + UpWant(node, upss[|upss| - 1])
  }

  function UpWants(id: string, ins: seq<PlanInput>): seq<Want> {
    if ins == [] then []
    else UpWants(id, ins[..|ins| - 1]) + UpWantsOf(MountNodeId(id, ins[|ins| - 1].path), ins[|ins| - 1].upstreams)
  }

  function DownWantsOf(node: NodeId, ds: seq<PlanDownstream>): seq<Want> {
    seq(|ds|, i requires 0 <= i < |ds| => Want(InSlot(ds[i].planId, ds[i].path), FromParked(node, "")))
  }

  function OutWants(id: string, outs: seq<PlanOutput>): seq<Want> {
    if outs == [] then []
    else OutWants(id, outs[..|outs| - 1]) + DownWantsOf(MountNodeId(id, outs[|outs| - 1].path), outs[|outs| - 1].downstreams)
  }

  function LogWants(id: string, log: Option<seq<PlanDownstream>>): seq<Want> {
    if log.None? then [] else DownWantsOf(PlanLogNodeId(id), log.value)
  }

  /** A want is dropped when the other end is already there. For a want of a log, the presence of
      the other plan is enough. */
  predicate Dropped(nodes: PlanNodes, w: Want) {
    if w.thunk.parked.PlanLogNodeId? then nodes.Has(w.slot.planId) else HasSlot(nodes, w.slot)
  }

  /** Parks every want that is not dropped. */
  function Register(table: SlotTable, nodes: PlanNodes, wants: seq<Want>): SlotTable {
    if wants == [] then table
    else
      var rest := Register(table, nodes, wants[..|wants| - 1]);
      var w := wants[|wants| - 1];
      if Dropped(nodes, w) then rest else Park(rest, w.slot, w.thunk)
  }

  function FireSlots(table: SlotTable, slots: seq<Slot>): seq<Edge> {
    if slots == [] then []
    else FireSlots(table, slots[..|slots| - 1]) + FireAll(Parked(table, slots[|slots| - 1]), slots[|slots| - 1].Node())
  }

  function SlotSet(slots: seq<Slot>): set<Slot> {
    set s | s in slots
  }

  function AddPlan(g: Plans, p: PlanDetail, emphasize: bool): Plans {
    var node := MakeNode(p, emphasize);
    var nodes := g.planNodes.Set(p.planId, node);
    var up := Register(g.thunks - SlotSet(Slots(node)), nodes, UpWants(p.planId, node.inputs.Values()));
    var out := Register(up, nodes, OutWants(p.planId, node.outputs.Values()));
    Plans(nodes, g.edges + FireSlots(g.thunks, Slots(node)), Register(out, nodes, LogWants(p.planId, p.log)))
  }

  function NoPlans(): Plans {
    Plans(Empty(), [], map[])
  }

  lemma {:induction false} RegisterAppend(table: SlotTable, nodes: PlanNodes, a: seq<Want>, b: seq<Want>)
    ensures Register(table, nodes, a + b) == Register(Register(table, nodes, a), nodes, b)
  {
    if b == [] {
      assert a + b == a;
    } else {
      assert (a + b)[..|a + b| - 1] == a + b[..|b| - 1];
      RegisterAppend(table, nodes, a, b[..|b| - 1]);
    }
  }

  // ---- the object ------------------------------------------------------------------------------

  class PlanDirectedGraph {
    var planNodes: PlanNodes
    var edges: seq<Edge>
    var thunks: SlotTable

    ghost function View(): Plans
      reads this
    {
      Plans(planNodes, edges, thunks)
    }

    constructor ()
      ensures View() == NoPlans()
    {
      planNodes, edges, thunks := Empty(), [], map[];
    }

    method AddPlanNode(plan: PlanDetail, emphasize: bool) returns (id: string)
      modifies this
      ensures View() == AddPlan(old(View()), plan, emphasize)
      ensures id == plan.planId
    {
      hide Register, FireSlots, Slots, UpWants, OutWants, LogWants, SlotSet;
      id := plan.planId;
      var ins := BuildInputs(plan.inputs);
      var outs := BuildOutputs(plan.outputs);
      var node := PlanNode(plan, ins, outs, emphasize);
      planNodes := planNodes.Set(plan.planId, node);
      SlotsDistinct(node);
      InvokeSlots(Slots(node));
      RegisterInputs(plan.planId, ins.Values());
      RegisterOutputs(plan.planId, outs.Values());
      RegisterWants(LogWants(plan.planId, plan.log));
    }

    /** Invokes and forgets the thunks of every slot, one slot after the other. */
    method InvokeSlots(slots: seq<Slot>)
      requires forall i, j :: 0 <= i < j < |slots| ==> slots[i] != slots[j]
      modifies this`edges, this`thunks
      ensures edges == old(edges) + FireSlots(old(thunks), slots)
      ensures thunks == old(thunks) - SlotSet(slots)
    {
      for i := 0 to |slots|
        invariant edges == old(edges) + FireSlots(old(thunks), slots[..i])
        invariant thunks == old(thunks) - SlotSet(slots[..i])
      {
        assert slots[..i + 1][..i] == slots[..i];
        assert slots[i] !in slots[..i];
        assert SlotSet(slots[..i + 1]) == SlotSet(slots[..i]) + {slots[i]};
        var waiting := Parked(thunks, slots[i]);
        assert waiting == Parked(old(thunks), slots[i]);
        InvokeThunks(waiting, slots[i].Node());
        thunks := thunks - {slots[i]};
      }
      assert slots[..|slots|] == slots;
    }

    method InvokeThunks(waiting: seq<Thunk>, arrived: NodeId)
      modifies this`edges
      ensures edges == old(edges) + FireAll(waiting, arrived)
    {
      for i := 0 to |waiting|
        invariant edges == old(edges) + FireAll(waiting[..i], arrived)
      {
        FireAllAppend(waiting[..i], waiting[i], arrived);
        assert waiting[..i + 1] == waiting[..i] + [waiting[i]];
        edges := edges + [waiting[i].Fire(arrived)];
      }
      assert waiting[..|waiting|] == waiting;
    }

    method RegisterInputs(id: string, ins: seq<PlanInput>)
      modifies this`thunks
      ensures thunks == Register(old(thunks), planNodes, UpWants(id, ins))
    {
      for i := 0 to |ins|
        invariant thunks == Register(old(thunks), planNodes, UpWants(id, ins[..i]))
      {
        assert ins[..i + 1][..i] == ins[..i];
        var node := MountNodeId(id, ins[i].path);
        RegisterAppend(old(thunks), planNodes, UpWants(id, ins[..i]), UpWantsOf(node, ins[i].upstreams));
        RegisterUpstreams(node, ins[i].upstreams);
      }
      assert ins[..|ins|] == ins;
    }

    method RegisterUpstreams(node: NodeId, upss: seq<PlanUpstream>)
      modifies this`thunks
      ensures thunks == Register(old(thunks), planNodes, UpWantsOf(node, upss))
    {
      for i := 0 to |upss|
        invariant thunks == Register(old(thunks), planNodes, UpWantsOf(node, upss[..i]))
      {
        assert upss[..i + 1][..i] == upss[..i];
        RegisterAppend(old(thunks), planNodes, UpWantsOf(node, upss[..i]), UpWant(node, upss[i]));
        RegisterWants(UpWant(node, upss[i]));
      }
      assert upss[..|upss|] == upss;
    }

    method RegisterOutputs(id: string, outs: seq<PlanOutput>)
      modifies this`thunks
      ensures thunks == Register(old(thunks), planNodes, OutWants(id, outs))
    {
      for i := 0 to |outs|
        invariant thunks == Register(old(thunks), planNodes, OutWants(id, outs[..i]))
      {
        assert outs[..i + 1][..i] == outs[..i];
        var wants := DownWantsOf(MountNodeId(id, outs[i].path), outs[i].downstreams);
        RegisterAppend(old(thunks), planNodes, OutWants(id, outs[..i]), wants);
        RegisterWants(wants);
      }
      assert outs[..|outs|] == outs;
    }

    method RegisterWants(wants: seq<Want>)
      modifies this`thunks
      ensures thunks == Register(old(thunks), planNodes, wants)
    {
      for i := 0 to |wants|
        invariant thunks == Register(old(thunks), planNodes, wants[..i])
      {
        assert wants[..i + 1][..i] == wants[..i];
        var w := wants[i];
        if w.thunk.parked.PlanLogNodeId? {
          if planNodes.Has(w.slot.planId) {
            continue;
          }
        } else if planNodes.Has(w.slot.planId) {
          var other := planNodes.entries[w.slot.planId];
          var present := match w.slot
            case InSlot(_, path) => other.inputs.Has(path)
            case OutSlot(_, path) => other.outputs.Has(path)
            case LogSlot(_) => other.detail.log.Some?;
          if present {
            continue;
          }
        }
        thunks := thunks[w.slot := Parked(thunks, w.slot) + [w.thunk]];
      }
      assert wants[..|wants|] == wants;
    }

    method BuildInputs(ins: seq<PlanInput>) returns (o: Ordered<string, PlanInput>)
      ensures o == SetInputs(ins)
    {
      o := Empty();
      for i := 0 to |ins|
        invariant o == SetInputs(ins[..i])
      {
        assert ins[..i + 1][..i] == ins[..i];
        o := o.Set(ins[i].path, ins[i]);
      }
      assert ins[..|ins|] == ins;
    }

    method BuildOutputs(outs: seq<PlanOutput>) returns (o: Ordered<string, PlanOutput>)
      ensures o == SetOutputs(outs)
    {
      o := Empty();
      for i := 0 to |outs|
        invariant o == SetOutputs(outs[..i])
      {
        assert outs[..i + 1][..i] == outs[..i];
        o := o.Set(outs[i].path, outs[i]);
      }
      assert outs[..|outs|] == outs;
    }
  }
}
