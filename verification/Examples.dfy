/** Small instances that meet the premises of the main results, so that none of these holds for want of
    an instance. */
module Examples {
  import opened Results
  import opened Sets
  import opened KnitGraph
  import L = Lineage
  import T = LineageTask
  import opened PlanGraph
  import opened PlanEdges
  import P = PlanTrace
  import G = GarbageProtocol
  import S = PlanSpecs
  import H = PlanHash
  import opened TagStore
  import opened TagSets
  import opened Paths
  import opened PlanParams

  // ---- lineage: one run makes a data, a second run takes it --------------------------------------

  const MADE := DataDetail("d0", CreatedFrom("r0", Some("/out"), false), [AssignedTo("r1", "/in")])
  const MAKER := RunDetail("r0", [], [Assignment("d0", "/out")], None)
  const TAKER := RunDetail("r1", [Assignment("d0", "/in")], [], None)
  const SMALL := Universe(map["d0" := MADE], map["r0" := MAKER, "r1" := TAKER])

  const MAKES := Edge(RunNodeId("r0"), DataNodeId("d0"), "/out")
  const TAKES := Edge(DataNodeId("d0"), RunNodeId("r1"), "/in")

  lemma SmallLinks()
    ensures DataLinks(MADE) == [MAKES, TAKES]
    ensures RunLinks(MAKER) == [MAKES] && RunLinks(TAKER) == [TAKES]
  {
    assert UpLinks("d0", MADE.upstream) == [MAKES];
    assert DownLinks("d0", MADE.downstreams) == [TAKES];
    assert InputLinks("r0", []) == [] && OutputLinks("r0", MAKER.outputs) == [MAKES];
    assert InputLinks("r1", TAKER.inputs) == [TAKES] && OutputLinks("r1", []) == [];
  }

  lemma SmallIsMirrored()
    ensures Mirrored(SMALL)
  {
    SmallLinks();
    hide DataLinks, RunLinks;
    assert "r0" != "r1" by {
      assert "r0"[1] != "r1"[1];
    }
    forall e | IsLink(e)
      ensures MirroredAt(SMALL, e)
    {
      assert multiset([MAKES, TAKES])[e] == (if e == MAKES then 1 else 0) + (if e == TAKES then 1 else 0);
      assert multiset([MAKES])[e] == if e == MAKES then 1 else 0;
      assert multiset([TAKES])[e] == if e == TAKES then 1 else 0;
    }
  }

  lemma SmallReferences()
    ensures L.NextRuns(L.Upstream, MADE) == {"r0"} && L.NextRuns(L.Downstream, MADE) == {"r1"}
    ensures L.Touch(MAKER) == {"d0"} && L.Touch(TAKER) == {"d0"}
    ensures L.NextData(L.Downstream, TAKER) == {} && L.KnitIds(MAKER.inputs) == {} && L.KnitIds(TAKER.inputs) == {"d0"}
    ensures L.NextData(L.Downstream, MAKER) == {"d0"}
  {
    assert Assignment("d0", "/out") in MAKER.outputs && Assignment("d0", "/in") in TAKER.inputs;
  }

  lemma SmallIsAcyclic()
    ensures L.Closed(SMALL) && T.Sourced(SMALL) && T.Acyclic(SMALL)
  {
    SmallReferences();
    hide L.NextRuns, L.NextData, L.Touch;
    assert "r0"[1] != "r1"[1];
    assert T.Ranked(SMALL, map["d0" := 0]);
  }

  /** The premises of the result on the lineage command are met. */
  lemma SmallLineage()
    ensures Mirrored(SMALL) && L.Closed(SMALL) && T.Sourced(SMALL) && T.Acyclic(SMALL) && "d0" in SMALL.data
  {
    hide Mirrored, L.Closed, T.Sourced, T.Acyclic;
    SmallIsMirrored();
    SmallIsAcyclic();
  }

  // ---- plans: the output of one feeds the input of another ---------------------------------------

  const SOURCE := PlanDetail("p0", [], [PlanOutput("/out", [PlanDownstream("p1", "/in")])], None)
  const SINK := PlanDetail("p1", [PlanInput("/in", [PlanUpstream("p0", Some("/out"), false)])], [], None)
  const PLANS: PlanUniverse := map["p0" := SOURCE, "p1" := SINK]

  const FEEDS := Edge(MountNodeId("p0", "/out"), MountNodeId("p1", "/in"), "")

  lemma PlanLinks()
    ensures UpLinksOf(SOURCE) == [] && UpLinksOf(SINK) == [FEEDS]
    ensures DownLinksOf(SOURCE) == [FEEDS] && DownLinksOf(SINK) == []
  {
    var sink, source := MountNodeId("p1", "/in"), MountNodeId("p0", "/out");
    var up, down := Want(OutSlot("p0", "/out"), ToParked(sink, "")), Want(InSlot("p1", "/in"), FromParked(source, ""));
    assert SINK.inputs[..0] == [] && SOURCE.outputs[..0] == [] && SINK.inputs[0].upstreams[..0] == [];
    assert UpWantsOf(sink, SINK.inputs[0].upstreams) == [up];
    assert UpWants("p1", SINK.inputs) == [up];
    assert DownWantsOf(source, SOURCE.outputs[0].downstreams) == [down];
    assert OutWants("p0", SOURCE.outputs) == [down];
    assert DrawnAll([up]) == [FEEDS] && DrawnAll([down]) == [FEEDS] && DrawnAll([]) == [];
    assert OutWants("p0", SOURCE.outputs) + LogWants("p0", None) == [down];
    assert OutWants("p1", []) + LogWants("p1", None) == [];
  }

  lemma PlansAreMirrored()
    ensures MirroredPlans(PLANS)
  {
    PlanLinks();
    hide UpLinksOf, DownLinksOf;
    assert "p0" != "p1" by {
      assert "p0"[1] != "p1"[1];
    }
    forall e | IsPlanLink(e)
      ensures MirroredPlanAt(PLANS, e)
    {
      assert multiset([FEEDS])[e] == if e == FEEDS then 1 else 0;
    }
  }

  lemma SmallNext()
    ensures P.Next(P.Up, SINK) == ["p0"] && P.Next(P.Up, SOURCE) == []
    ensures P.Next(P.Down, SOURCE) == ["p1"] && P.Next(P.Down, SINK) == []
  {
    assert P.UpstreamIds(SINK.inputs[0].upstreams) == ["p0"] && P.UpIds(SINK.inputs[1..]) == [];
    assert P.DownstreamIds(SOURCE.outputs[0].downstreams) == ["p1"] && P.DownIds(SOURCE.outputs[1..]) == [];
  }

  lemma SmallPlansAcyclic()
    ensures P.PlansClosed(PLANS) && P.AcyclicPlans(PLANS)
  {
    SmallNext();
    hide P.Next;
    assert "p0"[1] != "p1"[1];
    forall p, way | p in PLANS
      ensures Elems(P.Next(way, PLANS[p])) <= PLANS.Keys
    {
      assert way == P.Up || way == P.Down;
    }
    assert P.Ranked(PLANS, map["p0" := 0, "p1" := 1]);
  }

  /** The premises of the result on the plan graph command are met. */
  lemma SmallPlans()
    ensures MirroredPlans(PLANS) && P.PlansClosed(PLANS) && P.AcyclicPlans(PLANS) && PLANS["p0"] == SOURCE
  {
    hide MirroredPlans, P.PlansClosed, P.AcyclicPlans;
    PlansAreMirrored();
    SmallPlansAcyclic();
    assert "p0"[1] != "p1"[1];
  }

  // ---- garbage: one record from its selection to its removal -------------------------------------

  const RECORD := G.Garbage("d0", "pvc")
  const START := G.State(map["d0" := "pvc"], {"d0"}, {"pvc"}, {}, map[])
  const POPPED := START.(workers := map[0 := G.Popped(RECORD)])
  const POLLING := START.(terminating := {"pvc"}, workers := map[0 := G.Polling(RECORD)])
  const FINALIZED := START.(pvcs := {}, workers := map[0 := G.Polling(RECORD)])
  const DESTROYED := START.(pvcs := {}, workers := map[0 := G.Destroyed(RECORD)])
  const REMOVED := G.State(map[], {}, {}, {}, map[0 := G.Idle])

  lemma FirstSteps()
    ensures G.Init(START)
    ensures G.Enabled(START, G.Begin(0, "d0")) && G.Do(START, G.Begin(0, "d0")) == POPPED
    ensures G.Enabled(POPPED, G.DeleteAccepted(0)) && G.Do(POPPED, G.DeleteAccepted(0)) == POLLING
  {
  }

  lemma LastSteps()
    ensures G.Enabled(POLLING, G.Finalize("pvc")) && G.Do(POLLING, G.Finalize("pvc")) == FINALIZED
    ensures G.Enabled(FINALIZED, G.PollNotFound(0)) && G.Do(FINALIZED, G.PollNotFound(0)) == DESTROYED
    ensures G.Enabled(DESTROYED, G.Commit(0)) && G.Do(DESTROYED, G.Commit(0)) == REMOVED
  {
  }

  /** A run in which a worker removes the one record there is, after its volume. */
  lemma SmallCollection() returns (ss: seq<G.State>, steps: seq<G.Step>)
    ensures G.IsRun(ss, steps)
    ensures ss[0].garbage == map["d0" := "pvc"] && ss[0].pvcs == {"pvc"}
    ensures ss[|steps|].garbage == map[] && ss[|steps|].pvcs == {}
  {
    FirstSteps();
    LastSteps();
    hide G.Do, G.Enabled, G.Init;
    ss := [START, POPPED, POLLING, FINALIZED, DESTROYED, REMOVED];
    steps := [G.Begin(0, "d0"), G.DeleteAccepted(0), G.Finalize("pvc"), G.PollNotFound(0), G.Commit(0)];
  }

  // ---- plan specs: the same spec with and without a trailing slash -------------------------------

  const LENIENT := S.Env((key: string) => true, (value: string) => true, (path: string) => path,
    Clock((text: string) => None, (nanos: int) => ""))

  function SpecAt(path: string): Params {
    Params("image", "v1", [], [MountPoint(path, [Tag("project", "x")])], [], None, [], [])
  }

  lemma SpecAtIsAcceptable(path: string)
    requires path != "" && Trimmed(path) == "/in"
    ensures S.Acceptable(LENIENT, SpecAt(path))
  {
    var tags := [Tag("project", "x")];
    var inputs := SpecAt(path).inputs;
    ShortIsNormal(LENIENT.clock, tags);
    assert !IsSystemTag(tags[0]) by {
      assert "project"[0] != SYSTEM_TAG_PREFIX[0];
    }
    assert tags[..0] == [];
    assert SystemTags(tags) == [];
    assert IsAbs("/in") by {
      assert "/in"[..1] == "/";
    }
    assert inputs + [] == inputs;
    assert S.InputOk(LENIENT, S.Trim(inputs[0]));
    assert forall mp :: mp in multiset(inputs) ==> mp == inputs[0] && multiset(inputs)[mp] == 1;
  }

  lemma SameSpecAt(a: string, b: string)
    requires Trimmed(a) == Trimmed(b)
    ensures H.SameSpec(LENIENT.clock, SpecAt(a), SpecAt(b))
  {
    hide Trimmed;
    var p, q := SpecAt(a).inputs[0], SpecAt(b).inputs[0];
    SameClassLaws(LENIENT.clock, p.tags[0], p.tags[0], p.tags[0]);
    assert H.SameTags(LENIENT.clock, p.tags, q.tags);
    assert H.SameMount(LENIENT.clock, p, q);
  }

  lemma OneTrailingSlash()
    ensures Trimmed("/in/") == "/in" && Trimmed("/in") == "/in"
  {
    assert "/in/"[3..] == "/" && "/in/"[..3] == "/in";
    assert "/in"[2..] == "n";
  }

  /** The premises of the result on hashing are met by specs that are not equal. */
  lemma SmallSpecs()
    ensures S.Acceptable(LENIENT, SpecAt("/in")) && S.Acceptable(LENIENT, SpecAt("/in/"))
    ensures H.SameSpec(LENIENT.clock, SpecAt("/in"), SpecAt("/in/")) && SpecAt("/in").inputs[0].path != SpecAt("/in/").inputs[0].path
    ensures H.PrintsMicroseconds(LENIENT.clock)
  {
    OneTrailingSlash();
    hide S.Acceptable, Trimmed, H.SameSpec;
    SpecAtIsAcceptable("/in");
    SpecAtIsAcceptable("/in/");
    SameSpecAt("/in", "/in/");
    assert |"/in"| != |"/in/"|;
  }
}
