/** From an accepted spec to the tables: what validation promises is what registration needs. */
module AcceptedPlans {
  import opened Results
  import opened Sets
  import opened TagStore
  import opened TagSets
  import opened Nomination
  import opened PlanParams
  import opened PlanSpecs
  import opened Ledgers
  import opened Mountpoints
  import opened Registration

  function Slices(clock: Clock, mps: seq<MountPoint>): (r: seq<seq<Tag>>)
    ensures |r| == |mps| && forall j :: 0 <= j < |r| ==> r[j] == Normal(clock, mps[j].tags)
  {
    seq(|mps|, j requires 0 <= j < |mps| => Normal(clock, mps[j].tags))
  }

  /** The rows that `registerPlan` inserts for a spec. */
  function RowsOf(clock: Clock, p: Params): PlanRows {
    PlanRows(Slices(clock, p.inputs), Slices(clock, p.outputs) + if p.log.Some? then [Normal(clock, p.log.value)] else [])
  }

  /** `NewTag` makes no other tags. */
  predicate TimesParse(clock: Clock, ts: seq<Tag>) {
    forall t :: t in ts && t.key == KEY_KNIT_TIMESTAMP ==> clock.parse(t.value).Some?
  }

  lemma AcceptedInputRegistrable(env: PlanSpecs.Env, p: Params, input: MountPoint)
    requires Acceptable(env, p) && input in p.inputs
    ensures Registrable(env.clock, Normal(env.clock, input.tags)) <==> TimesParse(env.clock, Normal(env.clock, input.tags))
  {
    ReservedKeys();
    var tags := Normal(env.clock, input.tags);
    AcceptedInputTags(env, p, input);
    NormalIsNormalForm(env.clock, input.tags);
    hide Acceptable, Normal;
    forall i, j | 0 <= i < j < |tags| && tags[i].key == tags[j].key
      ensures !IsSystemTag(tags[i])
    {
      TagLessLaws(tags[i], tags[j], tags[i]);
      assert tags[i] in tags && tags[j] in tags;
    }
    forall t | t in tags && (t.key == KEY_KNIT_TIMESTAMP ==> env.clock.parse(t.value).Some?)
      ensures BodyTagOf(env.clock, t).Some?
    {
    }
    forall t | t in tags && t.key == KEY_KNIT_TIMESTAMP && BodyTagOf(env.clock, t).Some?
      ensures env.clock.parse(t.value).Some?
    {
    }
  }

  lemma AcceptedOutputsAreClean(env: PlanSpecs.Env, p: Params, j: nat)
    requires Acceptable(env, p) && j < |RowsOf(env.clock, p).outputs|
    ensures Clean(RowsOf(env.clock, p).outputs[j])
  {
    hide PathOk, Normal, Apart;
    var ts := RowsOf(env.clock, p).outputs[j];
    SystemTagsMean(ts);
    if j < |p.outputs| {
      assert p.outputs[j] in p.outputs;
      assert OutputOk(env, Trim(p.outputs[j]));
    }
  }

  /** Main result: of an accepted spec, the tables refuse nothing but a knit#timestamp that cannot be
      parsed. */
  lemma AcceptedIsRegistrable(env: PlanSpecs.Env, p: Params)
    requires Acceptable(env, p)
    ensures RowsOk(env.clock, RowsOf(env.clock, p)) <==>
      forall input :: input in p.inputs ==> TimesParse(env.clock, Normal(env.clock, input.tags))
  {
    hide Acceptable, Normal, Registrable, TimesParse, Clean;
    var rows := RowsOf(env.clock, p);
    forall j | 0 <= j < |rows.outputs|
      ensures Clean(rows.outputs[j])
    {
      AcceptedOutputsAreClean(env, p, j);
    }
    forall j | 0 <= j < |p.inputs|
      ensures Registrable(env.clock, rows.inputs[j]) <==> TimesParse(env.clock, Normal(env.clock, p.inputs[j].tags))
    {
      AcceptedInputRegistrable(env, p, p.inputs[j]);
    }
    forall input | input in p.inputs
      ensures exists j :: 0 <= j < |p.inputs| && p.inputs[j] == input
    {
    }
  }

  /** The input requires exactly what the tags say. */
  ghost predicate Demands(d: Tables, id: int, clock: Clock, ts: seq<Tag>) {
    && SchemaOk(d) && id in d.input
    && forall x :: x in RequiredTags(d, id) <==> exists t :: t in ts && BodyTagOf(clock, t) == Some(x)
  }

  /** Outputs of a registered spec, and its log, have exactly the tags of their normal forms, in the order of the
      serials. */
  lemma OutputsOfSpec(env: PlanSpecs.Env, p: Params, db: Db, db': Db, planId: string, active: bool, j: nat)
    requires PlanRegistered(db, db', planId, active, env.clock, RowsOf(env.clock, p))
    requires j < |p.outputs| || (j == |p.outputs| && p.log.Some?)
    ensures Interned(db'.tables.tags)
    ensures OutputTags(db'.tables.tags, db.ledger.outputSerial + j)
      == Elems(Normal(env.clock, if j < |p.outputs| then p.outputs[j].tags else p.log.value))
  {
    hide SchemaOk, Accrued, InputsThrough, Normal, OutputTags;
    LinkedAreKnown(db'.tables);
    var rows := RowsOf(env.clock, p);
    assert OutputAt(WithPlan(db, planId, active), db', planId, rows.outputs[j], j);
  }

  /** An input of a registered spec requires exactly what the normal form of its tags says. */
  lemma RequiredOfSpec(env: PlanSpecs.Env, p: Params, db: Db, db': Db, planId: string, active: bool, j: nat)
    requires PlanRegistered(db, db', planId, active, env.clock, RowsOf(env.clock, p)) && j < |p.inputs|
    ensures Demands(db'.tables, db.ledger.inputSerial + j, env.clock, Normal(env.clock, p.inputs[j].tags))
  {
    hide SchemaOk, Accrued, OutputsThrough, Normal, BodyTagOf, RequiredTags;
    assert InputAt(WithPlan(db, planId, active), db', planId, env.clock, RowsOf(env.clock, p).inputs[j], j);
  }
}
