/** What stays in order besides the nomination: plans depend on each other without cycles, runs use data
    of runs before them, and no two runs of a plan have the same assignments. */
module Orders {
  import opened TagStore
  import TagSets
  import opened Nomination
  import opened PlanCycles
  import opened Ledgers
  import opened Runs
  import opened RunOutputs
  import opened RunChanges
  import opened Mountpoints
  import opened Registration

  // ---- lineage -----------------------------------------------------------------------------------

  /** The run of a data that another run uses ranks below it. */
  ghost predicate RunRank(db: Db, rank: string -> nat, bound: nat) {
    && (forall r :: rank(r) < bound)
    && (forall a :: a in db.ledger.assign && db.ledger.assign[a] in db.tables.data ==> rank(db.tables.data[db.ledger.assign[a]]) < rank(a.0))
  }

  ghost predicate LineageAcyclic(db: Db) {
    exists rank: string -> nat, bound: nat :: RunRank(db, rank, bound)
  }

  // ---- patterns ----------------------------------------------------------------------------------

  /** Runs have data for all inputs of their plans, and for no others. */
  ghost predicate Filled(x: Ledger) {
    forall r, i :: r in x.planOfRun ==> ((r, i) in x.assign <==> i in x.planOfInput && x.planOfInput[i] == x.planOfRun[r])
  }

  ghost predicate Apart(x: Ledger, r: string, s: string) {
    exists i :: (r, i) in x.assign && (s, i) in x.assign && x.assign[(r, i)] != x.assign[(s, i)]
  }

  ghost predicate HasInputs(x: Ledger, planId: string) {
    exists i :: i in x.planOfInput && x.planOfInput[i] == planId
  }

  ghost predicate SiblingRuns(x: Ledger, r: string, s: string) {
    r in x.planOfRun && s in x.planOfRun && r != s && x.planOfRun[r] == x.planOfRun[s]
  }

  /** No two runs of a plan with inputs have the same assignments. */
  ghost predicate OncePerPattern(x: Ledger) {
    && Filled(x)
    && forall r, s :: SiblingRuns(x, r, s) && HasInputs(x, x.planOfRun[r]) ==> Apart(x, r, s)
  }

  ghost predicate Orderly(db: Db) {
    Interned(db.tables.tags) && Acyclic(db, {}) && LineageAcyclic(db) && OncePerPattern(db.ledger)
  }

  lemma EmptyIsOrderly()
    ensures Orderly(Db(EMPTY_TABLES, EMPTY_LEDGER))
  {
    var db := Db(EMPTY_TABLES, EMPTY_LEDGER);
    assert RunRank(db, (r: string) => 0, 1);
    NoEdgesIsAcyclic(db);
  }

  // ---- fewer runs, or none -----------------------------------------------------------------------

  ghost predicate SamePlans(db: Db, db': Db)
    requires Interned(db.tables.tags) && Interned(db'.tables.tags)
  {
    && db'.ledger.planOfInput == db.ledger.planOfInput && db'.ledger.planOfOutput == db.ledger.planOfOutput
    && db'.tables.knitidInput == db.tables.knitidInput && db'.tables.timestampInput == db.tables.timestampInput
    && SameMounts(db.tables.tags, db'.tables.tags)
  }

  lemma SamePlansAcyclic(db: Db, db': Db)
    requires Interned(db.tables.tags) && Interned(db'.tables.tags) && SamePlans(db, db') && Acyclic(db, {})
    ensures Acyclic(db', {})
  {
    hide Interned, Acyclic;
    forall p, q | DependsOn(db', q, p)
      ensures DependsOn(db, q, p)
    {
      hide InputTags, OutputTags;
      var i, o :| Links(db', q, p, i, o);
      assert Links(db, q, p, i, o);
    }
    StillAcyclic(db, db', {}, {});
  }

  /** Uses of data that `db'` has are uses that `db` has. */
  ghost predicate FewerUses(db: Db, db': Db) {
    forall a :: a in db'.ledger.assign ==>
      && a in db.ledger.assign && db'.ledger.assign[a] == db.ledger.assign[a]
      && (db'.ledger.assign[a] in db'.tables.data ==>
            db'.ledger.assign[a] in db.tables.data && db.tables.data[db'.ledger.assign[a]] == db'.tables.data[db'.ledger.assign[a]])
  }

  lemma FewerUsesAcyclic(db: Db, db': Db)
    requires FewerUses(db, db') && LineageAcyclic(db)
    ensures LineageAcyclic(db')
  {
    var rank, bound :| RunRank(db, rank, bound);
    assert RunRank(db', rank, bound);
  }

  /** Runs that are left keep their assignments and the inputs of their plans. */
  ghost predicate FewerRuns(x: Ledger, x': Ledger) {
    && (forall r :: r in x'.planOfRun ==> r in x.planOfRun && x'.planOfRun[r] == x.planOfRun[r])
    && (forall r, i :: r in x'.planOfRun ==> ((r, i) in x'.assign <==> (r, i) in x.assign))
    && (forall r, i :: r in x'.planOfRun && (r, i) in x.assign ==> (r, i) in x'.assign && x'.assign[(r, i)] == x.assign[(r, i)])
    && (forall r, i :: r in x'.planOfRun ==>
          (i in x'.planOfInput && x'.planOfInput[i] == x.planOfRun[r] <==> i in x.planOfInput && x.planOfInput[i] == x.planOfRun[r]))
  }

  lemma FewerRunsOnce(x: Ledger, x': Ledger)
    requires OncePerPattern(x) && FewerRuns(x, x')
    ensures OncePerPattern(x')
  {
    forall r, s | SiblingRuns(x', r, s) && HasInputs(x', x'.planOfRun[r])
      ensures Apart(x', r, s)
    {
      assert SiblingRuns(x, r, s) && Apart(x, r, s);
    }
  }

  /** Transactions that bring neither runs nor plans. */
  ghost predicate Fewer(db: Db, db': Db)
    requires Interned(db.tables.tags) && Interned(db'.tables.tags)
  {
    SamePlans(db, db') && FewerUses(db, db') && FewerRuns(db.ledger, db'.ledger)
  }

  lemma FewerOrderly(db: Db, db': Db)
    requires Orderly(db) && Interned(db'.tables.tags) && Fewer(db, db')
    ensures Orderly(db')
  {
    hide Interned, Acyclic, LineageAcyclic, OncePerPattern, SamePlans, FewerUses, FewerRuns;
    SamePlansAcyclic(db, db');
    FewerUsesAcyclic(db, db');
    FewerRunsOnce(db.ledger, db'.ledger);
  }

  /** Nothing that `Orderly` looks at has changed. */
  lemma UnchangedIsFewer(db: Db, db': Db)
    requires Interned(db.tables.tags) && Interned(db'.tables.tags) && SameMounts(db.tables.tags, db'.tables.tags)
    requires db'.tables.data == db.tables.data && db'.ledger.assign == db.ledger.assign && db'.ledger.planOfRun == db.ledger.planOfRun
    requires db'.ledger.planOfInput == db.ledger.planOfInput && db'.ledger.planOfOutput == db.ledger.planOfOutput
    requires db'.tables.knitidInput == db.tables.knitidInput && db'.tables.timestampInput == db.tables.timestampInput
    ensures Fewer(db, db')
  {
    hide Interned, InputTags, OutputTags;
  }

  // ---- each transaction --------------------------------------------------------------------------

  lemma SameTags(t: TagTables)
    requires Interned(t)
    ensures SameMounts(t, t)
  {
  }

  lemma TagsTouched(db: Db, db': Db, knitId: string)
    requires Orderly(db) && Interned(db'.tables.tags) && OnlyTouches(db.tables.tags, db'.tables.tags, knitId)
    requires db' == db.(tables := db.tables.(tags := db'.tables.tags, nomination := db'.tables.nomination))
    ensures Orderly(db')
  {
    hide Orderly, Interned, UserTags, InputTags, OutputTags, Extends;
    assert Interned(db.tables.tags) by {
      OrderlyMeans(db);
    }
    UnchangedIsFewer(db, db');
    FewerOrderly(db, db');
  }

  lemma OrderlyMeans(db: Db)
    requires Orderly(db)
    ensures Interned(db.tables.tags)
  {
  }

  /** Statuses, timestamps, flags, workers, agents and garbage do not matter. */
  ghost predicate Idle(db: Db, db': Db) {
    && db'.tables.tags == db.tables.tags && db'.tables.data == db.tables.data
    && db'.tables.knitidInput == db.tables.knitidInput && db'.tables.timestampInput == db.tables.timestampInput
    && db'.ledger.assign == db.ledger.assign && db'.ledger.planOfRun == db.ledger.planOfRun
    && db'.ledger.planOfInput == db.ledger.planOfInput && db'.ledger.planOfOutput == db.ledger.planOfOutput
  }

  lemma IdleOrderly(db: Db, db': Db)
    requires Orderly(db) && Idle(db, db')
    ensures Orderly(db')
  {
    OrderlyMeans(db);
    hide Orderly, Interned, InputTags, OutputTags;
    SameTags(db.tables.tags);
    UnchangedIsFewer(db, db');
    FewerOrderly(db, db');
  }

  lemma TruncatedFewerUses(d: Tables, x: Ledger, ids: set<string>, dropped: set<string>)
    ensures FewerUses(Db(d, x), Db(TruncatedTables(d, ids, dropped), TruncatedLedger(x, ids, dropped)))
  {
  }

  lemma TruncatedFewerRuns(x: Ledger, ids: set<string>, dropped: set<string>)
    ensures FewerRuns(x, TruncatedLedger(x, ids, dropped))
  {
  }

  lemma TruncatedSamePlans(d: Tables, x: Ledger, ids: set<string>, dropped: set<string>)
    requires SchemaOk(d)
    ensures Interned(d.tags) && Interned(TruncatedTables(d, ids, dropped).tags)
    ensures SamePlans(Db(d, x), Db(TruncatedTables(d, ids, dropped), TruncatedLedger(x, ids, dropped)))
  {
    LinkedAreKnown(d);
    TruncatedTags(d, ids, "");
    hide SchemaOk, Interned, UserTags, InputTags;
    TruncatedOutputTags(d.tags, TruncatedTables(d, ids, dropped).tags);
    hide OutputTags;
  }

  lemma TruncatedIsFewer(db: Db, runId: string)
    requires Good(db)
    ensures Interned(db.tables.tags) && Interned(Truncated(db, runId).tables.tags) && Fewer(db, Truncated(db, runId))
  {
    hide SchemaOk, LedgerOk, Exact, Interned, DroppedRuns, DataOfRun, TruncatedTables, TruncatedLedger, SamePlans, FewerUses, FewerRuns;
    var ids, dropped := DataOfRun(db.tables, runId), DroppedRuns(db, runId);
    TruncatedFewerUses(db.tables, db.ledger, ids, dropped);
    TruncatedFewerRuns(db.ledger, ids, dropped);
    TruncatedSamePlans(db.tables, db.ledger, ids, dropped);
  }

  lemma TruncatedOutputTags(t: TagTables, t': TagTables)
    requires Interned(t) && Interned(t') && t' == t.(tagData := t'.tagData)
    ensures forall o :: OutputTags(t', o) == OutputTags(t, o)
  {
    assert Extends(t, t');
    ExtendsKeepsTags(t, t');
  }

  lemma GrownIsFewer(db: Db, db': Db, runId: string)
    requires Interned(db.tables.tags) && Interned(db'.tables.tags) && Grown(db, db', runId) && AssignRefs(db.tables, db.ledger)
    ensures Fewer(db, db')
  {
    hide Interned, InputTags, OutputTags, UserTags, KeptOutput, NewData;
    forall a | a in db'.ledger.assign
      ensures db'.ledger.assign[a] in db.tables.data
      ensures KeptData(db, db', db'.ledger.assign[a])
    {
    }
  }

  lemma WithoutRunIsFewer(db: Db, runId: string)
    requires Interned(db.tables.tags)
    ensures Fewer(db, WithoutRun(db, runId))
  {
    SameTags(db.tables.tags);
    hide Interned, SameMounts;
  }

  lemma WithStatusIsIdle(db: Db, runId: string, status: Status)
    ensures Idle(db, WithStatus(db, runId, status)) && WithStatus(db, runId, status).ledger == db.ledger
  {
  }

  lemma DeletedOrderly(db: Db, runId: string)
    requires Good(db) && Orderly(db)
    ensures Orderly(Deleted(db, runId))
  {
    hide Good, Interned, Fewer, Orderly, Truncated, WithStatus, WithoutRun, Idle;
    var truncated := Truncated(db, runId);
    TruncatedIsFewer(db, runId);
    FewerOrderly(db, truncated);
    WithStatusIsIdle(truncated, runId, Invalidated);
    IdleOrderly(truncated, WithStatus(truncated, runId, Invalidated));
    WithoutRunIsFewer(truncated, runId);
    WithoutRunInterned(truncated, runId);
    FewerOrderly(truncated, WithoutRun(truncated, runId));
  }

  lemma WithoutRunInterned(db: Db, runId: string)
    requires Interned(db.tables.tags)
    ensures Interned(WithoutRun(db, runId).tables.tags)
  {
  }

  lemma TruncatedAssignments(db: Db, runId: string)
    requires Good(db) && CanTruncate(db, runId)
    ensures AssignRefs(Truncated(db, runId).tables, Truncated(db, runId).ledger)
  {
    hide SchemaOk, Exact, RunRefs, MountRefs, DataRefs, InvalidatedAreEmpty, InUse;
    TruncatedAssignRefs(db.tables, db.ledger, DataOfRun(db.tables, runId), DroppedRuns(db, runId));
  }

  lemma WithWorkerIsIdle(db: Db, runId: string)
    ensures Idle(db, WithWorker(db, runId))
  {
  }

  lemma RetriedOrderly(db: Db, db': Db, runId: string)
    requires Good(db) && Orderly(db) && CanTruncate(db, runId) && Retried(db, db', runId)
    ensures Orderly(db')
  {
    hide Good, Interned, Fewer, Orderly, Truncated, WithStatus, WithWorker, Idle, CanTruncate, AssignRefs, Grown, MissingOutputs;
    var truncated := Truncated(db, runId);
    TruncatedIsFewer(db, runId);
    FewerOrderly(db, truncated);
    TruncatedAssignments(db, runId);
    var grown: Db :| Interned(grown.tables.tags) && Grown(truncated, grown, runId) && runId in grown.ledger.planOfRun
      && MissingOutputs(grown, runId) == {} && db' == WithWorker(WithStatus(grown, runId, Waiting), runId);
    GrownIsFewer(truncated, grown, runId);
    FewerOrderly(truncated, grown);
    var waiting := WithStatus(grown, runId, Waiting);
    WithStatusIsIdle(grown, runId, Waiting);
    IdleOrderly(grown, waiting);
    WithWorkerIsIdle(waiting, runId);
    IdleOrderly(waiting, WithWorker(waiting, runId));
  }

  // ---- a new run ---------------------------------------------------------------------------------

  /** Uses are old ones, or the new run's. */
  lemma NewRunLineage(db: Db, db': Db, runId: string)
    requires LineageAcyclic(db) && db'.tables.data == db.tables.data && forall k :: k in db.tables.data ==> db.tables.data[k] != runId
    requires forall a :: a in db'.ledger.assign && a.0 != runId ==> a in db.ledger.assign && db'.ledger.assign[a] == db.ledger.assign[a]
    ensures LineageAcyclic(db')
  {
    var rank, bound :| RunRank(db, rank, bound);
    var rank' := (r: string) => if r == runId then bound else rank(r);
    assert RunRank(db', rank', bound + 1);
  }

  lemma StartedMeans(x: Ledger, x': Ledger, planId: string, inputs: map<int, string>, runId: string)
    requires x' == x.(planOfRun := x.planOfRun[runId := planId], assign := x.assign + Assigned(inputs, runId))
    ensures forall r, i :: r != runId ==> ((r, i) in x'.assign <==> (r, i) in x.assign) && ((r, i) in x.assign ==> x'.assign[(r, i)] == x.assign[(r, i)])
    ensures forall i :: i in inputs ==> (runId, i) in x'.assign && x'.assign[(runId, i)] == inputs[i]
  {
  }

  lemma NewIsApart(x: Ledger, x': Ledger, planId: string, inputs: map<int, string>, runId: string, r: string)
    requires x' == x.(planOfRun := x.planOfRun[runId := planId], assign := x.assign + Assigned(inputs, runId))
    requires inputs.Keys == InputsOf(x, planId) && Filled(x) && (Known(x, planId, inputs) ==> inputs == map[])
    requires r in x.planOfRun && r != runId && x.planOfRun[r] == planId && HasInputs(x, planId)
    ensures Apart(x', runId, r) && Apart(x', r, runId)
  {
    StartedMeans(x, x', planId, inputs, runId);
    hide Assigned;
    var n :| n in x.planOfInput && x.planOfInput[n] == planId;
    assert n in inputs;
    assert !HasPattern(x, r, inputs);
    var i :| i in inputs && ((r, i) in x.assign ==> x.assign[(r, i)] != inputs[i]);
    assert i in InputsOf(x, planId);
  }

  lemma StartedFilled(x: Ledger, x': Ledger, planId: string, inputs: map<int, string>, runId: string)
    requires Filled(x) && runId !in x.planOfRun && inputs.Keys == InputsOf(x, planId)
    requires forall a :: a in x.assign ==> a.0 != runId
    requires x' == x.(planOfRun := x.planOfRun[runId := planId], assign := x.assign + Assigned(inputs, runId))
    ensures Filled(x')
  {
    StartedMeans(x, x', planId, inputs, runId);
    forall i | (runId, i) in x'.assign
      ensures i in inputs
    {
      assert (runId, i).0 == runId;
    }
    hide Assigned;
    assert forall i :: i in inputs <==> i in InputsOf(x, planId);
  }

  lemma StartedOnce(x: Ledger, x': Ledger, planId: string, inputs: map<int, string>, runId: string)
    requires OncePerPattern(x) && runId !in x.planOfRun && inputs.Keys == InputsOf(x, planId)
    requires forall a :: a in x.assign ==> a.0 != runId
    requires Known(x, planId, inputs) ==> inputs == map[]
    requires x' == x.(planOfRun := x.planOfRun[runId := planId], assign := x.assign + Assigned(inputs, runId))
    ensures OncePerPattern(x')
  {
    StartedFilled(x, x', planId, inputs, runId);
    StartedMeans(x, x', planId, inputs, runId);
    hide Assigned, Known, Filled, InputsOf;
    forall r, s | SiblingRuns(x', r, s) && HasInputs(x', x'.planOfRun[r])
      ensures Apart(x', r, s)
    {
      if r == runId {
        NewIsApart(x, x', planId, inputs, runId, s);
      } else if s == runId {
        NewIsApart(x, x', planId, inputs, runId, r);
      } else {
        assert SiblingRuns(x, r, s) && Apart(x, r, s);
      }
    }
  }

  lemma StartedParts(db: Db, planId: string, inputs: map<int, string>, runId: string, status: Status)
    requires Interned(db.tables.tags)
    ensures var started := Started(db, planId, inputs, runId, status);
      && Interned(started.tables.tags) && SamePlans(db, started) && started.tables.data == db.tables.data
      && started.ledger == db.ledger.(planOfRun := db.ledger.planOfRun[runId := planId], assign := db.ledger.assign + Assigned(inputs, runId))
  {
    SameTags(db.tables.tags);
    hide Interned, SameMounts, Assigned;
  }

  lemma StartedOrderly(db: Db, planId: string, inputs: map<int, string>, runId: string, status: Status)
    requires Good(db) && Orderly(db) && runId !in db.tables.run && inputs.Keys == InputsOf(db.ledger, planId)
    requires Known(db.ledger, planId, inputs) ==> inputs == map[]
    ensures Orderly(Started(db, planId, inputs, runId, status))
  {
    var started := Started(db, planId, inputs, runId, status);
    RunsAgree(db);
    hide Good, Interned, Acyclic, LineageAcyclic, OncePerPattern, Known, AssignRefs, Assigned, InputsOf, Started, SamePlans;
    StartedParts(db, planId, inputs, runId, status);
    OtherUses(db.ledger, started.ledger, inputs, runId);
    NewRunLineage(db, started, runId);
    StartedOnce(db.ledger, started.ledger, planId, inputs, runId);
    SamePlansAcyclic(db, started);
  }

  lemma OtherUses(x: Ledger, x': Ledger, inputs: map<int, string>, runId: string)
    requires x'.assign == x.assign + Assigned(inputs, runId)
    ensures forall a :: a in x'.assign && a.0 != runId ==> a in x.assign && x'.assign[a] == x.assign[a]
  {
  }

  lemma RunsAgree(db: Db)
    requires Good(db)
    ensures db.ledger.planOfRun.Keys == db.tables.run.Keys && AssignRefs(db.tables, db.ledger)
    ensures forall k :: k in db.tables.data ==> db.tables.data[k] in db.tables.run
    ensures forall a :: a in db.ledger.assign ==> a.0 in db.tables.run
  {
    hide Interned, Exact;
  }

  lemma StartedAssignments(db: Db, planId: string, inputs: map<int, string>, runId: string, status: Status)
    requires AssignRefs(db.tables, db.ledger) && inputs.Keys <= db.tables.input && inputs.Values <= db.tables.data.Keys
    ensures AssignRefs(Started(db, planId, inputs, runId, status).tables, Started(db, planId, inputs, runId, status).ledger)
  {
  }

  /** A run is registered unless one with the same assignments is known. */
  lemma RegisteredOrderly(db: Db, db': Db, planId: string, inputs: map<int, string>, runId: string)
    requires Good(db) && Orderly(db) && Registered(db, db', planId, inputs, runId)
    requires Known(db.ledger, planId, inputs) ==> inputs == map[]
    ensures Orderly(db')
  {
    hide Good, Interned, Orderly, Fewer, Known, AssignRefs, Grown, MissingOutputs, InputsOf;
    var started := Started(db, planId, inputs, runId, InitialStatus(db.ledger.plan[planId]));
    StartedOrderly(db, planId, inputs, runId, InitialStatus(db.ledger.plan[planId]));
    RunsAgree(db);
    InputsAreInputs(db, planId);
    StartedAssignments(db, planId, inputs, runId, InitialStatus(db.ledger.plan[planId]));
    GrownIsFewer(started, db', runId);
    FewerOrderly(started, db');
  }

  // ---- a new plan --------------------------------------------------------------------------------

  lemma AccruedUses(db: Db, db': Db, planId: string)
    requires SchemaOk(db.tables) && SchemaOk(db'.tables) && Accrued(db, db', planId)
    requires forall r :: r in db.ledger.planOfRun ==> db.ledger.planOfRun[r] != planId
    ensures FewerUses(db, db') && FewerRuns(db.ledger, db'.ledger)
  {
    hide SchemaOk, OldMounts, UserTags;
  }

  lemma PlanRegisteredOrderly(db: Db, db': Db, planId: string, active: bool, clock: TagSets.Clock, rows: PlanRows)
    requires Good(db) && Orderly(db) && planId !in db.ledger.plan
    requires PlanRegistered(db, db', planId, active, clock, rows) && Interned(db'.tables.tags) && Acyclic(db', {})
    ensures Orderly(db')
  {
    PlansOfRuns(db);
    hide Good, SchemaOk, Interned, Acyclic, Accrued, InputsThrough, OutputsThrough, FlagsKept, Nominated, OncePerPattern, LineageAcyclic, FewerRuns;
    AccruedUses(WithPlan(db, planId, active), db', planId);
    FewerUsesAcyclic(db, db');
    FewerRunsSame(db.ledger, WithPlan(db, planId, active).ledger, db'.ledger);
    FewerRunsOnce(db.ledger, db'.ledger);
  }

  lemma FewerRunsSame(x: Ledger, y: Ledger, x': Ledger)
    requires FewerRuns(y, x') && y == x.(plan := y.plan)
    ensures FewerRuns(x, x')
  {
  }

  lemma PlansOfRuns(db: Db)
    requires Good(db)
    ensures forall r :: r in db.ledger.planOfRun ==> db.ledger.planOfRun[r] in db.ledger.plan
  {
    hide SchemaOk, Exact;
  }
}
