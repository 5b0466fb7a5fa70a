/** `New` of pkg/domain/run/db/postgres/run.go: runs come from nominations, one flagged pair at a time, so
    that every combination of the pairs looked at has its run. */
module Projection {
  import opened Results
  import opened Sets
  import opened TagStore
  import TagSets
  import opened Nomination
  import opened Cartesian
  import opened PlanCycles
  import opened Ledgers
  import opened Runs
  import opened RunOutputs
  import opened RunChanges
  import opened Registration
  import opened Orders
  import opened Stamps
  import opened Outcomes

  /** The pair has been looked at. */
  predicate Settled(d: Tables, k: string, i: int) {
    (k, i) in d.nomination && !d.nomination[(k, i)]
  }

  /** A choice of such data for all inputs of a plan. */
  ghost predicate Combination(db: Db, planId: string, inputs: map<int, string>) {
    inputs.Keys == InputsOf(db.ledger, planId) && forall i :: i in inputs ==> Settled(db.tables, inputs[i], i)
  }

  /** What the projection loop maintains. */
  ghost predicate AllRun(db: Db) {
    forall planId, inputs :: HasInputs(db.ledger, planId) && Combination(db, planId, inputs) ==> Known(db.ledger, planId, inputs)
  }

  // ---- transactions that bring no combinations ---------------------------------------------------

  ghost predicate KeepsRuns(x: Ledger, x': Ledger) {
    && x'.planOfInput == x.planOfInput
    && (forall r :: r in x.planOfRun ==> r in x'.planOfRun && x'.planOfRun[r] == x.planOfRun[r])
    && (forall r, i :: r in x.planOfRun && (r, i) in x.assign ==> (r, i) in x'.assign && x'.assign[(r, i)] == x.assign[(r, i)])
  }

  lemma KnownStays(x: Ledger, x': Ledger, planId: string, inputs: map<int, string>)
    requires KeepsRuns(x, x') && Known(x, planId, inputs)
    ensures Known(x', planId, inputs)
  {
    var r :| r in x.planOfRun && x.planOfRun[r] == planId && HasPattern(x, r, inputs);
    assert HasPattern(x', r, inputs);
  }

  ghost predicate FewerSettled(d: Tables, d': Tables) {
    forall k, i :: Settled(d', k, i) ==> Settled(d, k, i)
  }

  lemma FlagsKeptFewer(d: Tables, d': Tables)
    requires FlagsKept(d.nomination, d'.nomination)
    ensures FewerSettled(d, d')
  {
  }

  lemma AllRunStays(db: Db, db': Db)
    requires AllRun(db) && KeepsRuns(db.ledger, db'.ledger) && FewerSettled(db.tables, db'.tables)
    ensures AllRun(db')
  {
    hide Known, Settled;
    forall planId, inputs | HasInputs(db'.ledger, planId) && Combination(db', planId, inputs)
      ensures Known(db'.ledger, planId, inputs)
    {
      assert Combination(db, planId, inputs);
      KnownStays(db.ledger, db'.ledger, planId, inputs);
    }
  }

  lemma IdleAllRun(db: Db, db': Db)
    requires AllRun(db) && Idle(db, db') && FewerSettled(db.tables, db'.tables)
    ensures AllRun(db')
  {
    hide AllRun, FewerSettled;
    AllRunStays(db, db');
  }

  // ---- runs that go ------------------------------------------------------------------------------

  /** A run that is dropped used data that are gone, so no combination that is left is its. */
  lemma DroppedIsNotNeeded(db: Db, runId: string, planId: string, inputs: map<int, string>, r: string)
    requires Filled(db.ledger) && r in db.ledger.planOfRun && db.ledger.planOfRun[r] == planId && HasPattern(db.ledger, r, inputs)
    requires inputs.Keys == InputsOf(db.ledger, planId)
    requires forall i :: i in inputs ==> inputs[i] !in DataOfRun(db.tables, runId)
    ensures r !in DroppedRuns(db, runId)
  {
    hide DataOfRun;
    var x, ids := db.ledger, DataOfRun(db.tables, runId);
    forall a | a in x.assign && a.0 == r
      ensures x.assign[a] !in ids
    {
      var i := a.1;
      assert (r, i) == a && (r, i) in x.assign;
      assert i in x.planOfInput && x.planOfInput[i] == planId;
      assert i in InputsOf(x, planId);
    }
  }

  lemma TruncatedSettled(db: Db, runId: string, k: string, i: int)
    requires Settled(Truncated(db, runId).tables, k, i)
    ensures Settled(db.tables, k, i) && k !in DataOfRun(db.tables, runId)
  {
    hide DroppedRuns, DataOfRun;
  }

  lemma TruncatedPattern(db: Db, runId: string, r: string, inputs: map<int, string>)
    requires r in db.ledger.planOfRun && r !in DroppedRuns(db, runId) && HasPattern(db.ledger, r, inputs)
    ensures var x' := Truncated(db, runId).ledger;
      r in x'.planOfRun && x'.planOfRun[r] == db.ledger.planOfRun[r] && HasPattern(x', r, inputs)
  {
    hide DroppedRuns, DataOfRun;
  }

  lemma TruncatedAllRun(db: Db, runId: string)
    requires AllRun(db) && Filled(db.ledger)
    ensures AllRun(Truncated(db, runId))
  {
    var db' := Truncated(db, runId);
    assert db'.ledger.planOfInput == db.ledger.planOfInput;
    hide Filled, Truncated, Settled, DroppedRuns, DataOfRun, HasPattern;
    forall planId, inputs | HasInputs(db'.ledger, planId) && Combination(db', planId, inputs)
      ensures Known(db'.ledger, planId, inputs)
    {
      forall i | i in inputs
        ensures Settled(db.tables, inputs[i], i) && inputs[i] !in DataOfRun(db.tables, runId)
      {
        TruncatedSettled(db, runId, inputs[i], i);
      }
      assert Combination(db, planId, inputs);
      var r :| r in db.ledger.planOfRun && db.ledger.planOfRun[r] == planId && HasPattern(db.ledger, r, inputs);
      DroppedIsNotNeeded(db, runId, planId, inputs, r);
      TruncatedPattern(db, runId, r, inputs);
    }
  }

  /** A run without assignments is the run of no combination. */
  lemma WithoutRunAllRun(db: Db, runId: string)
    requires AllRun(db) && !Upstream(db.ledger, runId)
    ensures AllRun(WithoutRun(db, runId))
  {
    var db' := WithoutRun(db, runId);
    forall planId, inputs | HasInputs(db'.ledger, planId) && Combination(db', planId, inputs)
      ensures Known(db'.ledger, planId, inputs)
    {
      assert InputsOf(db'.ledger, planId) == InputsOf(db.ledger, planId);
      assert HasInputs(db.ledger, planId) && Combination(db, planId, inputs);
      var r :| r in db.ledger.planOfRun && db.ledger.planOfRun[r] == planId && HasPattern(db.ledger, r, inputs);
      var i :| i in db.ledger.planOfInput && db.ledger.planOfInput[i] == planId;
      assert i in inputs;
      assert (r, i) in db.ledger.assign && (r, i).0 == r;
      assert HasPattern(db'.ledger, r, inputs);
    }
  }

  lemma DeletedAllRun(db: Db, runId: string)
    requires AllRun(db) && Filled(db.ledger)
    ensures AllRun(Deleted(db, runId))
  {
    hide AllRun, Truncated, WithStatus, WithoutRun, Idle;
    var truncated := Truncated(db, runId);
    TruncatedAllRun(db, runId);
    if Upstream(truncated.ledger, runId) {
      WithStatusIsIdle(truncated, runId, Invalidated);
      WithStatusSettled(truncated, runId, Invalidated);
      IdleAllRun(truncated, WithStatus(truncated, runId, Invalidated));
    } else {
      WithoutRunAllRun(truncated, runId);
    }
  }

  lemma WithStatusSettled(db: Db, runId: string, status: Status)
    ensures FewerSettled(db.tables, WithStatus(db, runId, status).tables)
  {
  }

  lemma WithWorkerSettled(db: Db, runId: string)
    ensures FewerSettled(db.tables, WithWorker(db, runId).tables) && WithWorker(db, runId).tables == db.tables
  {
  }

  lemma GrownAllRun(db: Db, db': Db, runId: string)
    requires Interned(db.tables.tags) && Interned(db'.tables.tags) && Grown(db, db', runId) && AllRun(db)
    ensures AllRun(db')
  {
    hide Interned, AllRun, SameMounts, KeptData, KeptOutput, NewData;
    AllRunStays(db, db');
  }

  lemma RetriedAllRun(db: Db, db': Db, runId: string)
    requires AllRun(db) && Filled(db.ledger) && Retried(db, db', runId)
    ensures AllRun(db')
  {
    hide AllRun, Truncated, WithStatus, WithWorker, Idle, Interned, Grown, MissingOutputs, FewerSettled;
    var truncated := Truncated(db, runId);
    TruncatedAllRun(db, runId);
    var grown: Db :| Interned(grown.tables.tags) && Grown(truncated, grown, runId) && runId in grown.ledger.planOfRun
      && MissingOutputs(grown, runId) == {} && db' == WithWorker(WithStatus(grown, runId, Waiting), runId);
    GrownAllRun(truncated, grown, runId);
    var waiting := WithStatus(grown, runId, Waiting);
    WithStatusIsIdle(grown, runId, Waiting);
    WithStatusSettled(grown, runId, Waiting);
    IdleAllRun(grown, waiting);
    WithWorkerIsIdle(waiting, runId);
    WithWorkerSettled(waiting, runId);
    IdleAllRun(waiting, WithWorker(waiting, runId));
  }

  // ---- runs and plans that come ------------------------------------------------------------------

  lemma StartedKeepsRuns(x: Ledger, x': Ledger, planId: string, inputs: map<int, string>, runId: string)
    requires runId !in x.planOfRun
    requires x' == x.(planOfRun := x.planOfRun[runId := planId], assign := x.assign + Assigned(inputs, runId))
    ensures KeepsRuns(x, x') && Known(x', planId, inputs)
  {
    hide Assigned;
    StartedMeans(x, x', planId, inputs, runId);
    assert HasPattern(x', runId, inputs);
    forall r, i | r in x.planOfRun && (r, i) in x.assign
      ensures (r, i) in x'.assign && x'.assign[(r, i)] == x.assign[(r, i)]
    {
    }
  }

  lemma StartedLedger(db: Db, planId: string, inputs: map<int, string>, runId: string, status: Status)
    ensures Started(db, planId, inputs, runId, status).ledger ==
      db.ledger.(planOfRun := db.ledger.planOfRun[runId := planId], assign := db.ledger.assign + Assigned(inputs, runId))
    ensures Started(db, planId, inputs, runId, status).tables.nomination == db.tables.nomination
    ensures Started(db, planId, inputs, runId, status).tables.data == db.tables.data
  {
  }

  lemma GrownMeans(db: Db, db': Db, runId: string)
    requires Interned(db.tables.tags) && Interned(db'.tables.tags) && Grown(db, db', runId)
    ensures KeepsRuns(db.ledger, db'.ledger) && db'.tables.nomination == db.tables.nomination && db'.ledger.plan == db.ledger.plan
    ensures db'.ledger.planOfRun == db.ledger.planOfRun && db'.ledger.assign == db.ledger.assign
    ensures db.tables.data.Keys <= db'.tables.data.Keys
  {
    hide Interned, SameMounts, KeptOutput, NewData, UserTags;
    forall k | k in db.tables.data
      ensures k in db'.tables.data
    {
      assert KeptData(db, db', k);
    }
  }

  /** What a registration adds, and what it keeps. */
  ghost predicate OneRunMore(db: Db, db': Db, planId: string, inputs: map<int, string>, runId: string) {
    && KeepsRuns(db.ledger, db'.ledger) && Known(db'.ledger, planId, inputs)
    && db'.tables.nomination == db.tables.nomination && db.tables.data.Keys <= db'.tables.data.Keys
    && db'.ledger.plan == db.ledger.plan
    && (forall r :: r in db'.ledger.planOfRun && r !in db.ledger.planOfRun ==>
      r == runId && db'.ledger.planOfRun[r] == planId && HasPattern(db'.ledger, r, inputs))
  }

  /** New runs are of the plan, with a worker; they wait if the plan is active, and are held back if not.
      Runs and data that were there are as they were. */
  ghost predicate StartsRuns(db: Db, db': Db, planId: string) {
    && db'.ledger.plan == db.ledger.plan && db.ledger.worker <= db'.ledger.worker
    && (forall r :: r in db.tables.run ==> r in db'.tables.run && db'.tables.run[r] == db.tables.run[r])
    && (forall k :: k in db.tables.data ==> k in db'.tables.data && db'.tables.data[k] == db.tables.data[k])
    && (forall r :: r in db'.tables.run && r !in db.tables.run ==>
      && planId in db.ledger.plan && db.ledger.plan[planId].ImagePlan?
      && r in db'.ledger.worker && db'.tables.run[r] == if db.ledger.plan[planId].active then Waiting else Deactivated)
  }

  lemma StartsRunsTransitive(a: Db, b: Db, c: Db, planId: string)
    requires StartsRuns(a, b, planId) && StartsRuns(b, c, planId)
    ensures StartsRuns(a, c, planId)
  {
  }

  lemma RegisteredStartsRuns(db: Db, db': Db, planId: string, inputs: map<int, string>, runId: string)
    requires Registered(db, db', planId, inputs, runId) && db.ledger.plan[planId].ImagePlan?
    ensures StartsRuns(db, WithWorker(db', runId), planId)
  {
    hide Registered, MissingOutputs;
    RegisteredMeans(db, db', planId, inputs, runId);
    forall k | k in db.tables.data
      ensures k in db'.tables.data && db'.tables.data[k] == db.tables.data[k]
    {
      RegisteredKeepsData(db, db', planId, inputs, runId, k);
    }
  }

  lemma StartedIsOneMore(db: Db, planId: string, inputs: map<int, string>, runId: string, status: Status)
    requires runId !in db.ledger.planOfRun
    ensures OneRunMore(db, Started(db, planId, inputs, runId, status), planId, inputs, runId)
  {
    StartedLedger(db, planId, inputs, runId, status);
    hide Known, KeepsRuns, Started, Assigned;
    StartedKeepsRuns(db.ledger, Started(db, planId, inputs, runId, status).ledger, planId, inputs, runId);
    StartedMeans(db.ledger, Started(db, planId, inputs, runId, status).ledger, planId, inputs, runId);
  }

  lemma RegisteredIsOneMore(db: Db, db': Db, planId: string, inputs: map<int, string>, runId: string)
    requires Good(db) && Registered(db, db', planId, inputs, runId)
    ensures OneRunMore(db, db', planId, inputs, runId)
  {
    hide Good, Interned, Grown, MissingOutputs, Started, KeepsRuns, Known;
    RunsAgree(db);
    var started := Started(db, planId, inputs, runId, InitialStatus(db.ledger.plan[planId]));
    StartedInterned(db, planId, inputs, runId, InitialStatus(db.ledger.plan[planId]));
    StartedIsOneMore(db, planId, inputs, runId, InitialStatus(db.ledger.plan[planId]));
    GrownMeans(started, db', runId);
    KeepsRunsTransitive(db.ledger, started.ledger, db'.ledger);
    KnownStays(started.ledger, db'.ledger, planId, inputs);
  }

  lemma StartedInterned(db: Db, planId: string, inputs: map<int, string>, runId: string, status: Status)
    requires Interned(db.tables.tags)
    ensures Interned(Started(db, planId, inputs, runId, status).tables.tags)
  {
    hide Interned, Assigned;
  }

  lemma KeepsRunsTransitive(x: Ledger, y: Ledger, z: Ledger)
    requires KeepsRuns(x, y) && KeepsRuns(y, z)
    ensures KeepsRuns(x, z)
  {
  }

  lemma RegisteredAllRun(db: Db, db': Db, planId: string, inputs: map<int, string>, runId: string)
    requires Good(db) && AllRun(db) && Registered(db, db', planId, inputs, runId)
    ensures AllRun(db')
  {
    hide Good, AllRun, Registered, KeepsRuns, Known;
    RegisteredIsOneMore(db, db', planId, inputs, runId);
    AllRunStays(db, db');
  }

  ghost predicate InputsKnown(db: Db) {
    && (forall i :: i in db.ledger.planOfInput ==> db.ledger.planOfInput[i] in db.ledger.plan)
    && (forall p :: p in db.tables.nomination ==> p.1 in db.ledger.planOfInput)
  }

  lemma InputsHavePlans(db: Db)
    requires Good(db)
    ensures InputsKnown(db)
  {
    hide Exact, Interned;
  }

  /** A combination of settled pairs is none of a plan that has just come. */
  lemma OldCombination(db: Db, db': Db, planId: string, active: bool, q: string, inputs: map<int, string>)
    requires InputsKnown(db) && planId !in db.ledger.plan && NewMounts(WithPlan(db, planId, active), db', planId)
    requires FlagsKept(db.tables.nomination, db'.tables.nomination)
    requires HasInputs(db'.ledger, q) && Combination(db', q, inputs)
    ensures HasInputs(db.ledger, q) && Combination(db, q, inputs)
  {
    var x, x' := db.ledger, db'.ledger;
    forall i | i in inputs
      ensures Settled(db.tables, inputs[i], i) && i in x.planOfInput
    {
    }
    var n :| n in x'.planOfInput && x'.planOfInput[n] == q;
    assert n in inputs;
    assert x.planOfInput[n] == q;
    forall i
      ensures i in InputsOf(x', q) <==> i in InputsOf(x, q)
    {
      if i in InputsOf(x', q) {
        assert i in inputs && x'.planOfInput[i] == x.planOfInput[i];
      }
    }
  }

  lemma PlanRegisteredParts(db: Db, db': Db, planId: string, active: bool, clock: TagSets.Clock, rows: PlanRows)
    requires PlanRegistered(db, db', planId, active, clock, rows)
    ensures NewMounts(WithPlan(db, planId, active), db', planId) && FlagsKept(db.tables.nomination, db'.tables.nomination)
  {
    hide SchemaOk, OldMounts, NewMounts, SameOthers, InputsThrough, OutputsThrough, FlagsKept, Nominated;
  }

  lemma SameNewMounts(db: Db, db': Db, planId: string, active: bool)
    requires NewMounts(WithPlan(db, planId, active), db', planId)
    ensures db'.ledger.assign == db.ledger.assign && db'.ledger.planOfRun == db.ledger.planOfRun
  {
  }

  /** New inputs start with flagged pairs. */
  lemma PlanRegisteredAllRun(db: Db, db': Db, planId: string, active: bool, clock: TagSets.Clock, rows: PlanRows)
    requires Good(db) && AllRun(db) && planId !in db.ledger.plan
    requires PlanRegistered(db, db', planId, active, clock, rows)
    ensures AllRun(db')
  {
    hide Good, PlanRegistered, NewMounts, FlagsKept, InputsKnown, Known, HasInputs, Combination;
    InputsHavePlans(db);
    PlanRegisteredParts(db, db', planId, active, clock, rows);
    SameNewMounts(db, db', planId, active);
    forall q, inputs | HasInputs(db'.ledger, q) && Combination(db', q, inputs)
      ensures Known(db'.ledger, q, inputs)
    {
      OldCombination(db, db', planId, active, q, inputs);
      SamePatterns(db.ledger, db'.ledger, q, inputs);
    }
  }

  lemma SamePatterns(x: Ledger, x': Ledger, planId: string, inputs: map<int, string>)
    requires x'.assign == x.assign && x'.planOfRun == x.planOfRun && Known(x, planId, inputs)
    ensures Known(x', planId, inputs)
  {
    var r :| r in x.planOfRun && x.planOfRun[r] == planId && HasPattern(x, r, inputs);
    assert HasPattern(x', r, inputs);
  }

  // ---- one round of the loop ---------------------------------------------------------------------

  /** Data that the loop has looked at for the input. */
  function SettledData(d: Tables, i: int): (ids: set<string>)
    ensures forall k :: k in ids <==> Settled(d, k, i)
  {
    var pairs := set p | p in d.nomination && p.1 == i && !d.nomination[p];
    var ids := set p | p in pairs :: p.0;
    assert forall k :: (k, i) in pairs ==> k in ids;
    ids
  }

  ghost predicate IsBasis(db: Db, planId: string, trigger: (string, int), basis: map<int, seq<string>>) {
    && basis.Keys == InputsOf(db.ledger, planId)
    && forall i :: i in basis ==> Elems(basis[i]) == if i == trigger.1 then {trigger.0} else SettledData(db.tables, i)
  }

  /** The trigger on its own input, and what is settled on the others. */
  method Basis(db: Db, planId: string, trigger: (string, int)) returns (basis: map<int, seq<string>>)
    ensures IsBasis(db, planId, trigger, basis)
  {
    hide SettledData, InputsOf;
    basis := map[];
    var inputs := Rows(InputsOf(db.ledger, planId));
    for j := 0 to |inputs|
      invariant basis.Keys == Elems(inputs[..j])
      invariant forall i :: i in basis ==> Elems(basis[i]) == if i == trigger.1 then {trigger.0} else SettledData(db.tables, i)
    {
      var i := inputs[j];
      assert Elems(inputs[..j + 1]) == Elems(inputs[..j]) + {i};
      var rows := Rows(if i == trigger.1 then {trigger.0} else SettledData(db.tables, i));
      basis := basis[i := rows];
    }
    assert inputs[..|inputs|] == inputs;
  }

  /** A choice from the basis. */
  ghost predicate Chosen(basis: map<int, seq<string>>, inputs: map<int, string>) {
    inputs.Keys == basis.Keys && forall i :: i in inputs ==> inputs[i] in basis[i]
  }

  function IndexOf(s: seq<string>, x: string): (n: nat)
    requires x in s
    ensures n < |s| && s[n] == x
  {
    if s[0] == x then 0 else 1 + IndexOf(s[1..], x)
  }

  lemma ChosenHasTuple(basis: map<int, seq<string>>, inputs: map<int, string>) returns (tuple: map<int, nat>)
    requires Chosen(basis, inputs)
    ensures IsTuple(basis, basis.Keys, tuple) && Choice(basis, basis.Keys, tuple) == inputs
  {
    tuple := map i | i in basis :: IndexOf(basis[i], inputs[i]);
  }

  lemma TupleIsChosen(basis: map<int, seq<string>>, tuple: map<int, nat>)
    requires IsTuple(basis, basis.Keys, tuple)
    ensures Chosen(basis, Choice(basis, basis.Keys, tuple))
  {
  }

  lemma ChosenIsListed(basis: map<int, seq<string>>, patterns: seq<map<int, string>>, tuples: seq<map<int, nat>>, inputs: map<int, string>)
    requires Enumerates(basis, basis.Keys, patterns, tuples)
    ensures inputs in patterns <==> Chosen(basis, inputs)
  {
    hide IsTuple, Choice, Chosen;
    if Chosen(basis, inputs) {
      var tuple := ChosenHasTuple(basis, inputs);
      var n :| 0 <= n < |tuples| && tuples[n] == tuple;
      assert patterns[n] == inputs;
    }
    if inputs in patterns {
      var n :| 0 <= n < |patterns| && patterns[n] == inputs;
      TupleIsChosen(basis, tuples[n]);
    }
  }

  /** What the round has registered so far. */
  ghost predicate Projected(db: Db, out: Db, planId: string, patterns: seq<map<int, string>>, n: nat)
    requires n <= |patterns|
  {
    && KeepsRuns(db.ledger, out.ledger) && out.ledger.plan == db.ledger.plan
    && out.tables.nomination == db.tables.nomination
    && (forall j :: 0 <= j < n ==> Known(out.ledger, planId, patterns[j]))
    && (forall r :: r in out.ledger.planOfRun && r !in db.ledger.planOfRun ==> RunOf(out.ledger, planId, patterns, r))
    && StartsRuns(db, out, planId)
  }

  ghost predicate RunOf(x: Ledger, planId: string, patterns: seq<map<int, string>>, r: string) {
    r in x.planOfRun && x.planOfRun[r] == planId && exists inputs :: inputs in patterns && HasPattern(x, r, inputs)
  }

  lemma NothingProjected(db: Db, planId: string, patterns: seq<map<int, string>>)
    ensures Projected(db, db, planId, patterns, 0)
  {
  }

  lemma ProjectedPlans(db: Db, out: Db, planId: string, patterns: seq<map<int, string>>, n: nat)
    requires n <= |patterns| && Projected(db, out, planId, patterns, n)
    ensures out.ledger.plan == db.ledger.plan
  {
    hide Known, KeepsRuns, StartsRuns, RunOf;
  }

  lemma RunOfStays(x: Ledger, x': Ledger, planId: string, patterns: seq<map<int, string>>, r: string)
    requires KeepsRuns(x, x') && RunOf(x, planId, patterns, r)
    ensures RunOf(x', planId, patterns, r)
  {
    var inputs :| inputs in patterns && HasPattern(x, r, inputs);
    assert HasPattern(x', r, inputs);
  }

  lemma ProjectedNext(db: Db, out: Db, out': Db, planId: string, patterns: seq<map<int, string>>, n: nat, runId: string)
    requires n < |patterns| && Projected(db, out, planId, patterns, n) && OneRunMore(out, out', planId, patterns[n], runId)
    requires StartsRuns(out, out', planId)
    ensures Projected(db, out', planId, patterns, n + 1)
  {
    hide Known, KeepsRuns, HasPattern, StartsRuns;
    StartsRunsTransitive(db, out, out', planId);
    KeepsRunsTransitive(db.ledger, out.ledger, out'.ledger);
    forall j | 0 <= j < n
      ensures Known(out'.ledger, planId, patterns[j])
    {
      KnownStays(out.ledger, out'.ledger, planId, patterns[j]);
    }
    forall r | r in out'.ledger.planOfRun && r !in db.ledger.planOfRun
      ensures RunOf(out'.ledger, planId, patterns, r)
    {
      if r in out.ledger.planOfRun {
        RunOfStays(out.ledger, out'.ledger, planId, patterns, r);
      }
    }
  }

  lemma KnownIsOneMore(db: Db, planId: string, inputs: map<int, string>, runId: string)
    requires Known(db.ledger, planId, inputs)
    ensures OneRunMore(db, db, planId, inputs, runId)
  {
    hide Known;
  }

  lemma WithWorkerIsOneMore(db: Db, registered: Db, planId: string, inputs: map<int, string>, runId: string)
    requires OneRunMore(db, registered, planId, inputs, runId)
    ensures OneRunMore(db, WithWorker(registered, runId), planId, inputs, runId)
  {
  }

  lemma NothingStarts(db: Db, planId: string)
    ensures StartsRuns(db, db, planId)
  {
  }

  /** One combination. */
  method ProjectOne(db: Db, planId: string, inputs: map<int, string>, runId: string, names: nat -> string, volume: string -> string)
    returns (r: Result<Db, DbError>)
    requires Good(db) && Orderly(db) && AllRun(db) && Stamped(db.tables)
    ensures r.Ok? ==> Good(r.value) && Orderly(r.value) && AllRun(r.value) && Stamped(r.value.tables)
    ensures r.Ok? ==> OneRunMore(db, r.value, planId, inputs, runId)
    ensures r.Ok? && planId in db.ledger.plan && db.ledger.plan[planId].ImagePlan? ==> StartsRuns(db, r.value, planId)
    ensures r.Ok? ==> NamedBy(db, r.value, names) && r.value.tables.run.Keys <= db.tables.run.Keys + {runId}
    ensures r.Ok? && Made(db) ==> Made(r.value)
    ensures r.Ok? && Complete(db) ==> Complete(r.value)
    ensures FreshNames(db, names) && Fits(db, planId, inputs, runId) ==> r.Ok?
  {
    hide Good, Orderly, AllRun, Known, Registered, WithWorker, OneRunMore, StartsRuns, Idle, FewerSettled, NamedBy, FreshNames, Fits, Stamped, Made, Complete;
    r := Project(db, planId, inputs, runId, names, volume);
    if r.Err? {
      return;
    }
    if Known(db.ledger, planId, inputs) {
      KnownIsOneMore(db, planId, inputs, runId);
      NothingStarts(db, planId);
    } else {
      ghost var registered :| Registered(db, registered, planId, inputs, runId) && r.value == WithWorker(registered, runId);
      RegisteredOrderly(db, registered, planId, inputs, runId);
      RegisteredAllRun(db, registered, planId, inputs, runId);
      RegisteredStamped(db, registered, planId, inputs, runId);
      if Complete(db) {
        RegisteredComplete(db, registered, planId, inputs, runId);
      }
      WorkerComplete(registered, runId);
      RegisteredIsOneMore(db, registered, planId, inputs, runId);
      WithWorkerIsOneMore(db, registered, planId, inputs, runId);
      if planId in db.ledger.plan && db.ledger.plan[planId].ImagePlan? {
        RegisteredStartsRuns(db, registered, planId, inputs, runId);
      }
      WithWorkerIsIdle(registered, runId);
      WithWorkerSettled(registered, runId);
      IdleOrderly(registered, r.value);
      IdleAllRun(registered, r.value);
    }
  }

  /** The trigger is marked as looked at. */
  function Settle(db: Db, trigger: (string, int)): Db {
    db.(tables := db.tables.(nomination := db.tables.nomination[trigger := false]))
  }

  lemma SettledSchema(d: Tables, trigger: (string, int))
    requires SchemaOk(d) && trigger in d.nomination
    ensures SchemaOk(d.(nomination := d.nomination[trigger := false]))
  {
    hide Interned;
  }

  lemma SettledIsGood(db: Db, trigger: (string, int))
    requires Good(db) && trigger in db.tables.nomination
    ensures Good(Settle(db, trigger))
  {
    var d, d' := db.tables, Settle(db, trigger).tables;
    SettledSchema(d, trigger);
    hide SchemaOk, Exact, Matches, LedgerOk;
    LedgerIgnoresNomination(d, d', db.ledger);
    forall k, i
      ensures Nominated(d', k, i) <==> Matches(d', i, k)
    {
      ExactAt(d, k, i);
      MatchesIgnoresNomination(d, d', k, i);
    }
    ExactIf(d');
  }

  lemma ExactIf(d: Tables)
    requires SchemaOk(d) && forall k, i :: Nominated(d, k, i) <==> Matches(d, i, k)
    ensures Exact(d)
  {
  }

  /** A combination with the trigger is a choice from the basis; any other one was there before. */
  lemma CombinationAfter(db: Db, out: Db, planId: string, trigger: (string, int), basis: map<int, seq<string>>, q: string, inputs: map<int, string>)
    requires IsBasis(db, planId, trigger, basis) && trigger.1 in db.ledger.planOfInput && db.ledger.planOfInput[trigger.1] == planId
    requires out.ledger.planOfInput == db.ledger.planOfInput && out.tables.nomination == db.tables.nomination
    requires Combination(Settle(out, trigger), q, inputs)
    ensures Combination(db, q, inputs) || (q == planId && Chosen(basis, inputs))
  {
    var i0 := trigger.1;
    assert InputsOf(out.ledger, q) == InputsOf(db.ledger, q);
    if i0 in inputs && inputs[i0] == trigger.0 {
      forall i | i in inputs
        ensures inputs[i] in basis[i]
      {
        assert inputs[i] in Elems(basis[i]) by {
          if i != i0 {
            assert Settled(Settle(out, trigger).tables, inputs[i], i);
            assert Settled(db.tables, inputs[i], i);
          }
        }
      }
    } else {
      forall i | i in inputs
        ensures Settled(db.tables, inputs[i], i)
      {
        assert (inputs[i], i) != trigger;
        assert Settled(Settle(out, trigger).tables, inputs[i], i);
      }
    }
  }

  lemma RoundAllRun(db: Db, out: Db, planId: string, trigger: (string, int), basis: map<int, seq<string>>,
      patterns: seq<map<int, string>>, tuples: seq<map<int, nat>>)
    requires AllRun(db) && IsBasis(db, planId, trigger, basis) && Enumerates(basis, basis.Keys, patterns, tuples)
    requires trigger.1 in db.ledger.planOfInput && db.ledger.planOfInput[trigger.1] == planId
    requires Projected(db, out, planId, patterns, |patterns|)
    ensures AllRun(Settle(out, trigger))
  {
    var db' := Settle(out, trigger);
    assert db'.ledger == out.ledger && out.ledger.planOfInput == db.ledger.planOfInput;
    hide Combination, Settle, Known, Chosen, IsBasis, Enumerates, KeepsRuns;
    forall q, inputs | HasInputs(db'.ledger, q) && Combination(db', q, inputs)
      ensures Known(db'.ledger, q, inputs)
    {
      CombinationAfter(db, out, planId, trigger, basis, q, inputs);
      if Combination(db, q, inputs) {
        assert HasInputs(db.ledger, q);
        KnownStays(db.ledger, out.ledger, q, inputs);
      } else {
        ChosenIsListed(basis, patterns, tuples, inputs);
      }
    }
  }

  // ---- generated ids -----------------------------------------------------------------------------

  /** The ids that the round may draw: all different, and none in use. */
  ghost predicate FreshRuns(db: Db, runIds: nat -> string, names: nat -> nat -> string) {
    && (forall i: nat, j: nat :: runIds(i) == runIds(j) ==> i == j)
    && (forall i: nat :: runIds(i) !in db.tables.run && FreshNames(db, names(i)))
    && (forall i: nat, j: nat, a: nat, b: nat :: names(i)(a) == names(j)(b) ==> i == j)
  }

  /** The first `n` are used up. */
  ghost predicate Drawn(db: Db, out: Db, runIds: nat -> string, names: nat -> nat -> string, n: nat) {
    && out.ledger.garbage == db.ledger.garbage
    && (forall r :: r in out.tables.run ==> r in db.tables.run || exists i: nat :: i < n && runIds(i) == r)
    && (forall k :: k in out.tables.data ==> k in db.tables.data || exists i: nat, a: nat :: i < n && names(i)(a) == k)
  }

  lemma NothingDrawn(db: Db, runIds: nat -> string, names: nat -> nat -> string)
    ensures Drawn(db, db, runIds, names, 0)
  {
  }

  lemma DrawnNext(db: Db, out: Db, out': Db, runIds: nat -> string, names: nat -> nat -> string, n: nat)
    requires Drawn(db, out, runIds, names, n) && NamedBy(out, out', names(n)) && out'.tables.run.Keys <= out.tables.run.Keys + {runIds(n)}
    ensures Drawn(db, out', runIds, names, n + 1)
  {
    forall r | r in out'.tables.run && r !in db.tables.run
      ensures exists i: nat :: i < n + 1 && runIds(i) == r
    {
      if r in out.tables.run {
        var i: nat :| i < n && runIds(i) == r;
        assert i < n + 1;
      }
    }
    forall k | k in out'.tables.data && k !in db.tables.data
      ensures exists i: nat, a: nat :: i < n + 1 && names(i)(a) == k
    {
      if k in out.tables.data {
        var i: nat, a: nat :| i < n && names(i)(a) == k;
        assert i < n + 1;
      } else {
        var a: nat :| names(n)(a) == k;
        assert n < n + 1;
      }
    }
  }

  lemma StillFresh(db: Db, out: Db, runIds: nat -> string, names: nat -> nat -> string, n: nat)
    requires Drawn(db, out, runIds, names, n) && FreshRuns(db, runIds, names)
    ensures runIds(n) !in out.tables.run && FreshNames(out, names(n))
  {
    assert FreshNames(db, names(n));
    forall k, a: nat | k in out.tables.data && k !in db.tables.data
      ensures names(n)(a) != k
    {
      var i: nat, b: nat :| i < n && names(i)(b) == k;
    }
  }

  lemma ChosenFits(db: Db, out: Db, planId: string, trigger: (string, int), basis: map<int, seq<string>>, inputs: map<int, string>, runId: string)
    requires Good(db) && Good(out) && IsBasis(db, planId, trigger, basis) && trigger in db.tables.nomination && Chosen(basis, inputs)
    requires planId in db.ledger.plan && out.ledger.plan == db.ledger.plan && out.ledger.planOfInput == db.ledger.planOfInput
    requires out.tables.nomination == db.tables.nomination && runId !in out.tables.run
    ensures Fits(out, planId, inputs, runId)
  {
    NominatedAreData(out);
    hide Good;
    forall i | i in inputs
      ensures inputs[i] in out.tables.data
    {
      assert inputs[i] in Elems(basis[i]);
      if i == trigger.1 {
        assert (inputs[i], i) == trigger;
      } else {
        assert Settled(db.tables, inputs[i], i);
      }
    }
    assert InputsOf(out.ledger, planId) == InputsOf(db.ledger, planId);
  }

  lemma NominatedAreData(db: Db)
    requires Good(db)
    ensures forall p :: p in db.tables.nomination ==> p.0 in db.tables.data
  {
    hide Interned, Exact, LedgerOk;
  }

  // ---- the round ---------------------------------------------------------------------------------

  predicate Flagged(db: Db, p: (string, int)) {
    && p in db.tables.nomination && db.tables.nomination[p]
    && p.1 in db.ledger.planOfInput && db.ledger.planOfInput[p.1] in db.ledger.plan
    && db.ledger.plan[db.ledger.planOfInput[p.1]].ImagePlan?
  }

  /** A run that the round has brought uses the trigger, and what is settled for its other inputs. */
  ghost predicate RunOfRound(db: Db, db': Db, trigger: (string, int), r: string) {
    forall i :: i in db.ledger.planOfInput && trigger.1 in db.ledger.planOfInput && db.ledger.planOfInput[i] == db.ledger.planOfInput[trigger.1] ==>
      && (r, i) in db'.ledger.assign
      && if i == trigger.1 then db'.ledger.assign[(r, i)] == trigger.0 else Settled(db.tables, db'.ledger.assign[(r, i)], i)
  }

  lemma ListedRuns(db: Db, out: Db, planId: string, trigger: (string, int), basis: map<int, seq<string>>,
      patterns: seq<map<int, string>>, tuples: seq<map<int, nat>>, r: string)
    requires IsBasis(db, planId, trigger, basis) && Enumerates(basis, basis.Keys, patterns, tuples)
    requires trigger.1 in db.ledger.planOfInput && db.ledger.planOfInput[trigger.1] == planId
    requires RunOf(out.ledger, planId, patterns, r)
    ensures RunOfRound(db, Settle(out, trigger), trigger, r)
  {
    hide Enumerates;
    var inputs :| inputs in patterns && HasPattern(out.ledger, r, inputs);
    ChosenIsListed(basis, patterns, tuples, inputs);
    forall i | i in db.ledger.planOfInput && db.ledger.planOfInput[i] == planId
      ensures (r, i) in out.ledger.assign
      ensures if i == trigger.1 then out.ledger.assign[(r, i)] == trigger.0 else Settled(db.tables, out.ledger.assign[(r, i)], i)
    {
      assert i in inputs && inputs[i] in Elems(basis[i]);
    }
  }

  /** What one round leaves: the trigger is looked at, and all that is new are runs that use it. */
  ghost predicate Round(db: Db, db': Db, trigger: (string, int)) {
    && Flagged(db, trigger)
    && db'.tables.nomination == db.tables.nomination[trigger := false]
    && KeepsRuns(db.ledger, db'.ledger) && StartsRuns(db, db', db.ledger.planOfInput[trigger.1])
    && forall r :: r in db'.ledger.planOfRun && r !in db.ledger.planOfRun ==>
      db'.ledger.planOfRun[r] == db.ledger.planOfInput[trigger.1] && RunOfRound(db, db', trigger, r)
  }

  /** Main result: a round keeps every combination of pairs looked at run, each once. */
  method New(db: Db, runIds: nat -> string, names: nat -> nat -> string, volume: string -> string)
    returns (r: Result<Db, DbError>, ghost trigger: Option<(string, int)>)
    requires Good(db) && Orderly(db) && AllRun(db) && Stamped(db.tables)
    ensures r.Ok? ==> Good(r.value) && Orderly(r.value) && AllRun(r.value) && Stamped(r.value.tables)
    ensures r.Ok? && trigger.None? ==> r.value == db && forall p :: !Flagged(db, p)
    ensures r.Ok? && trigger.Some? ==> Round(db, r.value, trigger.value)
    ensures r.Ok? && Made(db) ==> Made(r.value)
    ensures r.Ok? && Complete(db) ==> Complete(r.value)
    ensures FreshRuns(db, runIds, names) ==> r.Ok?
  {
    hide Good, Orderly, AllRun, Stamped, Enumerates, IsBasis, Projected, OneRunMore, Settle, Round, Drawn, FreshRuns, FreshNames, NamedBy, Fits, Made, Complete, StartsRuns;
    if !exists p :: p in db.tables.nomination && Flagged(db, p) {
      return Ok(db), None;
    }
    var p :| p in db.tables.nomination && Flagged(db, p);
    var planId := db.ledger.planOfInput[p.1];
    trigger := Some(p);
    var basis := Basis(db, planId, p);
    BasisIsNotEmpty(db, planId, p, basis);
    var patterns, tuples := MapCartesian(basis);
    var out := db;
    NothingProjected(db, planId, patterns);
    NothingDrawn(db, runIds, names);
    for j := 0 to |patterns|
      invariant Good(out) && Orderly(out) && AllRun(out) && Stamped(out.tables) && (Made(db) ==> Made(out)) && (Complete(db) ==> Complete(out))
      invariant Projected(db, out, planId, patterns, j) && Drawn(db, out, runIds, names, j)
    {
      if FreshRuns(db, runIds, names) {
        PatternFits(db, out, planId, p, basis, patterns, tuples, j, runIds, names);
      }
      ProjectedPlans(db, out, planId, patterns, j);
      var next := ProjectOne(out, planId, patterns[j], runIds(j), names(j), volume);
      if next.Err? {
        r := next;
        return;
      }
      ProjectedNext(db, out, next.value, planId, patterns, j, runIds(j));
      DrawnNext(db, out, next.value, runIds, names, j);
      out := next.value;
    }
    SameNominations(db, out, planId, patterns);
    SettledIsGood(out, p);
    SettledOrderly(out, p);
    SettledStamped(out, p);
    SettledMade(out, p);
    SettledComplete(out, p);
    RoundAllRun(db, out, planId, p, basis, patterns, tuples);
    RoundOf(db, out, planId, p, basis, patterns, tuples);
    r := Ok(Settle(out, p));
  }

  lemma PatternFits(db: Db, out: Db, planId: string, trigger: (string, int), basis: map<int, seq<string>>,
      patterns: seq<map<int, string>>, tuples: seq<map<int, nat>>, n: nat, runIds: nat -> string, names: nat -> nat -> string)
    requires Good(db) && Good(out) && IsBasis(db, planId, trigger, basis) && Flagged(db, trigger) && planId in db.ledger.plan
    requires Enumerates(basis, basis.Keys, patterns, tuples) && n < |patterns|
    requires Projected(db, out, planId, patterns, n) && Drawn(db, out, runIds, names, n) && FreshRuns(db, runIds, names)
    ensures FreshNames(out, names(n)) && Fits(out, planId, patterns[n], runIds(n))
  {
    hide Good, IsBasis, Enumerates, Drawn, FreshRuns, FreshNames, Fits, Known, Chosen;
    StillFresh(db, out, runIds, names, n);
    assert patterns[n] in patterns;
    ChosenIsListed(basis, patterns, tuples, patterns[n]);
    ChosenFits(db, out, planId, trigger, basis, patterns[n], runIds(n));
  }

  lemma BasisIsNotEmpty(db: Db, planId: string, trigger: (string, int), basis: map<int, seq<string>>)
    requires IsBasis(db, planId, trigger, basis) && trigger.1 in db.ledger.planOfInput && db.ledger.planOfInput[trigger.1] == planId
    ensures basis != map[]
  {
    assert trigger.1 in InputsOf(db.ledger, planId);
  }

  lemma SameNominations(db: Db, out: Db, planId: string, patterns: seq<map<int, string>>)
    requires Projected(db, out, planId, patterns, |patterns|)
    ensures out.tables.nomination == db.tables.nomination
  {
    hide Known, KeepsRuns;
  }

  lemma SettledOrderly(db: Db, trigger: (string, int))
    requires Orderly(db)
    ensures Orderly(Settle(db, trigger))
  {
    assert Idle(db, Settle(db, trigger));
    hide Orderly, Idle, Settle;
    IdleOrderly(db, Settle(db, trigger));
  }

  lemma SettledStamped(db: Db, trigger: (string, int))
    requires Stamped(db.tables)
    ensures Stamped(Settle(db, trigger).tables)
  {
  }

  lemma SettledMade(db: Db, trigger: (string, int))
    ensures Made(db) ==> Made(Settle(db, trigger))
  {
    hide Made;
    if Made(db) {
      MadeKept(db, Settle(db, trigger));
    }
  }

  lemma SettledComplete(db: Db, trigger: (string, int))
    ensures Complete(db) ==> Complete(Settle(db, trigger))
  {
    hide Complete;
    if Complete(db) {
      CompleteKept(db, Settle(db, trigger), {});
    }
  }

  lemma WorkerComplete(db: Db, runId: string)
    ensures Complete(db) ==> Complete(WithWorker(db, runId))
  {
    hide Complete;
    if Complete(db) {
      CompleteKept(db, WithWorker(db, runId), {});
    }
  }

  lemma RoundOf(db: Db, out: Db, planId: string, trigger: (string, int), basis: map<int, seq<string>>,
      patterns: seq<map<int, string>>, tuples: seq<map<int, nat>>)
    requires Flagged(db, trigger) && db.ledger.planOfInput[trigger.1] == planId
    requires IsBasis(db, planId, trigger, basis) && Enumerates(basis, basis.Keys, patterns, tuples)
    requires Projected(db, out, planId, patterns, |patterns|)
    ensures Round(db, Settle(out, trigger), trigger)
  {
    assert StartsRuns(db, Settle(out, trigger), planId);
    hide IsBasis, Enumerates, RunOfRound, KeepsRuns, Known, StartsRuns;
    forall r | r in out.ledger.planOfRun && r !in db.ledger.planOfRun
      ensures out.ledger.planOfRun[r] == planId && RunOfRound(db, Settle(out, trigger), trigger, r)
    {
      ListedRuns(db, out, planId, trigger, basis, patterns, tuples, r);
    }
    assert KeepsRuns(db.ledger, Settle(out, trigger).ledger);
  }

  // ---- what the loop is for ----------------------------------------------------------------------

  ghost predicate IsRunOf(x: Ledger, planId: string, inputs: map<int, string>, r: string) {
    r in x.planOfRun && x.planOfRun[r] == planId && HasPattern(x, r, inputs)
  }

  lemma SamePatternSameRun(x: Ledger, planId: string, inputs: map<int, string>, r: string, s: string)
    requires OncePerPattern(x) && HasInputs(x, planId) && inputs.Keys == InputsOf(x, planId)
    requires IsRunOf(x, planId, inputs, r) && IsRunOf(x, planId, inputs, s)
    ensures r == s
  {
    forall i | (r, i) in x.assign && (s, i) in x.assign
      ensures x.assign[(r, i)] == x.assign[(s, i)]
    {
      assert i in InputsOf(x, planId);
    }
    assert r != s ==> SiblingRuns(x, r, s);
  }

  /** Main result: once no pair of a plan is flagged any more, every choice of done data that carry what its
      inputs require has exactly one run. */
  lemma EveryCombinationHasOneRun(db: Db, planId: string, inputs: map<int, string>)
    requires Good(db) && Orderly(db) && AllRun(db)
    requires HasInputs(db.ledger, planId) && inputs.Keys == InputsOf(db.ledger, planId)
    requires SchemaOk(db.tables) && forall i :: i in inputs ==> Matches(db.tables, i, inputs[i])
    requires forall p :: p in db.tables.nomination && p.1 in inputs ==> !db.tables.nomination[p]
    ensures exists r :: IsRunOf(db.ledger, planId, inputs, r)
    ensures forall r, s :: IsRunOf(db.ledger, planId, inputs, r) && IsRunOf(db.ledger, planId, inputs, s) ==> r == s
  {
    hide SchemaOk, LedgerOk, Matches, Interned, Acyclic, LineageAcyclic, OncePerPattern, HasPattern, HasInputs;
    forall i | i in inputs
      ensures Settled(db.tables, inputs[i], i)
    {
      ExactAt(db.tables, inputs[i], i);
    }
    assert Combination(db, planId, inputs) && Known(db.ledger, planId, inputs);
    var r :| r in db.ledger.planOfRun && db.ledger.planOfRun[r] == planId && HasPattern(db.ledger, r, inputs);
    assert IsRunOf(db.ledger, planId, inputs, r);
    forall r, s | IsRunOf(db.ledger, planId, inputs, r) && IsRunOf(db.ledger, planId, inputs, s)
      ensures r == s
    {
      SamePatternSameRun(db.ledger, planId, inputs, r, s);
    }
  }
}
