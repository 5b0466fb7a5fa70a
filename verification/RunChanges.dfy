/** Transactions that bring, change, delete and restart runs, pkg/domain/run/db/postgres/run.go and
    pkg/domain/plan/db/postgres/plan.go. Each method is what its transaction leaves if it commits. */
module RunChanges {
  import opened Results
  import opened TagStore
  import opened Nomination
  import opened Upkeep
  import opened Ledgers
  import opened Runs
  import opened RunOutputs

  // ---- status changes ----------------------------------------------------------------------------

  function WithStatus(db: Db, runId: string, status: Status): Db {
    db.(tables := db.tables.(run := db.tables.run[runId := status]))
  }

  lemma OneUndone(db: Db, runId: string, status: Status)
    requires runId in db.tables.run && db.tables.run[runId] != Done && status != Done && status != Invalidated
    ensures Undone(db.tables, db.tables.run[runId := status])
  {
  }

  /** `setStatus`: what is over does not change, finishing goes through `finish`, and everything else is
      looked up in the table of transitions. */
  method SetStatus(db: Db, runId: string, next: Status, now: int) returns (r: Result<Db, DbError>)
    requires Good(db)
    ensures r.Ok? ==> Good(r.value)
    ensures runId !in db.tables.run ==> r == Err(Missing)
    ensures runId in db.tables.run ==> var current := db.tables.run[runId];
      && (current in {Invalidated, Done, Failed} ==> r == Err(InvalidRunStateChanging))
      && (current !in {Invalidated, Done, Failed} && current == next ==> r == Ok(db))
      && (Settles(current, next) ==> (r.Ok? <==> DataOfRun(db.tables, runId) !! db.tables.knitTimestamp.Keys))
      && (Settles(current, next) && r.Ok? ==> Finished(db, r.value, runId, now))
      && (Allowed(current, next) && current != next ==> r == Ok(WithStatus(db, runId, next)))
      && (r.Ok? ==> current == next || Allowed(current, next) || Settles(current, next))
  {
    hide Good, Finished, Undone;
    if runId !in db.tables.run {
      return Err(Missing);
    }
    var current := db.tables.run[runId];
    if current == Invalidated || current == Done || current == Failed {
      return Err(InvalidRunStateChanging);
    }
    if current == next {
      return Ok(db);
    }
    if Settles(current, next) {
      r := Finish(db, runId, now);
      return;
    }
    if !Allowed(current, next) {
      return Err(InvalidRunStateChanging);
    }
    OneUndone(db, runId, next);
    UndoneStatuses(db, db.tables.run[runId := next]);
    return Ok(WithStatus(db, runId, next));
  }

  /** The transitions that `setStatus` hands over to `finish`. */
  predicate Settles(current: Status, next: Status) {
    (current == Aborting && next == Failed) || (current == Completing && next == Done)
  }

  /** Waiting runs of the plan are deactivated, or the other way round. */
  function Reactivated(db: Db, planId: string, activenessToBe: bool): (run: map<string, Status>)
    ensures run.Keys == db.tables.run.Keys
  {
    var before, after := if activenessToBe then Deactivated else Waiting, if activenessToBe then Waiting else Deactivated;
    map r | r in db.tables.run ::
      if r in db.ledger.planOfRun && db.ledger.planOfRun[r] == planId && db.tables.run[r] == before then after else db.tables.run[r]
  }

  lemma ReactivatedUndone(db: Db, planId: string, activenessToBe: bool)
    ensures Undone(db.tables, Reactivated(db, planId, activenessToBe))
  {
  }

  /** Switching a plan on lets its held back runs wait, switching it off holds its waiting runs back, and no
      other run changes. */
  lemma ReactivatedMeans(db: Db, planId: string, activenessToBe: bool, r: string)
    requires r in db.tables.run
    ensures var before, after := db.tables.run[r], Reactivated(db, planId, activenessToBe)[r];
      if (r, planId) !in db.ledger.planOfRun.Items || (before != Deactivated && before != Waiting) then after == before
      else after == (if activenessToBe then Waiting else Deactivated) && (Allowed(after, Ready) <==> activenessToBe)
  {
  }

  /** `activate`: only plans with an image can be switched. */
  method Activate(db: Db, planId: string, activenessToBe: bool) returns (r: Result<Db, DbError>)
    requires Good(db)
    ensures r.Ok? <==> planId in db.ledger.plan && db.ledger.plan[planId].ImagePlan?
    ensures r.Ok? ==> Good(r.value)
    ensures r.Ok? ==> r.value == Db(db.tables.(run := Reactivated(db, planId, activenessToBe)),
                                    db.ledger.(plan := db.ledger.plan[planId := ImagePlan(activenessToBe)]))
  {
    hide Good, Reactivated, Undone;
    if planId !in db.ledger.plan || db.ledger.plan[planId].PseudoPlan? {
      return Err(Missing);
    }
    ReactivatedUndone(db, planId, activenessToBe);
    UndoneStatuses(db, Reactivated(db, planId, activenessToBe));
    var settled := db.(tables := db.tables.(run := Reactivated(db, planId, activenessToBe)));
    PlanSet(settled, planId, ImagePlan(activenessToBe));
    return Ok(settled.(ledger := settled.ledger.(plan := settled.ledger.plan[planId := ImagePlan(activenessToBe)])));
  }

  // ---- registration ------------------------------------------------------------------------------

  /** "status_select" */
  function InitialStatus(plan: Plan): Status {
    if plan.PseudoPlan? then Running else if plan.active then Waiting else Deactivated
  }

  function WithRun(db: Db, runId: string, planId: string, status: Status): Db {
    Db(db.tables.(run := db.tables.run[runId := status]), db.ledger.(planOfRun := db.ledger.planOfRun[runId := planId]))
  }

  lemma RunAddedRefs(db: Db, runId: string, planId: string, status: Status)
    requires Refs(db.tables, db.ledger) && planId in db.ledger.plan
    ensures Refs(WithRun(db, runId, planId, status).tables, WithRun(db, runId, planId, status).ledger)
  {
  }

  lemma RunAddedInvalidated(db: Db, runId: string, planId: string, status: Status)
    requires InvalidatedAreEmpty(db.tables, db.ledger) && status != Invalidated
    ensures InvalidatedAreEmpty(WithRun(db, runId, planId, status).tables, WithRun(db, runId, planId, status).ledger)
  {
  }

  lemma RunAddedSame(d: Tables, runId: string, status: Status, k: string, i: int)
    requires SchemaOk(d) && SchemaOk(d.(run := d.run[runId := status])) && runId !in d.run
    ensures SameData(d, d.(run := d.run[runId := status]), k) && SameInput(d, d.(run := d.run[runId := status]), i)
  {
    DataHaveRuns(d);
    hide SchemaOk, UserTags, InputTags;
  }

  lemma RunAdded(db: Db, runId: string, planId: string, status: Status)
    requires Good(db) && runId !in db.tables.run && planId in db.ledger.plan && status != Invalidated
    ensures Good(WithRun(db, runId, planId, status))
  {
    var d, d' := db.tables, db.tables.(run := db.tables.run[runId := status]);
    DataHaveRuns(d);
    SchemaIfRuns(d, d'.run);
    hide SchemaOk, Refs, InvalidatedAreEmpty, Exact, SameData, SameInput;
    RunAddedRefs(db, runId, planId, status);
    RunAddedInvalidated(db, runId, planId, status);
    forall k, i
      ensures SameData(d, d', k) && SameInput(d, d', i)
    {
      RunAddedSame(d, runId, status, k, i);
    }
    ExactIfSame(d, d');
  }

  function Assigned(inputs: map<int, string>, runId: string): map<(string, int), string> {
    map i | i in inputs :: (runId, i) := inputs[i]
  }

  lemma AssignmentsAdded(db: Db, inputs: map<int, string>, runId: string)
    requires Good(db) && runId in db.tables.run && inputs.Keys <= db.tables.input && inputs.Values <= db.tables.data.Keys
    ensures Good(db.(ledger := db.ledger.(assign := db.ledger.assign + Assigned(inputs, runId))))
  {
    hide SchemaOk, Exact, AssignRefs, Assigned, RunRefs, MountRefs, DataRefs, InvalidatedAreEmpty;
    AssignRefsAdded(db.tables, db.ledger, inputs, runId);
    AssignSet(db, db.ledger.assign + Assigned(inputs, runId));
  }

  lemma AssignSet(db: Db, assign: map<(string, int), string>)
    requires Good(db) && AssignRefs(db.tables, db.ledger.(assign := assign))
    ensures Good(db.(ledger := db.ledger.(assign := assign)))
  {
    hide SchemaOk, Exact, AssignRefs;
  }

  lemma AssignRefsAdded(d: Tables, x: Ledger, inputs: map<int, string>, runId: string)
    requires AssignRefs(d, x) && runId in d.run && inputs.Keys <= d.input && inputs.Values <= d.data.Keys
    ensures AssignRefs(d, x.(assign := x.assign + Assigned(inputs, runId)))
  {
  }

  /** The inputs of the plan. */
  function InputsOf(x: Ledger, planId: string): set<int> {
    set i | i in x.planOfInput && x.planOfInput[i] == planId
  }

  lemma InputsAreInputs(db: Db, planId: string)
    requires Good(db)
    ensures InputsOf(db.ledger, planId) <= db.tables.input
  {
    hide SchemaOk, Exact;
  }

  /** The run and its assignments, before its data come. */
  function Started(db: Db, planId: string, inputs: map<int, string>, runId: string, status: Status): Db {
    var started := WithRun(db, runId, planId, status);
    started.(ledger := started.ledger.(assign := started.ledger.assign + Assigned(inputs, runId)))
  }

  /** What `register` leaves: a run with its assignments, and with data for all outputs. */
  ghost predicate Registered(before: Db, after: Db, planId: string, inputs: map<int, string>, runId: string) {
    && planId in before.ledger.plan && runId !in before.tables.run && inputs.Keys == InputsOf(before.ledger, planId)
    && inputs.Values <= before.tables.data.Keys
    && runId in after.ledger.planOfRun && MissingOutputs(after, runId) == {}
    && Interned(before.tables.tags) && Interned(after.tables.tags)
    && Grown(Started(before, planId, inputs, runId, InitialStatus(before.ledger.plan[planId])), after, runId)
  }

  /** `register`: references and keys are checked by the tables; then no input may be left empty. */
  method Register(db: Db, planId: string, inputs: map<int, string>, runId: string, names: nat -> string, volume: string -> string)
    returns (r: Result<Db, DbError>)
    requires Good(db)
    ensures r.Ok? ==> Good(r.value) && Registered(db, r.value, planId, inputs, runId)
    ensures r.Ok? ==> NamedBy(db, r.value, names) && r.value.tables.run.Keys == db.tables.run.Keys + {runId}
    ensures r.Ok? && Made(db) ==> Made(r.value)
    ensures FreshNames(db, names) ==> (r.Ok? <==> Fits(db, planId, inputs, runId))
    ensures planId !in db.ledger.plan ==> r == Err(Missing)
    ensures r == Err(EmptyInput) <==>
      && planId in db.ledger.plan && runId !in db.tables.run
      && inputs.Keys < InputsOf(db.ledger, planId) && inputs.Values <= db.tables.data.Keys
  {
    hide Good, Midway, Grown, Interned, MissingOutputs, Started, FreshNames, NamedBy, Made;
    if planId !in db.ledger.plan {
      return Err(Missing);
    }
    if runId in db.tables.run || !(inputs.Keys <= InputsOf(db.ledger, planId)) || !(inputs.Values <= db.tables.data.Keys) {
      return Err(Conflict);
    }
    if inputs.Keys != InputsOf(db.ledger, planId) {
      return Err(EmptyInput);
    }
    var status := InitialStatus(db.ledger.plan[planId]);
    var filled := Started(db, planId, inputs, runId, status);
    StartedIsGood(db, planId, inputs, runId, status);
    r := ComplementData(filled, runId, names, volume);
    SameNames(db, filled, names);
    if r.Ok? {
      RunStarts(filled, r.value, runId, status);
      SameNamed(db, filled, r.value, names);
      GrownRuns(filled, r.value, runId);
    }
  }

  lemma StartedIsGood(db: Db, planId: string, inputs: map<int, string>, runId: string, status: Status)
    requires Good(db) && Fits(db, planId, inputs, runId) && status != Done && status != Invalidated
    ensures var filled := Started(db, planId, inputs, runId, status);
      && Good(filled) && Midway(filled, runId) && Interned(db.tables.tags) && Interned(filled.tables.tags)
      && filled.tables == db.tables.(run := db.tables.run[runId := status]) && filled.ledger.garbage == db.ledger.garbage
      && (Made(db) ==> Made(filled))
  {
    hide Good, Midway, Interned, WithRun, Assigned, Made;
    var started, filled := WithRun(db, runId, planId, status), Started(db, planId, inputs, runId, status);
    RunAdded(db, runId, planId, status);
    WithRunMeans(db, runId, planId, status);
    InputsAreInputs(db, planId);
    AssignmentsAdded(started, inputs, runId);
    GoodIsMidway(filled, runId);
    if Made(db) {
      StartedMade(db, filled, runId);
    }
  }

  lemma StartedMade(db: Db, filled: Db, runId: string)
    requires Good(db) && Made(db) && runId !in db.tables.run
    requires filled.tables.data == db.tables.data && filled.ledger.outputOfData == db.ledger.outputOfData
    requires filled.ledger.planOfOutput == db.ledger.planOfOutput
    requires runId in filled.ledger.planOfRun && filled.ledger.planOfRun == db.ledger.planOfRun[runId := filled.ledger.planOfRun[runId]]
    ensures Made(filled)
  {
    hide Good, Made;
    RunsOfData(db);
    MadeKept(db, filled);
  }

  lemma RunsOfData(db: Db)
    requires Good(db)
    ensures forall k :: k in db.tables.data ==> db.tables.data[k] in db.tables.run
  {
    hide Interned, Exact, LedgerOk;
  }

  /** The references and keys of a run and its assignments are right. */
  predicate Fits(db: Db, planId: string, inputs: map<int, string>, runId: string) {
    && planId in db.ledger.plan && runId !in db.tables.run
    && inputs.Keys == InputsOf(db.ledger, planId) && inputs.Values <= db.tables.data.Keys
  }

  lemma SameNames(db: Db, filled: Db, names: nat -> string)
    requires filled.tables.data == db.tables.data && filled.ledger.garbage == db.ledger.garbage
    ensures FreshNames(filled, names) <==> FreshNames(db, names)
  {
  }

  lemma SameNamed(db: Db, filled: Db, after: Db, names: nat -> string)
    requires filled.tables.data == db.tables.data && filled.ledger.garbage == db.ledger.garbage
    ensures NamedBy(filled, after, names) <==> NamedBy(db, after, names)
  {
  }

  lemma GrownRuns(before: Db, after: Db, runId: string)
    requires Interned(before.tables.tags) && Interned(after.tables.tags) && Grown(before, after, runId)
    ensures after.tables.run == before.tables.run
  {
    hide Interned, SameMounts, KeptData, KeptOutput, NewData;
  }

  lemma WithRunMeans(db: Db, runId: string, planId: string, status: Status)
    requires Good(db)
    ensures Interned(db.tables.tags) && Interned(WithRun(db, runId, planId, status).tables.tags)
    ensures WithRun(db, runId, planId, status).tables == db.tables.(run := db.tables.run[runId := status])
    ensures WithRun(db, runId, planId, status).ledger == db.ledger.(planOfRun := db.ledger.planOfRun[runId := planId])
  {
  }

  /** The run has the status that it was registered with. */
  lemma RunStarts(before: Db, after: Db, runId: string, status: Status)
    requires Good(before) && Midway(after, runId) && Interned(before.tables.tags) && Interned(after.tables.tags) && Grown(before, after, runId)
    requires runId in before.tables.run && before.tables.run[runId] == status && status != Done && status != Invalidated
    ensures Good(after)
  {
    assert OnlyData(before, after);
    hide Good, Midway, Grown, Interned;
    GrownIsGood(before, after, runId, status);
    assert WithStatus(after, runId, status) == after;
  }

  /** `NewPseudo`: a run of a plan that the system defines starts without inputs. */
  method NewPseudo(db: Db, planId: string, runId: string, names: nat -> string, volume: string -> string) returns (r: Result<Db, DbError>)
    requires Good(db)
    ensures r.Ok? ==> Good(r.value) && Registered(db, r.value, planId, map[], runId) && db.ledger.plan[planId].PseudoPlan?
    ensures planId !in db.ledger.plan || !db.ledger.plan[planId].PseudoPlan? ==> r == Err(Missing)
    ensures r.Ok? ==> NamedBy(db, r.value, names) && (Made(db) ==> Made(r.value))
    ensures FreshNames(db, names) ==> (r.Ok? <==> Fits(db, planId, map[], runId) && db.ledger.plan[planId].PseudoPlan?)
  {
    hide Good, Registered, FreshNames, NamedBy, Made;
    if planId !in db.ledger.plan || !db.ledger.plan[planId].PseudoPlan? {
      return Err(Missing);
    }
    r := Register(db, planId, map[], runId, names, volume);
  }

  // ---- workers -----------------------------------------------------------------------------------

  /** `setWorker`: only runs of plans with an image have workers. */
  function WithWorker(db: Db, runId: string): Db {
    if runId in db.ledger.planOfRun && db.ledger.planOfRun[runId] in db.ledger.plan && db.ledger.plan[db.ledger.planOfRun[runId]].ImagePlan?
    then db.(ledger := db.ledger.(worker := db.ledger.worker + {runId}))
    else db
  }

  lemma WorkerSet(db: Db, runId: string)
    requires Good(db) && (runId in db.tables.run ==> db.tables.run[runId] != Invalidated)
    ensures Good(WithWorker(db, runId))
  {
    hide SchemaOk, Exact;
  }

  /** The run pattern of `project` for one combination of nominated data: a plan's run is registered with
      a worker, unless a run has the same assignments already. */
  method Project(db: Db, planId: string, inputs: map<int, string>, runId: string, names: nat -> string, volume: string -> string)
    returns (r: Result<Db, DbError>)
    requires Good(db)
    ensures r.Ok? ==> Good(r.value)
    ensures Known(db.ledger, planId, inputs) ==> r == Ok(db)
    ensures r.Ok? && !Known(db.ledger, planId, inputs) ==>
      exists registered :: Registered(db, registered, planId, inputs, runId) && r.value == WithWorker(registered, runId)
    ensures r.Ok? ==> NamedBy(db, r.value, names) && r.value.tables.run.Keys <= db.tables.run.Keys + {runId}
    ensures r.Ok? && Made(db) ==> Made(r.value)
    ensures FreshNames(db, names) && Fits(db, planId, inputs, runId) ==> r.Ok?
  {
    hide Good, Registered, WithWorker, Known, FreshNames, NamedBy, Made;
    if Known(db.ledger, planId, inputs) {
      NoNewNames(db, names);
      return Ok(db);
    }
    r := Register(db, planId, inputs, runId, names, volume);
    if r.Ok? {
      RegisteredIsLive(db, r.value, planId, inputs, runId);
      WorkerSet(r.value, runId);
      WorkerNamed(db, r.value, runId, names);
      r := Ok(WithWorker(r.value, runId));
    }
  }

  lemma NoNewNames(db: Db, names: nat -> string)
    ensures NamedBy(db, db, names)
  {
  }

  lemma WorkerNamed(db: Db, after: Db, runId: string, names: nat -> string)
    requires NamedBy(db, after, names)
    ensures NamedBy(db, WithWorker(after, runId), names) && WithWorker(after, runId).tables == after.tables
    ensures Made(after) ==> Made(WithWorker(after, runId))
  {
    if Made(after) {
      WorkerMade(after, runId);
    }
  }

  lemma WorkerMade(db: Db, runId: string)
    requires Made(db)
    ensures Made(WithWorker(db, runId))
  {
    MadeKept(db, WithWorker(db, runId));
  }

  /** "known": some run of the plan has at least these assignments. */
  predicate Known(x: Ledger, planId: string, inputs: map<int, string>) {
    exists r :: r in x.planOfRun && x.planOfRun[r] == planId && HasPattern(x, r, inputs)
  }

  predicate HasPattern(x: Ledger, runId: string, inputs: map<int, string>) {
    forall i :: i in inputs ==> (runId, i) in x.assign && x.assign[(runId, i)] == inputs[i]
  }

  lemma RegisteredIsLive(before: Db, after: Db, planId: string, inputs: map<int, string>, runId: string)
    requires Registered(before, after, planId, inputs, runId)
    ensures runId in after.tables.run && after.tables.run[runId] == InitialStatus(before.ledger.plan[planId])
  {
    hide Interned, SameMounts, KeptData, KeptOutput, NewData, MissingOutputs;
  }

  lemma RegisteredMeans(db: Db, db': Db, planId: string, inputs: map<int, string>, runId: string)
    requires Registered(db, db', planId, inputs, runId)
    ensures planId in db.ledger.plan && runId !in db.tables.run
    ensures db'.tables == db.tables.(run := db.tables.run[runId := InitialStatus(db.ledger.plan[planId])], data := db'.tables.data, tags := db'.tables.tags)
    ensures db'.ledger.plan == db.ledger.plan && db'.ledger.planOfRun == db.ledger.planOfRun[runId := planId]
    ensures db'.ledger.planOfInput == db.ledger.planOfInput && db'.ledger.planOfOutput == db.ledger.planOfOutput
    ensures db'.ledger.inputSerial == db.ledger.inputSerial && db'.ledger.worker == db.ledger.worker
    ensures MissingOutputs(db', runId) == {}
  {
    hide Interned, SameMounts, KeptData, KeptOutput, NewData, MissingOutputs, Assigned;
  }

  lemma RegisteredKeepsData(db: Db, db': Db, planId: string, inputs: map<int, string>, runId: string, k: string)
    requires Registered(db, db', planId, inputs, runId) && k in db.tables.data
    ensures k in db'.tables.data && db'.tables.data[k] == db.tables.data[k]
  {
    var started := Started(db, planId, inputs, runId, InitialStatus(db.ledger.plan[planId]));
    assert started.tables.data == db.tables.data;
    hide Interned, SameMounts, OnlyData, KeptOutput, NewData, MissingOutputs, Assigned, Started, UserTags;
    assert KeptData(started, db', k);
  }

  /** A new run of a plan with an image can be scheduled if the plan is active, and else once the plan has been
      activated. The system's own runs go on by themselves. */
  lemma RegisteredStarts(before: Db, after: Db, planId: string, inputs: map<int, string>, runId: string)
    requires Registered(before, after, planId, inputs, runId)
    ensures runId in after.tables.run && runId in after.ledger.planOfRun && after.ledger.planOfRun[runId] == planId
    ensures var status := after.tables.run[runId];
      match before.ledger.plan[planId]
      case PseudoPlan => status == Running
      case ImagePlan(active) =>
        && status == (if active then Waiting else Deactivated)
        && (Allowed(status, Ready) <==> active)
        && Allowed(Reactivated(after, planId, true)[runId], Ready)
  {
    hide Interned, SameMounts, KeptData, KeptOutput, NewData, MissingOutputs;
  }

  /** `DeleteWorker` */
  lemma WorkerDeleted(db: Db, runId: string)
    requires Good(db)
    ensures Good(db.(ledger := db.ledger.(worker := db.ledger.worker - {runId})))
  {
    hide SchemaOk, Exact;
  }

  lemma AgentAdded(db: Db, name: string, knitId: string)
    requires Good(db) && knitId in db.tables.data
    ensures Good(db.(ledger := db.ledger.(dataAgent := db.ledger.dataAgent[name := knitId])))
  {
    hide SchemaOk, Exact;
  }

  lemma AgentRemoved(db: Db, name: string)
    requires Good(db)
    ensures Good(db.(ledger := db.ledger.(dataAgent := db.ledger.dataAgent - {name})))
  {
    hide SchemaOk, Exact;
  }

  lemma GarbageRemoved(db: Db, knitId: string)
    requires Good(db)
    ensures Good(db.(ledger := db.ledger.(garbage := db.ledger.garbage - {knitId})))
  {
    hide SchemaOk, Exact;
  }

  // ---- delete ------------------------------------------------------------------------------------

  /** Nothing is left of the run but its row and its assignments. */
  predicate Bare(db: Db, runId: string) {
    runId in db.tables.run && DataOfRun(db.tables, runId) == {} && runId !in db.ledger.worker
  }

  lemma BareHasNoData(db: Db, runId: string)
    requires Bare(db, runId)
    ensures forall k :: k in db.tables.data ==> db.tables.data[k] != runId
  {
    assert forall k :: k in DataOfRun(db.tables, runId) <==> k in db.tables.data && db.tables.data[k] == runId;
  }

  /** Rows of a bare run may go, and its status may become anything. */
  lemma BareRunExact(d: Tables, run: map<string, Status>, runId: string)
    requires SchemaOk(d) && Exact(d) && SchemaOk(d.(run := run))
    requires forall k :: k in d.data ==> d.data[k] != runId
    requires run == d.run - {runId} || (runId in run && run == d.run[runId := run[runId]])
    ensures Exact(d.(run := run))
  {
    var d' := d.(run := run);
    DataHaveRuns(d);
    hide SchemaOk, Exact, SameData, SameInput;
    forall k, i
      ensures SameData(d, d', k) && SameInput(d, d', i)
    {
      BareRunSame(d, run, runId, k, i);
    }
    ExactIfSame(d, d');
  }

  lemma BareRunSame(d: Tables, run: map<string, Status>, runId: string, k: string, i: int)
    requires SchemaOk(d) && SchemaOk(d.(run := run))
    requires forall x :: x in d.data ==> d.data[x] != runId
    requires run == d.run - {runId} || (runId in run && run == d.run[runId := run[runId]])
    ensures SameData(d, d.(run := run), k) && SameInput(d, d.(run := run), i)
  {
    DataHaveRuns(d);
    hide SchemaOk, UserTags, InputTags;
  }

  lemma BareInvalidated(db: Db, runId: string)
    requires Good(db) && Bare(db, runId)
    ensures Good(WithStatus(db, runId, Invalidated))
  {
    var run := db.tables.run[runId := Invalidated];
    BareHasNoData(db, runId);
    DataHaveRuns(db.tables);
    SchemaIfRuns(db.tables, run);
    hide SchemaOk, Exact, Refs, InvalidatedAreEmpty;
    BareRunExact(db.tables, run, runId);
    StatusKeepsRefs(db.tables, db.ledger, runId, Invalidated);
    BareStaysEmpty(db, runId);
  }

  lemma BareStaysEmpty(db: Db, runId: string)
    requires InvalidatedAreEmpty(db.tables, db.ledger) && Bare(db, runId)
    ensures InvalidatedAreEmpty(WithStatus(db, runId, Invalidated).tables, db.ledger)
  {
    BareHasNoData(db, runId);
  }

  function WithoutRun(db: Db, runId: string): Db {
    Db(db.tables.(run := db.tables.run - {runId}), db.ledger.(planOfRun := db.ledger.planOfRun - {runId}))
  }

  lemma RowRefs(db: Db, runId: string)
    requires Refs(db.tables, db.ledger) && Bare(db, runId) && forall a :: a in db.ledger.assign ==> a.0 != runId
    ensures Refs(WithoutRun(db, runId).tables, WithoutRun(db, runId).ledger)
  {
  }

  lemma RowInvalidated(db: Db, runId: string)
    requires InvalidatedAreEmpty(db.tables, db.ledger)
    ensures InvalidatedAreEmpty(WithoutRun(db, runId).tables, WithoutRun(db, runId).ledger)
  {
  }

  lemma BareRemoved(db: Db, runId: string)
    requires Good(db) && Bare(db, runId) && forall a :: a in db.ledger.assign ==> a.0 != runId
    ensures Good(WithoutRun(db, runId))
  {
    var run := db.tables.run - {runId};
    BareHasNoData(db, runId);
    DataHaveRuns(db.tables);
    SchemaIfRuns(db.tables, run);
    hide SchemaOk, Exact, Refs, InvalidatedAreEmpty, Bare;
    RowRefs(db, runId);
    BareRunExact(db.tables, run, runId);
    RowInvalidated(db, runId);
  }

  lemma TruncatedIsBare(db: Db, runId: string)
    requires Good(db) && runId in db.tables.run && !InUse(db, runId)
    ensures Bare(Truncated(db, runId), runId) && Truncated(db, runId).tables.run[runId] == db.tables.run[runId]
    ensures Truncated(db, runId).ledger.plan == db.ledger.plan
  {
    hide SchemaOk, Exact, Refs;
    forall k | k in DataOfRun(db.tables, runId)
      ensures db.tables.run[runId] != Invalidated
    {
    }
  }

  predicate Upstream(x: Ledger, runId: string) {
    exists a :: a in x.assign && a.0 == runId
  }

  /** The outcome of `delete`: runs that used data stay as invalidated rows. */
  function Deleted(db: Db, runId: string): Db {
    if Upstream(Truncated(db, runId).ledger, runId)
    then WithStatus(Truncated(db, runId), runId, Invalidated)
    else WithoutRun(Truncated(db, runId), runId)
  }

  /** The row of a deleted run stays, as invalidated, exactly if the run used data, and other runs are as
      truncating left them. */
  lemma DeletedMeans(db: Db, runId: string, r: string)
    requires runId in Truncated(db, runId).tables.run
    ensures var d, d' := Truncated(db, runId).tables, Deleted(db, runId).tables;
      && (r != runId ==> (r in d'.run <==> r in d.run) && (r in d.run ==> d'.run[r] == d.run[r]))
      && (runId in d'.run <==> exists a :: a in Truncated(db, runId).ledger.assign && a.0 == runId)
      && (runId in d'.run ==> d'.run[runId] == Invalidated)
      && d'.data == d.data && d'.nomination == d.nomination
  {
    hide Truncated;
  }

  predicate CanTruncate(db: Db, runId: string) {
    runId in db.tables.run && !InUse(db, runId) && Downstreams(db.ledger, DataOfRun(db.tables, runId)) <= DroppedRuns(db, runId)
  }

  /** A run can be truncated unless it has a worker, an agent is on one of its data, or a run uses one that has not
      been invalidated. */
  lemma CanTruncateMeans(db: Db, runId: string)
    ensures CanTruncate(db, runId) <==>
      && runId in db.tables.run && runId !in db.ledger.worker
      && (forall name :: name in db.ledger.dataAgent ==> (db.ledger.dataAgent[name], runId) !in db.tables.data.Items)
      && (forall a :: a in db.ledger.assign && (db.ledger.assign[a], runId) in db.tables.data.Items ==>
            a.0 in db.tables.run && db.tables.run[a.0] == Invalidated)
  {
    var ids := DataOfRun(db.tables, runId);
    assert forall k :: k in ids <==> (k, runId) in db.tables.data.Items;
    hide DataOfRun;
    if CanTruncate(db, runId) {
      forall a | a in db.ledger.assign && db.ledger.assign[a] in ids
        ensures a.0 in db.tables.run && db.tables.run[a.0] == Invalidated
      {
        assert a.0 in Downstreams(db.ledger, ids);
      }
    }
  }

  /** `delete`: the run must be at rest; an invalidated one does not exist for users. */
  method Delete(db: Db, runId: string) returns (r: Result<Db, DbError>)
    requires Good(db)
    ensures r.Ok? <==> CanTruncate(db, runId) && db.tables.run[runId] in {Waiting, Deactivated, Done, Failed}
    ensures r.Ok? ==> Good(r.value) && r.value == Deleted(db, runId)
    ensures CanTruncate(db, runId) && db.tables.run[runId] == Invalidated ==> r == Err(Missing)
  {
    hide Good, Bare, DroppedRuns, Downstreams, InUse, Truncated;
    r := Truncate(db, runId);
    if r.Err? {
      return;
    }
    TruncatedIsBare(db, runId);
    var status := db.tables.run[runId];
    if status == Invalidated {
      return Err(Missing);
    }
    if status !in {Waiting, Deactivated, Done, Failed} {
      return Err(WorkerActive);
    }
    if exists a :: a in r.value.ledger.assign && a.0 == runId {
      BareInvalidated(r.value, runId);
    } else {
      BareRemoved(r.value, runId);
    }
    return Ok(Deleted(db, runId));
  }

  // ---- retry -------------------------------------------------------------------------------------

  /** What `Retry` leaves: the run waits again, with new data and a worker. */
  ghost predicate Retried(before: Db, after: Db, runId: string) {
    && Interned(Truncated(before, runId).tables.tags)
    && exists grown: Db ::
      && Interned(grown.tables.tags) && Grown(Truncated(before, runId), grown, runId)
      && runId in grown.ledger.planOfRun && MissingOutputs(grown, runId) == {}
      && after == WithWorker(WithStatus(grown, runId, Waiting), runId)
  }

  /** A run that is retried waits with a worker; its old data are gone, and no other run changes. */
  lemma RetriedMeans(before: Db, after: Db, runId: string, r: string)
    requires Good(before) && runId in before.tables.run && !InUse(before, runId) && Retried(before, after, runId)
    ensures runId in after.tables.run && after.tables.run[runId] == Waiting
    ensures HasImage(before.ledger, runId) ==> runId in after.ledger.worker
    ensures r != runId ==>
      && (r in after.tables.run <==> r in Truncated(before, runId).tables.run)
      && (r in after.tables.run ==> after.tables.run[r] == Truncated(before, runId).tables.run[r])
    ensures after.tables.knitTimestamp == Truncated(before, runId).tables.knitTimestamp
  {
    hide Good, Truncated, MissingOutputs, Interned;
    TruncatedIsBare(before, runId);
    TruncatedNames(before, runId, (n: nat) => "");
    var grown: Db :| Interned(grown.tables.tags) && Grown(Truncated(before, runId), grown, runId)
      && after == WithWorker(WithStatus(grown, runId, Waiting), runId);
    GrownRows(Truncated(before, runId), grown, runId);
    hide Grown, Bare;
    assert HasImage(grown.ledger, runId) ==> runId in after.ledger.worker by {
      assert WithStatus(grown, runId, Waiting).ledger == grown.ledger;
    }
  }

  lemma GrownRows(before: Db, after: Db, runId: string)
    requires Interned(before.tables.tags) && Interned(after.tables.tags) && Grown(before, after, runId)
    ensures after.tables.run == before.tables.run && after.tables.knitTimestamp == before.tables.knitTimestamp
    ensures HasImage(after.ledger, runId) <==> HasImage(before.ledger, runId)
  {
    hide Interned, SameMounts, KeptData, KeptOutput, NewData;
  }

  predicate HasImage(x: Ledger, runId: string) {
    runId in x.planOfRun && x.planOfRun[runId] in x.plan && x.plan[x.planOfRun[runId]].ImagePlan?
  }

  /** `Retry`: a run with an image that is done or has failed loses its data, gets new ones and waits. */
  method Retry(db: Db, runId: string, names: nat -> string, volume: string -> string) returns (r: Result<Db, DbError>)
    requires Good(db)
    ensures r.Ok? ==>
      && Good(r.value) && Retried(db, r.value, runId)
      && CanTruncate(db, runId) && db.tables.run[runId] in {Done, Failed}
    ensures r.Ok? && Made(db) ==> Made(r.value)
    ensures FreshNames(db, names) ==>
      (r.Ok? <==> CanTruncate(db, runId) && db.tables.run[runId] in {Done, Failed} && HasImage(db.ledger, runId))
  {
    hide Good, Bare, Midway, Grown, DroppedRuns, Downstreams, InUse, Truncated, WithStatus, WithWorker, MissingOutputs, Interned, Retried, FreshNames, NamedBy, HasImage, Made;
    r := Truncate(db, runId);
    if r.Err? {
      return;
    }
    var truncated := r.value;
    TruncatedIsBare(db, runId);
    BareIsUnsettled(truncated, runId);
    GoodIsMidway(truncated, runId);
    TruncatedNames(db, runId, names);
    if Made(db) {
      TruncatedMade(db, runId);
    }
    r := ComplementData(truncated, runId, names, volume);
    if r.Err? {
      return;
    }
    if !HasImage(truncated.ledger, runId) {
      return Err(RunIsProtected);
    }
    if db.tables.run[runId] == Invalidated {
      return Err(Missing);
    }
    if db.tables.run[runId] !in {Done, Failed} {
      return Err(InvalidRunStateChanging);
    }
    RunWaits(truncated, r.value, runId);
    WorkerSet(WithStatus(r.value, runId, Waiting), runId);
    RetriedBy(db, r.value, runId);
    if Made(r.value) {
      StatusMade(r.value, runId, Waiting);
      WorkerMade(WithStatus(r.value, runId, Waiting), runId);
    }
    return Ok(WithWorker(WithStatus(r.value, runId, Waiting), runId));
  }

  lemma TruncatedMade(db: Db, runId: string)
    requires Good(db) && Made(db)
    ensures Made(Truncated(db, runId))
  {
    forall k | k in db.tables.data
      ensures db.tables.data[k] !in DroppedRuns(db, runId)
    {
      DroppedHaveNoData(db, runId, k);
    }
    hide Good, DroppedRuns, DataOfRun, Made;
    MadeKept(db, Truncated(db, runId));
  }

  lemma StatusMade(db: Db, runId: string, status: Status)
    requires Made(db)
    ensures Made(WithStatus(db, runId, status))
  {
    hide Made;
    MadeKept(db, WithStatus(db, runId, status));
  }

  lemma RowMade(db: Db, runId: string)
    requires Made(db) && forall k :: k in db.tables.data ==> db.tables.data[k] != runId
    ensures Made(WithoutRun(db, runId))
  {
    hide Made;
    MadeKept(db, WithoutRun(db, runId));
  }

  /** Ids of truncated data stay in use as garbage, and the run keeps its plan. */
  lemma TruncatedNames(db: Db, runId: string, names: nat -> string)
    requires Bare(Truncated(db, runId), runId)
    ensures FreshNames(db, names) ==> FreshNames(Truncated(db, runId), names)
    ensures HasImage(Truncated(db, runId).ledger, runId) <==> HasImage(db.ledger, runId)
  {
    hide DroppedRuns;
  }

  lemma RetriedBy(db: Db, grown: Db, runId: string)
    requires Interned(Truncated(db, runId).tables.tags) && Interned(grown.tables.tags) && Grown(Truncated(db, runId), grown, runId)
    requires runId in grown.ledger.planOfRun && MissingOutputs(grown, runId) == {}
    ensures Retried(db, WithWorker(WithStatus(grown, runId, Waiting), runId), runId)
  {
    hide Grown, Truncated, WithStatus, WithWorker, MissingOutputs, Interned;
  }

  lemma BareIsUnsettled(db: Db, runId: string)
    requires Bare(db, runId)
    ensures runId in db.tables.run && Unsettled(db.tables, runId)
  {
  }

  lemma RunWaits(before: Db, after: Db, runId: string)
    requires Good(before) && Midway(after, runId) && Interned(before.tables.tags) && Interned(after.tables.tags) && Grown(before, after, runId)
    requires Unsettled(before.tables, runId)
    ensures Good(WithStatus(after, runId, Waiting)) && WithStatus(after, runId, Waiting).tables.run[runId] == Waiting
  {
    hide Good, Midway, Grown, Interned, Unsettled;
    GrownIsGood(before, after, runId, Waiting);
  }
}
