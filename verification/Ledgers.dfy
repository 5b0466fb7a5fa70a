/** The tables around those that nomination looks at: plans, mountpoints, assignments, workers, data agents
    and garbage, with the references between them (db/postgres/schema/versions/1/00-ddl.pg.sql). */
module Ledgers {
  import opened TagStore
  import opened Nomination

  datatype Plan = PseudoPlan | ImagePlan(active: bool)

  datatype Ledger = Ledger(
    plan: map<string, Plan>,
    planOfRun: map<string, string>,
    planOfInput: map<int, string>,
    planOfOutput: map<int, string>,
    outputOfData: map<string, int>,
    volumeOfData: map<string, string>,
    assign: map<(string, int), string>,
    worker: set<string>,
    dataAgent: map<string, string>,
    garbage: map<string, string>,
    inputSerial: int,
    outputSerial: int)

  /** All tables. */
  datatype Db = Db(tables: Tables, ledger: Ledger)

  datatype DbError =
    | Missing
    | Conflict
    | EmptyInput
    | InvalidRunStateChanging
    | WorkerActive
    | RunHasDownstreams
    | RunIsProtected
    | UnacceptableTag
    | BadTimestamp
    | EquivPlanExists
    | CyclicPlan

  function DataOfRun(d: Tables, runId: string): set<string> {
    set k | k in d.data && d.data[k] == runId
  }

  // ---- references ------------------------------------------------------------------------------

  ghost predicate RunRefs(d: Tables, x: Ledger) {
    && x.planOfRun.Keys == d.run.Keys
    && (forall r :: r in x.planOfRun ==> x.planOfRun[r] in x.plan)
    && x.worker <= d.run.Keys
  }

  ghost predicate MountRefs(d: Tables, x: Ledger) {
    && x.planOfInput.Keys == d.input
    && (forall i :: i in x.planOfInput ==> x.planOfInput[i] in x.plan && i < x.inputSerial)
    && (forall o :: o in x.planOfOutput ==> x.planOfOutput[o] in x.plan && o < x.outputSerial)
    && (forall r :: r in d.tags.tagOutput ==> r.1 in x.planOfOutput)
  }

  ghost predicate DataRefs(d: Tables, x: Ledger) {
    && x.outputOfData.Keys == d.data.Keys && x.volumeOfData.Keys == d.data.Keys
    && (forall k :: k in x.outputOfData ==> x.outputOfData[k] in x.planOfOutput)
    && (forall n :: n in x.dataAgent ==> x.dataAgent[n] in d.data)
    && x.garbage.Keys !! d.data.Keys
  }

  ghost predicate AssignRefs(d: Tables, x: Ledger) {
    forall a :: a in x.assign ==> a.0 in d.run && a.1 in d.input && x.assign[a] in d.data
  }

  /** Invalidated runs have nothing left but their row and their assignments. */
  ghost predicate InvalidatedAreEmpty(d: Tables, x: Ledger) {
    && (forall k :: k in d.data && d.data[k] in d.run ==> d.run[d.data[k]] != Invalidated)
    && (forall r :: r in x.worker && r in d.run ==> d.run[r] != Invalidated)
  }

  ghost predicate Refs(d: Tables, x: Ledger) {
    RunRefs(d, x) && MountRefs(d, x) && DataRefs(d, x) && AssignRefs(d, x)
  }

  ghost predicate LedgerOk(d: Tables, x: Ledger) {
    Refs(d, x) && InvalidatedAreEmpty(d, x)
  }

  ghost predicate Consistent(db: Db) {
    SchemaOk(db.tables) && LedgerOk(db.tables, db.ledger)
  }

  /** What every committed transaction leaves. */
  ghost predicate Good(db: Db) {
    Consistent(db) && Exact(db.tables)
  }

  const EMPTY_TABLES := Tables(map[], map[], map[], {}, map[], map[], TagTables(map[], map[], {}, {}, {}, 1, 1), map[])
  const EMPTY_LEDGER := Ledger(map[], map[], map[], map[], map[], map[], map[], {}, map[], map[], 1, 1)

  lemma EmptyIsGood()
    ensures Good(Db(EMPTY_TABLES, EMPTY_LEDGER))
  {
  }

  /** Only the nomination has changed. */
  lemma LedgerIgnoresNomination(d: Tables, d': Tables, x: Ledger)
    requires LedgerOk(d, x) && d' == d.(nomination := d'.nomination)
    ensures LedgerOk(d', x)
  {
  }

  /** Only links from tags to data, and the tag tables, have changed. */
  lemma LedgerIgnoresDataTags(d: Tables, d': Tables, x: Ledger)
    requires LedgerOk(d, x) && d' == d.(tags := d'.tags) && d'.tags.tagOutput == d.tags.tagOutput
    ensures LedgerOk(d', x)
  {
  }

  /** A plan comes, or changes. */
  lemma PlanSet(db: Db, planId: string, plan: Plan)
    requires Good(db)
    ensures Good(db.(ledger := db.ledger.(plan := db.ledger.plan[planId := plan])))
  {
    hide SchemaOk, Exact;
  }
}
