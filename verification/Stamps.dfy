/** Data have timestamps exactly when their runs are over, so that finishing a run never meets one. */
module Stamps {
  import opened TagStore
  import TagSets
  import opened Nomination
  import opened Ledgers
  import opened Runs
  import opened RunOutputs
  import opened RunChanges
  import opened Registration

  predicate Over(s: Status) {
    s == Done || s == Failed
  }

  ghost predicate Stamped(d: Tables) {
    && d.knitTimestamp.Keys <= d.data.Keys
    && forall k :: k in d.data ==> d.data[k] in d.run && (k in d.knitTimestamp <==> Over(d.run[d.data[k]]))
  }

  lemma FinishIsFree(d: Tables, runId: string)
    requires Stamped(d) && runId in d.run && !Over(d.run[runId])
    ensures DataOfRun(d, runId) !! d.knitTimestamp.Keys
  {
  }

  lemma FinishedStamped(db: Db, db': Db, runId: string, now: int)
    requires Stamped(db.tables) && runId in db.tables.run && db.tables.run[runId] in {Completing, Aborting} && Finished(db, db', runId, now)
    ensures Stamped(db'.tables)
  {
    hide FlagsKept;
  }

  /** No run gets over, and no data change. */
  lemma StatusStamped(d: Tables, d': Tables)
    requires Stamped(d) && d'.data == d.data && d'.knitTimestamp == d.knitTimestamp && d.run.Keys <= d'.run.Keys
    requires forall r :: r in d.run ==> (Over(d'.run[r]) <==> Over(d.run[r]))
    ensures Stamped(d')
  {
  }

  lemma AllowedStaysOpen(current: Status, next: Status)
    requires Allowed(current, next)
    ensures !Over(current) && !Over(next) && current != Invalidated
  {
  }

  lemma TruncatedTablesStamped(d: Tables, ids: set<string>, dropped: set<string>)
    requires Stamped(d) && forall k :: k in d.data ==> d.data[k] !in dropped
    ensures Stamped(TruncatedTables(d, ids, dropped))
  {
  }

  lemma TruncatedStamped(db: Db, runId: string)
    requires Stamped(db.tables) && Consistent(db)
    ensures Stamped(Truncated(db, runId).tables)
  {
    hide Consistent, DroppedRuns, Stamped, TruncatedTables, TruncatedLedger;
    var dropped := DroppedRuns(db, runId);
    forall k | k in db.tables.data
      ensures db.tables.data[k] !in dropped
    {
      DroppedHaveNoData(db, runId, k);
    }
    TruncatedTablesStamped(db.tables, DataOfRun(db.tables, runId), dropped);
  }

  lemma BareStamped(d: Tables, runId: string, run: map<string, Status>)
    requires Stamped(d) && forall k :: k in d.data ==> d.data[k] != runId
    requires run == d.run - {runId} || (runId in run && run == d.run[runId := run[runId]])
    ensures Stamped(d.(run := run))
  {
  }

  lemma DeletedStamped(db: Db, runId: string)
    requires Stamped(db.tables) && Good(db) && CanTruncate(db, runId)
    ensures Stamped(Deleted(db, runId).tables)
  {
    var truncated := Truncated(db, runId);
    TruncatedStamped(db, runId);
    TruncatedIsBare(db, runId);
    BareHasNoData(truncated, runId);
    hide Good, Truncated, CanTruncate, Bare, Stamped;
    BareStamped(truncated.tables, runId, truncated.tables.run - {runId});
    BareStamped(truncated.tables, runId, truncated.tables.run[runId := Invalidated]);
  }

  /** New data have no timestamp, and their run is not over. */
  lemma GrownStamped(before: Db, after: Db, runId: string, status: Status)
    requires Interned(before.tables.tags) && Interned(after.tables.tags) && Grown(before, after, runId)
    requires Stamped(before.tables) && runId in before.tables.run && !Over(status)
    requires forall k :: k in before.tables.data && before.tables.data[k] == runId ==> !Over(before.tables.run[runId])
    ensures Stamped(WithStatus(after, runId, status).tables)
  {
    hide Interned, SameMounts, KeptOutput, UserTags, OutputTags;
    var d := WithStatus(after, runId, status).tables;
    forall k
      ensures k in before.tables.data ==> k in d.data && d.data[k] == before.tables.data[k]
      ensures k in d.data && k !in before.tables.data ==> d.data[k] == runId
    {
      assert KeptData(before, after, k) && NewData(before, after, runId, k);
    }
  }

  lemma TruncatedIsOpen(db: Db, runId: string)
    requires Stamped(db.tables) && Good(db) && CanTruncate(db, runId)
    ensures var d := Truncated(db, runId).tables;
      Stamped(d) && runId in d.run && forall k :: k in d.data ==> d.data[k] != runId
  {
    TruncatedStamped(db, runId);
    TruncatedIsBare(db, runId);
    BareHasNoData(Truncated(db, runId), runId);
    hide Good, Truncated, Stamped;
  }

  lemma RetriedStamped(db: Db, db': Db, runId: string)
    requires Stamped(db.tables) && Good(db) && CanTruncate(db, runId) && Retried(db, db', runId)
    ensures Stamped(db'.tables)
  {
    hide Good, Truncated, CanTruncate, Stamped, Interned, Grown, MissingOutputs, WithStatus;
    var truncated := Truncated(db, runId);
    TruncatedIsOpen(db, runId);
    var grown: Db :| Interned(grown.tables.tags) && Grown(truncated, grown, runId) && runId in grown.ledger.planOfRun
      && MissingOutputs(grown, runId) == {} && db' == WithWorker(WithStatus(grown, runId, Waiting), runId);
    GrownStamped(truncated, grown, runId, Waiting);
  }

  lemma StartedStamped(db: Db, planId: string, inputs: map<int, string>, runId: string, status: Status)
    requires Stamped(db.tables) && runId !in db.tables.run
    ensures var started := Started(db, planId, inputs, runId, status);
      && Stamped(started.tables) && runId in started.tables.run && started.tables.run[runId] == status
      && forall k :: k in started.tables.data ==> started.tables.data[k] != runId
  {
    hide Assigned;
  }

  lemma RegisteredStamped(db: Db, db': Db, planId: string, inputs: map<int, string>, runId: string)
    requires Stamped(db.tables) && Registered(db, db', planId, inputs, runId)
    ensures Stamped(db'.tables)
  {
    var status := InitialStatus(db.ledger.plan[planId]);
    var started := Started(db, planId, inputs, runId, status);
    assert Interned(started.tables.tags) && Grown(started, db', runId);
    hide Stamped, Interned, Grown, MissingOutputs, Started, Registered;
    StartedStamped(db, planId, inputs, runId, status);
    GrownStamped(started, db', runId, status);
    SameStatus(started, db', runId, status);
  }

  lemma SameStatus(before: Db, after: Db, runId: string, status: Status)
    requires Interned(before.tables.tags) && Interned(after.tables.tags) && Grown(before, after, runId)
    requires runId in before.tables.run && before.tables.run[runId] == status
    ensures WithStatus(after, runId, status).tables == after.tables
  {
    GrownRuns(before, after, runId);
    hide Grown, Interned;
  }

  lemma PlanRegisteredStamped(db: Db, db': Db, planId: string, active: bool, clock: TagSets.Clock, rows: PlanRows)
    requires Stamped(db.tables) && PlanRegistered(db, db', planId, active, clock, rows)
    ensures Stamped(db'.tables)
  {
    hide SchemaOk, OldMounts, NewMounts, InputsThrough, OutputsThrough, FlagsKept, Nominated, UserTags;
  }
}
