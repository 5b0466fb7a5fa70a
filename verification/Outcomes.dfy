/** Every run that has not been invalidated has data for all outputs of its plan. */
module Outcomes {
  import opened TagStore
  import TagSets
  import opened Nomination
  import opened Ledgers
  import opened Runs
  import opened RunOutputs
  import opened RunChanges
  import opened Registration
  import opened Orders

  predicate Alive(d: Tables, r: string) {
    r in d.run && d.run[r] != Invalidated
  }

  ghost predicate Complete(db: Db) {
    forall r, o :: Alive(db.tables, r) && OutputFor(db.ledger, r, o) ==> HasOutput(db, r, o)
  }

  predicate OutputFor(x: Ledger, r: string, o: int) {
    r in x.planOfRun && o in x.planOfOutput && x.planOfOutput[o] == x.planOfRun[r]
  }

  lemma OutputStays(db: Db, db': Db, r: string, o: int)
    requires HasOutput(db, r, o)
    requires forall k :: k in db.tables.data && db.tables.data[k] == r ==> k in db'.tables.data && db'.tables.data[k] == r
    requires forall k :: k in db.ledger.outputOfData && k in db'.tables.data ==>
      k in db'.ledger.outputOfData && db'.ledger.outputOfData[k] == db.ledger.outputOfData[k]
    ensures HasOutput(db', r, o)
  {
    var k :| k in db.tables.data && IsOutput(db, r, o, k);
    assert IsOutput(db', r, o, k);
  }

  /** Alive runs keep their plans and data; `but` is left aside. */
  ghost predicate SameOutcomes(db: Db, db': Db, but: set<string>) {
    && (forall r :: Alive(db'.tables, r) && r !in but ==> Alive(db.tables, r))
    && (forall r, o :: r !in but && Alive(db.tables, r) && OutputFor(db'.ledger, r, o) ==> OutputFor(db.ledger, r, o))
    && (forall k :: k in db.tables.data && db.tables.data[k] !in but ==> k in db'.tables.data && db'.tables.data[k] == db.tables.data[k])
    && (forall k :: k in db.ledger.outputOfData && k in db'.tables.data ==>
          k in db'.ledger.outputOfData && db'.ledger.outputOfData[k] == db.ledger.outputOfData[k])
  }

  lemma CompleteKept(db: Db, db': Db, but: set<string>)
    requires Complete(db) && SameOutcomes(db, db', but)
    requires forall r, o :: r in but && Alive(db'.tables, r) && OutputFor(db'.ledger, r, o) ==> HasOutput(db', r, o)
    ensures Complete(db')
  {
    hide HasOutput;
    forall r, o | Alive(db'.tables, r) && OutputFor(db'.ledger, r, o)
      ensures HasOutput(db', r, o)
    {
      if r !in but {
        assert HasOutput(db, r, o);
        OutputStays(db, db', r, o);
      }
    }
  }

  lemma NothingMissing(db: Db, runId: string)
    requires runId in db.ledger.planOfRun && MissingOutputs(db, runId) == {}
    ensures forall o :: OutputFor(db.ledger, runId, o) ==> HasOutput(db, runId, o)
  {
    hide HasOutput;
    forall o | OutputFor(db.ledger, runId, o)
      ensures HasOutput(db, runId, o)
    {
      assert o !in MissingOutputs(db, runId);
    }
  }

  lemma GrownSameOutcomes(db: Db, db': Db, runId: string)
    requires Interned(db.tables.tags) && Interned(db'.tables.tags) && Grown(db, db', runId)
    ensures SameOutcomes(db, db', {runId})
  {
    hide Interned, SameMounts, UserTags, NewData;
    forall k
      ensures k in db.tables.data ==> k in db'.tables.data && db'.tables.data[k] == db.tables.data[k]
      ensures k in db.ledger.outputOfData ==> k in db'.ledger.outputOfData && db'.ledger.outputOfData[k] == db.ledger.outputOfData[k]
    {
      assert KeptData(db, db', k) && KeptOutput(db, db', k);
    }
  }

  lemma StartedSameOutcomes(db: Db, planId: string, inputs: map<int, string>, runId: string, status: Status)
    ensures SameOutcomes(db, Started(db, planId, inputs, runId, status), {runId})
  {
    hide Assigned;
  }

  lemma RegisteredComplete(db: Db, db': Db, planId: string, inputs: map<int, string>, runId: string)
    requires Complete(db) && Registered(db, db', planId, inputs, runId)
    ensures Complete(db')
  {
    var status := InitialStatus(db.ledger.plan[planId]);
    var started := Started(db, planId, inputs, runId, status);
    assert Interned(started.tables.tags) && Grown(started, db', runId) && MissingOutputs(db', runId) == {};
    hide Interned, Grown, MissingOutputs, Started, Registered, SameOutcomes, Complete;
    StartedSameOutcomes(db, planId, inputs, runId, status);
    CompleteElsewhere(db, started, runId);
    GrownSameOutcomes(started, db', runId);
    CompleteElsewhereStays(started, db', runId);
    NothingMissing(db', runId);
    CompleteAgain(db', runId);
  }

  lemma TruncatedSameOutcomes(db: Db, runId: string)
    ensures SameOutcomes(db, Truncated(db, runId), {runId})
  {
    hide DroppedRuns;
  }

  lemma DeletedComplete(db: Db, runId: string)
    requires Complete(db)
    ensures Complete(Deleted(db, runId))
  {
    var truncated := Truncated(db, runId);
    TruncatedSameOutcomes(db, runId);
    hide Truncated, Complete;
    assert SameOutcomes(db, Deleted(db, runId), {runId});
    CompleteKept(db, Deleted(db, runId), {runId});
  }

  lemma StatusSameOutcomes(db: Db, runId: string, status: Status)
    ensures SameOutcomes(db, WithWorker(WithStatus(db, runId, status), runId), {runId})
  {
  }

  lemma WorkerOutputs(db: Db, runId: string, status: Status, o: int)
    requires HasOutput(db, runId, o)
    ensures HasOutput(WithWorker(WithStatus(db, runId, status), runId), runId, o)
  {
    OutputStays(db, WithWorker(WithStatus(db, runId, status), runId), runId, o);
  }

  lemma RetriedComplete(db: Db, db': Db, runId: string)
    requires Good(db) && Complete(db) && CanTruncate(db, runId) && Retried(db, db', runId)
    ensures Complete(db')
  {
    hide Good, Complete, CanTruncate, Truncated, Interned, Grown, MissingOutputs, WithStatus, WithWorker, SameOutcomes, HasOutput;
    var truncated := Truncated(db, runId);
    var grown: Db :| Interned(grown.tables.tags) && Grown(truncated, grown, runId) && runId in grown.ledger.planOfRun
      && MissingOutputs(grown, runId) == {} && db' == WithWorker(WithStatus(grown, runId, Waiting), runId);
    TruncatedSameOutcomes(db, runId);
    CompleteElsewhere(db, truncated, runId);
    GrownSameOutcomes(truncated, grown, runId);
    CompleteElsewhereStays(truncated, grown, runId);
    NothingMissing(grown, runId);
    CompleteAgain(grown, runId);
    StatusSameOutcomes(grown, runId, Waiting);
    forall o | OutputFor(db'.ledger, runId, o)
      ensures HasOutput(db', runId, o)
    {
      WorkerLedger(grown, runId);
      WorkerOutputs(grown, runId, Waiting, o);
    }
    CompleteKept(grown, db', {runId});
  }

  lemma WorkerLedger(db: Db, runId: string)
    ensures var x' := WithWorker(WithStatus(db, runId, Waiting), runId).ledger;
      x'.planOfRun == db.ledger.planOfRun && x'.planOfOutput == db.ledger.planOfOutput
  {
  }

  /** All runs but one have what they should have. */
  ghost predicate CompleteBut(db: Db, runId: string) {
    forall r, o :: r != runId && Alive(db.tables, r) && OutputFor(db.ledger, r, o) ==> HasOutput(db, r, o)
  }

  lemma CompleteElsewhere(db: Db, db': Db, runId: string)
    requires Complete(db) && SameOutcomes(db, db', {runId})
    ensures CompleteBut(db', runId)
  {
    assert CompleteBut(db, runId);
    hide Complete;
    CompleteElsewhereStays(db, db', runId);
  }

  lemma CompleteElsewhereStays(db: Db, db': Db, runId: string)
    requires CompleteBut(db, runId) && SameOutcomes(db, db', {runId})
    ensures CompleteBut(db', runId)
  {
    hide HasOutput;
    forall r, o | r != runId && Alive(db'.tables, r) && OutputFor(db'.ledger, r, o)
      ensures HasOutput(db', r, o)
    {
      assert HasOutput(db, r, o);
      OutputStays(db, db', r, o);
    }
  }

  lemma CompleteAgain(db: Db, runId: string)
    requires CompleteBut(db, runId) && forall o :: OutputFor(db.ledger, runId, o) ==> HasOutput(db, runId, o)
    ensures Complete(db)
  {
    hide HasOutput;
  }

  lemma AccruedOutcomes(db: Db, db': Db, planId: string)
    requires SchemaOk(db.tables) && SchemaOk(db'.tables) && Accrued(db, db', planId)
    requires forall r :: r in db.ledger.planOfRun ==> db.ledger.planOfRun[r] != planId
    ensures SameOutcomes(db, db', {})
  {
    hide SchemaOk, OldMounts, UserTags;
  }

  /** A new plan has outputs, but no runs yet. */
  lemma PlanRegisteredComplete(db: Db, db': Db, planId: string, active: bool, clock: TagSets.Clock, rows: PlanRows)
    requires Good(db) && Complete(db) && planId !in db.ledger.plan && PlanRegistered(db, db', planId, active, clock, rows)
    ensures Complete(db')
  {
    hide Good, SchemaOk, Accrued, InputsThrough, OutputsThrough, FlagsKept, Nominated, Complete, SameOutcomes;
    PlansOfRuns(db);
    var started := WithPlan(db, planId, active);
    AccruedOutcomes(started, db', planId);
    PlanRowOutcomes(db, planId, active);
    CompleteKept(db, started, {});
    CompleteKept(started, db', {});
  }

  lemma PlanRowOutcomes(db: Db, planId: string, active: bool)
    ensures SameOutcomes(db, WithPlan(db, planId, active), {})
  {
  }
}
