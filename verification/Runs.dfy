/** The life of a run in the database, pkg/domain/run/db/postgres/run.go: registration, status changes,
    finishing, deletion and retry. Each method is what one transaction would leave if it committed. */
module Runs {
  import opened Results
  import opened TagStore
  import opened Nomination
  import opened Upkeep
  import opened Ledgers

  // ---- a status change that nomination does not notice -------------------------------------------

  /** Rows of `run` come, go and change; data keep theirs. */
  lemma SchemaIfRuns(d: Tables, run: map<string, Status>)
    requires SchemaOk(d) && forall k :: k in d.data ==> d.data[k] in run
    ensures SchemaOk(d.(run := run))
  {
    hide Interned;
  }

  /** Runs change their status, but not to or from done with data, and not to invalidated. */
  ghost predicate Undone(d: Tables, run: map<string, Status>) {
    && run.Keys == d.run.Keys
    && forall r :: r in run ==>
      run[r] == d.run[r] || (run[r] != Done && run[r] != Invalidated && (d.run[r] != Done || DataOfRun(d, r) == {}))
  }

  lemma UndoneLedger(db: Db, run: map<string, Status>)
    requires LedgerOk(db.tables, db.ledger) && Undone(db.tables, run)
    ensures LedgerOk(db.tables.(run := run), db.ledger)
  {
  }

  lemma UndoneSame(d: Tables, run: map<string, Status>, k: string, i: int)
    requires SchemaOk(d) && SchemaOk(d.(run := run)) && Undone(d, run)
    ensures SameData(d, d.(run := run), k) && SameInput(d, d.(run := run), i)
  {
    if k in d.data {
      assert k in DataOfRun(d, d.data[k]);
    }
    hide SchemaOk, UserTags, InputTags;
  }

  lemma UndoneStatuses(db: Db, run: map<string, Status>)
    requires Good(db) && Undone(db.tables, run)
    ensures Good(db.(tables := db.tables.(run := run)))
  {
    var d, d' := db.tables, db.tables.(run := run);
    DataHaveRuns(d);
    SchemaIfRuns(d, run);
    UndoneLedger(db, run);
    hide SchemaOk, LedgerOk, Exact, SameData, SameInput, Undone;
    forall k, i
      ensures SameData(d, d', k) && SameInput(d, d', i)
    {
      UndoneSame(d, run, k, i);
    }
    ExactIfSame(d, d');
  }

  lemma DataHaveRuns(d: Tables)
    requires SchemaOk(d)
    ensures forall k :: k in d.data ==> d.data[k] in d.run
  {
  }

  /** The transitions that `setStatus` carries out by itself. */
  predicate Allowed(current: Status, next: Status) {
    match current
    case Deactivated => next in {Deactivated, Waiting, Aborting}
    case Waiting => next in {Deactivated, Waiting, Ready, Aborting}
    case Ready => next in {Ready, Starting, Running, Aborting, Completing}
    case Starting => next in {Starting, Running, Aborting, Completing}
    case Running => next in {Running, Aborting, Completing}
    case _ => false
  }

  // ---- finish ------------------------------------------------------------------------------------

  /** `finish` up to the nomination: stamp the data of the run, and settle its status. */
  function FinishRun(d: Tables, runId: string, status: Status, now: int): Tables {
    d.(knitTimestamp := d.knitTimestamp + (map k | k in DataOfRun(d, runId) :: now), run := d.run[runId := status])
  }

  lemma FinishRunElsewhere(d: Tables, runId: string, status: Status, now: int)
    requires SchemaOk(d) && runId in d.run && d.run[runId] != Done
    ensures SchemaOk(FinishRun(d, runId, status, now))
    ensures SameElsewhere(d, FinishRun(d, runId, status, now), DataOfRun(d, runId))
    ensures status != Done ==> SameElsewhere(d, FinishRun(d, runId, status, now), {})
  {
    hide SameElsewhere, UserTags, InputTags;
    var d' := FinishRun(d, runId, status, now);
    SameElsewhereIf(d, d', DataOfRun(d, runId));
    if status != Done {
      SameElsewhereIf(d, d', {});
    }
  }

  lemma FinishRunLedger(db: Db, runId: string, status: Status, now: int)
    requires Consistent(db) && runId in db.tables.run && status != Invalidated
    ensures LedgerOk(FinishRun(db.tables, runId, status, now), db.ledger)
  {
  }

  /** What finishing changes. */
  ghost predicate Finished(db: Db, db': Db, runId: string, now: int)
    requires runId in db.tables.run
  {
    var status := if db.tables.run[runId] == Completing then Done else Failed;
    && db'.ledger == db.ledger
    && db'.tables == FinishRun(db.tables, runId, status, now).(nomination := db'.tables.nomination)
    && FlagsKept(db.tables.nomination, db'.tables.nomination)
  }

  /** Data of the run get the time of finishing, and no others; the run is done if it was completing. */
  lemma FinishedMeans(db: Db, db': Db, runId: string, now: int)
    requires runId in db.tables.run && Finished(db, db', runId, now)
    ensures forall k :: k in db.tables.data && db.tables.data[k] == runId ==>
      k in db'.tables.knitTimestamp && db'.tables.knitTimestamp[k] == now
    ensures forall k :: k !in db.tables.data || db.tables.data[k] != runId ==>
      && (k in db'.tables.knitTimestamp <==> k in db.tables.knitTimestamp)
      && (k in db.tables.knitTimestamp ==> db'.tables.knitTimestamp[k] == db.tables.knitTimestamp[k])
    ensures db'.tables.run == db.tables.run[runId := if db.tables.run[runId] == Completing then Done else Failed]
    ensures db'.tables.data == db.tables.data && db'.tables.tags == db.tables.tags && db'.ledger == db.ledger
  {
    hide FlagsKept;
  }

  /** `finish`: a completing run is done and its data are nominated; an aborting run has failed. A second
      timestamp for a data would violate a primary key. */
  method Finish(db: Db, runId: string, now: int) returns (r: Result<Db, DbError>)
    requires Good(db)
    ensures r.Ok? <==>
      runId in db.tables.run && db.tables.run[runId] in {Completing, Aborting} && DataOfRun(db.tables, runId) !! db.tables.knitTimestamp.Keys
    ensures r.Ok? ==> Good(r.value) && Finished(db, r.value, runId, now)
  {
    hide SchemaOk, LedgerOk, Exact, Matches, Nominated, NominateData, SameElsewhere, FlagsKept;
    var d := db.tables;
    if runId !in d.run {
      return Err(Missing);
    }
    if d.run[runId] != Completing && d.run[runId] != Aborting {
      return Err(InvalidRunStateChanging);
    }
    var ids := DataOfRun(d, runId);
    if exists k :: k in ids && k in d.knitTimestamp {
      return Err(Conflict);
    }
    var status := if d.run[runId] == Completing then Done else Failed;
    FinishRunElsewhere(d, runId, status, now);
    FinishRunLedger(db, runId, status, now);
    var d' := FinishRun(d, runId, status, now);
    if status == Done {
      NominateChanged(d, d', ids);
      NominateOnlyNomination(d', ids);
      LedgerIgnoresNomination(d', NominateData(d', ids), db.ledger);
      return Ok(Db(NominateData(d', ids), db.ledger));
    }
    ExactKept(d, d');
    SameFlags(d.nomination);
    return Ok(Db(d', db.ledger));
  }

  lemma SameFlags(nomination: map<(string, int), bool>)
    ensures FlagsKept(nomination, nomination)
  {
  }

  // ---- truncate ----------------------------------------------------------------------------------

  /** The runs that use data of `ids`. */
  function Downstreams(x: Ledger, ids: set<string>): set<string> {
    set a | a in x.assign && x.assign[a] in ids :: a.0
  }

  /** "invalidated_downstreams" */
  function DroppedRuns(db: Db, runId: string): set<string> {
    set r | r in Downstreams(db.ledger, DataOfRun(db.tables, runId)) && r in db.tables.run && db.tables.run[r] == Invalidated
  }

  predicate InUse(db: Db, runId: string) {
    || runId in db.ledger.worker
    || exists n :: n in db.ledger.dataAgent && db.ledger.dataAgent[n] in DataOfRun(db.tables, runId)
  }

  /** Tags, timestamps, nominations and data of the run go, and the invalidated runs that used these data. */
  function TruncatedTables(d: Tables, ids: set<string>, dropped: set<string>): Tables {
    d.(run := d.run - dropped,
       tags := d.tags.(tagData := set r | r in d.tags.tagData && r.1 !in ids),
       knitTimestamp := d.knitTimestamp - ids,
       nomination := DropData(d, ids).nomination,
       data := d.data - ids)
  }

  /** Assignments of the dropped runs go, and the data's volumes become garbage. */
  function TruncatedLedger(x: Ledger, ids: set<string>, dropped: set<string>): Ledger {
    x.(planOfRun := x.planOfRun - dropped,
       assign := map a | a in x.assign && a.0 !in dropped :: x.assign[a],
       outputOfData := x.outputOfData - ids,
       volumeOfData := x.volumeOfData - ids,
       garbage := x.garbage + map k | k in x.volumeOfData && k in ids :: x.volumeOfData[k])
  }

  function Truncated(db: Db, runId: string): Db {
    var ids, dropped := DataOfRun(db.tables, runId), DroppedRuns(db, runId);
    Db(TruncatedTables(db.tables, ids, dropped), TruncatedLedger(db.ledger, ids, dropped))
  }

  lemma TruncatedTags(d: Tables, ids: set<string>, k: string)
    requires Interned(d.tags)
    ensures var t' := d.tags.(tagData := set r | r in d.tags.tagData && r.1 !in ids);
      && Interned(t')
      && (k !in ids ==> UserTags(t', k) == UserTags(d.tags, k))
      && (forall i :: InputTags(t', i) == InputTags(d.tags, i))
  {
    var t' := d.tags.(tagData := set r | r in d.tags.tagData && r.1 !in ids);
    LinkedIsTag(d.tags);
    OnlyLinks(d.tags, t');
    ExtendsKeepsTags(d.tags, t');
    hide Interned, Extends, InputTags, OutputTags;
  }

  /** Of data, exactly those of the run go, with their tags, timestamps and nominations, and their volumes become
      garbage. */
  lemma TruncatedMeans(db: Db, runId: string, k: string)
    requires db.ledger.garbage.Keys !! db.tables.data.Keys && db.ledger.volumeOfData.Keys == db.tables.data.Keys
    ensures var d, d', x, x' := db.tables, Truncated(db, runId).tables, db.ledger, Truncated(db, runId).ledger;
      var own := k in d.data && d.data[k] == runId;
      && (if own then k !in d'.data && k !in d'.knitTimestamp && k !in x'.volumeOfData && k in x'.garbage && x'.garbage[k] == x.volumeOfData[k]
          else
            && (k in d'.data <==> k in d.data) && (k in d.data ==> d'.data[k] == d.data[k] && x'.volumeOfData[k] == x.volumeOfData[k])
            && (k in d'.knitTimestamp <==> k in d.knitTimestamp) && (k in d.knitTimestamp ==> d'.knitTimestamp[k] == d.knitTimestamp[k])
            && (k in x'.garbage <==> k in x.garbage) && (k in x.garbage ==> x'.garbage[k] == x.garbage[k]))
      && (forall id :: (id, k) in d'.tags.tagData <==> !own && (id, k) in d.tags.tagData)
      && (forall i :: (k, i) in d'.nomination <==> !own && (k, i) in d.nomination)
  {
  }

  /** Of runs, exactly the invalidated ones that used these data go, with their assignments. */
  lemma TruncatedRuns(db: Db, runId: string, r: string)
    requires r in db.tables.run
    ensures var d, d', x, x' := db.tables, Truncated(db, runId).tables, db.ledger, Truncated(db, runId).ledger;
      var used := exists a :: a in x.assign && a.0 == r && x.assign[a] in d.data && d.data[x.assign[a]] == runId;
      if used && d.run[r] == Invalidated then r !in d'.run && forall a :: a in x'.assign ==> a.0 != r
      else
        && r in d'.run && d'.run[r] == d.run[r]
        && forall a: (string, int) :: a.0 == r ==> (a in x'.assign <==> a in x.assign) && (a in x.assign ==> x'.assign[a] == x.assign[a])
  {
    var ids := DataOfRun(db.tables, runId);
    assert forall k :: k in ids <==> k in db.tables.data && db.tables.data[k] == runId;
    hide DataOfRun;
  }

  /** A dropped run is invalidated, so it has no data. */
  lemma DroppedHaveNoData(db: Db, runId: string, k: string)
    requires Consistent(db) && k in db.tables.data
    ensures db.tables.data[k] !in DroppedRuns(db, runId)
  {
    hide Interned;
  }

  lemma TruncatedSchema(d: Tables, ids: set<string>, dropped: set<string>)
    requires SchemaOk(d) && forall k :: k in d.data && k !in ids ==> d.data[k] !in dropped
    ensures SchemaOk(TruncatedTables(d, ids, dropped))
  {
    TruncatedTags(d, ids, "");
    hide Interned, UserTags, InputTags;
  }

  lemma TruncatedRunRefs(d: Tables, x: Ledger, ids: set<string>, dropped: set<string>)
    requires RunRefs(d, x) && InvalidatedAreEmpty(d, x)
    requires forall r :: r in dropped ==> r in d.run && d.run[r] == Invalidated
    ensures RunRefs(TruncatedTables(d, ids, dropped), TruncatedLedger(x, ids, dropped))
  {
  }

  lemma TruncatedMountRefs(d: Tables, x: Ledger, ids: set<string>, dropped: set<string>)
    requires MountRefs(d, x)
    ensures MountRefs(TruncatedTables(d, ids, dropped), TruncatedLedger(x, ids, dropped))
  {
  }

  lemma TruncatedDataRefs(d: Tables, x: Ledger, ids: set<string>, dropped: set<string>)
    requires DataRefs(d, x) && forall n :: n in x.dataAgent ==> x.dataAgent[n] !in ids
    ensures DataRefs(TruncatedTables(d, ids, dropped), TruncatedLedger(x, ids, dropped))
  {
  }

  lemma TruncatedAssignRefs(d: Tables, x: Ledger, ids: set<string>, dropped: set<string>)
    requires AssignRefs(d, x) && Downstreams(x, ids) <= dropped
    ensures AssignRefs(TruncatedTables(d, ids, dropped), TruncatedLedger(x, ids, dropped))
  {
    forall a | a in x.assign && a.0 !in dropped
      ensures x.assign[a] !in ids
    {
      assert x.assign[a] in ids ==> a.0 in Downstreams(x, ids);
    }
  }

  lemma TruncatedInvalidated(d: Tables, x: Ledger, ids: set<string>, dropped: set<string>)
    requires InvalidatedAreEmpty(d, x)
    ensures InvalidatedAreEmpty(TruncatedTables(d, ids, dropped), TruncatedLedger(x, ids, dropped))
  {
  }

  lemma TruncatedLedgerOk(db: Db, runId: string)
    requires Consistent(db) && !InUse(db, runId)
    requires Downstreams(db.ledger, DataOfRun(db.tables, runId)) <= DroppedRuns(db, runId)
    ensures LedgerOk(Truncated(db, runId).tables, Truncated(db, runId).ledger)
  {
    hide SchemaOk, RunRefs, MountRefs, DataRefs, AssignRefs, InvalidatedAreEmpty, TruncatedTables, TruncatedLedger;
    var d, x, ids, dropped := db.tables, db.ledger, DataOfRun(db.tables, runId), DroppedRuns(db, runId);
    TruncatedRunRefs(d, x, ids, dropped);
    TruncatedMountRefs(d, x, ids, dropped);
    TruncatedDataRefs(d, x, ids, dropped);
    TruncatedAssignRefs(d, x, ids, dropped);
    TruncatedInvalidated(d, x, ids, dropped);
  }

  lemma TruncatedExact(d: Tables, ids: set<string>, dropped: set<string>)
    requires SchemaOk(d) && Exact(d) && forall k :: k in d.data ==> d.data[k] !in dropped
    requires SchemaOk(TruncatedTables(d, ids, dropped))
    ensures Exact(TruncatedTables(d, ids, dropped))
  {
    var d' := TruncatedTables(d, ids, dropped);
    hide SchemaOk, Matches, SameData, SameInput, TruncatedTables;
    forall k, i
      ensures Nominated(d', k, i) <==> Matches(d', i, k)
    {
      TruncatedNominated(d, ids, dropped, k, i);
      ExactAt(d, k, i);
      if k in ids {
        TruncatedGone(d, ids, dropped, k, i);
      } else {
        TruncatedSameData(d, ids, dropped, k);
        TruncatedSameInput(d, ids, dropped, i);
        MatchesDependsOn(d, d', k, i);
      }
    }
  }

  lemma TruncatedNominated(d: Tables, ids: set<string>, dropped: set<string>, k: string, i: int)
    ensures Nominated(TruncatedTables(d, ids, dropped), k, i) <==> Nominated(d, k, i) && k !in ids
  {
  }

  lemma TruncatedGone(d: Tables, ids: set<string>, dropped: set<string>, k: string, i: int)
    requires SchemaOk(TruncatedTables(d, ids, dropped)) && k in ids
    ensures !Matches(TruncatedTables(d, ids, dropped), i, k)
  {
    hide SchemaOk, RequiredTags, BodyTags;
  }

  lemma TruncatedSameData(d: Tables, ids: set<string>, dropped: set<string>, k: string)
    requires SchemaOk(d) && SchemaOk(TruncatedTables(d, ids, dropped)) && k !in ids
    requires k in d.data ==> d.data[k] !in dropped
    ensures SameData(d, TruncatedTables(d, ids, dropped), k)
  {
    TruncatedTags(d, ids, k);
    hide SchemaOk, UserTags, InputTags, Interned;
  }

  lemma TruncatedSameInput(d: Tables, ids: set<string>, dropped: set<string>, i: int)
    requires SchemaOk(d) && SchemaOk(TruncatedTables(d, ids, dropped))
    ensures SameInput(d, TruncatedTables(d, ids, dropped), i)
  {
    TruncatedTags(d, ids, "");
    hide SchemaOk, UserTags, InputTags, Interned;
  }

  /** `truncateRun`: refused while a worker, a data agent or a downstream run needs the data. */
  method Truncate(db: Db, runId: string) returns (r: Result<Db, DbError>)
    requires Good(db)
    ensures r.Ok? <==>
      runId in db.tables.run && !InUse(db, runId) && Downstreams(db.ledger, DataOfRun(db.tables, runId)) <= DroppedRuns(db, runId)
    ensures r.Ok? ==> r.value == Truncated(db, runId) && Good(r.value) && DataOfRun(r.value.tables, runId) == {}
  {
    hide SchemaOk, LedgerOk, Exact, InUse, Downstreams;
    if runId !in db.tables.run {
      return Err(Missing);
    }
    if InUse(db, runId) {
      return Err(WorkerActive);
    }
    var downstreams := Downstreams(db.ledger, DataOfRun(db.tables, runId));
    if !(downstreams <= DroppedRuns(db, runId)) {
      return Err(RunHasDownstreams);
    }
    forall k | k in db.tables.data
      ensures db.tables.data[k] !in DroppedRuns(db, runId)
    {
      DroppedHaveNoData(db, runId, k);
    }
    TruncatedSchema(db.tables, DataOfRun(db.tables, runId), DroppedRuns(db, runId));
    TruncatedLedgerOk(db, runId);
    TruncatedExact(db.tables, DataOfRun(db.tables, runId), DroppedRuns(db, runId));
    return Ok(Truncated(db, runId));
  }
}
