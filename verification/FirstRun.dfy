/** An instance of the database at work: a data is uploaded and tagged, a plan is registered that wants such
    data, and the projection loop starts its run. */
module FirstRun {
  import opened Results
  import opened TagStore
  import opened TagSets
  import opened Nomination
  import opened Reachability
  import opened PlanQueries
  import opened PlanCycles
  import opened Ledgers
  import opened Runs
  import opened RunOutputs
  import opened RunChanges
  import opened Mountpoints
  import opened Registration
  import opened Orders
  import opened Stamps
  import opened Outcomes
  import opened Projection
  import opened Database
  import F = DataFind

  /** Ids: all different. */
  function Label(i: nat, a: nat): (r: string)
    ensures |r| == i + a + 1 && r[i] == 'y' && forall k :: 0 <= k < i ==> r[k] == 'x'
  {
    seq(i + a + 1, k => if k < i then 'x' else 'y')
  }

  lemma LabelsDiffer(i: nat, a: nat, j: nat, b: nat)
    ensures Label(i, a) == Label(j, b) ==> i == j && a == b
  {
    var r, s := Label(i, a), Label(j, b);
    assert i < j ==> s[i] == 'x';
    assert j < i ==> r[j] == 'x';
  }

  function Names(i: nat): nat -> string {
    (a: nat) => Label(i, a)
  }

  const UPLOADED := Tag("type", "csv")
  const WANTING := PlanRows([[UPLOADED]], [])

  lemma OwnNamesDiffer(i: nat)
    ensures forall a: nat, b: nat :: Names(i)(a) == Names(i)(b) ==> a == b
  {
    forall a: nat, b: nat
      ensures Names(i)(a) == Names(i)(b) ==> a == b
    {
      LabelsDiffer(i, a, i, b);
    }
  }

  /** Ids in use are those of the upload. */
  ghost predicate UploadNames(db: Db) {
    db.ledger.garbage == map[] && forall k :: k in db.tables.data ==> exists a: nat :: Names(0)(a) == k
  }

  lemma LaterNamesAreFresh(db: Db, i: nat)
    requires UploadNames(db) && i > 0
    ensures FreshNames(db, Names(i))
  {
    OwnNamesDiffer(i);
    forall a: nat
      ensures Names(i)(a) !in db.tables.data
    {
      forall b: nat
        ensures Names(i)(a) != Names(0)(b)
      {
        LabelsDiffer(i, a, 0, b);
      }
    }
  }

  function RunIds(): nat -> string {
    (i: nat) => Label(i, 1)
  }

  function LaterNames(): nat -> (nat -> string) {
    (i: nat) => Names(i + 1)
  }

  lemma RoundIsFresh(db: Db)
    requires UploadNames(db) && db.tables.run.Keys == {"r0"}
    ensures FreshRuns(db, RunIds(), LaterNames())
  {
    forall i: nat
      ensures RunIds()(i) !in db.tables.run && FreshNames(db, LaterNames()(i))
    {
      LaterNamesAreFresh(db, i + 1);
      assert Label(i, 1)[i] == 'y' && "r0"[0] == 'r' && "r0"[1] == '0';
      assert i == 0 ==> Label(i, 1)[0] != "r0"[0];
    }
    forall i: nat, j: nat
      ensures RunIds()(i) == RunIds()(j) ==> i == j
    {
      LabelsDiffer(i, 1, j, 1);
    }
    forall i: nat, j: nat, a: nat, b: nat
      ensures LaterNames()(i)(a) == LaterNames()(j)(b) ==> i == j
    {
      LabelsDiffer(i + 1, a, j + 1, b);
    }
  }

  // ---- the upload --------------------------------------------------------------------------------

  /** The upload's run and its data, before any plan comes. */
  ghost predicate Uploading(db: Db, knitId: string, status: Status) {
    && db.tables.run == map["r0" := status] && knitId in db.tables.data && db.tables.data[knitId] == "r0"
    && db.tables.input == {}
    && db.ledger.planOfInput == map[] && db.ledger.inputSerial == 1 && db.ledger.plan == map["upload" := PseudoPlan]
    && db.ledger.planOfRun == map["r0" := "upload"]
    && (forall o :: o in db.ledger.planOfOutput ==> db.ledger.planOfOutput[o] == "upload")
    && UploadNames(db)
  }

  lemma UploadFits()
    ensures var db := WithPseudoPlan(Db(EMPTY_TABLES, EMPTY_LEDGER), "upload");
      Fits(db, "upload", map[], "r0") && FreshNames(db, Names(0)) && db.ledger.plan["upload"] == PseudoPlan
  {
    OwnNamesDiffer(0);
  }

  lemma FilledOutput(db: Db, runId: string, o: int) returns (knitId: string)
    requires runId in db.ledger.planOfRun && MissingOutputs(db, runId) == {}
    requires o in db.ledger.planOfOutput && db.ledger.planOfOutput[o] == db.ledger.planOfRun[runId]
    ensures IsOutput(db, runId, o, knitId)
  {
    assert o !in MissingOutputs(db, runId);
    knitId :| knitId in db.tables.data && IsOutput(db, runId, o, knitId);
  }

  lemma UploadStarts(db: Db) returns (knitId: string)
    requires var db0 := WithPseudoPlan(Db(EMPTY_TABLES, EMPTY_LEDGER), "upload");
      Registered(db0, db, "upload", map[], "r0") && NamedBy(db0, db, Names(0))
    ensures Uploading(db, knitId, Running)
  {
    hide Registered, MissingOutputs;
    RegisteredMeans(WithPseudoPlan(Db(EMPTY_TABLES, EMPTY_LEDGER), "upload"), db, "upload", map[], "r0");
    knitId := FilledOutput(db, "r0", 1);
  }

  lemma Wanted(clock: Clock)
    ensures RowsOk(clock, WANTING) && Required(clock, [UPLOADED]) == {UserTag(UPLOADED)}
  {
    assert !IsSystemTag(UPLOADED) by {
      assert "type"[0] == 't';
    }
    ReservedKeys();
    assert BodyTagOf(clock, UPLOADED) == Some(UserTag(UPLOADED)) by {
      assert KEY_KNIT_ID[0] == 'k' && KEY_KNIT_TIMESTAMP[0] == 'k' && KEY_KNIT_TRANSIENT[0] == 'k' && "type"[0] == 't';
    }
    hide BodyTagOf;
  }

  // ---- the plan ----------------------------------------------------------------------------------

  /** The plan has no outputs, so nothing depends on it. */
  lemma NothingDependsOnIt(db: Db, db': Db, clock: Clock, q: string)
    requires SchemaOk(db.tables) && SchemaOk(db'.tables) && Interned(db'.tables.tags)
    requires Inserted(db, db', "p", clock, WANTING)
    requires forall o :: o in db.ledger.planOfOutput ==> db.ledger.planOfOutput[o] == "upload"
    ensures !DependsOn(db', q, "p")
  {
    hide SchemaOk, Interned, SameOthers, OldMounts, InputsThrough, OutputAt, Feeds;
    assert "upload"[0] != "p"[0] || |"upload"| != |"p"|;
  }

  lemma NoCycleAfter(db: Db, db': Db, clock: Clock)
    requires SchemaOk(db.tables) && SchemaOk(db'.tables) && Interned(db'.tables.tags)
    requires Inserted(db, db', "p", clock, WANTING) && "p" in db'.ledger.plan
    requires forall o :: o in db.ledger.planOfOutput ==> db.ledger.planOfOutput[o] == "upload"
    ensures !OnCycle(db', "p")
  {
    hide SchemaOk, Interned, Inserted, DependsOn, Within;
    var adj := Dependency(db');
    forall q
      ensures q !in adj["p"]
    {
      NothingDependsOnIt(db, db', clock, q);
    }
    assert adj["p"] == {};
    forall n: nat
      ensures Within(adj, adj["p"], {}, n) == {}
    {
      WithinInduction(adj, adj["p"], n, {});
    }
  }

  lemma NoCycle(db: Db, knitId: string, clock: Clock)
    requires Uploading(db, knitId, Done)
    ensures !ClosesCycle(db, "p", true, clock, WANTING)
  {
    hide Interned, Inserted, OnCycle;
    var started := WithPlan(db, "p", true);
    forall inserted: Db | SchemaOk(started.tables) && SchemaOk(inserted.tables)
      && Inserted(started, inserted, "p", clock, WANTING) && "p" in inserted.ledger.plan
      ensures !OnCycle(inserted, "p")
    {
      LinkedAreKnown(inserted.tables);
      hide SchemaOk;
      NoCycleAfter(started, inserted, clock);
    }
  }

  /** The plan's input wants the upload. */
  ghost predicate Expecting(db: Db, knitId: string) {
    && db.tables.run.Keys == {"r0"} && db.ledger.planOfRun == map["r0" := "upload"] && UploadNames(db)
    && db.ledger.planOfInput == map[1 := "p"] && "p" in db.ledger.plan && db.ledger.plan["p"] == ImagePlan(true)
    && (knitId, 1) in db.tables.nomination && db.tables.nomination[(knitId, 1)]
  }

  lemma UploadMatches(d: Tables, d': Tables, knitId: string)
    requires SchemaOk(d) && SchemaOk(d') && SameOthers(d, d') && IsDone(d, knitId) && UPLOADED in UserTags(d.tags, knitId)
    requires 1 in d'.input && RequiredTags(d', 1) == {UserTag(UPLOADED)}
    ensures Matches(d', 1, knitId)
  {
    hide SchemaOk, RequiredTags, UserTags;
  }

  lemma PlanInserted(db: Db, db': Db, clock: Clock)
    requires SchemaOk(db.tables) && SchemaOk(db'.tables) && Inserted(db, db', "p", clock, WANTING)
    requires db.tables.input == {} && db.ledger.inputSerial == 1 && db.ledger.planOfInput == map[]
    requires db'.ledger.planOfInput.Keys == db'.tables.input
    ensures db'.ledger.planOfInput == map[1 := "p"] && RequiredTags(db'.tables, 1) == {UserTag(UPLOADED)}
    ensures SameOthers(db.tables, db'.tables) && db'.ledger.plan == db.ledger.plan && db'.ledger.garbage == db.ledger.garbage && db'.ledger.planOfRun == db.ledger.planOfRun
  {
    Wanted(clock);
    hide SchemaOk, SameOthers, OldMounts, OutputsThrough, RequiredTags, Required, RowsOk;
    assert InputAt(db, db', "p", clock, WANTING.inputs[0], 0);
    assert db'.tables.input == {1};
  }

  lemma InputsAgree(db: Db)
    requires Good(db)
    ensures db.ledger.planOfInput.Keys == db.tables.input && SchemaOk(db.tables) && Exact(db.tables)
  {
    hide SchemaOk, Exact;
  }

  lemma NewPairIsFlagged(db: Db, db': Db, knitId: string)
    requires SchemaOk(db.tables) && db.tables.input == {} && SchemaOk(db'.tables) && Exact(db'.tables) && Matches(db'.tables, 1, knitId)
    requires FlagsKept(db.tables.nomination, db'.tables.nomination)
    ensures (knitId, 1) in db'.tables.nomination && db'.tables.nomination[(knitId, 1)]
  {
    SchemaNominated(db.tables, knitId, 1);
    hide SchemaOk, Matches;
    ExactAt(db'.tables, knitId, 1);
  }

  lemma PlanIsThere(db: Db, db': Db, knitId: string, clock: Clock)
    requires Uploading(db, knitId, Done)
    requires PlanRegistered(db, db', "p", true, clock, WANTING) && db'.ledger.planOfInput.Keys == db'.tables.input
    ensures SchemaOk(db.tables) && SchemaOk(db'.tables) && SameOthers(db.tables, db'.tables)
    ensures db'.ledger.planOfInput == map[1 := "p"] && RequiredTags(db'.tables, 1) == {UserTag(UPLOADED)}
    ensures db'.ledger.plan == db.ledger.plan["p" := ImagePlan(true)] && db'.ledger.garbage == db.ledger.garbage && db'.ledger.planOfRun == db.ledger.planOfRun
    ensures FlagsKept(db.tables.nomination, db'.tables.nomination)
  {
    hide SchemaOk, Inserted, FlagsKept, Nominated, SameOthers, RequiredTags;
    PlanInserted(WithPlan(db, "p", true), db', clock);
  }

  lemma PlanExpects(db: Db, db': Db, knitId: string, clock: Clock)
    requires Uploading(db, knitId, Done)
    requires Interned(db.tables.tags) && UPLOADED in UserTags(db.tables.tags, knitId)
    requires Good(db') && PlanRegistered(db, db', "p", true, clock, WANTING)
    ensures Expecting(db', knitId)
  {
    hide Good, SchemaOk, Exact, Interned, UserTags, RequiredTags, FlagsKept, Matches, SameOthers, PlanRegistered, UploadNames;
    InputsAgree(db');
    PlanIsThere(db, db', knitId, clock);
    SameUploadNames(db, db');
    SameOthersMean(db.tables, db'.tables);
    UploadMatches(db.tables, db'.tables, knitId);
    NewPairIsFlagged(db, db', knitId);
  }

  lemma SameUploadNames(db: Db, db': Db)
    requires UploadNames(db) && SchemaOk(db.tables) && SchemaOk(db'.tables) && SameOthers(db.tables, db'.tables)
    requires db'.ledger.garbage == db.ledger.garbage
    ensures UploadNames(db')
  {
    hide SchemaOk, UserTags;
  }

  lemma SameOthersMean(d: Tables, d': Tables)
    requires SchemaOk(d) && SchemaOk(d') && SameOthers(d, d')
    ensures d'.run == d.run && d'.data == d.data
  {
  }

  // ---- the run -----------------------------------------------------------------------------------

  lemma RunStarted(db: Db, db': Db, knitId: string, trigger: (string, int)) returns (runId: string)
    requires Expecting(db, knitId) && Round(db, db', trigger) && AllRun(db')
    ensures runId in db'.ledger.planOfRun && db'.ledger.planOfRun[runId] == "p" && (runId, 1) in db'.ledger.assign
    ensures runId !in db.tables.run
    ensures (knitId, 1) in db'.tables.nomination
  {
    hide RunOfRound, Known, StartsRuns;
    var inputs := map[1 := trigger.0];
    assert trigger.1 == 1;
    assert Settled(db'.tables, trigger.0, 1) by {
      assert trigger == (trigger.0, 1);
    }
    assert InputsOf(db'.ledger, "p") == {1};
    assert HasInputs(db'.ledger, "p") && Combination(db', "p", inputs);
    runId := KnownRun(db'.ledger, "p", inputs);
  }

  lemma RunWaitsForWorker(db: Db, db': Db, knitId: string, trigger: (string, int), runId: string)
    requires Expecting(db, knitId) && Round(db, db', trigger) && runId !in db.tables.run && runId in db'.ledger.planOfRun
    requires Good(db')
    ensures runId in db'.tables.run && db'.tables.run[runId] == Waiting && runId in db'.ledger.worker
  {
    RunsAgree(db');
    hide RunOfRound, KeepsRuns, Good;
    assert trigger.1 == 1;
  }

  lemma KnownRun(x: Ledger, planId: string, inputs: map<int, string>) returns (runId: string)
    requires Known(x, planId, inputs)
    ensures runId in x.planOfRun && x.planOfRun[runId] == planId && HasPattern(x, runId, inputs)
  {
    runId :| runId in x.planOfRun && x.planOfRun[runId] == planId && HasPattern(x, runId, inputs);
  }

  lemma UploadGoesOn(db: Db, db': Db, knitId: string, status: Status, next: Status)
    requires Uploading(db, knitId, status)
    requires db'.tables.run == db.tables.run["r0" := next] && db'.tables.data == db.tables.data && db'.tables.input == db.tables.input
    requires db'.ledger == db.ledger
    ensures Uploading(db', knitId, next)
  {
  }

  lemma AnyUpload(db: Db, knitId: string, k: string, status: Status)
    requires Uploading(db, knitId, status) && k in db.tables.data && db.tables.data[k] == "r0"
    ensures Uploading(db, k, status)
  {
  }

  lemma StatusGoesOn(db: Db, knitId: string, status: Status, next: Status)
    requires Uploading(db, knitId, status)
    ensures Uploading(WithStatus(db, "r0", next), knitId, next) && WithStatus(db, "r0", next).tables.tags == db.tables.tags
  {
    UploadGoesOn(db, WithStatus(db, "r0", next), knitId, status, next);
  }

  lemma UploadIsDone(db: Db, db': Db, knitId: string)
    requires Uploading(db, knitId, Completing) && Finished(db, db', "r0", 0)
    ensures Uploading(db', knitId, Done) && db'.tables.tags == db.tables.tags
  {
    hide FlagsKept, DataOfRun, Uploading;
    assert db.tables.run["r0"] == Completing by {
      UploadStatus(db, knitId, Completing);
    }
    UploadGoesOn(db, db', knitId, Completing, Done);
  }

  lemma UploadStatus(db: Db, knitId: string, status: Status)
    requires Uploading(db, knitId, status)
    ensures "r0" in db.tables.run && db.tables.run["r0"] == status
    ensures knitId in db.tables.data && db.tables.data[knitId] == "r0" && "p" !in db.ledger.plan
  {
    assert |"p"| != |"upload"|;
  }

  lemma ExpectedIsFlagged(db: Db, knitId: string)
    requires Expecting(db, knitId)
    ensures FreshRuns(db, RunIds(), LaterNames())
    ensures (knitId, 1) in db.tables.nomination && db.tables.nomination[(knitId, 1)]
    ensures 1 in db.ledger.planOfInput && db.ledger.planOfInput[1] in db.ledger.plan && db.ledger.plan[db.ledger.planOfInput[1]].ImagePlan?
  {
    RoundIsFresh(db);
    hide UploadNames, FreshRuns;
  }

  method Upload() returns (db: KnitDatabase, knitId: string)
    ensures fresh(db) && db.Valid() && Uploading(db.View(), knitId, Running)
  {
    hide Sane, Registered, NamedBy, FreshNames, WithPseudoPlan, Uploading, Fits;
    db := new KnitDatabase();
    var r := db.AddPseudoPlan("upload");
    UploadFits();
    r := db.NewPseudo("upload", "r0", Names(0), (k: string) => k);
    ghost var made := UploadStarts(db.View());
    UploadStatus(db.View(), made, Running);
    knitId :| knitId in db.tables.data && db.tables.data[knitId] == "r0";
    AnyUpload(db.View(), made, knitId, Running);
  }

  /** The data is tagged, and its run is over. */
  method TagAndFinish(db: KnitDatabase, knitId: string)
    requires db.Valid() && Uploading(db.View(), knitId, Running)
    modifies db
    ensures db.Valid() && Uploading(db.View(), knitId, Done)
    ensures Interned(db.tables.tags) && UPLOADED in UserTags(db.tables.tags, knitId)
  {
    hide Sane, Uploading, UserTags, Interned, Finished, OnlyTouches, FlagsKept, Nominated, WithStatus;
    UploadStatus(db.View(), knitId, Running);
    ghost var before := db.View();
    var r := db.UpdateTag(knitId, TagDelta([], [], [UPLOADED]));
    UploadGoesOn(before, db.View(), knitId, Running, Running);
    UploadStatus(db.View(), knitId, Running);
    ghost var tagged := db.View();
    r := db.SetStatus("r0", Completing, 0);
    StatusGoesOn(tagged, knitId, Running, Completing);
    StatusRows(tagged, "r0", Completing);
    UploadStatus(db.View(), knitId, Completing);
    ghost var completing := db.View();
    r := db.Finish("r0", 0);
    UploadIsDone(completing, db.View(), knitId);
  }

  /** From an empty database to a nominated data, and on to the run that uses it. */
  method UploadAndRun(clock: Clock) returns (db: KnitDatabase, ghost knitId: string, ghost runId: string)
    ensures db.Valid() && (knitId, 1) in db.tables.nomination
    ensures runId in db.ledger.planOfRun && db.ledger.planOfRun[runId] == "p" && (runId, 1) in db.ledger.assign
    ensures runId in db.tables.run && db.tables.run[runId] == Waiting && runId in db.ledger.worker
  {
    hide Sane, Good, Uploading, UserTags, Interned, PlanRegistered, RowsOk, ClosesCycle, Expecting, FreshRuns, Round, Flagged, Acyclic, Orderly, AllRun, Stamped, Made, Complete;
    var uploaded;
    db, uploaded := Upload();
    knitId := uploaded;
    TagAndFinish(db, uploaded);
    ghost var done := db.View();
    UploadStatus(done, knitId, Done);
    Wanted(clock);
    NoCycle(done, knitId, clock);
    var r := db.RegisterPlan("p", true, clock, WANTING, false);
    SaneMeans(db.View());
    PlanExpects(done, db.View(), knitId, clock);
    ghost var expecting := db.View();
    ExpectedIsFlagged(expecting, knitId);
    ghost var trigger;
    r, trigger := db.New(RunIds(), LaterNames(), (k: string) => k);
    SaneMeans(db.View());
    runId := RunStarted(expecting, db.View(), knitId, trigger.value);
    RunWaitsForWorker(expecting, db.View(), knitId, trigger.value, runId);
  }

  /** Asked for an id that is not its own, the data carries it, but is not found. */
  ghost predicate Misses(d: Tables, env: F.Env, knitId: string, t: Tag) {
    && SchemaOk(d) && F.SchemaKnown(d, env)
    && F.Answers(d, env, {t}, F.Window(None, None), knitId) && !F.Chosen(d, env, {t}, F.Window(None, None), knitId)
  }

  lemma MislabelledIsMissed(d: Tables, env: F.Env, knitId: string, t: Tag)
    requires SchemaOk(d) && F.SchemaKnown(d, env) && knitId in d.data && t in UserTags(d.tags, knitId)
    requires t.key == KEY_KNIT_ID && t.value != knitId
    ensures Misses(d, env, knitId, t)
  {
    ReservedKeys();
    hide SchemaOk, UserTags;
    F.LinkedIsNotFound(d, env, knitId, t);
  }

  /** Users can put any system tag on a data: one step that makes `Find` differ from the tags that
      `GetDataBody` rebuilds, whatever the environment. */
  method Mislabel() returns (db: KnitDatabase, knitId: string)
    ensures db.Valid() && knitId in db.tables.data && db.tables.run.Keys == {"r0"}
    ensures forall env :: F.SchemaKnown(db.tables, env) ==> Misses(db.tables, env, knitId, Tag(KEY_KNIT_ID, knitId + "x"))
  {
    hide Sane, Good, Uploading, UserTags, Interned, OnlyTouches, FlagsKept, Nominated, Misses, F.SchemaKnown;
    db, knitId := Upload();
    TagAndFinish(db, knitId);
    ghost var done := db.View();
    UploadStatus(done, knitId, Done);
    var t := Tag(KEY_KNIT_ID, knitId + "x");
    var r := db.UpdateTag(knitId, TagDelta([], [], [t]));
    UploadGoesOn(done, db.View(), knitId, Done, Done);
    UploadStatus(db.View(), knitId, Done);
    assert db.tables.run == done.tables.run;
    SaneMeans(db.View());
    GoodLinks(db.View());
    assert |knitId + "x"| != |knitId|;
    forall env | F.SchemaKnown(db.tables, env)
      ensures Misses(db.tables, env, knitId, t)
    {
      MislabelledIsMissed(db.tables, env, knitId, t);
    }
    UploadRuns(db.View(), knitId, Done);
  }

  lemma UploadRuns(db: Db, knitId: string, status: Status)
    requires Uploading(db, knitId, status)
    ensures db.tables.run.Keys == {"r0"}
  {
  }
}
