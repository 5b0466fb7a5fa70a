/** `complementData`, pkg/domain/run/db/postgres/run.go: data for the outputs of a run that have none. */
module RunOutputs {
  import opened Results
  import opened TagStore
  import opened Nomination
  import opened Upkeep
  import opened Ledgers
  import opened Runs

  /** The outputs of the run's plan that have no data yet. */
  function MissingOutputs(db: Db, runId: string): set<int>
    requires runId in db.ledger.planOfRun
  {
    set o | o in db.ledger.planOfOutput && db.ledger.planOfOutput[o] == db.ledger.planOfRun[runId] && !HasOutput(db, runId, o)
  }

  predicate HasOutput(db: Db, runId: string, o: int) {
    exists k :: k in db.tables.data && IsOutput(db, runId, o, k)
  }

  predicate IsOutput(db: Db, runId: string, o: int, k: string) {
    k in db.tables.data && db.tables.data[k] == runId && k in db.ledger.outputOfData && db.ledger.outputOfData[k] == o
  }

  /** A data row, its volume, and copies of the output's tags. */
  function WithData(db: Db, runId: string, o: int, k: string, volume: string): Db
    requires Interned(db.tables.tags)
  {
    Db(db.tables.(data := db.tables.data[k := runId], tags := CopyOutputTags(db.tables.tags, o, k)),
       db.ledger.(outputOfData := db.ledger.outputOfData[k := o], volumeOfData := db.ledger.volumeOfData[k := volume]))
  }

  // ---- growing -----------------------------------------------------------------------------------

  ghost predicate OnlyData(before: Db, after: Db) {
    && after.tables == before.tables.(data := after.tables.data, tags := after.tables.tags)
    && after.ledger == before.ledger.(outputOfData := after.ledger.outputOfData, volumeOfData := after.ledger.volumeOfData)
  }

  ghost predicate SameMounts(t: TagTables, t': TagTables)
    requires Interned(t) && Interned(t')
  {
    && (forall i :: InputTags(t', i) == InputTags(t, i))
    && (forall o :: OutputTags(t', o) == OutputTags(t, o))
  }

  ghost predicate KeptData(before: Db, after: Db, k: string)
    requires Interned(before.tables.tags) && Interned(after.tables.tags)
  {
    k in before.tables.data ==>
      && k in after.tables.data && after.tables.data[k] == before.tables.data[k]
      && UserTags(after.tables.tags, k) == UserTags(before.tables.tags, k)
  }

  ghost predicate KeptOutput(before: Db, after: Db, k: string) {
    k in before.ledger.outputOfData ==>
      k in after.ledger.outputOfData && after.ledger.outputOfData[k] == before.ledger.outputOfData[k]
  }

  /** New data are the run's, and carry the tags of their outputs. */
  ghost predicate NewData(before: Db, after: Db, runId: string, k: string)
    requires Interned(before.tables.tags) && Interned(after.tables.tags)
  {
    k in after.tables.data && k !in before.tables.data ==>
      && after.tables.data[k] == runId && k in after.ledger.outputOfData
      && UserTags(after.tables.tags, k) == OutputTags(before.tables.tags, after.ledger.outputOfData[k])
  }

  /** `after` has what `before` has, and some new data of the run. */
  ghost predicate Grown(before: Db, after: Db, runId: string)
    requires Interned(before.tables.tags) && Interned(after.tables.tags)
  {
    && OnlyData(before, after) && SameMounts(before.tables.tags, after.tables.tags)
    && forall k :: KeptData(before, after, k) && KeptOutput(before, after, k) && NewData(before, after, runId, k)
  }

  /** The tables while the transaction is under way. */
  ghost predicate Midway(db: Db, runId: string) {
    SchemaOk(db.tables) && Refs(db.tables, db.ledger) && runId in db.tables.run
  }

  lemma MidwayMeans(db: Db, runId: string)
    requires Midway(db, runId)
    ensures SchemaOk(db.tables) && Refs(db.tables, db.ledger) && Interned(db.tables.tags)
    ensures db.ledger.outputOfData.Keys == db.tables.data.Keys && runId in db.ledger.planOfRun
  {
    hide Interned;
  }

  lemma NotGrown(db: Db, runId: string)
    requires Interned(db.tables.tags)
    ensures Grown(db, db, runId)
  {
    hide UserTags, InputTags, OutputTags, Interned;
  }

  // ---- one more data -----------------------------------------------------------------------------

  lemma WithDataSchema(d: Tables, runId: string, o: int, k: string)
    requires SchemaOk(d) && runId in d.run && k !in d.data
    ensures SchemaOk(d.(data := d.data[k := runId], tags := CopyOutputTags(d.tags, o, k)))
  {
    var t' := CopyOutputTags(d.tags, o, k);
    assert Interned(t');
    assert t'.tagInput == d.tags.tagInput && forall r :: r in t'.tagData ==> r in d.tags.tagData || r.1 == k;
    hide Interned, CopyOutputTags;
  }

  lemma WithDataDataRefs(d: Tables, d': Tables, x: Ledger, runId: string, o: int, k: string, volume: string)
    requires DataRefs(d, x) && d'.data == d.data[k := runId]
    requires k !in x.garbage && o in x.planOfOutput
    ensures DataRefs(d', x.(outputOfData := x.outputOfData[k := o], volumeOfData := x.volumeOfData[k := volume]))
  {
  }

  lemma WithDataMountRefs(d: Tables, d': Tables, x: Ledger, o: int, k: string, volume: string)
    requires MountRefs(d, x) && d'.input == d.input && d'.tags.tagOutput == d.tags.tagOutput
    ensures MountRefs(d', x.(outputOfData := x.outputOfData[k := o], volumeOfData := x.volumeOfData[k := volume]))
  {
  }

  lemma WithDataRunRefs(d: Tables, d': Tables, x: Ledger, o: int, k: string, volume: string)
    requires RunRefs(d, x) && AssignRefs(d, x) && d'.run == d.run && d'.input == d.input && d.data.Keys <= d'.data.Keys
    ensures RunRefs(d', x.(outputOfData := x.outputOfData[k := o], volumeOfData := x.volumeOfData[k := volume]))
    ensures AssignRefs(d', x.(outputOfData := x.outputOfData[k := o], volumeOfData := x.volumeOfData[k := volume]))
  {
  }

  lemma WithDataRefs(db: Db, runId: string, o: int, k: string, volume: string)
    requires Interned(db.tables.tags) && Refs(db.tables, db.ledger) && k !in db.ledger.garbage && o in db.ledger.planOfOutput
    ensures Refs(WithData(db, runId, o, k, volume).tables, WithData(db, runId, o, k, volume).ledger)
  {
    hide Interned, RunRefs, MountRefs, DataRefs, AssignRefs;
    var db' := WithData(db, runId, o, k, volume);
    WithDataRunRefs(db.tables, db'.tables, db.ledger, o, k, volume);
    WithDataMountRefs(db.tables, db'.tables, db.ledger, o, k, volume);
    WithDataDataRefs(db.tables, db'.tables, db.ledger, runId, o, k, volume);
  }

  lemma NoTagsYet(d: Tables, knitId: string)
    requires SchemaOk(d) && knitId !in d.data
    ensures UserTags(d.tags, knitId) == {}
  {
  }

  lemma WithDataMidway(db: Db, runId: string, o: int, k: string, volume: string)
    requires Midway(db, runId) && k !in db.tables.data && k !in db.ledger.garbage && o in db.ledger.planOfOutput
    ensures Interned(db.tables.tags) && Midway(WithData(db, runId, o, k, volume), runId)
  {
    MidwayMeans(db, runId);
    hide Interned;
    WithDataRefs(db, runId, o, k, volume);
    WithDataSchema(db.tables, runId, o, k);
    hide SchemaOk, Refs, Interned, CopyOutputTags;
  }

  /** `db'` has one data more than `db`. */
  ghost predicate OneMore(db: Db, db': Db, runId: string, o: int, k: string)
    requires Interned(db.tables.tags) && Interned(db'.tables.tags)
  {
    && OnlyData(db, db') && SameMounts(db.tables.tags, db'.tables.tags)
    && db'.tables.data == db.tables.data[k := runId] && db'.ledger.outputOfData == db.ledger.outputOfData[k := o]
    && UserTags(db'.tables.tags, k) == OutputTags(db.tables.tags, o)
    && (forall p :: p != k ==> UserTags(db'.tables.tags, p) == UserTags(db.tables.tags, p))
  }

  lemma WithDataIsOneMore(db: Db, runId: string, o: int, k: string, volume: string)
    requires Interned(db.tables.tags) && UserTags(db.tables.tags, k) == {}
    ensures OneMore(db, WithData(db, runId, o, k, volume), runId, o, k)
  {
    CopyReadsBack(db.tables.tags, o, k);
    hide Interned, UserTags, InputTags, OutputTags, Extends, CopyOutputTags;
  }

  lemma GrowsOnAt(before: Db, db: Db, db': Db, runId: string, o: int, k: string, p: string)
    requires Interned(before.tables.tags) && Interned(db.tables.tags) && Interned(db'.tables.tags)
    requires Grown(before, db, runId) && before.ledger.outputOfData.Keys <= before.tables.data.Keys
    requires k !in db.tables.data && OneMore(db, db', runId, o, k)
    ensures KeptData(before, db', p) && KeptOutput(before, db', p) && NewData(before, db', runId, p)
  {
    hide Interned, UserTags, InputTags, OutputTags;
    assert KeptData(before, db, p) && KeptOutput(before, db, p) && NewData(before, db, runId, p);
    assert KeptData(before, db, k);
  }

  lemma GrowsOn(before: Db, db: Db, db': Db, runId: string, o: int, k: string)
    requires Interned(before.tables.tags) && Interned(db.tables.tags) && Interned(db'.tables.tags)
    requires Grown(before, db, runId) && before.ledger.outputOfData.Keys <= before.tables.data.Keys
    requires k !in db.tables.data && OneMore(db, db', runId, o, k)
    ensures Grown(before, db', runId)
  {
    hide Interned, UserTags, InputTags, OutputTags, KeptData, KeptOutput, NewData;
    forall p
      ensures KeptData(before, db', p) && KeptOutput(before, db', p) && NewData(before, db', runId, p)
    {
      hide OneMore, Grown;
      GrowsOnAt(before, db, db', runId, o, k, p);
    }
  }

  lemma OneLessMissing(db: Db, db': Db, runId: string, o: int, k: string)
    requires Interned(db.tables.tags) && Interned(db'.tables.tags) && OneMore(db, db', runId, o, k)
    requires k !in db.tables.data && runId in db.ledger.planOfRun && o in MissingOutputs(db, runId)
    ensures runId in db'.ledger.planOfRun && MissingOutputs(db', runId) == MissingOutputs(db, runId) - {o}
  {
    hide Interned, UserTags, OutputTags, SameMounts;
    forall p
      ensures HasOutput(db', runId, p) <==> HasOutput(db, runId, p) || p == o
    {
      assert forall q :: q != k ==> (IsOutput(db', runId, p, q) <==> IsOutput(db, runId, p, q));
      assert IsOutput(db', runId, o, k);
    }
    hide HasOutput, IsOutput;
  }

  // ---- what data are made for ----------------------------------------------------------------------

  ghost predicate MadeAs(db: Db, k: string) {
    && k in db.tables.data && k in db.ledger.outputOfData && db.tables.data[k] in db.ledger.planOfRun
    && db.ledger.outputOfData[k] in db.ledger.planOfOutput
    && db.ledger.planOfOutput[db.ledger.outputOfData[k]] == db.ledger.planOfRun[db.tables.data[k]]
  }

  /** Data are for outputs of their runs' plans, and a run has one data for an output at most. */
  ghost predicate Made(db: Db) {
    && (forall k :: k in db.tables.data ==> MadeAs(db, k))
    && (forall k, l :: SameMaking(db, k, l) ==> k == l)
  }

  ghost predicate SameMaking(db: Db, k: string, l: string) {
    && k in db.tables.data && l in db.tables.data && db.tables.data[k] == db.tables.data[l]
    && k in db.ledger.outputOfData && l in db.ledger.outputOfData && db.ledger.outputOfData[k] == db.ledger.outputOfData[l]
  }

  /** What `Made` looks at is the same for the data that are left. */
  ghost predicate MadeSame(db: Db, db': Db) {
    && (forall k :: k in db'.tables.data ==>
          && k in db.tables.data && db'.tables.data[k] == db.tables.data[k]
          && (k in db.ledger.outputOfData ==> k in db'.ledger.outputOfData && db'.ledger.outputOfData[k] == db.ledger.outputOfData[k])
          && (db.tables.data[k] in db.ledger.planOfRun ==>
                db.tables.data[k] in db'.ledger.planOfRun && db'.ledger.planOfRun[db.tables.data[k]] == db.ledger.planOfRun[db.tables.data[k]]))
    && (forall o :: o in db.ledger.planOfOutput ==> o in db'.ledger.planOfOutput && db'.ledger.planOfOutput[o] == db.ledger.planOfOutput[o])
  }

  lemma MadeKept(db: Db, db': Db)
    requires Made(db) && MadeSame(db, db')
    ensures Made(db')
  {
    forall k | k in db'.tables.data
      ensures MadeAs(db', k)
    {
      assert MadeAs(db, k);
    }
    forall k, l | SameMaking(db', k, l)
      ensures k == l
    {
      assert MadeAs(db, k) && MadeAs(db, l) && SameMaking(db, k, l);
    }
  }

  lemma WithDataMade(db: Db, db': Db, runId: string, o: int, k: string)
    requires Interned(db.tables.tags) && Interned(db'.tables.tags) && OneMore(db, db', runId, o, k)
    requires k !in db.tables.data && runId in db.ledger.planOfRun && o in MissingOutputs(db, runId) && Made(db)
    ensures Made(db')
  {
    hide Interned, SameMounts, UserTags, OutputTags;
    forall l | l in db'.tables.data
      ensures MadeAs(db', l)
    {
      assert l != k ==> MadeAs(db, l);
    }
    forall l | l in db.tables.data && db.tables.data[l] == runId
      ensures l in db.ledger.outputOfData && db.ledger.outputOfData[l] != o
    {
      assert MadeAs(db, l) && !IsOutput(db, runId, o, l);
    }
    forall l, n | SameMaking(db', l, n)
      ensures l == n
    {
      assert l != k && n != k ==> MadeAs(db, l) && MadeAs(db, n) && SameMaking(db, l, n);
    }
  }

  /** Ids that the database will generate: all different, and none in use. */
  ghost predicate FreshNames(db: Db, names: nat -> string) {
    && (forall a: nat, b: nat :: names(a) == names(b) ==> a == b)
    && (forall a: nat :: names(a) !in db.tables.data && names(a) !in db.ledger.garbage)
  }

  /** New data have generated ids. */
  ghost predicate NamedBy(db: Db, db': Db, names: nat -> string) {
    && db'.ledger.garbage == db.ledger.garbage
    && forall k :: k in db'.tables.data ==> k in db.tables.data || exists a: nat :: names(a) == k
  }

  /** The first `n` names are used up. */
  ghost predicate UsedUp(db: Db, out: Db, names: nat -> string, n: nat) {
    && out.ledger.garbage == db.ledger.garbage
    && forall k :: k in out.tables.data ==> k in db.tables.data || exists a: nat :: a < n && names(a) == k
  }

  lemma NotUsedYet(db: Db, out: Db, names: nat -> string, n: nat)
    requires UsedUp(db, out, names, n) && FreshNames(db, names)
    ensures names(n) !in out.tables.data && names(n) !in out.ledger.garbage
  {
  }

  lemma UseName(db: Db, out: Db, runId: string, o: int, names: nat -> string, n: nat, volume: string)
    requires UsedUp(db, out, names, n) && Interned(out.tables.tags)
    ensures UsedUp(db, WithData(out, runId, o, names(n), volume), names, n + 1)
  {
    hide Interned, CopyOutputTags;
    forall k | k in out.tables.data && k !in db.tables.data
      ensures exists a: nat :: a < n + 1 && names(a) == k
    {
      var a: nat :| a < n && names(a) == k;
      assert a < n + 1;
    }
  }

  /** Volumes that there are stay, and each new data has the one for its id. */
  ghost predicate VolumesBy(db: Db, out: Db, volume: string -> string) {
    forall k :: k in out.ledger.volumeOfData ==>
      out.ledger.volumeOfData[k] == if k in db.ledger.volumeOfData then db.ledger.volumeOfData[k] else volume(k)
  }

  lemma NextVolume(db: Db, out: Db, runId: string, o: int, k: string, volume: string -> string)
    requires VolumesBy(db, out, volume) && Interned(out.tables.tags) && k !in db.ledger.volumeOfData
    ensures VolumesBy(db, WithData(out, runId, o, k, volume(k)), volume)
    ensures WithData(out, runId, o, k, volume(k)).tables.data.Keys == out.tables.data.Keys + {k}
  {
    hide Interned, CopyOutputTags;
  }

  lemma NoVolume(db: Db, volume: string -> string)
    ensures VolumesBy(db, db, volume)
  {
  }

  lemma VolumesOfData(db: Db, runId: string)
    requires Midway(db, runId)
    ensures db.ledger.volumeOfData.Keys == db.tables.data.Keys
  {
    hide Interned;
  }

  /** `complementData`: every output of the plan without data gets one, under a fresh id. An id that is
      taken violates a primary key. */
  method ComplementData(db: Db, runId: string, names: nat -> string, volume: string -> string) returns (r: Result<Db, DbError>)
    requires Midway(db, runId)
    ensures r.Ok? ==> Midway(r.value, runId) && Interned(db.tables.tags) && Interned(r.value.tables.tags) && Grown(db, r.value, runId)
    ensures r.Ok? ==> runId in r.value.ledger.planOfRun && MissingOutputs(r.value, runId) == {}
    ensures r.Ok? ==> NamedBy(db, r.value, names) && (Made(db) ==> Made(r.value)) && VolumesBy(db, r.value, volume)
    ensures r.Err? ==> r.error == Conflict && !FreshNames(db, names)
  {
    MidwayMeans(db, runId);
    NotGrown(db, runId);
    var out, n := db, 0;
    var missing := MissingOutputs(db, runId);
    hide Midway, Interned, Grown, HasOutput, CopyOutputTags, FreshNames, UsedUp, WithData, Made, VolumesBy;
    NoNameUsed(db, names);
    VolumesOfData(db, runId);
    NoVolume(db, volume);
    while missing != {}
      invariant Midway(out, runId) && runId in out.ledger.planOfRun
      invariant Interned(out.tables.tags) && Grown(db, out, runId) && UsedUp(db, out, names, n) && (Made(db) ==> Made(out))
      invariant missing == MissingOutputs(out, runId) && VolumesBy(db, out, volume) && db.tables.data.Keys <= out.tables.data.Keys
      decreases missing
    {
      var o :| o in missing;
      var k := names(n);
      if k in out.tables.data || k in out.ledger.garbage {
        TakenName(db, out, names, n);
        return Err(Conflict);
      }
      var next := WithData(out, runId, o, k, volume(k));
      WithDataMidway(out, runId, o, k, volume(k));
      MidwayMeans(next, runId);
      NoTagsYet(out.tables, k);
      WithDataIsOneMore(out, runId, o, k, volume(k));
      GrowsOn(db, out, next, runId, o, k);
      OneLessMissing(out, next, runId, o, k);
      if Made(out) {
        WithDataMade(out, next, runId, o, k);
      }
      UseName(db, out, runId, o, names, n, volume(k));
      NextVolume(db, out, runId, o, k, volume);
      missing := missing - {o};
      out := next;
      n := n + 1;
    }
    NamesUsed(db, out, names, n);
    return Ok(out);
  }

  lemma NoNameUsed(db: Db, names: nat -> string)
    ensures UsedUp(db, db, names, 0)
  {
  }

  lemma TakenName(db: Db, out: Db, names: nat -> string, n: nat)
    requires UsedUp(db, out, names, n) && (names(n) in out.tables.data || names(n) in out.ledger.garbage)
    ensures !FreshNames(db, names)
  {
    hide UsedUp;
    if FreshNames(db, names) {
      NotUsedYet(db, out, names, n);
      assert false;
    }
  }

  lemma NamesUsed(db: Db, out: Db, names: nat -> string, n: nat)
    requires UsedUp(db, out, names, n)
    ensures NamedBy(db, out, names)
  {
  }

  // ---- growing and settling ----------------------------------------------------------------------

  /** The run as it stands before new data come: not done, or without data. */
  predicate Unsettled(d: Tables, runId: string) {
    runId in d.run && (d.run[runId] != Done || DataOfRun(d, runId) == {})
  }

  lemma UnsettledNotDone(d: Tables, runId: string, k: string)
    requires Unsettled(d, runId) && k in d.data && d.data[k] == runId
    ensures !IsDone(d, k)
  {
    assert k in DataOfRun(d, runId);
  }

  lemma GrownSameData(before: Db, after: Db, runId: string, status: Status, k: string)
    requires SchemaOk(before.tables) && SchemaOk(after.tables) && Grown(before, after, runId)
    requires SchemaOk(after.tables.(run := after.tables.run[runId := status]))
    requires Unsettled(before.tables, runId) && status != Done
    ensures SameData(before.tables, after.tables.(run := after.tables.run[runId := status]), k)
  {
    assert KeptData(before, after, k) && NewData(before, after, runId, k);
    if k in before.tables.data && before.tables.data[k] == runId {
      UnsettledNotDone(before.tables, runId, k);
    }
    hide SchemaOk, Interned, SameMounts, KeptOutput, UserTags, InputTags, OutputTags, Unsettled;
  }

  lemma GrownSameInput(before: Db, after: Db, runId: string, status: Status, i: int)
    requires SchemaOk(before.tables) && SchemaOk(after.tables) && Grown(before, after, runId)
    requires SchemaOk(after.tables.(run := after.tables.run[runId := status]))
    ensures SameInput(before.tables, after.tables.(run := after.tables.run[runId := status]), i)
  {
    hide SchemaOk, Interned, KeptData, KeptOutput, NewData, UserTags, InputTags, OutputTags;
  }

  lemma GrownSame(before: Db, after: Db, runId: string, status: Status)
    requires SchemaOk(before.tables) && Exact(before.tables) && SchemaOk(after.tables) && Grown(before, after, runId)
    requires SchemaOk(after.tables.(run := after.tables.run[runId := status]))
    requires Unsettled(before.tables, runId) && status != Done
    ensures Exact(after.tables.(run := after.tables.run[runId := status]))
  {
    assert after.tables.nomination == before.tables.nomination;
    hide SchemaOk, Interned, Exact, Grown, SameData, SameInput, Unsettled;
    var settled := after.tables.(run := after.tables.run[runId := status]);
    forall k
      ensures SameData(before.tables, settled, k)
    {
      GrownSameData(before, after, runId, status, k);
    }
    forall i
      ensures SameInput(before.tables, settled, i)
    {
      GrownSameInput(before, after, runId, status, i);
    }
    ExactIfSame(before.tables, settled);
  }

  lemma StatusKeepsRefs(d: Tables, x: Ledger, runId: string, status: Status)
    requires Refs(d, x) && runId in d.run
    ensures Refs(d.(run := d.run[runId := status]), x)
  {
  }

  lemma GrownInvalidated(before: Db, after: Db, runId: string, status: Status)
    requires Interned(before.tables.tags) && Interned(after.tables.tags) && Grown(before, after, runId)
    requires InvalidatedAreEmpty(before.tables, before.ledger) && status != Invalidated
    ensures InvalidatedAreEmpty(after.tables.(run := after.tables.run[runId := status]), after.ledger)
  {
    hide Interned, SameMounts, KeptOutput, UserTags, OutputTags;
    var d' := after.tables.(run := after.tables.run[runId := status]);
    forall k | k in d'.data && d'.data[k] in d'.run
      ensures d'.run[d'.data[k]] != Invalidated
    {
      assert KeptData(before, after, k) && NewData(before, after, runId, k);
    }
  }

  /** New data of a run that ends up not done leave the nomination exact. */
  lemma GrownIsGood(before: Db, after: Db, runId: string, status: Status)
    requires Good(before) && Midway(after, runId) && Interned(before.tables.tags) && Interned(after.tables.tags) && Grown(before, after, runId)
    requires Unsettled(before.tables, runId) && status != Done && status != Invalidated
    ensures Good(after.(tables := after.tables.(run := after.tables.run[runId := status])))
  {
    DataHaveRuns(after.tables);
    SchemaIfRuns(after.tables, after.tables.run[runId := status]);
    hide SchemaOk, Interned, Exact, Refs, InvalidatedAreEmpty, Grown, Unsettled;
    GrownSame(before, after, runId, status);
    StatusKeepsRefs(after.tables, after.ledger, runId, status);
    GrownInvalidated(before, after, runId, status);
  }

  lemma GoodIsMidway(db: Db, runId: string)
    requires Good(db) && runId in db.tables.run
    ensures Midway(db, runId)
  {
  }
}
