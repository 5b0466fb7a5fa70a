/** The database as a state machine. A transaction computes what it would leave and commits it at once;
    whatever fails leaves everything as it was. */
module Database {
  import opened Results
  import opened Sets
  import opened TagStore
  import TagSets
  import opened Nomination
  import opened Upkeep
  import opened PlanCycles
  import opened Ledgers
  import opened Runs
  import opened RunOutputs
  import opened RunChanges
  import opened Mountpoints
  import opened Registration
  import opened Orders
  import opened Stamps
  import opened Outcomes
  import opened Projection

  datatype TagDelta = TagDelta(remove: seq<Tag>, removeKey: seq<string>, add: seq<Tag>)

  /** All that every committed transaction leaves. */
  ghost predicate Sane(db: Db) {
    Good(db) && Orderly(db) && AllRun(db) && Stamped(db.tables) && Made(db) && Complete(db)
  }

  // ---- tags --------------------------------------------------------------------------------------

  lemma OnlyTouchesTrans(a: TagTables, b: TagTables, c: TagTables, knitId: string)
    requires Interned(a) && Interned(b) && Interned(c) && OnlyTouches(a, b, knitId) && OnlyTouches(b, c, knitId)
    ensures OnlyTouches(a, c, knitId)
  {
    hide Interned, UserTags, InputTags, OutputTags;
  }

  lemma AddTagKeepsReferences(t: TagTables, knitId: string, tag: Tag, data: set<string>)
    requires Interned(t) && knitId in data && forall r :: r in t.tagData ==> r.1 in data
    ensures forall r :: r in AddTagForData(t, knitId, tag).tagData ==> r.1 in data
  {
    InternTagExtends(t, tag);
    hide Interned, InternTag, Extends;
  }

  lemma RemovedKeepsReferences(t: TagTables, knitId: string, delta: TagDelta, data: set<string>)
    requires Interned(t) && forall r :: r in t.tagData ==> r.1 in data
    ensures forall r :: r in RemoveTagsFromData(t, knitId, delta.remove, delta.removeKey).tagData ==> r.1 in data
  {
    RemovedLinks(t, knitId, delta.remove, delta.removeKey);
    hide Interned, RemoveTagsFromData;
  }

  /** What a tag update leaves of the tags that the data had. */
  function Updated(tags: set<Tag>, delta: TagDelta): set<Tag> {
    (set x | x in tags && x !in delta.remove && x.key !in delta.removeKey) + Elems(delta.add)
  }

  /** What is added is there in any case, what is removed only if it is added again, and all else stays. */
  lemma UpdatedMeans(tags: set<Tag>, delta: TagDelta, t: Tag)
    ensures t in delta.add ==> t in Updated(tags, delta)
    ensures t !in delta.add && (t in delta.remove || t.key in delta.removeKey) ==> t !in Updated(tags, delta)
    ensures t !in delta.add && t !in delta.remove && t.key !in delta.removeKey ==> (t in Updated(tags, delta) <==> t in tags)
  {
  }

  /** `removeTagsFromData`, then `addTagsForData`. */
  method ChangeTags(t: TagTables, data: set<string>, knitId: string, delta: TagDelta) returns (t': TagTables)
    requires Interned(t) && (forall r :: r in t.tagData ==> r.1 in data) && (knitId in data || delta.add == [])
    ensures Interned(t') && OnlyTouches(t, t', knitId) && UserTags(t', knitId) == Updated(UserTags(t, knitId), delta)
    ensures forall r :: r in t'.tagData ==> r.1 in data
  {
    hide OnlyTouches, Interned, UserTags, AddTagForData, RemoveTagsFromData;
    RemoveTagsReadsBack(t, knitId, delta.remove, delta.removeKey);
    RemovedKeepsReferences(t, knitId, delta, data);
    t' := RemoveTagsFromData(t, knitId, delta.remove, delta.removeKey);
    ghost var kept := UserTags(t', knitId);
    assert Elems(delta.add[..0]) == {};
    for i := 0 to |delta.add|
      invariant Interned(t') && OnlyTouches(t, t', knitId)
      invariant UserTags(t', knitId) == kept + Elems(delta.add[..i])
      invariant forall r :: r in t'.tagData ==> r.1 in data
    {
      assert Elems(delta.add[..i + 1]) == Elems(delta.add[..i]) + {delta.add[i]};
      AddTagReadsBack(t', knitId, delta.add[i]);
      AddTagKeepsReferences(t', knitId, delta.add[i], data);
      OnlyTouchesTrans(t, t', AddTagForData(t', knitId, delta.add[i]), knitId);
      t' := AddTagForData(t', knitId, delta.add[i]);
    }
    assert delta.add[..|delta.add|] == delta.add;
  }

  /** The data's tags have changed, and the data is nominated again. */
  function Retagged(d: Tables, t': TagTables, knitId: string): Tables {
    NominateData(d.(tags := t'), {knitId})
  }

  lemma RetaggedNomination(d: Tables, t': TagTables, knitId: string)
    requires SchemaOk(d) && Exact(d) && Interned(t') && OnlyTouches(d.tags, t', knitId)
    requires forall r :: r in t'.tagData ==> r.1 in d.data
    ensures var d' := Retagged(d, t', knitId);
      && SchemaOk(d') && Exact(d') && FlagsKept(d.nomination, d'.nomination)
      && d' == d.(tags := t', nomination := d'.nomination)
      && (forall k, i :: k != knitId ==> (Nominated(d', k, i) <==> Nominated(d, k, i)))
  {
    hide SchemaOk, Exact, Matches, Interned, OnlyTouches, FlagsKept, NominateData, SameElsewhere, Nominated;
    var tagged := d.(tags := t');
    TagUpdateElsewhere(d, tagged, knitId);
    NominateChanged(d, tagged, {knitId});
    NominateOnlyNomination(tagged, {knitId});
  }

  lemma RetaggedLedger(db: Db, d': Tables, knitId: string)
    requires LedgerOk(db.tables, db.ledger)
    requires d' == db.tables.(tags := d'.tags, nomination := d'.nomination) && d'.tags.tagOutput == db.tables.tags.tagOutput
    ensures LedgerOk(d', db.ledger)
  {
    hide LedgerOk;
    var tagged := db.tables.(tags := d'.tags);
    LedgerIgnoresDataTags(db.tables, tagged, db.ledger);
    LedgerIgnoresNomination(tagged, d', db.ledger);
  }

  lemma SameRows(db: Db, db': Db)
    requires Stamped(db.tables) && Made(db) && Complete(db) && db'.ledger == db.ledger
    requires db'.tables.run == db.tables.run && db'.tables.data == db.tables.data && db'.tables.knitTimestamp == db.tables.knitTimestamp
    ensures Stamped(db'.tables) && Made(db') && Complete(db')
  {
    hide Stamped, Made, Complete;
    StatusStamped(db.tables, db'.tables);
    MadeKept(db, db');
    CompleteKept(db, db', {});
  }

  lemma TagsUpdated(db: Db, t': TagTables, knitId: string)
    requires Sane(db)
    requires Interned(db.tables.tags) && Interned(t') && OnlyTouches(db.tables.tags, t', knitId)
    requires forall r :: r in t'.tagData ==> r.1 in db.tables.data
    ensures var d' := Retagged(db.tables, t', knitId);
      && Sane(Db(d', db.ledger))
      && d' == db.tables.(tags := t', nomination := d'.nomination) && FlagsKept(db.tables.nomination, d'.nomination)
      && (forall k, i :: k != knitId ==> (Nominated(d', k, i) <==> Nominated(db.tables, k, i)))
  {
    OutputLinksStay(db.tables.tags, t', knitId);
    hide SchemaOk, LedgerOk, Exact, Orderly, AllRun, Interned, OnlyTouches, FlagsKept, Retagged, Nominated, FewerSettled, Stamped, Made, Complete;
    var d' := Retagged(db.tables, t', knitId);
    RetaggedNomination(db.tables, t', knitId);
    RetaggedLedger(db, d', knitId);
    TagsTouched(db, Db(d', db.ledger), knitId);
    FlagsKeptFewer(db.tables, d');
    SameLedgerAllRun(db, Db(d', db.ledger));
    SameRows(db, Db(d', db.ledger));
  }

  lemma OutputLinksStay(t: TagTables, t': TagTables, knitId: string)
    requires Interned(t) && Interned(t') && OnlyTouches(t, t', knitId)
    ensures t'.tagOutput == t.tagOutput
  {
    hide Interned, UserTags, InputTags, OutputTags, Extends;
  }

  lemma SameLedgerAllRun(db: Db, db': Db)
    requires AllRun(db) && db'.ledger == db.ledger && FewerSettled(db.tables, db'.tables)
    ensures AllRun(db')
  {
    hide AllRun, FewerSettled;
    AllRunStays(db, db');
  }

  // ---- the other transactions --------------------------------------------------------------------

  lemma IdleMade(db: Db, db': Db)
    requires Made(db) && Idle(db, db') && db'.ledger.outputOfData == db.ledger.outputOfData
    ensures Made(db')
  {
    hide Made;
    MadeKept(db, db');
  }

  /** No run comes to life. */
  ghost predicate AliveBefore(db: Db, db': Db) {
    forall r :: Alive(db'.tables, r) ==> Alive(db.tables, r)
  }

  lemma IdleComplete(db: Db, db': Db)
    requires Complete(db) && Idle(db, db') && db'.ledger.outputOfData == db.ledger.outputOfData && AliveBefore(db, db')
    ensures Complete(db')
  {
    hide Complete;
    CompleteKept(db, db', {});
  }

  lemma IdleSane(db: Db, db': Db)
    requires Sane(db) && Good(db') && Idle(db, db') && FewerSettled(db.tables, db'.tables) && Stamped(db'.tables)
    requires db'.ledger.outputOfData == db.ledger.outputOfData && AliveBefore(db, db')
    ensures Sane(db')
  {
    IdleMade(db, db');
    IdleComplete(db, db');
    hide Good, Orderly, AllRun, Idle, FewerSettled, Stamped, Made, Complete;
    IdleOrderly(db, db');
    IdleAllRun(db, db');
  }

  lemma SameNomination(db: Db, db': Db)
    requires db'.tables.nomination == db.tables.nomination
    ensures FewerSettled(db.tables, db'.tables)
  {
  }

  lemma FinishedIdle(db: Db, db': Db, runId: string, now: int)
    requires runId in db.tables.run && db.tables.run[runId] in {Completing, Aborting} && Finished(db, db', runId, now)
    ensures Idle(db, db') && db'.ledger == db.ledger && AliveBefore(db, db') && FewerSettled(db.tables, db'.tables)
  {
    FlagsKeptFewer(db.tables, db'.tables);
    hide FlagsKept, FewerSettled, DataOfRun;
  }

  lemma FinishedSane(db: Db, db': Db, runId: string, now: int)
    requires Sane(db) && Good(db') && runId in db.tables.run && db.tables.run[runId] in {Completing, Aborting} && Finished(db, db', runId, now)
    ensures Sane(db')
  {
    hide Sane, Good, Finished, Idle, AliveBefore, FewerSettled, Stamped, Orderly, AllRun, Made, Complete, Interned, Acyclic;
    SaneMeans(db);
    FinishedStamped(db, db', runId, now);
    FinishedIdle(db, db', runId, now);
    IdleSane(db, db');
  }

  lemma EmptyIsSane()
    ensures Sane(Db(EMPTY_TABLES, EMPTY_LEDGER))
  {
    EmptyIsGood();
    EmptyIsOrderly();
  }

  lemma GoodLinks(db: Db)
    requires Good(db)
    ensures SchemaOk(db.tables) && Interned(db.tables.tags) && forall r :: r in db.tables.tags.tagData ==> r.1 in db.tables.data
  {
    hide Exact, LedgerOk;
  }

  lemma OpenStatusSane(db: Db, runId: string, next: Status)
    requires Sane(db) && Good(WithStatus(db, runId, next)) && runId in db.tables.run && !Over(db.tables.run[runId]) && !Over(next)
    requires db.tables.run[runId] != Invalidated
    ensures Sane(WithStatus(db, runId, next))
  {
    hide Good, Orderly, AllRun, Idle, FewerSettled, Stamped, Made, Complete;
    WithStatusIsIdle(db, runId, next);
    WithStatusSettled(db, runId, next);
    StatusStamped(db.tables, WithStatus(db, runId, next).tables);
    IdleSane(db, WithStatus(db, runId, next));
  }

  lemma StatusSane(db: Db, db': Db, runId: string, next: Status, now: int)
    requires Sane(db) && Good(db') && runId in db.tables.run
    requires var current := db.tables.run[runId];
      || db' == db || (Allowed(current, next) && db' == WithStatus(db, runId, next))
      || (Settles(current, next) && Finished(db, db', runId, now))
    ensures Sane(db')
  {
    hide Sane, Good, Finished, Over, WithStatus;
    var current := db.tables.run[runId];
    if Settles(current, next) && Finished(db, db', runId, now) {
      FinishedSane(db, db', runId, now);
    } else if db' != db {
      AllowedStaysOpen(current, next);
      OpenStatusSane(db, runId, next);
    }
  }

  lemma ReactivatedOver(db: Db, planId: string, activenessToBe: bool)
    ensures forall r :: r in db.tables.run ==> (Over(Reactivated(db, planId, activenessToBe)[r]) <==> Over(db.tables.run[r]))
    ensures forall r :: r in db.tables.run && db.tables.run[r] == Invalidated ==> Reactivated(db, planId, activenessToBe)[r] == Invalidated
  {
  }

  lemma ReactivatedSane(db: Db, db': Db, planId: string, activenessToBe: bool)
    requires Sane(db) && Good(db')
    requires db' == Db(db.tables.(run := Reactivated(db, planId, activenessToBe)),
                       db.ledger.(plan := db.ledger.plan[planId := ImagePlan(activenessToBe)]))
    ensures Sane(db')
  {
    ReactivatedOver(db, planId, activenessToBe);
    hide Sane, Good, FewerSettled, Stamped, Reactivated, Over;
    SaneMeans(db);
    assert Idle(db, db');
    SameNomination(db, db');
    StatusStamped(db.tables, db'.tables);
    IdleSane(db, db');
  }

  lemma PlanRegisteredMade(db: Db, db': Db, planId: string, active: bool, clock: TagSets.Clock, rows: PlanRows)
    requires Made(db) && PlanRegistered(db, db', planId, active, clock, rows)
    ensures Made(db')
  {
    hide Made, SchemaOk, OldMounts, InputsThrough, OutputsThrough, FlagsKept, Nominated, UserTags;
    MadeKept(db, db');
  }

  lemma PlanRegisteredSane(db: Db, db': Db, planId: string, active: bool, clock: TagSets.Clock, rows: PlanRows)
    requires Sane(db) && Good(db') && Interned(db'.tables.tags) && Acyclic(db', {})
    requires planId !in db.ledger.plan && PlanRegistered(db, db', planId, active, clock, rows)
    ensures Sane(db')
  {
    PlanRegisteredMade(db, db', planId, active, clock, rows);
    PlanRegisteredComplete(db, db', planId, active, clock, rows);
    hide Good, Orderly, AllRun, Interned, Acyclic, Stamped, Made, Complete, PlanRegistered, Made;
    PlanRegisteredOrderly(db, db', planId, active, clock, rows);
    PlanRegisteredAllRun(db, db', planId, active, clock, rows);
    PlanRegisteredStamped(db, db', planId, active, clock, rows);
  }

  lemma RegisteredSane(db: Db, db': Db, planId: string, runId: string)
    requires Sane(db) && Good(db') && Registered(db, db', planId, map[], runId) && Made(db')
    ensures Sane(db')
  {
    hide Good, Orderly, AllRun, Registered, Stamped, Made, Complete;
    RegisteredOrderly(db, db', planId, map[], runId);
    RegisteredAllRun(db, db', planId, map[], runId);
    RegisteredStamped(db, db', planId, map[], runId);
    RegisteredComplete(db, db', planId, map[], runId);
  }

  lemma OrderlyIsFilled(db: Db)
    requires Orderly(db)
    ensures Filled(db.ledger) && Interned(db.tables.tags) && Acyclic(db, {})
  {
    hide Interned, Acyclic, LineageAcyclic;
  }

  lemma CanTruncateMeans(db: Db, runId: string)
    requires CanTruncate(db, runId)
    ensures runId in db.tables.run && !InUse(db, runId)
  {
  }

  lemma DeletedMade(db: Db, runId: string)
    requires Good(db) && Made(db) && CanTruncate(db, runId)
    ensures Made(Deleted(db, runId))
  {
    CanTruncateMeans(db, runId);
    hide Good, Truncated, CanTruncate, Bare, Made, WithStatus, WithoutRun, InUse;
    var truncated := Truncated(db, runId);
    TruncatedMade(db, runId);
    TruncatedIsBare(db, runId);
    BareHasNoData(truncated, runId);
    StatusMade(truncated, runId, Invalidated);
    RowMade(truncated, runId);
  }

  lemma DeletedSane(db: Db, runId: string)
    requires Sane(db) && Good(Deleted(db, runId)) && CanTruncate(db, runId)
    ensures Sane(Deleted(db, runId))
  {
    hide Good, Orderly, AllRun, Stamped, Deleted, CanTruncate, Made;
    OrderlyIsFilled(db);
    DeletedMade(db, runId);
    DeletedOrderly(db, runId);
    DeletedAllRun(db, runId);
    DeletedStamped(db, runId);
    DeletedComplete(db, runId);
  }

  lemma RetriedSane(db: Db, db': Db, runId: string)
    requires Sane(db) && Good(db') && CanTruncate(db, runId) && Retried(db, db', runId) && Made(db')
    ensures Sane(db')
  {
    hide Good, Orderly, AllRun, Stamped, Retried, CanTruncate, Made;
    OrderlyIsFilled(db);
    RetriedOrderly(db, db', runId);
    RetriedAllRun(db, db', runId);
    RetriedStamped(db, db', runId);
    RetriedComplete(db, db', runId);
  }

  lemma SaneMeans(db: Db)
    requires Sane(db)
    ensures Good(db) && Orderly(db) && AllRun(db) && Stamped(db.tables) && Made(db) && Complete(db) && Interned(db.tables.tags) && Acyclic(db, {})
  {
    OrderlyIsFilled(db);
    hide Good, Orderly, AllRun, Stamped, Interned, Acyclic, Made, Complete;
  }

  // ---- the system's own plans --------------------------------------------------------------------

  /** 10-pseudo-plan-uploaded.pg.sql: a plan and its output, without tags. */
  function WithPseudoPlan(db: Db, planId: string): Db {
    var id := db.ledger.outputSerial;
    Db(db.tables, db.ledger.(plan := db.ledger.plan[planId := PseudoPlan],
                             planOfOutput := db.ledger.planOfOutput[id := planId], outputSerial := id + 1))
  }

  lemma PseudoPlanRefs(db: Db, planId: string)
    requires Refs(db.tables, db.ledger)
    ensures Refs(db.tables, WithPseudoPlan(db, planId).ledger)
  {
    var x' := WithPseudoPlan(db, planId).ledger;
    assert RunRefs(db.tables, x') && AssignRefs(db.tables, x') by {
      hide MountRefs, DataRefs;
    }
    assert MountRefs(db.tables, x') && DataRefs(db.tables, x') by {
      hide RunRefs, AssignRefs;
    }
  }

  lemma PseudoPlanGood(db: Db, planId: string)
    requires Good(db)
    ensures Good(WithPseudoPlan(db, planId))
  {
    hide SchemaOk, Exact, Refs;
    PseudoPlanRefs(db, planId);
  }

  lemma PseudoPlanFeedsNothing(db: Db, planId: string, p: string, q: string)
    requires Sound(db) && Interned(db.tables.tags) && DependsOn(WithPseudoPlan(db, planId), q, p)
    ensures DependsOn(db, q, p)
  {
    FreshOutput(db);
    hide SchemaOk, Refs, Interned, InputTags, OutputTags;
    var i, o :| Links(WithPseudoPlan(db, planId), q, p, i, o);
    assert Links(db, q, p, i, o);
  }

  lemma PseudoPlanOrderly(db: Db, planId: string)
    requires Sound(db) && Orderly(db)
    ensures Orderly(WithPseudoPlan(db, planId))
  {
    var db' := WithPseudoPlan(db, planId);
    hide SchemaOk, Refs, Interned, Acyclic, LineageAcyclic, OncePerPattern, DependsOn;
    forall p, q | DependsOn(db', q, p)
      ensures DependsOn(db, q, p)
    {
      PseudoPlanFeedsNothing(db, planId, p, q);
    }
    StillAcyclic(db, db', {}, {});
    FewerUsesAcyclic(db, db');
    FewerRunsOnce(db.ledger, db'.ledger);
  }

  lemma PseudoPlanMade(db: Db, planId: string)
    requires Good(db) && Made(db)
    ensures Made(WithPseudoPlan(db, planId))
  {
    OutputSerialAhead(db);
    hide Good, Made;
    MadeKept(db, WithPseudoPlan(db, planId));
  }

  lemma OutputSerialAhead(db: Db)
    requires Good(db)
    ensures db.ledger.outputSerial !in db.ledger.planOfOutput
  {
    hide SchemaOk, Exact;
  }

  lemma PseudoPlanComplete(db: Db, planId: string)
    requires Good(db) && Complete(db) && planId !in db.ledger.plan
    ensures Complete(WithPseudoPlan(db, planId))
  {
    PlansOfRuns(db);
    hide Good, Complete;
    CompleteKept(db, WithPseudoPlan(db, planId), {});
  }

  lemma PseudoPlanSane(db: Db, planId: string)
    requires Sane(db) && planId !in db.ledger.plan
    ensures Sane(WithPseudoPlan(db, planId))
  {
    var db' := WithPseudoPlan(db, planId);
    SameNomination(db, db');
    assert KeepsRuns(db.ledger, db'.ledger);
    PseudoPlanMade(db, planId);
    PseudoPlanComplete(db, planId);
    hide SchemaOk, Exact, Refs, InvalidatedAreEmpty, Orderly, AllRun, KeepsRuns, FewerSettled, WithPseudoPlan, Stamped, Made, Complete;
    PseudoPlanGood(db, planId);
    PseudoPlanOrderly(db, planId);
    AllRunStays(db, db');
  }

  /** The status changes that `setStatus` makes or passes on. */
  predicate Possible(current: Status, next: Status) {
    current !in {Invalidated, Done, Failed} && (current == next || Allowed(current, next) || Settles(current, next))
  }

  /** How far a run has come. */
  function Stage(s: Status): nat {
    match s
    case Deactivated => 0
    case Waiting => 1
    case Ready => 2
    case Starting => 3
    case Running => 4
    case Completing => 5
    case Aborting => 6
    case Done => 7
    case Failed => 7
    case Invalidated => 7
  }

  /** What is over stays as it is. A run ends as it was going to end. Before, it can be aborted at any time; once
      it is scheduled it only goes on, and any number of stages at a time; until then it goes one stage at a time,
      and can be held back again. */
  lemma PossibleMeans(current: Status, next: Status)
    ensures current in {Done, Failed, Invalidated} ==> !Possible(current, next)
    ensures current == Completing ==> (Possible(current, next) <==> next in {Completing, Done})
    ensures current == Aborting ==> (Possible(current, next) <==> next in {Aborting, Failed})
    ensures Stage(current) < Stage(Completing) ==>
      (Possible(current, next) <==>
        || next == Aborting
        || (Stage(Ready) <= Stage(current) <= Stage(next) <= Stage(Completing))
        || (Stage(current) < Stage(Ready) && Stage(next) <= Stage(current) + 1))
  {
  }

  lemma RegisteredPlan(db: Db, db': Db, planId: string, active: bool, clock: TagSets.Clock, rows: PlanRows)
    requires PlanRegistered(db, db', planId, active, clock, rows)
    ensures db'.ledger.plan == db.ledger.plan[planId := ImagePlan(active)]
  {
    hide SchemaOk, SameOthers, OldMounts, InputsThrough, OutputsThrough, FlagsKept, Nominated;
  }

  lemma FlaggedMeans(db: Db)
    requires Good(db)
    ensures forall p :: p in db.tables.nomination ==> p.1 in db.ledger.planOfInput && db.ledger.planOfInput[p.1] in db.ledger.plan
    ensures forall p :: p in db.tables.nomination && db.tables.nomination[p] && !Flagged(db, p) ==>
      p.1 in db.ledger.planOfInput && db.ledger.planOfInput[p.1] in db.ledger.plan && db.ledger.plan[db.ledger.planOfInput[p.1]] == PseudoPlan
  {
    hide Good;
    InputsHavePlans(db);
    forall p | p in db.tables.nomination
      ensures p.1 in db.ledger.planOfInput && db.ledger.planOfInput[p.1] in db.ledger.plan
    {
      var i := p.1;
      assert i in db.ledger.planOfInput && db.ledger.planOfInput[i] in db.ledger.plan;
    }
  }

  lemma StatusRows(db: Db, runId: string, status: Status)
    ensures WithStatus(db, runId, status) == Db(db.tables.(run := db.tables.run[runId := status]), db.ledger)
  {
  }

  class KnitDatabase {
    var tables: Tables
    var ledger: Ledger

    ghost function View(): Db
      reads this
    {
      Db(tables, ledger)
    }

    ghost predicate Valid()
      reads this
    {
      Sane(View())
    }

    constructor ()
      ensures Valid() && View() == Db(EMPTY_TABLES, EMPTY_LEDGER)
    {
      hide Sane;
      tables, ledger := EMPTY_TABLES, EMPTY_LEDGER;
      EmptyIsSane();
    }

    method Commit(db: Db)
      modifies this
      ensures View() == db
    {
      tables, ledger := db.tables, db.ledger;
    }

    /** `updateTag`: lock, remove, add, and nominate the data again. An insert for a missing data
        violates a foreign key and rolls everything back. */
    method UpdateTag(knitId: string, delta: TagDelta) returns (r: Result<(), DbError>)
      requires Valid()
      modifies this
      ensures Valid()
      ensures r.Err? <==> knitId !in old(tables).data && delta.add != []
      ensures r.Err? ==> r == Err(Missing) && View() == old(View())
      ensures r.Ok? ==>
        && Interned(old(tables).tags) && Interned(tables.tags)
        && View() == old(View()).(tables := old(tables).(tags := tables.tags, nomination := tables.nomination))
        && UserTags(tables.tags, knitId) == Updated(UserTags(old(tables).tags, knitId), delta)
        && OnlyTouches(old(tables).tags, tables.tags, knitId)
        && FlagsKept(old(tables).nomination, tables.nomination)
        && (forall k, i :: k != knitId ==> (Nominated(tables, k, i) <==> Nominated(old(tables), k, i)))
    {
      hide Sane, Good, Orderly, SchemaOk, Interned, Made, Complete, OnlyTouches, UserTags, FlagsKept, Nominated, Retagged, Updated;
      if knitId !in tables.data && delta.add != [] {
        return Err(Missing);
      }
      SaneMeans(View());
      GoodLinks(View());
      var t' := ChangeTags(tables.tags, tables.data.Keys, knitId, delta);
      TagsUpdated(View(), t', knitId);
      tables := Retagged(tables, t', knitId);
      return Ok(());
    }

    /** `Finish`: a run that is completing or aborting is over, and its data are stamped. */
    method Finish(runId: string, now: int) returns (r: Result<(), DbError>)
      requires Valid()
      modifies this
      ensures Valid()
      ensures r.Err? ==> View() == old(View())
      ensures r.Ok? <==> runId in old(tables).run && old(tables).run[runId] in {Completing, Aborting}
      ensures r.Ok? ==> Finished(old(View()), View(), runId, now)
    {
      hide Sane, Good, Finished, DataOfRun, Orderly, AllRun, Interned, Acyclic, Stamped, Made, Complete;
      SaneMeans(View());
      var done := Runs.Finish(Db(tables, ledger), runId, now);
      if runId in tables.run && tables.run[runId] in {Completing, Aborting} {
        FinishIsFree(tables, runId);
      }
      if done.Err? {
        return Err(done.error);
      }
      FinishedSane(View(), done.value, runId, now);
      Commit(done.value);
      return Ok(());
    }

    /** `SetStatus` */
    method SetStatus(runId: string, next: Status, now: int) returns (r: Result<(), DbError>)
      requires Valid()
      modifies this
      ensures Valid()
      ensures r.Err? ==> View() == old(View())
      ensures r.Ok? <==> runId in old(tables).run && Possible(old(tables).run[runId], next)
      ensures r.Ok? ==> var current := old(tables).run[runId];
        if current == next then View() == old(View())
        else if Settles(current, next) then Finished(old(View()), View(), runId, now)
        else tables == old(tables).(run := old(tables).run[runId := next]) && ledger == old(ledger)
    {
      hide Sane, Good, Finished, DataOfRun, Orderly, AllRun, Interned, Acyclic, Stamped, Made, Complete, WithStatus;
      SaneMeans(View());
      var done := RunChanges.SetStatus(Db(tables, ledger), runId, next, now);
      if runId in tables.run && Settles(tables.run[runId], next) {
        FinishIsFree(tables, runId);
      }
      if done.Err? {
        return Err(done.error);
      }
      StatusSane(View(), done.value, runId, next, now);
      StatusRows(View(), runId, next);
      Commit(done.value);
      return Ok(());
    }

    /** `Activate` */
    method Activate(planId: string, activenessToBe: bool) returns (r: Result<(), DbError>)
      requires Valid()
      modifies this
      ensures Valid()
      ensures r.Err? ==> View() == old(View())
      ensures r.Ok? <==> planId in old(ledger).plan && old(ledger).plan[planId].ImagePlan?
      ensures r.Ok? ==>
        && tables == old(tables).(run := Reactivated(old(View()), planId, activenessToBe))
        && ledger == old(ledger).(plan := old(ledger).plan[planId := ImagePlan(activenessToBe)])
    {
      hide Sane, Good, Reactivated, Orderly, AllRun, Interned, Acyclic, Stamped, Made, Complete;
      SaneMeans(View());
      var done := RunChanges.Activate(Db(tables, ledger), planId, activenessToBe);
      if done.Err? {
        return Err(done.error);
      }
      ReactivatedSane(View(), done.value, planId, activenessToBe);
      Commit(done.value);
      return Ok(());
    }

    /** `Register` of a plan. */
    method RegisterPlan(planId: string, active: bool, clock: TagSets.Clock, rows: PlanRows, equivalent: bool) returns (r: Result<(), DbError>)
      requires Valid()
      modifies this
      ensures Valid()
      ensures r.Err? ==> View() == old(View())
      ensures r.Ok? ==> planId !in old(ledger).plan && RowsOk(clock, rows) && PlanRegistered(old(View()), View(), planId, active, clock, rows)
      ensures r.Ok? ==> ledger.plan == old(ledger).plan[planId := ImagePlan(active)]
      ensures !equivalent && planId !in old(ledger).plan && RowsOk(clock, rows) && r.Err? ==>
        r == Err(CyclicPlan) && ClosesCycle(old(View()), planId, active, clock, rows)
    {
      hide Sane, Good, RowsOk, PlanRegistered, ClosesCycle, Orderly, AllRun, Interned, Acyclic, Stamped, Made, Complete;
      SaneMeans(View());
      var done := Registration.RegisterPlan(Db(tables, ledger), planId, active, clock, rows, equivalent);
      if done.Err? {
        return Err(done.error);
      }
      GoodLinks(done.value);
      RegisteredPlan(View(), done.value, planId, active, clock, rows);
      PlanRegisteredSane(View(), done.value, planId, active, clock, rows);
      Commit(done.value);
      return Ok(());
    }

    /** The system's own plans: an output for the data, and no inputs. */
    method AddPseudoPlan(planId: string) returns (r: Result<(), DbError>)
      requires Valid()
      modifies this
      ensures Valid()
      ensures r.Ok? <==> planId !in old(ledger).plan
      ensures View() == if r.Ok? then WithPseudoPlan(old(View()), planId) else old(View())
    {
      hide Sane, WithPseudoPlan;
      if planId in ledger.plan {
        return Err(Conflict);
      }
      PseudoPlanSane(View(), planId);
      Commit(WithPseudoPlan(Db(tables, ledger), planId));
      return Ok(());
    }

    /** `NewPseudo` */
    method NewPseudo(planId: string, runId: string, names: nat -> string, volume: string -> string) returns (r: Result<(), DbError>)
      requires Valid()
      modifies this
      ensures Valid()
      ensures r.Err? ==> View() == old(View())
      ensures r.Ok? ==> Registered(old(View()), View(), planId, map[], runId) && NamedBy(old(View()), View(), names)
      ensures FreshNames(old(View()), names) ==> (r.Ok? <==> Fits(old(View()), planId, map[], runId) && old(ledger).plan[planId].PseudoPlan?)
    {
      hide Sane, Good, Registered, Orderly, AllRun, Interned, Acyclic, Stamped, Made, Complete, NamedBy, FreshNames;
      SaneMeans(View());
      var done := RunChanges.NewPseudo(Db(tables, ledger), planId, runId, names, volume);
      if done.Err? {
        return Err(done.error);
      }
      RegisteredSane(View(), done.value, planId, runId);
      Commit(done.value);
      return Ok(());
    }

    /** `New`: one round of the projection loop. It fails on an id in use only. */
    method New(runIds: nat -> string, names: nat -> nat -> string, volume: string -> string)
      returns (r: Result<(), DbError>, ghost trigger: Option<(string, int)>)
      requires Valid()
      modifies this
      ensures Valid()
      ensures r.Err? ==> View() == old(View()) && !FreshRuns(old(View()), runIds, names)
      ensures r.Ok? && trigger.None? ==> View() == old(View()) && forall p :: p in tables.nomination && tables.nomination[p] ==>
        ledger.planOfInput[p.1] in ledger.plan && ledger.plan[ledger.planOfInput[p.1]] == PseudoPlan
      ensures r.Ok? && trigger.Some? ==> Round(old(View()), View(), trigger.value)
    {
      hide Good, Orderly, AllRun, Round, FreshRuns, Stamped, Made, Complete;
      var done;
      done, trigger := Projection.New(Db(tables, ledger), runIds, names, volume);
      FlaggedMeans(View());
      if done.Err? {
        return Err(done.error), trigger;
      }
      Commit(done.value);
      r := Ok(());
    }

    /** `Delete` */
    method Delete(runId: string) returns (r: Result<(), DbError>)
      requires Valid()
      modifies this
      ensures Valid()
      ensures r.Ok? <==> CanTruncate(old(View()), runId) && old(tables).run[runId] in {Waiting, Deactivated, Done, Failed}
      ensures View() == if r.Ok? then Deleted(old(View()), runId) else old(View())
    {
      hide Sane, Good, CanTruncate, Deleted, Orderly, AllRun, Interned, Acyclic, Stamped, Made, Complete;
      SaneMeans(View());
      var done := RunChanges.Delete(Db(tables, ledger), runId);
      if done.Err? {
        return Err(done.error);
      }
      DeletedSane(View(), runId);
      Commit(done.value);
      return Ok(());
    }

    /** `Retry` */
    method Retry(runId: string, names: nat -> string, volume: string -> string) returns (r: Result<(), DbError>)
      requires Valid()
      modifies this
      ensures Valid()
      ensures r.Err? ==> View() == old(View())
      ensures r.Ok? ==> Retried(old(View()), View(), runId)
      ensures FreshNames(old(View()), names) ==>
        (r.Ok? <==> CanTruncate(old(View()), runId) && old(tables).run[runId] in {Done, Failed} && HasImage(old(ledger), runId))
    {
      hide Sane, Good, CanTruncate, Retried, Orderly, AllRun, Interned, Acyclic, Stamped, Made, Complete, FreshNames, HasImage;
      SaneMeans(View());
      var done := RunChanges.Retry(Db(tables, ledger), runId, names, volume);
      if done.Err? {
        return Err(done.error);
      }
      RetriedSane(View(), done.value, runId);
      Commit(done.value);
      return Ok(());
    }

    /** `DeleteWorker` */
    method DeleteWorker(runId: string)
      requires Valid()
      modifies this
      ensures Valid() && View() == old(View()).(ledger := old(ledger).(worker := old(ledger).worker - {runId}))
    {
      hide Good, Orderly, AllRun, Stamped, Made, Complete;
      var db := Db(tables, ledger.(worker := ledger.worker - {runId}));
      WorkerDeleted(View(), runId);
      SameNomination(View(), db);
      IdleSane(View(), db);
      Commit(db);
    }

    /** `NewAgent`: the name is a key, and the data must be there. */
    method NewAgent(name: string, knitId: string) returns (r: Result<(), DbError>)
      requires Valid()
      modifies this
      ensures Valid()
      ensures r.Ok? <==> knitId in old(tables).data && name !in old(ledger).dataAgent
      ensures View() == if r.Ok? then old(View()).(ledger := old(ledger).(dataAgent := old(ledger).dataAgent[name := knitId])) else old(View())
    {
      hide Good, Orderly, AllRun, Stamped, Made, Complete;
      if knitId !in tables.data {
        return Err(Missing);
      }
      if name in ledger.dataAgent {
        return Err(Conflict);
      }
      var db := Db(tables, ledger.(dataAgent := ledger.dataAgent[name := knitId]));
      AgentAdded(View(), name, knitId);
      SameNomination(View(), db);
      IdleSane(View(), db);
      Commit(db);
      return Ok(());
    }

    /** `RemoveAgent` */
    method RemoveAgent(name: string)
      requires Valid()
      modifies this
      ensures Valid() && View() == old(View()).(ledger := old(ledger).(dataAgent := old(ledger).dataAgent - {name}))
    {
      hide Good, Orderly, AllRun, Stamped, Made, Complete;
      var db := Db(tables, ledger.(dataAgent := ledger.dataAgent - {name}));
      AgentRemoved(View(), name);
      SameNomination(View(), db);
      IdleSane(View(), db);
      Commit(db);
    }

    /** The commit of `Pop` for a garbage. */
    method PopGarbage(knitId: string)
      requires Valid()
      modifies this
      ensures Valid() && View() == old(View()).(ledger := old(ledger).(garbage := old(ledger).garbage - {knitId}))
    {
      hide Good, Orderly, AllRun, Stamped, Made, Complete;
      var db := Db(tables, ledger.(garbage := ledger.garbage - {knitId}));
      GarbageRemoved(View(), knitId);
      SameNomination(View(), db);
      IdleSane(View(), db);
      Commit(db);
    }
  }
}
