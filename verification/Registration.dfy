/** `Register` of pkg/domain/plan/db/postgres/plan.go: mountpoints are inserted in order, a plan that closes
    a cycle is refused, and the new inputs are nominated. */
module Registration {
  import opened Results
  import opened Sets
  import opened TagStore
  import opened TagSets
  import opened Nomination
  import opened Upkeep
  import opened PlanQueries
  import opened PlanCycles
  import opened Ledgers
  import opened Mountpoints

  /** The rows of a plan: tag slices of its inputs, and of its outputs with the log last. */
  datatype PlanRows = PlanRows(inputs: seq<seq<Tag>>, outputs: seq<seq<Tag>>)

  predicate RowsOk(clock: Clock, rows: PlanRows) {
    && (forall j :: 0 <= j < |rows.inputs| ==> Registrable(clock, rows.inputs[j]))
    && (forall j :: 0 <= j < |rows.outputs| ==> Clean(rows.outputs[j]))
  }

  // ---- what insertions leave alone ---------------------------------------------------------------

  ghost predicate SameOthers(d: Tables, d': Tables)
    requires SchemaOk(d) && SchemaOk(d')
  {
    && d'.run == d.run && d'.data == d.data && d'.knitTimestamp == d.knitTimestamp
    && forall k :: UserTags(d'.tags, k) == UserTags(d.tags, k)
  }

  /** Mountpoints that were there are as they were. */
  ghost predicate OldMounts(db: Db, db': Db)
    requires SchemaOk(db.tables) && SchemaOk(db'.tables)
  {
    && (forall i :: i in db.tables.input ==> SameInput(db.tables, db'.tables, i))
    && (forall o :: o in db.ledger.planOfOutput ==> OutputTags(db'.tables.tags, o) == OutputTags(db.tables.tags, o))
  }

  /** Mountpoints that were not there are the new plan's. */
  ghost predicate NewMounts(db: Db, db': Db, planId: string) {
    var x, x' := db.ledger, db'.ledger;
    && (forall i :: i in x.planOfInput ==> i in x'.planOfInput && x'.planOfInput[i] == x.planOfInput[i])
    && (forall o :: o in x.planOfOutput ==> o in x'.planOfOutput && x'.planOfOutput[o] == x.planOfOutput[o])
    && (forall i :: i in x'.planOfInput && i !in x.planOfInput ==> x'.planOfInput[i] == planId)
    && (forall o :: o in x'.planOfOutput && o !in x.planOfOutput ==> x'.planOfOutput[o] == planId)
    && x.inputSerial <= x'.inputSerial && x.outputSerial <= x'.outputSerial
    && x' == x.(planOfInput := x'.planOfInput, planOfOutput := x'.planOfOutput, inputSerial := x'.inputSerial, outputSerial := x'.outputSerial)
  }

  ghost predicate Accrued(db: Db, db': Db, planId: string)
    requires SchemaOk(db.tables) && SchemaOk(db'.tables)
  {
    && SameOthers(db.tables, db'.tables) && OldMounts(db, db') && NewMounts(db, db', planId)
    && db.tables.input <= db'.tables.input
  }

  lemma NothingAccrued(db: Db, planId: string)
    requires SchemaOk(db.tables)
    ensures Accrued(db, db, planId)
  {
    hide SchemaOk, UserTags, InputTags, OutputTags;
  }

  lemma AccruedTransitive(a: Db, b: Db, c: Db, planId: string)
    requires SchemaOk(a.tables) && SchemaOk(b.tables) && SchemaOk(c.tables)
    requires Accrued(a, b, planId) && Accrued(b, c, planId)
    ensures Accrued(a, c, planId)
  {
    hide SchemaOk, UserTags, InputTags, OutputTags;
    assert SameOthers(a.tables, c.tables) by {
      hide OldMounts, NewMounts;
    }
    assert NewMounts(a, c, planId) by {
      hide OldMounts, SameOthers;
    }
    assert OldMounts(a, c) by {
      hide SameOthers;
      forall i | i in a.tables.input
        ensures SameInput(a.tables, c.tables, i)
      {
        assert SameInput(a.tables, b.tables, i) && SameInput(b.tables, c.tables, i);
      }
    }
  }

  lemma InputAccrues(db: Db, db': Db, planId: string, clock: Clock, ts: seq<Tag>)
    requires SchemaOk(db.tables) && SchemaOk(db'.tables) && InputInserted(db, db', planId, clock, ts)
    requires db.ledger.inputSerial !in db.ledger.planOfInput
    ensures Accrued(db, db', planId)
  {
    hide SchemaOk, UserTags, InputTags, OutputTags, RequiredTags, Required, SameInput;
  }

  lemma OutputAccrues(db: Db, db': Db, planId: string, ts: seq<Tag>)
    requires SchemaOk(db.tables) && SchemaOk(db'.tables) && OutputInserted(db, db', planId, ts)
    ensures Accrued(db, db', planId)
  {
    hide SchemaOk, UserTags, InputTags, OutputTags;
  }

  // ---- the inputs and outputs inserted so far ----------------------------------------------------

  ghost predicate InputAt(db0: Db, db: Db, planId: string, clock: Clock, ts: seq<Tag>, j: nat)
    requires SchemaOk(db.tables)
  {
    var id := db0.ledger.inputSerial + j;
    && id in db.tables.input && id in db.ledger.planOfInput && db.ledger.planOfInput[id] == planId
    && RequiredTags(db.tables, id) == Required(clock, ts)
  }

  ghost predicate InputsThrough(db0: Db, db: Db, planId: string, clock: Clock, inputs: seq<seq<Tag>>, n: nat)
    requires SchemaOk(db.tables) && n <= |inputs|
  {
    && (forall j :: 0 <= j < n ==> InputAt(db0, db, planId, clock, inputs[j], j))
    && db.tables.input == db0.tables.input + Span(db0.ledger.inputSerial, n)
    && db.ledger.inputSerial == db0.ledger.inputSerial + n
  }

  /** The `n` serials from `first` on. */
  function Span(first: int, n: nat): (ids: set<int>)
    ensures forall i :: i in ids <==> first <= i < first + n
  {
    if n == 0 then {} else Span(first, n - 1) + {first + n - 1}
  }

  ghost predicate OutputAt(db0: Db, db: Db, planId: string, ts: seq<Tag>, j: nat)
    requires SchemaOk(db.tables)
  {
    var id := db0.ledger.outputSerial + j;
    id in db.ledger.planOfOutput && db.ledger.planOfOutput[id] == planId && OutputTags(db.tables.tags, id) == Elems(ts)
  }

  ghost predicate OutputsThrough(db0: Db, db: Db, planId: string, outputs: seq<seq<Tag>>, n: nat)
    requires SchemaOk(db.tables) && n <= |outputs|
  {
    && (forall j :: 0 <= j < n ==> OutputAt(db0, db, planId, outputs[j], j))
    && db.ledger.planOfOutput.Keys == db0.ledger.planOfOutput.Keys + Span(db0.ledger.outputSerial, n)
    && db.ledger.outputSerial == db0.ledger.outputSerial + n
  }

  lemma SameRequired(d: Tables, d': Tables, i: int)
    requires SchemaOk(d) && SchemaOk(d') && SameInput(d, d', i)
    ensures RequiredTags(d', i) == RequiredTags(d, i)
  {
    hide SchemaOk, InputTags;
  }

  lemma InputStays(db0: Db, db: Db, db': Db, planId: string, clock: Clock, ts: seq<Tag>, j: nat)
    requires SchemaOk(db.tables) && SchemaOk(db'.tables) && InputAt(db0, db, planId, clock, ts, j)
    requires OldMounts(db, db') && NewMounts(db, db', planId)
    ensures InputAt(db0, db', planId, clock, ts, j)
  {
    hide SchemaOk, UserTags, InputTags, OutputTags, RequiredTags;
    SameRequired(db.tables, db'.tables, db0.ledger.inputSerial + j);
  }

  lemma OutputStays(db0: Db, db: Db, db': Db, planId: string, ts: seq<Tag>, j: nat)
    requires SchemaOk(db.tables) && SchemaOk(db'.tables) && OutputAt(db0, db, planId, ts, j)
    requires OldMounts(db, db') && NewMounts(db, db', planId)
    ensures OutputAt(db0, db', planId, ts, j)
  {
    hide SchemaOk, UserTags, InputTags, OutputTags, SameInput;
  }

  lemma NextInput(db0: Db, db: Db, db': Db, planId: string, clock: Clock, inputs: seq<seq<Tag>>, n: nat)
    requires SchemaOk(db.tables) && SchemaOk(db'.tables) && n < |inputs|
    requires InputsThrough(db0, db, planId, clock, inputs, n) && InputInserted(db, db', planId, clock, inputs[n])
    requires OldMounts(db, db') && NewMounts(db, db', planId)
    ensures InputsThrough(db0, db', planId, clock, inputs, n + 1)
  {
    hide SchemaOk, OnlyInput, RequiredTags, OldMounts, NewMounts;
    forall j | 0 <= j < n
      ensures InputAt(db0, db', planId, clock, inputs[j], j)
    {
      InputStays(db0, db, db', planId, clock, inputs[j], j);
    }
    assert InputAt(db0, db', planId, clock, inputs[n], n);
  }

  lemma NextOutput(db0: Db, db: Db, db': Db, planId: string, outputs: seq<seq<Tag>>, n: nat)
    requires SchemaOk(db.tables) && SchemaOk(db'.tables) && n < |outputs|
    requires OutputsThrough(db0, db, planId, outputs, n) && OutputInserted(db, db', planId, outputs[n])
    requires OldMounts(db, db') && NewMounts(db, db', planId)
    ensures OutputsThrough(db0, db', planId, outputs, n + 1)
  {
    hide SchemaOk, OnlyOutput, OutputTags, OldMounts, NewMounts;
    forall j | 0 <= j < n
      ensures OutputAt(db0, db', planId, outputs[j], j)
    {
      hide OutputAt;
      OutputStays(db0, db, db', planId, outputs[j], j);
    }
  }

  // ---- inserting -----------------------------------------------------------------------------------

  method InsertInputs(db: Db, planId: string, clock: Clock, inputs: seq<seq<Tag>>) returns (r: Result<Db, DbError>)
    requires Sound(db) && planId in db.ledger.plan
    ensures r.Ok? <==> forall j :: 0 <= j < |inputs| ==> Registrable(clock, inputs[j])
    ensures r.Ok? ==> Sound(r.value) && Accrued(db, r.value, planId) && r.value.tables.nomination == db.tables.nomination
    ensures r.Ok? ==> InputsThrough(db, r.value, planId, clock, inputs, |inputs|) && r.value.ledger.outputSerial == db.ledger.outputSerial
    ensures r.Ok? ==> r.value.ledger.planOfOutput == db.ledger.planOfOutput
  {
    hide SchemaOk, Refs, Accrued, InputAt, Registrable, InputInserted;
    NothingAccrued(db, planId);
    var out := db;
    for j := 0 to |inputs|
      invariant Sound(out) && Accrued(db, out, planId) && planId in out.ledger.plan && out.tables.nomination == db.tables.nomination
      invariant InputsThrough(db, out, planId, clock, inputs, j)
      invariant out.ledger.outputSerial == db.ledger.outputSerial && out.ledger.planOfOutput == db.ledger.planOfOutput
      invariant forall i :: 0 <= i < j ==> Registrable(clock, inputs[i])
    {
      var next := InsertInput(out, planId, clock, inputs[j]);
      if next.Err? {
        return next;
      }
      OneMoreInput(db, out, next.value, planId, clock, inputs, j);
      out := next.value;
    }
    return Ok(out);
  }

  lemma OneMoreInput(db0: Db, db: Db, db': Db, planId: string, clock: Clock, inputs: seq<seq<Tag>>, n: nat)
    requires SchemaOk(db0.tables) && Sound(db) && SchemaOk(db'.tables) && n < |inputs|
    requires Accrued(db0, db, planId) && InputsThrough(db0, db, planId, clock, inputs, n)
    requires InputInserted(db, db', planId, clock, inputs[n])
    ensures Accrued(db0, db', planId) && InputsThrough(db0, db', planId, clock, inputs, n + 1)
    ensures db'.ledger.plan == db.ledger.plan && db'.tables.nomination == db.tables.nomination
    ensures db'.ledger.outputSerial == db.ledger.outputSerial && db'.ledger.planOfOutput == db.ledger.planOfOutput
  {
    FreshInput(db);
    InputRowsAgree(db);
    hide SchemaOk, Refs, InputsThrough, OnlyInput, RequiredTags;
    InputAccrues(db, db', planId, clock, inputs[n]);
    NextInput(db0, db, db', planId, clock, inputs, n);
    AccruedTransitive(db0, db, db', planId);
  }

  lemma InputRowsAgree(db: Db)
    requires Sound(db)
    ensures db.ledger.planOfInput.Keys == db.tables.input
  {
    hide SchemaOk;
  }

  method InsertOutputs(db: Db, planId: string, outputs: seq<seq<Tag>>) returns (r: Result<Db, DbError>)
    requires Sound(db) && planId in db.ledger.plan
    ensures r.Ok? <==> forall j :: 0 <= j < |outputs| ==> Clean(outputs[j])
    ensures r.Ok? ==> Sound(r.value) && Accrued(db, r.value, planId) && r.value.tables.nomination == db.tables.nomination
    ensures r.Ok? ==> OutputsThrough(db, r.value, planId, outputs, |outputs|)
    ensures r.Ok? ==> r.value.tables.input == db.tables.input && r.value.ledger.inputSerial == db.ledger.inputSerial
  {
    hide SchemaOk, Refs, Accrued, OutputAt, OutputInserted;
    NothingAccrued(db, planId);
    var out := db;
    for j := 0 to |outputs|
      invariant Sound(out) && Accrued(db, out, planId) && planId in out.ledger.plan && out.tables.nomination == db.tables.nomination
      invariant OutputsThrough(db, out, planId, outputs, j)
      invariant out.tables.input == db.tables.input && out.ledger.inputSerial == db.ledger.inputSerial
      invariant forall i :: 0 <= i < j ==> Clean(outputs[i])
    {
      var next := InsertOutput(out, planId, outputs[j]);
      if next.Err? {
        return next;
      }
      OneMoreOutput(db, out, next.value, planId, outputs, j);
      out := next.value;
    }
    return Ok(out);
  }

  /** Outputs carry no system tags. */
  predicate Clean(ts: seq<Tag>) {
    forall t :: t in ts ==> !IsSystemTag(t)
  }

  lemma OneMoreOutput(db0: Db, db: Db, db': Db, planId: string, outputs: seq<seq<Tag>>, n: nat)
    requires SchemaOk(db0.tables) && SchemaOk(db.tables) && SchemaOk(db'.tables) && n < |outputs|
    requires Accrued(db0, db, planId) && OutputsThrough(db0, db, planId, outputs, n)
    requires OutputInserted(db, db', planId, outputs[n])
    ensures Accrued(db0, db', planId) && OutputsThrough(db0, db', planId, outputs, n + 1)
    ensures db'.ledger.plan == db.ledger.plan && db'.tables.nomination == db.tables.nomination
    ensures db'.tables.input == db.tables.input && db'.ledger.inputSerial == db.ledger.inputSerial
  {
    hide SchemaOk, OutputsThrough, OutputTags, UserTags, InputTags;
    OutputAccrues(db, db', planId, outputs[n]);
    NextOutput(db0, db, db', planId, outputs, n);
    AccruedTransitive(db0, db, db', planId);
  }

  /** The rows of a plan, as far as nomination and the plan graph look at them. */
  ghost predicate Inserted(db: Db, db': Db, planId: string, clock: Clock, rows: PlanRows)
    requires SchemaOk(db.tables) && SchemaOk(db'.tables)
  {
    && Accrued(db, db', planId)
    && InputsThrough(db, db', planId, clock, rows.inputs, |rows.inputs|)
    && OutputsThrough(db, db', planId, rows.outputs, |rows.outputs|)
  }

  lemma InsertedBoth(db: Db, mid: Db, db': Db, planId: string, clock: Clock, rows: PlanRows)
    requires SchemaOk(db.tables) && SchemaOk(mid.tables) && SchemaOk(db'.tables)
    requires Accrued(db, mid, planId) && Accrued(mid, db', planId)
    requires InputsThrough(db, mid, planId, clock, rows.inputs, |rows.inputs|)
    requires mid.ledger.outputSerial == db.ledger.outputSerial && mid.ledger.planOfOutput == db.ledger.planOfOutput
    requires OutputsThrough(mid, db', planId, rows.outputs, |rows.outputs|)
    requires db'.tables.input == mid.tables.input && db'.ledger.inputSerial == mid.ledger.inputSerial
    ensures Inserted(db, db', planId, clock, rows)
  {
    hide SchemaOk, OutputTags, InputAt, OldMounts, NewMounts, SameOthers;
    AccruedTransitive(db, mid, db', planId);
    forall j | 0 <= j < |rows.inputs|
      ensures InputAt(db, db', planId, clock, rows.inputs[j], j)
    {
      InputStays(db, mid, db', planId, clock, rows.inputs[j], j);
    }
    forall j | 0 <= j < |rows.outputs|
      ensures OutputAt(db, db', planId, rows.outputs[j], j)
    {
      assert OutputAt(mid, db', planId, rows.outputs[j], j);
    }
  }

  /** `registerPlan` after the row of the plan. */
  method InsertRows(db: Db, planId: string, clock: Clock, rows: PlanRows) returns (r: Result<Db, DbError>)
    requires Sound(db) && planId in db.ledger.plan
    ensures r.Ok? <==> RowsOk(clock, rows)
    ensures r.Ok? ==> Sound(r.value) && Inserted(db, r.value, planId, clock, rows) && r.value.tables.nomination == db.tables.nomination
  {
    hide SchemaOk, Refs, Accrued, InputsThrough, OutputsThrough, Registrable, Clean, Inserted;
    r := InsertInputs(db, planId, clock, rows.inputs);
    if r.Err? {
      return;
    }
    var mid := r.value;
    PlansStay(db, mid, planId);
    r := InsertOutputs(mid, planId, rows.outputs);
    if r.Ok? {
      InsertedBoth(db, mid, r.value, planId, clock, rows);
    }
  }

  lemma PlansStay(db: Db, db': Db, planId: string)
    requires SchemaOk(db.tables) && SchemaOk(db'.tables) && Accrued(db, db', planId)
    ensures db'.ledger.plan == db.ledger.plan
  {
    hide SchemaOk, SameInput, UserTags, OutputTags;
  }

  // ---- nominating --------------------------------------------------------------------------------

  lemma AccruedMatches(db: Db, db': Db, planId: string, k: string, i: int)
    requires SchemaOk(db.tables) && SchemaOk(db'.tables) && Accrued(db, db', planId) && i in db.tables.input
    ensures Matches(db'.tables, i, k) <==> Matches(db.tables, i, k)
  {
    hide SchemaOk, UserTags, OutputTags, InputTags, Matches;
    assert SameInput(db.tables, db'.tables, i);
    assert SameData(db.tables, db'.tables, k);
    MatchesDependsOn(db.tables, db'.tables, k, i);
  }

  lemma AccruedExactBut(db: Db, db': Db, planId: string, ids: set<int>)
    requires SchemaOk(db.tables) && Exact(db.tables) && SchemaOk(db'.tables) && Accrued(db, db', planId)
    requires db'.tables.input == db.tables.input + ids && db'.tables.nomination == db.tables.nomination
    ensures ExactBut(db'.tables, ids)
  {
    hide SchemaOk, Accrued, Exact, Matches;
    forall k, i | i !in ids
      ensures Nominated(db'.tables, k, i) <==> Matches(db'.tables, i, k)
    {
      ExactAt(db.tables, k, i);
      MatchesKnown(db'.tables, i, k);
      SchemaNominated(db.tables, k, i);
      if i in db.tables.input {
        AccruedMatches(db, db', planId, k, i);
      }
    }
  }

  lemma AccruedInvalidated(db: Db, db': Db, planId: string)
    requires SchemaOk(db.tables) && SchemaOk(db'.tables) && Accrued(db, db', planId)
    requires InvalidatedAreEmpty(db.tables, db.ledger)
    ensures InvalidatedAreEmpty(db'.tables, db'.ledger)
  {
    hide SchemaOk, OldMounts, UserTags;
  }

  function WithPlan(db: Db, planId: string, active: bool): Db {
    db.(ledger := db.ledger.(plan := db.ledger.plan[planId := ImagePlan(active)]))
  }

  /** The new inputs are nominated. */
  function Nominating(db: Db, ids: set<int>): Db {
    db.(tables := NominateMountpoints(db.tables, ids))
  }

  lemma NominatingIsGood(db: Db, db': Db, planId: string, clock: Clock, rows: PlanRows)
    requires Good(db) && Sound(db') && Inserted(db, db', planId, clock, rows) && db'.tables.nomination == db.tables.nomination
    ensures var ids := Span(db.ledger.inputSerial, |rows.inputs|);
      && Good(Nominating(db', ids)) && SchemaOk(Nominating(db', ids).tables)
      && FlagsKept(db.tables.nomination, Nominating(db', ids).tables.nomination)
      && (forall k, i :: i !in ids ==> (Nominated(Nominating(db', ids).tables, k, i) <==> Nominated(db.tables, k, i)))
  {
    hide SchemaOk, Refs, Exact, Accrued, InvalidatedAreEmpty, InputAt, OutputsThrough, NominateMountpoints, ExactBut, FlagsKept, Nominated;
    var ids := Span(db.ledger.inputSerial, |rows.inputs|);
    AccruedExactBut(db, db', planId, ids);
    AccruedInvalidated(db, db', planId);
    NominateNewInputs(db'.tables, ids);
    NominateMountpointsOnlyNomination(db'.tables, ids);
    LedgerIgnoresNomination(db'.tables, NominateMountpoints(db'.tables, ids), db'.ledger);
    OldInputsStay(db.tables, db'.tables, ids);
  }

  // ---- cycles ------------------------------------------------------------------------------------

  lemma LinksWereThere(db: Db, db': Db, planId: string, p: string, q: string, i: int, o: int)
    requires SchemaOk(db.tables) && SchemaOk(db'.tables) && Interned(db.tables.tags) && Interned(db'.tables.tags)
    requires Accrued(db, db', planId) && db.ledger.planOfInput.Keys == db.tables.input
    requires p != planId && q != planId && Links(db', q, p, i, o)
    ensures Links(db, q, p, i, o)
  {
    hide SchemaOk, Interned, InputTags, OutputTags, UserTags;
    assert SameInput(db.tables, db'.tables, i);
  }

  lemma OldEdges(db: Db, db': Db, planId: string, p: string, q: string)
    requires SchemaOk(db.tables) && SchemaOk(db'.tables) && Interned(db.tables.tags) && Interned(db'.tables.tags)
    requires Accrued(db, db', planId) && db.ledger.planOfInput.Keys == db.tables.input
    requires p != planId && q != planId && DependsOn(db', q, p)
    ensures DependsOn(db, q, p)
  {
    hide SchemaOk, Interned, Accrued, Links;
    var i, o :| Links(db', q, p, i, o);
    LinksWereThere(db, db', planId, p, q, i, o);
  }

  lemma OldPlansAcyclic(db: Db, db': Db, planId: string)
    requires Sound(db) && Sound(db') && Accrued(db, db', planId)
    requires Interned(db.tables.tags) && Acyclic(db, {})
    ensures Interned(db'.tables.tags) && Acyclic(db', {planId}) && PlansKnown(db')
  {
    LinkedAreKnown(db'.tables);
    forall p, q | p !in {planId} && q !in {planId} && DependsOn(db', q, p)
      ensures DependsOn(db, q, p)
    {
      hide SchemaOk, Accrued, DependsOn, Interned;
      OldEdges(db, db', planId, p, q);
    }
    hide SchemaOk, Accrued, DependsOn, Interned;
    StillAcyclic(db, db', {}, {planId});
  }

  lemma EdgesIgnoreNomination(db: Db, db': Db)
    requires Interned(db.tables.tags) && db' == db.(tables := db.tables.(nomination := db'.tables.nomination)) && Acyclic(db, {})
    ensures Acyclic(db', {})
  {
    hide Interned, Feeds, Acyclic;
    forall p, q | DependsOn(db', q, p)
      ensures DependsOn(db, q, p)
    {
      var i, o :| Links(db', q, p, i, o);
      FeedsIgnoresNomination(db.tables, db'.tables, i, o);
      assert Links(db, q, p, i, o);
    }
    StillAcyclic(db, db', {}, {});
  }

  lemma FeedsIgnoresNomination(d: Tables, d': Tables, i: int, o: int)
    requires Interned(d.tags) && d' == d.(nomination := d'.nomination)
    ensures Feeds(d', i, o) <==> Feeds(d, i, o)
  {
  }

  lemma PlanRowChanges(db: Db, planId: string, active: bool)
    requires Good(db)
    ensures Good(WithPlan(db, planId, active)) && Sound(WithPlan(db, planId, active)) && Interned(db.tables.tags)
    ensures Acyclic(db, {}) ==> Acyclic(WithPlan(db, planId, active), {})
  {
    PlanSet(db, planId, ImagePlan(active));
    LinkedAreKnown(db.tables);
    var db' := WithPlan(db, planId, active);
    hide SchemaOk, Exact, Refs, InvalidatedAreEmpty, Feeds, Interned, Acyclic;
    if Acyclic(db, {}) {
      forall p, q | DependsOn(db', q, p)
        ensures DependsOn(db, q, p)
      {
        var i, o :| Links(db', q, p, i, o);
        assert Links(db, q, p, i, o);
      }
      StillAcyclic(db, db', {}, {});
    }
  }

  // ---- the transaction ---------------------------------------------------------------------------

  /** What `Register` leaves: the rows of the plan, and its inputs nominated. */
  ghost predicate PlanRegistered(db: Db, db': Db, planId: string, active: bool, clock: Clock, rows: PlanRows) {
    && SchemaOk(WithPlan(db, planId, active).tables) && SchemaOk(db'.tables)
    && Inserted(WithPlan(db, planId, active), db', planId, clock, rows)
    && FlagsKept(db.tables.nomination, db'.tables.nomination)
    && forall k, i :: i in db.tables.input ==> (Nominated(db'.tables, k, i) <==> Nominated(db.tables, k, i))
  }

  /** The plan would close a cycle. */
  ghost predicate ClosesCycle(db: Db, planId: string, active: bool, clock: Clock, rows: PlanRows) {
    exists inserted: Db ::
      && SchemaOk(WithPlan(db, planId, active).tables) && SchemaOk(inserted.tables)
      && Inserted(WithPlan(db, planId, active), inserted, planId, clock, rows)
      && planId in inserted.ledger.plan && OnCycle(inserted, planId)
  }

  /** Main result: `Register` accepts what is not equivalent to a plan that there is, can be written to the
      tables and closes no cycle; it keeps the plans acyclic and the nomination exact. Whether there is an
      equivalent plan is a parameter. */
  method RegisterPlan(db: Db, planId: string, active: bool, clock: Clock, rows: PlanRows, equivalent: bool) returns (r: Result<Db, DbError>)
    requires Good(db) && Acyclic(db, {})
    ensures r.Ok? ==> Good(r.value) && Acyclic(r.value, {}) && PlanRegistered(db, r.value, planId, active, clock, rows)
    ensures equivalent ==> r == Err(EquivPlanExists)
    ensures !equivalent && planId in db.ledger.plan ==> r == Err(Conflict)
    ensures r.Ok? ==> RowsOk(clock, rows)
    ensures !equivalent && planId !in db.ledger.plan && RowsOk(clock, rows) && r.Err? ==>
      r == Err(CyclicPlan) && ClosesCycle(db, planId, active, clock, rows)
  {
    hide Good, Refs, Acyclic, Inserted, RowsOk, OnCycle, Nominating, FlagsKept, Nominated, PlanRegistered, ClosesCycle, SchemaOk, WithPlan, Interned, PlansKnown;
    if equivalent {
      return Err(EquivPlanExists);
    }
    if planId in db.ledger.plan {
      return Err(Conflict);
    }
    var started := WithPlan(db, planId, active);
    PlanRowChanges(db, planId, active);
    WithPlanMeans(db, planId, active);
    r := InsertRows(started, planId, clock, rows);
    if r.Err? {
      return;
    }
    var inserted := r.value;
    InsertedAccrues(started, inserted, planId, clock, rows);
    OldPlansAcyclic(started, inserted, planId);
    var cyclic := DependencyIsCyclic(inserted, planId);
    if cyclic {
      ClosesCycleBy(db, inserted, planId, active, clock, rows);
      return Err(CyclicPlan);
    }
    var ids := Span(db.ledger.inputSerial, |rows.inputs|);
    NominatingIsGood(started, inserted, planId, clock, rows);
    NominatingChanges(inserted, ids);
    EdgesIgnoreNomination(inserted, Nominating(inserted, ids));
    PlanRegisteredBy(db, inserted, Nominating(inserted, ids), planId, active, clock, rows);
    return Ok(Nominating(inserted, ids));
  }

  lemma WithPlanMeans(db: Db, planId: string, active: bool)
    ensures var started := WithPlan(db, planId, active);
      started.tables == db.tables && planId in started.ledger.plan && started.ledger.inputSerial == db.ledger.inputSerial
  {
  }

  lemma InsertedAccrues(db: Db, db': Db, planId: string, clock: Clock, rows: PlanRows)
    requires SchemaOk(db.tables) && SchemaOk(db'.tables) && Inserted(db, db', planId, clock, rows)
    ensures Accrued(db, db', planId) && db'.ledger.plan == db.ledger.plan
  {
    hide SchemaOk, SameOthers, OldMounts;
  }

  lemma NominatingChanges(db: Db, ids: set<int>)
    ensures Nominating(db, ids) == db.(tables := db.tables.(nomination := Nominating(db, ids).tables.nomination))
  {
    NominateMountpointsOnlyNomination(db.tables, ids);
    hide NominateMountpoints;
  }

  lemma ClosesCycleBy(db: Db, inserted: Db, planId: string, active: bool, clock: Clock, rows: PlanRows)
    requires SchemaOk(WithPlan(db, planId, active).tables) && SchemaOk(inserted.tables)
    requires Inserted(WithPlan(db, planId, active), inserted, planId, clock, rows)
    requires planId in inserted.ledger.plan && OnCycle(inserted, planId)
    ensures ClosesCycle(db, planId, active, clock, rows)
  {
    hide SchemaOk, Inserted, OnCycle, WithPlan;
  }

  lemma PlanRegisteredBy(db: Db, inserted: Db, db': Db, planId: string, active: bool, clock: Clock, rows: PlanRows)
    requires Sound(WithPlan(db, planId, active)) && SchemaOk(inserted.tables) && SchemaOk(db'.tables)
    requires Inserted(WithPlan(db, planId, active), inserted, planId, clock, rows)
    requires db' == inserted.(tables := inserted.tables.(nomination := db'.tables.nomination))
    requires FlagsKept(db.tables.nomination, db'.tables.nomination)
    requires forall k, i :: i !in Span(db.ledger.inputSerial, |rows.inputs|) ==> (Nominated(db'.tables, k, i) <==> Nominated(db.tables, k, i))
    ensures PlanRegistered(db, db', planId, active, clock, rows)
  {
    InputSerialAhead(WithPlan(db, planId, active));
    hide SchemaOk, Refs, Inserted, FlagsKept, Nominated;
    InsertedIgnoresNomination(WithPlan(db, planId, active), inserted, db', planId, clock, rows);
  }

  lemma InsertedIgnoresNomination(db: Db, inserted: Db, db': Db, planId: string, clock: Clock, rows: PlanRows)
    requires SchemaOk(db.tables) && SchemaOk(inserted.tables) && SchemaOk(db'.tables) && Inserted(db, inserted, planId, clock, rows)
    requires db' == inserted.(tables := inserted.tables.(nomination := db'.tables.nomination))
    ensures Inserted(db, db', planId, clock, rows)
  {
    hide SchemaOk, Accrued, InputAt, OutputAt, Required;
    NothingAccruedBut(inserted, db', planId);
    assert Accrued(db, db', planId) by {
      AccruedTransitive(db, inserted, db', planId);
    }
    forall j | 0 <= j < |rows.inputs|
      ensures InputAt(db, db', planId, clock, rows.inputs[j], j)
    {
      InputStays(db, inserted, db', planId, clock, rows.inputs[j], j);
    }
    forall j | 0 <= j < |rows.outputs|
      ensures OutputAt(db, db', planId, rows.outputs[j], j)
    {
      OutputStays(db, inserted, db', planId, rows.outputs[j], j);
    }
  }

  lemma NothingAccruedBut(db: Db, db': Db, planId: string)
    requires SchemaOk(db.tables) && SchemaOk(db'.tables)
    requires db' == db.(tables := db.tables.(nomination := db'.tables.nomination))
    ensures Accrued(db, db', planId) && OldMounts(db, db') && NewMounts(db, db', planId)
  {
    hide SchemaOk, UserTags, InputTags, OutputTags;
  }

  lemma InputSerialAhead(db: Db)
    requires Sound(db)
    ensures forall i :: i in db.tables.input ==> i < db.ledger.inputSerial
  {
    hide SchemaOk;
  }
}
