/** `insertInput` and `insertOutput` of pkg/domain/plan/db/postgres/plan.go: rows for mountpoints, with each
    tag in the table that is meant for it. */
module Mountpoints {
  import opened Results
  import opened Sets
  import opened TagStore
  import opened TagSets
  import opened Nomination
  import opened Upkeep
  import opened Ledgers

  // ---- routing one tag of an input ---------------------------------------------------------------

  /** What a tag requires of data, unless it is refused. The database keeps microseconds. */
  function BodyTagOf(clock: Clock, t: Tag): Option<BodyTag> {
    if t.key == KEY_KNIT_TRANSIENT then None
    else if t.key == KEY_KNIT_ID then Some(KnitIdTag(t.value))
    else if t.key == KEY_KNIT_TIMESTAMP then
      match UnixMicro(clock, t) case None => None case Some(micros) => Some(TimestampTag(micros))
    else if IsSystemTag(t) then None
    else Some(UserTag(t))
  }

  /** One round of the loop over an input's tags: knit#id and knit#timestamp have tables with one row per
      input, and other reserved keys are refused. */
  function RouteTag(d: Tables, id: int, clock: Clock, t: Tag): Result<Tables, DbError>
    requires Interned(d.tags)
  {
    if t.key == KEY_KNIT_TRANSIENT then Err(UnacceptableTag)
    else if t.key == KEY_KNIT_ID then
      if id in d.knitidInput then Err(Conflict) else Ok(d.(knitidInput := d.knitidInput[id := t.value]))
    else if t.key == KEY_KNIT_TIMESTAMP then
      match UnixMicro(clock, t)
      case None => Err(BadTimestamp)
      case Some(micros) =>
        if id in d.timestampInput then Err(Conflict) else Ok(d.(timestampInput := d.timestampInput[id := micros]))
    else if IsSystemTag(t) then Err(UnacceptableTag)
    else Ok(d.(tags := AddTagForInput(d.tags, id, t)))
  }

  /** Nothing but the input `id` has changed. */
  ghost predicate OnlyInput(d: Tables, d': Tables, id: int)
    requires SchemaOk(d) && SchemaOk(d')
  {
    && d' == d.(input := d'.input, tags := d'.tags, knitidInput := d'.knitidInput, timestampInput := d'.timestampInput)
    && d'.tags.tagOutput == d.tags.tagOutput
    && (forall i :: i != id ==> SameInput(d, d', i))
    && (forall k :: UserTags(d'.tags, k) == UserTags(d.tags, k))
    && (forall o :: OutputTags(d'.tags, o) == OutputTags(d.tags, o))
  }

  lemma OnlyInputTransitive(a: Tables, b: Tables, c: Tables, id: int)
    requires SchemaOk(a) && SchemaOk(b) && SchemaOk(c) && OnlyInput(a, b, id) && OnlyInput(b, c, id)
    ensures OnlyInput(a, c, id)
  {
    hide SchemaOk, UserTags, InputTags, OutputTags;
    forall i | i != id
      ensures SameInput(a, c, i)
    {
      assert SameInput(a, b, i) && SameInput(b, c, i);
    }
  }

  /** The input has a knit#id or a knit#timestamp already. */
  ghost predicate Holds(d: Tables, id: int, key: string) {
    (key == KEY_KNIT_ID && id in d.knitidInput) || (key == KEY_KNIT_TIMESTAMP && id in d.timestampInput)
  }

  lemma KnitIdSet(d: Tables, id: int, value: string)
    requires SchemaOk(d) && id in d.input && id !in d.knitidInput
    ensures var d' := d.(knitidInput := d.knitidInput[id := value]);
      && SchemaOk(d') && OnlyInput(d, d', id) && RequiredTags(d', id) == RequiredTags(d, id) + {KnitIdTag(value)}
  {
    hide Interned, UserTags, InputTags, OutputTags;
  }

  lemma TimestampSet(d: Tables, id: int, micros: int)
    requires SchemaOk(d) && id in d.input && id !in d.timestampInput
    ensures var d' := d.(timestampInput := d.timestampInput[id := micros]);
      && SchemaOk(d') && OnlyInput(d, d', id) && RequiredTags(d', id) == RequiredTags(d, id) + {TimestampTag(micros)}
  {
    hide Interned, UserTags, InputTags, OutputTags;
  }

  lemma TagsSchema(d: Tables, t': TagTables)
    requires SchemaOk(d) && Interned(t')
    requires forall r :: r in t'.tagData ==> r.1 in d.data
    requires forall r :: r in t'.tagInput ==> r.1 in d.input
    ensures SchemaOk(d.(tags := t'))
  {
    hide Interned;
  }

  lemma UserTagSet(d: Tables, t': TagTables, id: int, t: Tag)
    requires SchemaOk(d) && SchemaOk(d.(tags := t')) && OnlyTouchesInput(d.tags, t', id)
    requires InputTags(t', id) == InputTags(d.tags, id) + {t} && forall o :: OutputTags(t', o) == OutputTags(d.tags, o)
    ensures OnlyInput(d, d.(tags := t'), id)
    ensures RequiredTags(d.(tags := t'), id) == RequiredTags(d, id) + {UserTag(t)}
  {
    hide SchemaOk, Interned, UserTags, InputTags, OutputTags, Extends;
  }

  lemma OutputTagsKept(t: TagTables, t': TagTables)
    requires Interned(t) && Interned(t') && Extends(t, t') && t'.tagOutput == t.tagOutput
    ensures forall o :: OutputTags(t', o) == OutputTags(t, o)
  {
    ExtendsKeepsTags(t, t');
  }

  lemma UserTagAdded(d: Tables, id: int, t: Tag)
    requires SchemaOk(d) && id in d.input
    ensures var d' := d.(tags := AddTagForInput(d.tags, id, t));
      && SchemaOk(d') && OnlyInput(d, d', id) && RequiredTags(d', id) == RequiredTags(d, id) + {UserTag(t)}
  {
    var t' := AddTagForInput(d.tags, id, t);
    AddInputTagReadsBack(d.tags, id, t);
    LinkedAreKnown(d);
    hide SchemaOk, Interned, UserTags, InputTags, OutputTags, AddTagForInput, Extends, OnlyInput, RequiredTags;
    TagsSchema(d, t');
    OutputTagsKept(d.tags, t');
    UserTagSet(d, t', id, t);
  }

  lemma RouteUserTag(d: Tables, id: int, clock: Clock, t: Tag)
    requires Interned(d.tags) && !IsSystemTag(t)
    ensures RouteTag(d, id, clock, t) == Ok(d.(tags := AddTagForInput(d.tags, id, t))) && BodyTagOf(clock, t) == Some(UserTag(t))
  {
    hide Interned;
    ReservedKeys();
  }

  lemma LinkedAreKnown(d: Tables)
    requires SchemaOk(d)
    ensures Interned(d.tags)
    ensures forall r :: r in d.tags.tagData ==> r.1 in d.data
    ensures forall r :: r in d.tags.tagInput ==> r.1 in d.input
  {
  }

  /** A routed tag is required from then on, and nothing else changes. */
  lemma RouteMeans(d: Tables, id: int, clock: Clock, t: Tag)
    requires SchemaOk(d) && id in d.input
    ensures RouteTag(d, id, clock, t).Ok? <==> BodyTagOf(clock, t).Some? && !Holds(d, id, t.key)
    ensures RouteTag(d, id, clock, t).Ok? ==> var d' := RouteTag(d, id, clock, t).value;
      && SchemaOk(d') && OnlyInput(d, d', id)
      && RequiredTags(d', id) == RequiredTags(d, id) + {BodyTagOf(clock, t).value}
      && d'.input == d.input
      && (forall key :: Holds(d', id, key) <==> Holds(d, id, key) || (key == t.key && key in {KEY_KNIT_ID, KEY_KNIT_TIMESTAMP}))
  {
    ReservedKeys();
    if IsSystemTag(t) {
      if t.key == KEY_KNIT_ID && id !in d.knitidInput {
        KnitIdSet(d, id, t.value);
      }
      if UnixMicro(clock, t).Some? && id !in d.timestampInput {
        TimestampSet(d, id, UnixMicro(clock, t).value);
      }
    } else {
      RouteUserTag(d, id, clock, t);
      UserTagAdded(d, id, t);
    }
    hide SchemaOk, OnlyInput, RequiredTags, AddTagForInput, IsSystemTag;
  }

  // ---- an input ----------------------------------------------------------------------------------

  /** What the tables accept as the tags of an input. */
  predicate Registrable(clock: Clock, ts: seq<Tag>) {
    && (forall t :: t in ts ==> BodyTagOf(clock, t).Some?)
    && (forall i, j :: 0 <= i < j < |ts| && ts[i].key == ts[j].key ==> ts[i].key !in {KEY_KNIT_ID, KEY_KNIT_TIMESTAMP})
  }

  function Required(clock: Clock, ts: seq<Tag>): set<BodyTag> {
    set t | t in ts && BodyTagOf(clock, t).Some? :: BodyTagOf(clock, t).value
  }

  /** What is required, told by the tags: ids, times in microseconds, and user tags as they are. */
  lemma RequiredMeans(clock: Clock, ts: seq<Tag>)
    ensures forall id :: KnitIdTag(id) in Required(clock, ts) <==> Tag(KEY_KNIT_ID, id) in ts
    ensures forall micros :: TimestampTag(micros) in Required(clock, ts) <==>
      exists t :: t in ts && t.key == KEY_KNIT_TIMESTAMP && clock.parse(t.value).Some? && clock.parse(t.value).value / 1000 == micros
    ensures forall t :: UserTag(t) in Required(clock, ts) <==> t in ts && !IsSystemTag(t)
    ensures forall value :: TransientTag(value) !in Required(clock, ts)
  {
    ReservedKeys();
    forall id
      ensures KnitIdTag(id) in Required(clock, ts) <==> Tag(KEY_KNIT_ID, id) in ts
    {
      assert BodyTagOf(clock, Tag(KEY_KNIT_ID, id)) == Some(KnitIdTag(id));
    }
    forall t
      ensures UserTag(t) in Required(clock, ts) <==> t in ts && !IsSystemTag(t)
    {
      assert !IsSystemTag(t) ==> BodyTagOf(clock, t) == Some(UserTag(t));
    }
    forall micros
      ensures TimestampTag(micros) in Required(clock, ts) <==>
        exists t :: t in ts && t.key == KEY_KNIT_TIMESTAMP && clock.parse(t.value).Some? && clock.parse(t.value).value / 1000 == micros
    {
      assert forall t :: t in ts && t.key == KEY_KNIT_TIMESTAMP && clock.parse(t.value).Some? ==>
        BodyTagOf(clock, t) == Some(TimestampTag(clock.parse(t.value).value / 1000));
    }
  }

  /** The tags of an input are refused if one is reserved and not understood, or a reserved key comes twice. */
  lemma RegistrableMeans(clock: Clock, ts: seq<Tag>)
    ensures Registrable(clock, ts) <==>
      && (forall t :: t in ts && IsSystemTag(t) ==>
        t.key == KEY_KNIT_ID || (t.key == KEY_KNIT_TIMESTAMP && clock.parse(t.value).Some?))
      && (forall i, j :: 0 <= i < j < |ts| && IsSystemTag(ts[i]) ==> ts[i].key != ts[j].key)
  {
    ReservedKeys();
    forall t
      ensures BodyTagOf(clock, t).Some? <==>
        !IsSystemTag(t) || t.key == KEY_KNIT_ID || (t.key == KEY_KNIT_TIMESTAMP && clock.parse(t.value).Some?)
      ensures t.key in {KEY_KNIT_ID, KEY_KNIT_TIMESTAMP} ==> IsSystemTag(t)
    {
    }
    hide IsSystemTag, BodyTagOf;
    assert forall i :: 0 <= i < |ts| ==> ts[i] in ts;
  }

  ghost predicate HeldKeys(d: Tables, id: int, ts: seq<Tag>) {
    forall key :: Holds(d, id, key) <==> key in {KEY_KNIT_ID, KEY_KNIT_TIMESTAMP} && exists t :: t in ts && t.key == key
  }

  lemma RegistrableNext(d: Tables, id: int, clock: Clock, ts: seq<Tag>, t: Tag)
    requires Registrable(clock, ts) && HeldKeys(d, id, ts)
    ensures Registrable(clock, ts + [t]) <==> BodyTagOf(clock, t).Some? && !Holds(d, id, t.key)
    ensures BodyTagOf(clock, t).Some? ==> Required(clock, ts + [t]) == Required(clock, ts) + {BodyTagOf(clock, t).value}
  {
    hide BodyTagOf, Holds;
    var ts' := ts + [t];
    assert forall x :: x in ts' <==> x in ts || x == t;
    if BodyTagOf(clock, t).Some? && !Holds(d, id, t.key) {
      forall i, j | 0 <= i < j < |ts'| && ts'[i].key == ts'[j].key
        ensures ts'[i].key !in {KEY_KNIT_ID, KEY_KNIT_TIMESTAMP}
      {
        if j == |ts| {
          assert ts[i] in ts;
        }
      }
    }
    if Registrable(clock, ts') && t.key in {KEY_KNIT_ID, KEY_KNIT_TIMESTAMP} {
      forall i | 0 <= i < |ts|
        ensures ts[i].key != t.key
      {
        assert ts'[i] == ts[i] && ts'[|ts|] == t;
      }
    }
  }

  lemma PrefixRegistrable(clock: Clock, ts: seq<Tag>, n: nat)
    requires n <= |ts|
    ensures Registrable(clock, ts) ==> Registrable(clock, ts[..n])
  {
    hide BodyTagOf;
    assert forall t :: t in ts[..n] ==> t in ts;
    assert forall i :: 0 <= i < n ==> ts[..n][i] == ts[i];
  }

  function WithInputRow(d: Tables, id: int): Tables {
    d.(input := d.input + {id})
  }

  lemma NewRow(d: Tables, id: int)
    requires SchemaOk(d) && id !in d.input
    ensures SchemaOk(WithInputRow(d, id)) && OnlyInput(d, WithInputRow(d, id), id)
    ensures RequiredTags(WithInputRow(d, id), id) == {} && HeldKeys(WithInputRow(d, id), id, [])
  {
    hide Interned, UserTags, OutputTags;
  }

  /** What `insertInput` does to the tables that nomination looks at. */
  method InsertInputTags(d: Tables, id: int, clock: Clock, ts: seq<Tag>) returns (r: Result<Tables, DbError>)
    requires SchemaOk(d) && id !in d.input
    ensures r.Ok? <==> Registrable(clock, ts)
    ensures r.Ok? ==>
      && SchemaOk(r.value) && OnlyInput(d, r.value, id) && r.value.input == d.input + {id}
      && RequiredTags(r.value, id) == Required(clock, ts)
  {
    hide SchemaOk, OnlyInput, RequiredTags, Required, Registrable, RouteTag, BodyTagOf, HeldKeys, Interned;
    NewRow(d, id);
    NothingRequired(clock);
    var out := WithInputRow(d, id);
    assert ts[..0] == [];
    for j := 0 to |ts|
      invariant SchemaOk(out) && OnlyInput(d, out, id) && out.input == d.input + {id}
      invariant Registrable(clock, ts[..j]) && HeldKeys(out, id, ts[..j])
      invariant RequiredTags(out, id) == Required(clock, ts[..j])
    {
      assert ts[..j + 1] == ts[..j] + [ts[j]];
      RegistrableNext(out, id, clock, ts[..j], ts[j]);
      RouteMeans(out, id, clock, ts[j]);
      LinkedAreKnown(out);
      var routed := RouteTag(out, id, clock, ts[j]);
      if routed.Err? {
        PrefixRegistrable(clock, ts, j + 1);
        return Err(routed.error);
      }
      OnlyInputTransitive(d, out, routed.value, id);
      HeldKeysNext(out, routed.value, id, ts[..j], ts[j]);
      out := routed.value;
    }
    assert ts[..|ts|] == ts;
    return Ok(out);
  }

  lemma NothingRequired(clock: Clock)
    ensures Registrable(clock, []) && Required(clock, []) == {}
  {
  }

  lemma HeldKeysNext(d: Tables, d': Tables, id: int, ts: seq<Tag>, t: Tag)
    requires HeldKeys(d, id, ts)
    requires forall key :: Holds(d', id, key) <==> Holds(d, id, key) || (key == t.key && key in {KEY_KNIT_ID, KEY_KNIT_TIMESTAMP})
    ensures HeldKeys(d', id, ts + [t])
  {
    hide Holds;
    assert forall x :: x in ts + [t] <==> x in ts || x == t;
  }

  /** What `insertInput` leaves: an input of the plan that requires exactly what its tags say. */
  ghost predicate InputInserted(db: Db, db': Db, planId: string, clock: Clock, ts: seq<Tag>)
    requires SchemaOk(db.tables) && SchemaOk(db'.tables)
  {
    var id := db.ledger.inputSerial;
    && OnlyInput(db.tables, db'.tables, id) && id !in db.tables.input && db'.tables.input == db.tables.input + {id}
    && RequiredTags(db'.tables, id) == Required(clock, ts)
    && db'.ledger == db.ledger.(planOfInput := db.ledger.planOfInput[id := planId], inputSerial := id + 1)
  }

  ghost predicate Sound(db: Db) {
    SchemaOk(db.tables) && Refs(db.tables, db.ledger)
  }

  method InsertInput(db: Db, planId: string, clock: Clock, ts: seq<Tag>) returns (r: Result<Db, DbError>)
    requires Sound(db) && planId in db.ledger.plan
    ensures r.Ok? <==> Registrable(clock, ts)
    ensures r.Ok? ==> Sound(r.value) && InputInserted(db, r.value, planId, clock, ts)
  {
    hide SchemaOk, Refs, RequiredTags, OnlyInput, Required, Registrable;
    var id := db.ledger.inputSerial;
    FreshInput(db);
    var tables := InsertInputTags(db.tables, id, clock, ts);
    if tables.Err? {
      return Err(tables.error);
    }
    NewInputRefs(db, tables.value, id, planId);
    return Ok(Db(tables.value, db.ledger.(planOfInput := db.ledger.planOfInput[id := planId], inputSerial := id + 1)));
  }

  lemma FreshInput(db: Db)
    requires Sound(db)
    ensures db.ledger.inputSerial !in db.tables.input
  {
    hide SchemaOk, RunRefs, DataRefs, AssignRefs;
  }

  lemma NewInputRefs(db: Db, d': Tables, id: int, planId: string)
    requires Sound(db) && SchemaOk(d') && OnlyInput(db.tables, d', id) && d'.input == db.tables.input + {id}
    requires id == db.ledger.inputSerial && planId in db.ledger.plan
    ensures Refs(d', db.ledger.(planOfInput := db.ledger.planOfInput[id := planId], inputSerial := id + 1))
  {
    hide SchemaOk, SameInput, UserTags, OutputTags;
    var x' := db.ledger.(planOfInput := db.ledger.planOfInput[id := planId], inputSerial := id + 1);
    assert RunRefs(d', x') && DataRefs(d', x') && AssignRefs(d', x') by {
      hide MountRefs;
    }
    assert MountRefs(d', x') by {
      hide RunRefs, DataRefs, AssignRefs;
    }
  }

  // ---- an output ---------------------------------------------------------------------------------

  /** Nothing but the output `id` has changed. */
  ghost predicate OnlyOutput(d: Tables, d': Tables, id: int)
    requires SchemaOk(d) && SchemaOk(d')
  {
    && d' == d.(tags := d'.tags)
    && (forall r :: r in d'.tags.tagOutput && r.1 != id ==> r in d.tags.tagOutput)
    && (forall i :: InputTags(d'.tags, i) == InputTags(d.tags, i))
    && (forall k :: UserTags(d'.tags, k) == UserTags(d.tags, k))
    && (forall o :: o != id ==> OutputTags(d'.tags, o) == OutputTags(d.tags, o))
  }

  lemma OnlyOutputTransitive(a: Tables, b: Tables, c: Tables, id: int)
    requires SchemaOk(a) && SchemaOk(b) && SchemaOk(c) && OnlyOutput(a, b, id) && OnlyOutput(b, c, id)
    ensures OnlyOutput(a, c, id)
  {
    hide SchemaOk, UserTags, InputTags, OutputTags;
  }

  lemma OnlyOutputReflexive(d: Tables, id: int)
    requires SchemaOk(d)
    ensures OnlyOutput(d, d, id)
  {
    hide SchemaOk, UserTags, InputTags, OutputTags;
  }

  lemma AddOutputTag(d: Tables, id: int, t: Tag)
    requires SchemaOk(d)
    ensures var d' := d.(tags := AddTagForOutput(d.tags, id, t));
      && SchemaOk(d') && OnlyOutput(d, d', id) && OutputTags(d'.tags, id) == OutputTags(d.tags, id) + {t}
  {
    var t' := AddTagForOutput(d.tags, id, t);
    AddOutputTagReadsBack(d.tags, id, t);
    LinkedAreKnown(d);
    hide SchemaOk, Interned, UserTags, InputTags, OutputTags, AddTagForOutput, Extends;
    TagsSchema(d, t');
  }

  method InsertOutputTags(d: Tables, id: int, ts: seq<Tag>) returns (r: Result<Tables, DbError>)
    requires SchemaOk(d) && OutputTags(d.tags, id) == {}
    ensures r.Ok? <==> forall t :: t in ts ==> !IsSystemTag(t)
    ensures r.Ok? ==> SchemaOk(r.value) && OnlyOutput(d, r.value, id) && OutputTags(r.value.tags, id) == Elems(ts)
  {
    hide SchemaOk, OnlyOutput, OutputTags, AddTagForOutput, Interned, IsSystemTag;
    OnlyOutputReflexive(d, id);
    LinkedAreKnown(d);
    var out := d;
    assert Elems(ts[..0]) == {};
    for j := 0 to |ts|
      invariant SchemaOk(out) && Interned(out.tags) && OnlyOutput(d, out, id)
      invariant forall t :: t in ts[..j] ==> !IsSystemTag(t)
      invariant OutputTags(out.tags, id) == Elems(ts[..j])
    {
      assert Elems(ts[..j + 1]) == Elems(ts[..j]) + {ts[j]};
      if IsSystemTag(ts[j]) {
        return Err(UnacceptableTag);
      }
      AddOutputTag(out, id, ts[j]);
      OnlyOutputTransitive(d, out, out.(tags := AddTagForOutput(out.tags, id, ts[j])), id);
      out := out.(tags := AddTagForOutput(out.tags, id, ts[j]));
    }
    assert ts[..|ts|] == ts;
    return Ok(out);
  }

  /** What `insertOutput` leaves: an output of the plan with exactly these tags. */
  ghost predicate OutputInserted(db: Db, db': Db, planId: string, ts: seq<Tag>)
    requires SchemaOk(db.tables) && SchemaOk(db'.tables)
  {
    var id := db.ledger.outputSerial;
    && OnlyOutput(db.tables, db'.tables, id) && id !in db.ledger.planOfOutput
    && OutputTags(db'.tables.tags, id) == Elems(ts)
    && db'.ledger == db.ledger.(planOfOutput := db.ledger.planOfOutput[id := planId], outputSerial := id + 1)
  }

  method InsertOutput(db: Db, planId: string, ts: seq<Tag>) returns (r: Result<Db, DbError>)
    requires Sound(db) && planId in db.ledger.plan
    ensures r.Ok? <==> forall t :: t in ts ==> !IsSystemTag(t)
    ensures r.Ok? ==> Sound(r.value) && OutputInserted(db, r.value, planId, ts)
  {
    hide SchemaOk, Refs, OutputTags, OnlyOutput, IsSystemTag;
    var id := db.ledger.outputSerial;
    FreshOutput(db);
    var tables := InsertOutputTags(db.tables, id, ts);
    if tables.Err? {
      return Err(tables.error);
    }
    NewOutputRefs(db, tables.value, id, planId);
    return Ok(Db(tables.value, db.ledger.(planOfOutput := db.ledger.planOfOutput[id := planId], outputSerial := id + 1)));
  }

  lemma FreshOutput(db: Db)
    requires Sound(db)
    ensures db.ledger.outputSerial !in db.ledger.planOfOutput
    ensures OutputTags(db.tables.tags, db.ledger.outputSerial) == {}
  {
    hide RunRefs, DataRefs, AssignRefs;
  }

  lemma NewOutputRefs(db: Db, d': Tables, id: int, planId: string)
    requires Sound(db) && SchemaOk(d') && OnlyOutput(db.tables, d', id)
    requires id == db.ledger.outputSerial && planId in db.ledger.plan
    ensures Refs(d', db.ledger.(planOfOutput := db.ledger.planOfOutput[id := planId], outputSerial := id + 1))
  {
    hide SchemaOk, UserTags, InputTags, OutputTags;
    var x' := db.ledger.(planOfOutput := db.ledger.planOfOutput[id := planId], outputSerial := id + 1);
    assert RunRefs(d', x') && AssignRefs(d', x') by {
      hide MountRefs, DataRefs;
    }
    assert DataRefs(d', x') by {
      hide RunRefs, MountRefs, AssignRefs;
    }
    assert MountRefs(d', x') by {
      hide RunRefs, DataRefs, AssignRefs;
    }
  }
}
