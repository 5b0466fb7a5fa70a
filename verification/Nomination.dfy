/** The nominator of pkg/domain/nomination/db/postgres/nominator.go: `nomination` as an incrementally
    maintained view of "the tags an input requires are among the tags of a done data".
    The statements count rows of joins; the view compares sets of tags. */
module Nomination {
  import opened CountingJoins
  import opened TagStore

  datatype Status =
    | Deactivated | Waiting | Ready | Starting | Running | Completing | Aborting | Done | Failed | Invalidated

  datatype Tables = Tables(
    run: map<string, Status>,
    data: map<string, string>,
    knitTimestamp: map<string, int>,
    input: set<int>,
    knitidInput: map<int, string>,
    timestampInput: map<int, int>,
    tags: TagTables,
    nomination: map<(string, int), bool>)

  /** The schema's keys and references. */
  ghost predicate SchemaOk(d: Tables) {
    && Interned(d.tags)
    && (forall k :: k in d.data ==> d.data[k] in d.run)
    && d.knitTimestamp.Keys <= d.data.Keys
    && d.knitidInput.Keys <= d.input && d.timestampInput.Keys <= d.input
    && (forall r :: r in d.tags.tagData ==> r.1 in d.data)
    && (forall r :: r in d.tags.tagInput ==> r.1 in d.input)
    && (forall p :: p in d.nomination ==> p.0 in d.data && p.1 in d.input)
  }

  // ---- the simple view -------------------------------------------------------------------------

  datatype BodyTag = UserTag(tag: Tag) | KnitIdTag(knitId: string) | TimestampTag(time: int) | TransientTag(value: string)

  predicate Processing(s: Status) {
    s in {Deactivated, Waiting, Ready, Starting, Running, Completing, Aborting}
  }

  /** The tags of a data, each with where it comes from: what the row stands for, and what is linked. What
      `GetDataBody` rebuilds are their renderings, in which a linked system tag is taken for the row's. */
  ghost function BodyTags(d: Tables, k: string): set<BodyTag>
    requires SchemaOk(d) && k in d.data
  {
    {KnitIdTag(k)}
    + (if Processing(d.run[d.data[k]]) then {TransientTag("processing")} else {})
    + (if d.run[d.data[k]] in {Failed, Invalidated} then {TransientTag("failed")} else {})
    + (if k in d.knitTimestamp then {TimestampTag(d.knitTimestamp[k])} else {})
    + (set t | t in UserTags(d.tags, k) :: UserTag(t))
  }

  /** The tags that an input requires: user tags, and at most one knit#id and one knit#timestamp. */
  ghost function RequiredTags(d: Tables, i: int): set<BodyTag>
    requires SchemaOk(d)
  {
    (set t | t in InputTags(d.tags, i) :: UserTag(t))
    + (if i in d.knitidInput then {KnitIdTag(d.knitidInput[i])} else {})
    + (if i in d.timestampInput then {TimestampTag(d.timestampInput[i])} else {})
  }

  predicate IsDone(d: Tables, k: string) {
    k in d.data && d.data[k] in d.run && d.run[d.data[k]] == Done
  }

  ghost predicate Matches(d: Tables, i: int, k: string)
    requires SchemaOk(d)
  {
    && i in d.input && IsDone(d, k)
    && RequiredTags(d, i) != {} && RequiredTags(d, i) <= BodyTags(d, k)
  }

  // ---- the counting joins ----------------------------------------------------------------------

  /** "data": the done data among `ids`. */
  function DoneAmong(d: Tables, ids: set<string>): set<string> {
    set k | k in ids && IsDone(d, k)
  }

  /** The inner query compares cardinalities; the left joins then look at the system tags. */
  function MatchWithUserTag(d: Tables, dTags: set<(int, string)>, iTags: set<(int, int)>): set<(int, string)> {
    set m | m in MatchedPairs(iTags, dTags)
      && (m.0 in d.knitidInput ==> d.knitidInput[m.0] == m.1)
      && (m.0 in d.timestampInput ==> m.1 in d.knitTimestamp && d.timestampInput[m.0] == d.knitTimestamp[m.1])
  }

  /** "inputs_requires_only_systemtag": left joins, so that an absent column is null. */
  datatype SystemRow = SystemRow(inputId: int, hasTimestamp: bool, hasKnitId: bool)

  function OnlySystemTag(d: Tables, inputs: set<int>): set<SystemRow> {
    var untagged := set i | i in d.input && i in inputs && i !in (set r | r in d.tags.tagInput :: r.1);
    set i | i in untagged && (i in d.timestampInput || i in d.knitidInput)
      :: SystemRow(i, i in d.timestampInput, i in d.knitidInput)
  }

  function MatchOnlySystemTag(d: Tables, data: set<string>, inputs: set<int>): set<(int, string)> {
    var rows := OnlySystemTag(d, inputs);
    set row, k | row in rows && k in data
      && |set other | other in rows && other.inputId == row.inputId| == 1
      && (row.inputId in d.knitidInput ==> d.knitidInput[row.inputId] == k)
      && (row.inputId in d.timestampInput ==> k in d.knitTimestamp && d.timestampInput[row.inputId] == d.knitTimestamp[k])
      :: (row.inputId, k)
  }

  /** "match", with the data and the inputs that a statement restricts itself to. */
  function CountingMatch(d: Tables, data: set<string>, iTags: set<(int, int)>, inputs: set<int>): set<(int, string)> {
    var dTags := set r | r in d.tags.tagData && r.1 in data;
    MatchWithUserTag(d, dTags, iTags) + MatchOnlySystemTag(d, data, inputs)
  }

  /** "remove_unmatch" and the insert: both read the same snapshot; rows in conflict stay as they are. */
  function Replace(nomination: map<(string, int), bool>, scope: set<(string, int)>, match': set<(int, string)>): map<(string, int), bool> {
    (map m | m in match' :: (m.1, m.0) := true)
    + (map p | p in nomination && (p in scope ==> (p.1, p.0) in match') :: nomination[p])
  }

  function NominateData(d: Tables, ids: set<string>): Tables {
    var found := CountingMatch(d, DoneAmong(d, ids), d.tags.tagInput, d.input);
    d.(nomination := Replace(d.nomination, (set p | p in d.nomination && p.0 in ids), found))
  }

  function NominateMountpoints(d: Tables, ids: set<int>): Tables {
    var iTags := set r | r in d.tags.tagInput && r.1 in ids;
    var found := CountingMatch(d, DoneAmong(d, d.data.Keys), iTags, ids);
    d.(nomination := Replace(d.nomination, (set p | p in d.nomination && p.1 in ids), found))
  }

  function DropData(d: Tables, ids: set<string>): Tables {
    d.(nomination := map p | p in d.nomination && p.0 !in ids :: d.nomination[p])
  }

  // ---- counting is comparing -------------------------------------------------------------------

  /** On interned tags, inclusion of rows is inclusion of tags. */
  lemma RowsIffTags(d: Tables, dTags: set<(int, string)>, iTags: set<(int, int)>, i: int, k: string)
    requires SchemaOk(d)
    requires forall t :: (t, i) in iTags <==> (t, i) in d.tags.tagInput
    requires forall t :: (t, k) in dTags <==> (t, k) in d.tags.tagData
    ensures LeftRows(iTags, i) != {} <==> InputTags(d.tags, i) != {}
    ensures (forall t :: (t, i) in iTags ==> (t, k) in dTags) <==> InputTags(d.tags, i) <= UserTags(d.tags, k)
  {
    if LeftRows(iTags, i) != {} {
      var r :| r in LeftRows(iTags, i);
      assert (r.0, i) == r;
      assert TagOf(d.tags, r.0) in InputTags(d.tags, i);
    }
    if InputTags(d.tags, i) != {} {
      var x :| x in InputTags(d.tags, i);
      var r :| r in d.tags.tagInput && r.1 == i && TagOf(d.tags, r.0) == x;
      assert (r.0, i) == r && r in LeftRows(iTags, i);
    }
    if forall t :: (t, i) in iTags ==> (t, k) in dTags {
      forall x | x in InputTags(d.tags, i)
        ensures x in UserTags(d.tags, k)
      {
        var r :| r in d.tags.tagInput && r.1 == i && TagOf(d.tags, r.0) == x;
        assert (r.0, i) == r && (r.0, k) in d.tags.tagData;
      }
    }
    if InputTags(d.tags, i) <= UserTags(d.tags, k) {
      forall t | (t, i) in iTags
        ensures (t, k) in dTags
      {
        assert TagOf(d.tags, t) in InputTags(d.tags, i);
        var q :| q in d.tags.tagData && q.1 == k && TagOf(d.tags, q.0) == TagOf(d.tags, t);
        InternedInjective(d.tags, q.0, t);
        assert q == (t, k);
      }
    }
  }

  /** The two forms of the system tags an input may require. */
  ghost predicate SystemTagsOk(d: Tables, i: int, k: string) {
    && (i in d.knitidInput ==> d.knitidInput[i] == k)
    && (i in d.timestampInput ==> k in d.knitTimestamp && d.timestampInput[i] == d.knitTimestamp[k])
  }

  lemma RequiredTagsUnfold(d: Tables, i: int, x: BodyTag)
    requires SchemaOk(d)
    ensures x in RequiredTags(d, i) <==>
      match x
      case UserTag(t) => t in InputTags(d.tags, i)
      case KnitIdTag(k) => i in d.knitidInput && d.knitidInput[i] == k
      case TimestampTag(t) => i in d.timestampInput && d.timestampInput[i] == t
      case TransientTag(_) => false
  {
  }

  lemma BodyTagsUnfold(d: Tables, k: string, x: BodyTag)
    requires SchemaOk(d) && k in d.data && !x.TransientTag?
    ensures x in BodyTags(d, k) <==>
      match x
      case UserTag(t) => t in UserTags(d.tags, k)
      case KnitIdTag(id) => id == k
      case TimestampTag(t) => k in d.knitTimestamp && d.knitTimestamp[k] == t
      case TransientTag(_) => false
  {
  }

  lemma RequiredWithinBody(d: Tables, i: int, k: string)
    requires SchemaOk(d) && k in d.data
    ensures RequiredTags(d, i) <= BodyTags(d, k) <==> InputTags(d.tags, i) <= UserTags(d.tags, k) && SystemTagsOk(d, i, k)
  {
    assert Interned(d.tags);
    hide RequiredTags, BodyTags, UserTags, InputTags, SchemaOk, Interned;
    forall x: BodyTag
      ensures x in RequiredTags(d, i) ==> !x.TransientTag?
    {
      RequiredTagsUnfold(d, i, x);
    }
    if RequiredTags(d, i) <= BodyTags(d, k) {
      forall t | t in InputTags(d.tags, i)
        ensures t in UserTags(d.tags, k)
      {
        RequiredTagsUnfold(d, i, UserTag(t));
        BodyTagsUnfold(d, k, UserTag(t));
      }
      if i in d.knitidInput {
        RequiredTagsUnfold(d, i, KnitIdTag(d.knitidInput[i]));
        BodyTagsUnfold(d, k, KnitIdTag(d.knitidInput[i]));
      }
      if i in d.timestampInput {
        RequiredTagsUnfold(d, i, TimestampTag(d.timestampInput[i]));
        BodyTagsUnfold(d, k, TimestampTag(d.timestampInput[i]));
      }
    }
    if InputTags(d.tags, i) <= UserTags(d.tags, k) && SystemTagsOk(d, i, k) {
      forall x | x in RequiredTags(d, i)
        ensures x in BodyTags(d, k)
      {
        RequiredTagsUnfold(d, i, x);
        BodyTagsUnfold(d, k, x);
      }
    }
  }

  lemma RequiresSomething(d: Tables, i: int)
    requires SchemaOk(d)
    ensures RequiredTags(d, i) != {} <==> InputTags(d.tags, i) != {} || i in d.knitidInput || i in d.timestampInput
  {
    assert Interned(d.tags);
    hide InputTags, SchemaOk, Interned;
    assert forall t :: t in InputTags(d.tags, i) ==> UserTag(t) in RequiredTags(d, i);
    if RequiredTags(d, i) != {} {
      var x :| x in RequiredTags(d, i);
    }
  }

  /** The restriction of `tag_input` that goes with the inputs a statement looks at. */
  ghost predicate Covers(d: Tables, iTags: set<(int, int)>, inputs: set<int>) {
    inputs <= d.input && forall r :: r in iTags <==> r in d.tags.tagInput && r.1 in inputs
  }

  lemma JoinedUserTags(d: Tables, dTags: set<(int, string)>, iTags: set<(int, int)>, i: int, k: string)
    requires SchemaOk(d)
    requires forall t :: (t, i) in iTags <==> (t, i) in d.tags.tagInput
    requires forall t :: (t, k) in dTags <==> (t, k) in d.tags.tagData
    ensures (i, k) in MatchedPairs(iTags, dTags) <==> InputTags(d.tags, i) != {} && InputTags(d.tags, i) <= UserTags(d.tags, k)
  {
    MatchedPairsMeans(iTags, dTags, i, k);
    RowsIffTags(d, dTags, iTags, i, k);
    hide Interned, InputTags, UserTags, MatchedPairs, LeftRows;
  }

  lemma NothingOnTheLeft(dTags: set<(int, string)>, iTags: set<(int, int)>, i: int, k: string)
    requires forall t :: (t, i) !in iTags
    ensures (i, k) !in MatchedPairs(iTags, dTags)
  {
    MatchedPairsMeans(iTags, dTags, i, k);
    hide MatchedPairs;
    forall r | r in iTags
      ensures r.1 != i
    {
      var t := r.0;
      assert (t, r.1) == r;
    }
  }

  lemma NothingOnTheRight(dTags: set<(int, string)>, iTags: set<(int, int)>, i: int, k: string)
    requires forall t :: (t, k) !in dTags
    ensures (i, k) !in MatchedPairs(iTags, dTags)
  {
    MatchedPairsMeans(iTags, dTags, i, k);
    hide MatchedPairs;
    forall r | r in LeftRows(iTags, i)
      ensures exists t :: (t, i) in iTags && (t, k) !in dTags
    {
      var t := r.0;
      assert (t, i) == r;
      assert (t, k) !in dTags;
    }
  }

  lemma UserTagMatch(d: Tables, data: set<string>, iTags: set<(int, int)>, inputs: set<int>, i: int, k: string)
    requires SchemaOk(d) && Covers(d, iTags, inputs) && data <= d.data.Keys
    ensures var dTags := set r | r in d.tags.tagData && r.1 in data;
      (i, k) in MatchWithUserTag(d, dTags, iTags)
      <==> i in inputs && k in data && InputTags(d.tags, i) != {} && InputTags(d.tags, i) <= UserTags(d.tags, k) && SystemTagsOk(d, i, k)
  {
    var dTags := set r | r in d.tags.tagData && r.1 in data;
    assert Interned(d.tags);
    assert forall t :: (t, i) in iTags <==> (t, i) in d.tags.tagInput && i in inputs;
    assert forall t :: (t, k) in dTags <==> (t, k) in d.tags.tagData && k in data;
    hide SchemaOk, Interned, InputTags, UserTags, MatchedPairs, Covers;
    if i in inputs && k in data {
      JoinedUserTags(d, dTags, iTags, i, k);
    } else if i !in inputs {
      NothingOnTheLeft(dTags, iTags, i, k);
    } else {
      NothingOnTheRight(dTags, iTags, i, k);
    }
  }

  lemma SystemRowIsUnique(d: Tables, inputs: set<int>, row: SystemRow)
    requires row in OnlySystemTag(d, inputs)
    ensures |set other | other in OnlySystemTag(d, inputs) && other.inputId == row.inputId| == 1
  {
    var rows := OnlySystemTag(d, inputs);
    assert (set other | other in rows && other.inputId == row.inputId) == {row};
  }

  lemma SystemTagMatch(d: Tables, data: set<string>, inputs: set<int>, i: int, k: string)
    requires SchemaOk(d) && inputs <= d.input
    ensures (i, k) in MatchOnlySystemTag(d, data, inputs)
      <==> i in inputs && k in data && InputTags(d.tags, i) == {} && (i in d.knitidInput || i in d.timestampInput) && SystemTagsOk(d, i, k)
  {
    var row := SystemRow(i, i in d.timestampInput, i in d.knitidInput);
    var rows := OnlySystemTag(d, inputs);
    var tagged := set r | r in d.tags.tagInput :: r.1;
    if i in tagged {
      var r :| r in d.tags.tagInput && r.1 == i;
      assert TagOf(d.tags, r.0) in InputTags(d.tags, i);
    } else {
      assert InputTags(d.tags, i) == {};
    }
    assert row in rows <==> i in inputs && i !in tagged && (i in d.timestampInput || i in d.knitidInput);
    assert forall other :: other in rows && other.inputId == i ==> other == row;
    if row in rows {
      SystemRowIsUnique(d, inputs, row);
    }
  }

  /** The counting joins compute the simple view, whatever data and inputs they look at. */
  lemma CountingIsSubset(d: Tables, data: set<string>, iTags: set<(int, int)>, inputs: set<int>, i: int, k: string)
    requires SchemaOk(d) && Covers(d, iTags, inputs) && (forall x :: x in data ==> IsDone(d, x))
    ensures (i, k) in CountingMatch(d, data, iTags, inputs) <==> i in inputs && k in data && Matches(d, i, k)
  {
    assert data <= d.data.Keys;
    UserTagMatch(d, data, iTags, inputs, i, k);
    SystemTagMatch(d, data, inputs, i, k);
    hide MatchWithUserTag, MatchOnlySystemTag, RequiredTags, BodyTags, SystemTagsOk, UserTags, InputTags;
    if k in data {
      RequiredWithinBody(d, i, k);
      RequiresSomething(d, i);
    }
  }

  // ---- what the statements leave ---------------------------------------------------------------

  ghost predicate Nominated(d: Tables, k: string, i: int) {
    (k, i) in d.nomination
  }

  /** `nomination` is the full match relation. */
  ghost predicate Exact(d: Tables)
    requires SchemaOk(d)
  {
    forall k, i :: Nominated(d, k, i) <==> Matches(d, i, k)
  }

  /** Pairs that survive keep their `updated` flag, and new pairs enter with it set. */
  ghost predicate FlagsKept(old': map<(string, int), bool>, new': map<(string, int), bool>) {
    forall p :: p in new' ==> new'[p] == if p in old' then old'[p] else true
  }

  lemma MatchesIgnoresNomination(d: Tables, d': Tables, k: string, i: int)
    requires SchemaOk(d) && SchemaOk(d') && d' == d.(nomination := d'.nomination)
    ensures Matches(d, i, k) <==> Matches(d', i, k)
  {
    assert Interned(d.tags) && Interned(d'.tags);
    hide SchemaOk, Interned, InputTags, UserTags;
  }

  lemma ReplaceEffect(nomination: map<(string, int), bool>, scope: set<(string, int)>, found: set<(int, string)>, k: string, i: int)
    ensures (k, i) in Replace(nomination, scope, found)
      <==> (i, k) in found || ((k, i) in nomination && (k, i) !in scope)
    ensures FlagsKept(nomination, Replace(nomination, scope, found))
  {
    var entered := map m | m in found :: (m.1, m.0) := true;
    var kept := map p | p in nomination && (p in scope ==> (p.1, p.0) in found) :: nomination[p];
    if (i, k) in found {
      assert (k, i) in entered;
    }
  }

  /** `NominateData` makes the view exact on the given data and leaves all other data alone. */
  lemma NominateDataEffect(d: Tables, ids: set<string>)
    requires SchemaOk(d)
    ensures SchemaOk(NominateData(d, ids))
    ensures forall k, i :: Nominated(NominateData(d, ids), k, i) <==> if k in ids then Matches(d, i, k) else Nominated(d, k, i)
    ensures FlagsKept(d.nomination, NominateData(d, ids).nomination)
  {
    var d' := NominateData(d, ids);
    var found := CountingMatch(d, DoneAmong(d, ids), d.tags.tagInput, d.input);
    var scope := set p | p in d.nomination && p.0 in ids;
    hide CountingMatch, Matches, FlagsKept, Replace, SchemaOk;
    forall k, i
      ensures (k, i) in d'.nomination <==> if k in ids then Matches(d, i, k) else (k, i) in d.nomination
    {
      ReplaceEffect(d.nomination, scope, found, k, i);
      CoversAll(d);
      CountingIsSubset(d, DoneAmong(d, ids), d.tags.tagInput, d.input, i, k);
      MatchesKnown(d, i, k);
    }
    ReplaceEffect(d.nomination, scope, found, "", 0);
    SchemaAfterNominate(d, d');
  }

  lemma CoversAll(d: Tables)
    requires SchemaOk(d)
    ensures Covers(d, d.tags.tagInput, d.input)
  {
  }

  lemma MatchesKnown(d: Tables, i: int, k: string)
    requires SchemaOk(d)
    ensures Matches(d, i, k) ==> i in d.input && k in d.data && IsDone(d, k)
  {
  }

  lemma SchemaAfterNominate(d: Tables, d': Tables)
    requires SchemaOk(d) && d' == d.(nomination := d'.nomination)
    requires forall p :: p in d'.nomination ==> p in d.nomination || Matches(d, p.1, p.0)
    ensures SchemaOk(d')
  {
  }

  /** `NominateMountpoints` makes the view exact on the given inputs and leaves all other inputs alone. */
  lemma NominateMountpointsEffect(d: Tables, ids: set<int>)
    requires SchemaOk(d) && ids <= d.input
    ensures SchemaOk(NominateMountpoints(d, ids))
    ensures forall k, i :: Nominated(NominateMountpoints(d, ids), k, i) <==> if i in ids then Matches(d, i, k) else Nominated(d, k, i)
    ensures FlagsKept(d.nomination, NominateMountpoints(d, ids).nomination)
  {
    var d' := NominateMountpoints(d, ids);
    var iTags := set r | r in d.tags.tagInput && r.1 in ids;
    var found := CountingMatch(d, DoneAmong(d, d.data.Keys), iTags, ids);
    var scope := set p | p in d.nomination && p.1 in ids;
    hide CountingMatch, Matches, FlagsKept, Replace, SchemaOk;
    forall k, i
      ensures (k, i) in d'.nomination <==> if i in ids then Matches(d, i, k) else (k, i) in d.nomination
    {
      ReplaceEffect(d.nomination, scope, found, k, i);
      CountingIsSubset(d, DoneAmong(d, d.data.Keys), iTags, ids, i, k);
      MatchesKnown(d, i, k);
    }
    ReplaceEffect(d.nomination, scope, found, "", 0);
    SchemaAfterNominate(d, d');
  }

  lemma SameKeysSameFlags(old': map<(string, int), bool>, a: map<(string, int), bool>, b: map<(string, int), bool>)
    requires FlagsKept(old', a) && FlagsKept(old', b)
    requires forall k, i :: (k, i) in a <==> (k, i) in b
    ensures a == b
  {
    forall p | p in a || p in b
      ensures p in a && p in b && a[p] == b[p]
    {
      var k, i := p.0, p.1;
      assert p == (k, i);
      assert (k, i) in a <==> (k, i) in b;
    }
  }

  lemma AllDataIsExact(d: Tables)
    requires SchemaOk(d)
    ensures SchemaOk(NominateData(d, d.data.Keys)) && Exact(NominateData(d, d.data.Keys))
  {
    var a := NominateData(d, d.data.Keys);
    NominateDataEffect(d, d.data.Keys);
    assert a == d.(nomination := a.nomination);
    hide NominateData, Matches, SchemaOk, FlagsKept;
    forall k, i
      ensures Nominated(a, k, i) <==> Matches(a, i, k)
    {
      MatchesKnown(d, i, k);
      SchemaNominated(d, k, i);
      MatchesIgnoresNomination(d, a, k, i);
    }
  }

  /** Nominating all data and nominating all inputs give the same, exact table, flags included. */
  lemma AllDataOrAllInputs(d: Tables)
    requires SchemaOk(d)
    ensures NominateData(d, d.data.Keys) == NominateMountpoints(d, d.input)
    ensures SchemaOk(NominateData(d, d.data.Keys)) && Exact(NominateData(d, d.data.Keys))
  {
    AllDataIsExact(d);
    var a, b := NominateData(d, d.data.Keys), NominateMountpoints(d, d.input);
    NominateDataEffect(d, d.data.Keys);
    NominateMountpointsEffect(d, d.input);
    hide Matches, SchemaOk, FlagsKept, CountingMatch, Replace;
    forall k, i
      ensures (k, i) in a.nomination <==> (k, i) in b.nomination
    {
      MatchesKnown(d, i, k);
      SchemaNominated(d, k, i);
      assert Nominated(a, k, i) <==> Nominated(b, k, i);
    }
    SameKeysSameFlags(d.nomination, a.nomination, b.nomination);
  }

  lemma ExactAt(d: Tables, k: string, i: int)
    requires SchemaOk(d) && Exact(d)
    ensures Nominated(d, k, i) <==> Matches(d, i, k)
  {
  }

  lemma NominateDataAt(d: Tables, ids: set<string>, k: string, i: int)
    requires SchemaOk(d)
    ensures Nominated(NominateData(d, ids), k, i) <==> if k in ids then Matches(d, i, k) else Nominated(d, k, i)
  {
    hide NominateData, Matches, SchemaOk, Nominated;
    NominateDataEffect(d, ids);
  }

  lemma NominateMountpointsAt(d: Tables, ids: set<int>, k: string, i: int)
    requires SchemaOk(d) && ids <= d.input
    ensures Nominated(NominateMountpoints(d, ids), k, i) <==> if i in ids then Matches(d, i, k) else Nominated(d, k, i)
  {
    hide NominateMountpoints, Matches, SchemaOk, Nominated;
    NominateMountpointsEffect(d, ids);
  }

  lemma SchemaNominated(d: Tables, k: string, i: int)
    requires SchemaOk(d)
    ensures Nominated(d, k, i) ==> k in d.data && i in d.input
  {
  }
}
