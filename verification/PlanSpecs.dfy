/** `PlanSpec` of pkg/domain/plan.go: validation, which also brings a spec into canonical order.
    Label patterns, path cleaning and time parsing are parameters. */
module PlanSpecs {
  import opened Results
  import opened Sets
  import opened Strings
  import opened Sorting
  import opened Paths
  import opened TagStore
  import opened TagSets
  import opened PlanParams

  datatype SpecError =
    | InvalidOnNodeKey(key: string)
    | InvalidOnNodeValue(value: string)
    | NamelessImage
    | UnreachablePlan
    | BadMountpointPath(path: string)
    | BadMountpointTag(path: string)
    | OverlappedMountpoints(a: string, b: string)

  datatype Env = Env(
    labelKey: string -> bool,
    labelValue: string -> bool,
    clean: string -> string,
    clock: Clock)

  const MAX_PREFIX := 253

  // ---- what is acceptable ----------------------------------------------------------------------

  predicate KeyOk(env: Env, key: string) {
    key != "" && env.labelKey(key) && (|Split(key)| > 1 ==> |Split(key)[0]| <= MAX_PREFIX)
  }

  predicate OnNodeOk(env: Env, on: OnNode) {
    KeyOk(env, on.key) && on.value != "" && env.labelValue(on.value)
  }

  predicate PathOk(env: Env, path: string) {
    IsAbs(path) && env.clean(path) == path
  }

  function TagEqual(clock: Clock, a: Tag, b: Tag): bool {
    if a.key != b.key then false
    else if a.key != KEY_KNIT_TIMESTAMP then a.value == b.value
    else
      match (clock.parse(a.value), clock.parse(b.value))
      case (Some(x), Some(y)) => x == y
      case (None, None) => a.value == b.value
      case _ => false
  }

  /** The system tags of an input: knit#id and knit#timestamp only, each with one value. */
  ghost predicate SystemTagsOk(clock: Clock, ts: seq<Tag>) {
    && (forall t :: t in ts ==> t.key == KEY_KNIT_ID || t.key == KEY_KNIT_TIMESTAMP)
    && (forall a, b :: a in ts && b in ts && a.key == b.key ==> TagEqual(clock, a, b))
  }

  ghost predicate InputOk(env: Env, input: MountPoint) {
    && PathOk(env, input.path)
    && Normal(env.clock, input.tags) != []
    && SystemTagsOk(env.clock, SystemTags(Normal(env.clock, input.tags)))
  }

  ghost predicate OutputOk(env: Env, output: MountPoint) {
    PathOk(env, output.path) && SystemTags(Normal(env.clock, output.tags)) == []
  }

  ghost predicate LogOk(env: Env, log: Option<seq<Tag>>) {
    log.Some? ==> SystemTags(Normal(env.clock, log.value)) == []
  }

  function Trim(mp: MountPoint): MountPoint {
    MountPoint(Trimmed(mp.path), mp.tags)
  }

  function TrimAll(mps: seq<MountPoint>): (r: seq<MountPoint>)
    ensures |r| == |mps| && forall i :: 0 <= i < |r| ==> r[i] == Trim(mps[i])
  {
    seq(|mps|, i requires 0 <= i < |mps| => Trim(mps[i]))
  }

  /** No mountpoint overlaps another one; two that are equal are not one. */
  ghost predicate Apart(mps: multiset<MountPoint>) {
    forall x, y :: x in mps && y in mps && (x != y || mps[x] > 1) ==> !PathOverlap(Trimmed(x.path), Trimmed(y.path))
  }

  ghost predicate Named(mps: seq<MountPoint>) {
    forall mp :: mp in mps ==> mp.path != ""
  }

  ghost predicate MountsOk(env: Env, p: Params) {
    && p.inputs != []
    && Named(p.inputs) && Named(p.outputs)
    && (forall mp :: mp in p.inputs ==> InputOk(env, Trim(mp)))
    && (forall mp :: mp in p.outputs ==> OutputOk(env, Trim(mp)))
    && Apart(multiset(p.inputs + p.outputs))
  }

  /** The specs that validation accepts, said without any order. */
  ghost predicate Acceptable(env: Env, p: Params) {
    && (forall on :: on in p.onNode ==> OnNodeOk(env, on))
    && p.image != "" && p.version != ""
    && MountsOk(env, p)
    && LogOk(env, p.log)
  }

  // ---- the orders ------------------------------------------------------------------------------

  predicate OnNodeLess(a: OnNode, b: OnNode) {
    if a.mode != b.mode then Less(a.mode, b.mode)
    else if a.key != b.key then Less(a.key, b.key)
    else Less(a.value, b.value)
  }

  function OnNodeOrder(): (OnNode, OnNode) -> bool {
    (a: OnNode, b: OnNode) => OnNodeLess(a, b)
  }

  function PathOrder(): (MountPoint, MountPoint) -> bool {
    (a: MountPoint, b: MountPoint) => Less(a.path, b.path)
  }

  function TextOrder(): (string, string) -> bool {
    (a: string, b: string) => Less(a, b)
  }

  lemma TextOrderIsStrict()
    ensures StrictOrder(TextOrder()) && StrictOrder(PathOrder())
  {
    var less := TextOrder();
    forall a: string, b: string, c: string
      ensures !less(a, a)
      ensures less(a, b) && less(b, c) ==> less(a, c)
      ensures less(a, c) ==> less(a, b) || less(b, c)
    {
      LessLaws(a, b, c);
    }
    var byPath := PathOrder();
    forall a: MountPoint, b: MountPoint, c: MountPoint
      ensures !byPath(a, a)
      ensures byPath(a, b) && byPath(b, c) ==> byPath(a, c)
      ensures byPath(a, c) ==> byPath(a, b) || byPath(b, c)
    {
      LessLaws(a.path, b.path, c.path);
    }
  }

  lemma OnNodeLaws(a: OnNode, b: OnNode, c: OnNode)
    ensures !OnNodeLess(a, a)
    ensures OnNodeLess(a, b) && OnNodeLess(b, c) ==> OnNodeLess(a, c)
    ensures OnNodeLess(a, c) ==> OnNodeLess(a, b) || OnNodeLess(b, c)
    ensures a != b ==> OnNodeLess(a, b) || OnNodeLess(b, a)
  {
    hide Less;
    LessLaws(a.mode, b.mode, c.mode);
    LessLaws(a.key, b.key, c.key);
    LessLaws(a.value, b.value, c.value);
  }

  lemma OnNodeOrderIsStrict()
    ensures StrictOrder(OnNodeOrder())
    ensures forall a, b :: a != b ==> OnNodeOrder()(a, b) || OnNodeOrder()(b, a)
  {
    var less := OnNodeOrder();
    forall a: OnNode, b: OnNode, c: OnNode
      ensures !less(a, a)
      ensures less(a, b) && less(b, c) ==> less(a, c)
      ensures less(a, c) ==> less(a, b) || less(b, c)
      ensures a != b ==> less(a, b) || less(b, a)
    {
      hide OnNodeLess;
      OnNodeLaws(a, b, c);
    }
  }

  // ---- the checks ------------------------------------------------------------------------------

  function OnNodeError(env: Env, on: OnNode): SpecError {
    if KeyOk(env, on.key) then InvalidOnNodeValue(on.value) else InvalidOnNodeKey(on.key)
  }

  /** A bad key is named, and else the value. */
  lemma OnNodeErrorMeans(env: Env, on: OnNode)
    ensures OnNodeError(env, on) ==
      if on.key == "" || !env.labelKey(on.key) || (|Split(on.key)| > 1 && |Split(on.key)[0]| > 253) then InvalidOnNodeKey(on.key)
      else InvalidOnNodeValue(on.value)
  {
  }

  method CheckOnNode(env: Env, onNode: seq<OnNode>) returns (e: Option<SpecError>)
    ensures e.None? <==> forall on :: on in onNode ==> OnNodeOk(env, on)
    ensures e.Some? ==> exists on :: on in onNode && !OnNodeOk(env, on) && e.value == OnNodeError(env, on)
  {
    for i := 0 to |onNode|
      invariant forall k :: 0 <= k < i ==> OnNodeOk(env, onNode[k])
    {
      var on := onNode[i];
      assert on in onNode;
      if on.key == "" || !env.labelKey(on.key) {
        return Some(InvalidOnNodeKey(on.key));
      }
      if |Split(on.key)| > 1 && MAX_PREFIX < |Split(on.key)[0]| {
        return Some(InvalidOnNodeKey(on.key));
      }
      if on.value == "" || !env.labelValue(on.value) {
        return Some(InvalidOnNodeValue(on.value));
      }
    }
    return None;
  }

  /** Both trimming loops: an empty path is an error. */
  method TrimPaths(mps: seq<MountPoint>) returns (e: Option<SpecError>, r: seq<MountPoint>)
    ensures e.None? <==> Named(mps)
    ensures e.None? ==> r == TrimAll(mps)
    ensures e.Some? ==> e.value == BadMountpointPath("")
  {
    r := mps;
    for i := 0 to |mps|
      invariant |r| == |mps| && forall k :: 0 <= k < |mps| ==> r[k] == if k < i then Trim(mps[k]) else mps[k]
      invariant forall k :: 0 <= k < i ==> mps[k].path != ""
    {
      var mp := r[i];
      if mp.path == "" {
        return Some(BadMountpointPath(mp.path)), r;
      }
      r := r[i := mp.(path := TrimSuffix(mp.path, "/"))];
    }
    return None, r;
  }

  /** The switch over the system tags of one input. */
  method CheckSystemTags(clock: Clock, ts: seq<Tag>) returns (ok: bool)
    ensures ok <==> SystemTagsOk(clock, ts)
  {
    var knitId, timestamp: Option<Tag> := None, None;
    for i := 0 to |ts|
      invariant forall k :: 0 <= k < i ==> ts[k].key == KEY_KNIT_ID || ts[k].key == KEY_KNIT_TIMESTAMP
      invariant OneClass(clock, ts[..i], KEY_KNIT_ID, knitId)
      invariant OneClass(clock, ts[..i], KEY_KNIT_TIMESTAMP, timestamp)
    {
      var tag := ts[i];
      assert tag in ts && ts[..i + 1] == ts[..i] + [tag];
      ReservedKeys();
      if tag.key == KEY_KNIT_TRANSIENT {
        return false;
      } else if tag.key == KEY_KNIT_ID {
        OneClassNext(clock, ts, i, KEY_KNIT_ID, knitId);
        if knitId.Some? && !TagEqual(clock, knitId.value, tag) {
          return false;
        }
        knitId := Some(tag);
      } else if tag.key == KEY_KNIT_TIMESTAMP {
        OneClassNext(clock, ts, i, KEY_KNIT_TIMESTAMP, timestamp);
        if timestamp.Some? && !TagEqual(clock, timestamp.value, tag) {
          return false;
        }
        timestamp := Some(tag);
      } else {
        return false;
      }
    }
    assert ts[..|ts|] == ts;
    forall a, b | a in ts && b in ts && a.key == b.key
      ensures TagEqual(clock, a, b)
    {
      assert OneClass(clock, ts, a.key, if a.key == KEY_KNIT_ID then knitId else timestamp);
    }
    return true;
  }

  /** All tags of a key equal the last one seen. */
  ghost predicate OneClass(clock: Clock, ts: seq<Tag>, key: string, last: Option<Tag>) {
    && (last.Some? ==> last.value in ts && last.value.key == key)
    && (forall t :: t in ts && t.key == key ==> last.Some? && TagEqual(clock, last.value, t))
  }

  lemma OneClassNext(clock: Clock, ts: seq<Tag>, i: nat, key: string, last: Option<Tag>)
    requires i < |ts| && ts[i].key == key && OneClass(clock, ts[..i], key, last)
    ensures (last.None? || TagEqual(clock, last.value, ts[i])) ==> OneClass(clock, ts[..i + 1], key, Some(ts[i]))
    ensures last.Some? && !TagEqual(clock, last.value, ts[i]) ==> !SystemTagsOk(clock, ts)
  {
    assert ts[..i + 1] == ts[..i] + [ts[i]];
    if last.Some? {
      assert last.value in ts[..i] && last.value in ts && ts[i] in ts;
    }
  }

  method CheckOverlap(path: string, others: seq<MountPoint>) returns (e: Option<SpecError>)
    ensures e.None? <==> forall k :: 0 <= k < |others| ==> !PathOverlap(path, others[k].path)
    ensures e.Some? ==> exists other :: other in others && PathOverlap(path, other.path) && e.value == OverlappedMountpoints(path, other.path)
  {
    for k := 0 to |others|
      invariant forall l :: 0 <= l < k ==> !PathOverlap(path, others[l].path)
    {
      if PathOverlap(path, others[k].path) {
        assert others[k] in others;
        return Some(OverlappedMountpoints(path, others[k].path));
      }
    }
    return None;
  }

  ghost predicate NoOverlap(a: seq<MountPoint>, b: seq<MountPoint>) {
    forall i, j :: 0 <= i < |a| && 0 <= j < |b| ==> !PathOverlap(a[i].path, b[j].path)
  }

  ghost predicate NoOverlapWithin(a: seq<MountPoint>) {
    forall i, j :: 0 <= i < j < |a| ==> !PathOverlap(a[i].path, a[j].path)
  }

  method CheckInput(env: Env, input: MountPoint) returns (e: Option<SpecError>)
    ensures e.None? <==> InputOk(env, input)
    ensures e.Some? ==> e.value == if PathOk(env, input.path) then BadMountpointTag(input.path) else BadMountpointPath(input.path)
  {
    if !PathOk(env, input.path) {
      return Some(BadMountpointPath(input.path));
    }
    if |Normal(env.clock, input.tags)| == 0 {
      return Some(BadMountpointTag(input.path));
    }
    var ok := CheckSystemTags(env.clock, SystemTags(Normal(env.clock, input.tags)));
    if !ok {
      return Some(BadMountpointTag(input.path));
    }
    return None;
  }

  method CheckOutput(env: Env, output: MountPoint) returns (e: Option<SpecError>)
    ensures e.None? <==> OutputOk(env, output)
    ensures e.Some? ==> e.value == if PathOk(env, output.path) then BadMountpointTag(output.path) else BadMountpointPath(output.path)
  {
    if !PathOk(env, output.path) {
      return Some(BadMountpointPath(output.path));
    }
    if |SystemTags(Normal(env.clock, output.tags))| != 0 {
      return Some(BadMountpointTag(output.path));
    }
    return None;
  }

  ghost predicate InputsPass(env: Env, inputs: seq<MountPoint>, outputs: seq<MountPoint>) {
    (forall i :: 0 <= i < |inputs| ==> InputOk(env, inputs[i])) && NoOverlapWithin(inputs) && NoOverlap(inputs, outputs)
  }

  ghost predicate OutputsPass(env: Env, inputs: seq<MountPoint>, outputs: seq<MountPoint>) {
    (forall i :: 0 <= i < |outputs| ==> OutputOk(env, outputs[i])) && NoOverlapWithin(outputs) && NoOverlap(outputs, inputs)
  }

  /** The loop over the inputs. */
  method CheckInputs(env: Env, inputs: seq<MountPoint>, outputs: seq<MountPoint>) returns (e: Option<SpecError>)
    ensures e.None? <==> InputsPass(env, inputs, outputs)
    ensures e.Some? ==> Explained(env, inputs, outputs, e.value)
  {
    hide PathOverlap, PathOk, InputOk, OutputOk;
    for nth := 0 to |inputs|
      invariant forall i :: 0 <= i < nth ==> InputOk(env, inputs[i])
      invariant forall i, j :: 0 <= i < nth && i < j < |inputs| ==> !PathOverlap(inputs[i].path, inputs[j].path)
      invariant forall i, j :: 0 <= i < nth && 0 <= j < |outputs| ==> !PathOverlap(inputs[i].path, outputs[j].path)
    {
      var input := inputs[nth];
      assert input in inputs;
      e := CheckInput(env, input);
      if e.Some? {
        return;
      }
      var later := inputs[nth + 1..];
      e := CheckOverlap(input.path, later);
      assert forall j :: nth < j < |inputs| ==> later[j - nth - 1] == inputs[j];
      if e.Some? {
        return;
      }
      e := CheckOverlap(input.path, outputs);
      if e.Some? {
        return;
      }
    }
    return None;
  }

  /** The loop over the outputs. It meets every pair of an input and an output a second time. */
  method CheckOutputs(env: Env, inputs: seq<MountPoint>, outputs: seq<MountPoint>) returns (e: Option<SpecError>)
    ensures e.None? <==> OutputsPass(env, inputs, outputs)
    ensures e.Some? ==> Explained(env, inputs, outputs, e.value)
  {
    hide PathOverlap, PathOk, InputOk, OutputOk;
    for nth := 0 to |outputs|
      invariant forall i :: 0 <= i < nth ==> OutputOk(env, outputs[i])
      invariant forall i, j :: 0 <= i < nth && i < j < |outputs| ==> !PathOverlap(outputs[i].path, outputs[j].path)
      invariant forall i, j :: 0 <= i < nth && 0 <= j < |inputs| ==> !PathOverlap(outputs[i].path, inputs[j].path)
    {
      var output := outputs[nth];
      assert output in outputs;
      e := CheckOutput(env, output);
      if e.Some? {
        return;
      }
      e := CheckOverlap(output.path, inputs);
      if e.Some? {
        return;
      }
      var later := outputs[nth + 1..];
      e := CheckOverlap(output.path, later);
      assert forall j :: nth < j < |outputs| ==> later[j - nth - 1] == outputs[j];
      if e.Some? {
        return;
      }
    }
    return None;
  }

  /** What an error about a mountpoint says of the trimmed mountpoints. */
  ghost predicate Explained(env: Env, inputs: seq<MountPoint>, outputs: seq<MountPoint>, e: SpecError) {
    match e
    case BadMountpointPath(path) => exists mp :: mp in inputs + outputs && mp.path == path && !PathOk(env, path)
    case BadMountpointTag(path) =>
      || (exists mp :: mp in inputs && mp.path == path && !InputOk(env, mp))
      || (exists mp :: mp in outputs && mp.path == path && !OutputOk(env, mp))
    case OverlappedMountpoints(a, b) =>
      PathOverlap(a, b) && exists x, y :: x in inputs + outputs && y in inputs + outputs && x.path == a && y.path == b
    case _ => false
  }

  // ---- pairs by position and pairs by value ----------------------------------------------------

  lemma TwoOccurrences<T>(s: seq<T>, i: nat, j: nat)
    requires i < j < |s| && s[i] == s[j]
    ensures multiset(s)[s[i]] > 1
  {
    assert s == s[..j] + [s[j]] + s[j + 1..];
    assert s[i] in s[..j];
  }

  lemma OverlapLaws(a: string, b: string)
    ensures PathOverlap(a, a)
    ensures PathOverlap(a, b) <==> PathOverlap(b, a)
  {
  }

  /** Accepted mountpoints do not overlap, in whatever order they stand. */
  lemma ApartAt(s: seq<MountPoint>, i: nat, j: nat)
    requires Apart(multiset(s)) && i < j < |s|
    ensures !PathOverlap(Trimmed(s[i].path), Trimmed(s[j].path))
  {
    hide PathOverlap;
    assert s[i] in multiset(s) && s[j] in multiset(s);
    if s[i] == s[j] {
      TwoOccurrences(s, i, j);
    }
  }

  lemma NoOverlapIsApart(s: seq<MountPoint>)
    ensures NoOverlapWithin(TrimAll(s)) <==> Apart(multiset(s))
  {
    hide PathOverlap;
    var r := TrimAll(s);
    if Apart(multiset(s)) {
      forall i, j | 0 <= i < j < |r|
        ensures !PathOverlap(r[i].path, r[j].path)
      {
        ApartAt(s, i, j);
      }
    }
    if NoOverlapWithin(r) {
      forall x, y | x in multiset(s) && y in multiset(s) && (x != y || multiset(s)[x] > 1)
        ensures !PathOverlap(Trimmed(x.path), Trimmed(y.path))
      {
        var i, j := TwoPositions(s, x, y);
        OverlapLaws(r[i].path, r[j].path);
      }
    }
  }

  lemma TwoPositions<T>(s: seq<T>, x: T, y: T) returns (i: nat, j: nat)
    requires x in multiset(s) && y in multiset(s) && (x != y || multiset(s)[x] > 1)
    ensures i < |s| && j < |s| && i != j && s[i] == x && s[j] == y
  {
    i :| 0 <= i < |s| && s[i] == x;
    if x != y {
      j :| 0 <= j < |s| && s[j] == y;
    } else {
      assert s == s[..i] + [x] + s[i + 1..];
      var others := s[..i] + s[i + 1..];
      assert multiset(s) == multiset(others) + multiset{x};
      assert x in multiset(others);
      var k :| 0 <= k < |others| && others[k] == x;
      j := if k < i then k else k + 1;
    }
  }

  /** The three loops over pairs cover every pair of mountpoints. */
  lemma PairLoopsCoverAll(ins: seq<MountPoint>, outs: seq<MountPoint>)
    ensures NoOverlapWithin(ins) && NoOverlap(ins, outs) && NoOverlapWithin(outs) && NoOverlap(outs, ins)
      <==> NoOverlapWithin(ins + outs)
  {
    hide PathOverlap;
    var all := ins + outs;
    assert forall i :: 0 <= i < |ins| ==> all[i] == ins[i];
    assert forall j :: 0 <= j < |outs| ==> all[|ins| + j] == outs[j];
    forall i, j | 0 <= i < |ins| && 0 <= j < |outs|
      ensures PathOverlap(ins[i].path, outs[j].path) <==> PathOverlap(outs[j].path, ins[i].path)
    {
      OverlapLaws(ins[i].path, outs[j].path);
    }
  }

  /** The checks on the sorted and trimmed mountpoints decide whether the spec is acceptable. */
  lemma ChecksMean(env: Env, p: Params, ins: seq<MountPoint>, outs: seq<MountPoint>)
    requires multiset(ins) == multiset(p.inputs) && multiset(outs) == multiset(p.outputs)
    ensures MountsOk(env, p) <==>
      && |ins| > 0 && Named(ins) && Named(outs)
      && InputsPass(env, TrimAll(ins), TrimAll(outs)) && OutputsPass(env, TrimAll(ins), TrimAll(outs))
  {
    hide InputOk, OutputOk, NoOverlap, NoOverlapWithin, Apart;
    PairLoopsCoverAll(TrimAll(ins), TrimAll(outs));
    assert TrimAll(ins) + TrimAll(outs) == TrimAll(ins + outs);
    NoOverlapIsApart(ins + outs);
    assert multiset(ins + outs) == multiset(p.inputs + p.outputs);
    SameElementsOf(ins, p.inputs);
    SameElementsOf(outs, p.outputs);
    EveryTrimmed(ins, mp => InputOk(env, mp));
    EveryTrimmed(outs, mp => OutputOk(env, mp));
  }

  lemma SameElementsOf<T>(a: seq<T>, b: seq<T>)
    requires multiset(a) == multiset(b)
    ensures forall x :: x in a <==> x in b
    ensures |a| == |b|
  {
    forall x
      ensures x in a <==> x in b
    {
      SameElements(a, b, x);
    }
    assert |multiset(a)| == |a| && |multiset(b)| == |b|;
  }

  lemma EveryTrimmed(s: seq<MountPoint>, ok: MountPoint -> bool)
    ensures (forall i :: 0 <= i < |s| ==> ok(TrimAll(s)[i])) <==> (forall mp :: mp in s ==> ok(Trim(mp)))
  {
    if forall i :: 0 <= i < |s| ==> ok(TrimAll(s)[i]) {
      forall mp | mp in s
        ensures ok(Trim(mp))
      {
        var i :| 0 <= i < |s| && s[i] == mp;
        assert TrimAll(s)[i] == Trim(mp);
      }
    }
  }

  // ---- the class -------------------------------------------------------------------------------

  /** `r` is a sorted, trimmed rearrangement of `mps`. */
  ghost predicate Arranged(mps: seq<MountPoint>, r: seq<MountPoint>) {
    exists s :: IsSorting(PathOrder(), mps, s) && r == TrimAll(s)
  }

  lemma SortingArranges(mps: seq<MountPoint>, s: seq<MountPoint>)
    requires IsSorting(PathOrder(), mps, s)
    ensures Arranged(mps, TrimAll(s)) && multiset(s) == multiset(mps)
    ensures |s| == |mps| && (Named(mps) <==> Named(s))
  {
    SameElementsOf(mps, s);
  }

  /** What an accepted spec turns into. */
  ghost predicate Canonical(p: Params, q: Params) {
    && q == p.(onNode := q.onNode, inputs := q.inputs, outputs := q.outputs)
    && IsSorting(OnNodeOrder(), p.onNode, q.onNode)
    && Arranged(p.inputs, q.inputs) && Arranged(p.outputs, q.outputs)
  }

  /** How far a rejected spec may have been rearranged. */
  ghost predicate PartlyCanonical(p: Params, q: Params) {
    && q == p.(onNode := q.onNode, inputs := q.inputs, outputs := q.outputs)
    && IsSorting(OnNodeOrder(), p.onNode, q.onNode)
    && (q.inputs == p.inputs || Arranged(p.inputs, q.inputs))
    && (q.outputs == p.outputs || Arranged(p.outputs, q.outputs))
  }

  /** Which error a spec with bad mountpoints gets; `q` is the spec as validation leaves it. */
  ghost predicate MountsRejected(env: Env, p: Params, q: Params, e: SpecError) {
    if p.inputs == [] then e == UnreachablePlan
    else if !Named(p.inputs) || !Named(p.outputs) then e == BadMountpointPath("")
    else Explained(env, q.inputs, q.outputs, e)
  }

  /** Which error a spec that is not acceptable gets. */
  ghost predicate Rejected(env: Env, p: Params, q: Params, e: SpecError) {
    if exists on :: on in p.onNode && !OnNodeOk(env, on) then
      exists on :: on in p.onNode && !OnNodeOk(env, on) && e == OnNodeError(env, on)
    else if p.image == "" || p.version == "" then e == NamelessImage
    else if !MountsOk(env, p) then MountsRejected(env, p, q, e)
    else !LogOk(env, p.log) && e == BadMountpointTag("log")
  }

  class PlanSpec {
    var params: Params
    var hash: string
    var validated: bool
    var vErr: Option<SpecError>

    constructor (params: Params)
      ensures this.params == params && hash == "" && !validated && vErr.None?
    {
      this.params, hash, validated, vErr := params, "", false, None;
    }

    /** `Validate`: the first outcome is kept. */
    method Validate(env: Env) returns (e: Option<SpecError>)
      modifies this
      ensures old(vErr).Some? || old(validated) ==>
        e == old(vErr) && params == old(params) && vErr == old(vErr) && validated == old(validated)
      ensures old(vErr).None? && !old(validated) ==>
        && (e.None? <==> Acceptable(env, old(params)))
        && (e.None? ==> Canonical(old(params), params))
        && (e.Some? ==> Rejected(env, old(params), params, e.value))
        && PartlyCanonical(old(params), params)
        && vErr == e && validated == e.None?
      ensures hash == old(hash)
    {
      if vErr.Some? {
        return vErr;
      }
      if validated {
        return None;
      }
      e := ValidateOnce(env);
    }

    /** `Hash`: computed once. `digest` is the hexadecimal SHA-256. */
    method Hash(clock: Clock, digest: string -> string) returns (r: string)
      modifies this`hash
      ensures r == hash && hash == if old(hash) != "" then old(hash) else digest(HashInput(clock, params))
    {
      if hash != "" {
        return hash;
      }
      var written := Feed(clock, params);
      hash := digest(written);
      return hash;
    }

    method Record(e: Option<SpecError>)
      modifies this`vErr, this`validated
      ensures vErr == e && validated == e.None?
    {
      vErr := e;
      validated := e.None?;
    }

    /** The part of `validate` about mountpoints. */
    method ValidateMounts(env: Env) returns (e: Option<SpecError>)
      modifies this`params
      ensures e.None? <==> MountsOk(env, old(params))
      ensures params == old(params).(inputs := params.inputs, outputs := params.outputs)
      ensures params.inputs == old(params.inputs) || Arranged(old(params.inputs), params.inputs)
      ensures params.outputs == old(params.outputs) || Arranged(old(params.outputs), params.outputs)
      ensures e.None? ==> Arranged(old(params.inputs), params.inputs) && Arranged(old(params.outputs), params.outputs)
      ensures e.Some? ==> MountsRejected(env, old(params), params, e.value)
    {
      hide InputsPass, OutputsPass, Named, MountsOk, Arranged, TrimAll, Explained, PathOrder, StrictOrder, IsSorting;
      TextOrderIsStrict();
      var inputs := Sorted(params.inputs, PathOrder());
      var outputs := Sorted(params.outputs, PathOrder());
      SortingArranges(params.inputs, inputs);
      SortingArranges(params.outputs, outputs);
      ChecksMean(env, params, inputs, outputs);
      if |inputs| == 0 {
        return Some(UnreachablePlan);
      }
      var trimmedInputs, trimmedOutputs;
      e, trimmedInputs := TrimPaths(inputs);
      if e.Some? {
        return;
      }
      params := params.(inputs := trimmedInputs);
      e, trimmedOutputs := TrimPaths(outputs);
      if e.Some? {
        return;
      }
      params := params.(outputs := trimmedOutputs);
      e := CheckInputs(env, params.inputs, params.outputs);
      if e.Some? {
        return;
      }
      e := CheckOutputs(env, params.inputs, params.outputs);
    }

    /** `validate`. Main result: exactly the acceptable specs pass, and what passes is left in canonical
        order. */
    method ValidateOnce(env: Env) returns (e: Option<SpecError>)
      modifies this
      ensures e.None? <==> Acceptable(env, old(params))
      ensures e.None? ==> Canonical(old(params), params)
      ensures e.Some? ==> Rejected(env, old(params), params, e.value)
      ensures PartlyCanonical(old(params), params)
      ensures vErr == e && validated == e.None? && hash == old(hash)
    {
      hide MountsRejected, OnNodeError, MountsOk, OnNodeOk, OnNodeOrder, StrictOrder, InOrder, Arranged;
      OnNodeOrderIsStrict();
      var onNode := Sorted(params.onNode, OnNodeOrder());
      params := params.(onNode := onNode);
      SameElementsOf(old(params.onNode), onNode);
      MountsOkIgnoresNodes(env, old(params), params);
      e := CheckOnNode(env, params.onNode);
      if e.Some? {
        Record(e);
        return;
      }
      if params.image == "" || params.version == "" {
        e := Some(NamelessImage);
        Record(e);
        return;
      }
      e := ValidateMounts(env);
      if e.Some? {
        Record(e);
        return;
      }
      if params.log.Some? {
        if |SystemTags(Normal(env.clock, params.log.value))| != 0 {
          e := Some(BadMountpointTag("log"));
          Record(e);
          return;
        }
      }
      Record(None);
      return None;
    }
  }

  lemma MountsOkIgnoresNodes(env: Env, p: Params, q: Params)
    requires p.inputs == q.inputs && p.outputs == q.outputs
    ensures MountsOk(env, p) <==> MountsOk(env, q)
    ensures forall r, e :: MountsRejected(env, p, r, e) <==> MountsRejected(env, q, r, e)
  {
  }

  /** The order that an accepted spec is brought into: entries on nodes by mode, then key, then value. */
  lemma CanonicalNodes(p: Params, q: Params, i: nat, j: nat)
    requires Canonical(p, q) && i < j < |q.onNode|
    ensures var a, b := q.onNode[i], q.onNode[j];
      a == b || Less(a.mode, b.mode) || (a.mode == b.mode && (Less(a.key, b.key) || (a.key == b.key && Less(a.value, b.value))))
    ensures multiset(q.onNode) == multiset(p.onNode)
  {
    hide Arranged, Less;
    assert !OnNodeOrder()(q.onNode[j], q.onNode[i]);
    OnNodeLaws(q.onNode[i], q.onNode[j], q.onNode[i]);
  }

  /** Normalizing keeps a tag of every class, and a class has one key. */
  lemma Kept(clock: Clock, ts: seq<Tag>, t: Tag) returns (u: Tag)
    requires t in ts
    ensures u in Normal(clock, ts) && u in ts && u.key == t.key && SameClass(clock, u, t)
  {
    NormalIsNormalForm(clock, ts);
    u := FirstOfClass(clock, ts, t);
    assert u in Elems(Normal(clock, ts));
    SameClassLaws(clock, u, t, t);
  }

  lemma NormalIsPart(clock: Clock, ts: seq<Tag>, t: Tag)
    requires t in Normal(clock, ts)
    ensures t in ts
  {
    NormalIsNormalForm(clock, ts);
    assert t in Elems(Normal(clock, ts));
  }

  lemma NormalIsEmptyIff(clock: Clock, ts: seq<Tag>)
    ensures Normal(clock, ts) == [] <==> ts == []
  {
    if ts != [] {
      var u := Kept(clock, ts, ts[0]);
    }
  }

  lemma NoneReserved(clock: Clock, ts: seq<Tag>)
    ensures SystemTags(Normal(clock, ts)) == [] <==> forall t :: t in ts ==> !IsSystemTag(t)
  {
    var normal := Normal(clock, ts);
    SystemTagsMean(normal);
    hide IsSystemTag, Normal, SystemTags;
    if SystemTags(normal) == [] {
      forall t | t in ts
        ensures !IsSystemTag(t)
      {
        var u := Kept(clock, ts, t);
        SystemByKey(u, t);
      }
    } else {
      NormalIsPart(clock, ts, SystemTags(normal)[0]);
    }
  }

  /** Of reserved tags an input may have ids and times, and those of one key must be of one class. */
  predicate ReservedOk(clock: Clock, ts: seq<Tag>) {
    && (forall t :: t in ts && IsSystemTag(t) ==> t.key == KEY_KNIT_ID || t.key == KEY_KNIT_TIMESTAMP)
    && (forall a, b :: a in ts && b in ts && IsSystemTag(a) && a.key == b.key ==> SameClass(clock, a, b))
  }

  lemma SystemTagsOkMeans(clock: Clock, ts: seq<Tag>)
    ensures SystemTagsOk(clock, SystemTags(Normal(clock, ts))) <==> ReservedOk(clock, ts)
  {
    var normal := Normal(clock, ts);
    SystemTagsMean(normal);
    if SystemTagsOk(clock, SystemTags(normal)) {
      ReservedAreKept(clock, ts);
    } else {
      forall t | t in SystemTags(normal)
        ensures t in ts && IsSystemTag(t)
      {
        NormalIsPart(clock, ts, t);
      }
      hide IsSystemTag, Normal, SystemTags;
      if ReservedOk(clock, ts) {
        var a, b :| a in SystemTags(normal) && b in SystemTags(normal) && a.key == b.key && !TagEqual(clock, a, b);
        NormalIsNormalForm(clock, ts);
        assert a in Elems(normal) && b in Elems(normal);
        FirstsAreApart(clock, ts, a, b);
      }
    }
  }

  lemma ReservedAreKept(clock: Clock, ts: seq<Tag>)
    requires SystemTagsOk(clock, SystemTags(Normal(clock, ts)))
    ensures ReservedOk(clock, ts)
  {
    var normal := Normal(clock, ts);
    SystemTagsMean(normal);
    hide Normal, SystemTags;
    forall a | a in ts && IsSystemTag(a)
      ensures a.key == KEY_KNIT_ID || a.key == KEY_KNIT_TIMESTAMP
    {
      var u := Kept(clock, ts, a);
    }
    forall a, b | a in ts && b in ts && IsSystemTag(a) && a.key == b.key
      ensures SameClass(clock, a, b)
    {
      var u := Kept(clock, ts, a);
      var v := Kept(clock, ts, b);
      OneTagPerKey(clock, ts, u, v);
      SameClassLaws(clock, u, a, a);
      SameClassLaws(clock, a, u, b);
    }
  }

  /** Without one trailing slash, the path is absolute and clean. */
  predicate PathFits(env: Env, given: string) {
    given != "" && HasPrefix(Trimmed(given), "/") && env.clean(Trimmed(given)) == Trimmed(given)
  }

  /** Main result: what is accepted, in one list. Labels on nodes have a key, a value and a short prefix; image
      and version have names; there is an input, and every input has a tag; paths are absolute, clean, and keep
      clear of each other; of reserved tags there are only ids and times of inputs, one of each at most. */
  lemma AcceptedExactly(env: Env, p: Params)
    ensures Acceptable(env, p) <==>
      && (forall on :: on in p.onNode ==>
        && on.key != "" && env.labelKey(on.key) && (|Split(on.key)| > 1 ==> |Split(on.key)[0]| <= 253)
        && on.value != "" && env.labelValue(on.value))
      && p.image != "" && p.version != "" && p.inputs != []
      && (forall mp :: mp in p.inputs ==> PathFits(env, mp.path) && mp.tags != [] && ReservedOk(env.clock, mp.tags))
      && (forall mp :: mp in p.outputs ==> PathFits(env, mp.path) && forall t :: t in mp.tags ==> !IsSystemTag(t))
      && NoOverlapWithin(TrimAll(p.inputs + p.outputs))
      && (p.log.Some? ==> forall t :: t in p.log.value ==> !IsSystemTag(t))
  {
    hide InputOk, OutputOk, LogOk, OnNodeOk, Apart, Split, PathFits, ReservedOk, IsSystemTag, NoOverlapWithin, TrimAll;
    forall on: OnNode
      ensures OnNodeOk(env, on) <==>
        && on.key != "" && env.labelKey(on.key) && (|Split(on.key)| > 1 ==> |Split(on.key)[0]| <= 253)
        && on.value != "" && env.labelValue(on.value)
    {
      LabelFits(env, on);
    }
    forall mp: MountPoint
      ensures (mp.path != "" && InputOk(env, Trim(mp)) <==> PathFits(env, mp.path) && mp.tags != [] && ReservedOk(env.clock, mp.tags))
      ensures (mp.path != "" && OutputOk(env, Trim(mp)) <==> PathFits(env, mp.path) && forall t :: t in mp.tags ==> !IsSystemTag(t))
    {
      MountFits(env, mp);
    }
    LogFits(env, p.log);
    NoOverlapIsApart(p.inputs + p.outputs);
  }

  lemma LabelFits(env: Env, on: OnNode)
    ensures OnNodeOk(env, on) <==>
      && on.key != "" && env.labelKey(on.key) && (|Split(on.key)| > 1 ==> |Split(on.key)[0]| <= 253)
      && on.value != "" && env.labelValue(on.value)
  {
  }

  lemma MountFits(env: Env, mp: MountPoint)
    ensures mp.path != "" && InputOk(env, Trim(mp)) <==> PathFits(env, mp.path) && mp.tags != [] && ReservedOk(env.clock, mp.tags)
    ensures mp.path != "" && OutputOk(env, Trim(mp)) <==> PathFits(env, mp.path) && forall t :: t in mp.tags ==> !IsSystemTag(t)
  {
    NormalIsEmptyIff(env.clock, mp.tags);
    SystemTagsOkMeans(env.clock, mp.tags);
    NoneReserved(env.clock, mp.tags);
    hide Normal, SystemTags, ReservedOk, IsSystemTag, Trimmed;
  }

  lemma LogFits(env: Env, log: Option<seq<Tag>>)
    ensures LogOk(env, log) <==> (log.Some? ==> forall t :: t in log.value ==> !IsSystemTag(t))
  {
    if log.Some? {
      NoneReserved(env.clock, log.value);
    }
  }

  // ---- what acceptance promises ----------------------------------------------------------------

  /** No accepted mountpoint is another one, or lies in another one. */
  lemma AcceptedMountsAreSeparate(env: Env, p: Params, i: nat, j: nat)
    requires Acceptable(env, p)
    requires i < |p.inputs + p.outputs| && j < |p.inputs + p.outputs| && i != j
    ensures var a, b := Trimmed((p.inputs + p.outputs)[i].path), Trimmed((p.inputs + p.outputs)[j].path);
      IsAbs(a) && IsAbs(b) && !AncestorOrSelf(a, b) && PrefixFree(a, b)
  {
    hide PathOverlap, AncestorOrSelf, Apart, SystemTagsOk, Normal, SystemTags;
    var all := p.inputs + p.outputs;
    assert all[i] in p.inputs || all[i] in p.outputs;
    assert all[j] in p.inputs || all[j] in p.outputs;
    var a, b := Trimmed(all[i].path), Trimmed(all[j].path);
    ApartAt(all, if i < j then i else j, if i < j then j else i);
    OverlapLaws(a, b);
    NoOverlapIsPrefixFree(a, b);
    if AncestorOrSelf(a, b) {
      AncestorsOverlap(a, b);
    }
  }

  /** The premise of the nominator: an accepted input has some tag, no reserved one but knit#id and
      knit#timestamp, and at most one of each. */
  lemma AcceptedInputTags(env: Env, p: Params, input: MountPoint)
    requires Acceptable(env, p) && input in p.inputs
    ensures var tags := Normal(env.clock, input.tags);
      && tags != []
      && (forall t :: t in tags && IsSystemTag(t) ==> t.key == KEY_KNIT_ID || t.key == KEY_KNIT_TIMESTAMP)
      && (forall a, b :: a in tags && b in tags && IsSystemTag(a) && a.key == b.key ==> a == b)
  {
    assert InputOk(env, Trim(input));
    hide Acceptable, Normal, IsSystemTag, PathOk;
    var tags := Normal(env.clock, input.tags);
    SystemTagsMean(tags);
    forall a, b | a in tags && b in tags && IsSystemTag(a) && a.key == b.key
      ensures a == b
    {
      SystemByKey(a, b);
      OneTagPerKey(env.clock, input.tags, a, b);
    }
  }

  lemma SystemByKey(a: Tag, b: Tag)
    requires a.key == b.key
    ensures IsSystemTag(a) <==> IsSystemTag(b)
  {
  }

  /** Equal timestamps of different spelling do not survive normalization together. */
  lemma OneTagPerKey(clock: Clock, ts: seq<Tag>, a: Tag, b: Tag)
    requires a in Normal(clock, ts) && b in Normal(clock, ts) && TagEqual(clock, a, b)
    ensures a == b
  {
    NormalIsNormalForm(clock, ts);
    assert a in Elems(Normal(clock, ts)) && b in Elems(Normal(clock, ts));
    assert SameClass(clock, a, b);
    FirstsAreApart(clock, ts, a, b);
  }
}
