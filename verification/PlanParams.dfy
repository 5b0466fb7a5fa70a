/** The parameters of a plan, and the text that its hash is computed from: pkg/domain/plan.go. */
module PlanParams {
  import opened Results
  import opened TagStore
  import opened TagSets

  datatype OnNode = OnNode(mode: string, key: string, value: string)

  /** A mountpoint and the tags its `TagSet` was made of. */
  datatype MountPoint = MountPoint(path: string, tags: seq<Tag>)

  datatype Params = Params(
    image: string,
    version: string,
    onNode: seq<OnNode>,
    inputs: seq<MountPoint>,
    outputs: seq<MountPoint>,
    log: Option<seq<Tag>>,
    entrypoint: seq<string>,
    args: seq<string>)

  /** `OnNode.String` */
  function OnNodeText(on: OnNode): string {
    on.key + "=" + on.value + ":" + on.mode
  }

  /** `Tag.String`: a timestamp that parses is printed in UTC. */
  function TagText(clock: Clock, t: Tag): string {
    if t.key != KEY_KNIT_TIMESTAMP then t.key + ":" + t.value
    else
      match clock.parse(t.value)
      case None => t.key + ":" + t.value
      case Some(nanos) => t.key + ":" + clock.format(nanos)
  }

  function Concat(texts: seq<string>): string {
    if texts == [] then "" else Concat(texts[..|texts| - 1]) + texts[|texts| - 1]
  }

  function NodeTexts(onNode: seq<OnNode>): (r: seq<string>)
    ensures |r| == |onNode| && forall i :: 0 <= i < |r| ==> r[i] == OnNodeText(onNode[i])
  {
    seq(|onNode|, i requires 0 <= i < |onNode| => OnNodeText(onNode[i]))
  }

  function TagTexts(clock: Clock, tags: seq<Tag>): (r: seq<string>)
    ensures |r| == |tags| && forall i :: 0 <= i < |r| ==> r[i] == TagText(clock, tags[i])
  {
    seq(|tags|, i requires 0 <= i < |tags| => TagText(clock, tags[i]))
  }

  function MountText(clock: Clock, mp: MountPoint): string {
    mp.path + Concat(TagTexts(clock, Normal(clock, mp.tags)))
  }

  function MountTexts(clock: Clock, mps: seq<MountPoint>): (r: seq<string>)
    ensures |r| == |mps| && forall i :: 0 <= i < |r| ==> r[i] == MountText(clock, mps[i])
  {
    seq(|mps|, i requires 0 <= i < |mps| => MountText(clock, mps[i]))
  }

  function LogText(clock: Clock, log: Option<seq<Tag>>): string {
    match log
    case None => ""
    case Some(tags) => "/log" + Concat(TagTexts(clock, Normal(clock, tags)))
  }

  /** Everything that `Hash` feeds to SHA-256. */
  function HashInput(clock: Clock, p: Params): string {
    p.image + p.version
    + Concat(NodeTexts(p.onNode))
    + Concat(MountTexts(clock, p.inputs))
    + Concat(MountTexts(clock, p.outputs))
    + LogText(clock, p.log)
    + (if 0 < |p.entrypoint| then "[entrypoint]" + Concat(p.entrypoint) else "")
    + (if 0 < |p.args| then "[args]" + Concat(p.args) else "")
  }

  /** One more write. */
  lemma WriteNext(written: string, texts: seq<string>, i: nat)
    requires i < |texts|
    ensures written + Concat(texts[..i + 1]) == written + Concat(texts[..i]) + texts[i]
  {
    assert texts[..i + 1][..i] == texts[..i];
    Associative(written, Concat(texts[..i]), texts[i]);
  }

  lemma Associative(a: string, b: string, c: string)
    ensures a + (b + c) == (a + b) + c
  {
  }

  lemma WriteNothing(written: string, texts: seq<string>)
    ensures texts[..0] == [] && Concat(texts[..0]) == "" && written + "" == written
    ensures texts[..|texts|] == texts
  {
  }

  method WriteTags(clock: Clock, written: string, tags: seq<Tag>) returns (r: string)
    ensures r == written + Concat(TagTexts(clock, Normal(clock, tags)))
  {
    hide Concat, TagText, Normal;
    r := written;
    var normal := Normal(clock, tags);
    ghost var texts := TagTexts(clock, normal);
    WriteNothing(written, texts);
    for i := 0 to |normal|
      invariant r == written + Concat(texts[..i])
    {
      WriteNext(written, texts, i);
      r := r + TagText(clock, normal[i]);
    }
  }

  method WriteMounts(clock: Clock, written: string, mps: seq<MountPoint>) returns (r: string)
    ensures r == written + Concat(MountTexts(clock, mps))
  {
    hide Concat, TagTexts, Normal;
    r := written;
    ghost var texts := MountTexts(clock, mps);
    WriteNothing(written, texts);
    for i := 0 to |mps|
      invariant r == written + Concat(texts[..i])
    {
      WriteNext(written, texts, i);
      var mp := mps[i];
      Associative(r, mp.path, Concat(TagTexts(clock, Normal(clock, mp.tags))));
      r := WriteTags(clock, r + mp.path, mp.tags);
    }
  }

  method WriteAll(written: string, texts: seq<string>) returns (r: string)
    ensures r == written + Concat(texts)
  {
    hide Concat;
    r := written;
    WriteNothing(written, texts);
    for i := 0 to |texts|
      invariant r == written + Concat(texts[..i])
    {
      WriteNext(written, texts, i);
      r := r + texts[i];
    }
  }

  /** The writes of `Hash`, in order. */
  method Feed(clock: Clock, p: Params) returns (r: string)
    ensures r == HashInput(clock, p)
  {
    hide Concat, LogText;
    r := p.image + p.version;
    r := WriteAll(r, NodeTexts(p.onNode));
    r := WriteMounts(clock, r, p.inputs);
    r := WriteMounts(clock, r, p.outputs);
    r := WriteLog(clock, r, p.log);
    if 0 < |p.entrypoint| {
      r := WriteAll(r + "[entrypoint]", p.entrypoint);
    }
    if 0 < |p.args| {
      r := WriteAll(r + "[args]", p.args);
    }
  }

  method WriteLog(clock: Clock, written: string, log: Option<seq<Tag>>) returns (r: string)
    ensures r == written + LogText(clock, log)
  {
    match log
    case None => return written;
    case Some(tags) => r := WriteTags(clock, written + "/log", tags);
  }
}
