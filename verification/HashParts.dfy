/** No part of a plan spec is left out of the text of pkg/domain/plan.go that its hash is computed from: specs
    that agree but for one part feed the same text only if the texts of that part agree. */
module HashParts {
  import opened Results
  import opened TagStore
  import opened TagSets
  import opened PlanParams

  lemma RightCancel(x: string, y: string, end: string)
    ensures x + end == y + end <==> x == y
  {
    if x + end == y + end {
      assert |x| == |y|;
      assert x == (x + end)[..|x|] && y == (y + end)[..|y|];
    }
  }

  lemma LeftCancel(start: string, x: string, y: string)
    ensures start + x == start + y <==> x == y
  {
    if start + x == start + y {
      assert x == (start + x)[|start|..] && y == (start + y)[|start|..];
    }
  }

  /** Seven texts after one another. */
  function Joined(head: string, nodes: string, inputs: string, outputs: string, log: string, entry: string, args: string): string {
    head + nodes + inputs + outputs + log + entry + args
  }

  function Entry(entrypoint: seq<string>): string {
    if 0 < |entrypoint| then "[entrypoint]" + Concat(entrypoint) else ""
  }

  function Args(args: seq<string>): string {
    if 0 < |args| then "[args]" + Concat(args) else ""
  }

  lemma InputIsJoined(clock: Clock, p: Params)
    ensures HashInput(clock, p) == Joined(p.image + p.version, Concat(NodeTexts(p.onNode)), Concat(MountTexts(clock, p.inputs)),
                                          Concat(MountTexts(clock, p.outputs)), LogText(clock, p.log), Entry(p.entrypoint), Args(p.args))
  {
    hide Concat, LogText;
  }

  lemma HeadCounts(a: string, b: string, nodes: string, inputs: string, outputs: string, log: string, entry: string, args: string)
    ensures Joined(a, nodes, inputs, outputs, log, entry, args) == Joined(b, nodes, inputs, outputs, log, entry, args) <==> a == b
  {
    RightCancel(a, b, nodes);
    RightCancel(a + nodes, b + nodes, inputs);
    RightCancel(a + nodes + inputs, b + nodes + inputs, outputs);
    RightCancel(a + nodes + inputs + outputs, b + nodes + inputs + outputs, log);
    RightCancel(a + nodes + inputs + outputs + log, b + nodes + inputs + outputs + log, entry);
    RightCancel(a + nodes + inputs + outputs + log + entry, b + nodes + inputs + outputs + log + entry, args);
  }

  lemma NodesCount(head: string, a: string, b: string, inputs: string, outputs: string, log: string, entry: string, args: string)
    ensures Joined(head, a, inputs, outputs, log, entry, args) == Joined(head, b, inputs, outputs, log, entry, args) <==> a == b
  {
    HeadCounts(head + a, head + b, "", inputs, outputs, log, entry, args);
    assert head + a + "" == head + a && head + b + "" == head + b;
    LeftCancel(head, a, b);
  }

  lemma InputsCount(head: string, nodes: string, a: string, b: string, outputs: string, log: string, entry: string, args: string)
    ensures Joined(head, nodes, a, outputs, log, entry, args) == Joined(head, nodes, b, outputs, log, entry, args) <==> a == b
  {
    NodesCount(head + nodes, a, b, "", outputs, log, entry, args);
    assert head + nodes + a + "" == head + nodes + a && head + nodes + b + "" == head + nodes + b;
  }

  lemma OutputsCount(head: string, nodes: string, inputs: string, a: string, b: string, log: string, entry: string, args: string)
    ensures Joined(head, nodes, inputs, a, log, entry, args) == Joined(head, nodes, inputs, b, log, entry, args) <==> a == b
  {
    InputsCount(head + nodes, inputs, a, b, "", log, entry, args);
    assert head + nodes + inputs + a + "" == head + nodes + inputs + a && head + nodes + inputs + b + "" == head + nodes + inputs + b;
  }

  lemma LogCounts(head: string, nodes: string, inputs: string, outputs: string, a: string, b: string, entry: string, args: string)
    ensures Joined(head, nodes, inputs, outputs, a, entry, args) == Joined(head, nodes, inputs, outputs, b, entry, args) <==> a == b
  {
    OutputsCount(head + nodes, inputs, outputs, a, b, "", entry, args);
    assert head + nodes + inputs + outputs + a + "" == head + nodes + inputs + outputs + a;
    assert head + nodes + inputs + outputs + b + "" == head + nodes + inputs + outputs + b;
  }

  lemma EntryCounts(head: string, nodes: string, inputs: string, outputs: string, log: string, a: string, b: string, args: string)
    ensures Joined(head, nodes, inputs, outputs, log, a, args) == Joined(head, nodes, inputs, outputs, log, b, args) <==> a == b
  {
    var start := head + nodes + inputs + outputs + log;
    RightCancel(start + a, start + b, args);
    LeftCancel(start, a, b);
  }

  lemma ArgsCount(head: string, nodes: string, inputs: string, outputs: string, log: string, entry: string, a: string, b: string)
    ensures Joined(head, nodes, inputs, outputs, log, entry, a) == Joined(head, nodes, inputs, outputs, log, entry, b) <==> a == b
  {
    LeftCancel(head + nodes + inputs + outputs + log + entry, a, b);
  }

  // ---- one part at a time ------------------------------------------------------------------------

  /** Main result on image and version. */
  lemma ImageIsHashed(clock: Clock, p: Params, q: Params)
    ensures q == p.(image := q.image) ==> (HashInput(clock, p) == HashInput(clock, q) <==> p.image == q.image)
    ensures q == p.(version := q.version) ==> (HashInput(clock, p) == HashInput(clock, q) <==> p.version == q.version)
  {
    hide HashInput, Joined, Concat, LogText, Entry, Args;
    InputIsJoined(clock, p);
    InputIsJoined(clock, q);
    if q == p.(image := q.image) || q == p.(version := q.version) {
      HeadCounts(p.image + p.version, q.image + q.version, Concat(NodeTexts(p.onNode)), Concat(MountTexts(clock, p.inputs)),
                 Concat(MountTexts(clock, p.outputs)), LogText(clock, p.log), Entry(p.entrypoint), Args(p.args));
      RightCancel(p.image, q.image, p.version);
      LeftCancel(p.image, p.version, q.version);
    }
  }

  /** Main result on the entries on nodes. */
  lemma NodesAreHashed(clock: Clock, p: Params, q: Params)
    requires q == p.(onNode := q.onNode)
    ensures HashInput(clock, p) == HashInput(clock, q) <==> Concat(NodeTexts(p.onNode)) == Concat(NodeTexts(q.onNode))
  {
    hide HashInput, Joined, Concat, LogText, Entry, Args;
    InputIsJoined(clock, p);
    InputIsJoined(clock, q);
    NodesCount(p.image + p.version, Concat(NodeTexts(p.onNode)), Concat(NodeTexts(q.onNode)), Concat(MountTexts(clock, p.inputs)),
               Concat(MountTexts(clock, p.outputs)), LogText(clock, p.log), Entry(p.entrypoint), Args(p.args));
  }

  /** Main result on mountpoints. */
  lemma MountsAreHashed(clock: Clock, p: Params, q: Params)
    ensures q == p.(inputs := q.inputs) ==>
      (HashInput(clock, p) == HashInput(clock, q) <==> Concat(MountTexts(clock, p.inputs)) == Concat(MountTexts(clock, q.inputs)))
    ensures q == p.(outputs := q.outputs) ==>
      (HashInput(clock, p) == HashInput(clock, q) <==> Concat(MountTexts(clock, p.outputs)) == Concat(MountTexts(clock, q.outputs)))
  {
    hide HashInput, Joined, Concat, LogText, Entry, Args, MountTexts;
    InputIsJoined(clock, p);
    InputIsJoined(clock, q);
    InputsCount(p.image + p.version, Concat(NodeTexts(p.onNode)), Concat(MountTexts(clock, p.inputs)), Concat(MountTexts(clock, q.inputs)),
                Concat(MountTexts(clock, p.outputs)), LogText(clock, p.log), Entry(p.entrypoint), Args(p.args));
    OutputsCount(p.image + p.version, Concat(NodeTexts(p.onNode)), Concat(MountTexts(clock, p.inputs)), Concat(MountTexts(clock, p.outputs)),
                 Concat(MountTexts(clock, q.outputs)), LogText(clock, p.log), Entry(p.entrypoint), Args(p.args));
  }

  /** Main result on the log: whether there is one, and its tags. */
  lemma LogIsHashed(clock: Clock, p: Params, q: Params)
    requires q == p.(log := q.log)
    ensures HashInput(clock, p) == HashInput(clock, q) <==>
      && (p.log.None? <==> q.log.None?)
      && (p.log.Some? && q.log.Some? ==>
        Concat(TagTexts(clock, Normal(clock, p.log.value))) == Concat(TagTexts(clock, Normal(clock, q.log.value))))
  {
    hide HashInput, Joined, Concat, Entry, Args, TagTexts, Normal;
    InputIsJoined(clock, p);
    InputIsJoined(clock, q);
    LogCounts(p.image + p.version, Concat(NodeTexts(p.onNode)), Concat(MountTexts(clock, p.inputs)), Concat(MountTexts(clock, p.outputs)),
              LogText(clock, p.log), LogText(clock, q.log), Entry(p.entrypoint), Args(p.args));
    if p.log.Some? && q.log.Some? {
      LeftCancel("/log", Concat(TagTexts(clock, Normal(clock, p.log.value))), Concat(TagTexts(clock, Normal(clock, q.log.value))));
    }
  }

  /** Main result on the command line: whether it is given, and its text. */
  lemma CommandIsHashed(clock: Clock, p: Params, q: Params)
    ensures q == p.(entrypoint := q.entrypoint) ==>
      (HashInput(clock, p) == HashInput(clock, q) <==>
        (p.entrypoint == [] <==> q.entrypoint == []) && Concat(p.entrypoint) == Concat(q.entrypoint))
    ensures q == p.(args := q.args) ==>
      (HashInput(clock, p) == HashInput(clock, q) <==> (p.args == [] <==> q.args == []) && Concat(p.args) == Concat(q.args))
  {
    hide HashInput, Joined, LogText;
    InputIsJoined(clock, p);
    InputIsJoined(clock, q);
    EntryCounts(p.image + p.version, Concat(NodeTexts(p.onNode)), Concat(MountTexts(clock, p.inputs)), Concat(MountTexts(clock, p.outputs)),
                LogText(clock, p.log), Entry(p.entrypoint), Entry(q.entrypoint), Args(p.args));
    ArgsCount(p.image + p.version, Concat(NodeTexts(p.onNode)), Concat(MountTexts(clock, p.inputs)), Concat(MountTexts(clock, p.outputs)),
              LogText(clock, p.log), Entry(p.entrypoint), Args(p.args), Args(q.args));
    LeftCancel("[entrypoint]", Concat(p.entrypoint), Concat(q.entrypoint));
    LeftCancel("[args]", Concat(p.args), Concat(q.args));
  }

  // ---- within a part -----------------------------------------------------------------------------

  /** Texts after one another, of which one differs. */
  lemma {:induction false} OneTextCounts(texts: seq<string>, i: nat, x: string)
    requires i < |texts|
    ensures Concat(texts) == Concat(texts[i := x]) <==> texts[i] == x
  {
    var n, other := |texts| - 1, texts[i := x];
    if i == n {
      assert other[..n] == texts[..n];
      LeftCancel(Concat(texts[..n]), texts[n], x);
    } else {
      OneTextCounts(texts[..n], i, x);
      assert other[..n] == texts[..n][i := x];
      RightCancel(Concat(texts[..n]), Concat(other[..n]), texts[n]);
    }
  }

  /** Every field of an entry on nodes counts. */
  lemma NodeFieldsCount(a: OnNode, b: OnNode)
    ensures a.mode == b.mode && a.key == b.key ==> (OnNodeText(a) == OnNodeText(b) <==> a.value == b.value)
    ensures a.mode == b.mode && a.value == b.value ==> (OnNodeText(a) == OnNodeText(b) <==> a.key == b.key)
    ensures a.key == b.key && a.value == b.value ==> (OnNodeText(a) == OnNodeText(b) <==> a.mode == b.mode)
  {
    RightCancel(a.key, b.key, "=");
    RightCancel(a.key + "=", b.key + "=", a.value);
    RightCancel(a.key + "=" + a.value, b.key + "=" + a.value, ":");
    RightCancel(a.key + "=" + a.value + ":", b.key + "=" + a.value + ":", a.mode);
    LeftCancel(a.key + "=", a.value, b.value);
    RightCancel(a.key + "=" + a.value, a.key + "=" + b.value, ":");
    RightCancel(a.key + "=" + a.value + ":", a.key + "=" + b.value + ":", a.mode);
    LeftCancel(a.key + "=" + a.value + ":", a.mode, b.mode);
  }

  /** Path and tags of a mountpoint count, and key and value of a tag. */
  lemma MountFieldsCount(clock: Clock, a: MountPoint, b: MountPoint)
    ensures a.tags == b.tags ==> (MountText(clock, a) == MountText(clock, b) <==> a.path == b.path)
    ensures a.path == b.path ==>
      (MountText(clock, a) == MountText(clock, b) <==>
        Concat(TagTexts(clock, Normal(clock, a.tags))) == Concat(TagTexts(clock, Normal(clock, b.tags))))
  {
    hide Concat, TagTexts, Normal;
    RightCancel(a.path, b.path, Concat(TagTexts(clock, Normal(clock, a.tags))));
    LeftCancel(a.path, Concat(TagTexts(clock, Normal(clock, a.tags))), Concat(TagTexts(clock, Normal(clock, b.tags))));
  }

  /** A timestamp counts by the time that it is printed as. */
  lemma TagFieldsCount(clock: Clock, a: Tag, b: Tag)
    ensures a.key != KEY_KNIT_TIMESTAMP && b.key != KEY_KNIT_TIMESTAMP ==>
      && (a.key == b.key ==> (TagText(clock, a) == TagText(clock, b) <==> a.value == b.value))
      && (a.value == b.value ==> (TagText(clock, a) == TagText(clock, b) <==> a.key == b.key))
    ensures a.key == b.key == KEY_KNIT_TIMESTAMP && clock.parse(a.value).Some? && clock.parse(b.value).Some? ==>
      (TagText(clock, a) == TagText(clock, b) <==> clock.format(clock.parse(a.value).value) == clock.format(clock.parse(b.value).value))
  {
    LeftCancel(a.key + ":", a.value, b.value);
    RightCancel(a.key, b.key, ":");
    RightCancel(a.key + ":", b.key + ":", a.value);
    if clock.parse(a.value).Some? && clock.parse(b.value).Some? {
      LeftCancel(a.key + ":", clock.format(clock.parse(a.value).value), clock.format(clock.parse(b.value).value));
    }
  }

  lemma OneText(text: string)
    ensures Concat([text]) == text
  {
    assert [text][..0] == [];
    assert "" + text == text;
  }

  /** The order of the parts and what stands between them, by a spec that has one of each. */
  lemma OneOfEach(clock: Clock, image: string, version: string, on: OnNode, input: string, output: string, t: Tag, command: string, arg: string)
    requires t.key != KEY_KNIT_TIMESTAMP
    ensures var text := t.key + ":" + t.value;
      HashInput(clock, Params(image, version, [on], [MountPoint(input, [t])], [MountPoint(output, [t])], Some([t]), [command], [arg]))
      == image + version + (on.key + "=" + on.value + ":" + on.mode) + (input + text) + (output + text) + ("/log" + text)
         + ("[entrypoint]" + command) + ("[args]" + arg)
  {
    var text := t.key + ":" + t.value;
    ShortIsNormal(clock, [t]);
    assert TagTexts(clock, [t]) == [text];
    assert NodeTexts([on]) == [on.key + "=" + on.value + ":" + on.mode];
    OneText(text);
    assert MountTexts(clock, [MountPoint(input, [t])]) == [input + text];
    assert MountTexts(clock, [MountPoint(output, [t])]) == [output + text];
    hide Concat, Normal;
    OneText(on.key + "=" + on.value + ":" + on.mode);
    OneText(input + text);
    OneText(output + text);
    OneText(command);
    OneText(arg);
  }
}
