/** The normalised tag store: `tag_key` and `tag` intern keys and (key, value) pairs under serial ids,
    and `tag_data`, `tag_input` and `tag_output` link these ids to data and mountpoints.
    Each SQL statement is a function from the tables it reads to the tables it leaves. */
module TagStore {
  datatype Tag = Tag(key: string, value: string)

  datatype TagRow = TagRow(keyId: int, value: string)

  datatype TagTables = TagTables(
    tagKey: map<int, string>,
    tag: map<int, TagRow>,
    tagData: set<(int, string)>,
    tagInput: set<(int, int)>,
    tagOutput: set<(int, int)>,
    keySerial: int,
    tagSerial: int)

  /** The schema's UNIQUE and REFERENCES constraints, and serials ahead of all ids in use. */
  ghost predicate Interned(t: TagTables) {
    && (forall a, b :: a in t.tagKey && b in t.tagKey && t.tagKey[a] == t.tagKey[b] ==> a == b)
    && (forall a, b :: a in t.tag && b in t.tag && t.tag[a] == t.tag[b] ==> a == b)
    && (forall a :: a in t.tag ==> t.tag[a].keyId in t.tagKey)
    && (forall r :: r in t.tagData ==> r.0 in t.tag)
    && (forall r :: r in t.tagInput ==> r.0 in t.tag)
    && (forall r :: r in t.tagOutput ==> r.0 in t.tag)
    && (forall a :: a in t.tagKey ==> a < t.keySerial)
    && (forall a :: a in t.tag ==> a < t.tagSerial)
  }

  function TagOf(t: TagTables, id: int): Tag
    requires id in t.tag && t.tag[id].keyId in t.tagKey
  {
    Tag(t.tagKey[t.tag[id].keyId], t.tag[id].value)
  }

  /** What reading back gives: the joins of `UserTagsOfData` and of its siblings for mountpoints. */
  ghost function UserTags(t: TagTables, knitId: string): set<Tag>
    requires Interned(t)
  {
    set r | r in t.tagData && r.1 == knitId :: TagOf(t, r.0)
  }

  ghost function InputTags(t: TagTables, inputId: int): set<Tag>
    requires Interned(t)
  {
    set r | r in t.tagInput && r.1 == inputId :: TagOf(t, r.0)
  }

  ghost function OutputTags(t: TagTables, outputId: int): set<Tag>
    requires Interned(t)
  {
    set r | r in t.tagOutput && r.1 == outputId :: TagOf(t, r.0)
  }

  /** Interning is a bijection between tag ids in use and tags. */
  lemma InternedInjective(t: TagTables, a: int, b: int)
    requires Interned(t) && a in t.tag && b in t.tag && TagOf(t, a) == TagOf(t, b)
    ensures a == b
  {
  }

  // ---- interning a tag -------------------------------------------------------------------------

  /** "key": the id of the key, inserted unless it is there. The serial is consumed either way. */
  function InternKey(t: TagTables, key: string): (r: (TagTables, int))
    requires Interned(t)
    ensures Interned(r.0) && r.1 in r.0.tagKey && r.0.tagKey[r.1] == key
  {
    if exists id :: id in t.tagKey && t.tagKey[id] == key then
      var id :| id in t.tagKey && t.tagKey[id] == key;
      (t.(keySerial := t.keySerial + 1), id)
    else
      (t.(tagKey := t.tagKey[t.keySerial := key], keySerial := t.keySerial + 1), t.keySerial)
  }

  /** "tag_in": the id of the (key, value) pair, inserted unless it is there. */
  function InternTag(t: TagTables, tag: Tag): (r: (TagTables, int))
    requires Interned(t)
    ensures Interned(r.0) && r.1 in r.0.tag && TagOf(r.0, r.1) == tag
  {
    var (keyed, keyId) := InternKey(t, tag.key);
    var row := TagRow(keyId, tag.value);
    if exists id :: id in keyed.tag && keyed.tag[id] == row then
      var id :| id in keyed.tag && keyed.tag[id] == row;
      (keyed.(tagSerial := keyed.tagSerial + 1), id)
    else
      (keyed.(tag := keyed.tag[keyed.tagSerial := row], tagSerial := keyed.tagSerial + 1), keyed.tagSerial)
  }

  /** Ids that are in use keep their meaning for ever. */
  ghost predicate Extends(t: TagTables, t': TagTables) {
    && (forall id :: id in t.tagKey ==> id in t'.tagKey && t'.tagKey[id] == t.tagKey[id])
    && (forall id :: id in t.tag ==> id in t'.tag && t'.tag[id] == t.tag[id])
  }

  /** Serials are ahead of all ids in use. */
  lemma FreshSerials(t: TagTables)
    requires Interned(t)
    ensures t.keySerial !in t.tagKey && t.tagSerial !in t.tag
  {
  }

  lemma InternKeyExtends(t: TagTables, key: string)
    requires Interned(t)
    ensures var t' := InternKey(t, key).0;
      Extends(t, t') && t' == t.(tagKey := t'.tagKey, keySerial := t'.keySerial)
  {
    FreshSerials(t);
    hide Interned;
  }

  lemma InternTagExtends(t: TagTables, tag: Tag)
    requires Interned(t)
    ensures var t' := InternTag(t, tag).0;
      Extends(t, t') && t'.tagData == t.tagData && t'.tagInput == t.tagInput && t'.tagOutput == t.tagOutput
  {
    InternKeyExtends(t, tag.key);
    FreshSerials(InternKey(t, tag.key).0);
    hide Interned, InternKey;
  }

  lemma ExtendsKeepsTags(t: TagTables, t': TagTables)
    requires Interned(t) && Interned(t') && Extends(t, t')
    ensures t'.tagData == t.tagData ==> forall k :: UserTags(t', k) == UserTags(t, k)
    ensures t'.tagInput == t.tagInput ==> forall i :: InputTags(t', i) == InputTags(t, i)
    ensures t'.tagOutput == t.tagOutput ==> forall o :: OutputTags(t', o) == OutputTags(t, o)
  {
    assert forall id :: id in t.tag ==> TagOf(t', id) == TagOf(t, id);
  }

  // ---- tags of data ----------------------------------------------------------------------------

  /** One round of `addTagsForData`. */
  function AddTagForData(t: TagTables, knitId: string, tag: Tag): (t': TagTables)
    requires Interned(t)
    ensures Interned(t')
  {
    var (interned, id) := InternTag(t, tag);
    interned.(tagData := interned.tagData + {(id, knitId)})
  }

  function AddTagForInput(t: TagTables, inputId: int, tag: Tag): (t': TagTables)
    requires Interned(t)
    ensures Interned(t')
  {
    var (interned, id) := InternTag(t, tag);
    interned.(tagInput := interned.tagInput + {(id, inputId)})
  }

  /** `removeTagsFromData`: the pairs in `remTags` and everything under `remKeys`. */
  function RemoveTagsFromData(t: TagTables, knitId: string, remTags: seq<Tag>, remKeys: seq<string>): (t': TagTables)
    requires Interned(t)
    ensures Interned(t')
  {
    var fullTag := set r | r in t.tagData && r.1 == knitId :: (r.0, TagOf(t, r.0));
    var tagsToBeRemoved := set f | f in fullTag && f.1 in remTags :: f.0;
    var tagKeysToBeRemoved := set f | f in fullTag && f.1.key in remKeys :: f.0;
    var targets := tagsToBeRemoved + tagKeysToBeRemoved;
    t.(tagData := set r | r in t.tagData && !(r.1 == knitId && r.0 in targets))
  }

  /** No other data and no mountpoint notices. */
  ghost predicate OnlyTouches(t: TagTables, t': TagTables, knitId: string)
    requires Interned(t) && Interned(t')
  {
    && (forall k :: k != knitId ==> UserTags(t', k) == UserTags(t, k))
    && (forall i :: InputTags(t', i) == InputTags(t, i))
    && (forall o :: OutputTags(t', o) == OutputTags(t, o))
    && (forall r :: r in t'.tagData && r.1 != knitId ==> r in t.tagData)
    && t'.tagInput == t.tagInput && t'.tagOutput == t.tagOutput && Extends(t, t')
  }

  /** Links come and go without interning being touched. */
  lemma OnlyLinks(t: TagTables, t': TagTables)
    requires Interned(t)
    requires t' == t.(tagData := t'.tagData, tagInput := t'.tagInput, tagOutput := t'.tagOutput)
    requires forall r :: r in t'.tagData ==> r.0 in t.tag
    requires forall r :: r in t'.tagInput ==> r.0 in t.tag
    requires forall r :: r in t'.tagOutput ==> r.0 in t.tag
    ensures Interned(t') && Extends(t, t')
  {
  }

  lemma LinkedIsTag(t: TagTables)
    requires Interned(t)
    ensures forall r :: r in t.tagData ==> r.0 in t.tag
    ensures forall r :: r in t.tagInput ==> r.0 in t.tag
    ensures forall r :: r in t.tagOutput ==> r.0 in t.tag
    ensures forall id :: id in t.tag ==> t.tag[id].keyId in t.tagKey
  {
  }

  lemma LinkReadsBack(t: TagTables, id: int, knitId: string)
    requires Interned(t) && id in t.tag
    ensures var t' := t.(tagData := t.tagData + {(id, knitId)});
      && Interned(t') && UserTags(t', knitId) == UserTags(t, knitId) + {TagOf(t, id)}
      && OnlyTouches(t, t', knitId)
  {
    var t' := t.(tagData := t.tagData + {(id, knitId)});
    LinkedIsTag(t);
    OnlyLinks(t, t');
    ExtendsKeepsTags(t, t');
    hide Interned, Extends, InputTags, OutputTags;
    assert (id, knitId) in t'.tagData;
    forall k, x | x in UserTags(t, k)
      ensures x in UserTags(t', k)
    {
      var r :| r in t.tagData && r.1 == k && TagOf(t, r.0) == x;
      assert r in t'.tagData;
    }
  }

  /** What interning leaves for the link that follows. */
  lemma InternReadsBack(t: TagTables, tag: Tag)
    requires Interned(t)
    ensures var (t', id) := InternTag(t, tag);
      && Interned(t') && id in t'.tag && TagOf(t', id) == tag && Extends(t, t')
      && t'.tagData == t.tagData && t'.tagInput == t.tagInput && t'.tagOutput == t.tagOutput
      && (forall k :: UserTags(t', k) == UserTags(t, k))
      && (forall i :: InputTags(t', i) == InputTags(t, i))
      && (forall o :: OutputTags(t', o) == OutputTags(t, o))
  {
    InternTagExtends(t, tag);
    ExtendsKeepsTags(t, InternTag(t, tag).0);
    hide InternTag, UserTags, InputTags, OutputTags, Interned, Extends;
  }

  lemma ExtendsTransitive(a: TagTables, b: TagTables, c: TagTables)
    requires Extends(a, b) && Extends(b, c)
    ensures Extends(a, c)
  {
  }

  lemma AddTagReadsBack(t: TagTables, knitId: string, tag: Tag)
    requires Interned(t)
    ensures var t' := AddTagForData(t, knitId, tag);
      UserTags(t', knitId) == UserTags(t, knitId) + {tag} && OnlyTouches(t, t', knitId)
  {
    hide InternTag, UserTags, InputTags, OutputTags, Interned, Extends, TagOf;
    var (interned, id) := InternTag(t, tag);
    InternReadsBack(t, tag);
    LinkReadsBack(interned, id, knitId);
    ExtendsTransitive(t, interned, AddTagForData(t, knitId, tag));
  }

  lemma RemovedLinks(t: TagTables, knitId: string, remTags: seq<Tag>, remKeys: seq<string>)
    requires Interned(t)
    ensures var t' := RemoveTagsFromData(t, knitId, remTags, remKeys);
      && t' == t.(tagData := t'.tagData) && t'.tagData <= t.tagData
      && (forall r :: r in t.tagData && r.1 != knitId ==> r in t'.tagData)
      && (forall r :: r in t.tagData && r.1 == knitId ==> (r in t'.tagData <==> TagOf(t, r.0) !in remTags && TagOf(t, r.0).key !in remKeys))
  {
    LinkedIsTag(t);
    hide Interned;
    var t' := RemoveTagsFromData(t, knitId, remTags, remKeys);
    var fullTag := set r | r in t.tagData && r.1 == knitId :: (r.0, TagOf(t, r.0));
    forall r | r in t.tagData && r.1 == knitId
      ensures r in t'.tagData <==> TagOf(t, r.0) !in remTags && TagOf(t, r.0).key !in remKeys
    {
      assert (r.0, TagOf(t, r.0)) in fullTag;
    }
  }

  /** The tags left are exactly those neither listed themselves nor under a listed key. */
  lemma RemoveTagsReadsBack(t: TagTables, knitId: string, remTags: seq<Tag>, remKeys: seq<string>)
    requires Interned(t)
    ensures var t' := RemoveTagsFromData(t, knitId, remTags, remKeys);
      && UserTags(t', knitId) == (set x | x in UserTags(t, knitId) && x !in remTags && x.key !in remKeys)
      && OnlyTouches(t, t', knitId)
  {
    var t' := RemoveTagsFromData(t, knitId, remTags, remKeys);
    LinkedIsTag(t);
    OnlyLinks(t, t');
    ExtendsKeepsTags(t, t');
    hide Interned, Extends, InputTags, OutputTags;
    RemovedLinks(t, knitId, remTags, remKeys);
    hide RemoveTagsFromData;
    forall k | k != knitId
      ensures UserTags(t', k) == UserTags(t, k)
    {
    }
  }

  // ---- tags of inputs --------------------------------------------------------------------------

  ghost predicate OnlyTouchesInput(t: TagTables, t': TagTables, inputId: int)
    requires Interned(t) && Interned(t')
  {
    && (forall k :: UserTags(t', k) == UserTags(t, k))
    && (forall i :: i != inputId ==> InputTags(t', i) == InputTags(t, i))
    && (forall r :: r in t'.tagInput && r.1 != inputId ==> r in t.tagInput)
    && t'.tagData == t.tagData && t'.tagOutput == t.tagOutput && Extends(t, t')
  }

  lemma LinkInputReadsBack(t: TagTables, id: int, inputId: int)
    requires Interned(t) && id in t.tag
    ensures var t' := t.(tagInput := t.tagInput + {(id, inputId)});
      && Interned(t') && InputTags(t', inputId) == InputTags(t, inputId) + {TagOf(t, id)}
      && OnlyTouchesInput(t, t', inputId)
  {
    var t' := t.(tagInput := t.tagInput + {(id, inputId)});
    LinkedIsTag(t);
    OnlyLinks(t, t');
    ExtendsKeepsTags(t, t');
    hide Interned, Extends, UserTags, OutputTags;
    assert (id, inputId) in t'.tagInput;
    forall k, x | x in InputTags(t, k)
      ensures x in InputTags(t', k)
    {
      var r :| r in t.tagInput && r.1 == k && TagOf(t, r.0) == x;
      assert r in t'.tagInput;
    }
  }

  lemma AddInputTagReadsBack(t: TagTables, inputId: int, tag: Tag)
    requires Interned(t)
    ensures var t' := AddTagForInput(t, inputId, tag);
      InputTags(t', inputId) == InputTags(t, inputId) + {tag} && OnlyTouchesInput(t, t', inputId)
  {
    hide InternTag, UserTags, InputTags, OutputTags, Interned, Extends, TagOf;
    var (interned, id) := InternTag(t, tag);
    InternReadsBack(t, tag);
    LinkInputReadsBack(interned, id, inputId);
    ExtendsTransitive(t, interned, AddTagForInput(t, inputId, tag));
  }

  // ---- tags of outputs -------------------------------------------------------------------------

  function AddTagForOutput(t: TagTables, outputId: int, tag: Tag): (t': TagTables)
    requires Interned(t)
    ensures Interned(t')
  {
    var (interned, id) := InternTag(t, tag);
    interned.(tagOutput := interned.tagOutput + {(id, outputId)})
  }

  ghost predicate OnlyTouchesOutput(t: TagTables, t': TagTables, outputId: int)
    requires Interned(t) && Interned(t')
  {
    && (forall k :: UserTags(t', k) == UserTags(t, k))
    && (forall i :: InputTags(t', i) == InputTags(t, i))
    && (forall o :: o != outputId ==> OutputTags(t', o) == OutputTags(t, o))
    && (forall r :: r in t'.tagOutput && r.1 != outputId ==> r in t.tagOutput)
    && t'.tagData == t.tagData && t'.tagInput == t.tagInput && Extends(t, t')
  }

  lemma LinkOutputReadsBack(t: TagTables, id: int, outputId: int)
    requires Interned(t) && id in t.tag
    ensures var t' := t.(tagOutput := t.tagOutput + {(id, outputId)});
      && Interned(t') && OutputTags(t', outputId) == OutputTags(t, outputId) + {TagOf(t, id)}
      && OnlyTouchesOutput(t, t', outputId)
  {
    var t' := t.(tagOutput := t.tagOutput + {(id, outputId)});
    LinkedIsTag(t);
    OnlyLinks(t, t');
    ExtendsKeepsTags(t, t');
    hide Interned, Extends, UserTags, InputTags;
    assert (id, outputId) in t'.tagOutput;
    forall k, x | x in OutputTags(t, k)
      ensures x in OutputTags(t', k)
    {
      var r :| r in t.tagOutput && r.1 == k && TagOf(t, r.0) == x;
      assert r in t'.tagOutput;
    }
  }

  lemma AddOutputTagReadsBack(t: TagTables, outputId: int, tag: Tag)
    requires Interned(t)
    ensures var t' := AddTagForOutput(t, outputId, tag);
      OutputTags(t', outputId) == OutputTags(t, outputId) + {tag} && OnlyTouchesOutput(t, t', outputId)
  {
    hide InternTag, UserTags, InputTags, OutputTags, Interned, Extends, TagOf;
    var (interned, id) := InternTag(t, tag);
    InternReadsBack(t, tag);
    LinkOutputReadsBack(interned, id, outputId);
    ExtendsTransitive(t, interned, AddTagForOutput(t, outputId, tag));
  }

  /** New data inherit the tags of the output they are for: the rows are copied as they are. */
  function CopyOutputTags(t: TagTables, outputId: int, knitId: string): (t': TagTables)
    requires Interned(t)
    ensures Interned(t')
  {
    t.(tagData := t.tagData + set r | r in t.tagOutput && r.1 == outputId :: (r.0, knitId))
  }

  lemma CopiedTags(t: TagTables, t': TagTables, outputId: int, knitId: string)
    requires Interned(t) && Interned(t') && t' == CopyOutputTags(t, outputId, knitId)
    ensures UserTags(t', knitId) == UserTags(t, knitId) + OutputTags(t, outputId)
  {
    LinkedIsTag(t);
    hide Interned;
    forall x | x in OutputTags(t, outputId)
      ensures x in UserTags(t', knitId)
    {
      var r :| r in t.tagOutput && r.1 == outputId && TagOf(t, r.0) == x;
      assert (r.0, knitId) in t'.tagData;
    }
    forall x | x in UserTags(t, knitId)
      ensures x in UserTags(t', knitId)
    {
      var r :| r in t.tagData && r.1 == knitId && TagOf(t, r.0) == x;
      assert r in t'.tagData;
    }
  }

  lemma CopyReadsBack(t: TagTables, outputId: int, knitId: string)
    requires Interned(t)
    ensures var t' := CopyOutputTags(t, outputId, knitId);
      && UserTags(t', knitId) == UserTags(t, knitId) + OutputTags(t, outputId)
      && OnlyTouches(t, t', knitId)
  {
    var t' := CopyOutputTags(t, outputId, knitId);
    LinkedIsTag(t);
    OnlyLinks(t, t');
    ExtendsKeepsTags(t, t');
    CopiedTags(t, t', outputId, knitId);
    hide Interned, Extends, InputTags, OutputTags;
    forall k, x | k != knitId && x in UserTags(t, k)
      ensures x in UserTags(t', k)
    {
      var r :| r in t.tagData && r.1 == k && TagOf(t, r.0) == x;
      assert r in t'.tagData;
    }
  }
}
