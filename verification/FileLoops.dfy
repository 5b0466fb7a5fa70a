/** A walk that follows links reports a loop exactly when there is one. */
module FileLoops {
  import opened Results
  import opened FileTrees

  ghost predicate Walks(t: Tree, path: Path, at: Path, via: set<Path>)
    requires WellFormed(t) && at in t && t[at].Dir?
  {
    WalkDir(t, true, path, at, via).err.None?
  }

  /** The order in which the recursion descends. */
  ghost predicate Smaller(t: Tree, via': set<Path>, at': Path, via: set<Path>, at: Path)
    requires at in t && at' in t
  {
    Fresh(t, via') < Fresh(t, via) || (Fresh(t, via') == Fresh(t, via) && Below(t, at') < Below(t, at))
  }

  lemma {:induction false} EveryEntryWalks(t: Tree, path: Path, at: Path, via: set<Path>, names: seq<string>, name: string)
    requires WellFormed(t) && at in t && t[at].Dir? && forall i :: 0 <= i < |names| ==> names[i] in t[at].names
    requires WalkNames(t, true, path, at, via, names).err.None? && name in names
    ensures WalkEntry(t, true, path, at, via, name).err.None?
    decreases |names|
  {
    if name != names[0] {
      EveryEntryWalks(t, path, at, via, names[1..], name);
    }
  }

  /** From a directory that is walked without error, every directory it leads to is as well. */
  lemma WalkGoesOn(t: Tree, path: Path, at: Path, via: set<Path>, b: Path) returns (path': Path, via': set<Path>)
    requires WellFormed(t) && Leads(t, at, b) && Walks(t, path, at, via)
    ensures Walks(t, path', b, via') && Smaller(t, via', b, via, at)
  {
    var name :| name in t[at].names && Child(at, name) in t && (b == Child(at, name) || t[Child(at, name)] == Link(Some(b)));
    EveryEntryWalks(t, path, at, via, t[at].names, name);
    EnterDecreases(t, true, path, at, via, name);
    var e := Resolve(t, true, Child(path, name), Child(at, name), via);
    assert e.Enter? && e.at == b;
    path', via' := Child(path, name), e.via;
  }

  lemma {:induction false} WalkGoesAlong(t: Tree, w: Way, path: Path, via: set<Path>) returns (path': Path, via': set<Path>)
    requires WellFormed(t) && IsWay(t, w)
    requires First(w) in t && t[First(w)].Dir? && Walks(t, path, First(w), via)
    ensures w.at in t && t[w.at].Dir? && Walks(t, path', w.at, via')
    ensures if w.Onward? then Smaller(t, via', w.at, via, First(w)) else via' == via
  {
    hide Walks, WellFormed, Leads, Below, Fresh;
    WayIsDirectories(t, w);
    if w.Start? {
      path', via' := path, via;
    } else {
      path', via' := WalkGoesAlong(t, w.way, path, via);
      path', via' := WalkGoesOn(t, path', w.way.at, via', w.at);
    }
  }

  /** A directory on a loop cannot be walked without error: the recursion would descend for ever. */
  lemma {:induction false} NoWalkOnLoop(t: Tree, w: Way, path: Path, via: set<Path>)
    requires WellFormed(t) && IsWay(t, w) && w.Onward? && w.at == First(w)
    ensures w.at in t && t[w.at].Dir? && !Walks(t, path, w.at, via)
    decreases Fresh(t, via), Deepest(t.Keys) - Depth(w.at)
  {
    hide Walks, Leads, WellFormed, IsWay;
    WayIsDirectories(t, w);
    if Walks(t, path, w.at, via) {
      var path', via' := WalkGoesAlong(t, w, path, via);
      NoWalkOnLoop(t, w, path', via');
    }
  }

  /** A way can be parted wherever it passed. */
  lemma {:induction false} PartAt(t: Tree, w: Way, p: Path) returns (first: Way, second: Way)
    requires IsWay(t, w) && p in Passed(w)
    ensures IsWay(t, first) && First(first) == First(w) && first.at == p
    ensures IsWay(t, second) && First(second) == p && second.at == w.at
  {
    if w.at == p {
      WayIsDirectories(t, w);
      first, second := w, Start(p);
    } else {
      first, second := PartAt(t, w.way, p);
      second := Onward(second, w.at);
    }
  }

  lemma {:induction false} WalkedWayHasNoRepeat(t: Tree, path: Path, via: set<Path>, w: Way)
    requires WellFormed(t) && IsWay(t, w) && First(w) in t && t[First(w)].Dir? && Walks(t, path, First(w), via)
    ensures !Repeats(w)
  {
    hide Walks, Leads, WellFormed;
    if w.Onward? {
      WalkedWayHasNoRepeat(t, path, via, w.way);
      if w.at in Passed(w.way) {
        var first, second := PartAt(t, w.way, w.at);
        var path', via' := WalkGoesAlong(t, first, path, via);
        NoWalkOnLoop(t, Onward(second, w.at), path', via');
      }
    }
  }

  lemma WalkedHasNoLoop(t: Tree, path: Path, root: Path, via: set<Path>)
    requires WellFormed(t) && root in t && t[root].Dir? && Walks(t, path, root, via)
    ensures !HasLoop(t, root)
  {
    forall w | IsWay(t, w) && First(w) == root
      ensures !Repeats(w)
    {
      WalkedWayHasNoRepeat(t, path, via, w);
    }
  }

  // ---- only loops go wrong ---------------------------------------------------------------------

  ghost predicate NothingDangles(t: Tree) {
    forall p :: p in t && t[p].Link? ==> t[p].dest.Some?
  }

  lemma {:induction false} OnlyLoopsInDir(t: Tree, path: Path, at: Path, via: set<Path>)
    requires WellFormed(t) && NothingDangles(t) && at in t && t[at].Dir?
    ensures WalkDir(t, true, path, at, via).err.None? || WalkDir(t, true, path, at, via).err == Some(LoopSymlink)
    decreases Fresh(t, via), Below(t, at), 2, 0
  {
    OnlyLoopsInNames(t, path, at, via, t[at].names);
  }

  lemma {:induction false} OnlyLoopsInNames(t: Tree, path: Path, at: Path, via: set<Path>, names: seq<string>)
    requires WellFormed(t) && NothingDangles(t) && at in t && t[at].Dir?
    requires forall i :: 0 <= i < |names| ==> names[i] in t[at].names
    ensures WalkNames(t, true, path, at, via, names).err.None? || WalkNames(t, true, path, at, via, names).err == Some(LoopSymlink)
    decreases Fresh(t, via), Below(t, at), 1, |names|
  {
    if names != [] {
      OnlyLoopsInEntry(t, path, at, via, names[0]);
      OnlyLoopsInNames(t, path, at, via, names[1..]);
    }
  }

  lemma {:induction false} OnlyLoopsInEntry(t: Tree, path: Path, at: Path, via: set<Path>, name: string)
    requires WellFormed(t) && NothingDangles(t) && at in t && t[at].Dir? && name in t[at].names
    ensures WalkEntry(t, true, path, at, via, name).err.None? || WalkEntry(t, true, path, at, via, name).err == Some(LoopSymlink)
    decreases Fresh(t, via), Below(t, at), 0, 0
  {
    EnterDecreases(t, true, path, at, via, name);
    var e := Resolve(t, true, Child(path, name), Child(at, name), via);
    if e.Enter? {
      OnlyLoopsInDir(t, Child(path, name), e.at, e.via);
    }
  }

  /** Main result: where every link resolves, following links ends with the loop error exactly when some
      way from the root comes to a directory twice, and without an error otherwise. */
  lemma LoopReportedIffLoop(t: Tree, path: Path, root: Path, via: set<Path>)
    requires WellFormed(t) && NothingDangles(t) && root in t && t[root].Dir? && via <= {root}
    ensures WalkDir(t, true, path, root, via).err == Some(LoopSymlink) <==> HasLoop(t, root)
    ensures WalkDir(t, true, path, root, via).err.None? <==> !HasLoop(t, root)
  {
    OnlyLoopsInDir(t, path, root, via);
    if WalkDir(t, true, path, root, via).err.None? {
      WalkedHasNoLoop(t, path, root, via);
    } else {
      LoopErrorIsGenuine(t, path, root, via, Start(root));
    }
  }
}
