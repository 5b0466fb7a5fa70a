/** What a walk that follows links visits, pkg/utils/archive/tarball.go: each path that opens something that
    is no directory, once, and as what it opens. */
module FollowedWalks {
  import opened Results
  import opened FileTrees
  import opened Archive

  /** The real path that the system opens for `p`, when `path` stands for the directory `at`: step by step,
      each link replaced by where it leads. */
  function Opens(t: Tree, path: Path, at: Path, p: Path): Option<Path> {
    if p == path then Some(at)
    else if p.Root? then None
    else
      match Opens(t, path, at, p.parent)
      case None => None
      case Some(dir) =>
        var entry := Child(dir, p.name);
        if dir !in t || !t[dir].Dir? || p.name !in t[dir].names || entry !in t then None
        else if t[entry].Link? then t[entry].dest
        else Some(entry)
  }

  /** The path is below `path` and opens a node that is no directory. */
  predicate OpensLeaf(t: Tree, path: Path, at: Path, v: Visit) {
    && Under(path, v.path) && Opens(t, path, at, v.path).Some?
    && var dest := Opens(t, path, at, v.path).value; dest in t && !t[dest].Dir? && t[dest] == v.node
  }

  predicate OpensLeafBy(t: Tree, path: Path, at: Path, names: seq<string>, v: Visit) {
    OpensLeaf(t, path, at, v) && FirstStep(path, v.path) in names
  }

  /** Opening a path is opening its first step and going on from there. */
  lemma {:induction false} OpensStepwise(t: Tree, path: Path, at: Path, p: Path)
    requires Under(path, p)
    ensures var step := Child(path, FirstStep(path, p));
      Opens(t, path, at, p) == match Opens(t, path, at, step) case None => None case Some(dest) => Opens(t, step, dest, p)
  {
    UnderIsDeeper(path, p);
    var step := Child(path, FirstStep(path, p));
    if p.parent != path {
      OpensStepwise(t, path, at, p.parent);
      UnderByEntry(path, FirstStep(path, p), p);
      UnderIsDeeper(step, p);
    }
  }

  lemma OpensEntry(t: Tree, path: Path, at: Path, name: string)
    requires WellFormed(t) && at in t && t[at].Dir? && name in t[at].names
    ensures Child(at, name) in t
    ensures Opens(t, path, at, Child(path, name)) ==
      if t[Child(at, name)].Link? then t[Child(at, name)].dest else Some(Child(at, name))
  {
    NamedIsThere(t, at, name);
    assert Depth(Child(path, name)) != Depth(path);
  }

  /** Only directories have anything below. */
  lemma {:induction false} NothingBelowLeaf(t: Tree, path: Path, at: Path, p: Path)
    requires Under(path, p) && (at in t ==> !t[at].Dir?)
    ensures Opens(t, path, at, p).None?
  {
    UnderIsDeeper(path, p);
    if p.parent != path {
      NothingBelowLeaf(t, path, at, p.parent);
    }
  }

  /** Main result: a walk that follows links and meets no error visits each path below that opens something
      that is no directory exactly once, and as what it opens. */
  lemma {:induction false} FollowedWalkVisitsEachOnce(t: Tree, path: Path, at: Path, via: set<Path>, v: Visit)
    requires WellFormed(t) && at in t && t[at].Dir? && WalkDir(t, true, path, at, via).err.None?
    ensures multiset(WalkDir(t, true, path, at, via).visits)[v] == if OpensLeaf(t, path, at, v) then 1 else 0
    decreases Fresh(t, via), Below(t, at), 2, 0
  {
    FollowedNames(t, path, at, via, t[at].names, v);
    if OpensLeaf(t, path, at, v) {
      StepIsNamed(t, path, at, v.path);
    }
  }

  lemma StepIsNamed(t: Tree, path: Path, at: Path, p: Path)
    requires at in t && t[at].Dir? && Under(path, p) && Opens(t, path, at, p).Some?
    ensures FirstStep(path, p) in t[at].names
  {
    OpensStepwise(t, path, at, p);
    assert Depth(Child(path, FirstStep(path, p))) != Depth(path);
  }

  lemma {:induction false} FollowedNames(t: Tree, path: Path, at: Path, via: set<Path>, names: seq<string>, v: Visit)
    requires WellFormed(t) && at in t && t[at].Dir?
    requires forall i :: 0 <= i < |names| ==> names[i] in t[at].names
    requires forall i, j :: 0 <= i < j < |names| ==> names[i] != names[j]
    requires WalkNames(t, true, path, at, via, names).err.None?
    ensures multiset(WalkNames(t, true, path, at, via, names).visits)[v] == if OpensLeafBy(t, path, at, names, v) then 1 else 0
    decreases Fresh(t, via), Below(t, at), 1, |names|
  {
    hide OpensLeaf;
    if names != [] {
      FollowedEntry(t, path, at, via, names[0], v);
      FollowedNames(t, path, at, via, names[1..], v);
      assert names == [names[0]] + names[1..];
    }
  }

  lemma {:induction false} FollowedEntry(t: Tree, path: Path, at: Path, via: set<Path>, name: string, v: Visit)
    requires WellFormed(t) && at in t && t[at].Dir? && name in t[at].names
    requires WalkEntry(t, true, path, at, via, name).err.None?
    ensures multiset(WalkEntry(t, true, path, at, via, name).visits)[v] == if OpensLeafBy(t, path, at, [name], v) then 1 else 0
    decreases Fresh(t, via), Below(t, at), 0, 0
  {
    EnterDecreases(t, true, path, at, via, name);
    OpensEntry(t, path, at, name);
    EntryOpens(t, path, at, name, v);
    var e := Resolve(t, true, Child(path, name), Child(at, name), via);
    if e.Enter? {
      hide OpensLeaf, OpensLeafBy;
      FollowedWalkVisitsEachOnce(t, Child(path, name), e.at, e.via, v);
    }
  }

  /** Through an entry that opens `dest`. */
  lemma EntryOpens(t: Tree, path: Path, at: Path, name: string, v: Visit)
    requires WellFormed(t) && at in t && t[at].Dir? && name in t[at].names && Opens(t, path, at, Child(path, name)).Some?
    ensures var dest, step := Opens(t, path, at, Child(path, name)).value, Child(path, name);
      dest in t ==>
        (OpensLeafBy(t, path, at, [name], v) <==> if t[dest].Dir? then OpensLeaf(t, step, dest, v) else v == Visit(step, t[dest]))
  {
    var dest, step := Opens(t, path, at, Child(path, name)).value, Child(path, name);
    UnderByEntry(path, name, v.path);
    if Under(path, v.path) && FirstStep(path, v.path) == name {
      OpensStepwise(t, path, at, v.path);
      if v.path != step && dest in t && !t[dest].Dir? {
        NothingBelowLeaf(t, step, dest, v.path);
      }
    }
    if Under(step, v.path) {
      UnderIsDeeper(step, v.path);
    }
  }

  /** The same from a root that may be a link or no directory. */
  lemma FollowedRootVisitsEachOnce(t: Tree, from: Path, v: Visit)
    requires WellFormed(t) && from in t && WalkFrom(t, true, from).err.None?
    ensures var at := if t[from].Link? then t[from].dest else Some(from);
      && at.Some?
      && multiset(WalkFrom(t, true, from).visits)[v] ==
        if v.path == from then (if at.value in t && !t[at.value].Dir? && t[at.value] == v.node then 1 else 0)
        else if OpensLeaf(t, from, at.value, v) then 1 else 0
  {
    var at := if t[from].Link? then t[from].dest else Some(from);
    if at.Some? {
      if t[at.value].Dir? {
        UnderIsDeeper(from, v.path);
        FollowedWalkVisitsEachOnce(t, from, at.value, if t[from].Link? then {at.value} else {}, v);
      } else if Under(from, v.path) {
        NothingBelowLeaf(t, from, at.value, v.path);
      }
    }
  }
}
