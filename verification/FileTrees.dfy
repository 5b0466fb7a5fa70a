/** Directory trees with symbolic links, and what walking them meets: pkg/utils/archive/tarball.go. */
module FileTrees {
  import opened Results

  datatype Path = Root | Child(parent: Path, name: string)

  /** A link carries the real path it finally resolves to, if it resolves. */
  datatype Node = File(size: nat) | Special | Dir(names: seq<string>) | Link(dest: Option<Path>)

  /** All nodes by real path. */
  type Tree = map<Path, Node>

  ghost predicate WellFormed(t: Tree) {
    && (forall p, i :: p in t && t[p].Dir? && 0 <= i < |t[p].names| ==> Child(p, t[p].names[i]) in t)
    && (forall p, i, j :: p in t && t[p].Dir? && 0 <= i < j < |t[p].names| ==> t[p].names[i] != t[p].names[j])
    && (forall p :: p in t && t[p].Link? && t[p].dest.Some? ==> t[p].dest.value in t && !t[t[p].dest.value].Link?)
    && (forall p :: p in t && p.Child? ==> p.parent in t && t[p.parent].Dir? && p.name in t[p.parent].names)
  }

  lemma NamedIsThere(t: Tree, at: Path, name: string)
    requires WellFormed(t) && at in t && t[at].Dir? && name in t[at].names
    ensures Child(at, name) in t
  {
    var i :| 0 <= i < |t[at].names| && t[at].names[i] == name;
  }

  // ---- paths -----------------------------------------------------------------------------------

  function Depth(p: Path): nat {
    if p.Root? then 0 else Depth(p.parent) + 1
  }

  predicate Under(at: Path, p: Path) {
    p.Child? && (p.parent == at || Under(at, p.parent))
  }

  /** The entry of `at` on the way to a path below it. */
  function FirstStep(at: Path, p: Path): string
    requires Under(at, p)
  {
    if p.parent == at then p.name else FirstStep(at, p.parent)
  }

  lemma {:induction false} UnderIsDeeper(at: Path, p: Path)
    ensures Under(at, p) ==> Depth(at) < Depth(p)
  {
    if p.Child? {
      UnderIsDeeper(at, p.parent);
    }
  }

  /** What is below a directory is one of its entries, or below one of them. */
  lemma {:induction false} UnderByEntry(at: Path, name: string, p: Path)
    ensures Under(at, p) && FirstStep(at, p) == name <==> p == Child(at, name) || Under(Child(at, name), p)
  {
    if p.Child? {
      UnderByEntry(at, name, p.parent);
      UnderIsDeeper(at, p.parent);
      UnderIsDeeper(Child(at, name), p.parent);
    }
  }

  // ---- termination -----------------------------------------------------------------------------

  ghost function Deepest(paths: set<Path>): (r: nat)
    ensures forall p :: p in paths ==> Depth(p) <= r
  {
    if paths == {} then 0
    else
      var p :| p in paths;
      var rest := Deepest(paths - {p});
      if Depth(p) > rest then Depth(p) else rest
  }

  /** How far below `at` the tree can still go. */
  ghost function Below(t: Tree, at: Path): nat
    requires at in t
  {
    Deepest(t.Keys) - Depth(at)
  }

  /** Real paths that no link on the way has led to. */
  function Fresh(t: Tree, via: set<Path>): nat {
    |t.Keys - via|
  }

  lemma FollowingUsesUp(t: Tree, via: set<Path>, dest: Path)
    requires dest in t && dest !in via
    ensures Fresh(t, via + {dest}) < Fresh(t, via)
  {
    assert t.Keys - (via + {dest}) == t.Keys - via - {dest};
  }

  // ---- the walk --------------------------------------------------------------------------------

  /** A call of the callback, with the path as walked. */
  datatype Visit = Visit(path: Path, node: Node)

  datatype WalkError = LoopSymlink | Dangling(path: Path) | Fault(message: string)

  datatype Walked = Walked(visits: seq<Visit>, err: Option<WalkError>)

  function Then(a: Walked, b: Walked): Walked {
    if a.err.Some? then a else Walked(a.visits + b.visits, b.err)
  }

  /** What one entry means: an error, a leaf to visit, or a directory to enter at a real path. */
  datatype Entry = Bad(err: WalkError) | Leaf(node: Node) | Enter(at: Path, via: set<Path>)

  function Resolve(t: Tree, follow: bool, path: Path, p: Path, via: set<Path>): Entry
    requires p in t
  {
    if t[p].Link? && follow then
      match t[p].dest
      case None => Bad(Dangling(path))
      case Some(dest) =>
        if dest in via then Bad(LoopSymlink)
        else if dest in t && t[dest].Dir? then Enter(dest, via + {dest})
        else if dest in t then Leaf(t[dest]) else Bad(Dangling(path))
    else if t[p].Dir? then Enter(p, via)
    else Leaf(t[p])
  }

  /** The walk of a directory at real path `at`, reached as `path`, through links to `via`, on which no
      system call and no callback fails. */
  ghost function WalkDir(t: Tree, follow: bool, path: Path, at: Path, via: set<Path>): Walked
    requires WellFormed(t) && at in t && t[at].Dir?
    decreases Fresh(t, via), Below(t, at), 2, 0
  {
    WalkNames(t, follow, path, at, via, t[at].names)
  }

  ghost function WalkNames(t: Tree, follow: bool, path: Path, at: Path, via: set<Path>, names: seq<string>): Walked
    requires WellFormed(t) && at in t && t[at].Dir? && forall i :: 0 <= i < |names| ==> names[i] in t[at].names
    decreases Fresh(t, via), Below(t, at), 1, |names|
  {
    if names == [] then Walked([], None)
    else
      Then(WalkEntry(t, follow, path, at, via, names[0]), WalkNames(t, follow, path, at, via, names[1..]))
  }

  ghost function WalkEntry(t: Tree, follow: bool, path: Path, at: Path, via: set<Path>, name: string): Walked
    requires WellFormed(t) && at in t && t[at].Dir? && name in t[at].names
    decreases Fresh(t, via), Below(t, at), 0, 0
  {
    NamedIsThere(t, at, name);
    match Resolve(t, follow, Child(path, name), Child(at, name), via)
    case Bad(err) => Walked([], Some(err))
    case Leaf(node) => Walked([Visit(Child(path, name), node)], None)
    case Enter(next, via') =>
      EnterDecreases(t, follow, path, at, via, name);
      WalkDir(t, follow, Child(path, name), next, via')
  }

  lemma EnterDecreases(t: Tree, follow: bool, path: Path, at: Path, via: set<Path>, name: string)
    requires WellFormed(t) && at in t && t[at].Dir? && name in t[at].names
    ensures Child(at, name) in t
    ensures var e := Resolve(t, follow, Child(path, name), Child(at, name), via);
      e.Enter? ==>
        && e.at in t && t[e.at].Dir?
        && (Fresh(t, e.via) < Fresh(t, via) || (e.via == via && Below(t, e.at) < Below(t, at)))
  {
    var p := Child(at, name);
    NamedIsThere(t, at, name);
    if t[p].Link? && t[p].dest.Some? && t[p].dest.value !in via {
      FollowingUsesUp(t, via, t[p].dest.value);
    }
  }

  // ---- without following links -----------------------------------------------------------------

  /** A node below `at` that is not a directory, visited under its own path. */
  predicate IsLeafBelow(t: Tree, at: Path, v: Visit) {
    Under(at, v.path) && v.path in t && t[v.path] == v.node && !v.node.Dir?
  }

  /** ... and below one of the named entries of `at`. */
  predicate IsLeafIn(t: Tree, at: Path, names: seq<string>, v: Visit) {
    IsLeafBelow(t, at, v) && FirstStep(at, v.path) in names
  }

  /** Main result: a walk that does not follow links never fails by itself, and visits every node below
      that is not a directory exactly once. */
  lemma {:induction false} PlainWalkVisitsEachOnce(t: Tree, at: Path, via: set<Path>, v: Visit)
    requires WellFormed(t) && at in t && t[at].Dir?
    ensures WalkDir(t, false, at, at, via).err.None?
    ensures multiset(WalkDir(t, false, at, at, via).visits)[v] == if IsLeafBelow(t, at, v) then 1 else 0
    decreases Below(t, at), 2, 0
  {
    PlainNames(t, at, via, t[at].names, v);
    if IsLeafBelow(t, at, v) {
      StepBelow(t, at, v.path);
    }
  }

  /** The way to a node goes through the entries of every directory above it. */
  lemma {:induction false} StepBelow(t: Tree, at: Path, p: Path)
    requires WellFormed(t) && p in t && Under(at, p)
    ensures at in t && t[at].Dir? && FirstStep(at, p) in t[at].names
  {
    if p.parent != at {
      StepBelow(t, at, p.parent);
    }
  }

  lemma {:induction false} PlainNames(t: Tree, at: Path, via: set<Path>, names: seq<string>, v: Visit)
    requires WellFormed(t) && at in t && t[at].Dir?
    requires forall i :: 0 <= i < |names| ==> names[i] in t[at].names
    requires forall i, j :: 0 <= i < j < |names| ==> names[i] != names[j]
    ensures WalkNames(t, false, at, at, via, names).err.None?
    ensures multiset(WalkNames(t, false, at, at, via, names).visits)[v] == if IsLeafIn(t, at, names, v) then 1 else 0
    decreases Below(t, at), 1, |names|
  {
    if names != [] {
      PlainEntry(t, at, via, names[0], v);
      PlainNames(t, at, via, names[1..], v);
      assert names == [names[0]] + names[1..];
    }
  }

  lemma {:induction false} PlainEntry(t: Tree, at: Path, via: set<Path>, name: string, v: Visit)
    requires WellFormed(t) && at in t && t[at].Dir? && name in t[at].names
    ensures WalkEntry(t, false, at, at, via, name).err.None?
    ensures multiset(WalkEntry(t, false, at, at, via, name).visits)[v] == if IsLeafIn(t, at, [name], v) then 1 else 0
    decreases Below(t, at), 0, 0
  {
    var p := Child(at, name);
    EnterDecreases(t, false, at, at, via, name);
    EntryCases(t, at, name, v);
    if t[p].Dir? {
      PlainWalkVisitsEachOnce(t, p, via, v);
    }
  }

  lemma EntryCases(t: Tree, at: Path, name: string, v: Visit)
    requires WellFormed(t) && at in t && t[at].Dir? && Child(at, name) in t
    ensures t[Child(at, name)].Dir? ==> (IsLeafIn(t, at, [name], v) <==> IsLeafBelow(t, Child(at, name), v))
    ensures !t[Child(at, name)].Dir? ==> (IsLeafIn(t, at, [name], v) <==> v == Visit(Child(at, name), t[Child(at, name)]))
  {
    var p := Child(at, name);
    UnderByEntry(at, name, v.path);
    if v.path in t && Under(p, v.path) {
      StepBelow(t, p, v.path);
    }
  }

  // ---- following links: loops ------------------------------------------------------------------

  /** One directory leads to another: as its entry, or through a link among its entries. */
  ghost predicate Leads(t: Tree, a: Path, b: Path) {
    && a in t && t[a].Dir? && b in t && t[b].Dir?
    && exists name :: name in t[a].names && Child(a, name) in t && (b == Child(a, name) || t[Child(a, name)] == Link(Some(b)))
  }

  /** A way through directories; `at` is where it has got to. */
  datatype Way = Start(at: Path) | Onward(way: Way, at: Path)

  ghost predicate IsWay(t: Tree, w: Way) {
    match w
    case Start(at) => at in t && t[at].Dir?
    case Onward(before, at) => IsWay(t, before) && Leads(t, before.at, at)
  }

  function First(w: Way): Path {
    match w case Start(at) => at case Onward(before, _) => First(before)
  }

  function Passed(w: Way): set<Path> {
    match w case Start(at) => {at} case Onward(before, at) => Passed(before) + {at}
  }

  predicate Repeats(w: Way) {
    w.Onward? && (Repeats(w.way) || w.at in Passed(w.way))
  }

  /** Some way from the root comes to a directory twice. */
  ghost predicate HasLoop(t: Tree, root: Path) {
    exists w :: IsWay(t, w) && First(w) == root && Repeats(w)
  }

  lemma {:induction false} WayIsDirectories(t: Tree, w: Way)
    requires IsWay(t, w)
    ensures forall p :: p in Passed(w) ==> p in t && t[p].Dir?
    ensures w.at in Passed(w) && First(w) in Passed(w)
  {
    if w.Onward? {
      WayIsDirectories(t, w.way);
    }
  }

  /** Entering an entry is a step on a way. */
  lemma EnterLeads(t: Tree, path: Path, at: Path, via: set<Path>, name: string)
    requires at in t && t[at].Dir? && name in t[at].names && Child(at, name) in t
    ensures var e := Resolve(t, true, path, Child(at, name), via);
      e.Enter? ==> Leads(t, at, e.at) && (e.via == via || e.via == via + {e.at})
  {
  }

  /** Meeting a link to a directory that a link has led to before is a step on a way as well. */
  lemma LoopLeads(t: Tree, path: Path, at: Path, via: set<Path>, name: string) returns (dest: Path)
    requires at in t && t[at].Dir? && name in t[at].names && Child(at, name) in t
    requires Resolve(t, true, path, Child(at, name), via) == Bad(LoopSymlink)
    requires forall r :: r in via ==> r in t && t[r].Dir?
    ensures dest in via && Leads(t, at, dest)
  {
    dest := t[Child(at, name)].dest.value;
  }

  /** A loop is reported only where there is one. `w` is the way so far; whatever a link has led to on
      the way lies on it. */
  lemma {:induction false} LoopErrorIsGenuine(t: Tree, path: Path, at: Path, via: set<Path>, w: Way)
    requires WellFormed(t) && at in t && t[at].Dir?
    requires IsWay(t, w) && w.at == at && via <= Passed(w)
    requires WalkDir(t, true, path, at, via).err == Some(LoopSymlink)
    ensures HasLoop(t, First(w))
    decreases Fresh(t, via), Below(t, at), 2, 0
  {
    LoopErrorInNames(t, path, at, via, t[at].names, w);
  }

  lemma {:induction false} LoopErrorInNames(t: Tree, path: Path, at: Path, via: set<Path>, names: seq<string>, w: Way)
    requires WellFormed(t) && at in t && t[at].Dir? && forall i :: 0 <= i < |names| ==> names[i] in t[at].names
    requires IsWay(t, w) && w.at == at && via <= Passed(w)
    requires WalkNames(t, true, path, at, via, names).err == Some(LoopSymlink)
    ensures HasLoop(t, First(w))
    decreases Fresh(t, via), Below(t, at), 1, |names|
  {
    if WalkEntry(t, true, path, at, via, names[0]).err.Some? {
      LoopErrorInEntry(t, path, at, via, names[0], w);
    } else {
      LoopErrorInNames(t, path, at, via, names[1..], w);
    }
  }

  lemma {:induction false} LoopErrorInEntry(t: Tree, path: Path, at: Path, via: set<Path>, name: string, w: Way)
    requires WellFormed(t) && at in t && t[at].Dir? && name in t[at].names
    requires IsWay(t, w) && w.at == at && via <= Passed(w)
    requires WalkEntry(t, true, path, at, via, name).err == Some(LoopSymlink)
    ensures HasLoop(t, First(w))
    decreases Fresh(t, via), Below(t, at), 0, 0
  {
    hide Leads, Resolve, HasLoop;
    EnterDecreases(t, true, path, at, via, name);
    var e := Resolve(t, true, Child(path, name), Child(at, name), via);
    WayIsDirectories(t, w);
    if e.Enter? {
      EnterLeads(t, Child(path, name), at, via, name);
      LoopErrorIsGenuine(t, Child(path, name), e.at, e.via, Onward(w, e.at));
    } else {
      var dest := LoopLeads(t, Child(path, name), at, via, name);
      ComesBack(t, w, dest);
    }
  }

  lemma ComesBack(t: Tree, w: Way, b: Path)
    requires IsWay(t, w) && Leads(t, w.at, b) && b in Passed(w)
    ensures HasLoop(t, First(w))
  {
    assert IsWay(t, Onward(w, b)) && Repeats(Onward(w, b)) && First(Onward(w, b)) == First(w);
  }
}
