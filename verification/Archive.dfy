/** `findFiles` and the size accounting of `GoTar` in pkg/utils/archive/tarball.go, with failing calls. */
module Archive {
  import opened Results
  import opened FileTrees

  /** Which calls fail, by the path walked; for the callback by how many visits succeeded before, with
      the number of bytes it had copied by then. */
  datatype Faults = Faults(
    readDir: Path -> Option<string>,
    lstat: Path -> Option<string>,
    eval: Path -> Option<string>,
    stat: Path -> Option<string>,
    callback: nat -> Option<string>,
    copied: nat -> nat)

  function SizeOf(visits: seq<Visit>): nat {
    if visits == [] then 0
    else
      var last := visits[|visits| - 1].node;
      SizeOf(visits[..|visits| - 1]) + if last.File? then last.size else 0
  }

  /** Sizes add up, and a regular file counts with its bytes, anything else not at all. */
  lemma {:induction false} SizesAddUp(a: seq<Visit>, b: seq<Visit>)
    ensures SizeOf(a + b) == SizeOf(a) + SizeOf(b)
    ensures forall path, size: nat :: SizeOf([Visit(path, File(size))]) == size
    ensures forall path, node: Node :: !node.File? ==> SizeOf([Visit(path, node)]) == 0
  {
    forall v: Visit
      ensures SizeOf([v]) == if v.node.File? then v.node.size else 0
    {
      assert [v][..0] == [];
    }
    if b == [] {
      assert a + b == a;
    } else {
      assert (a + b)[..|a + b| - 1] == a + b[..|b| - 1];
      SizesAddUp(a, b[..|b| - 1]);
    }
  }

  /** The walk came as far as the faults let it; without a fault it is the whole walk. */
  ghost predicate Reached(before: seq<Visit>, after: seq<Visit>, err: Option<WalkError>, whole: Walked) {
    if err.Some? && err.value.Fault? then before <= after && after[|before|..] <= whole.visits
    else after == before + whole.visits && err == whole.err
  }

  lemma ReachedNothing(before: seq<Visit>, whole: Walked, message: string)
    ensures Reached(before, before, Some(Fault(message)), whole)
  {
    assert before[|before|..] == [];
  }

  lemma ReachedEarly(before: seq<Visit>, whole: Walked)
    ensures forall message :: Reached(before, before, Some(Fault(message)), whole)
    ensures whole.visits == [] ==> Reached(before, before, whole.err, whole)
    ensures whole.err.None? && |whole.visits| == 1 ==> Reached(before, before + whole.visits, None, whole)
  {
    assert before[|before|..] == [] && before + [] == before;
  }

  /** Two walks, one after the other; the second is not begun when the first fails. */
  lemma ReachedThen(before: seq<Visit>, mid: seq<Visit>, after: seq<Visit>, e1: Option<WalkError>, e2: Option<WalkError>, a: Walked, b: Walked)
    requires Reached(before, mid, e1, a)
    ensures e1.Some? ==> Reached(before, mid, e1, Then(a, b))
    ensures e1.None? && Reached(mid, after, e2, b) ==> Reached(before, after, e2, Then(a, b))
  {
    if e1.None? && Reached(mid, after, e2, b) {
      assert mid == before + a.visits;
      if e2.Some? && e2.value.Fault? {
        assert after[|before|..] == a.visits + after[|mid|..];
      }
    }
    if e1.Some? && e1.value.Fault? {
      assert a.err.None? ==> a.visits <= Then(a, b).visits;
    }
  }

  /** One walk with its via-set, the visits it made, and the bytes it counted. */
  class Walker {
    var via: set<Path>
    var visited: seq<Visit>
    var size: nat

    constructor ()
      ensures via == {} && visited == [] && size == 0
    {
      via, visited, size := {}, [], 0;
    }

    /** Both callbacks of `GoTar` count the size of a regular file: one from its status, one by copying. */
    method Callback(v: Visit, f: Faults) returns (err: Option<WalkError>)
      modifies this`visited, this`size
      ensures err.None? ==> visited == old(visited) + [v] && (old(size) == SizeOf(old(visited)) ==> size == SizeOf(visited))
      ensures err.Some? ==> err.value.Fault? && visited == old(visited)
    {
      var fault := f.callback(|visited|);
      if fault.Some? {
        if v.node.File? {
          size := size + f.copied(|visited|);
        }
        return Some(Fault(fault.value));
      }
      if v.node.File? {
        size := size + v.node.size;
      }
      visited := visited + [v];
      assert visited[..|visited| - 1] == old(visited);
      return None;
    }

    /** `findFilesInDirectory`. Main result: it terminates, gives the via-set back as it was on every way
        out, and unless a call fails makes exactly the visits of the walk and ends as it does. */
    method FindFilesInDirectory(t: Tree, follow: bool, path: Path, at: Path, f: Faults) returns (err: Option<WalkError>)
      requires WellFormed(t) && at in t && t[at].Dir?
      modifies this
      ensures via == old(via)
      ensures Reached(old(visited), visited, err, WalkDir(t, follow, path, at, via))
      ensures !(err.Some? && err.value.Fault?) && old(size) == SizeOf(old(visited)) ==> size == SizeOf(visited)
      decreases Fresh(t, via), Below(t, at), 1
    {
      hide Reached, WellFormed, SizeOf;
      var failure := f.readDir(path);
      if failure.Some? {
        ReachedNothing(visited, WalkDir(t, follow, path, at, via), failure.value);
        return Some(Fault(failure.value));
      }
      var names := t[at].names;
      ghost var before := visited;
      ReachedEmpty(t, follow, path, at, via, before);
      for i := 0 to |names|
        invariant via == old(via)
        invariant Reached(before, visited, None, WalkNames(t, follow, path, at, via, names[..i]))
        invariant old(size) == SizeOf(before) ==> size == SizeOf(visited)
      {
        ghost var mid := visited;
        NamesSplit(t, follow, path, at, via, names, i);
        err := VisitEntry(t, follow, path, at, names[i], f);
        ReachedThen(before, mid, visited, None, err, WalkNames(t, follow, path, at, via, names[..i]), WalkEntry(t, follow, path, at, via, names[i]));
        if err.Some? {
          ReachedStop(t, follow, path, at, via, names, i, before, visited, err);
          return;
        }
      }
      assert names[..|names|] == names;
      return None;
    }

    /** The closure in the loop of `findFilesInDirectory`. */
    method VisitEntry(t: Tree, follow: bool, path: Path, at: Path, name: string, f: Faults) returns (err: Option<WalkError>)
      requires WellFormed(t) && at in t && t[at].Dir? && name in t[at].names
      modifies this
      ensures via == old(via)
      ensures Reached(old(visited), visited, err, WalkEntry(t, follow, path, at, via, name))
      ensures !(err.Some? && err.value.Fault?) && old(size) == SizeOf(old(visited)) ==> size == SizeOf(visited)
      decreases Fresh(t, via), Below(t, at), 0
    {
      hide SizeOf, WellFormed, Reached, WalkEntry, WalkDir, Fresh, Below;
      var fullpath := Child(path, name);
      EntryMeans(t, follow, path, at, via, name);
      ghost var whole := WalkEntry(t, follow, path, at, via, name);
      ReachedEarly(visited, whole);
      var p := Child(at, name);
      var failure := f.lstat(fullpath);
      if failure.Some? {
        return Some(Fault(failure.value));
      }
      if t[p].Link? && follow {
        failure := f.eval(fullpath);
        if failure.Some? {
          return Some(Fault(failure.value));
        }
        if t[p].dest.None? {
          return Some(Dangling(fullpath));
        }
        var realpath := t[p].dest.value;
        if realpath in via {
          return Some(LoopSymlink);
        }
        via := via + {realpath};
        failure := f.stat(fullpath);
        if failure.Some? {
          err := Some(Fault(failure.value));
        } else if t[realpath].Dir? {
          err := FindFilesInDirectory(t, follow, fullpath, realpath, f);
        } else {
          err := Callback(Visit(fullpath, t[realpath]), f);
        }
        via := via - {realpath}; // deferred
        return;
      }
      if t[p].Dir? {
        err := FindFilesInDirectory(t, follow, fullpath, p, f);
        return;
      }
      err := Callback(Visit(fullpath, t[p]), f);
    }

    /** `findFiles`, with a walker of its own. */
    method FindFiles(t: Tree, follow: bool, from: Path, f: Faults) returns (err: Option<WalkError>)
      requires WellFormed(t) && from in t
      requires via == {} && visited == [] && size == 0
      modifies this
      ensures Reached([], visited, err, WalkFrom(t, follow, from))
      ensures !(err.Some? && err.value.Fault?) ==> size == SizeOf(visited)
    {
      LinksResolve(t);
      var failure := f.lstat(from);
      if failure.Some? {
        return Some(Fault(failure.value));
      }
      var at := from;
      if t[from].Link? && follow {
        failure := f.stat(from);
        if failure.Some? {
          return Some(Fault(failure.value));
        }
        if t[from].dest.None? {
          return Some(Dangling(from));
        }
        failure := f.eval(from);
        if failure.Some? {
          return Some(Fault(failure.value));
        }
        at := t[from].dest.value;
        via := via + {at};
      }
      if !t[at].Dir? {
        err := Callback(Visit(from, t[at]), f);
        return;
      }
      assert via == if at == from && !t[from].Link? then {} else {at};
      err := FindFilesInDirectory(t, follow, from, at, f);
    }
  }

  lemma LinksResolve(t: Tree)
    requires WellFormed(t)
    ensures forall p :: p in t && t[p].Link? && t[p].dest.Some? ==> t[p].dest.value in t && !t[t[p].dest.value].Link?
  {
  }

  /** The whole walk from a root that may be a link itself. */
  ghost function WalkFrom(t: Tree, follow: bool, from: Path): Walked
    requires WellFormed(t) && from in t
  {
    if t[from].Link? && follow then
      match t[from].dest
      case None => Walked([], Some(Dangling(from)))
      case Some(dest) =>
        if t[dest].Dir? then WalkDir(t, follow, from, dest, {dest}) else Walked([Visit(from, t[dest])], None)
    else if t[from].Dir? then WalkDir(t, follow, from, from, {})
    else Walked([Visit(from, t[from])], None)
  }

  /** What an entry contributes, and that entering it is a descent. */
  lemma EntryMeans(t: Tree, follow: bool, path: Path, at: Path, via: set<Path>, name: string)
    requires WellFormed(t) && at in t && t[at].Dir? && name in t[at].names
    ensures var p, fullpath := Child(at, name), Child(path, name);
      var whole := WalkEntry(t, follow, path, at, via, name);
      && p in t
      && if t[p].Link? && follow then
           if t[p].dest.None? then whole == Walked([], Some(Dangling(fullpath)))
           else
             var dest := t[p].dest.value;
             && dest in t && !t[dest].Link?
             && (dest in via ==> whole == Walked([], Some(LoopSymlink)))
             && (dest !in via && t[dest].Dir? ==>
               whole == WalkDir(t, follow, fullpath, dest, via + {dest}) && Fresh(t, via + {dest}) < Fresh(t, via))
             && (dest !in via && !t[dest].Dir? ==> whole == Walked([Visit(fullpath, t[dest])], None))
         else if t[p].Dir? then whole == WalkDir(t, follow, fullpath, p, via) && Below(t, p) < Below(t, at)
         else whole == Walked([Visit(fullpath, t[p])], None)
  {
    EnterDecreases(t, follow, path, at, via, name);
    hide WalkDir, Fresh, Below;
    LinksResolve(t);
  }

  lemma ReachedEmpty(t: Tree, follow: bool, path: Path, at: Path, via: set<Path>, before: seq<Visit>)
    requires WellFormed(t) && at in t && t[at].Dir?
    ensures t[at].names[..0] == [] && Reached(before, before, None, WalkNames(t, follow, path, at, via, t[at].names[..0]))
  {
    assert before + [] == before;
  }

  /** Walking some entries and then the next one. */
  lemma {:induction false} NamesSplit(t: Tree, follow: bool, path: Path, at: Path, via: set<Path>, names: seq<string>, i: nat)
    requires WellFormed(t) && at in t && t[at].Dir? && i < |names|
    requires forall k :: 0 <= k < |names| ==> names[k] in t[at].names
    ensures WalkNames(t, follow, path, at, via, names[..i + 1]) ==
      Then(WalkNames(t, follow, path, at, via, names[..i]), WalkEntry(t, follow, path, at, via, names[i]))
    decreases i
  {
    hide WalkEntry, WellFormed;
    var entry := WalkEntry(t, follow, path, at, via, names[i]);
    if i == 0 {
      assert names[..1] == [names[0]] && names[..1][1..] == [] && names[..0] == [];
      assert entry.visits + [] == entry.visits && [] + entry.visits == entry.visits;
    } else {
      assert names[..i + 1][0] == names[0] && names[..i + 1][1..] == names[1..][..i];
      assert names[..i][0] == names[0] && names[..i][1..] == names[1..][..i - 1];
      NamesSplit(t, follow, path, at, via, names[1..], i - 1);
      ThenAssociative(WalkEntry(t, follow, path, at, via, names[0]), WalkNames(t, follow, path, at, via, names[1..][..i - 1]), entry);
    }
  }

  lemma ThenAssociative(a: Walked, b: Walked, c: Walked)
    ensures Then(a, Then(b, c)) == Then(Then(a, b), c)
  {
    assert a.visits + (b.visits + c.visits) == (a.visits + b.visits) + c.visits;
  }

  /** An error ends the loop; the entries after it do not change the outcome. */
  lemma {:induction false} ReachedStop(t: Tree, follow: bool, path: Path, at: Path, via: set<Path>, names: seq<string>, i: nat,
      before: seq<Visit>, after: seq<Visit>, err: Option<WalkError>)
    requires WellFormed(t) && at in t && t[at].Dir? && i < |names|
    requires forall k :: 0 <= k < |names| ==> names[k] in t[at].names
    requires err.Some? && Reached(before, after, err, WalkNames(t, follow, path, at, via, names[..i + 1]))
    ensures Reached(before, after, err, WalkNames(t, follow, path, at, via, names))
    decreases |names| - i
  {
    if i + 1 == |names| {
      assert names[..i + 1] == names;
    } else {
      hide Reached, WalkEntry, WalkNames, WellFormed;
      NamesSplit(t, follow, path, at, via, names, i + 1);
      ReachedThen(before, after, after, err, err, WalkNames(t, follow, path, at, via, names[..i + 1]), WalkEntry(t, follow, path, at, via, names[i + 1]));
      ReachedStop(t, follow, path, at, via, names, i + 1, before, after, err);
    }
  }

  /** `GoTar` over a tree that does not change: the estimating and the archiving walk run on their own, and
      each stops at its own errors. When both succeed, as many bytes are done as were estimated, and that
      is the size of the files the walk meets. */
  method GoTar(t: Tree, follow: bool, root: Path, estimating: Faults, archiving: Faults)
    returns (totalSize: nat, doneSize: nat, estErr: Option<WalkError>, err: Option<WalkError>)
    requires WellFormed(t) && root in t
    ensures estErr.None? && err.None? ==>
      totalSize == doneSize == SizeOf(WalkFrom(t, follow, root).visits) && WalkFrom(t, follow, root).err.None?
    ensures estErr.None? ==> totalSize == SizeOf(WalkFrom(t, follow, root).visits)
  {
    ghost var whole := WalkFrom(t, follow, root).visits;
    assert [] + whole == whole;
    var estimate := new Walker();
    estErr := estimate.FindFiles(t, follow, root, estimating);
    var archive := new Walker();
    err := archive.FindFiles(t, follow, root, archiving);
    totalSize, doneSize := estimate.size, archive.size;
  }
}
