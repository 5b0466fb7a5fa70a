/** The two goroutines of `GoTar` in pkg/utils/archive/tarball.go: one estimates and one archives, over the
    same files, and they share the one error of the progress. */
module TarProgress {
  import opened Results

  type Error = string

  /** What one walk over the tree meets: the sizes counted for each visit, and how the walk itself ends. */
  datatype Whole = Whole(sizes: seq<nat>, walkErr: Option<Error>)

  /** The estimating goroutine, with its result once it is over. */
  datatype Estimate = Running | Over(result: Option<Error>)

  /** How the archiving goroutine ends: stopped by a panic of its walk, or by closing the archive after the
      walk, which works, fails or panics. */
  datatype Ending =
    | Panicked
    | Closed(walk: Option<Error>, fault: Option<Error>)
    | ClosePanicked(walk: Option<Error>, panic: Error)

  datatype Archive = Walking | Closing(walk: Option<Error>) | Ended(how: Ending)

  /** `saw` is where archiving was when the estimate ended. */
  datatype State = State(
    estPos: nat, totalSize: nat, est: Estimate, saw: Archive,
    tarPos: nat, doneSize: nat, tar: Archive,
    err: Option<Error>)

  datatype Step =
    | EstVisit
    | EstStop
    | EstFault(e: Error)
    | EstEnd
    | TarVisit
    | TarStop
    | TarFault(e: Error, copied: nat)
    | TarPanic(copied: nat)
    | TarEnd
    | Close
    | CloseFault(e: Error)
    | ClosePanic(e: Error)

  const START := State(0, 0, Running, Walking, 0, 0, Walking, None)

  /** Callbacks look at the shared error first. A walk can fail at any time. */
  predicate Enabled(w: Whole, s: State, step: Step) {
    match step
    case EstVisit => s.est.Running? && s.estPos < |w.sizes| && s.err.None?
    case EstStop => s.est.Running? && s.estPos < |w.sizes| && s.err.Some?
    case EstFault(_) => s.est.Running?
    case EstEnd => s.est.Running? && s.estPos == |w.sizes|
    case TarVisit => s.tar.Walking? && s.tarPos < |w.sizes| && s.err.None?
    case TarStop => s.tar.Walking? && s.tarPos < |w.sizes| && s.err.Some?
    case TarFault(_, _) => s.tar.Walking?
    case TarPanic(_) => s.tar.Walking?
    case TarEnd => s.tar.Walking? && s.tarPos == |w.sizes|
    case Close => s.tar.Closing?
    case CloseFault(_) => s.tar.Closing?
    case ClosePanic(_) => s.tar.Closing?
  }

  /** The estimate writes the shared error only if it has one. */
  function EndEst(s: State, result: Option<Error>): State {
    s.(est := Over(result), err := if result.Some? then result else s.err, saw := s.tar)
  }

  /** The walk that archives writes the shared error in any case. */
  function EndWalk(s: State, result: Option<Error>): State {
    s.(tar := Closing(result), err := result)
  }

  /** A panic of the walk is recovered by the deferred function that closes the archive, which then does
      nothing, so that neither the walk nor the outer handler writes the shared error. An error of closing is
      dropped. Only a panic of closing comes to the outer handler. */
  function Do(w: Whole, s: State, step: Step): State
    requires Enabled(w, s, step)
  {
    match step
    case EstVisit => s.(estPos := s.estPos + 1, totalSize := s.totalSize + w.sizes[s.estPos])
    case EstStop => EndEst(s, s.err)
    case EstFault(e) => EndEst(s, Some(e))
    case EstEnd => EndEst(s, w.walkErr)
    case TarVisit => s.(tarPos := s.tarPos + 1, doneSize := s.doneSize + w.sizes[s.tarPos])
    case TarStop => EndWalk(s, s.err)
    case TarFault(e, copied) => EndWalk(s.(doneSize := s.doneSize + copied), Some(e))
    case TarPanic(copied) => s.(doneSize := s.doneSize + copied, tar := Ended(Panicked))
    case TarEnd => EndWalk(s, w.walkErr)
    case Close => s.(tar := Ended(Closed(s.tar.walk, None)))
    case CloseFault(e) => s.(tar := Ended(Closed(s.tar.walk, Some(e))))
    case ClosePanic(e) => s.(tar := Ended(ClosePanicked(s.tar.walk, e)), err := Some(e))
  }

  ghost predicate IsRun(w: Whole, ss: seq<State>, steps: seq<Step>) {
    && |ss| == |steps| + 1 && ss[0] == START
    && forall k :: 0 <= k < |steps| ==> Enabled(w, ss[k], steps[k]) && ss[k + 1] == Do(w, ss[k], steps[k])
  }

  function Sum(sizes: seq<nat>): nat {
    if sizes == [] then 0 else Sum(sizes[..|sizes| - 1]) + sizes[|sizes| - 1]
  }

  // ---- the invariant -----------------------------------------------------------------------------

  ghost predicate EstOk(w: Whole, s: State) {
    && s.estPos <= |w.sizes| && s.totalSize == Sum(w.sizes[..s.estPos])
    && (s.est == Over(None) ==> s.estPos == |w.sizes| && w.walkErr.None?)
  }

  /** The walk of the archive came to its end. */
  predicate Walked(tar: Archive) {
    match tar
    case Walking => false
    case Closing(walk) => walk.None?
    case Ended(Panicked) => false
    case Ended(Closed(walk, _)) => walk.None?
    case Ended(ClosePanicked(walk, _)) => walk.None?
  }

  ghost predicate TarOk(w: Whole, s: State) {
    && s.tarPos <= |w.sizes|
    && (s.tar.Walking? || Walked(s.tar) ==> s.doneSize == Sum(w.sizes[..s.tarPos]))
    && (Walked(s.tar) ==> s.tarPos == |w.sizes| && w.walkErr.None?)
  }

  /** The error that the estimate brings, none while it goes on. */
  function EstErr(s: State): Option<Error> {
    if s.est.Over? then s.est.result else None
  }

  /** The shared error, told from how and in which order the goroutines ended: an error of the estimate stays
      unless archiving writes after it. */
  function Reported(s: State): Option<Error> {
    match s.tar
    case Walking => EstErr(s)
    case Ended(Panicked) => EstErr(s)
    case Closing(walk) => if EstErr(s).Some? && !s.saw.Walking? then EstErr(s) else walk
    case Ended(Closed(walk, _)) => if EstErr(s).Some? && !s.saw.Walking? then EstErr(s) else walk
    case Ended(ClosePanicked(_, e)) => if EstErr(s).Some? && s.saw.Ended? then EstErr(s) else Some(e)
  }

  ghost predicate ErrOk(s: State) {
    && s.err == Reported(s)
    && (s.est.Over? && !s.saw.Walking? ==> !s.tar.Walking?)
    && (s.est.Over? && s.saw.Ended? ==> s.tar.Ended?)
  }

  ghost predicate Inv(w: Whole, s: State) {
    EstOk(w, s) && TarOk(w, s) && ErrOk(s)
  }

  lemma SumNext(sizes: seq<nat>, k: nat)
    requires k < |sizes|
    ensures Sum(sizes[..k + 1]) == Sum(sizes[..k]) + sizes[k]
  {
    assert sizes[..k + 1][..k] == sizes[..k];
  }

  /** Every step of either goroutine keeps the invariant. */
  lemma StepKeeps(w: Whole, s: State, step: Step)
    requires Inv(w, s) && Enabled(w, s, step)
    ensures Inv(w, Do(w, s, step))
  {
    if step == EstVisit {
      SumNext(w.sizes, s.estPos);
    }
    if step == TarVisit {
      SumNext(w.sizes, s.tarPos);
    }
    hide Sum;
  }

  lemma {:induction false} RunKeeps(w: Whole, ss: seq<State>, steps: seq<Step>, k: nat)
    requires IsRun(w, ss, steps) && k < |ss|
    ensures Inv(w, ss[k])
  {
    hide Enabled, Do;
    if k == 0 {
      assert w.sizes[..0] == [];
    } else {
      hide Inv;
      RunKeeps(w, ss, steps, k - 1);
      StepKeeps(w, ss[k - 1], steps[k - 1]);
    }
  }

  // ---- what is reported --------------------------------------------------------------------------

  ghost predicate Finished(s: State) {
    s.est.Over? && s.tar.Ended?
  }

  /** The archive is complete: its walk went through all files, and closing wrote what was left. */
  predicate Archived(s: State) {
    s.tar == Ended(Closed(None, None))
  }

  /** Main result: without an error and without a panic all files have been written, whatever the estimate
      did, and an error of the walk or a panic of closing is never lost. */
  lemma NoErrorMeansWritten(w: Whole, ss: seq<State>, steps: seq<Step>)
    requires IsRun(w, ss, steps) && Finished(ss[|steps|])
    ensures var s := ss[|steps|];
      && s.err == Reported(s)
      && (s.err.None? && !s.tar.how.Panicked? ==>
        s.tar.how.Closed? && w.walkErr.None? && s.tarPos == |w.sizes| && s.doneSize == Sum(w.sizes))
      && (s.tar.how.ClosePanicked? || (s.tar.how.Closed? && s.tar.how.walk.Some?) ==> s.err.Some?)
      && (Archived(s) ==> w.walkErr.None? && s.tarPos == |w.sizes| && s.doneSize == Sum(w.sizes))
      && (s.est.result.None? ==> s.totalSize == Sum(w.sizes))
  {
    RunKeeps(w, ss, steps, |steps|);
    assert w.sizes[..|w.sizes|] == w.sizes;
  }

  /** The walk of the archive panicked, or it ended without error and closing failed. */
  predicate FailsSilently(how: Ending) {
    how.Panicked? || (how.Closed? && how.walk.None? && how.fault.Some?)
  }

  /** Main result: archiving fails and no error is reported if and only if its walk panics, or goes through
      all files and closing fails, and the estimate does not report an error that stays. */
  lemma FailureIsLostIff(w: Whole, ss: seq<State>, steps: seq<Step>)
    requires IsRun(w, ss, steps) && Finished(ss[|steps|])
    ensures var s := ss[|steps|];
      !Archived(s) && s.err.None? <==>
        && FailsSilently(s.tar.how)
        && (s.est.result.None? || (s.tar.how.Closed? && s.saw.Walking?))
  {
    RunKeeps(w, ss, steps, |steps|);
  }

  /** Such a run: the only file is estimated and then its archiving panics. Nothing is archived, and no error
      is reported. */
  lemma OnePanicIsLost(size: nat) returns (ss: seq<State>, steps: seq<Step>)
    ensures IsRun(Whole([size], None), ss, steps) && Finished(ss[|steps|])
    ensures ss[|steps|].tar == Ended(Panicked) && ss[|steps|].err.None? && ss[|steps|].tarPos == 0
  {
    var w := Whole([size], None);
    steps := [EstVisit, EstEnd, TarPanic(0)];
    var s1 := Do(w, START, steps[0]);
    var s2 := Do(w, s1, steps[1]);
    ss := [START, s1, s2, Do(w, s2, steps[2])];
  }

  /** Another one: all is written but the end of the archive. */
  lemma OneCloseFaultIsLost(e: Error) returns (ss: seq<State>, steps: seq<Step>)
    ensures IsRun(Whole([], None), ss, steps) && Finished(ss[|steps|])
    ensures ss[|steps|].tar == Ended(Closed(None, Some(e))) && ss[|steps|].err.None?
  {
    var w := Whole([], None);
    steps := [EstEnd, TarEnd, CloseFault(e)];
    var s1 := Do(w, START, steps[0]);
    var s2 := Do(w, s1, steps[1]);
    ss := [START, s1, s2, Do(w, s2, steps[2])];
  }

  /** Main result: an error of the estimate is lost if and only if the archive's walk went through all files
      and ended after it, and closing did not panic. */
  lemma EstimateErrorIsLostIff(w: Whole, ss: seq<State>, steps: seq<Step>)
    requires IsRun(w, ss, steps) && Finished(ss[|steps|]) && ss[|steps|].est.result.Some?
    ensures var s := ss[|steps|];
      s.err.None? <==> s.tar.how.Closed? && s.tar.how.walk.None? && s.saw.Walking?
  {
    RunKeeps(w, ss, steps, |steps|);
  }

  /** Such a run: one file, archived; then the estimate fails; then the archive ends, and reports no error,
      with more bytes done than estimated. */
  lemma OneEstimateErrorIsLost(size: nat, e: Error) returns (ss: seq<State>, steps: seq<Step>)
    ensures IsRun(Whole([size], None), ss, steps) && Finished(ss[|steps|]) && Archived(ss[|steps|])
    ensures ss[|steps|].est == Over(Some(e)) && ss[|steps|].err.None?
    ensures ss[|steps|].totalSize == 0 && ss[|steps|].doneSize == size
  {
    var w := Whole([size], None);
    steps := [TarVisit, EstFault(e), TarEnd, Close];
    var s1 := Do(w, START, steps[0]);
    var s2 := Do(w, s1, steps[1]);
    var s3 := Do(w, s2, steps[2]);
    ss := [START, s1, s2, s3, Do(w, s3, steps[3])];
  }
}
