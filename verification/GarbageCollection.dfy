/** The code of one garbage collector worker, running among others: `Pop`, `DestroyGarbage`, `DeletePVC`
    and `Blocking`. What the others do between any two calls, and which calls fail, are inputs. */
module GarbageCollection {
  import opened Results
  import opened GarbageProtocol

  type Error = string

  /** `others(n)` is what everybody else does before the worker's n-th call, `patience` the number of polls
      after which the context is over. */
  datatype Weather = Weather(
    others: nat -> seq<Step>,
    beginErr: Option<Error>,
    queryErr: Option<Error>,
    scanErr: Option<Error>,
    deleteErr: Option<Error>,
    deleteTook: bool,
    patience: nat,
    ctxErr: Error,
    pollErr: nat -> Option<Error>,
    commitErr: Option<Error>,
    commitTook: bool)

  ghost predicate Calm(weather: Weather) {
    && weather.beginErr.None? && weather.queryErr.None? && weather.scanErr.None?
    && weather.deleteErr.None? && weather.commitErr.None?
  }

  /** What a worker may count on while others act: its own place, that its record's volume stays gone once it
      has seen that, and, if nobody uses the name again, that it stays gone before. */
  ghost predicate Rely(s: State, s': State, w: nat, quiet: bool) {
    && At(s', w) == At(s, w)
    && (!At(s, w).Idle? && At(s, w).g.volume !in s.pvcs && (quiet || At(s, w).Destroyed?) ==> At(s, w).g.volume !in s'.pvcs)
  }

  /** Nobody tries to create a volume of this name. */
  predicate Quiet(tries: seq<Step>, volume: string) {
    forall i :: 0 <= i < |tries| ==> tries[i] != Create(volume)
  }

  lemma OthersRespect(s: State, step: Step, w: nat)
    requires Inv(s) && Enabled(s, step) && Actor(step) != Some(w)
    ensures Rely(s, Do(s, step), w, !At(s, w).Idle? && step != Create(At(s, w).g.volume))
  {
    if At(s, w).Destroyed? {
      HeldIsGarbage(s, w);
      assert Committing(s, w, At(s, w).g.volume);
    }
  }

  datatype DeleteAnswer = Accepted | NotFound | DeleteError(err: Error)

  datatype GetAnswer = Exists | Missing | GetError(err: Error)

  class System {
    var s: State
    ghost var ss: seq<State>
    ghost var steps: seq<Step>

    /** The state is the end of a run of the protocol. */
    ghost predicate Valid()
      reads this
    {
      IsRun(ss, steps) && s == ss[|steps|]
    }

    constructor (s: State)
      requires Init(s)
      ensures Valid() && this.s == s
    {
      this.s, ss, steps := s, [s], [];
    }

    lemma ValidInv()
      requires Valid()
      ensures Inv(s)
    {
      RunKeeps(ss, steps, |steps|);
    }

    method Take(step: Step)
      requires Valid() && Enabled(s, step)
      modifies this
      ensures Valid() && s == Do(old(s), step)
      ensures ss == old(ss) + [s] && steps == old(steps) + [step]
    {
      s := Do(s, step);
      ss, steps := ss + [s], steps + [step];
    }

    /** Everybody else, doing whatever is possible of what they try. */
    method Others(w: nat, tries: seq<Step>)
      requires Valid()
      modifies this
      ensures Valid() && Rely(old(s), s, w, !At(old(s), w).Idle? && Quiet(tries, At(old(s), w).g.volume))
    {
      for i := 0 to |tries|
        invariant Valid() && Rely(old(s), s, w, !At(old(s), w).Idle? && Quiet(tries, At(old(s), w).g.volume))
      {
        hide Enabled, Do, IsRun;
        if Actor(tries[i]) != Some(w) && Enabled(s, tries[i]) {
          ValidInv();
          OthersRespect(s, tries[i], w);
          Take(tries[i]);
        }
      }
    }

    /** The delete call of the cluster's API. A failed call may have been carried out. */
    method RequestDelete(w: nat, weather: Weather) returns (answer: DeleteAnswer)
      requires Valid() && At(s, w).Popped?
      modifies this
      ensures Valid()
      ensures answer.Accepted? ==> At(s, w) == Polling(At(old(s), w).g)
      ensures answer.NotFound? ==> At(s, w) == Destroyed(At(old(s), w).g)
      ensures answer.DeleteError? ==> At(s, w) == Failing(At(old(s), w).g)
      ensures weather.deleteErr.None? ==> !answer.DeleteError? && (answer.NotFound? <==> At(old(s), w).g.volume !in old(s).pvcs)
    {
      if weather.deleteErr.Some? {
        Take(DeleteFailed(w, weather.deleteTook && At(s, w).g.volume in s.pvcs));
        return DeleteError(weather.deleteErr.value);
      }
      if At(s, w).g.volume in s.pvcs {
        Take(DeleteAccepted(w));
        return Accepted;
      }
      Take(DeleteNotFound(w));
      return NotFound;
    }

    /** The get call of the cluster's API. */
    method Get(w: nat, err: Option<Error>) returns (answer: GetAnswer)
      requires Valid() && At(s, w).Polling?
      modifies this
      ensures Valid()
      ensures answer.Exists? ==> At(s, w) == At(old(s), w)
      ensures answer.Missing? ==> At(s, w) == Destroyed(At(old(s), w).g)
      ensures answer.GetError? ==> At(s, w) == Failing(At(old(s), w).g)
    {
      if err.Some? {
        Take(PollFailed(w));
        return GetError(err.value);
      }
      if At(s, w).g.volume in s.pvcs {
        Take(PollExists(w));
        return Exists;
      }
      Take(PollNotFound(w));
      return Missing;
    }

    /** `retry.Blocking` around the poll of `DeletePVC`: wait, ask, and go on while the claim exists. */
    method Blocking(w: nat, weather: Weather) returns (err: Option<Error>)
      requires Valid() && At(s, w).Polling?
      modifies this
      ensures Valid()
      ensures At(s, w) == if err.None? then Destroyed(At(old(s), w).g) else Failing(At(old(s), w).g)
    {
      ghost var g := At(s, w).g;
      var k := 0;
      while true
        invariant Valid() && At(s, w) == Polling(g) && 0 <= k <= weather.patience
        decreases weather.patience - k
      {
        hide Enabled, Do, IsRun;
        if k == weather.patience {
          GiveUp(w);
          return Some(weather.ctxErr);
        }
        Others(w, weather.others(k + 2));
        var answer := Get(w, weather.pollErr(k));
        match answer
        case Missing => return None;
        case GetError(e) => return Some(e);
        case Exists => k := k + 1;
      }
    }

    /** The context is over before the next poll. */
    method GiveUp(w: nat)
      requires Valid() && At(s, w).Polling?
      modifies this
      ensures Valid() && At(s, w) == Failing(At(old(s), w).g)
    {
      Take(PollFailed(w));
    }

    /** `DeletePVC` and `DestroyGarbage`: a claim that is not found is a claim that is deleted. */
    method DestroyGarbage(w: nat, weather: Weather) returns (err: Option<Error>)
      requires Valid() && At(s, w).Popped?
      modifies this
      ensures Valid()
      ensures At(s, w) == if err.None? then Destroyed(At(old(s), w).g) else Failing(At(old(s), w).g)
      ensures weather.deleteErr.None? && At(old(s), w).g.volume !in old(s).pvcs && Quiet(weather.others(1), At(old(s), w).g.volume) ==> err.None?
    {
      Others(w, weather.others(1));
      var answer := RequestDelete(w, weather);
      match answer
      case NotFound => return None;
      case DeleteError(e) => return Some(e);
      case Accepted => err := Blocking(w, weather);
    }

    /** The select statement: some record that no other transaction holds. */
    method Select(w: nat) returns (g: Option<Garbage>)
      requires Valid() && At(s, w).Idle?
      modifies this
      ensures Valid()
      ensures g.None? ==> s == old(s) && forall knitId :: knitId in s.garbage ==> Locked(s, knitId)
      ensures g.Some? ==> At(s, w) == Popped(g.value) && s.pvcs == old(s).pvcs
    {
      var candidates := set knitId | knitId in s.garbage && !Locked(s, knitId);
      if candidates == {} {
        forall knitId | knitId in s.garbage
          ensures Locked(s, knitId)
        {
          assert knitId !in candidates;
        }
        return None;
      }
      var knitId :| knitId in candidates;
      g := Some(Garbage(knitId, s.garbage[knitId]));
      Take(Begin(w, knitId));
    }

    method EndTransaction(w: nat, step: Step)
      requires Valid() && Enabled(s, step)
      requires step == Commit(w) || step == Rollback(w) || step == CommitFailed(w, false) || step == CommitFailed(w, true)
      modifies this
      ensures Valid() && At(s, w).Idle? && Inv(s)
      ensures var g := At(old(s), w).g;
        if step == Commit(w) || step == CommitFailed(w, true) then
          g.knitId !in s.garbage && g.knitId !in s.knitIds && g.volume !in s.pvcs
        else
          g.knitId in s.garbage && s.garbage[g.knitId] == g.volume
    {
      ValidInv();
      HeldIsGarbage(s, w);
      Take(step);
      ValidInv();
    }

    /** `Pop` with `DestroyGarbage` as its callback. Main result: among any others and under any failures,
        a reported success means that record, knit id and volume are gone; a failure leaves the record for
        the next attempt, except that a commit may take effect unanswered, and then the volume is gone too;
        and a record whose volume is gone already succeeds whenever no call fails and nobody uses the name
        again before the deletion. */
    method Pop(w: nat, weather: Weather) returns (pop: bool, err: Option<Error>, ghost g: Option<Garbage>, ghost gone: bool)
      requires Valid() && At(s, w).Idle?
      modifies this
      ensures Valid() && Inv(s) && At(s, w).Idle?
      ensures pop ==> err.None? && g.Some? && g.value.knitId !in s.garbage && g.value.knitId !in s.knitIds && g.value.volume !in s.pvcs
      ensures !pop && g.Some? ==> err.Some?
      ensures !pop && g.Some? && !(weather.commitErr.Some? && weather.commitTook) ==>
        g.value.knitId in s.garbage && s.garbage[g.value.knitId] == g.value.volume
      ensures !pop && g.Some? && g.value.knitId !in s.garbage ==> g.value.volume !in s.pvcs
      ensures g.Some? && gone && Calm(weather) && Quiet(weather.others(1), g.value.volume) ==> pop
    {
      hide Enabled, Do, IsRun, Inv, WorkerOk;
      pop, err, g, gone := false, None, None, false;
      ValidInv();
      if weather.beginErr.Some? {
        return false, weather.beginErr, None, false;
      }
      Others(w, weather.others(0));
      ValidInv();
      if weather.queryErr.Some? {
        return false, weather.queryErr, None, false;
      }
      var selected := Select(w);
      ValidInv();
      if selected.None? {
        return false, weather.commitErr, None, false;
      }
      g := selected;
      gone := selected.value.volume !in s.pvcs;
      if weather.scanErr.Some? {
        CanRollback(s, w);
        EndTransaction(w, Rollback(w));
        return false, weather.scanErr, g, gone;
      }
      var failure := DestroyGarbage(w, weather);
      if failure.Some? {
        CanRollback(s, w);
        EndTransaction(w, Rollback(w));
        return false, failure, g, gone;
      }
      Others(w, weather.others(weather.patience + 2));
      CanCommit(s, w);
      if weather.commitErr.Some? {
        EndTransaction(w, CommitFailed(w, weather.commitTook));
        return false, weather.commitErr, g, gone;
      }
      EndTransaction(w, Commit(w));
      return true, None, g, gone;
    }
  }

  lemma CanRollback(s: State, w: nat)
    requires !At(s, w).Idle?
    ensures Enabled(s, Rollback(w))
  {
  }

  lemma CanCommit(s: State, w: nat)
    requires At(s, w).Destroyed?
    ensures Enabled(s, Commit(w)) && Enabled(s, CommitFailed(w, true)) && Enabled(s, CommitFailed(w, false))
  {
  }
}
