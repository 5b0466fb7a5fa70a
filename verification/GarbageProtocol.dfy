/** Collecting garbage volumes with any number of workers: the transaction of
    pkg/domain/garbage/db/postgres/garbage.go around the deletion of
    pkg/domain/knitfab/k8s/cluster/cluster.go, as a state machine. Deleting a volume is asynchronous,
    and every call can fail, take effect without an answer, or never return. */
module GarbageProtocol {
  import opened Results

  /** A row of `garbage`. */
  datatype Garbage = Garbage(knitId: string, volume: string)

  /** Where a worker is; whoever is not idle holds the row lock of its record. */
  datatype Worker = Idle | Popped(g: Garbage) | Polling(g: Garbage) | Destroyed(g: Garbage) | Failing(g: Garbage)

  /** The committed tables, the volume claims of the cluster (some of them terminating), and the workers. */
  datatype State = State(
    garbage: map<string, string>,
    knitIds: set<string>,
    pvcs: set<string>,
    terminating: set<string>,
    workers: map<nat, Worker>)

  datatype Step =
    | Begin(w: nat, knitId: string)
    | DeleteAccepted(w: nat)
    | DeleteNotFound(w: nat)
    | DeleteFailed(w: nat, took: bool)
    | PollExists(w: nat)
    | PollNotFound(w: nat)
    | PollFailed(w: nat)
    | Commit(w: nat)
    | CommitFailed(w: nat, took: bool)
    | Rollback(w: nat)
    | Crash(w: nat)
    | Finalize(name: string)
    | Vanish(name: string)
    | Create(name: string)
    | Discard(knitId: string, volume: string)

  function At(s: State, w: nat): Worker {
    if w in s.workers then s.workers[w] else Idle
  }

  predicate Holds(s: State, w: nat, knitId: string) {
    !At(s, w).Idle? && At(s, w).g.knitId == knitId
  }

  predicate Locked(s: State, knitId: string) {
    exists w :: w in s.workers && Holds(s, w, knitId)
  }

  function Move(s: State, w: nat, next: Worker): State {
    s.(workers := s.workers[w := next])
  }

  /** Steps of the cluster and of the rest of the system do not belong to a worker. */
  function Actor(step: Step): Option<nat> {
    match step
    case Finalize(_) => None
    case Vanish(_) => None
    case Create(_) => None
    case Discard(_, _) => None
    case Begin(w, _) => Some(w)
    case DeleteAccepted(w) => Some(w)
    case DeleteNotFound(w) => Some(w)
    case DeleteFailed(w, _) => Some(w)
    case PollExists(w) => Some(w)
    case PollNotFound(w) => Some(w)
    case PollFailed(w) => Some(w)
    case Commit(w) => Some(w)
    case CommitFailed(w, _) => Some(w)
    case Rollback(w) => Some(w)
    case Crash(w) => Some(w)
  }

  /** The worker has seen that the volume is gone, and is about to commit. */
  predicate Committing(s: State, w: nat, volume: string) {
    w in s.workers && s.workers[w].Destroyed? && s.workers[w].g.volume == volume
  }

  predicate AboutToGo(s: State, volume: string) {
    exists w :: w in s.workers && Committing(s, w, volume)
  }

  /** `Create` carries the one thing asked of the rest of the system: a volume's name is not used again
      between the last poll for it and the commit. */
  predicate Enabled(s: State, step: Step) {
    match step
    case Begin(w, knitId) => At(s, w).Idle? && knitId in s.garbage && !Locked(s, knitId)
    case DeleteAccepted(w) => At(s, w).Popped? && At(s, w).g.volume in s.pvcs
    case DeleteNotFound(w) => At(s, w).Popped? && At(s, w).g.volume !in s.pvcs
    case DeleteFailed(w, took) => At(s, w).Popped? && (took ==> At(s, w).g.volume in s.pvcs)
    case PollExists(w) => At(s, w).Polling? && At(s, w).g.volume in s.pvcs
    case PollNotFound(w) => At(s, w).Polling? && At(s, w).g.volume !in s.pvcs
    case PollFailed(w) => At(s, w).Polling?
    case Commit(w) => At(s, w).Destroyed?
    case CommitFailed(w, _) => At(s, w).Destroyed?
    case Rollback(w) => !At(s, w).Idle?
    case Crash(w) => true
    case Finalize(name) => name in s.terminating
    case Vanish(name) => name in s.pvcs
    case Create(name) => name !in s.pvcs && !AboutToGo(s, name)
    case Discard(knitId, volume) => knitId in s.knitIds && knitId !in s.garbage
  }

  function Remove(s: State, g: Garbage): State {
    s.(garbage := s.garbage - {g.knitId}, knitIds := s.knitIds - {g.knitId})
  }

  function Do(s: State, step: Step): State
    requires Enabled(s, step)
  {
    match step
    case Begin(w, knitId) => Move(s, w, Popped(Garbage(knitId, s.garbage[knitId])))
    case DeleteAccepted(w) => Move(s.(terminating := s.terminating + {At(s, w).g.volume}), w, Polling(At(s, w).g))
    case DeleteNotFound(w) => Move(s, w, Destroyed(At(s, w).g))
    case DeleteFailed(w, took) =>
      Move(if took then s.(terminating := s.terminating + {At(s, w).g.volume}) else s, w, Failing(At(s, w).g))
    case PollExists(w) => s
    case PollNotFound(w) => Move(s, w, Destroyed(At(s, w).g))
    case PollFailed(w) => Move(s, w, Failing(At(s, w).g))
    case Commit(w) => Move(Remove(s, At(s, w).g), w, Idle)
    case CommitFailed(w, took) => Move(if took then Remove(s, At(s, w).g) else s, w, Idle)
    case Rollback(w) => Move(s, w, Idle)
    case Crash(w) => Move(s, w, Idle)
    case Finalize(name) => s.(pvcs := s.pvcs - {name}, terminating := s.terminating - {name})
    case Vanish(name) => s.(pvcs := s.pvcs - {name}, terminating := s.terminating - {name})
    case Create(name) => s.(pvcs := s.pvcs + {name})
    case Discard(knitId, volume) => s.(garbage := s.garbage[knitId := volume])
  }

  // ---- the invariant ---------------------------------------------------------------------------

  /** A worker's record is in the table, and a worker past deletion has a volume that is gone. */
  predicate WorkerOk(s: State, w: nat) {
    var at := At(s, w);
    !at.Idle? ==>
      && at.g.knitId in s.garbage && s.garbage[at.g.knitId] == at.g.volume
      && (at.Destroyed? ==> at.g.volume !in s.pvcs)
  }

  /** No record is held twice. */
  ghost predicate Exclusive(s: State) {
    forall v, w :: v != w && !At(s, v).Idle? && !At(s, w).Idle? ==> At(s, v).g.knitId != At(s, w).g.knitId
  }

  ghost predicate Inv(s: State) {
    && (forall w :: WorkerOk(s, w))
    && Exclusive(s)
    && s.terminating <= s.pvcs
    && s.terminating <= s.garbage.Values
    && s.garbage.Keys <= s.knitIds
  }

  ghost predicate Init(s: State) {
    s.workers == map[] && s.terminating == {} && s.garbage.Keys <= s.knitIds
  }

  lemma InitInv(s: State)
    requires Init(s)
    ensures Inv(s)
  {
  }

  lemma MoveKeeps(s: State, w: nat, next: Worker)
    requires Inv(s) && (!next.Idle? ==> next.g.knitId in s.garbage && s.garbage[next.g.knitId] == next.g.volume)
    requires next.Destroyed? ==> next.g.volume !in s.pvcs
    requires !next.Idle? ==> forall v :: v != w ==> !Holds(s, v, next.g.knitId)
    ensures Inv(Move(s, w, next))
  {
    var s' := Move(s, w, next);
    assert forall v :: At(s', v) == if v == w then next else At(s, v);
    forall v | v != w && !At(s, v).Idle? && !next.Idle?
      ensures At(s, v).g.knitId != next.g.knitId
    {
      assert !Holds(s, v, next.g.knitId);
    }
    forall v
      ensures WorkerOk(s', v)
    {
      assert WorkerOk(s, v);
    }
  }

  lemma RequestKeeps(s: State, volume: string)
    requires Inv(s) && volume in s.pvcs && volume in s.garbage.Values
    ensures Inv(s.(terminating := s.terminating + {volume}))
  {
    SameWorkers(s, s.(terminating := s.terminating + {volume}));
  }

  /** Workers and what they rely on are the same. */
  lemma SameWorkers(s: State, s': State)
    requires Inv(s) && s'.workers == s.workers && s'.pvcs <= s.pvcs
    requires forall id :: id in s.garbage ==> id in s'.garbage && s'.garbage[id] == s.garbage[id]
    ensures forall w :: WorkerOk(s', w)
    ensures Exclusive(s')
  {
    forall w
      ensures WorkerOk(s', w)
    {
      assert WorkerOk(s, w);
    }
    assert forall w :: At(s', w) == At(s, w);
  }

  /** Removing a record whose volume is gone, by the one worker that holds it. */
  lemma RemoveKeeps(s: State, w: nat)
    requires Inv(s) && At(s, w).Destroyed?
    ensures Inv(Move(Remove(s, At(s, w).g), w, Idle))
  {
    assert WorkerOk(s, w);
    var g := At(s, w).g;
    var s' := Move(Remove(s, g), w, Idle);
    assert forall v :: At(s', v) == if v == w then Idle else At(s, v);
    forall v
      ensures WorkerOk(s', v)
    {
      assert WorkerOk(s, v);
      assert v != w && !At(s, v).Idle? ==> At(s, v).g.knitId != g.knitId;
    }
    forall name | name in s'.terminating
      ensures name in s'.garbage.Values
    {
      var id :| id in s.garbage && s.garbage[id] == name;
      assert id != g.knitId;
      assert id in s'.garbage;
    }
  }

  lemma NotHeldByOthers(s: State, w: nat)
    requires Inv(s) && !At(s, w).Idle?
    ensures forall v :: v != w ==> !Holds(s, v, At(s, w).g.knitId)
  {
  }

  lemma HeldIsGarbage(s: State, w: nat)
    requires Inv(s) && !At(s, w).Idle?
    ensures At(s, w).g.knitId in s.garbage && s.garbage[At(s, w).g.knitId] == At(s, w).g.volume
    ensures At(s, w).g.volume in s.garbage.Values
    ensures At(s, w).Destroyed? ==> At(s, w).g.volume !in s.pvcs
  {
    assert WorkerOk(s, w);
  }

  /** A new volume keeps the invariant if and only if no worker is about to commit the removal of a record
      that names it. */
  lemma CreateKeepsInvIff(s: State, name: string)
    requires Inv(s)
    ensures Inv(s.(pvcs := s.pvcs + {name})) <==> !AboutToGo(s, name)
  {
    var s' := s.(pvcs := s.pvcs + {name});
    assert forall w :: At(s', w) == At(s, w);
    forall w
      ensures WorkerOk(s, w) && (WorkerOk(s', w) <==> !Committing(s, w, name))
    {
      assert WorkerOk(s, w);
    }
    forall w | w in s.workers && Committing(s, w, name)
      ensures !WorkerOk(s', w)
    {
    }
  }

  /** Steps of the cluster and of the rest of the system. */
  lemma OutsideKeeps(s: State, step: Step)
    requires Inv(s) && Enabled(s, step) && Actor(step).None?
    ensures Inv(Do(s, step))
  {
    var s' := Do(s, step);
    if step.Create? {
      CreateKeepsInvIff(s, step.name);
    } else {
      SameWorkers(s, s');
      if step.Discard? {
        forall name | name in s'.terminating
          ensures name in s'.garbage.Values
        {
          var id :| id in s.garbage && s.garbage[id] == name;
          assert s'.garbage[id] == name;
        }
      }
    }
  }

  /** Main result: every step of every worker, of the cluster and of the rest keeps the invariant. */
  lemma StepKeeps(s: State, step: Step)
    requires Inv(s) && Enabled(s, step)
    ensures Inv(Do(s, step))
  {
    hide Inv;
    var actor := Actor(step);
    if actor.None? {
      OutsideKeeps(s, step);
      return;
    }
    var w := actor.value;
    if !At(s, w).Idle? {
      NotHeldByOthers(s, w);
      HeldIsGarbage(s, w);
    }
    match step
    case Begin(_, knitId) =>
      assert forall v :: Holds(s, v, knitId) ==> v in s.workers;
      MoveKeeps(s, w, Popped(Garbage(knitId, s.garbage[knitId])));
    case DeleteAccepted(_) =>
      RequestThenMove(s, w, Polling(At(s, w).g));
    case DeleteNotFound(_) => MoveKeeps(s, w, Destroyed(At(s, w).g));
    case DeleteFailed(_, took) =>
      if took {
        RequestThenMove(s, w, Failing(At(s, w).g));
      } else {
        MoveKeeps(s, w, Failing(At(s, w).g));
      }
    case PollExists(_) =>
    case PollNotFound(_) => MoveKeeps(s, w, Destroyed(At(s, w).g));
    case PollFailed(_) => MoveKeeps(s, w, Failing(At(s, w).g));
    case Commit(_) => RemoveKeeps(s, w);
    case CommitFailed(_, took) =>
      if took {
        RemoveKeeps(s, w);
      } else {
        MoveKeeps(s, w, Idle);
      }
    case Rollback(_) => MoveKeeps(s, w, Idle);
    case Crash(_) => MoveKeeps(s, w, Idle);
  }

  lemma RequestThenMove(s: State, w: nat, next: Worker)
    requires Inv(s) && !At(s, w).Idle? && At(s, w).g.volume in s.pvcs
    requires !next.Idle? && !next.Destroyed? && next.g == At(s, w).g
    ensures Inv(Move(s.(terminating := s.terminating + {At(s, w).g.volume}), w, next))
  {
    NotHeldByOthers(s, w);
    HeldIsGarbage(s, w);
    RequestKeeps(s, At(s, w).g.volume);
    var s1 := s.(terminating := s.terminating + {At(s, w).g.volume});
    assert forall v, id :: Holds(s1, v, id) == Holds(s, v, id);
    MoveKeeps(s1, w, next);
  }

  // ---- whole runs ------------------------------------------------------------------------------

  ghost predicate IsRun(ss: seq<State>, steps: seq<Step>) {
    && |ss| == |steps| + 1 && Init(ss[0])
    && forall k :: 0 <= k < |steps| ==> Enabled(ss[k], steps[k]) && ss[k + 1] == Do(ss[k], steps[k])
  }

  lemma {:induction false} RunKeeps(ss: seq<State>, steps: seq<Step>, k: nat)
    requires IsRun(ss, steps) && k < |ss|
    ensures Inv(ss[k])
  {
    hide Inv, Enabled, Do;
    if k == 0 {
      InitInv(ss[0]);
    } else {
      RunKeeps(ss, steps, k - 1);
      StepKeeps(ss[k - 1], steps[k - 1]);
    }
  }

  /** Main result, safety: when a record leaves the table for good its volume is already gone. */
  lemma RemovedOnlyAfterVolume(ss: seq<State>, steps: seq<Step>, k: nat, knitId: string)
    requires IsRun(ss, steps) && k < |steps|
    requires knitId in ss[k].garbage && knitId !in ss[k + 1].garbage
    ensures ss[k].garbage[knitId] !in ss[k].pvcs && ss[k].garbage[knitId] !in ss[k + 1].pvcs
  {
    RunKeeps(ss, steps, k);
    var w := Actor(steps[k]).value;
    HeldIsGarbage(ss[k], w);
  }

  /** No two workers ever hold one record. */
  lemma OneHolder(ss: seq<State>, steps: seq<Step>, k: nat, v: nat, w: nat)
    requires IsRun(ss, steps) && k < |ss| && !At(ss[k], v).Idle? && !At(ss[k], w).Idle?
    requires At(ss[k], v).g.knitId == At(ss[k], w).g.knitId
    ensures v == w
  {
    RunKeeps(ss, steps, k);
  }

  /** A volume disappears only while a garbage record names it, unless someone else removed it. */
  lemma OnlyGarbageDisappears(ss: seq<State>, steps: seq<Step>, k: nat, name: string)
    requires IsRun(ss, steps) && k < |steps|
    requires name in ss[k].pvcs && name !in ss[k + 1].pvcs
    ensures steps[k] == Vanish(name) || (steps[k] == Finalize(name) && name in ss[k].garbage.Values && name in ss[k + 1].garbage.Values)
  {
    RunKeeps(ss, steps, k);
  }

  /** Only a commit removes a record, and it removes the record's knit id with it; nothing else changes
      either table, except that new garbage arrives. */
  lemma TablesChangeTogether(s: State, step: Step, knitId: string)
    requires Inv(s) && Enabled(s, step)
    ensures var s' := Do(s, step);
      && (knitId in s.garbage && knitId !in s'.garbage ==> knitId !in s'.knitIds && (step.Commit? || step == CommitFailed(Actor(step).value, true)))
      && (knitId in s.knitIds && knitId !in s'.knitIds ==> knitId in s.garbage && knitId !in s'.garbage)
      && (knitId in s.garbage && knitId in s'.garbage ==> s'.garbage[knitId] == s.garbage[knitId])
  {
    if Actor(step).Some? && !At(s, Actor(step).value).Idle? {
      HeldIsGarbage(s, Actor(step).value);
    }
  }

  /** A record whose volume was deleted before its worker failed to commit is finished by the next
      attempt: the deletion can only answer that there is nothing left, and that counts as success. */
  lemma RetrySucceeds(s: State, w: nat, knitId: string)
    requires Inv(s) && At(s, w).Idle? && knitId in s.garbage && !Locked(s, knitId)
    requires s.garbage[knitId] !in s.pvcs
    ensures Enabled(s, Begin(w, knitId))
    ensures var s1 := Do(s, Begin(w, knitId));
      && !Enabled(s1, DeleteAccepted(w)) && Enabled(s1, DeleteNotFound(w))
      && var s2 := Do(s1, DeleteNotFound(w));
      && Enabled(s2, Commit(w))
      && Do(s2, Commit(w)).garbage == s.garbage - {knitId}
      && Do(s2, Commit(w)).knitIds == s.knitIds - {knitId}
      && At(Do(s2, Commit(w)), w).Idle?
  {
  }

  // ---- names used again ------------------------------------------------------------------------

  /** The worker can commit the removal of a record whose volume is there. */
  ghost predicate CanLeak(s: State, w: nat, knitId: string, volume: string) {
    && Enabled(s, Commit(w)) && knitId in s.garbage && s.garbage[knitId] == volume
    && knitId !in Do(s, Commit(w)).garbage && volume in Do(s, Commit(w)).pvcs
  }

  /** Main result: a name can be used again without a leak exactly if no worker is about to commit. */
  lemma LeaksIffAboutToGo(s: State, name: string)
    requires Inv(s)
    ensures (exists w, knitId :: CanLeak(s.(pvcs := s.pvcs + {name}), w, knitId, name)) <==> AboutToGo(s, name)
  {
    var s' := s.(pvcs := s.pvcs + {name});
    assert forall w :: At(s', w) == At(s, w);
    forall w, knitId | CanLeak(s', w, knitId, name)
      ensures Committing(s, w, name)
    {
      HeldIsGarbage(s, w);
    }
    forall w | w in s.workers && Committing(s, w, name)
      ensures CanLeak(s', w, At(s, w).g.knitId, name)
    {
      HeldIsGarbage(s, w);
    }
  }

  /** Such a state is reached: a worker deletes the volume of a record, and sees it gone. */
  lemma AboutToGoIsReached(knitId: string, volume: string) returns (ss: seq<State>, steps: seq<Step>)
    ensures IsRun(ss, steps) && AboutToGo(ss[|steps|], volume)
  {
    var g := Garbage(knitId, volume);
    var s0 := State(map[knitId := volume], {knitId}, {volume}, {}, map[]);
    steps := [Begin(0, knitId), DeleteAccepted(0), Finalize(volume), PollNotFound(0)];
    var s1 := Do(s0, steps[0]);
    var s2 := Do(s1, steps[1]);
    var s3 := Do(s2, steps[2]);
    ss := [s0, s1, s2, s3, Do(s3, steps[3])];
    assert At(s1, 0) == Popped(g) && At(s2, 0) == Polling(g) && At(s3, 0) == Polling(g);
    assert Committing(ss[4], 0, volume);
  }
}
