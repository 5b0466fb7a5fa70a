/** What the housekeeping loop promises over whole runs: completeness under Backlog, fairness, debouncing. */
module Turns {
  import opened Results
  import opened Sets
  import opened Strings
  import opened Sorting
  import opened Cyclic
  import opened Recurring
  import opened Housekeeping

  // ---- one sweep with a fixed clock ------------------------------------------------------------

  /** The clock stands still, nothing is locked, and every transaction commits. */
  ghost predicate Steady(att: Attempt, now: int, pods: string -> PodView) {
    && att.now == now && att.locked == {} && (forall n :: att.pods(n) == pods(n))
    && att.beginErr.None? && att.selectErr.None? && att.bodyErr.None? && att.execErr.None? && att.commitErr.None?
  }

  function Due(agents: map<string, int>, now: int): set<string> {
    set n | n in agents && agents[n] < now
  }

  /** The agent's pod is missing, or it is over and was closed without error. */
  predicate Accepted(pods: string -> PodView, name: string) {
    var pod := pods(name);
    pod.Missing? || (pod.Found? && pod.phase in {Succeeded, Failed, Stucking} && pod.closeErr.None?)
  }

  /** The table after a sweep: due agents are gone or suspended, all others are as before. */
  ghost predicate Swept(before: map<string, int>, after: map<string, int>, now: int, debounce: int, pods: string -> PodView) {
    && (forall n :: n in after ==> n in before)
    && (forall n :: n in before && n !in Due(before, now) ==> n in after && after[n] == before[n])
    && (forall n :: n in Due(before, now) ==> (n in after <==> !Accepted(pods, n)))
    && (forall n :: n in Due(before, now) && n in after ==> after[n] == now + debounce)
  }

  function TurnOrder(head: string): (string, string) -> bool {
    (a: string, b: string) => Before(head, a, b)
  }

  /** The sweep visited exactly the due agents, each once, in turn from the head on. */
  ghost predicate VisitsAll(visited: seq<string>, head: string, due: set<string>) {
    Elems(visited) == due && Increasing(TurnOrder(head), visited)
  }

  lemma SteadyPick(agents: map<string, int>, cursor: Cursor, att: Attempt, now: int, pods: string -> PodView)
    requires Steady(att, now, pods) && cursor.debounce >= 0
    ensures var r := Pick(agents, cursor, att); var due := Due(agents, now);
      if due == {} then r.agents == agents && r.cursor == cursor && r.picked == None
      else
        var name := First(cursor.head, due);
        && r.picked == Some(name) && r.cursor == cursor.(head := name)
        && r.agents == (if Accepted(pods, name) then agents - {name} else agents[name := now + cursor.debounce])
        && Due(r.agents, now) == due - {name}
  {
    assert Selectable(agents, att) == Due(agents, now);
  }

  /** A call picks the first in turn of the agents that are due and not locked, unless there is none or the database
      fails; without a pick, nothing changes. */
  lemma PickPicks(agents: map<string, int>, cursor: Cursor, att: Attempt)
    ensures var r := Pick(agents, cursor, att);
      var due := exists n :: n in agents && agents[n] < att.now && n !in att.locked;
      && (r.picked.Some? <==> att.beginErr.None? && att.selectErr.None? && due && att.bodyErr.None?)
      && (r.picked.Some? ==>
        && r.cursor == cursor.(head := r.picked.value)
        && forall n :: n in agents && agents[n] < att.now && n !in att.locked && n != r.picked.value ==> Before(cursor.head, r.picked.value, n))
      && (r.picked.None? ==>
        && r.agents == agents && r.cursor == cursor
        && r.err == if att.beginErr.Some? then att.beginErr else if att.selectErr.Some? then att.selectErr else if due then att.bodyErr else None)
  {
    hide First, Before;
    var candidates := Selectable(agents, att);
    assert forall n :: n in candidates <==> n in agents && agents[n] < att.now && n !in att.locked;
  }

  /** What a pick leaves, told by the pod: if the transaction took effect, the agent is gone or suspended; if
      not, nothing has changed. */
  lemma PickSettles(agents: map<string, int>, cursor: Cursor, att: Attempt, name: string)
    requires Pick(agents, cursor, att).picked == Some(name)
    ensures var after := Pick(agents, cursor, att).agents;
      && name in agents && agents[name] < att.now && name !in att.locked
      && (forall n :: n != name ==> (n in after <==> n in agents) && (n in agents ==> after[n] == agents[n]))
      && (att.execErr.None? && (att.commitErr.None? || att.durable) ==>
            if Accepted(att.pods, name) then name !in after else name in after && after[name] == att.now + cursor.debounce)
      && (att.execErr.Some? || (att.commitErr.Some? && !att.durable) ==> after == agents)
  {
    hide First;
  }

  /** The error that a pick reports: the first that a call on the database gave, else what the cluster said. */
  lemma PickReports(agents: map<string, int>, cursor: Cursor, att: Attempt, name: string)
    requires Pick(agents, cursor, att).picked == Some(name)
    ensures var err, pod := Pick(agents, cursor, att).err, att.pods(name);
      if att.execErr.Some? then err == att.execErr
      else if att.commitErr.Some? then err == att.commitErr
      else if pod.LookupFailed? then err == Some(pod.lookupErr)
      else if pod.Found? && pod.phase in {Succeeded, Failed, Stucking} then err == pod.closeErr
      else err.None?
  {
    hide First;
  }

  /** The agents that remain take their turns after the one just picked, in an unchanged order. */
  lemma SweepGoesOn(head: string, due: set<string>, name: string, rest: seq<string>)
    requires IsFirst(head, due, name) && VisitsAll(rest, name, due - {name})
    ensures VisitsAll([name] + rest, head, due)
  {
    var visited := [name] + rest;
    assert forall i :: 0 <= i < |rest| ==> rest[i] in Elems(rest);
    forall i, j | 0 <= i < j < |visited|
      ensures Before(head, visited[i], visited[j])
    {
      hide Before, IsFirst;
      FirstIsBefore(head, due, name, visited[j]);
      if i > 0 {
        assert TurnOrder(name)(rest[i - 1], rest[j - 1]);
        FirstIsBefore(head, due, name, visited[i]);
        BeforeFrom(head, name, visited[i], visited[j]);
      }
    }
    assert Elems(visited) == {name} + Elems(rest);
  }

  lemma FirstIsBefore(head: string, due: set<string>, name: string, other: string)
    requires IsFirst(head, due, name) && other in due - {name}
    ensures Before(head, name, other)
  {
  }

  lemma SweptStep(agents: map<string, int>, next: map<string, int>, after: map<string, int>, now: int, debounce: int, pods: string -> PodView, name: string)
    requires name in Due(agents, now) && debounce >= 0
    requires next == if Accepted(pods, name) then agents - {name} else agents[name := now + debounce]
    requires Due(next, now) == Due(agents, now) - {name}
    requires Swept(next, after, now, debounce, pods)
    ensures Swept(agents, after, now, debounce, pods)
  {
  }

  lemma NothingDue(agents: map<string, int>, now: int, debounce: int, pods: string -> PodView, head: string)
    requires Due(agents, now) == {}
    ensures Swept(agents, agents, now, debounce, pods) && VisitsAll([], head, {})
  {
    assert Elems<string>([]) == {};
  }

  lemma OneDue(head: string, name: string)
    ensures VisitsAll([name], head, {name})
  {
    assert Elems([name]) == {name};
  }

  /** One cycle under Backlog. */
  lemma BacklogCycle(agents: map<string, int>, cursor: Cursor, attempts: nat -> Attempt, done: nat -> bool, k: nat, limit: nat)
    requires k < limit && !done(k)
    ensures var r := Pick(agents, cursor, attempts(k));
      Loop(agents, cursor, Backlog, attempts, done, k, limit) ==
        if r.cursor == cursor then Outcome(r.agents, r.cursor, Visits(r.picked), Stopped(None))
        else
          After(Visits(r.picked), Loop(r.agents, r.cursor, Backlog, attempts, done, k + 1, limit))
  {
  }

  ghost predicate SweepsAll(agents: map<string, int>, cursor: Cursor, now: int, pods: string -> PodView, r: Outcome) {
    && r.status == Stopped(None)
    && VisitsAll(r.visited, cursor.head, Due(agents, now))
    && Swept(agents, r.agents, now, cursor.debounce, pods)
    && Due(r.agents, now) == {}
  }

  /** Main result: with the clock standing still and all transactions committing, the loop under Backlog
      stops by itself within one cycle more than there are due agents, having visited each of them once,
      in turn, and having removed exactly the accepted ones. */
  lemma {:induction false} BacklogSweepsAll(agents: map<string, int>, cursor: Cursor, attempts: nat -> Attempt, done: nat -> bool, k: nat, limit: nat, now: int, pods: string -> PodView)
    requires forall i :: Steady(attempts(i), now, pods) && !done(i)
    requires cursor.debounce >= 0 && k + |Due(agents, now)| < limit
    ensures SweepsAll(agents, cursor, now, pods, Loop(agents, cursor, Backlog, attempts, done, k, limit))
    decreases limit - k
  {
    hide First, Steady, Pick, Loop, Swept, VisitsAll, Due, Accepted, IsFirst;
    SteadyPick(agents, cursor, attempts(k), now, pods);
    BacklogCycle(agents, cursor, attempts, done, k, limit);
    var due := Due(agents, now);
    var r := Pick(agents, cursor, attempts(k));
    if due == {} {
      NothingDue(agents, now, cursor.debounce, pods, cursor.head);
    } else {
      var name := First(cursor.head, due);
      FirstIsIn(cursor.head, due);
      if name == cursor.head {
        HeadIsLast(cursor.head, due);
        OneDue(cursor.head, name);
        SweptOne(agents, r.agents, now, cursor.debounce, pods, name);
      } else {
        BacklogSweepsAll(r.agents, r.cursor, attempts, done, k + 1, limit, now, pods);
        var rest := Loop(r.agents, r.cursor, Backlog, attempts, done, k + 1, limit);
        SweepGoesOn(cursor.head, due, name, rest.visited);
        SweptStep(agents, r.agents, rest.agents, now, cursor.debounce, pods, name);
      }
    }
  }

  lemma FirstIsIn(head: string, due: set<string>)
    requires due != {}
    ensures First(head, due) in due && |due - {First(head, due)}| == |due| - 1
  {
  }

  /** The cursor stays where it is only for the last due agent. */
  lemma HeadIsLast(head: string, due: set<string>)
    requires due != {} && First(head, due) == head
    ensures due == {head}
  {
    forall n | n in due
      ensures n == head
    {
      BeforeLaws(head, n, head, n);
    }
  }

  lemma SweptOne(agents: map<string, int>, next: map<string, int>, now: int, debounce: int, pods: string -> PodView, name: string)
    requires Due(agents, now) == {name} && debounce >= 0
    requires next == if Accepted(pods, name) then agents - {name} else agents[name := now + debounce]
    ensures Swept(agents, next, now, debounce, pods) && Due(next, now) == {}
  {
  }

  /** From the seed the turns are in ascending order of names. */
  lemma SeedVisitsAscending(visited: seq<string>, due: set<string>)
    requires VisitsAll(visited, Seed().head, due) && "" !in due
    ensures forall i, j :: 0 <= i < j < |visited| ==> Less(visited[i], visited[j])
  {
    forall i, j | 0 <= i < j < |visited|
      ensures Less(visited[i], visited[j])
    {
      assert visited[i] in Elems(visited) && visited[j] in Elems(visited);
      assert TurnOrder("")(visited[i], visited[j]);
    }
  }

  // ---- runs under any clock --------------------------------------------------------------------

  /** A run interleaves the picker's attempts with whatever else happens to the table. */
  datatype Event = Try(att: Attempt) | Outside

  datatype State = State(agents: map<string, int>, cursor: Cursor)

  ghost predicate IsStep(s: State, e: Event, s': State) {
    match e
    case Try(att) => var r := Pick(s.agents, s.cursor, att); s' == State(r.agents, r.cursor)
    case Outside => s'.cursor == s.cursor
  }

  ghost predicate IsRun(ss: seq<State>, es: seq<Event>) {
    && |ss| == |es| + 1
    && forall k :: 0 <= k < |es| ==> IsStep(ss[k], es[k], ss[k + 1])
  }

  ghost function PickedAt(ss: seq<State>, es: seq<Event>, k: nat): Option<string>
    requires IsRun(ss, es) && k < |es|
  {
    match es[k]
    case Try(att) => Pick(ss[k].agents, ss[k].cursor, att).picked
    case Outside => None
  }

  /** An agent that each attempt could have picked: due, and not locked by others. */
  ghost predicate Waits(ss: seq<State>, es: seq<Event>, i: nat, j: nat, name: string) {
    j <= |es| && |ss| == |es| + 1 && forall k :: i <= k < j && es[k].Try? ==> name in Selectable(ss[k].agents, es[k].att)
  }

  /** One attempt keeps the head between `a` and an agent `b` that waits and is not picked. */
  lemma TurnPasses(s: State, att: Attempt, a: string, b: string)
    requires b in Selectable(s.agents, att) && a != b
    requires s.cursor.head == a || Before(a, s.cursor.head, b)
    ensures var r := Pick(s.agents, s.cursor, att);
      r.picked != Some(b) ==>
        && (r.cursor.head == a || Before(a, r.cursor.head, b))
        && r.picked != Some(a)
  {
    hide Before, Selectable;
    var r := Pick(s.agents, s.cursor, att);
    if r.picked.Some? && r.picked != Some(b) {
      BeforeShrinks(a, s.cursor.head, r.picked.value, b);
    }
  }

  lemma PickMovesHead(s: State, att: Attempt, name: string)
    requires Pick(s.agents, s.cursor, att).picked == Some(name)
    ensures Pick(s.agents, s.cursor, att).cursor.head == name
  {
  }

  /** Where the head can be as long as `b` has not had its turn after `a`. */
  lemma {:induction false} HeadStaysBetween(ss: seq<State>, es: seq<Event>, i: nat, k: nat, a: string, b: string)
    requires IsRun(ss, es) && i < k <= |es| && a != b
    requires PickedAt(ss, es, i) == Some(a)
    requires Waits(ss, es, i + 1, k, b)
    requires forall l :: i < l < k ==> PickedAt(ss, es, l) != Some(b)
    ensures ss[k].cursor.head == a || Before(a, ss[k].cursor.head, b)
    ensures forall l :: i < l < k ==> PickedAt(ss, es, l) != Some(a)
    decreases k
  {
    hide Before, Pick, Selectable;
    assert IsStep(ss[k - 1], es[k - 1], ss[k]);
    if k == i + 1 {
      PickMovesHead(ss[i], es[i].att, a);
    } else {
      HeadStaysBetween(ss, es, i, k - 1, a, b);
      assert PickedAt(ss, es, k - 1) != Some(b);
      if es[k - 1].Try? {
        TurnPasses(ss[k - 1], es[k - 1].att, a, b);
      }
    }
  }

  /** Main result, fairness: between two picks of one agent, every other agent that each attempt could
      have picked was picked. Nothing is asked of the clock, of the handler's answers, of failures, or of
      what others do to the table. */
  lemma EveryOtherHasItsTurn(ss: seq<State>, es: seq<Event>, i: nat, j: nat, a: string, b: string)
    requires IsRun(ss, es) && i < j < |es| && a != b
    requires PickedAt(ss, es, i) == Some(a) && PickedAt(ss, es, j) == Some(a)
    requires Waits(ss, es, i + 1, j + 1, b)
    ensures exists k :: i < k < j && PickedAt(ss, es, k) == Some(b)
  {
    if forall k :: i < k < j ==> PickedAt(ss, es, k) != Some(b) {
      HeadStaysBetween(ss, es, i, j + 1, a, b);
    }
  }

  // ---- the debounce ----------------------------------------------------------------------------

  ghost predicate Untouched(s: State, s': State, name: string) {
    && (name in s.agents <==> name in s'.agents)
    && (name in s.agents ==> s'.agents[name] == s.agents[name])
  }

  /** Others leave the agent alone, and the picker picks it at `i` and `j` only. */
  ghost predicate PickedOnlyAt(ss: seq<State>, es: seq<Event>, i: nat, j: nat, a: string) {
    && IsRun(ss, es) && i < j < |es|
    && PickedAt(ss, es, i) == Some(a) && PickedAt(ss, es, j) == Some(a)
    && (forall k :: i < k < j ==> PickedAt(ss, es, k) != Some(a))
    && (forall k :: i < k < j && es[k].Outside? ==> Untouched(ss[k], ss[k + 1], a))
  }

  lemma PickTouchesOnlyPicked(s: State, att: Attempt, a: string)
    ensures var r := Pick(s.agents, s.cursor, att);
      && r.cursor.debounce == s.cursor.debounce
      && (r.picked != Some(a) ==> Untouched(s, State(r.agents, r.cursor), a))
      && (r.picked == Some(a) ==>
        && a in s.agents && s.agents[a] < att.now
        && (Applied(att) && a in r.agents ==> r.agents[a] == att.now + s.cursor.debounce)
        && (!Applied(att) ==> r.agents == s.agents))
  {
    hide First;
  }

  lemma {:induction false} RowStays(ss: seq<State>, es: seq<Event>, i: nat, k: nat, a: string)
    requires IsRun(ss, es) && i < k <= |es|
    requires forall l :: i < l < k ==> PickedAt(ss, es, l) != Some(a)
    requires forall l :: i < l < k && es[l].Outside? ==> Untouched(ss[l], ss[l + 1], a)
    ensures Untouched(ss[i + 1], ss[k], a)
    decreases k
  {
    if k > i + 1 {
      RowStays(ss, es, i, k - 1, a);
      hide Pick;
      assert IsStep(ss[k - 1], es[k - 1], ss[k]) && PickedAt(ss, es, k - 1) != Some(a);
      if es[k - 1].Try? {
        PickTouchesOnlyPicked(ss[k - 1], es[k - 1].att, a);
      }
    }
  }

  lemma {:induction false} DebounceStays(ss: seq<State>, es: seq<Event>, k: nat)
    requires IsRun(ss, es) && k <= |es|
    ensures ss[k].cursor.debounce == ss[0].cursor.debounce
  {
    if k > 0 {
      DebounceStays(ss, es, k - 1);
      hide Pick;
      assert IsStep(ss[k - 1], es[k - 1], ss[k]);
      if es[k - 1].Try? {
        PickTouchesOnlyPicked(ss[k - 1], es[k - 1].att, "");
      }
    }
  }

  /** Main result, debouncing: once a pick has taken effect, the next pick of the same agent is more than
      the debounce later, whatever the clock did in between. */
  lemma PicksAreDebounced(ss: seq<State>, es: seq<Event>, i: nat, j: nat, a: string)
    requires PickedOnlyAt(ss, es, i, j, a) && Applied(es[i].att)
    ensures es[j].att.now > es[i].att.now + ss[0].cursor.debounce
  {
    hide Pick;
    RowStays(ss, es, i, j, a);
    DebounceStays(ss, es, i);
    assert IsStep(ss[i], es[i], ss[i + 1]);
    PickTouchesOnlyPicked(ss[i], es[i].att, a);
    PickTouchesOnlyPicked(ss[j], es[j].att, a);
  }

  /** Every run that starts with the attempt picks `a` again only when the debounce has passed. */
  ghost predicate Debounces(s: State, att: Attempt, a: string) {
    forall ss: seq<State>, es: seq<Event>, j: nat :: PicksAgain(s, att, a, ss, es, j) ==> es[j].att.now > att.now + s.cursor.debounce
  }

  ghost predicate PicksAgain(s: State, att: Attempt, a: string, ss: seq<State>, es: seq<Event>, j: nat) {
    PickedOnlyAt(ss, es, 0, j, a) && ss[0] == s && es[0] == Try(att) && es[j].Try?
  }

  /** The same attempt again, with all other agents locked by other transactions. */
  function Again(s: State, att: Attempt, a: string): Attempt {
    att.(locked := s.agents.Keys - {a})
  }

  lemma PickAgain(s: State, att: Attempt, a: string)
    requires Pick(s.agents, s.cursor, att).picked == Some(a) && !Applied(att)
    ensures var r := Pick(s.agents, s.cursor, att);
      r.agents == s.agents && Pick(r.agents, r.cursor, Again(s, att, a)).picked == Some(a)
  {
    PickTouchesOnlyPicked(s, att, a);
    assert Selectable(s.agents, Again(s, att, a)) == {a};
  }

  /** Main result: an attempt that picked an agent debounces it, on all runs, if and only if it took effect. */
  lemma DebouncedIffApplied(s: State, att: Attempt, a: string)
    requires s.cursor.debounce >= 0 && Pick(s.agents, s.cursor, att).picked == Some(a)
    ensures Debounces(s, att, a) <==> Applied(att)
  {
    hide Pick;
    if Applied(att) {
      forall ss: seq<State>, es: seq<Event>, j: nat | PicksAgain(s, att, a, ss, es, j)
        ensures es[j].att.now > att.now + s.cursor.debounce
      {
        PicksAreDebounced(ss, es, 0, j, a);
      }
    } else {
      var first := Pick(s.agents, s.cursor, att);
      var s1 := State(first.agents, first.cursor);
      var again := Again(s, att, a);
      PickAgain(s, att, a);
      var second := Pick(s1.agents, s1.cursor, again);
      var ss, es := [s, s1, State(second.agents, second.cursor)], [Try(att), Try(again)];
      assert PicksAgain(s, att, a, ss, es, 1);
    }
  }

  /** An attempt at a fixed time whose commit fails: nothing is written. */
  function Failing(now: int): Attempt {
    Attempt(now, {}, (name: string) => Found(OtherPhase, None), None, None, None, None, Some("connection lost"), false)
  }

  /** An instance that is not debounced. */
  lemma FailedPicksAreNotDebounced(a: string, now: int, debounce: nat)
    ensures !Debounces(State(map[a := now - 1], Cursor(a, debounce)), Failing(now), a)
  {
    var s, att := State(map[a := now - 1], Cursor(a, debounce)), Failing(now);
    assert Selectable(s.agents, att) == {a};
    DebouncedIffApplied(s, att, a);
  }
}
