/** The housekeeping loop: `PickAndRemoveAgent` of pkg/domain/data/db/postgres/data.go under the task of
    cmd/loops/tasks/housekeeping/task.go and the loop of cmd/loops/loop/loop.go.
    The clock, the pods, row locks held by others and every failure are inputs. */
module Housekeeping {
  import opened Results
  import opened Cyclic
  import opened Recurring

  datatype Cursor = Cursor(head: string, debounce: int)

  /** 30 seconds */
  const DEBOUNCE := 30_000_000_000

  function Seed(): Cursor {
    Cursor("", DEBOUNCE)
  }

  // ---- the handler -----------------------------------------------------------------------------

  datatype Phase = Succeeded | Failed | Stucking | OtherPhase

  /** What the cluster says of an agent's pod, and whether closing it would work. */
  datatype PodView = Missing | LookupFailed(lookupErr: Error) | Found(phase: Phase, closeErr: Option<Error>)

  datatype Verdict = Verdict(remove: bool, err: Option<Error>)

  /** The callback of `Task`. */
  function Judge(pod: PodView): Verdict {
    match pod
    case Missing => Verdict(true, None)
    case LookupFailed(e) => Verdict(false, Some(e))
    case Found(phase, closeErr) =>
      if phase.OtherPhase? then Verdict(false, None)
      else if closeErr.Some? then Verdict(false, closeErr)
      else Verdict(true, None)
  }

  // ---- one pick --------------------------------------------------------------------------------

  /** Everything outside that one call of `PickAndRemoveAgent` meets. `durable` says whether the
      transaction took effect although its commit was answered with an error. */
  datatype Attempt = Attempt(
    now: int,
    locked: set<string>,
    pods: string -> PodView,
    beginErr: Option<Error>,
    selectErr: Option<Error>,
    bodyErr: Option<Error>,
    execErr: Option<Error>,
    commitErr: Option<Error>,
    durable: bool)

  /** The rows that the select statement chooses from: due, and not locked by another transaction. */
  function Selectable(agents: map<string, int>, att: Attempt): set<string> {
    set n | n in agents && agents[n] < att.now && n !in att.locked
  }

  predicate Applied(att: Attempt) {
    att.execErr.None? && (att.commitErr.None? || att.durable)
  }

  datatype PickResult = PickResult(agents: map<string, int>, cursor: Cursor, picked: Option<string>, err: Option<Error>)

  function FirstError(a: Option<Error>, b: Option<Error>): Option<Error> {
    if a.Some? then a else b
  }

  /** The agents once the transaction on the picked one is over. */
  function Settled(agents: map<string, int>, debounce: int, att: Attempt, name: string): map<string, int> {
    if !Applied(att) then agents
    else if Judge(att.pods(name)) == Verdict(true, None) then agents - {name}
    else agents[name := att.now + debounce]
  }

  /** What one call does. `picked` is the agent that the handler is called with. */
  ghost function Pick(agents: map<string, int>, cursor: Cursor, att: Attempt): PickResult {
    var candidates := Selectable(agents, att);
    if att.beginErr.Some? then PickResult(agents, cursor, None, att.beginErr)
    else if att.selectErr.Some? then PickResult(agents, cursor, None, att.selectErr)
    else if candidates == {} then PickResult(agents, cursor, None, None)
    else if att.bodyErr.Some? then PickResult(agents, cursor, None, att.bodyErr)
    else
      var name := First(cursor.head, candidates);
      PickResult(
        Settled(agents, cursor.debounce, att, name),
        cursor.(head := name),
        Some(name),
        FirstError(att.execErr, FirstError(att.commitErr, Judge(att.pods(name)).err)))
  }

  class AgentTable {
    /** `data_agent`: name to lifecycle_suspend_until. */
    var agents: map<string, int>

    constructor (agents: map<string, int>)
      ensures this.agents == agents
    {
      this.agents := agents;
    }

    method PickAndRemoveAgent(cursor: Cursor, att: Attempt)
      returns (cursor': Cursor, err: Option<Error>, ghost picked: Option<string>)
      modifies this
      ensures PickResult(agents, cursor', picked, err) == Pick(old(agents), cursor, att)
    {
      cursor', picked := cursor, None;
      if att.beginErr.Some? {
        return cursor, att.beginErr, None;
      }
      if att.selectErr.Some? {
        return cursor, att.selectErr, None;
      }
      var name := SelectFirst(cursor.head, Selectable(agents, att));
      if name.None? {
        return cursor, None, None;
      }
      if att.bodyErr.Some? {
        return cursor, att.bodyErr, None;
      }
      cursor' := Cursor(name.value, cursor.debounce);
      picked := name;
      var verdict := Judge(att.pods(name.value));
      var pending;
      if !verdict.remove || verdict.err.Some? {
        pending := agents[cursor'.head := att.now + cursor'.debounce];
      } else {
        pending := agents - {name.value};
      }
      if att.execErr.Some? {
        return cursor', att.execErr, picked;
      }
      if att.commitErr.None? || att.durable {
        agents := pending;
      }
      if att.commitErr.Some? {
        return cursor', att.commitErr, picked;
      }
      return cursor', verdict.err, picked;
    }
  }

  // ---- the loop --------------------------------------------------------------------------------

  datatype Status = Stopped(err: Option<Error>) | Cancelled | Running

  datatype Outcome = Outcome(agents: map<string, int>, cursor: Cursor, visited: seq<string>, status: Status)

  function Visits(picked: Option<string>): seq<string> {
    match picked case None => [] case Some(name) => [name]
  }

  /** The loop from its `k`-th cycle on, watched for `limit` cycles in all. `done` says when the context
      is found to be over. */
  ghost function Loop(agents: map<string, int>, cursor: Cursor, policy: Policy, attempts: nat -> Attempt, done: nat -> bool, k: nat, limit: nat): Outcome
    requires k <= limit
    decreases limit - k
  {
    if k == limit then Outcome(agents, cursor, [], Running)
    else
      var r := Pick(agents, cursor, attempts(k));
      match NextOf(policy, r.cursor != cursor, r.err)
      case Break(err) => Outcome(r.agents, r.cursor, Visits(r.picked), Stopped(err))
      case Continue(_) =>
        if done(k) then Outcome(r.agents, r.cursor, Visits(r.picked), Cancelled)
        else
          After(Visits(r.picked), Loop(r.agents, r.cursor, policy, attempts, done, k + 1, limit))
  }

  /** The outcome of a loop that made some visits before. */
  function After(visited: seq<string>, rest: Outcome): Outcome {
    rest.(visited := visited + rest.visited)
  }

  lemma AfterAfter(first: seq<string>, second: seq<string>, rest: Outcome)
    ensures After(first, After(second, rest)) == After(first + second, rest)
    ensures After([], rest) == rest
  {
    assert first + (second + rest.visited) == (first + second) + rest.visited;
  }

  /** One cycle of the loop. */
  lemma LoopCycle(agents: map<string, int>, cursor: Cursor, policy: Policy, attempts: nat -> Attempt, done: nat -> bool, k: nat, limit: nat)
    requires k < limit
    ensures var r := Pick(agents, cursor, attempts(k)); var next := NextOf(policy, r.cursor != cursor, r.err);
      Loop(agents, cursor, policy, attempts, done, k, limit) ==
        if next.Break? then After(Visits(r.picked), Outcome(r.agents, r.cursor, [], Stopped(next.err)))
        else if done(k) then After(Visits(r.picked), Outcome(r.agents, r.cursor, [], Cancelled))
        else After(Visits(r.picked), Loop(r.agents, r.cursor, policy, attempts, done, k + 1, limit))
  {
    hide Pick;
    var r := Pick(agents, cursor, attempts(k));
    assert Visits(r.picked) + [] == Visits(r.picked);
  }

  /** When the context is found to be over after a cycle, that cycle is the last one. */
  lemma CancelledIsLast(agents: map<string, int>, cursor: Cursor, policy: Policy, attempts: nat -> Attempt, done: nat -> bool, k: nat, limit: nat)
    requires k < limit && done(k)
    ensures var r, outcome := Pick(agents, cursor, attempts(k)), Loop(agents, cursor, policy, attempts, done, k, limit);
      && outcome.status != Running && outcome.agents == r.agents && outcome.cursor == r.cursor && |outcome.visited| <= 1
      && (r.picked.Some? <==> outcome.visited != [])
  {
    hide Pick;
  }

  lemma LoopLimit(agents: map<string, int>, cursor: Cursor, policy: Policy, attempts: nat -> Attempt, done: nat -> bool, limit: nat)
    ensures Loop(agents, cursor, policy, attempts, done, limit, limit) == Outcome(agents, cursor, [], Running)
  {
  }

  /** `loop.Start` with the housekeeping task under a policy, watched for `limit` cycles. */
  method Start(table: AgentTable, init: Cursor, policy: Policy, attempts: nat -> Attempt, doneAtOnce: bool, done: nat -> bool, limit: nat)
    returns (value: Cursor, status: Status, ghost visited: seq<string>)
    modifies table
    ensures doneAtOnce ==> table.agents == old(table.agents) && value == init && visited == [] && status == Cancelled
    ensures !doneAtOnce ==>
      Outcome(table.agents, value, visited, status) == Loop(old(table.agents), init, policy, attempts, done, 0, limit)
  {
    hide Loop, Pick, NextOf, After;
    value, visited := init, [];
    if doneAtOnce {
      return init, Cancelled, [];
    }
    ghost var whole := Loop(table.agents, init, policy, attempts, done, 0, limit);
    AfterAfter([], [], whole);
    var k := 0;
    while k < limit
      invariant 0 <= k <= limit
      invariant whole == After(visited, Loop(table.agents, value, policy, attempts, done, k, limit))
    {
      LoopCycle(table.agents, value, policy, attempts, done, k, limit);
      ghost var before := visited;
      var v, err, picked := table.PickAndRemoveAgent(value, attempts(k));
      visited := visited + Visits(picked);
      var next := NextOf(policy, v != value, err);
      value := v;
      if next.Break? {
        status := Stopped(next.err);
        Reached(before, picked, table.agents, value, status);
        return;
      }
      if done(k) {
        status := Cancelled;
        Reached(before, picked, table.agents, value, status);
        return;
      }
      AfterAfter(before, Visits(picked), Loop(table.agents, value, policy, attempts, done, k + 1, limit));
      k := k + 1;
    }
    LoopLimit(table.agents, value, policy, attempts, done, limit);
    Reached(visited, None, table.agents, value, Running);
    return value, Running, visited;
  }

  lemma Reached(before: seq<string>, picked: Option<string>, agents: map<string, int>, cursor: Cursor, status: Status)
    ensures After(before, After(Visits(picked), Outcome(agents, cursor, [], status)))
      == Outcome(agents, cursor, before + Visits(picked), status)
    ensures picked.None? ==> After(before, Outcome(agents, cursor, [], status)) == Outcome(agents, cursor, before, status)
  {
    assert Visits(picked) + [] == Visits(picked);
    assert before + [] == before;
  }
}
