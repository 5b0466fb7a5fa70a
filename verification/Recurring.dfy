/** What a recurring task does after each cycle: cmd/loops/loop/loop.go and
    cmd/loops/loop/recurring/policy.go. Durations are in nanoseconds. */
module Recurring {
  import opened Results

  type Error = string

  /** `Continue(interval)` and `Break(err)`; a nil error is `None`. */
  datatype Next = Continue(interval: int) | Break(err: Option<Error>)

  datatype Policy = Forever(cooldown: int) | Backlog | UntilError(base: Policy)

  /** `Policy.Next` */
  function NextOf(policy: Policy, updated: bool, err: Option<Error>): Next {
    match policy
    case Forever(cooldown) => if updated then Continue(0) else Continue(cooldown)
    case Backlog => if updated then Continue(0) else Break(None)
    case UntilError(base) => if err.Some? then Break(err) else NextOf(base, updated, err)
  }

  predicate NeverStopsByItself(policy: Policy) {
    match policy
    case Forever(_) => true
    case Backlog => false
    case UntilError(base) => NeverStopsByItself(base)
  }

  /** The policy within all error clauses. */
  function Innermost(policy: Policy): Policy {
    if policy.UntilError? then Innermost(policy.base) else policy
  }

  predicate StopsOnError(policy: Policy) {
    policy.UntilError?
  }

  /** How policies stop, however deep they are nested: with an error exactly when the outermost is an
      error clause and there is one, and otherwise exactly when nothing was updated under Backlog. */
  lemma {:induction false} WhenPoliciesBreak(policy: Policy, updated: bool, err: Option<Error>)
    ensures NextOf(policy, updated, err).Break? <==>
      (StopsOnError(policy) && err.Some?) || (!updated && !NeverStopsByItself(policy))
    ensures NextOf(policy, updated, err).Break? ==>
      NextOf(policy, updated, err).err == if StopsOnError(policy) then err else None
    ensures NextOf(policy, updated, err).Continue? ==> var interval := NextOf(policy, updated, err).interval;
      if updated then interval == 0 else Innermost(policy) == Forever(interval)
  {
    if policy.UntilError? {
      WhenPoliciesBreak(policy.base, updated, err);
    }
  }
}
