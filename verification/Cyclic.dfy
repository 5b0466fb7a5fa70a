/** The order in which agents take turns: `order by "name" <= $1, "name"` of
    pkg/domain/data/db/postgres/data.go, that is, ascending from just after the cursor's head, and then
    from the beginning up to the head itself. */
module Cyclic {
  import opened Results
  import opened Strings

  predicate Wrapped(head: string, a: string) {
    a == head || Less(a, head)
  }

  predicate Before(head: string, a: string, b: string) {
    if Wrapped(head, a) != Wrapped(head, b) then Wrapped(head, b) else Less(a, b)
  }

  /** A strict total order for every head, and the head comes last in it. */
  lemma BeforeLaws(head: string, a: string, b: string, c: string)
    ensures !Before(head, a, a)
    ensures Before(head, a, b) && Before(head, b, c) ==> Before(head, a, c)
    ensures a != b ==> Before(head, a, b) || Before(head, b, a)
    ensures !(Before(head, a, b) && Before(head, b, a))
    ensures a != head ==> Before(head, a, head)
  {
    hide Less;
    LessLaws(a, b, c);
    LessLaws(b, a, c);
    LessLaws(a, head, b);
    LessLaws(a, b, head);
  }

  /** Turning the order to a later head does not change it for what was still to come. */
  lemma BeforeFrom(head: string, next: string, a: string, b: string)
    requires Before(head, next, a) && Before(head, next, b)
    ensures Before(next, a, b) <==> Before(head, a, b)
  {
    hide Less;
    LessLaws(head, next, a);
    LessLaws(head, next, b);
    LessLaws(next, a, head);
    LessLaws(next, b, head);
    LessLaws(next, a, b);
    LessLaws(next, b, a);
    LessLaws(a, head, next);
    LessLaws(b, head, next);
  }

  /** While the head lies between `a` and `b`, so does whatever comes before `b`. */
  lemma BeforeShrinks(a: string, head: string, p: string, b: string)
    requires head == a || Before(a, head, b)
    requires Before(head, p, b) && a != b
    ensures Before(a, p, b) && p != a
  {
    hide Less;
    LessLaws(a, head, b);
    LessLaws(a, head, p);
    LessLaws(head, a, b);
    LessLaws(head, a, p);
    LessLaws(head, p, b);
    LessLaws(head, b, p);
    LessLaws(p, b, a);
    LessLaws(p, a, b);
    LessLaws(b, a, head);
    LessLaws(b, p, a);
    LessLaws(p, head, b);
    LessLaws(b, head, p);
  }

  ghost predicate IsFirst(head: string, names: set<string>, r: string) {
    r in names && forall n :: n in names && n != r ==> Before(head, r, n)
  }

  lemma FirstIsUnique(head: string, names: set<string>, r: string, r': string)
    requires IsFirst(head, names, r) && IsFirst(head, names, r')
    ensures r == r'
  {
    BeforeLaws(head, r, r', r);
  }

  lemma {:induction false} FirstExists(head: string, names: set<string>) returns (r: string)
    requires names != {}
    ensures IsFirst(head, names, r)
  {
    hide Before;
    var n :| n in names;
    if names == {n} {
      r := n;
    } else {
      var rest := FirstExists(head, names - {n});
      BeforeLaws(head, n, rest, n);
      r := if Before(head, n, rest) then n else rest;
      forall other | other in names && other != r
        ensures Before(head, r, other)
      {
        BeforeLaws(head, n, rest, other);
      }
    }
  }

  lemma FirstIsSomewhere(head: string, names: set<string>)
    requires names != {}
    ensures exists r :: IsFirst(head, names, r)
  {
    var r := FirstExists(head, names);
  }

  ghost function First(head: string, names: set<string>): (r: string)
    requires names != {}
    ensures IsFirst(head, names, r)
  {
    FirstIsSomewhere(head, names);
    var r :| IsFirst(head, names, r);
    r
  }

  /** The select statement: `limit 1`. */
  method SelectFirst(head: string, names: set<string>) returns (r: Option<string>)
    ensures r == if names == {} then None else Some(First(head, names))
  {
    hide Before;
    r := None;
    var rest := names;
    while rest != {}
      invariant rest <= names
      invariant r.None? <==> rest == names
      invariant r.Some? ==> IsFirst(head, names - rest, r.value)
      decreases rest
    {
      var n :| n in rest;
      if r.Some? {
        BeforeLaws(head, n, r.value, n);
      }
      if r.None? || Before(head, n, r.value) {
        forall other | other in names - rest
          ensures Before(head, n, other)
        {
          BeforeLaws(head, n, r.value, other);
        }
        r := Some(n);
      }
      rest := rest - {n};
    }
    if r.Some? {
      assert names - rest == names;
      FirstIsUnique(head, names, r.value, First(head, names));
    }
  }
}
