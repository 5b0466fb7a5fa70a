/** Bounded reachability in a finite directed graph, and the frontier argument that a
    breadth-first search over it computes exactly that. Shared by the lineage tracer
    (runs reached through data) and the plan graph builder (plans reached through mountpoints). */
module Reachability {

  type Adjacency = map<string, set<string>>

  /** All direct successors of the nodes in `from`. */
  ghost function Image(adj: Adjacency, from: set<string>): set<string> {
    set r, s | r in from && r in adj && s in adj[r] :: s
  }

  /** Nodes at most `n` hops away, where the first hop reaches `start`, never entering `avoid`. */
  ghost function Within(adj: Adjacency, start: set<string>, avoid: set<string>, n: nat): set<string> {
    if n == 0 then {} else start + Image(adj, Within(adj, start, avoid, n - 1)) - avoid
  }

  ghost predicate Hop(adj: Adjacency, from: string, to: string) {
    from in adj && to in adj[from]
  }

  /** The same notion told by its witness: a path of nodes, one hop each. */
  ghost predicate IsPath(adj: Adjacency, start: set<string>, avoid: set<string>, path: seq<string>) {
    && path != []
    && path[0] in start
    && (forall i :: 0 <= i < |path| ==> path[i] !in avoid)
    && (forall i :: 0 <= i < |path| - 1 ==> Hop(adj, path[i], path[i + 1]))
  }

  lemma {:induction false} WithinMonotone(adj: Adjacency, start: set<string>, avoid: set<string>, m: nat, n: nat)
    requires m <= n
    ensures Within(adj, start, avoid, m) <= Within(adj, start, avoid, n)
  {
    if m > 0 {
      WithinMonotone(adj, start, avoid, m - 1, n - 1);
    }
  }

  lemma {:induction false} WithinFixpoint(adj: Adjacency, start: set<string>, avoid: set<string>, d: nat, n: nat)
    requires Within(adj, start, avoid, d) == Within(adj, start, avoid, d + 1)
    requires d <= n
    ensures Within(adj, start, avoid, n) == Within(adj, start, avoid, d)
  {
    if d < n {
      WithinFixpoint(adj, start, avoid, d, n - 1);
    }
  }

  lemma {:induction false} PathIsWithin(adj: Adjacency, start: set<string>, avoid: set<string>, path: seq<string>, n: nat)
    requires IsPath(adj, start, avoid, path) && |path| <= n
    ensures path[|path| - 1] in Within(adj, start, avoid, n)
  {
    if |path| > 1 {
      PathIsWithin(adj, start, avoid, path[..|path| - 1], n - 1);
    }
  }

  lemma {:induction false} WithinHasPath(adj: Adjacency, start: set<string>, avoid: set<string>, n: nat, x: string)
    returns (path: seq<string>)
    requires x in Within(adj, start, avoid, n)
    ensures IsPath(adj, start, avoid, path) && |path| <= n && path[|path| - 1] == x
  {
    if x in start {
      path := [x];
    } else {
      var r :| r in Within(adj, start, avoid, n - 1) && r in adj && x in adj[r];
      var prefix := WithinHasPath(adj, start, avoid, n - 1, r);
      path := prefix + [x];
    }
  }

  /** `Within` is exactly reachability by a path of at most `n` hops. */
  lemma WithinIffPath(adj: Adjacency, start: set<string>, avoid: set<string>, n: nat, x: string)
    ensures x in Within(adj, start, avoid, n)
       <==> exists path :: IsPath(adj, start, avoid, path) && |path| <= n && path[|path| - 1] == x
  {
    if x in Within(adj, start, avoid, n) {
      var path := WithinHasPath(adj, start, avoid, n, x);
    }
    forall path | IsPath(adj, start, avoid, path) && |path| <= n && path[|path| - 1] == x {
      PathIsWithin(adj, start, avoid, path, n);
    }
  }

  /** Reachable in any number of hops. */
  ghost predicate InSomeDepth(adj: Adjacency, start: set<string>, avoid: set<string>, x: string) {
    exists n: nat :: x in Within(adj, start, avoid, n)
  }

  /** What a breadth-first search has seen, and the last layer it found, after `d` layers. */
  ghost predicate Layer(adj: Adjacency, start: set<string>, avoid: set<string>, d: nat,
                        seen: set<string>, newest: set<string>)
  {
    && seen == avoid + Within(adj, start, avoid, d)
    && newest == Within(adj, start, avoid, d) - (if d == 0 then {} else Within(adj, start, avoid, d - 1))
  }

  /** The nodes that layer `d` offers to layer `d + 1`. */
  ghost function Offered(adj: Adjacency, start: set<string>, d: nat, newest: set<string>): set<string> {
    if d == 0 then start else Image(adj, newest)
  }

  lemma ImageUnion(adj: Adjacency, a: set<string>, b: set<string>)
    ensures Image(adj, a + b) == Image(adj, a) + Image(adj, b)
  {
  }

  lemma WithinUnfold(adj: Adjacency, start: set<string>, avoid: set<string>, d: nat)
    ensures Within(adj, start, avoid, 0) == {}
    ensures Within(adj, start, avoid, d + 1) == start + Image(adj, Within(adj, start, avoid, d)) - avoid
    ensures Image(adj, {}) == {}
  {
  }

  /** One round keeps the layer invariant: only successors of the newest layer need to be looked
      at, because those of older layers have all been seen. */
  lemma LayerStep(adj: Adjacency, start: set<string>, avoid: set<string>, d: nat,
                  seen: set<string>, newest: set<string>, seen': set<string>)
    requires Layer(adj, start, avoid, d, seen, newest)
    requires seen' == seen + Offered(adj, start, d, newest)
    ensures Layer(adj, start, avoid, d + 1, seen', seen' - seen)
  {
    hide Image, Within;
    WithinMonotone(adj, start, avoid, d, d + 1);
    WithinUnfold(adj, start, avoid, d);
    if d > 0 {
      var before := Within(adj, start, avoid, d - 1);
      WithinMonotone(adj, start, avoid, d - 1, d);
      WithinUnfold(adj, start, avoid, d - 1);
      ImageUnion(adj, before, newest);
      assert before + newest == Within(adj, start, avoid, d);
    }
    assert avoid + Within(adj, start, avoid, d + 1) == seen';
  }

  /** An empty layer means that nothing is left to reach, at any depth. */
  lemma EmptyLayerIsFinal(adj: Adjacency, start: set<string>, avoid: set<string>, d: nat,
                          seen: set<string>, newest: set<string>, n: nat)
    requires Layer(adj, start, avoid, d, seen, newest)
    requires Offered(adj, start, d, newest) == {}
    requires d <= n
    ensures Within(adj, start, avoid, n) == Within(adj, start, avoid, d)
  {
    LayerStep(adj, start, avoid, d, seen, newest, seen);
    WithinMonotone(adj, start, avoid, d, d + 1);
    assert Within(adj, start, avoid, d + 1) == Within(adj, start, avoid, d);
    WithinFixpoint(adj, start, avoid, d, n);
  }

  /** Avoiding nodes that are out of reach anyway changes nothing. */
  lemma {:induction false} AvoidUnreachable(adj: Adjacency, start: set<string>, avoid: set<string>, n: nat)
    requires Within(adj, start, {}, n) !! avoid
    ensures Within(adj, start, avoid, n) == Within(adj, start, {}, n)
  {
    if n > 0 {
      WithinMonotone(adj, start, {}, n - 1, n);
      AvoidUnreachable(adj, start, avoid, n - 1);
    }
  }

  /** A node property that holds on `start` and follows every edge holds on everything within reach. */
  lemma {:induction false} WithinInduction(adj: Adjacency, start: set<string>, n: nat, good: set<string>)
    requires start <= good
    requires forall r, s :: r in good && r in adj && s in adj[r] ==> s in good
    ensures Within(adj, start, {}, n) <= good
  {
    if n > 0 {
      WithinInduction(adj, start, n - 1, good);
    }
  }
}
