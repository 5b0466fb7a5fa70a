/** `planDependencyIsCyclic` of pkg/domain/plan/db/postgres/plan.go: a search without memory, which ends
    because the plans registered before have no cycle. */
module PlanCycles {
  import opened CountingJoins
  import opened TagStore
  import opened Nomination
  import opened PlanQueries
  import opened Reachability
  import opened Ledgers

  /** Plan `q` depends on plan `p`: an output of `p` feeds an input of `q`. */
  ghost predicate DependsOn(db: Db, q: string, p: string)
    requires Interned(db.tables.tags)
  {
    exists i, o :: Links(db, q, p, i, o)
  }

  ghost predicate Links(db: Db, q: string, p: string, i: int, o: int)
    requires Interned(db.tables.tags)
  {
    && i in db.ledger.planOfInput && db.ledger.planOfInput[i] == q
    && o in db.ledger.planOfOutput && db.ledger.planOfOutput[o] == p
    && Feeds(db.tables, i, o)
  }

  /** `findPlanIdInDependants`: counting joins of the tags of all outputs of `from` with the tags of all
      inputs that need no system tag. */
  function Dependants(db: Db, from: set<string>): set<string> {
    var outputs := set o | o in db.ledger.planOfOutput && db.ledger.planOfOutput[o] in from;
    var tagsOut := set r | r in db.tables.tags.tagOutput && r.1 in outputs;
    var tagsIn := set r | r in db.tables.tags.tagInput && !HasSystemTag(db.tables, r.1);
    var downstream := set m | m in MatchedPairs(tagsIn, tagsOut) :: m.0;
    set i | i in downstream && i in db.ledger.planOfInput :: db.ledger.planOfInput[i]
  }

  lemma JoinedIffFeeds(d: Tables, outputs: set<int>, i: int, o: int)
    requires Interned(d.tags)
    ensures var tagsOut := set r | r in d.tags.tagOutput && r.1 in outputs;
      var tagsIn := set r | r in d.tags.tagInput && !HasSystemTag(d, r.1);
      (i, o) in MatchedPairs(tagsIn, tagsOut) <==> o in outputs && Feeds(d, i, o)
  {
    var tagsOut := set r | r in d.tags.tagOutput && r.1 in outputs;
    var tagsIn := set r | r in d.tags.tagInput && !HasSystemTag(d, r.1);
    MatchedPairsMeans(tagsIn, tagsOut, i, o);
    RowsIffOutputTags(d.tags, i, o);
    LeftRowsExist(tagsIn, i);
    LeftRowsExist(d.tags.tagInput, i);
    hide InputTags, OutputTags, MatchedPairs, Interned, LeftRows;
    assert forall x :: (x, i) in tagsIn <==> (x, i) in d.tags.tagInput && !HasSystemTag(d, i);
    assert forall x :: (x, o) in tagsOut <==> (x, o) in d.tags.tagOutput && o in outputs;
  }

  lemma DependantsMean(db: Db, from: set<string>, q: string)
    requires Interned(db.tables.tags)
    ensures q in Dependants(db, from) <==> exists p :: p in from && DependsOn(db, q, p)
  {
    hide Interned, Feeds, HasSystemTag, MatchedPairs;
    var d := db.tables;
    var outputs := set o | o in db.ledger.planOfOutput && db.ledger.planOfOutput[o] in from;
    var tagsOut := set r | r in d.tags.tagOutput && r.1 in outputs;
    var tagsIn := set r | r in d.tags.tagInput && !HasSystemTag(d, r.1);
    var matched := MatchedPairs(tagsIn, tagsOut);
    if q in Dependants(db, from) {
      var m :| m in matched && m.0 in db.ledger.planOfInput && db.ledger.planOfInput[m.0] == q;
      assert m == (m.0, m.1);
      JoinedIffFeeds(d, outputs, m.0, m.1);
      assert Links(db, q, db.ledger.planOfOutput[m.1], m.0, m.1);
    }
    forall p, i, o | p in from && Links(db, q, p, i, o)
      ensures q in Dependants(db, from)
    {
      JoinedIffFeeds(d, outputs, i, o);
      assert (i, o) in matched && (i, o).0 == i;
    }
  }

  // ---- acyclic -----------------------------------------------------------------------------------

  /** Plans rank below the plans that depend on them; `but` is left aside. */
  ghost predicate PlanRank(db: Db, but: set<string>, rank: string -> nat, bound: nat)
    requires Interned(db.tables.tags)
  {
    && (forall p :: rank(p) < bound)
    && (forall p, q :: p !in but && q !in but && DependsOn(db, q, p) ==> rank(p) < rank(q))
  }

  ghost predicate Acyclic(db: Db, but: set<string>)
    requires Interned(db.tables.tags)
  {
    exists rank: string -> nat, bound: nat :: PlanRank(db, but, rank, bound)
  }

  lemma NoEdgesIsAcyclic(db: Db)
    requires Interned(db.tables.tags) && forall p, q :: !DependsOn(db, q, p)
    ensures Acyclic(db, {})
  {
    assert PlanRank(db, {}, (p: string) => 0, 1);
  }

  /** Fewer edges, or more plans left aside. */
  lemma StillAcyclic(db: Db, db': Db, but: set<string>, but': set<string>)
    requires Interned(db.tables.tags) && Interned(db'.tables.tags) && Acyclic(db, but) && but <= but'
    requires forall p, q :: p !in but' && q !in but' && DependsOn(db', q, p) ==> DependsOn(db, q, p)
    ensures Acyclic(db', but')
  {
    hide Interned, DependsOn;
    var rank, bound :| PlanRank(db, but, rank, bound);
    assert PlanRank(db', but', rank, bound);
  }

  ghost function Dependency(db: Db): (adj: Adjacency)
    requires Interned(db.tables.tags)
    ensures adj.Keys == db.ledger.plan.Keys
  {
    map p | p in db.ledger.plan :: set q | q in db.ledger.plan && DependsOn(db, q, p)
  }

  /** Some chain of dependent plans leads from the plan back to itself. */
  ghost predicate OnCycle(db: Db, plan: string)
    requires Interned(db.tables.tags) && plan in db.ledger.plan
  {
    InSomeDepth(Dependency(db), Dependency(db)[plan], {}, plan)
  }

  lemma {:induction false} RanksIncrease(db: Db, plan: string, rank: string -> nat, bound: nat, n: nat, q: string)
    requires Interned(db.tables.tags) && plan in db.ledger.plan && PlanRank(db, {}, rank, bound)
    requires q in Within(Dependency(db), Dependency(db)[plan], {}, n)
    ensures rank(plan) < rank(q)
  {
    hide Interned, DependsOn;
    var adj := Dependency(db);
    if q in adj[plan] {
      assert DependsOn(db, q, plan);
    } else {
      var p :| p in Within(adj, adj[plan], {}, n - 1) && p in adj && q in adj[p];
      RanksIncrease(db, plan, rank, bound, n - 1, p);
      assert DependsOn(db, q, p);
    }
  }

  lemma CycleIsCyclic(db: Db, plan: string)
    requires Interned(db.tables.tags) && plan in db.ledger.plan && OnCycle(db, plan)
    ensures !Acyclic(db, {})
  {
    hide Interned, DependsOn, PlanRank;
    if Acyclic(db, {}) {
      var rank, bound :| PlanRank(db, {}, rank, bound);
      var n: nat :| plan in Within(Dependency(db), Dependency(db)[plan], {}, n);
      RanksIncrease(db, plan, rank, bound, n, plan);
      assert false;
    }
  }

  /** A set that holds all that depends on the plan, directly or not, but not the plan itself. */
  ghost predicate Closed(db: Db, plan: string, reached: set<string>)
    requires Interned(db.tables.tags)
  {
    && plan !in reached
    && forall p, q :: (p in reached || p == plan) && DependsOn(db, q, p) ==> q in reached
  }

  /** The plan goes between what it may depend on and what depends on it. */
  lemma ClosedIsAcyclic(db: Db, plan: string, reached: set<string>)
    requires Interned(db.tables.tags) && Acyclic(db, {plan}) && Closed(db, plan, reached)
    ensures Acyclic(db, {})
  {
    hide Interned, DependsOn;
    var rank, bound :| PlanRank(db, {plan}, rank, bound);
    var rank' := (p: string) => if p in reached then bound + 1 + rank(p) else if p == plan then bound else rank(p);
    assert PlanRank(db, {}, rank', bound + 1 + bound);
  }

  lemma ClosedIsNotOnCycle(db: Db, plan: string, reached: set<string>)
    requires Interned(db.tables.tags) && plan in db.ledger.plan && Closed(db, plan, reached)
    ensures !OnCycle(db, plan)
  {
    hide Interned, DependsOn;
    var adj := Dependency(db);
    forall n: nat
      ensures plan !in Within(adj, adj[plan], {}, n)
    {
      hide Within;
      WithinInduction(adj, adj[plan], n, reached);
    }
  }

  // ---- the search --------------------------------------------------------------------------------

  /** After `n` rounds: nothing but the newest layer is open, and the layer ranks at least `n - 1`. */
  ghost predicate Searched(db: Db, plan: string, rank: string -> nat, n: nat, traverser: set<string>, seen: set<string>)
    requires Interned(db.tables.tags) && plan in db.ledger.plan
  {
    && plan !in seen
    && traverser <= (if n == 0 then {plan} else seen)
    && (n > 0 ==> forall p :: p in traverser ==> rank(p) >= n - 1)
    && (forall p, q :: (p in seen || (p == plan && n > 0)) && p !in traverser && DependsOn(db, q, p) ==> q in seen)
    && (n > 0 ==> forall p :: p in traverser ==> p in Within(Dependency(db), Dependency(db)[plan], {}, n))
  }

  lemma NextIsWithin(db: Db, plan: string, n: nat, p: string, q: string)
    requires Interned(db.tables.tags) && plan in db.ledger.plan && DependsOn(db, q, p) && q in db.ledger.plan
    requires if n == 0 then p == plan else p in db.ledger.plan && p in Within(Dependency(db), Dependency(db)[plan], {}, n)
    ensures q in Within(Dependency(db), Dependency(db)[plan], {}, n + 1)
  {
    hide Interned, DependsOn;
    var adj := Dependency(db);
    assert q in adj[p];
  }

  lemma SearchedNext(db: Db, plan: string, rank: string -> nat, bound: nat, n: nat, traverser: set<string>, seen: set<string>)
    requires Interned(db.tables.tags) && plan in db.ledger.plan && PlanRank(db, {plan}, rank, bound)
    requires Searched(db, plan, rank, n, traverser, seen) && (n == 0 ==> traverser == {plan} && seen == {})
    requires PlansKnown(db)
    ensures var next := Dependants(db, traverser);
      plan !in next ==> Searched(db, plan, rank, n + 1, next, seen + next)
    ensures plan in Dependants(db, traverser) ==> OnCycle(db, plan)
  {
    hide Interned, DependsOn, Dependants, Within, Dependency, MatchedPairs;
    var next := Dependants(db, traverser);
    forall q | q in next
      ensures q in Within(Dependency(db), Dependency(db)[plan], {}, n + 1)
      ensures q != plan ==> rank(q) >= n
    {
      DependantsMean(db, traverser, q);
      var p :| p in traverser && DependsOn(db, q, p);
      EdgesAreKnown(db, q, p);
      NextIsWithin(db, plan, n, p, q);
    }
    forall p, q | (p in seen + next || p == plan) && p !in next && DependsOn(db, q, p)
      ensures q in seen + next
    {
      DependantsMean(db, traverser, q);
    }
  }

  /** Mountpoints belong to plans that there are. */
  ghost predicate PlansKnown(db: Db) {
    && (forall i :: i in db.ledger.planOfInput ==> db.ledger.planOfInput[i] in db.ledger.plan)
    && (forall o :: o in db.ledger.planOfOutput ==> db.ledger.planOfOutput[o] in db.ledger.plan)
  }

  lemma EdgesAreKnown(db: Db, q: string, p: string)
    requires Interned(db.tables.tags) && PlansKnown(db) && DependsOn(db, q, p)
    ensures p in db.ledger.plan && q in db.ledger.plan
  {
    hide Interned, Feeds;
  }

  /** Main result: the search ends, and finds a cycle exactly when the new plan has closed one. */
  method DependencyIsCyclic(db: Db, plan: string) returns (cyclic: bool)
    requires Interned(db.tables.tags) && PlansKnown(db) && plan in db.ledger.plan && Acyclic(db, {plan})
    ensures cyclic <==> OnCycle(db, plan)
    ensures cyclic <==> !Acyclic(db, {})
  {
    hide Interned, DependsOn, Dependants, Dependency, Within, OnCycle, Acyclic, Searched, PlanRank, PlansKnown;
    ghost var rank, bound := Ranking(db, {plan});
    var traverser := {plan};
    ghost var seen: set<string> := {};
    ghost var n := 0;
    SearchStarts(db, plan, rank);
    while traverser != {}
      invariant Searched(db, plan, rank, n, traverser, seen) && (n == 0 ==> traverser == {plan} && seen == {})
      invariant n <= bound + 1
      decreases bound + 1 - n
    {
      SearchedNext(db, plan, rank, bound, n, traverser, seen);
      LayerIsRanked(db, plan, rank, bound, n, traverser, seen);
      var next := Dependants(db, traverser);
      if plan in next {
        CycleIsCyclic(db, plan);
        return true;
      }
      seen := seen + next;
      traverser := next;
      n := n + 1;
    }
    SearchEnds(db, plan, rank, n, seen);
    ClosedIsAcyclic(db, plan, seen);
    ClosedIsNotOnCycle(db, plan, seen);
    return false;
  }

  lemma Ranking(db: Db, but: set<string>) returns (rank: string -> nat, bound: nat)
    requires Interned(db.tables.tags) && Acyclic(db, but)
    ensures PlanRank(db, but, rank, bound)
  {
    hide Interned, PlanRank;
    rank, bound :| PlanRank(db, but, rank, bound);
  }

  lemma SearchStarts(db: Db, plan: string, rank: string -> nat)
    requires Interned(db.tables.tags) && plan in db.ledger.plan
    ensures Searched(db, plan, rank, 0, {plan}, {})
  {
  }

  lemma LayerIsRanked(db: Db, plan: string, rank: string -> nat, bound: nat, n: nat, traverser: set<string>, seen: set<string>)
    requires Interned(db.tables.tags) && plan in db.ledger.plan && PlanRank(db, {plan}, rank, bound)
    requires Searched(db, plan, rank, n, traverser, seen) && traverser != {}
    ensures n <= bound
  {
    hide Interned, DependsOn, Dependency, Within;
    var p :| p in traverser;
    assert rank(p) < bound;
  }

  lemma SearchEnds(db: Db, plan: string, rank: string -> nat, n: nat, seen: set<string>)
    requires Interned(db.tables.tags) && plan in db.ledger.plan
    requires Searched(db, plan, rank, n, {}, seen) && n > 0
    ensures Closed(db, plan, seen)
  {
    hide Interned, DependsOn, Dependency, Within;
  }
}
