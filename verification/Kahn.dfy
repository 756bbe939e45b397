/** Kahn's topological drain, the loop that `TaskGraph::detect_cycle` and `validate_dag` share. */
module Kahn {
  import opened Common
  import opened Graph

  /** How many positions of `ds` name a member of `s`; a repeated id counts every time. */
  function Count(ds: seq<Id>, s: set<Id>): nat {
    if ds == [] then 0 else (if ds[0] in s then 1 else 0) + Count(ds[1..], s)
  }

  lemma {:induction false} CountWithout(ds: seq<Id>, s: set<Id>, c: Id)
    requires c in s
    ensures Count(ds, s) == Count(ds, s - {c}) + multiset(ds)[c]
  {
    if ds != [] {
      CountWithout(ds[1..], s, c);
      assert ds == [ds[0]] + ds[1..];
    }
  }

  lemma {:induction false} CountPositive(ds: seq<Id>, s: set<Id>)
    ensures Count(ds, s) > 0 <==> exists y :: y in ds && y in s
  {
    if ds != [] {
      CountPositive(ds[1..], s);
      assert ds == [ds[0]] + ds[1..];
    }
  }

  /** `dependents[c]` lists `x` exactly as often as `x` names `c` as a dependency. */
  ghost predicate Inverts(g: Deps, dependents: map<Id, seq<Id>>) {
    forall c, x :: Multiplicity(dependents, c, x) == Multiplicity(g, x, c)
  }

  ghost function Multiplicity(g: Deps, x: Id, y: Id): nat {
    if x in g then multiset(g[x])[y] else 0
  }

  /** Reverses the dependency lists. The hash map is visited in an arbitrary order. */
  method Dependents(g: Deps) returns (dependents: map<Id, seq<Id>>)
    ensures Inverts(g, dependents)
  {
    dependents := map[];
    var rest := g.Keys;
    while rest != {}
      invariant rest <= g.Keys
      invariant forall c, x :: Multiplicity(dependents, c, x) == (if x in rest then 0 else Multiplicity(g, x, c))
    {
      var id :| id in rest;
      rest := rest - {id};
      var ds := g[id];
      for i := 0 to |ds|
        invariant forall c, x :: Multiplicity(dependents, c, x) ==
                                 (if x in rest then 0
                                  else if x == id then multiset(ds[..i])[c]
                                  else Multiplicity(g, x, c))
      {
        assert ds[..i + 1] == ds[..i] + [ds[i]];
        dependents := dependents[ds[i] := (if ds[i] in dependents then dependents[ds[i]] else []) + [id]];
      }
      assert ds[..|ds|] == ds;
    }
  }

  /** What is still missing: for each node the positions that name a member of `left`. */
  ghost function Counts(g: Deps, left: set<Id>): map<Id, nat> {
    map x | x in g :: Count(g[x], left)
  }

  /** The queue holds, once each, the nodes of `left` that wait for nothing. */
  ghost predicate Queued(inDegree: map<Id, nat>, left: set<Id>, queue: seq<Id>) {
    && left <= inDegree.Keys
    && (forall x :: multiset(queue)[x] == if x in left && inDegree[x] == 0 then 1 else 0)
    && (forall x :: x in inDegree && x !in left ==> inDegree[x] == 0)
  }

  /** The initial queue, in whatever order the hash map yields it. */
  method WithoutDependencies(inDegree: map<Id, nat>) returns (queue: seq<Id>)
    ensures Queued(inDegree, inDegree.Keys, queue)
  {
    queue := [];
    var rest := inDegree.Keys;
    while rest != {}
      invariant rest <= inDegree.Keys
      invariant forall x :: multiset(queue)[x] == if x in inDegree.Keys - rest && inDegree[x] == 0 then 1 else 0
    {
      var id :| id in rest;
      rest := rest - {id};
      if inDegree[id] == 0 {
        queue := queue + [id];
      }
    }
  }

  /** The nodes already processed rank below everything that depends on them. */
  ghost predicate RankedSoFar(g: Deps, rank: map<Id, nat>, processed: nat) {
    && (forall x :: x in rank ==> x in g && rank[x] < processed)
    && (forall x, y :: x in rank && Edge(g, x, y) && y in g ==> y in rank && rank[y] < rank[x])
  }

  /** Every id of `ds` is owed one decrement per occurrence before the degrees are `target`. */
  ghost predicate Owed(inDegree: map<Id, nat>, ds: seq<Id>, target: map<Id, nat>) {
    && target.Keys == inDegree.Keys
    && (forall x :: x in ds ==> x in inDegree)
    && (forall x :: x in inDegree ==> inDegree[x] == target[x] + multiset(ds)[x])
  }

  lemma Pop(inDegree: map<Id, nat>, left: set<Id>, queue: seq<Id>)
    requires queue != [] && Queued(inDegree, left, queue)
    ensures queue[0] in left && queue[0] in inDegree && inDegree[queue[0]] == 0
    ensures Queued(inDegree, left - {queue[0]}, queue[1..])
  {
    assert queue == [queue[0]] + queue[1..];
    assert multiset(queue)[queue[0]] > 0;
  }

  /** Processing `c` leaves each node waiting for its other dependencies. */
  lemma Pay(g: Deps, dependents: map<Id, seq<Id>>, left: set<Id>, c: Id)
    requires c in left && Inverts(g, dependents)
    ensures Owed(Counts(g, left), if c in dependents then dependents[c] else [], Counts(g, left - {c}))
    ensures c !in dependents ==> Counts(g, left - {c}) == Counts(g, left)
  {
    var ds := if c in dependents then dependents[c] else [];
    forall x ensures multiset(ds)[x] == Multiplicity(g, x, c)
             ensures x in g ==> Count(g[x], left) == Count(g[x], left - {c}) + multiset(ds)[x] {
      assert Multiplicity(dependents, c, x) == Multiplicity(g, x, c);
      if x in g {
        CountWithout(g[x], left, c);
      }
    }
    forall x | x in ds ensures x in g {
      assert multiset(ds)[x] > 0;
    }
  }

  lemma RankNext(g: Deps, left: set<Id>, rank: map<Id, nat>, c: Id, processed: nat)
    requires left <= g.Keys && c in left && Counts(g, left)[c] == 0
    requires rank.Keys == g.Keys - left && RankedSoFar(g, rank, processed)
    ensures RankedSoFar(g, rank[c := processed], processed + 1)
  {
    CountPositive(g[c], left);
  }

  /** The drain so far: `left` are the nodes not yet dequeued, and the others were dequeued once each. */
  ghost predicate Draining(g: Deps, left: set<Id>, queue: seq<Id>, rank: map<Id, nat>, processed: nat) {
    && left <= g.Keys && Queued(Counts(g, left), left, queue)
    && processed + |left| == |g| && rank.Keys == g.Keys - left && RankedSoFar(g, rank, processed)
  }

  lemma NothingDequeued(g: Deps, ready: seq<Id>)
    requires Queued(Counts(g, g.Keys), g.Keys, ready)
    ensures Draining(g, g.Keys, ready, map[], 0)
  {}

  lemma Dequeue(g: Deps, dependents: map<Id, seq<Id>>, left: set<Id>, queue: seq<Id>, rank: map<Id, nat>, processed: nat)
    requires Draining(g, left, queue, rank, processed) && queue != [] && Inverts(g, dependents)
    ensures var (c, rest) := (queue[0], left - {queue[0]});
            && c in left && Queued(Counts(g, left), rest, queue[1..])
            && Owed(Counts(g, left), if c in dependents then dependents[c] else [], Counts(g, rest))
            && (c !in dependents ==> Counts(g, rest) == Counts(g, left))
            && forall q :: Queued(Counts(g, rest), rest, q) ==> Draining(g, rest, q, rank[c := processed], processed + 1)
  {
    hide Queued, Owed, Counts, RankedSoFar, Inverts;
    Pop(Counts(g, left), left, queue);
    Pay(g, dependents, left, queue[0]);
    RankNext(g, left, rank, queue[0], processed);
  }

  /** Processes nodes whose dependencies are all processed until none is left. `rank` is where each node was
      dequeued: there are as many as were processed, so none was dequeued twice, and each comes after its
      dependencies. What stays behind can never go first, and something does exactly when there is a cycle. The
      natural-number type of `inDegree` says that no decrement underflows. */
  method Drain(g: Deps, initial: map<Id, nat>, dependents: map<Id, seq<Id>>, ready: seq<Id>)
      returns (processed: nat, ghost rank: map<Id, nat>)
    requires initial == Counts(g, g.Keys) && Inverts(g, dependents) && Queued(initial, g.Keys, ready)
    ensures |rank| == processed <= |g| && RankedSoFar(g, rank, processed)
    ensures Stuck(g, g.Keys - rank.Keys)
    ensures processed < |g| <==> HasCycle(g)
  {
    hide Inverts, Queued, Counts, Owed, Draining, RankedSoFar, HasCycle, Stuck;
    var inDegree, queue := initial, ready;
    processed, rank := 0, map[];
    ghost var left := g.Keys;
    NothingDequeued(g, ready);
    while queue != []
      invariant inDegree == Counts(g, left) && Draining(g, left, queue, rank, processed)
      decreases left
    {
      var current := queue[0];
      Dequeue(g, dependents, left, queue, rank, processed);
      left, rank := left - {current}, rank[current := processed];
      queue, processed := queue[1..], processed + 1;
      if current in dependents {
        inDegree, queue := Release(inDegree, queue, dependents[current], Counts(g, left), left);
      }
    }
    Verdict(g, left, queue, rank, processed);
  }

  lemma Verdict(g: Deps, left: set<Id>, queue: seq<Id>, rank: map<Id, nat>, processed: nat)
    requires Draining(g, left, queue, rank, processed) && queue == []
    ensures |rank| == processed <= |g| && RankedSoFar(g, rank, processed)
    ensures Stuck(g, g.Keys - rank.Keys)
    ensures processed < |g| <==> HasCycle(g)
  {
    hide Queued, Counts, RankedSoFar, Stuck, Ranked;
    Partition(g.Keys, left, rank.Keys);
    assert |g| == |g.Keys| && |rank| == |rank.Keys|;
    assert left == {} <==> |left| == 0;
    LeftIsStuck(g, left);
    if left == {} {
      RankedSoFarIsRanked(g, rank, processed);
      RankedHasNoCycle(g, rank);
    } else {
      StuckHasCycle(g, left);
    }
  }

  lemma Partition(all: set<Id>, left: set<Id>, rest: set<Id>)
    requires left <= all && rest == all - left
    ensures left == all - rest && |all| == |left| + |rest|
  {
    assert all == left + rest;
  }

  lemma LeftIsStuck(g: Deps, left: set<Id>)
    requires left <= g.Keys && Queued(Counts(g, left), left, [])
    ensures Stuck(g, left)
  {
    forall x | x in left ensures DependsInto(g, left, x) {
      assert multiset([])[x] == 0;
      CountPositive(g[x], left);
    }
  }

  lemma RankedSoFarIsRanked(g: Deps, rank: map<Id, nat>, processed: nat)
    requires RankedSoFar(g, rank, processed) && rank.Keys == g.Keys
    ensures Ranked(g, rank)
  {}

  /** The inner loop: a processed node is paid off once for each occurrence in a dependency list. */
  method Release(initial: map<Id, nat>, waiting: seq<Id>, ds: seq<Id>, ghost target: map<Id, nat>, ghost left: set<Id>)
      returns (inDegree: map<Id, nat>, queue: seq<Id>)
    requires Owed(initial, ds, target)
    requires Queued(initial, left, waiting)
    ensures inDegree == target
    ensures Queued(inDegree, left, queue)
  {
    inDegree, queue := initial, waiting;
    for k := 0 to |ds|
      invariant Owed(inDegree, ds[k..], target)
      invariant Queued(inDegree, left, queue)
    {
      var next := ds[k];
      PayOne(inDegree, ds[k..], target, left, queue);
      assert ds[k..][1..] == ds[k + 1..];
      inDegree := inDegree[next := inDegree[next] - 1];
      if inDegree[next] == 0 {
        queue := queue + [next];
      }
    }
  }

  /** One decrement: it cannot underflow, and a node joins the queue when it reaches zero. */
  lemma PayOne(inDegree: map<Id, nat>, ds: seq<Id>, target: map<Id, nat>, left: set<Id>, queue: seq<Id>)
    requires ds != [] && Owed(inDegree, ds, target) && Queued(inDegree, left, queue)
    ensures ds[0] in inDegree && inDegree[ds[0]] > 0
    ensures var lower := inDegree[ds[0] := inDegree[ds[0]] - 1];
            && Owed(lower, ds[1..], target)
            && Queued(lower, left, if lower[ds[0]] == 0 then queue + [ds[0]] else queue)
  {
    assert ds == [ds[0]] + ds[1..];
  }
}
