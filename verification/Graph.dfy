/** Dependency relations over task ids, and what it means for them to hold a cycle.
    Ids are strings in the runtime, which only ever compares them for equality. */
module Graph {

  type Id = nat

  /** The ids each node depends on, duplicates and absent ids included. */
  type Deps = map<Id, seq<Id>>

  predicate Edge(g: Deps, x: Id, y: Id) {
    x in g && y in g[x]
  }

  ghost predicate Walk(g: Deps, p: seq<Id>) {
    |p| > 0 && forall i :: 0 <= i < |p| - 1 ==> Edge(g, p[i], p[i + 1])
  }

  ghost predicate WalkFromTo(g: Deps, p: seq<Id>, x: Id, y: Id) {
    |p| > 1 && p[0] == x && p[|p| - 1] == y && Walk(g, p)
  }

  /** `x` transitively depends on `y`, in one step or more. */
  ghost predicate Reaches(g: Deps, x: Id, y: Id) {
    exists p :: WalkFromTo(g, p, x, y)
  }

  /** A directed cycle. Every id on it has an outgoing edge, so ids that are not nodes never lie on one. */
  ghost predicate HasCycle(g: Deps) {
    exists x :: Reaches(g, x, x)
  }

  lemma WalkSuffix(g: Deps, p: seq<Id>, k: nat)
    requires Walk(g, p) && k < |p|
    ensures Walk(g, p[k..])
  {
    forall i | 0 <= i < |p[k..]| - 1 ensures Edge(g, p[k..][i], p[k..][i + 1]) {
      assert Edge(g, p[k + i], p[k + i + 1]);
    }
  }

  lemma EdgeReaches(g: Deps, x: Id, y: Id)
    requires Edge(g, x, y)
    ensures Reaches(g, x, y)
  {
    assert WalkFromTo(g, [x, y], x, y);
  }

  lemma EdgeThenReaches(g: Deps, x: Id, y: Id, z: Id)
    requires Edge(g, x, y) && Reaches(g, y, z)
    ensures Reaches(g, x, z)
  {
    var p :| WalkFromTo(g, p, y, z);
    assert WalkFromTo(g, [x] + p, x, z);
  }

  /** A transitive dependency starts with one edge. */
  lemma FirstEdge(g: Deps, x: Id, z: Id) returns (y: Id)
    requires Reaches(g, x, z)
    ensures Edge(g, x, y) && (y == z || Reaches(g, y, z))
  {
    var p :| WalkFromTo(g, p, x, z);
    y := p[1];
    assert Edge(g, p[0], p[1]);
    if |p| > 2 {
      WalkSuffix(g, p, 1);
      assert WalkFromTo(g, p[1..], y, z);
    }
  }

  lemma LastEdge(g: Deps, x: Id, z: Id) returns (y: Id)
    requires Reaches(g, x, z)
    ensures Edge(g, y, z)
  {
    var p :| WalkFromTo(g, p, x, z);
    y := p[|p| - 2];
    assert Edge(g, p[|p| - 2], p[|p| - 1]);
  }

  /** A set that contains every node with an edge into `t` or into the set contains everything that reaches `t`. */
  lemma {:induction false} ClosedContainsReaching(g: Deps, s: set<Id>, t: Id, p: seq<Id>)
    requires forall x, y :: Edge(g, x, y) && (y == t || y in s) ==> x in s
    requires |p| > 1 && Walk(g, p) && p[|p| - 1] == t
    ensures p[0] in s
    decreases |p|
  {
    assert Edge(g, p[0], p[1]);
    if |p| > 2 {
      WalkSuffix(g, p, 1);
      ClosedContainsReaching(g, s, t, p[1..]);
    }
  }

  /** Every edge between nodes goes from a higher rank to a lower one. */
  ghost predicate Ranked(g: Deps, rank: map<Id, nat>) {
    && rank.Keys == g.Keys
    && forall x, y :: Edge(g, x, y) && y in g ==> rank[y] < rank[x]
  }

  lemma {:induction false} WalkDescends(g: Deps, rank: map<Id, nat>, p: seq<Id>)
    requires Ranked(g, rank) && Walk(g, p) && p[0] in g && p[|p| - 1] in g
    ensures |p| > 1 ==> rank[p[|p| - 1]] < rank[p[0]]
    decreases |p|
  {
    if |p| > 1 {
      assert Edge(g, p[0], p[1]);
      if |p| > 2 {
        assert Edge(g, p[1], p[2]);
        WalkSuffix(g, p, 1);
        WalkDescends(g, rank, p[1..]);
      }
    }
  }

  lemma RankedHasNoCycle(g: Deps, rank: map<Id, nat>)
    requires Ranked(g, rank)
    ensures !HasCycle(g)
  {
    if HasCycle(g) {
      var x :| Reaches(g, x, x);
      var p :| WalkFromTo(g, p, x, x);
      assert Edge(g, p[0], p[1]);
      WalkDescends(g, rank, p);
    }
  }

  ghost predicate DependsInto(g: Deps, s: set<Id>, x: Id) {
    exists y :: y in s && Edge(g, x, y)
  }

  /** Every member of `s` depends on some member of `s`: nothing in it can ever go first. */
  ghost predicate Stuck(g: Deps, s: set<Id>) {
    forall x {:trigger DependsInto(g, s, x)} :: x in s ==> DependsInto(g, s, x)
  }

  lemma StuckHasCycle(g: Deps, s: set<Id>)
    requires Stuck(g, s)
    requires s != {}
    ensures exists y :: y in s && Reaches(g, y, y)
  {
    var x :| x in s;
    WalkUntilRepeat(g, s, [x]);
  }

  lemma {:induction false} WalkUntilRepeat(g: Deps, s: set<Id>, p: seq<Id>)
    requires Stuck(g, s) && Walk(g, p) && forall x :: x in p ==> x in s
    ensures exists y :: y in s && Reaches(g, y, y)
    decreases s - set x | x in p
  {
    var last := p[|p| - 1];
    assert last in p && DependsInto(g, s, last);
    var y :| y in s && Edge(g, last, y);
    var q := p + [y];
    assert Walk(g, q) by {
      forall i | 0 <= i < |q| - 1 ensures Edge(g, q[i], q[i + 1]) {
        if i < |p| - 1 {
          assert Edge(g, p[i], p[i + 1]);
        }
      }
    }
    if y in p {
      var k :| 0 <= k < |p| && p[k] == y;
      WalkSuffix(g, q, k);
      assert WalkFromTo(g, q[k..], y, y);
      assert Reaches(g, y, y);
    } else {
      assert y in s - (set x | x in p) && y in (set x | x in q);
      assert forall x :: x in p ==> x in q;
      WalkUntilRepeat(g, s, q);
    }
  }
}
