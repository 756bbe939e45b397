/** Swarm DAGs: validation before a run, and the wave-by-wave run itself. */
module Swarm {
  import opened Common
  import opened Graph
  import Kahn

  datatype SwarmStep = SwarmStep(id: Id, dependsOn: seq<Id>)

  datatype DagError = UnknownDependency(step: Id, dep: Id) | Cycle

  predicate HasStep(steps: seq<SwarmStep>, id: Id) {
    exists s :: s in steps && s.id == id
  }

  ghost predicate DistinctIds(steps: seq<SwarmStep>) {
    forall i, j :: 0 <= i < j < |steps| ==> steps[i].id != steps[j].id
  }

  predicate Known(steps: seq<SwarmStep>, s: SwarmStep) {
    forall d :: d in s.dependsOn ==> HasStep(steps, d)
  }

  predicate AllKnown(steps: seq<SwarmStep>) {
    forall s :: s in steps ==> Known(steps, s)
  }

  function AddStep(g: Deps, s: SwarmStep): Deps {
    g[s.id := (if s.id in g then g[s.id] else []) + s.dependsOn]
  }

  /** The dependency relation the validator sees: steps that share an id are merged. */
  function Relation(steps: seq<SwarmStep>): Deps {
    if steps == [] then map[]
    else AddStep(Relation(steps[..|steps| - 1]), steps[|steps| - 1])
  }

  /** Of the steps that share an id the last one decides. */
  lemma {:induction false} LastStepWins(steps: seq<SwarmStep>, k: nat)
    requires k < |steps| && forall j :: k < j < |steps| ==> steps[j].id != steps[k].id
    ensures steps[k].id in StepMap(steps) && StepMap(steps)[steps[k].id] == steps[k].dependsOn
  {
    if k < |steps| - 1 {
      LastStepWins(steps[..|steps| - 1], k);
    }
  }

  /** The step map of a run: of the steps that share an id the last one wins. */
  function StepMap(steps: seq<SwarmStep>): Deps {
    if steps == [] then map[]
    else StepMap(steps[..|steps| - 1])[steps[|steps| - 1].id := steps[|steps| - 1].dependsOn]
  }

  lemma {:induction false} RelationNodes(steps: seq<SwarmStep>)
    ensures forall id :: id in Relation(steps) <==> HasStep(steps, id)
    ensures Relation(steps).Keys == StepMap(steps).Keys
  {
    if steps != [] {
      var n := |steps| - 1;
      RelationNodes(steps[..n]);
      assert steps == steps[..n] + [steps[n]];
      forall id ensures HasStep(steps, id) <==> HasStep(steps[..n], id) || id == steps[n].id {
        assert steps[n] in steps;
      }
    }
  }

  lemma LastIdFresh(steps: seq<SwarmStep>)
    requires steps != []
    ensures DistinctIds(steps) <==>
            DistinctIds(steps[..|steps| - 1]) && steps[|steps| - 1].id !in Relation(steps[..|steps| - 1])
  {
    var n := |steps| - 1;
    var rest := steps[..n];
    RelationNodes(rest);
    if steps[n].id in Relation(rest) {
      var s :| s in rest && s.id == steps[n].id;
      var i :| 0 <= i < n && rest[i] == s;
      assert steps[i].id == steps[n].id;
    } else {
      forall i | 0 <= i < n ensures steps[i].id != steps[n].id {
        assert rest[i] in rest;
      }
    }
  }

  lemma {:induction false} RelationSize(steps: seq<SwarmStep>)
    ensures |Relation(steps)| <= |steps|
    ensures |Relation(steps)| == |steps| <==> DistinctIds(steps)
  {
    if steps != [] {
      var n := |steps| - 1;
      var before := Relation(steps[..n]);
      RelationSize(steps[..n]);
      LastIdFresh(steps);
      assert Relation(steps).Keys == before.Keys + {steps[n].id};
      assert |before| == |before.Keys| && |Relation(steps)| == |Relation(steps).Keys|;
    }
  }

  lemma {:induction false} DistinctMapsAgree(steps: seq<SwarmStep>)
    requires DistinctIds(steps)
    ensures StepMap(steps) == Relation(steps)
  {
    if steps != [] {
      var n := |steps| - 1;
      LastIdFresh(steps);
      DistinctMapsAgree(steps[..n]);
      assert [] + steps[n].dependsOn == steps[n].dependsOn;
    }
  }

  lemma {:induction false} RelationDependency(steps: seq<SwarmStep>, id: Id, d: Id)
    requires Edge(Relation(steps), id, d)
    ensures exists s :: s in steps && s.id == id && d in s.dependsOn
  {
    var n := |steps| - 1;
    if d in steps[n].dependsOn && steps[n].id == id {
      assert steps[n] in steps;
    } else {
      RelationDependency(steps[..n], id, d);
      var s :| s in steps[..n] && s.id == id && d in s.dependsOn;
      assert s in steps;
    }
  }

  lemma {:induction false} CountAll(ds: seq<Id>, s: set<Id>)
    requires forall d :: d in ds ==> d in s
    ensures Kahn.Count(ds, s) == |ds|
  {
    if ds != [] {
      CountAll(ds[1..], s);
    }
  }

  lemma KnownCounts(steps: seq<SwarmStep>, inDegree: map<Id, nat>)
    requires AllKnown(steps)
    requires inDegree.Keys == Relation(steps).Keys && forall id :: id in inDegree ==> inDegree[id] == |Relation(steps)[id]|
    ensures inDegree == Kahn.Counts(Relation(steps), Relation(steps).Keys)
  {
    var g := Relation(steps);
    RelationNodes(steps);
    forall id | id in g ensures Kahn.Count(g[id], g.Keys) == |g[id]| {
      forall d | d in g[id] ensures d in g {
        RelationDependency(steps, id, d);
        var s :| s in steps && s.id == id && d in s.dependsOn;
        assert Known(steps, s);
      }
      CountAll(g[id], g.Keys);
    }
  }

  /** Accepts exactly the lists with distinct ids, known dependencies and no cycle.
      A repeated id is reported as a cycle. */
  method ValidateDag(steps: seq<SwarmStep>) returns (r: Result<(), DagError>)
    ensures r.Ok? <==> DistinctIds(steps) && AllKnown(steps) && !HasCycle(Relation(steps))
    ensures r.Err? && r.error.UnknownDependency? <==> !AllKnown(steps)
    ensures r.Err? && r.error.UnknownDependency? ==>
              !HasStep(steps, r.error.dep) && Edge(Relation(steps), r.error.step, r.error.dep)
  {
    var unknown := FindUnknown(steps);
    if unknown.Some? {
      return Err(unknown.value);
    }
    var inDegree, adj := BuildAdjacency(steps);
    KnownCounts(steps, inDegree);
    RelationSize(steps);
    var queue := Kahn.WithoutDependencies(inDegree);
    var visited, _ := Kahn.Drain(Relation(steps), inDegree, adj, queue);
    return if visited != |steps| then Err(Cycle) else Ok(());
  }

  method FindUnknown(steps: seq<SwarmStep>) returns (r: Option<DagError>)
    ensures r.None? <==> AllKnown(steps)
    ensures r.Some? ==> r.value.UnknownDependency? && !HasStep(steps, r.value.dep)
                        && Edge(Relation(steps), r.value.step, r.value.dep)
  {
    for i := 0 to |steps|
      invariant forall s :: s in steps[..i] ==> Known(steps, s)
    {
      var s := steps[i];
      for j := 0 to |s.dependsOn|
        invariant forall d :: d in s.dependsOn[..j] ==> HasStep(steps, d)
      {
        var dep := s.dependsOn[j];
        if !HasStep(steps, dep) {
          assert s in steps && dep in s.dependsOn && !Known(steps, s);
          StepInRelation(steps, i, dep);
          return Some(UnknownDependency(s.id, dep));
        }
        assert s.dependsOn[..j + 1] == s.dependsOn[..j] + [dep];
      }
      assert s.dependsOn[..|s.dependsOn|] == s.dependsOn;
      assert steps[..i + 1] == steps[..i] + [s];
    }
    assert steps[..|steps|] == steps;
    return None;
  }

  lemma {:induction false} StepInRelation(steps: seq<SwarmStep>, i: nat, d: Id)
    requires i < |steps| && d in steps[i].dependsOn
    ensures Edge(Relation(steps), steps[i].id, d)
  {
    if i < |steps| - 1 {
      StepInRelation(steps[..|steps| - 1], i, d);
    }
  }

  method BuildAdjacency(steps: seq<SwarmStep>) returns (inDegree: map<Id, nat>, adj: map<Id, seq<Id>>)
    ensures inDegree.Keys == Relation(steps).Keys
    ensures forall id :: id in inDegree ==> inDegree[id] == |Relation(steps)[id]|
    ensures Kahn.Inverts(Relation(steps), adj)
  {
    inDegree, adj := map[], map[];
    for i := 0 to |steps|
      invariant inDegree.Keys == Relation(steps[..i]).Keys
      invariant forall id :: id in inDegree ==> inDegree[id] == |Relation(steps[..i])[id]|
      invariant Kahn.Inverts(Relation(steps[..i]), adj)
    {
      inDegree, adj := AddEdges(Relation(steps[..i]), inDegree, adj, steps[i]);
      assert steps[..i + 1][..i] == steps[..i];
    }
    assert steps[..|steps|] == steps;
  }

  method AddEdges(ghost g: Deps, inDegree0: map<Id, nat>, adj0: map<Id, seq<Id>>, s: SwarmStep)
      returns (inDegree: map<Id, nat>, adj: map<Id, seq<Id>>)
    requires inDegree0.Keys == g.Keys && (forall id :: id in g ==> inDegree0[id] == |g[id]|) && Kahn.Inverts(g, adj0)
    ensures inDegree.Keys == AddStep(g, s).Keys
    ensures forall id :: id in inDegree ==> inDegree[id] == |AddStep(g, s)[id]|
    ensures Kahn.Inverts(AddStep(g, s), adj)
  {
    inDegree := if s.id in inDegree0 then inDegree0 else inDegree0[s.id := 0];
    adj := if s.id in adj0 then adj0 else adj0[s.id := []];
    AddNoEdge(g, s.id, adj0);
    for j := 0 to |s.dependsOn|
      invariant inDegree.Keys == g.Keys + {s.id}
      invariant forall id :: id in inDegree ==> inDegree[id] == |AddStep(g, s.(dependsOn := s.dependsOn[..j]))[id]|
      invariant Kahn.Inverts(AddStep(g, s.(dependsOn := s.dependsOn[..j])), adj)
    {
      var dep := s.dependsOn[j];
      assert s.dependsOn[..j + 1] == s.dependsOn[..j] + [dep];
      AddOneEdge(g, s.id, s.dependsOn[..j], dep, adj);
      adj := adj[dep := (if dep in adj then adj[dep] else []) + [s.id]];
      inDegree := inDegree[s.id := inDegree[s.id] + 1];
    }
    assert s.(dependsOn := s.dependsOn[..|s.dependsOn|]) == s;
  }

  lemma AddNoEdge(g: Deps, id: Id, adj: map<Id, seq<Id>>)
    requires Kahn.Inverts(g, adj)
    ensures Kahn.Inverts(AddStep(g, SwarmStep(id, [])), if id in adj then adj else adj[id := []])
  {
    var grown := if id in adj then adj else adj[id := []];
    forall c, x ensures Kahn.Multiplicity(grown, c, x) == Kahn.Multiplicity(AddStep(g, SwarmStep(id, [])), x, c) {
      assert Kahn.Multiplicity(adj, c, x) == Kahn.Multiplicity(g, x, c);
      assert x in g ==> g[x] + [] == g[x];
    }
  }

  lemma AddOneEdge(g: Deps, id: Id, ds: seq<Id>, dep: Id, adj: map<Id, seq<Id>>)
    requires Kahn.Inverts(AddStep(g, SwarmStep(id, ds)), adj)
    ensures Kahn.Inverts(AddStep(g, SwarmStep(id, ds + [dep])), adj[dep := (if dep in adj then adj[dep] else []) + [id]])
  {
    var before, after := AddStep(g, SwarmStep(id, ds)), AddStep(g, SwarmStep(id, ds + [dep]));
    assert after[id] == before[id] + [dep];
    forall c, x ensures Kahn.Multiplicity(adj[dep := (if dep in adj then adj[dep] else []) + [id]], c, x)
                        == Kahn.Multiplicity(after, x, c) {
      assert Kahn.Multiplicity(adj, c, x) == Kahn.Multiplicity(before, x, c);
    }
  }

  // ---- Running ----

  /** `x` transitively depends on an id that does not exist or on a cycle. */
  ghost predicate Doomed(g: Deps, x: Id) {
    exists z :: Reaches(g, x, z) && (z !in g || Reaches(g, z, z))
  }

  lemma DoomedThrough(g: Deps, x: Id)
    requires Doomed(g, x)
    ensures exists d :: Edge(g, x, d) && (d !in g || Doomed(g, d))
  {
    var z :| Reaches(g, x, z) && (z !in g || Reaches(g, z, z));
    var d := FirstEdge(g, x, z);
    if d in g {
      assert Reaches(g, d, z);
    }
  }

  lemma DoomSpreads(g: Deps, x: Id, d: Id)
    requires Edge(g, x, d) && (d !in g || Doomed(g, d))
    ensures Doomed(g, x)
  {
    EdgeReaches(g, x, d);
    if d in g {
      var z :| Reaches(g, d, z) && (z !in g || Reaches(g, z, z));
      EdgeThenReaches(g, x, d, z);
    }
  }

  lemma StuckIsDoomed(g: Deps, s: set<Id>)
    requires Stuck(g, s)
    requires s != {}
    ensures exists y :: y in s && Doomed(g, y)
  {
    StuckHasCycle(g, s);
    var y :| y in s && Reaches(g, y, y);
    assert Doomed(g, y);
  }

  ghost predicate WaitsOn(g: Deps, pending: set<Id>, x: Id) {
    exists d :: Edge(g, x, d) && (d in pending || d !in g)
  }

  /** When every pending step waits for something pending or absent, all of them are doomed. */
  lemma BlockedAreDoomed(g: Deps, pending: set<Id>, x: Id)
    requires pending <= g.Keys && x in pending
    requires forall y :: y in pending ==> WaitsOn(g, pending, y)
    ensures Doomed(g, x)
  {
    var sound := set y | y in pending && !Doomed(g, y);
    forall y | y in sound ensures DependsInto(g, sound, y) {
      assert WaitsOn(g, pending, y);
      var d :| Edge(g, y, d) && (d in pending || d !in g);
      if d !in g || Doomed(g, d) {
        DoomSpreads(g, y, d);
      }
    }
    if !Doomed(g, x) {
      assert x in sound;
      StuckIsDoomed(g, sound);
    }
  }

  /** The history of a run: `started` in order, with the wave of each step. */
  ghost predicate Waves(g: Deps, started: seq<Id>, wave: map<Id, nat>) {
    && StartedOnce(started, wave)
    && wave.Keys <= g.Keys
    && (forall x, d :: x in wave && d in g[x] ==> d in wave && wave[d] < wave[x])
    && InWaveOrder(started, wave)
  }

  ghost predicate StartedOnce(started: seq<Id>, wave: map<Id, nat>) {
    forall x :: multiset(started)[x] == if x in wave then 1 else 0
  }

  ghost predicate InWaveOrder(started: seq<Id>, wave: map<Id, nat>) {
    forall i, j :: 0 <= i < j < |started| ==>
      started[i] in wave && started[j] in wave && wave[started[i]] <= wave[started[j]]
  }

  /** Between waves: what is not pending has completed, in a wave before `n`, and was not doomed. */
  ghost predicate Progress(g: Deps, pending: set<Id>, started: seq<Id>, wave: map<Id, nat>, n: nat) {
    && pending <= g.Keys && wave.Keys == g.Keys - pending
    && Waves(g, started, wave)
    && (forall x :: x in wave ==> wave[x] < n && !Doomed(g, x))
  }

  ghost predicate ReadyList(g: Deps, pending: set<Id>, ready: seq<Id>) {
    forall x :: multiset(ready)[x] == if x in pending && IsReady(g, g.Keys - pending, x) then 1 else 0
  }

  /** Runs the steps wave by wave. `joins` says which of the spawned processes can be joined; a failed
      join loses the result but still counts as completion. Every step that is not doomed starts exactly
      once, in a later wave than all its dependencies; exactly the doomed steps are left behind. */
  method RunDag(steps: seq<SwarmStep>, joins: Id -> bool)
      returns (started: seq<Id>, ghost wave: map<Id, nat>, results: seq<Id>, left: set<Id>)
    ensures Waves(StepMap(steps), started, wave)
    ensures wave.Keys == StepMap(steps).Keys - left
    ensures left == set x | x in StepMap(steps) && Doomed(StepMap(steps), x)
    ensures Subsequence(results, started)
    ensures forall x :: multiset(results)[x] == if x in wave && joins(x) then 1 else 0
  {
    var g := StepMap(steps);
    started, results, wave := [], [], map[];
    var completed, pending := {}, g.Keys;
    ghost var n: nat := 0;
    assert Progress(g, pending, started, wave, n);
    hide Progress, ReadyList, Doomed, WaitsOn;
    while pending != {}
      invariant Progress(g, pending, started, wave, n) && completed == g.Keys - pending
      invariant pending <= g.Keys
      invariant results == Joined(started, joins)
      decreases pending
    {
      var ready := FindReady(g, pending, completed);
      if ready == [] {
        break;
      }
      NextWave(g, pending, ready, started, wave, n);
      JoinedSplits(started, ready, joins);
      pending := pending - (set x | x in ready);
      started, wave, n := started + ready, wave + (map x | x in ready :: n), n + 1;
      completed, results := JoinWave(ready, joins, completed, results);
    }
    left := pending;
    LeftIsDoomed(g, left, started, wave, n);
    JoinedIsThatPart(started, joins);
  }

  lemma NextWave(g: Deps, pending: set<Id>, ready: seq<Id>, started: seq<Id>, wave: map<Id, nat>, n: nat)
    requires Progress(g, pending, started, wave, n) && ReadyList(g, pending, ready)
    ensures forall x :: x in ready ==> x in pending
    ensures ready != [] ==> ready[0] in pending
    ensures (g.Keys - pending) + (set x | x in ready) == g.Keys - (pending - (set x | x in ready))
    ensures Progress(g, pending - (set x | x in ready), started + ready, wave + (map x | x in ready :: n), n + 1)
  {
    forall x | x in ready ensures x in pending && IsReady(g, g.Keys - pending, x) && !Doomed(g, x) {
      assert multiset(ready)[x] > 0;
      if Doomed(g, x) {
        DoomedThrough(g, x);
      }
    }
    NextWaves(g, pending, ready, started, wave, n);
  }

  lemma NextWaves(g: Deps, pending: set<Id>, ready: seq<Id>, started: seq<Id>, wave: map<Id, nat>, n: nat)
    requires Progress(g, pending, started, wave, n) && ReadyList(g, pending, ready)
    requires forall x :: x in ready ==> x in pending && IsReady(g, g.Keys - pending, x)
    ensures Waves(g, started + ready, wave + (map x | x in ready :: n))
  {
    hide Doomed, StartedOnce, InWaveOrder, ReadyList, IsReady;
    StartMore(g, pending, ready, started, wave, n);
    StartedKnown(started, wave);
    OrderMore(ready, started, wave, n);
    DependMore(g, pending, ready, wave, n);
  }

  lemma StartedKnown(started: seq<Id>, wave: map<Id, nat>)
    requires StartedOnce(started, wave)
    ensures forall x :: x in started ==> x in wave
  {
    forall x | x in started ensures x in wave {
      assert multiset(started)[x] > 0;
    }
  }

  lemma DependMore(g: Deps, pending: set<Id>, ready: seq<Id>, wave: map<Id, nat>, n: nat)
    requires pending <= g.Keys && wave.Keys == g.Keys - pending && forall x :: x in wave ==> wave[x] < n
    requires forall x, d :: x in wave && d in g[x] ==> d in wave && wave[d] < wave[x]
    requires forall x :: x in ready ==> x in pending && IsReady(g, g.Keys - pending, x)
    ensures var grown := wave + (map x | x in ready :: n);
            forall x, d :: x in grown && d in g[x] ==> d in grown && grown[d] < grown[x]
  {}

  lemma OrderMore(ready: seq<Id>, started: seq<Id>, wave: map<Id, nat>, n: nat)
    requires InWaveOrder(started, wave)
    requires forall x :: x in wave ==> wave[x] < n && x !in ready
    requires forall x :: x in started ==> x in wave
    ensures InWaveOrder(started + ready, wave + (map x | x in ready :: n))
  {}

  lemma StartMore(g: Deps, pending: set<Id>, ready: seq<Id>, started: seq<Id>, wave: map<Id, nat>, n: nat)
    requires ReadyList(g, pending, ready) && StartedOnce(started, wave) && wave.Keys == g.Keys - pending
    ensures StartedOnce(started + ready, wave + (map x | x in ready :: n))
  {}

  lemma LeftIsDoomed(g: Deps, left: set<Id>, started: seq<Id>, wave: map<Id, nat>, n: nat)
    requires Progress(g, left, started, wave, n)
    requires forall x :: x in left ==> WaitsOn(g, left, x)
    ensures Waves(g, started, wave) && wave.Keys == g.Keys - left
    ensures left == set x | x in g && Doomed(g, x)
  {
    forall x | x in left ensures Doomed(g, x) {
      BlockedAreDoomed(g, left, x);
    }
  }

  predicate IsReady(g: Deps, completed: set<Id>, x: Id) {
    x in g && forall d :: d in g[x] ==> d in completed
  }

  method FindReady(g: Deps, pending: set<Id>, completed: set<Id>) returns (ready: seq<Id>)
    requires pending <= g.Keys && completed == g.Keys - pending
    ensures ReadyList(g, pending, ready)
    ensures ready == [] ==> forall x :: x in pending ==> WaitsOn(g, pending, x)
  {
    ready := [];
    var rest := pending;
    while rest != {}
      invariant rest <= pending
      invariant forall x :: multiset(ready)[x] == if x in pending - rest && IsReady(g, completed, x) then 1 else 0
    {
      var x :| x in rest;
      rest := rest - {x};
      if IsReady(g, completed, x) {
        ready := ready + [x];
      }
    }
    if ready == [] {
      forall x | x in pending ensures WaitsOn(g, pending, x) {
        assert multiset(ready)[x] == 0;
        var d :| d in g[x] && d !in completed;
        assert Edge(g, x, d);
      }
    }
  }

  function Joined(ids: seq<Id>, joins: Id -> bool): seq<Id> {
    if ids == [] then [] else (if joins(ids[0]) then [ids[0]] else []) + Joined(ids[1..], joins)
  }

  lemma {:induction false} JoinedIsThatPart(ids: seq<Id>, joins: Id -> bool)
    ensures Subsequence(Joined(ids, joins), ids)
    ensures forall x :: multiset(Joined(ids, joins))[x] == if joins(x) then multiset(ids)[x] else 0
  {
    if ids != [] {
      JoinedIsThatPart(ids[1..], joins);
      var rest := Joined(ids[1..], joins);
      assert ids == [ids[0]] + ids[1..];
      if joins(ids[0]) {
        assert ([ids[0]] + rest)[1..] == rest;
      } else {
        assert [] + rest == rest;
        SubsequenceSkip(rest, ids[0], ids[1..]);
      }
    }
  }

  lemma {:induction false} JoinedSplits(a: seq<Id>, b: seq<Id>, joins: Id -> bool)
    ensures Joined(a + b, joins) == Joined(a, joins) + Joined(b, joins)
  {
    if a == [] {
      assert a + b == b;
    } else {
      JoinedSplits(a[1..], b, joins);
      assert (a + b)[0] == a[0] && (a + b)[1..] == a[1..] + b;
      Reassociate(if joins(a[0]) then [a[0]] else [], Joined(a[1..], joins), Joined(b, joins));
    }
  }

  method JoinWave(ids: seq<Id>, joins: Id -> bool, completed0: set<Id>, results0: seq<Id>)
      returns (completed: set<Id>, results: seq<Id>)
    ensures completed == completed0 + set x | x in ids
    ensures results == results0 + Joined(ids, joins)
  {
    completed, results := completed0, results0;
    for i := 0 to |ids|
      invariant completed == completed0 + set x | x in ids[..i]
      invariant results + Joined(ids[i..], joins) == results0 + Joined(ids, joins)
    {
      assert ids[..i + 1] == ids[..i] + [ids[i]] && ids[i..][1..] == ids[i + 1..];
      completed := completed + {ids[i]};
      if joins(ids[i]) {
        results := results + [ids[i]];
      }
    }
    assert ids[..|ids|] == ids;
  }

  lemma DoomedHasCause(g: Deps, x: Id)
    requires Doomed(g, x)
    ensures HasCycle(g) || exists y, d :: Edge(g, y, d) && d !in g
  {
    var z :| Reaches(g, x, z) && (z !in g || Reaches(g, z, z));
    if z !in g {
      var p :| WalkFromTo(g, p, x, z);
      assert Edge(g, p[|p| - 2], p[|p| - 1]);
    }
  }

  lemma CycleIsDoomed(g: Deps)
    requires HasCycle(g)
    ensures exists x :: x in g && Doomed(g, x)
  {
    var x :| Reaches(g, x, x);
    var y := FirstEdge(g, x, x);
    assert Doomed(g, x);
  }

  lemma KnownIffPresent(steps: seq<SwarmStep>)
    ensures AllKnown(steps) <==> forall y, d :: Edge(Relation(steps), y, d) ==> d in Relation(steps)
  {
    var g := Relation(steps);
    RelationNodes(steps);
    forall y, d | Edge(g, y, d) && AllKnown(steps) ensures d in g {
      RelationDependency(steps, y, d);
      var s :| s in steps && s.id == y && d in s.dependsOn;
      assert Known(steps, s);
    }
    if !AllKnown(steps) {
      var s :| s in steps && !Known(steps, s);
      var d :| d in s.dependsOn && !HasStep(steps, d);
      var i :| 0 <= i < |steps| && steps[i] == s;
      StepInRelation(steps, i, d);
    }
  }

  /** Validation and execution agree: with distinct ids, a list is accepted exactly when its run
      leaves no step behind. */
  lemma AcceptedIffNothingDoomed(steps: seq<SwarmStep>)
    requires DistinctIds(steps)
    ensures AllKnown(steps) && !HasCycle(Relation(steps)) <==>
            forall x :: x in StepMap(steps) ==> !Doomed(StepMap(steps), x)
  {
    var g := StepMap(steps);
    DistinctMapsAgree(steps);
    KnownIffPresent(steps);
    if x :| x in g && Doomed(g, x) {
      DoomedHasCause(g, x);
    } else if HasCycle(g) {
      CycleIsDoomed(g);
    } else if y, d :| Edge(g, y, d) && d !in g {
      DoomSpreads(g, y, d);
    }
  }
}
