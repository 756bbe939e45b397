/** Exactly which decompositions can leave the orchestrator with open tasks and nobody working on them. */
module Stalls {
  import opened Common
  import opened Graph
  import opened TaskGraphs
  import opened Retry
  import opened Orchestrators
  import opened OrchestratorRuns
  import T = TaskRuns

  // ---- What is left to do when nobody crashes ----

  function Weight(ts: Tasks, id: Id): nat {
    if Has(ts, id, Pending) || Has(ts, id, Ready) then 4 else if Has(ts, id, Running) then 1 else 0
  }

  function Total(ts: Tasks, order: seq<Id>): nat
    decreases |order|
  {
    if order == [] then 0 else Weight(ts, order[0]) + Total(ts, order[1..])
  }

  function Measure(s: State): nat {
    Total(s.tasks, s.order) + 2 * |s.pending| + |s.active|
  }

  lemma {:induction false} TotalFalls(ts: Tasks, us: Tasks, order: seq<Id>, id: Id, k: nat)
    requires forall x :: Weight(us, x) <= Weight(ts, x)
    requires Weight(us, id) + k <= Weight(ts, id)
    ensures Total(us, order) <= Total(ts, order) && (id in order ==> Total(us, order) + k <= Total(ts, order))
    decreases |order|
  {
    hide Weight;
    if order != [] {
      TotalFalls(ts, us, order[1..], id, k);
      assert order == [order[0]] + order[1..];
    }
  }

  // ---- A task that nothing but a crash can end ----

  /** `x` leads nowhere when picked, or waits for `y`, which is no task or a sub-orchestration without result. */
  predicate Hopeless(c: Config, ts: Tasks, x: Id, y: Id) {
    x in ts &&
    if !Doable(c, ts[x].task) then ts[x].status in {Pending, Ready, AwaitingApproval}
    else && ts[x].status == Pending && y in ts[x].dependsOn
         && (y in ts ==> ts[y].task.subOrchestration && ts[y].status != Running && ts[y].status != Completed)
  }

  predicate Waiting(c: Config, s: State, x: Id, y: Id) {
    WellFormed(s) && Plain(s.tasks) && Listed(s) && s.decomposed && !s.awaiting && Hopeless(c, s.tasks, x, y)
  }

  lemma LeaveWaits(c: Config, s: State, id: Id, st: Status, x: Id, y: Id)
    requires Waiting(c, s, x, y) && Has(s.tasks, id, Ready) && (st == AwaitingApproval || st == Failed)
    requires st == Failed ==> Doable(c, s.tasks[id].task)
    ensures var t := s.(tasks := SetStatus(s.tasks, id, st)); Waiting(c, t, x, y) && Measure(t) <= Measure(s)
  {
    hide Total, Doable;
    TotalFalls(s.tasks, SetStatus(s.tasks, id, st), s.order, id, 4);
  }

  lemma StartWaits(c: Config, s: State, task: Task, x: Id, y: Id)
    requires Waiting(c, s, x, y) && task.taskId.Some? && Has(s.tasks, task.taskId.value, Ready)
    requires s.tasks[task.taskId.value].task == task && Doable(c, task) && !task.subOrchestration
    ensures var t := s.(tasks := SetStatus(s.tasks, task.taskId.value, Running), pending := s.pending + [task]);
            Waiting(c, t, x, y) && Measure(t) < Measure(s)
  {
    hide Total;
    TotalFalls(s.tasks, SetStatus(s.tasks, task.taskId.value, Running), s.order, task.taskId.value, 3);
  }

  lemma PlainOne(ts: Tasks, id: Id)
    requires Plain(ts) && id in ts
    ensures PlainTask(ts[id].task)
  {}

  lemma {:induction false} NextWaits(c: Config, s: State, x: Id, y: Id)
    requires Waiting(c, s, x, y)
    ensures var t := NextOrFinalize(c, s).0; Waiting(c, t, x, y) && Measure(t) <= Measure(s)
    decreases |ReadyTasks(s.tasks, s.order)|
  {
    hide NextOrFinalize, ReadyTasks, Measure, Plain, Listed, Hopeless, WellKeyed;
    if CanSpawnMore(c, s) {
      var task := NextUnfolds(c, s);
      var id := task.taskId.value;
      PlainOne(s.tasks, id);
      if task.needsApproval && c.gated {
        LeaveWaits(c, s, id, AwaitingApproval, x, y);
      } else if task.subOrchestration && AtLimit(c) {
        LeaveWaits(c, s, id, Failed, x, y);
        NextWaits(c, s.(tasks := SetStatus(s.tasks, id, Failed)), x, y);
      } else if !task.subOrchestration {
        StartWaits(c, s, task, x, y);
      }
    } else {
      NextEnds(c, s);
    }
  }

  /** Completing a running task promotes nothing that waits for something else. */
  lemma CollectWaits(c: Config, s: State, id: Id, x: Id, y: Id)
    requires Waiting(c, s, x, y) && Has(s.tasks, id, Running)
    ensures var t := Collect(s, Some(id)); Waiting(c, t, x, y) && Measure(t) < Measure(s)
  {
    hide Total, Doable;
    var t := Collect(s, Some(id));
    assert Doable(c, s.tasks[x].task) ==> !Promotable(SetStatus(s.tasks, id, Completed), x);
    TotalFalls(s.tasks, t.tasks, s.order, id, 1);
  }

  lemma QuietBuryWaits(c: Config, s: State, pid: Pid, x: Id, y: Id)
    requires Waiting(c, s, x, y) && pid in s.active
    ensures var t := Bury(s.(monitors := s.monitors - {pid}), pid, true);
            Waiting(c, t, x, y) && Measure(t) < Measure(s)
  {
    hide Total, SetStatus, Decide, SkipDependents;
    var t := Bury(s.(monitors := s.monitors - {pid}), pid, true);
    assert s.active.Keys == t.active.Keys + {pid};
  }

  lemma AssignWaits(c: Config, s: State, child: Pid, x: Id, y: Id)
    requires Waiting(c, s, x, y) && s.pending != [] && child !in s.active
    ensures var t := Assign(s, child, None); Waiting(c, t, x, y) && Measure(t) < Measure(s)
  {
    hide Total;
  }

  lemma UnusedPid(active: map<Pid, Id>) returns (pid: Pid)
    ensures pid !in active
  {
    pid := Above(active.Keys);
  }

  lemma Above(pids: set<Pid>) returns (bound: Pid)
    ensures forall p :: p in pids ==> p < bound
    decreases |pids|
  {
    bound := 0;
    if pids != {} {
      var p :| p in pids;
      var rest := Above(pids - {p});
      bound := if p < rest then rest else p + 1;
      assert pids == (pids - {p}) + {p};
    }
  }

  /** What happens next when every worker does its work. */
  lemma HappyStep(c: Config, s: State, x: Id, y: Id) returns (e: Event)
    requires Waiting(c, s, x, y) && !Idle(s)
    ensures Disciplined(s, e)
    ensures var t := Handle(c, s, e).0; Waiting(c, t, x, y) && Measure(t) < Measure(s)
  {
    hide Measure, Collect, Assign, Bury, NextOrFinalize;
    if s.pending != [] {
      var child := UnusedPid(s.active);
      AssignWaits(c, s, child, x, y);
      e := Spawned(child, None);
    } else {
      var pid :| pid in s.active;
      if Has(s.tasks, s.active[pid], Running) {
        CollectWaits(c, s, s.active[pid], x, y);
        e := WorkerResult(Some(pid), Some(s.active[pid]));
      } else {
        QuietBuryWaits(c, s, pid, x, y);
        NextWaits(c, Bury(s.(monitors := s.monitors - {pid}), pid, true), x, y);
        e := Down(pid, true);
      }
    }
  }

  /** When every worker does its work, a task without hope is what remains. */
  lemma {:induction false} HappyEnd(c: Config, s: State, x: Id, y: Id) returns (es: seq<Event>)
    requires Waiting(c, s, x, y)
    ensures Behaved(c, s, es) && Stalled(After(c, s, es))
    decreases Measure(s)
  {
    hide Handle, Measure, Disciplined;
    if Idle(s) {
      es := [];
    } else {
      var e := HappyStep(c, s, x, y);
      var rest := HappyEnd(c, Handle(c, s, e).0, x, y);
      es := [e] + rest;
      assert es[1..] == rest;
    }
  }

  // ---- Exactly when it never stalls ----

  ghost predicate CannotStall(c: Config, s: State)
    requires WellFormed(s)
  {
    forall es :: Behaved(c, s, es) ==> !Stalled(After(c, s, es))
  }

  lemma NoHope(c: Config, ts: Tasks) returns (x: Id, y: Id)
    requires !Completable(c, ts)
    requires forall id :: id in ts ==> ts[id].status == if ts[id].dependsOn == [] then Ready else Pending
    ensures Hopeless(c, ts, x, y)
  {
    hide Doable;
    if z :| z in ts && !Doable(c, ts[z].task) {
      x, y := z, z;
    } else {
      var a, b :| a in ts && b in ts[a].dependsOn && !(b in ts && !ts[b].task.subOrchestration);
      x, y := a, b;
    }
  }

  /** Once a decomposition is accepted, the orchestrator is safe from stalls, whichever workers die and in whatever
      order events arrive, if and only if no task takes the approval gate, sub-orchestrations are at the depth
      limit, and each dependency names a task of the batch that is no sub-orchestration. */
  lemma NeverStallsIff(c: Config, s: State, list: seq<Task>)
    requires WellFormed(s) && Cleared(s) && PlainBatch(list) && Accept(s, list).0.Ok?
    ensures CannotStall(c, Handle(c, s, Decomposed(list)).0) <==> Completable(c, Accept(s, list).1.tasks)
  {
    hide Accept, NextOrFinalize, T.Added, Stalled, Behaved, After, T.Inv;
    var (a, start) := (Accept(s, list).1, Handle(c, s, Decomposed(list)).0);
    AcceptedIsPlain(s, list);
    if Completable(c, a.tasks) {
      forall es | Behaved(c, start, es) ensures !Stalled(After(c, start, es)) {
        NeverStalls(c, s, list, es);
      }
    } else {
      var x, y := NoHope(c, a.tasks);
      NextWaits(c, a, x, y);
      var es := HappyEnd(c, start, x, y);
    }
  }

  /** No two entries share an id. */
  predicate DistinctIds(list: seq<Task>) {
    forall i, j :: 0 <= i < j < |list| ==> list[i].taskId != list[j].taskId
  }

  ghost predicate NamesWork(list: seq<Task>, d: Id) {
    exists t :: t in list && t.taskId == Some(d) && !t.subOrchestration
  }

  /** Read off the batch: each entry gets somewhere, and each of its dependencies is the id of an entry that is no
      sub-orchestration. */
  lemma CompletableBatch(c: Config, s: State, list: seq<Task>)
    requires WellFormed(s) && Cleared(s) && Accept(s, list).0.Ok? && DistinctIds(Batch(list))
    ensures Completable(c, Accept(s, list).1.tasks) <==>
            forall t :: t in Batch(list) ==> Doable(c, t) && forall d :: d in t.dependsOn ==> NamesWork(Batch(list), d)
  {
    hide HasCycle, DistinctIds, Load, Completable, NamesWork;
    var ids := LoadAdds(map[], [], Batch(list));
    EntriesAreNodes(Batch(list));
    ReadOff(c, Batch(list), Accept(s, list).1.tasks);
  }

  predicate Entries(batch: seq<Task>, ts: Tasks) {
    && (forall t :: t in batch ==> t.taskId.Some? && t.taskId.value in ts && ts[t.taskId.value] == NewNode(t))
    && (forall x :: x in ts ==> ts[x].task in batch && ts[x].task.taskId == Some(x) && ts[x] == NewNode(ts[x].task))
  }

  lemma ReadOff(c: Config, batch: seq<Task>, ts: Tasks)
    requires Entries(batch, ts)
    ensures Completable(c, ts) <==>
            forall t :: t in batch ==> Doable(c, t) && forall d :: d in t.dependsOn ==> NamesWork(batch, d)
  {
    forall d ensures NamesWork(batch, d) <==> d in ts && !ts[d].task.subOrchestration {
      if d in ts {
        assert ts[d].task in batch && ts[d].task.taskId == Some(d);
      }
    }
  }

  lemma EntriesAreNodes(batch: seq<Task>)
    requires DistinctIds(batch) && Load(map[], [], batch).complete
    ensures Entries(batch, Load(map[], [], batch).tasks)
  {
    hide Load;
    var ts := Load(map[], [], batch).tasks;
    var ids := LoadAdds(map[], [], batch);
    forall t | t in batch ensures t.taskId.Some? && t.taskId.value in ts && ts[t.taskId.value] == NewNode(t) {
      LoadedNode(map[], [], batch, t.taskId.value);
    }
    forall x | x in ts ensures ts[x].task in batch && ts[x].task.taskId == Some(x) && ts[x] == NewNode(ts[x].task) {
      LoadedNode(map[], [], batch, x);
    }
  }

  // ---- Concrete runs ----

  lemma StallStep(c: Config, s: State, e: Event)
    requires WellFormed(s) && Stalled(s) && ReadyTasks(s.tasks, s.order) == [] && Disciplined(s, e)
    ensures var t := Handle(c, s, e).0; Idle(t) && t.tasks == s.tasks && t.order == s.order
  {
    hide AllTerminal, WellKeyed, ReadyTasks, NextOrFinalize;
    var t := Apply(s, e).0;
    assert Idle(t) && t.tasks == s.tasks && t.order == s.order;
    if Apply(s, e).1.None? {
      NextEnds(c, t);
    }
  }

  /** A stall with nothing ready is for ever. */
  lemma {:induction false} StallLasts(c: Config, s: State, es: seq<Event>)
    requires WellFormed(s) && Stalled(s) && ReadyTasks(s.tasks, s.order) == [] && Behaved(c, s, es)
    ensures Stalled(After(c, s, es)) && After(c, s, es).tasks == s.tasks
    decreases |es|
  {
    hide AllTerminal, WellKeyed, ReadyTasks, Handle, Disciplined;
    if es != [] {
      StallStep(c, s, es[0]);
      StallLasts(c, Handle(c, s, es[0]).0, es[1..]);
    }
  }

  const AFTER_2: Task := Task(Some(3), [2], false, false)

  function PairOf(s: State, t: Task, u: Task): State {
    s.(awaiting := false, decomposed := true, order := [2, 3], tasks := map[2 := NewNode(t), 3 := NewNode(u)])
  }

  lemma PairAccepted(s: State, t: Task, u: Task)
    requires WellFormed(s) && Cleared(s)
    requires t.taskId == Some(2) && t.dependsOn == [] && u.taskId == Some(3) && u.dependsOn <= [2]
    ensures Accept(s, [t, u]) == (Ok(()), PairOf(s, t, u))
  {
    hide WellFormed, HasCycle, Load;
    var ts: Tasks := map[2 := NewNode(t), 3 := NewNode(u)];
    PairLoaded(t, u);
    RankedHasNoCycle(DepsOf(ts), map[2 := 0, 3 := 1]);
    assert [] + [2, 3] == [2, 3];
  }

  lemma PairLoaded(t: Task, u: Task)
    requires t.taskId == Some(2) && u.taskId == Some(3)
    ensures Load(map[], [], [t, u]) == Loaded(map[2 := NewNode(t), 3 := NewNode(u)], [2, 3], true)
  {
    hide NewNode;
    var first: Tasks := map[2 := NewNode(t)];
    var both: Tasks := map[2 := NewNode(t), 3 := NewNode(u)];
    assert first[3 := NewNode(u)] == both;
    assert [t, u][1..] == [u] && [u][1..] == [] && [] + [2] == [2] && [2] + [3] == [2, 3];
    calc {
      Load(map[], [], [t, u]);
      Load(first, [2], [u]);
      Load(both, [2, 3], []);
    }
  }

  lemma PairListed(ts: Tasks)
    ensures ReadyTasks(ts, [2, 3]) ==
            (if Has(ts, 2, Ready) then [ts[2].task] else []) + (if Has(ts, 3, Ready) then [ts[3].task] else [])
  {
    assert [2, 3][1..] == [3] && [3][1..] == [];
    assert ReadyTasks(ts, [3]) == if Has(ts, 3, Ready) then [ts[3].task] else [];
  }

  /** A task that waits for approval or fails at the depth limit leaves the task behind it waiting for ever,
      although nothing dangles. */
  lemma LostTaskStalls(c: Config, s: State, t: Task, es: seq<Event>)
    requires WellFormed(s) && Cleared(s) && t.taskId == Some(2) && t.dependsOn == []
    requires (t.needsApproval && c.gated) || (t.subOrchestration && AtLimit(c))
    requires Behaved(c, Handle(c, s, Decomposed([t, AFTER_2])).0, es)
    ensures var batch := [t, AFTER_2];
            && PlainBatch(batch) && Accept(s, batch).0.Ok?
            && !T.HasDangling(Accept(s, batch).1.tasks)
            && Handle(c, s, Decomposed(batch)).1 == Continue
            && Stalled(Handle(c, s, Decomposed(batch)).0)
            && Stalled(After(c, Handle(c, s, Decomposed(batch)).0, es))
  {
    hide NextOrFinalize, After, Behaved, Accept, T.HasDangling, Stalled, ReadyTasks, WellFormed, SetStatus;
    PairAccepted(s, t, AFTER_2);
    NothingDangles(s, t);
    FirstLost(c, s, t);
    StallLasts(c, Handle(c, s, Decomposed([t, AFTER_2])).0, es);
  }

  lemma NothingDangles(s: State, t: Task)
    requires t.dependsOn == []
    ensures !T.HasDangling(PairOf(s, t, AFTER_2).tasks)
  {}

  lemma FirstLost(c: Config, s: State, t: Task)
    requires WellFormed(s) && Cleared(s) && t.taskId == Some(2) && t.dependsOn == []
    requires (t.needsApproval && c.gated) || (t.subOrchestration && AtLimit(c))
    ensures var a := PairOf(s, t, AFTER_2);
            var st := if t.needsApproval && c.gated then AwaitingApproval else Failed;
            var u := a.(tasks := SetStatus(a.tasks, 2, st));
            && WellFormed(a) && NextOrFinalize(c, a) == (u, Continue) && Stalled(u) && ReadyTasks(u.tasks, u.order) == []
  {
    hide NextOrFinalize;
    var a := PairOf(s, t, AFTER_2);
    PairListed(a.tasks);
    var first := NextUnfolds(c, a);
    var st := if t.needsApproval && c.gated then AwaitingApproval else Failed;
    var u := a.(tasks := SetStatus(a.tasks, 2, st));
    SecondWaits(c, u);
  }

  lemma SecondWaits(c: Config, s: State)
    requires WellFormed(s) && Idle(s) && s.order == [2, 3] && Has(s.tasks, 3, Pending) && !Has(s.tasks, 2, Ready)
    ensures NextOrFinalize(c, s) == (s, Continue) && Stalled(s) && ReadyTasks(s.tasks, s.order) == []
  {
    hide NextOrFinalize;
    PairListed(s.tasks);
    NextEnds(c, s);
  }

  const WORK: Task := Task(Some(2), [], false, false)
  const OTHER: Task := Task(Some(3), [], false, false)

  /** The first task of the pair runs on process 5. */
  function FirstRuns(s: State, u: Task): State {
    var a := PairOf(s, WORK, u);
    a.(tasks := SetStatus(a.tasks, 2, Running), active := map[5 := 2], inflight := map[2 := WORK])
  }

  /** The first task of the pair waits for its worker. */
  function FirstPends(s: State, u: Task): State {
    var a := PairOf(s, WORK, u);
    a.(tasks := SetStatus(a.tasks, 2, Running), pending := [WORK])
  }

  lemma FirstStarts(c: Config, s: State, u: Task)
    requires WellFormed(s) && Cleared(s) && u.taskId == Some(3) && u.dependsOn <= [2] && PlainTask(u)
    ensures WellFormed(PairOf(s, WORK, u)) && NextOrFinalize(c, PairOf(s, WORK, u)).0 == FirstPends(s, u)
  {
    hide NextOrFinalize;
    var a := PairOf(s, WORK, u);
    PairListed(a.tasks);
    var task := NextUnfolds(c, a);
    assert [] + [WORK] == [WORK];
  }

  lemma PairStarts(c: Config, s: State, from: Option<Pid>, u: Task)
    requires WellFormed(s) && u.taskId == Some(3) && u.dependsOn <= [2] && PlainTask(u)
    ensures After(c, s, [NewGoal(from), Decomposed([WORK, u]), Spawned(5, None)]) == FirstRuns(Restart(s, from), u)
  {
    hide NextOrFinalize, Accept;
    var start := Restart(s, from);
    var es := [NewGoal(from), Decomposed([WORK, u]), Spawned(5, None)];
    PairAccepted(start, WORK, u);
    FirstStarts(c, start, u);
    assert Handle(c, FirstPends(start, u), Spawned(5, None)).0 == FirstRuns(start, u);
    ThreeEvents(c, s, es);
  }

  lemma ThreeEvents(c: Config, s: State, es: seq<Event>)
    requires WellFormed(s) && |es| == 3
    ensures After(c, s, es) == Handle(c, Handle(c, Handle(c, s, es[0]).0, es[1]).0, es[2]).0
  {
    hide Handle, WellFormed;
    assert es[1..] == [es[1], es[2]] && [es[1], es[2]][1..] == [es[2]] && [es[2]][1..] == [];
    var last := Handle(c, Handle(c, s, es[0]).0, es[1]).0;
    assert After(c, last, [es[2]]) == After(c, Handle(c, last, es[2]).0, []);
  }

  /** A worker that ends normally without a result leaves its task running for nobody. */
  lemma QuietExitStalls(c: Config, s: State, from: Option<Pid>)
    requires WellFormed(s)
    ensures Stalled(After(c, s, [NewGoal(from), Decomposed([WORK, AFTER_2]), Spawned(5, None)] + [Down(5, true)]))
  {
    hide NextOrFinalize, After;
    var es := [NewGoal(from), Decomposed([WORK, AFTER_2]), Spawned(5, None)];
    AfterMore(c, s, es, Down(5, true));
    PairStarts(c, s, from, AFTER_2);
    FirstLeaves(c, Restart(s, from));
  }

  lemma FirstLeaves(c: Config, s: State)
    requires WellFormed(s) && Cleared(s)
    ensures WellFormed(FirstRuns(s, AFTER_2)) && Stalled(Handle(c, FirstRuns(s, AFTER_2), Down(5, true)).0)
  {
    hide NextOrFinalize, Decide, SkipDependents, SetStatus, Stalled, CanSpawnMore;
    var f := FirstRuns(s, AFTER_2);
    RunsForm(s, AFTER_2);
    var t := Bury(f.(monitors := f.monitors - {5}), 5, true);
    assert t.active == map[];
    NothingStarts(c, t);
  }

  lemma RunsForm(s: State, u: Task)
    requires WellFormed(s) && Cleared(s) && u.taskId == Some(3)
    ensures WellFormed(FirstRuns(s, u))
  {}

  lemma NothingStarts(c: Config, s: State)
    requires s.tasks == SetStatus(map[2 := NewNode(WORK), 3 := NewNode(AFTER_2)], 2, Running) && s.order == [2, 3]
    requires Idle(s)
    ensures WellFormed(s) && NextOrFinalize(c, s).0 == s && Stalled(s)
  {
    hide NextOrFinalize;
    PairListed(s.tasks);
    assert Has(s.tasks, 2, Running);
    NextEnds(c, s);
  }

  /** A pid reported again while it is at work takes the only worker from its first task. */
  lemma ReusedPidLosesATask(c: Config, s: State, from: Option<Pid>)
    requires WellFormed(s) && c.maxConcurrency > 1
    ensures var es := [NewGoal(from), Decomposed([WORK, OTHER]), Spawned(5, None)];
            var t := After(c, s, es + [Down(9, true)] + [Spawned(5, None)]);
            2 in t.inflight && !HasWorker(t, 2)
  {
    hide NextOrFinalize, After;
    var es := [NewGoal(from), Decomposed([WORK, OTHER]), Spawned(5, None)];
    AfterMore(c, s, es + [Down(9, true)], Spawned(5, None));
    AfterMore(c, s, es, Down(9, true));
    PairStarts(c, s, from, OTHER);
    SecondPends(c, Restart(s, from));
  }

  lemma SecondPends(c: Config, s: State)
    requires WellFormed(s) && Cleared(s) && c.maxConcurrency > 1
    ensures var t := FirstRuns(s, OTHER);
            && WellFormed(t)
            && Handle(c, t, Down(9, true)).0.active == t.active && Handle(c, t, Down(9, true)).0.pending == [OTHER]
            && Handle(c, t, Down(9, true)).0.inflight == t.inflight
  {
    hide NextOrFinalize, SetStatus, CanSpawnMore;
    var t := FirstRuns(s, OTHER);
    SecondStarts(c, t, OTHER);
    SecondStarts(c, t.(monitors := t.monitors - {9}), OTHER);
  }

  lemma SecondStarts(c: Config, s: State, u: Task)
    requires s.tasks == SetStatus(map[2 := NewNode(WORK), 3 := NewNode(u)], 2, Running) && s.order == [2, 3]
    requires u.taskId == Some(3) && u.dependsOn == [] && Doable(c, u) && !u.subOrchestration
    requires s.active == map[5 := 2] && s.pending == [] && s.decomposed && !s.awaiting && c.maxConcurrency > 1
    ensures WellFormed(s) && NextOrFinalize(c, s).0 == s.(tasks := SetStatus(s.tasks, 3, Running), pending := [u])
  {
    hide NextOrFinalize;
    PairListed(s.tasks);
    var task := NextUnfolds(c, s);
    assert [] + [u] == [u];
  }

  predicate ChildNext(c: Config, s: State, id: Id) {
    && CanSpawnMore(c, s) && s.pending == [] && !AtLimit(c)
    && var t := ReadyTasks(s.tasks, s.order)[0];
       t.taskId == Some(id) && id != EMPTY_ID && t.subOrchestration && !(t.needsApproval && c.gated)
  }

  /** Below the limit a sub-orchestration stays ready: every spawn report spawns it again. */
  lemma {:induction false} ChildIsSpawnedAgain(c: Config, s: State, id: Id, es: seq<Event>)
    requires WellFormed(s) && ChildNext(c, s, id) && forall e :: e in es ==> e.Spawned?
    ensures After(c, s, es) == s && forall e :: e in es ==> Handle(c, s, e) == (s, SpawnOrchestrator(id))
    decreases |es|
  {
    hide ChildNext, WellFormed, Handle;
    if es != [] {
      ChildStep(c, s, id, es[0]);
      ChildIsSpawnedAgain(c, s, id, es[1..]);
      assert es == [es[0]] + es[1..];
    }
  }

  lemma ChildStep(c: Config, s: State, id: Id, e: Event)
    requires WellFormed(s) && ChildNext(c, s, id) && e.Spawned?
    ensures Handle(c, s, e) == (s, SpawnOrchestrator(id))
  {}
}
