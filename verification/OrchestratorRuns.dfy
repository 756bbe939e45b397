/** What the orchestrator does with one decomposition: it refines the runs of the task graph, and never stalls if all
    tasks can complete. */
module OrchestratorRuns {
  import opened Common
  import opened Graph
  import opened TaskGraphs
  import opened Retry
  import opened Orchestrators
  import T = TaskRuns

  /** The id is not the empty string. */
  predicate PlainTask(t: Task) {
    t.taskId != Some(EMPTY_ID)
  }

  predicate Plain(ts: Tasks) {
    forall id :: id in ts ==> PlainTask(ts[id].task)
  }

  /** Sub-orchestrations fail on the spot. */
  predicate AtLimit(c: Config) {
    c.currentDepth >= c.maxDepth
  }

  /** Being picked gets the task somewhere: to a worker, or to its failure at the depth limit. */
  predicate Doable(c: Config, t: Task) {
    !(t.needsApproval && c.gated) && (t.subOrchestration ==> AtLimit(c))
  }

  /** Each task gets somewhere when picked, and waits only for tasks that can complete: for tasks that are there
      and are no sub-orchestrations. */
  predicate Completable(c: Config, ts: Tasks) {
    && (forall x :: x in ts ==> Doable(c, ts[x].task))
    && forall x, y :: x in ts && y in ts[x].dependsOn ==> y in ts && !ts[y].task.subOrchestration
  }

  predicate AwaitsSpawn(s: State, id: Id) {
    exists t :: t in s.pending && t.taskId == Some(id)
  }

  /** Somebody will still report on every running task. */
  predicate Tracked(s: State) {
    forall id :: id in s.tasks && s.tasks[id].status == Running ==> HasWorker(s, id) || AwaitsSpawn(s, id)
  }

  predicate Listed(s: State) {
    forall id :: id in s.tasks ==> id in s.order
  }

  ghost predicate Orderly(c: Config, s: State) {
    && WellFormed(s) && Plain(s.tasks) && Listed(s) && Tracked(s)
    && T.Inv(s.tasks) && Completable(c, s.tasks)
    && s.decomposed && !s.awaiting
  }

  predicate Idle(s: State) {
    s.active == map[] && s.pending == []
  }

  /** Nobody is working or about to, yet the tasks are not done. */
  predicate Stalled(s: State) {
    Idle(s) && !AllTerminal(s.tasks)
  }

  predicate EndsWell(s: State, pid: Pid, normal: bool) {
    pid in s.active ==> (normal <==> !Has(s.tasks, s.active[pid], Running))
  }

  /** How workers behave: a worker reports on the task it runs, ends normally only after that, abnormally
      only before, and no pid is reused while alive. No new goal or second decomposition arrives. */
  predicate Disciplined(s: State, e: Event) {
    match e
    case Progress => true
    case WorkerResult(worker, task) =>
      && worker.Some? && worker.value in s.active
      && task == Some(s.active[worker.value]) && Has(s.tasks, task.value, Running)
    case NewGoal(_) => false
    case Decomposed(_) => false
    case Spawned(child, _) => child !in s.active
    case Down(pid, normal) => EndsWell(s, pid, normal)
    case Exited(pid, normal) => EndsWell(s, pid, normal)
    case Other => true
  }

  function RunOf(s: State): T.Run {
    T.Run(s.tasks, s.ledger)
  }

  // ---- One step of the task graph ----

  lemma StepKeepsTasks(r: T.Run, m: T.Move)
    requires T.Inv(r.tasks) && T.Enabled(r, m)
    ensures var us := T.Step(r, m).tasks;
            us.Keys == r.tasks.Keys && forall x :: x in us ==> us[x].task == r.tasks[x].task
    ensures forall x :: Has(T.Step(r, m).tasks, x, Running) ==>
              (Has(r.tasks, x, Running) && x != m.id) || (m.Start? && x == m.id)
  {
    hide T.Inv, Promotable, Reaches, DepsOf, Decide;
  }

  /** A move of the task graph keeps everything that does not concern who runs what. */
  lemma MoveKeepsOrder(c: Config, s: State, m: T.Move, t: State)
    requires Orderly(c, s) && T.Enabled(RunOf(s), m) && RunOf(t) == T.Step(RunOf(s), m)
    requires t.order == s.order && t.decomposed && !t.awaiting
    requires (forall x :: x in t.pending ==> x.taskId.Some?) && Tracked(t)
    ensures Orderly(c, t)
  {
    hide T.Inv, T.Step, T.Enabled, Tracked, Completable, DepsOf;
    StepKeepsTasks(RunOf(s), m);
    T.StepInv(RunOf(s), m);
    CompletableKept(c, s.tasks, t.tasks);
  }

  lemma CompletableKept(c: Config, ts: Tasks, us: Tasks)
    requires DepsOf(ts) == DepsOf(us) && us.Keys == ts.Keys && forall x :: x in us ==> us[x].task == ts[x].task
    ensures Completable(c, ts) <==> Completable(c, us)
  {
    forall x | x in ts ensures ts[x].dependsOn == us[x].dependsOn {
      assert DepsOf(ts)[x] == DepsOf(us)[x];
    }
  }

  // ---- Picking the next task ----

  lemma NoneReady(ts: Tasks, order: seq<Id>)
    requires ReadyTasks(ts, order) == [] && forall id :: id in ts ==> id in order
    ensures forall id :: !Has(ts, id, Ready)
  {
    forall id | Has(ts, id, Ready) ensures false {
      ReadyTasksAreReady(ts, order, ts[id].task);
    }
  }

  lemma IdleIsDone(c: Config, s: State)
    requires Orderly(c, s) && Idle(s) && ReadyTasks(s.tasks, s.order) == []
    ensures AllTerminal(s.tasks)
  {
    NoneReady(s.tasks, s.order);
    forall id ensures !Has(s.tasks, id, Running) {
      assert !HasWorker(s, id) && !AwaitsSpawn(s, id);
    }
    assert !T.HasDangling(s.tasks);
    T.NoDeadlock(s.tasks);
  }

  /** What `next_or_finalize` does with the first ready task while there is room. */
  lemma NextUnfolds(c: Config, s: State) returns (task: Task)
    requires WellFormed(s) && CanSpawnMore(c, s)
    ensures task == ReadyTasks(s.tasks, s.order)[0] && task.taskId.Some? && Has(s.tasks, task.taskId.value, Ready)
    ensures var id := task.taskId.value;
            var failed := s.(tasks := SetStatus(s.tasks, id, Failed));
            && id in s.order && s.tasks[id].task == task
            && |ReadyTasks(failed.tasks, failed.order)| < |ReadyTasks(s.tasks, s.order)|
            && NextOrFinalize(c, s) ==
               if id == EMPTY_ID then (s.(pending := s.pending + [task]), SpawnWorker(id))
               else if task.needsApproval && c.gated then (s.(tasks := SetStatus(s.tasks, id, AwaitingApproval)), Continue)
               else if task.subOrchestration then
                 if AtLimit(c) then NextOrFinalize(c, failed) else (s, SpawnOrchestrator(id))
               else (s.(tasks := SetStatus(s.tasks, id, Running), pending := s.pending + [task]), SpawnWorker(id))
  {
    FirstReady(s.tasks, s.order);
    task := ReadyTasks(s.tasks, s.order)[0];
    ReadyTasksFall(s.tasks, s.order, task.taskId.value, Failed);
  }

  /** Room is used: with fewer than `max_concurrency` workers and spawns, or none at all, a task that can be worked on
      and heads the ready list is spawned for at once. */
  lemma RoomIsUsed(c: Config, s: State)
    requires WellFormed(s) && Plain(s.tasks) && s.decomposed && !s.awaiting && ReadyTasks(s.tasks, s.order) != []
    requires var busy := |s.active| + |s.pending|; busy == 0 || busy < c.maxConcurrency
    requires var t := ReadyTasks(s.tasks, s.order)[0]; Doable(c, t) && !t.subOrchestration
    ensures var (t, task) := (NextOrFinalize(c, s).0, ReadyTasks(s.tasks, s.order)[0]);
            && task.taskId.Some? && NextOrFinalize(c, s).1 == SpawnWorker(task.taskId.value)
            && Has(t.tasks, task.taskId.value, Running) && t.pending == s.pending + [task]
  {
    hide NextOrFinalize, ReadyTasks;
    var task := NextUnfolds(c, s);
  }

  lemma NextEnds(c: Config, s: State)
    requires WellFormed(s) && !CanSpawnMore(c, s)
    ensures NextOrFinalize(c, s).0 == s
    ensures IsComplete(s) ==> NextOrFinalize(c, s).1.Report? || NextOrFinalize(c, s).1.Stop?
    ensures !IsComplete(s) ==> NextOrFinalize(c, s).1 == Continue
    ensures !NextOrFinalize(c, s).1.SpawnWorker?
  {}

  /** `next_or_finalize` fails the sub-orchestrations at the head of the ready list, each of which nobody depends
      on, and dispatches the first other task; if it leaves nobody working, it has just reported the end. */
  lemma {:induction false} NextRefines(c: Config, s: State) returns (ms: seq<T.Move>)
    requires Orderly(c, s)
    ensures var (t, a) := NextOrFinalize(c, s);
            && Orderly(c, t) && !Stalled(t)
            && T.Valid(RunOf(s), ms) && T.Exec(RunOf(s), ms) == RunOf(t)
            && (a.SpawnWorker? ==> ms != [])
            && (Idle(t) ==> IsComplete(t) && (a.Report? || a.Stop?))
    decreases |ReadyTasks(s.tasks, s.order)|
  {
    hide T.Inv, T.Step, T.Exec, T.Valid, Tracked, Listed, NextOrFinalize;
    if CanSpawnMore(c, s) {
      var task := NextUnfolds(c, s);
      var id := task.taskId.value;
      assert Doable(c, s.tasks[id].task) && PlainTask(s.tasks[id].task);
      if task.subOrchestration {
        RejectRefines(c, s, id);
        var rest := NextRefines(c, s.(tasks := SetStatus(s.tasks, id, Failed)));
        MovesAppend(RunOf(s), [T.Reject(id)], rest);
        ms := [T.Reject(id)] + rest;
      } else {
        var t := NextOrFinalize(c, s).0;
        StartTracked(s, task);
        StartStep(s, id);
        MoveKeepsOrder(c, s, T.Start(id), t);
        OneMove(RunOf(s), T.Start(id));
        ms := [T.Start(id)];
      }
    } else {
      NextEnds(c, s);
      NoMoves(RunOf(s));
      ms := [];
      if Idle(s) {
        IdleIsDone(c, s);
      }
    }
  }

  lemma StartStep(s: State, id: Id)
    requires Has(s.tasks, id, Ready)
    ensures T.Enabled(RunOf(s), T.Start(id))
    ensures T.Step(RunOf(s), T.Start(id)) == T.Run(SetStatus(s.tasks, id, Running), s.ledger)
  {}

  /** A sub-orchestration that fails at the depth limit is a rejected task: nobody depends on it, so there is
      nothing to skip. */
  lemma RejectRefines(c: Config, s: State, id: Id)
    requires Orderly(c, s) && Has(s.tasks, id, Ready) && s.tasks[id].task.subOrchestration
    ensures var t := s.(tasks := SetStatus(s.tasks, id, Failed));
            && Orderly(c, t)
            && T.Valid(RunOf(s), [T.Reject(id)]) && T.Exec(RunOf(s), [T.Reject(id)]) == RunOf(t)
  {
    var t := s.(tasks := SetStatus(s.tasks, id, Failed));
    NoDependents(c, s.tasks, id);
    FewerRunning(s, t);
    hide T.Inv, Completable, Tracked, T.Valid, T.Exec;
    MoveKeepsOrder(c, s, T.Reject(id), t);
    OneMove(RunOf(s), T.Reject(id));
  }

  lemma NoDependents(c: Config, ts: Tasks, id: Id)
    requires Completable(c, ts) && id in ts && ts[id].task.subOrchestration
    ensures T.FailAndSkip(ts, id) == SetStatus(ts, id, Failed)
  {
    var us := SetStatus(ts, id, Failed);
    forall x ensures !Reaches(DepsOf(us), x, id) {
      if Reaches(DepsOf(us), x, id) {
        var y := LastEdge(DepsOf(us), x, id);
      }
    }
  }

  lemma FewerRunning(s: State, t: State)
    requires Tracked(s) && t.active == s.active && t.pending == s.pending
    requires forall x :: Has(t.tasks, x, Running) ==> Has(s.tasks, x, Running)
    ensures Tracked(t)
  {
    forall id: Id | Has(t.tasks, id, Running) ensures HasWorker(t, id) || AwaitsSpawn(t, id) {
      assert HasWorker(s, id) || AwaitsSpawn(s, id);
    }
  }

  lemma StartTracked(s: State, task: Task)
    requires Tracked(s) && task.taskId.Some?
    ensures Tracked(s.(tasks := SetStatus(s.tasks, task.taskId.value, Running), pending := s.pending + [task]))
  {
    var t := s.(tasks := SetStatus(s.tasks, task.taskId.value, Running), pending := s.pending + [task]);
    forall id: Id | Has(t.tasks, id, Running) ensures HasWorker(t, id) || AwaitsSpawn(t, id) {
      if id == task.taskId.value {
        assert task in t.pending;
      } else if HasWorker(s, id) {
        assert HasWorker(t, id);
      } else {
        var u :| u in s.pending && u.taskId == Some(id);
        assert u in t.pending;
      }
    }
  }

  // ---- What each event does first ----

  function MovesOf(s: State, e: Event): seq<T.Move> {
    match e
    case WorkerResult(_, task) => if task.Some? then [T.Finish(task.value)] else []
    case Down(pid, normal) => if pid in s.active && !normal then [T.Die(s.active[pid])] else []
    case Exited(pid, normal) => if pid in s.active && !normal then [T.Die(s.active[pid])] else []
    case _ => []
  }

  lemma OneMove(r: T.Run, m: T.Move)
    requires T.Enabled(r, m)
    ensures T.Valid(r, [m]) && T.Exec(r, [m]) == T.Step(r, m)
  {
    var next := T.Step(r, m);
    assert T.Valid(next, []) && T.Exec(next, []) == next;
    assert [m][1..] == [];
  }

  lemma {:induction false} MovesAppend(r: T.Run, ms: seq<T.Move>, ns: seq<T.Move>)
    requires T.Valid(r, ms) && T.Valid(T.Exec(r, ms), ns)
    ensures T.Valid(r, ms + ns) && T.Exec(r, ms + ns) == T.Exec(T.Exec(r, ms), ns)
    decreases |ms|
  {
    if ms == [] {
      assert [] + ns == ns;
    } else {
      MovesAppend(T.Step(r, ms[0]), ms[1..], ns);
      assert (ms + ns)[1..] == ms[1..] + ns;
    }
  }

  lemma CollectRefines(c: Config, s: State, worker: Pid)
    requires Orderly(c, s) && worker in s.active && Has(s.tasks, s.active[worker], Running)
    ensures var t := Collect(s, Some(s.active[worker]));
            Orderly(c, t) && RunOf(t) == T.Step(RunOf(s), T.Finish(s.active[worker]))
  {
    hide Complete, T.Inv, WellKeyed, Plain, Completable;
    var m := T.Finish(s.active[worker]);
    var t := Collect(s, Some(s.active[worker]));
    assert RunOf(t) == T.Step(RunOf(s), m);
    StepKeepsTasks(RunOf(s), m);
    forall id: Id | Has(t.tasks, id, Running) ensures HasWorker(t, id) || AwaitsSpawn(t, id) {
      assert HasWorker(s, id) || AwaitsSpawn(s, id);
    }
    MoveKeepsOrder(c, s, m, t);
  }

  lemma BuryRefines(c: Config, s: State, pid: Pid, normal: bool)
    requires Orderly(c, s) && EndsWell(s, pid, normal)
    ensures var t := Bury(s, pid, normal);
            && Orderly(c, t)
            && RunOf(t) == if pid in s.active && !normal then T.Step(RunOf(s), T.Die(s.active[pid])) else RunOf(s)
  {
    hide T.Inv, WellKeyed, Plain, Completable, Decide, SkipDependents, SetStatus;
    var t := Bury(s, pid, normal);
    BuryKeeps(s, pid, normal);
    if pid in s.active && !normal {
      var m := T.Die(s.active[pid]);
      assert RunOf(t) == T.Step(RunOf(s), m);
      StepKeepsTasks(RunOf(s), m);
      BuryTracked(s, pid, t);
      MoveKeepsOrder(c, s, m, t);
    } else if pid in s.active {
      BuryTracked(s, pid, t);
    }
  }

  lemma BuryTracked(s: State, pid: Pid, t: State)
    requires Tracked(s) && pid in s.active && t.active == s.active - {pid} && t.pending == s.pending
    requires forall x :: Has(t.tasks, x, Running) ==> Has(s.tasks, x, Running) && x != s.active[pid]
    ensures Tracked(t)
  {
    forall id: Id | Has(t.tasks, id, Running) ensures HasWorker(t, id) || AwaitsSpawn(t, id) {
      if HasWorker(s, id) {
        var p :| p in s.active && s.active[p] == id;
        assert p in t.active && t.active[p] == id;
      } else {
        assert AwaitsSpawn(s, id);
      }
    }
  }

  lemma AssignTracked(s: State, child: Pid, monitor: Option<nat>)
    requires WellFormed(s) && Tracked(s) && s.pending != [] && child !in s.active
    ensures Tracked(Assign(s, child, monitor))
  {
    var t := Assign(s, child, monitor);
    forall id: Id | Has(t.tasks, id, Running) ensures HasWorker(t, id) || AwaitsSpawn(t, id) {
      if HasWorker(s, id) {
        var p :| p in s.active && s.active[p] == id;
        assert p in t.active && t.active[p] == id;
      } else {
        var u :| u in s.pending && u.taskId == Some(id);
        if u == s.pending[0] {
          assert child in t.active && t.active[child] == id;
        } else {
          assert u in t.pending;
        }
      }
    }
  }

  lemma ApplyRefines(c: Config, s: State, e: Event)
    requires Orderly(c, s) && Disciplined(s, e)
    ensures var (t, a) := Apply(s, e);
            && Orderly(c, t)
            && T.Valid(RunOf(s), MovesOf(s, e)) && T.Exec(RunOf(s), MovesOf(s, e)) == RunOf(t)
            && (a.Some? ==> !a.value.SpawnWorker? && (Idle(t) ==> t == s))
  {
    hide T.Inv, WellKeyed, Plain, Completable, Tracked, T.Step, Bury, Complete, T.Exec, T.Valid;
    NoMoves(RunOf(s));
    match e
    case WorkerResult(worker, task) =>
      CollectRefines(c, s, worker.value);
      OneMove(RunOf(s), T.Finish(task.value));
    case Spawned(child, monitor) =>
      if s.pending != [] {
        AssignTracked(s, child, monitor);
        assert child in Assign(s, child, monitor).active;
      }
    case Down(pid, normal) =>
      var t := s.(monitors := s.monitors - {pid});
      SameTracked(s, t);
      BuryRefines(c, t, pid, normal);
      if pid in s.active && !normal {
        OneMove(RunOf(s), T.Die(s.active[pid]));
      }
    case Exited(pid, normal) =>
      BuryRefines(c, s, pid, normal);
      if pid in s.active && !normal {
        OneMove(RunOf(s), T.Die(s.active[pid]));
      }
    case _ =>
  }

  lemma NoMoves(r: T.Run)
    ensures T.Valid(r, []) && T.Exec(r, []) == r
  {}

  lemma SameTracked(s: State, t: State)
    requires t.tasks == s.tasks && t.active == s.active && t.pending == s.pending && Tracked(s)
    ensures Tracked(t)
  {
    assert forall id :: HasWorker(s, id) ==> HasWorker(t, id);
    assert forall id :: AwaitsSpawn(s, id) ==> AwaitsSpawn(t, id);
  }

  // ---- Whole runs ----

  /** One event of disciplined workers is a valid run of the task graph, and it never stalls. The event that
      takes away the last worker ends with the report. */
  lemma StepRefines(c: Config, s: State, e: Event) returns (ms: seq<T.Move>)
    requires Orderly(c, s) && !Stalled(s) && Disciplined(s, e)
    ensures var (t, a) := Handle(c, s, e);
            && Orderly(c, t) && !Stalled(t)
            && T.Valid(RunOf(s), ms) && T.Exec(RunOf(s), ms) == RunOf(t)
            && (a.SpawnWorker? ==> ms != [])
            && (Idle(t) && !Idle(s) ==> IsComplete(t) && (a.Report? || a.Stop?))
  {
    hide T.Inv, Plain, Listed, Tracked, Completable, AllTerminal;
    hide Apply, NextOrFinalize, T.Step, T.Exec, T.Valid, T.Enabled;
    var (t, a) := Apply(s, e);
    ApplyRefines(c, s, e);
    ms := MovesOf(s, e);
    if a.None? {
      var more := NextRefines(c, t);
      MovesAppend(RunOf(s), ms, more);
      ms := ms + more;
    }
  }

  ghost predicate Behaved(c: Config, s: State, es: seq<Event>)
    requires WellFormed(s)
    decreases |es|
  {
    es == [] || (Disciplined(s, es[0]) && Behaved(c, Handle(c, s, es[0]).0, es[1..]))
  }

  ghost function Spawns(c: Config, s: State, es: seq<Event>): nat
    requires WellFormed(s)
    decreases |es|
  {
    if es == [] then 0
    else (if Handle(c, s, es[0]).1.SpawnWorker? then 1 else 0) + Spawns(c, Handle(c, s, es[0]).0, es[1..])
  }

  lemma {:induction false} RunRefines(c: Config, s: State, es: seq<Event>) returns (ms: seq<T.Move>)
    requires Orderly(c, s) && !Stalled(s) && Behaved(c, s, es)
    ensures Orderly(c, After(c, s, es)) && !Stalled(After(c, s, es))
    ensures T.Valid(RunOf(s), ms) && T.Exec(RunOf(s), ms) == RunOf(After(c, s, es))
    ensures Spawns(c, s, es) <= |ms|
    decreases |es|
  {
    hide Handle, Stalled, T.Step, T.Exec, T.Valid, T.Inv, Disciplined, Plain, Listed, Tracked, Completable;
    if es == [] {
      NoMoves(RunOf(s));
      ms := [];
    } else {
      var first := StepRefines(c, s, es[0]);
      var rest := RunRefines(c, Handle(c, s, es[0]).0, es[1..]);
      MovesAppend(RunOf(s), first, rest);
      ms := first + rest;
    }
  }

  /** A state that has just been given a new goal. */
  predicate Cleared(s: State) {
    s.tasks == map[] && s.order == [] && Idle(s)
  }

  function Batch(list: seq<Task>): seq<Task> {
    if list == [] then [WHOLE_GOAL] else list
  }

  /** No entry has the empty string for its id. */
  predicate PlainBatch(list: seq<Task>) {
    forall t :: t in Batch(list) ==> PlainTask(t)
  }

  lemma AcceptedIsPlain(s: State, list: seq<Task>)
    requires WellFormed(s) && Cleared(s) && PlainBatch(list) && Accept(s, list).0.Ok?
    ensures var t := Accept(s, list).1;
            && WellFormed(t) && Plain(t.tasks) && Listed(t) && Idle(t) && t.decomposed && !t.awaiting
            && T.Added(t.tasks, Batch(list)) && t.ledger == s.ledger
            && forall id :: id in t.tasks ==> t.tasks[id].status == if t.tasks[id].dependsOn == [] then Ready else Pending
  {
    var batch := Batch(list);
    var t := Accept(s, list).1;
    var ids := LoadAdds(map[], [], batch);
    forall id | id in t.tasks
      ensures PlainTask(t.tasks[id].task)
      ensures t.tasks[id].status == if t.tasks[id].dependsOn == [] then Ready else Pending {
      LoadedNode(map[], [], batch, id);
    }
  }

  lemma AcceptedIsOrderly(c: Config, s: State, list: seq<Task>)
    requires WellFormed(s) && Cleared(s) && PlainBatch(list) && Accept(s, list).0.Ok?
    requires Completable(c, Accept(s, list).1.tasks)
    ensures Orderly(c, Accept(s, list).1) && T.Added(Accept(s, list).1.tasks, Batch(list))
  {
    AcceptedIsPlain(s, list);
    T.AddedInv(Accept(s, list).1.tasks, Batch(list));
  }

  /** Once a decomposition whose tasks can all complete is accepted, the orchestrator never stalls, whichever
      workers die and in whatever order events arrive; what it does to the tasks is a run of the task graph, so
      dependencies are always respected; and it spawns at most as many workers as the retry allowance permits. */
  lemma NeverStalls(c: Config, s: State, list: seq<Task>, es: seq<Event>)
    requires WellFormed(s) && Cleared(s) && PlainBatch(list) && Accept(s, list).0.Ok?
    requires Completable(c, Accept(s, list).1.tasks)
    requires Behaved(c, Handle(c, s, Decomposed(list)).0, es)
    ensures var t := After(c, Handle(c, s, Decomposed(list)).0, es);
            && !Stalled(t) && (Idle(t) <==> IsComplete(t))
            && T.Inv(t.tasks)
            && (exists ms :: T.Valid(RunOf(Accept(s, list).1), ms) && T.Exec(RunOf(Accept(s, list).1), ms) == RunOf(t))
    ensures Spawns(c, s, [Decomposed(list)] + es) <= T.Budget(s.ledger, Accept(s, list).1.order)
  {
    hide T.Inv, T.Step, T.Exec, T.Valid, T.Enabled, T.Budget, Disciplined, Plain, Tracked, Completable, Add, T.Added;
    var (a, start) := (Accept(s, list).1, Handle(c, s, Decomposed(list)).0);
    AcceptedIsOrderly(c, s, list);
    var first := NextRefines(c, a);
    var rest := RunRefines(c, start, es);
    MovesAppend(RunOf(a), first, rest);
    SpawnsFrom(c, s, list, es);
    BudgetBounds(s, list, first + rest);
  }

  lemma SpawnsFrom(c: Config, s: State, list: seq<Task>, es: seq<Event>)
    requires WellFormed(s)
    ensures var (t, a) := Handle(c, s, Decomposed(list));
            Spawns(c, s, [Decomposed(list)] + es) == (if a.SpawnWorker? then 1 else 0) + Spawns(c, t, es)
  {
    hide Handle;
    assert ([Decomposed(list)] + es)[1..] == es;
  }

  lemma BudgetBounds(s: State, list: seq<Task>, ms: seq<T.Move>)
    requires WellFormed(s) && Cleared(s) && T.Added(Accept(s, list).1.tasks, Batch(list))
    requires T.Valid(RunOf(Accept(s, list).1), ms)
    ensures |ms| <= T.Budget(s.ledger, Accept(s, list).1.order)
  {
    T.TerminationBound(Batch(list), s.ledger, Accept(s, list).1.tasks, ms);
  }

  /** Discipline is needed: when a worker ends normally, the orchestrator is stalled afterwards exactly if that
      was the only worker, had not reported on its task, and nothing is ready but sub-orchestrations that fail. */
  lemma QuietExitStallsIff(c: Config, s: State, pid: Pid)
    requires Orderly(c, s) && pid in s.active
    ensures Stalled(Handle(c, s, Down(pid, true)).0) <==>
            && s.active.Keys == {pid} && s.pending == []
            && Has(s.tasks, s.active[pid], Running)
            && forall t :: t in ReadyTasks(s.tasks, s.order) ==> t.subOrchestration
  {
    hide T.Inv, Plain, Listed, Tracked, Completable, WellKeyed, Bury, NextOrFinalize, AllTerminal;
    var t := Bury(s.(monitors := s.monitors - {pid}), pid, true);
    BuryKeeps(s.(monitors := s.monitors - {pid}), pid, true);
    QuietBury(s.(monitors := s.monitors - {pid}), pid);
    assert t.active.Keys == s.active.Keys - {pid};
    if !Has(s.tasks, s.active[pid], Running) {
      StepNotStalled(c, s, pid);
    } else if !Idle(t) {
      NextKeepsBusy(c, t);
    } else {
      assert s.active.Keys == t.active.Keys + {pid};
      IdleStallsIff(c, t, s.active[pid]);
    }
  }

  lemma QuietBury(s: State, pid: Pid)
    requires WellFormed(s) && pid in s.active
    ensures var t := Bury(s, pid, true);
            t.tasks == s.tasks && t.order == s.order && t.decomposed == s.decomposed && t.awaiting == s.awaiting
  {}

  /** With a task nobody will report on, an idle orchestrator stays idle exactly if all that is ready fails. */
  lemma {:induction false} IdleStallsIff(c: Config, s: State, id: Id)
    requires WellFormed(s) && Plain(s.tasks) && Completable(c, s.tasks) && Idle(s) && s.decomposed && !s.awaiting
    requires Has(s.tasks, id, Running)
    ensures Stalled(NextOrFinalize(c, s).0) <==> forall t :: t in ReadyTasks(s.tasks, s.order) ==> t.subOrchestration
    decreases |ReadyTasks(s.tasks, s.order)|
  {
    hide NextOrFinalize, ReadyTasks;
    if ReadyTasks(s.tasks, s.order) == [] {
      NextEnds(c, s);
    } else {
      var task := NextUnfolds(c, s);
      assert Doable(c, s.tasks[task.taskId.value].task) && PlainTask(s.tasks[task.taskId.value].task);
      if task.subOrchestration {
        var failed := s.(tasks := SetStatus(s.tasks, task.taskId.value, Failed));
        OthersStayReady(s.tasks, s.order, task.taskId.value);
        IdleStallsIff(c, failed, id);
      }
    }
  }

  lemma OthersStayReady(ts: Tasks, order: seq<Id>, id: Id)
    requires WellKeyed(ts) && Has(ts, id, Ready)
    ensures forall t :: t in ReadyTasks(SetStatus(ts, id, Failed), order) <==>
                        t in ReadyTasks(ts, order) && t != ts[id].task
  {
    var us := SetStatus(ts, id, Failed);
    forall t ensures t in ReadyTasks(us, order) <==> t in ReadyTasks(ts, order) && t != ts[id].task {
      ReadyTasksAreReady(ts, order, t);
      ReadyTasksAreReady(us, order, t);
      if t in ReadyTasks(ts, order) && t != ts[id].task {
        var x :| x in order && Has(ts, x, Ready) && ts[x].task == t;
        assert Has(us, x, Ready) && us[x].task == t;
      }
      if t in ReadyTasks(us, order) {
        var x :| x in order && Has(us, x, Ready) && us[x].task == t;
        assert Has(ts, x, Ready) && ts[x].task == t;
      }
    }
  }

  lemma StepNotStalled(c: Config, s: State, pid: Pid)
    requires Orderly(c, s) && pid in s.active && !Has(s.tasks, s.active[pid], Running)
    ensures !Stalled(Handle(c, s, Down(pid, true)).0)
  {
    hide T.Inv, NextOrFinalize, Bury;
    ApplyRefines(c, s, Down(pid, true));
    var ms := NextRefines(c, Apply(s, Down(pid, true)).0);
  }

  lemma {:induction false} NextKeepsBusy(c: Config, s: State)
    requires WellFormed(s) && !Idle(s)
    ensures !Idle(NextOrFinalize(c, s).0)
    decreases |ReadyTasks(s.tasks, s.order)|
  {
    if CanSpawnMore(c, s) {
      FirstReady(s.tasks, s.order);
      var task := ReadyTasks(s.tasks, s.order)[0];
      var id := task.taskId.value;
      if id != EMPTY_ID && !(task.needsApproval && c.gated) && task.subOrchestration && c.currentDepth >= c.maxDepth {
        ReadyTasksFall(s.tasks, s.order, id, Failed);
        NextKeepsBusy(c, s.(tasks := SetStatus(s.tasks, id, Failed)));
      }
    }
  }
}
