/** The orchestrator: decomposes a goal into tasks, runs them on a bounded number of workers and reports. */
module Orchestrators {
  import opened Common
  import opened Graph
  import opened TaskGraphs
  import opened Retry

  /** The empty string as a task id. */
  const EMPTY_ID: Id := 0

  /** The one task that stands for the goal when its decomposition names none. */
  const WHOLE_GOAL: Task := Task(Some(1), [], false, false)

  datatype Config = Config(maxConcurrency: nat, gated: bool, maxDepth: nat, currentDepth: nat) {
    function Cap(): nat {
      if maxConcurrency > 1 then maxConcurrency else 1
    }
  }

  datatype State = State(
    tasks: Tasks,
    order: seq<Id>,
    ledger: Ledger,
    pending: seq<Task>,
    active: map<Pid, Id>,
    inflight: map<Id, Task>,
    monitors: map<Pid, nat>,
    requester: Option<Pid>,
    awaiting: bool,
    decomposed: bool)

  /** What reaches the orchestrator. `Exited` is the death of a linked process. */
  datatype Event =
    | Progress
    | WorkerResult(worker: Option<Pid>, task: Option<Id>)
    | NewGoal(from: Option<Pid>)
    | Decomposed(list: seq<Task>)
    | Spawned(child: Pid, monitor: Option<nat>)
    | Down(pid: Pid, normal: bool)
    | Exited(pid: Pid, normal: bool)
    | Other

  datatype Action =
    | Continue
    | Decompose
    | Forward(to: Pid)
    | SpawnWorker(id: Id)
    | SpawnOrchestrator(id: Id)
    | RunTask(worker: Pid, id: Id)
    | ShutDown(worker: Pid)
    | Report(to: Pid)
    | Stop

  predicate CanSpawnMore(c: Config, s: State) {
    && s.decomposed && !s.awaiting
    && ReadyTasks(s.tasks, s.order) != []
    && |s.active| + |s.pending| < c.Cap()
  }

  predicate IsComplete(s: State) {
    s.decomposed && !s.awaiting && AllTerminal(s.tasks) && s.pending == [] && s.active == map[]
  }

  /** Every node is filed under its task's own id. */
  predicate WellKeyed(ts: Tasks) {
    forall id :: id in ts ==> ts[id].task.taskId == Some(id)
  }

  predicate WellFormed(s: State) {
    WellKeyed(s.tasks) && forall t :: t in s.pending ==> t.taskId.Some?
  }

  lemma FirstReady(ts: Tasks, order: seq<Id>)
    requires WellKeyed(ts) && ReadyTasks(ts, order) != []
    ensures var t := ReadyTasks(ts, order)[0];
            t.taskId.Some? && t.taskId.value in order && Has(ts, t.taskId.value, Ready) && ts[t.taskId.value].task == t
  {}

  /** `next_or_finalize`: spawns for the first ready task while there is room, and otherwise reports once all
      is done. At the depth limit a sub-orchestration fails on the spot and the next task is tried. */
  function NextOrFinalize(c: Config, s: State): (r: (State, Action))
    requires WellFormed(s)
    ensures WellFormed(r.0)
    decreases |ReadyTasks(s.tasks, s.order)|
  {
    if CanSpawnMore(c, s) then
      var task := ReadyTasks(s.tasks, s.order)[0];
      FirstReady(s.tasks, s.order);
      var id := task.taskId.value;
      if id == EMPTY_ID then
        (s.(pending := s.pending + [task]), SpawnWorker(id))
      else if task.needsApproval && c.gated then
        (s.(tasks := SetStatus(s.tasks, id, AwaitingApproval)), Continue)
      else if task.subOrchestration then
        if c.currentDepth >= c.maxDepth then
          ReadyTasksFall(s.tasks, s.order, id, Failed);
          NextOrFinalize(c, s.(tasks := SetStatus(s.tasks, id, Failed)))
        else (s, SpawnOrchestrator(id))
      else
        (s.(tasks := SetStatus(s.tasks, id, Running), pending := s.pending + [task]), SpawnWorker(id))
    else if IsComplete(s) then (s, if s.requester.Some? then Report(s.requester.value) else Stop)
    else (s, Continue)
  }

  /** What a worker's death does before the next task is picked. */
  ghost function Bury(s: State, pid: Pid, normal: bool): (r: State)
    requires WellFormed(s)
    ensures WellFormed(r)
  {
    if pid !in s.active then s
    else
      var id := s.active[pid];
      var left := s.(active := s.active - {pid}, inflight := s.inflight - {id});
      if normal then left
      else
        var (granted, ledger) := Decide(s.ledger, id);
        if granted.Some? then left.(ledger := ledger, tasks := SetStatus(s.tasks, id, Ready))
        else left.(ledger := ledger, tasks := SkipDependents(SetStatus(s.tasks, id, Failed), id))
  }

  /** A new goal forgets everything but the retry counts. */
  function Restart(s: State, from: Option<Pid>): State {
    State(map[], [], s.ledger, [], map[], map[], map[], if from.Some? then from else s.requester, true, false)
  }

  ghost function Accept(s: State, list: seq<Task>): (r: (Result<(), AddError>, State))
    requires WellFormed(s)
    ensures WellFormed(r.1)
  {
    var batch := if list == [] then [WHOLE_GOAL] else list;
    var (result, tasks, order) := Add(s.tasks, s.order, batch);
    AddKeepsKeys(s.tasks, s.order, batch);
    (result, s.(awaiting := false, decomposed := true, tasks := tasks, order := order))
  }

  lemma AddKeepsKeys(ts: Tasks, order: seq<Id>, list: seq<Task>)
    requires WellKeyed(ts)
    ensures WellKeyed(Add(ts, order, list).1)
  {
    var l := TaskGraphs.Load(ts, [], list);
    forall id | id in l.tasks ensures l.tasks[id].task.taskId == Some(id) {
      LoadedNode(ts, [], list, id);
    }
  }

  function Collect(s: State, task: Option<Id>): (r: State)
    requires WellFormed(s)
    ensures WellFormed(r)
  {
    if task.None? then s
    else s.(tasks := Complete(s.tasks, task.value), inflight := s.inflight - {task.value})
  }

  function Assign(s: State, child: Pid, monitor: Option<nat>): (r: State)
    requires WellFormed(s) && s.pending != []
    ensures WellFormed(r)
  {
    var task := s.pending[0];
    s.(pending := s.pending[1..],
       active := s.active[child := task.taskId.value],
       inflight := s.inflight[task.taskId.value := task],
       monitors := if monitor.Some? then s.monitors[child := monitor.value] else s.monitors)
  }

  /** What an event does by itself, and the action it ends with unless it goes on to `next_or_finalize`. */
  ghost function Apply(s: State, e: Event): (r: (State, Option<Action>))
    requires WellFormed(s)
    ensures WellFormed(r.0)
  {
    match e
    case Progress => (s, Some(if s.requester.Some? then Forward(s.requester.value) else Continue))
    case WorkerResult(worker, task) => (Collect(s, task), if worker.Some? then Some(ShutDown(worker.value)) else None)
    case NewGoal(from) => (Restart(s, from), Some(Decompose))
    case Decomposed(list) => (Accept(s, list).1, if Accept(s, list).0.Err? then Some(Continue) else None)
    case Spawned(child, monitor) =>
      if s.pending == [] then (s, None)
      else (Assign(s, child, monitor), Some(RunTask(child, s.pending[0].taskId.value)))
    case Down(pid, normal) => (Bury(s.(monitors := s.monitors - {pid}), pid, normal), None)
    case Exited(pid, normal) => (Bury(s, pid, normal), None)
    case Other => (s, Some(Continue))
  }

  ghost function Handle(c: Config, s: State, e: Event): (r: (State, Action))
    requires WellFormed(s)
    ensures WellFormed(r.0)
  {
    var (t, action) := Apply(s, e);
    if action.Some? then (t, action.value) else NextOrFinalize(c, t)
  }

  // ---- The concurrency cap and the in-flight table ----

  predicate Capped(c: Config, s: State) {
    var busy := |s.active| + |s.pending|;
    busy <= 1 || busy <= c.maxConcurrency
  }

  predicate HasWorker(s: State, id: Id) {
    exists pid :: pid in s.active && s.active[pid] == id
  }

  predicate Backed(s: State) {
    forall id :: id in s.inflight ==> HasWorker(s, id)
  }

  lemma {:induction false} NextKeeps(c: Config, s: State)
    requires WellFormed(s)
    ensures var t := NextOrFinalize(c, s).0;
            && t.active == s.active && t.inflight == s.inflight && t.order == s.order && t.ledger == s.ledger
            && t.decomposed == s.decomposed && t.awaiting == s.awaiting
            && (Capped(c, s) ==> Capped(c, t))
    decreases |ReadyTasks(s.tasks, s.order)|
  {
    if CanSpawnMore(c, s) {
      FirstReady(s.tasks, s.order);
      var task := ReadyTasks(s.tasks, s.order)[0];
      var id := task.taskId.value;
      if id != EMPTY_ID && !(task.needsApproval && c.gated) && task.subOrchestration && c.currentDepth >= c.maxDepth {
        ReadyTasksFall(s.tasks, s.order, id, Failed);
        NextKeeps(c, s.(tasks := SetStatus(s.tasks, id, Failed)));
      }
    }
  }

  lemma BuryKeeps(s: State, pid: Pid, normal: bool)
    requires WellFormed(s)
    ensures var t := Bury(s, pid, normal);
            && t.active == s.active - {pid} && t.pending == s.pending
            && t.inflight == if pid in s.active then s.inflight - {s.active[pid]} else s.inflight
  {
    hide WellFormed, SkipDependents, SetStatus, Decide;
    assert pid !in s.active ==> s.active - {pid} == s.active;
  }

  /** No event by itself adds to the workers and spawns together. */
  lemma ApplyKeepsCount(s: State, e: Event)
    requires WellFormed(s)
    ensures var t := Apply(s, e).0; |t.active| + |t.pending| <= |s.active| + |s.pending|
  {
    hide WellKeyed, Bury, Complete, Add, Assign, Accept;
    match e
    case Decomposed(list) => AcceptKeepsCount(s, list);
    case Spawned(child, monitor) =>
      if s.pending != [] {
        AssignKeepsCount(s, child, monitor);
      }
    case Down(pid, normal) => BuryKeepsCount(s.(monitors := s.monitors - {pid}), pid, normal);
    case Exited(pid, normal) => BuryKeepsCount(s, pid, normal);
    case _ =>
  }

  lemma AcceptKeepsCount(s: State, list: seq<Task>)
    requires WellFormed(s)
    ensures Accept(s, list).1.active == s.active && Accept(s, list).1.pending == s.pending
  {}

  lemma BuryKeepsCount(s: State, pid: Pid, normal: bool)
    requires WellFormed(s)
    ensures var t := Bury(s, pid, normal); |t.active| + |t.pending| <= |s.active| + |s.pending|
  {
    hide WellFormed, Bury;
    BuryKeeps(s, pid, normal);
    FewerWorkers(s.active, pid);
  }

  lemma AssignKeepsCount(s: State, child: Pid, monitor: Option<nat>)
    requires WellFormed(s) && s.pending != []
    ensures var t := Assign(s, child, monitor);
            |t.active| + |t.pending| <= |s.active| + |s.pending|
  {}

  lemma FewerWorkers(active: map<Pid, Id>, pid: Pid)
    ensures |active - {pid}| <= |active|
  {}

  lemma StepKeepsCap(c: Config, s: State, e: Event)
    requires WellFormed(s) && Capped(c, s)
    ensures Capped(c, Handle(c, s, e).0)
  {
    hide Apply, NextOrFinalize;
    ApplyKeepsCount(s, e);
    NextKeeps(c, Apply(s, e).0);
  }

  /** Assigning a task to `child` takes the last worker from no other in-flight task. */
  predicate Unhurt(s: State, child: Pid)
    requires WellFormed(s)
  {
    || child !in s.active || s.pending == [] || s.active[child] == s.pending[0].taskId.value
    || s.active[child] !in s.inflight
    || exists pid :: pid in s.active && pid != child && s.active[pid] == s.active[child]
  }

  /** Every event keeps each in-flight task with a worker, except exactly the spawn of a pid that already
      is the only worker of another in-flight task. */
  lemma StepKeepsBackedIff(c: Config, s: State, e: Event)
    requires WellFormed(s) && Backed(s)
    ensures Backed(Handle(c, s, e).0) <==> (e.Spawned? ==> Unhurt(s, e.child))
  {
    hide Apply, Backed, NextOrFinalize, Unhurt;
    var t := Apply(s, e).0;
    NextKeeps(c, t);
    SameWorkers(t, Handle(c, s, e).0);
    ApplyKeepsBackedIff(s, e);
  }

  lemma ApplyKeepsBackedIff(s: State, e: Event)
    requires WellFormed(s) && Backed(s)
    ensures Backed(Apply(s, e).0) <==> (e.Spawned? ==> Unhurt(s, e.child))
  {
    hide WellKeyed, Bury, Complete, Add, Assign, Backed;
    match e
    case WorkerResult(_, task) => FewerInFlight(s, Collect(s, task));
    case NewGoal(from) => NothingInFlight(Restart(s, from));
    case Decomposed(list) => SameWorkers(s, Accept(s, list).1);
    case Spawned(child, monitor) =>
      if s.pending != [] {
        AssignKeepsBackedIff(s, child, monitor);
      }
    case Down(pid, normal) =>
      var t := s.(monitors := s.monitors - {pid});
      SameWorkers(s, t);
      BuryKeepsBacked(t, pid, normal);
    case Exited(pid, normal) => BuryKeepsBacked(s, pid, normal);
    case _ =>
  }

  lemma NothingInFlight(s: State)
    requires s.inflight == map[]
    ensures Backed(s)
  {}

  lemma SameWorkers(s: State, t: State)
    requires t.inflight == s.inflight && t.active == s.active
    ensures Backed(t) <==> Backed(s)
  {}

  lemma FewerInFlight(s: State, t: State)
    requires Backed(s) && t.inflight.Keys <= s.inflight.Keys && t.active == s.active
    ensures Backed(t)
  {}

  lemma BuryKeepsBacked(s: State, pid: Pid, normal: bool)
    requires WellFormed(s) && Backed(s)
    ensures Backed(Bury(s, pid, normal))
  {
    hide WellFormed, Bury;
    var t := Bury(s, pid, normal);
    BuryKeeps(s, pid, normal);
    forall id | id in t.inflight ensures HasWorker(t, id) {
      assert HasWorker(s, id);
      var p :| p in s.active && s.active[p] == id;
      assert p in t.active && t.active[p] == id;
    }
  }

  lemma AssignKeepsBackedIff(s: State, child: Pid, monitor: Option<nat>)
    requires WellFormed(s) && Backed(s) && s.pending != []
    ensures Backed(Assign(s, child, monitor)) <==> Unhurt(s, child)
  {
    var t := Assign(s, child, monitor);
    var added := s.pending[0].taskId.value;
    assert child in t.active && t.active[child] == added;
    if Unhurt(s, child) {
      forall id | id in t.inflight && id != added ensures HasWorker(t, id) {
        assert HasWorker(s, id);
        var p :| p in s.active && s.active[p] == id;
        if p == child {
          var q :| q in s.active && q != child && s.active[q] == id;
          assert t.active[q] == id;
        } else {
          assert t.active[p] == id;
        }
      }
    } else {
      var lost := s.active[child];
      assert lost in t.inflight;
      assert forall p :: p in t.active && t.active[p] == lost ==> p in s.active && s.active[p] == lost && p != child;
    }
  }

  ghost function After(c: Config, s: State, es: seq<Event>): (t: State)
    requires WellFormed(s)
    ensures WellFormed(t)
    decreases |es|
  {
    if es == [] then s else After(c, Handle(c, s, es[0]).0, es[1..])
  }

  predicate SpawnedOnce(es: seq<Event>) {
    forall i, j :: 0 <= i < j < |es| && es[i].Spawned? && es[j].Spawned? ==> es[i].child != es[j].child
  }

  predicate Unused(active: map<Pid, Id>, es: seq<Event>) {
    forall i :: 0 <= i < |es| && es[i].Spawned? ==> es[i].child !in active
  }

  /** In every reachable state, whatever arrives in whatever order, no more than the cap is running or being
      spawned; and if no pid is spawned twice, every in-flight task is the task of an active worker. */
  lemma {:induction false} CapHolds(c: Config, s: State, es: seq<Event>)
    requires WellFormed(s) && Capped(c, s)
    ensures Capped(c, After(c, s, es))
    ensures Backed(s) && SpawnedOnce(es) && Unused(s.active, es) ==> Backed(After(c, s, es))
    decreases |es|
  {
    hide Handle, Capped, Backed;
    if es != [] {
      var t := Handle(c, s, es[0]).0;
      StepKeepsCap(c, s, es[0]);
      if Backed(s) && SpawnedOnce(es) && Unused(s.active, es) {
        StepKeepsBackedIff(c, s, es[0]);
        StepActivates(c, s, es[0]);
        assert Unused(t.active, es[1..]);
      }
      CapHolds(c, t, es[1..]);
    }
  }

  /** Only a spawn adds a worker. */
  lemma StepActivates(c: Config, s: State, e: Event)
    requires WellFormed(s)
    ensures Handle(c, s, e).0.active.Keys <= s.active.Keys + if e.Spawned? then {e.child} else {}
  {
    hide Apply, NextOrFinalize;
    NextKeeps(c, Apply(s, e).0);
    ApplyActivates(s, e);
  }

  lemma ApplyActivates(s: State, e: Event)
    requires WellFormed(s)
    ensures Apply(s, e).0.active.Keys <= s.active.Keys + if e.Spawned? then {e.child} else {}
  {
    hide WellKeyed, Bury, Complete, Add;
    match e
    case Down(pid, normal) => BuryKeeps(s.(monitors := s.monitors - {pid}), pid, normal);
    case Exited(pid, normal) => BuryKeeps(s, pid, normal);
    case _ =>
  }

  // ---- Who is told what ----

  /** Whom the latest goal came from, if it said so, or else the one before. */
  function LastAsker(asker: Option<Pid>, es: seq<Event>): Option<Pid> {
    if es == [] then asker
    else if es[|es| - 1].NewGoal? && es[|es| - 1].from.Some? then es[|es| - 1].from
    else LastAsker(asker, es[..|es| - 1])
  }

  /** Picking reports, to the requester if there is one, exactly when it leaves everything done. */
  lemma {:induction false} NextTells(c: Config, s: State)
    requires WellFormed(s)
    ensures var (t, a) := NextOrFinalize(c, s);
            && t.requester == s.requester
            && (a.Report? || a.Stop? <==> IsComplete(t))
            && (a.Report? ==> s.requester == Some(a.to)) && (a.Stop? ==> s.requester == None)
            && (a.Continue? || a.Report? || a.Stop? || a.SpawnWorker? || a.SpawnOrchestrator?)
    decreases |ReadyTasks(s.tasks, s.order)|
  {
    hide ReadyTasks;
    if CanSpawnMore(c, s) {
      FirstReady(s.tasks, s.order);
      var task := ReadyTasks(s.tasks, s.order)[0];
      var id := task.taskId.value;
      if id != EMPTY_ID && !(task.needsApproval && c.gated) && task.subOrchestration && c.currentDepth >= c.maxDepth {
        ReadyTasksFall(s.tasks, s.order, id, Failed);
        NextTells(c, s.(tasks := SetStatus(s.tasks, id, Failed)));
      } else {
        NextLeavesOpen(c, s, id);
      }
    }
  }

  lemma NextLeavesOpen(c: Config, s: State, id: Id)
    requires WellFormed(s) && CanSpawnMore(c, s) && ReadyTasks(s.tasks, s.order)[0].taskId == Some(id)
    requires var task := ReadyTasks(s.tasks, s.order)[0];
             id == EMPTY_ID || (task.needsApproval && c.gated) || !task.subOrchestration || c.currentDepth < c.maxDepth
    ensures var (t, a) := NextOrFinalize(c, s);
            t.requester == s.requester && !IsComplete(t) && (a.Continue? || a.SpawnWorker? || a.SpawnOrchestrator?)
  {
    FirstReady(s.tasks, s.order);
    assert Has(s.tasks, id, Ready);
    hide ReadyTasks;
    var t := NextOrFinalize(c, s).0;
    assert id in t.tasks && !Terminal(t.tasks[id].status);
  }

  /** Over any run, each message goes where it belongs: progress and the final report to whoever asked last, or nowhere
      if nobody did; the shutdown to the worker that reported; a task, the oldest one waiting, to the new worker. The end
      is reported only when everything is done, and a refused decomposition to nobody. */
  lemma EveryoneIsTold(c: Config, s: State, es: seq<Event>, e: Event)
    requires WellFormed(s)
    ensures var t := After(c, s, es);
            var ((u, a), asker) := (Handle(c, t, e), LastAsker(s.requester, es + [e]));
            && u.requester == asker
            && (a.Report? ==> asker == Some(a.to) && IsComplete(u)) && (a.Stop? ==> asker == None && IsComplete(u))
            && (a.Forward? <==> e.Progress? && asker.Some?) && (a.Forward? ==> asker == Some(a.to))
            && (a.ShutDown? <==> e.WorkerResult? && e.worker.Some?) && (a.ShutDown? ==> e.worker == Some(a.worker))
            && (a.RunTask? <==> e.Spawned? && t.pending != [])
            && (a.RunTask? ==> a.worker == e.child && Some(a.id) == t.pending[0].taskId
                               && a.worker in u.active && u.active[a.worker] == a.id)
            && (a.Decompose? <==> e.NewGoal?)
            && (e.Decomposed? && Accept(t, e.list).0.Err? ==> a.Continue? && u == Accept(t, e.list).1)
  {
    hide NextOrFinalize, WellKeyed, Bury, Collect, Accept, After, IsComplete;
    var t := After(c, s, es);
    AskerAfter(c, s, es);
    assert (es + [e])[..|es|] == es;
    NextTells(c, Apply(t, e).0);
    ApplyKeepsAsker(t, e);
  }

  lemma ApplyKeepsAsker(s: State, e: Event)
    requires WellFormed(s)
    ensures !e.NewGoal? ==> Apply(s, e).0.requester == s.requester
    ensures e.NewGoal? ==> Apply(s, e).0.requester == if e.from.Some? then e.from else s.requester
  {
    hide WellKeyed, Complete, Add, SkipDependents, SetStatus, Decide;
  }

  lemma {:induction false} AskerAfter(c: Config, s: State, es: seq<Event>)
    requires WellFormed(s)
    ensures After(c, s, es).requester == LastAsker(s.requester, es)
    decreases |es|
  {
    hide Apply, NextOrFinalize, WellKeyed;
    if es != [] {
      var last, before := es[|es| - 1], es[..|es| - 1];
      AskerAfter(c, s, before);
      assert before + [last] == es;
      AfterMore(c, s, before, last);
      var t := After(c, s, before);
      ApplyKeepsAsker(t, last);
      NextTells(c, Apply(t, last).0);
    }
  }

  lemma {:induction false} AfterMore(c: Config, s: State, es: seq<Event>, e: Event)
    requires WellFormed(s)
    ensures After(c, s, es + [e]) == Handle(c, After(c, s, es), e).0
    decreases |es|
  {
    hide Handle, WellFormed;
    if es == [] {
      assert [] + [e] == [e] && [e][1..] == [];
      assert After(c, s, [e]) == After(c, Handle(c, s, e).0, []);
    } else {
      AfterMore(c, Handle(c, s, es[0]).0, es[1..], e);
      assert (es + [e])[1..] == es[1..] + [e];
    }
  }

  // ---- Retry counts ----

  /** No event takes back an attempt or changes a strategy; a new goal does not either. */
  lemma {:induction false} AttemptsAreKept(c: Config, s: State, es: seq<Event>, id: Id)
    requires WellFormed(s)
    ensures var (before, after) := (s.ledger, After(c, s, es).ledger);
            before.Attempts(id) <= after.Attempts(id) && before.StrategyOf(id) == after.StrategyOf(id)
    decreases |es|
  {
    hide Handle, WellFormed, Ledger.Attempts, Ledger.StrategyOf;
    if es != [] {
      StepKeepsAttempts(c, s, es[0], id);
      AttemptsAreKept(c, Handle(c, s, es[0]).0, es[1..], id);
    }
  }

  lemma StepKeepsAttempts(c: Config, s: State, e: Event, id: Id)
    requires WellFormed(s)
    ensures var (before, after) := (s.ledger, Handle(c, s, e).0.ledger);
            before.Attempts(id) <= after.Attempts(id) && before.StrategyOf(id) == after.StrategyOf(id)
  {
    hide NextOrFinalize, Apply, Ledger.Attempts, Ledger.StrategyOf;
    NextKeeps(c, Apply(s, e).0);
    ApplyKeepsAttempts(s, e, id);
  }

  lemma ApplyKeepsAttempts(s: State, e: Event, id: Id)
    requires WellFormed(s)
    ensures var (before, after) := (s.ledger, Apply(s, e).0.ledger);
            before.Attempts(id) <= after.Attempts(id) && before.StrategyOf(id) == after.StrategyOf(id)
  {
    hide WellKeyed, Collect, Accept, Bury, Ledger.Attempts, Ledger.StrategyOf;
    match e
    case Down(pid, normal) => BuryKeepsAttempts(s.(monitors := s.monitors - {pid}), pid, normal, id);
    case Exited(pid, normal) => BuryKeepsAttempts(s, pid, normal, id);
    case _ => CollectKeepsLedger(s, e);
  }

  lemma BuryKeepsAttempts(s: State, pid: Pid, normal: bool, id: Id)
    requires WellFormed(s)
    ensures var (before, after) := (s.ledger, Bury(s, pid, normal).ledger);
            before.Attempts(id) <= after.Attempts(id) && before.StrategyOf(id) == after.StrategyOf(id)
  {
    hide WellKeyed, Decide, SkipDependents, SetStatus, Ledger.Attempts, Ledger.StrategyOf;
    if pid in s.active {
      DecideCounts(s.ledger, s.active[pid], id);
    }
  }

  lemma CollectKeepsLedger(s: State, e: Event)
    requires WellFormed(s)
    ensures e.WorkerResult? ==> Collect(s, e.task).ledger == s.ledger
    ensures e.Decomposed? ==> Accept(s, e.list).1.ledger == s.ledger
  {
    hide WellKeyed, Complete, Add;
  }

  // ---- The orchestrator process ----

  /** `OrchestratorState` with the behaviour's configuration. */
  class Orchestrator {
    const config: Config
    var graph: TaskGraph
    const tracker: RetryTracker
    var pending: seq<Task>
    var active: map<Pid, Id>
    var inflight: map<Id, Task>
    var monitors: map<Pid, nat>
    var requester: Option<Pid>
    var awaiting: bool
    var decomposed: bool

    constructor (config: Config, retry: Strategy, requester: Option<Pid>)
      ensures View() == State(map[], [], Ledger(map[], retry, map[]), [], map[], map[], map[], requester, false, false)
      ensures WellFormed(View()) && Capped(this.config, View()) && Backed(View())
      ensures this.config == config && fresh(graph) && fresh(tracker)
    {
      this.config := config;
      graph := new TaskGraph();
      tracker := new RetryTracker(retry);
      pending, active, inflight, monitors := [], map[], map[], map[];
      this.requester, awaiting, decomposed := requester, false, false;
    }

    function View(): State
      reads this, graph, tracker
    {
      State(graph.tasks, graph.order, tracker.View(), pending, active, inflight, monitors, requester, awaiting, decomposed)
    }

    /** `next_or_finalize`, which calls itself after failing a task at the depth limit. */
    method Next() returns (action: Action)
      requires WellFormed(View())
      modifies this`pending, graph
      ensures (View(), action) == NextOrFinalize(config, old(View()))
      decreases |ReadyTasks(graph.tasks, graph.order)|
    {
      var ready := ReadyTasks(graph.tasks, graph.order);
      if decomposed && !awaiting && ready != [] && |active| + |pending| < config.Cap() {
        var task := ready[0];
        FirstReady(graph.tasks, graph.order);
        var id := task.taskId.value;
        if id == EMPTY_ID {
          pending := pending + [task];
          return SpawnWorker(id);
        }
        if task.needsApproval && config.gated {
          graph.SetTaskStatus(id, AwaitingApproval);
          return Continue;
        }
        if task.subOrchestration {
          if config.currentDepth >= config.maxDepth {
            ReadyTasksFall(graph.tasks, graph.order, id, Failed);
            graph.MarkFailed(id);
            action := Next();
            return;
          }
          return SpawnOrchestrator(id);
        }
        graph.MarkRunning(id);
        pending := pending + [task];
        return SpawnWorker(id);
      }
      var allTerminal := graph.IsComplete();
      if decomposed && !awaiting && allTerminal && pending == [] && active == map[] {
        return if requester.Some? then Report(requester.value) else Stop;
      }
      return Continue;
    }

    method BuryWorker(pid: Pid, normal: bool)
      requires WellFormed(View())
      modifies this`active, this`inflight, graph`tasks, tracker`attempts
      ensures View() == Bury(old(View()), pid, normal)
      ensures pid in old(active) ==> active == old(active) - {pid} && inflight == old(inflight) - {old(active)[pid]}
      ensures pid !in old(active) || normal ==> graph.tasks == old(graph.tasks) && tracker.attempts == old(tracker.attempts)
    {
      if pid !in active {
        return;
      }
      var id := active[pid];
      active, inflight := active - {pid}, inflight - {id};
      if !normal {
        var delay := tracker.ShouldRetry(id);
        if delay.Some? {
          graph.SetTaskStatus(id, Ready);
        } else {
          graph.MarkFailed(id);
          graph.FailDependents(id);
        }
      }
    }

    /** Parses what the decomposition answered and puts the tasks into the graph. */
    method LoadTasks(list: seq<Task>) returns (r: Result<(), AddError>)
      requires WellFormed(View())
      modifies this`awaiting, this`decomposed, graph
      ensures (r, View()) == Accept(old(View()), list)
      ensures !awaiting && decomposed
    {
      awaiting, decomposed := false, true;
      r := graph.AddTasks(if list == [] then [WHOLE_GOAL] else list);
    }

    method StartOver(from: Option<Pid>)
      requires WellFormed(View())
      modifies this
      ensures View() == Restart(old(View()), from) && fresh(graph)
      ensures graph.tasks == map[] && graph.order == [] && pending == [] && active == map[] && inflight == map[]
      ensures monitors == map[] && awaiting && !decomposed
    {
      requester := if from.Some? then from else requester;
      graph := new TaskGraph();
      pending, active, inflight, monitors := [], map[], map[], map[];
      awaiting, decomposed := true, false;
    }

    method CollectResult(task: Option<Id>)
      requires WellFormed(View())
      modifies this`inflight, graph`tasks
      ensures View() == Collect(old(View()), task)
      ensures task.Some? ==> Released(old(graph.tasks), graph.tasks, task.value)
      ensures inflight == if task.Some? then old(inflight) - {task.value} else old(inflight)
      ensures task.None? ==> graph.tasks == old(graph.tasks)
    {
      if task.Some? {
        graph.MarkCompleted(task.value);
        inflight := inflight - {task.value};
      }
    }

    method AssignTask(child: Pid, monitor: Option<nat>) returns (id: Id)
      requires WellFormed(View()) && pending != []
      modifies this`pending, this`active, this`inflight, this`monitors
      ensures View() == Assign(old(View()), child, monitor) && Some(id) == old(pending)[0].taskId
      ensures pending == old(pending)[1..] && active == old(active)[child := id]
      ensures inflight == old(inflight)[id := old(pending)[0]]
      ensures monitors == if monitor.Some? then old(monitors)[child := monitor.value] else old(monitors)
    {
      var task := pending[0];
      id := task.taskId.value;
      pending := pending[1..];
      active := active[child := id];
      inflight := inflight[id := task];
      if monitor.Some? {
        monitors := monitors[child := monitor.value];
      }
    }

    /** `handle_message` and `handle_exit`: one event in, one action out. */
    method HandleEvent(e: Event) returns (action: Action)
      requires WellFormed(View())
      modifies this, graph, tracker
      ensures (View(), action) == Handle(config, old(View()), e)
      ensures graph == old(graph) || fresh(graph)
    {
      hide WellKeyed, NextOrFinalize, Bury, Collect, Assign, Accept;
      match e {
        case Progress =>
          return if requester.Some? then Forward(requester.value) else Continue;
        case WorkerResult(worker, task) =>
          CollectResult(task);
          if worker.Some? {
            return ShutDown(worker.value);
          }
          action := Next();
        case NewGoal(from) =>
          StartOver(from);
          return Decompose;
        case Decomposed(list) =>
          var loaded := LoadTasks(list);
          if loaded.Err? {
            return Continue;
          }
          action := Next();
        case Spawned(child, monitor) =>
          if pending == [] {
            action := Next();
          } else {
            var id := AssignTask(child, monitor);
            return RunTask(child, id);
          }
        case Down(pid, normal) =>
          monitors := monitors - {pid};
          BuryWorker(pid, normal);
          action := Next();
        case Exited(pid, normal) =>
          BuryWorker(pid, normal);
          action := Next();
        case Other =>
          return Continue;
      }
    }
  }
}
