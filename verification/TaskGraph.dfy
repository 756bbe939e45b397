/** The task DAG engine: task statuses, cycle rejection, promotion and failure cascade. */
module TaskGraphs {
  import opened Common
  import opened Graph
  import Kahn

  datatype Status = Pending | Ready | AwaitingApproval | Running | Completed | Failed | Skipped

  /** What the runtime reads out of a JSON task value. */
  datatype Task = Task(taskId: Option<Id>, dependsOn: seq<Id>, needsApproval: bool, subOrchestration: bool)

  datatype TaskNode = TaskNode(task: Task, dependsOn: seq<Id>, status: Status)

  type Tasks = map<Id, TaskNode>

  datatype AddError = MissingTaskId | CycleDetected

  function DepsOf(ts: Tasks): Deps {
    map id | id in ts :: ts[id].dependsOn
  }

  function NewNode(t: Task): TaskNode {
    TaskNode(t, t.dependsOn, if t.dependsOn == [] then Ready else Pending)
  }

  function SetStatus(ts: Tasks, id: Id, st: Status): Tasks {
    if id in ts then ts[id := ts[id].(status := st)] else ts
  }

  predicate Has(ts: Tasks, id: Id, st: Status) {
    id in ts && ts[id].status == st
  }

  /** A dependency on an id that is not in the graph never counts as completed. */
  predicate AllCompleted(ts: Tasks, ds: seq<Id>) {
    forall d :: d in ds ==> Has(ts, d, Completed)
  }

  predicate Promotable(ts: Tasks, id: Id) {
    id in ts && ts[id].status == Pending && AllCompleted(ts, ts[id].dependsOn)
  }

  function PromoteAll(ts: Tasks, ids: set<Id>): Tasks {
    map id | id in ts :: if id in ids then ts[id].(status := Ready) else ts[id]
  }

  function Complete(ts: Tasks, id: Id): Tasks {
    var done := SetStatus(ts, id, Completed);
    PromoteAll(done, set x | x in done && Promotable(done, x))
  }

  function SkipAll(ts: Tasks, ids: set<Id>): Tasks {
    map id | id in ts :: if id in ids then ts[id].(status := Skipped) else ts[id]
  }

  /** Everything that transitively depends on `t`, which need not be in the graph itself. */
  ghost function Dependents(ts: Tasks, t: Id): set<Id> {
    set x | x in ts && Reaches(DepsOf(ts), x, t)
  }

  ghost function SkipDependents(ts: Tasks, t: Id): Tasks {
    SkipAll(ts, Dependents(ts, t))
  }

  predicate Terminal(st: Status) {
    st == Completed || st == Failed || st == Skipped
  }

  predicate AllTerminal(ts: Tasks) {
    forall id :: id in ts ==> Terminal(ts[id].status)
  }

  /** The ready tasks in insertion order: an id inserted twice is listed twice. */
  function ReadyTasks(ts: Tasks, order: seq<Id>): seq<Task>
    decreases |order|
  {
    if order == [] then []
    else (if Has(ts, order[0], Ready) then [ts[order[0]].task] else []) + ReadyTasks(ts, order[1..])
  }

  lemma {:induction false} ReadyTasksAreReady(ts: Tasks, order: seq<Id>, t: Task)
    ensures t in ReadyTasks(ts, order) <==> exists id :: id in order && Has(ts, id, Ready) && ts[id].task == t
    decreases |order|
  {
    if order != [] {
      ReadyTasksAreReady(ts, order[1..], t);
      assert order == [order[0]] + order[1..];
    }
  }

  /** Taking a ready task out of that status shortens the list, by all its occurrences. */
  lemma {:induction false} ReadyTasksFall(ts: Tasks, order: seq<Id>, id: Id, st: Status)
    requires Has(ts, id, Ready) && st != Ready
    ensures |ReadyTasks(ts, order)| == |ReadyTasks(SetStatus(ts, id, st), order)| + multiset(order)[id]
    decreases |order|
  {
    if order != [] {
      ReadyTasksFall(ts, order[1..], id, st);
      assert order == [order[0]] + order[1..];
    }
  }

  /** What a batch leaves behind: the graph, the ids inserted, and whether every entry had an id. */
  datatype Loaded = Loaded(tasks: Tasks, added: seq<Id>, complete: bool)

  /** Inserts entry by entry, a later entry replacing an earlier one with its id, up to one without an id. */
  function Load(ts: Tasks, added: seq<Id>, list: seq<Task>): Loaded
    decreases |list|
  {
    if list == [] then Loaded(ts, added, true)
    else if list[0].taskId.None? then Loaded(ts, added, false)
    else
      var id := list[0].taskId.value;
      Load(ts[id := NewNode(list[0])], added + [id], list[1..])
  }

  /** The result of `add_tasks` together with the graph it leaves, on every path. */
  ghost function Add(ts: Tasks, order: seq<Id>, list: seq<Task>): (Result<(), AddError>, Tasks, seq<Id>) {
    var l := Load(ts, [], list);
    if !l.complete then (Err(MissingTaskId), l.tasks, order + l.added)
    else if HasCycle(DepsOf(l.tasks)) then (Err(CycleDetected), l.tasks - (set id | id in l.added), order)
    else (Ok(()), l.tasks, order + l.added)
  }

  ghost predicate InBatch(list: seq<Task>, x: Id, node: TaskNode) {
    exists t :: t in list && t.taskId == Some(x) && node == NewNode(t)
  }

  ghost predicate Names(list: seq<Task>, x: Id) {
    exists t :: t in list && t.taskId == Some(x)
  }

  /** A batch changes nothing but the ids it adds, each of which one of its entries names. */
  lemma {:induction false} LoadAdds(ts: Tasks, added: seq<Id>, list: seq<Task>) returns (ids: seq<Id>)
    ensures var l := Load(ts, added, list);
            && l.added == added + ids
            && l.tasks.Keys == ts.Keys + (set x | x in ids)
            && (forall x :: x in ts && x !in ids ==> l.tasks[x] == ts[x])
            && (forall x :: x in ids ==> Names(list, x))
            && (l.complete ==> forall t :: t in list ==> t.taskId.Some? && t.taskId.value in ids)
            && (ids == [] <==> list == [] || list[0].taskId.None?) && (list == [] ==> l.complete)
    decreases |list|
  {
    hide NewNode;
    ids := [];
    if list != [] && list[0].taskId.Some? {
      var id := list[0].taskId.value;
      var rest := LoadAdds(ts[id := NewNode(list[0])], added + [id], list[1..]);
      ids := [id] + rest;
      assert list == [list[0]] + list[1..];
      assert list[0] in list && Names(list, id);
    }
  }

  /** Every node is an old one or was built from an entry of the batch. */
  lemma {:induction false} LoadedNode(ts: Tasks, added: seq<Id>, list: seq<Task>, x: Id)
    requires x in Load(ts, added, list).tasks
    ensures var node := Load(ts, added, list).tasks[x];
            InBatch(list, x, node) || (x in ts && node == ts[x])
    decreases |list|
  {
    if list != [] && list[0].taskId.Some? {
      var id := list[0].taskId.value;
      var more := ts[id := NewNode(list[0])];
      LoadedNode(more, added + [id], list[1..], x);
      assert list == [list[0]] + list[1..];
    }
  }

  /** A failed `add_tasks` leaves the graph as it was exactly when its first entry lacks an id or,
      for a cycle, no entry reuses an id of the graph. */
  lemma FailedAddIsNoOp(ts: Tasks, order: seq<Id>, list: seq<Task>)
    requires Add(ts, order, list).0.Err?
    ensures (Add(ts, order, list).1, Add(ts, order, list).2) == (ts, order) <==>
            if Add(ts, order, list).0 == Err(MissingTaskId) then list[0].taskId.None?
            else forall t :: t in list && t.taskId.Some? ==> t.taskId.value !in ts
  {
    hide HasCycle, DepsOf, Load, Names;
    var ids := LoadAdds(ts, [], list);
    var l := Load(ts, [], list);
    assert [] + ids == ids;
    TakenOutAgain(ts, l.tasks, ids);
    NamedInBatch(list, ids);
    if !l.complete {
      assert |order + ids| == |order| + |ids|;
      assert order + [] == order;
    }
  }

  /** Removing what a batch added gives back the graph before exactly if none of its ids was in use. */
  lemma TakenOutAgain(before: Tasks, after: Tasks, ids: seq<Id>)
    requires after.Keys == before.Keys + (set x | x in ids) && forall x :: x in before && x !in ids ==> after[x] == before[x]
    ensures after - (set id | id in ids) == before <==> forall x :: x in ids ==> x !in before
    ensures ids == [] ==> after == before
  {
    if x :| x in ids && x in before {
      assert x !in after - (set id | id in ids);
    }
  }

  lemma NamedInBatch(list: seq<Task>, ids: seq<Id>)
    requires forall x :: x in ids ==> Names(list, x)
    ensures (forall t :: t in list && t.taskId.Some? ==> t.taskId.value in ids) ==>
              forall x :: x in ids <==> exists t :: t in list && t.taskId == Some(x)
  {}

  /** Re-adding id 0 in a batch that closes a cycle removes the task that was there before. */
  lemma FailedAddCanLoseATask()
    ensures var running := map[0 := TaskNode(Task(Some(0), [], false, false), [], Running)];
            var batch := [Task(Some(0), [0], false, false)];
            Add(running, [0], batch) == (Err(CycleDetected), map[], [0])
  {
    var running: Tasks := map[0 := TaskNode(Task(Some(0), [], false, false), [], Running)];
    var batch := [Task(Some(0), [0], false, false)];
    var l := Load(running, [], batch);
    assert l == Load(running[0 := NewNode(batch[0])], [0], []);
    EdgeReaches(DepsOf(l.tasks), 0, 0);
  }

  class TaskGraph {
    var tasks: Tasks
    var order: seq<Id>

    constructor ()
      ensures tasks == map[] && order == []
    {
      tasks, order := map[], [];
    }

    /** Adds the tasks one by one and takes them out again when they close a cycle.
        Neither error path restores what an id held before: see `FailedAddIsNoOp`. */
    method AddTasks(list: seq<Task>) returns (r: Result<(), AddError>)
      modifies this
      ensures (r, tasks, order) == Add(old(tasks), old(order), list)
    {
      var startIdx := |order|;
      var added: seq<Id> := [];
      for i := 0 to |list|
        invariant Load(old(tasks), [], list) == Load(tasks, added, list[i..])
        invariant order == old(order) + added
      {
        var task := list[i];
        if task.taskId.None? {
          return Err(MissingTaskId);
        }
        var id := task.taskId.value;
        assert list[i..][1..] == list[i + 1..];
        tasks, order, added := tasks[id := NewNode(task)], order + [id], added + [id];
      }
      var cyclic := DetectCycle();
      if cyclic {
        tasks := tasks - (set id | id in added);
        order := order[..startIdx];
        return Err(CycleDetected);
      }
      return Ok(());
    }

    method InDegrees() returns (inDegree: map<Id, nat>)
      ensures inDegree == Kahn.Counts(DepsOf(tasks), tasks.Keys)
    {
      inDegree := map[];
      var rest := tasks.Keys;
      while rest != {}
        invariant rest <= tasks.Keys && inDegree.Keys == tasks.Keys - rest
        invariant forall x :: x in inDegree ==> inDegree[x] == Kahn.Count(tasks[x].dependsOn, tasks.Keys)
      {
        var id :| id in rest;
        rest := rest - {id};
        inDegree := inDegree[id := Kahn.Count(tasks[id].dependsOn, tasks.Keys)];
      }
    }

    method DetectCycle() returns (cyclic: bool)
      ensures cyclic <==> HasCycle(DepsOf(tasks))
    {
      var inDegree := InDegrees();
      var queue := Kahn.WithoutDependencies(inDegree);
      var dependents := Kahn.Dependents(DepsOf(tasks));
      assert DepsOf(tasks).Keys == tasks.Keys;
      var processed, _ := Kahn.Drain(DepsOf(tasks), inDegree, dependents, queue);
      assert |DepsOf(tasks)| == |tasks.Keys|;
      cyclic := processed < |tasks|;
    }

    /** Only this task changes, and only its status; an unknown id changes nothing. */
    method SetTaskStatus(id: Id, st: Status)
      modifies this`tasks
      ensures OnlyStatus(old(tasks), tasks, id, st) && tasks == SetStatus(old(tasks), id, st)
    {
      if id in tasks {
        tasks := tasks[id := tasks[id].(status := st)];
      }
    }

    method MarkRunning(id: Id)
      modifies this`tasks
      ensures OnlyStatus(old(tasks), tasks, id, Running) && tasks == SetStatus(old(tasks), id, Running)
    {
      if id in tasks {
        tasks := tasks[id := tasks[id].(status := Running)];
      }
    }

    /** Completes a task, then promotes every pending task whose dependencies are now all completed. Nothing else
        changes: in particular, what runs keeps running. */
    method MarkCompleted(id: Id)
      modifies this`tasks
      ensures tasks == Complete(old(tasks), id) && Released(old(tasks), tasks, id)
    {
      hide Released;
      CompleteReleases(tasks, id);
      tasks := SetStatus(tasks, id, Completed);
      var done := tasks;
      var promote: seq<Id> := [];
      var rest := tasks.Keys;
      while rest != {}
        invariant rest <= done.Keys
        invariant forall x :: x in promote <==> x in done && x !in rest && Promotable(done, x)
      {
        var x :| x in rest;
        rest := rest - {x};
        if Promotable(done, x) {
          promote := promote + [x];
        }
      }
      for i := 0 to |promote|
        invariant tasks == PromoteAll(done, set x | x in promote[..i])
      {
        assert promote[..i + 1] == promote[..i] + [promote[i]];
        tasks := SetStatus(tasks, promote[i], Ready);
      }
      assert promote[..|promote|] == promote;
      assert (set x | x in promote) == set x | x in done && Promotable(done, x);
    }

    method MarkFailed(id: Id)
      modifies this`tasks
      ensures OnlyStatus(old(tasks), tasks, id, Failed) && tasks == SetStatus(old(tasks), id, Failed)
    {
      if id in tasks {
        tasks := tasks[id := tasks[id].(status := Failed)];
      }
    }

    /** Skips exactly the tasks that transitively depend on `t`, by a breadth-first search. */
    method FailDependents(t: Id)
      modifies this`tasks
      ensures tasks == SkipDependents(old(tasks), t)
      ensures tasks.Keys == old(tasks.Keys)
      ensures forall x :: x in tasks ==>
                tasks[x] == if Reaches(DepsOf(old(tasks)), x, t) then old(tasks)[x].(status := Skipped) else old(tasks)[x]
    {
      ghost var before, g := tasks, DepsOf(tasks);
      var reverseDeps := Kahn.Dependents(DepsOf(tasks));
      var visited, queue := {}, [t];
      ghost var marked: set<Id> := {};
      hide DepsOf, Reaches, Kahn.Inverts, Kahn.Multiplicity;
      while queue != []
        invariant Frontier(g, t, visited, queue, marked)
        invariant tasks == SkipAll(before, marked)
        decreases g.Keys + {t} - visited, |queue|
      {
        var current := queue[0];
        if current in visited {
          FrontierSkip(g, t, visited, queue, marked);
          queue := queue[1..];
        } else {
          var children := if current in reverseDeps then reverseDeps[current] else [];
          FrontierVisit(g, t, visited, queue, marked, reverseDeps);
          visited := visited + {current};
          SkipEach(children);
          marked := marked + set x | x in children;
          queue := queue[1..] + children;
        }
      }
      FrontierDone(before, t, visited, marked);
    }

    method SkipEach(children: seq<Id>)
      modifies this`tasks
      ensures tasks == SkipAll(old(tasks), set x | x in children)
    {
      for i := 0 to |children|
        invariant tasks == SkipAll(old(tasks), set x | x in children[..i])
      {
        assert children[..i + 1] == children[..i] + [children[i]];
        tasks := SetStatus(tasks, children[i], Skipped);
      }
      assert children[..|children|] == children;
    }

    /** Looks at the tasks one by one, in any order, and stops at the first that is not terminal. */
    method IsComplete() returns (complete: bool)
      ensures complete <==> forall id :: id in tasks ==> tasks[id].status in {Completed, Failed, Skipped}
      ensures complete <==> AllTerminal(tasks)
    {
      var rest := tasks.Keys;
      while rest != {}
        invariant rest <= tasks.Keys
        invariant forall id :: id in tasks && id !in rest ==> Terminal(tasks[id].status)
      {
        var id :| id in rest;
        rest := rest - {id};
        if !Terminal(tasks[id].status) {
          return false;
        }
      }
      return true;
    }
  }

  /** `id` keeps its task and dependencies and gets the status; every other task stays as it was. */
  predicate OnlyStatus(before: Tasks, after: Tasks, id: Id, st: Status) {
    && after.Keys == before.Keys
    && (forall x :: x in after && x != id ==> after[x] == before[x])
    && (id in after ==> after[id] == before[id].(status := st))
  }

  /** `id` completed and keeps everything else it has; every other task stays as it was, except that a pending one is
      ready now exactly if all its dependencies are completed tasks. */
  predicate Released(before: Tasks, after: Tasks, id: Id) {
    && after.Keys == before.Keys
    && (id in after ==> after[id] == before[id].(status := Completed))
    && forall x :: x in after && x != id ==>
         after[x] == if && before[x].status == Pending
                        && forall d :: d in before[x].dependsOn ==> d in after && after[d].status == Completed
                     then before[x].(status := Ready) else before[x]
  }

  lemma CompleteReleases(ts: Tasks, id: Id)
    ensures Released(ts, Complete(ts, id), id)
  {
    var done, after := SetStatus(ts, id, Completed), Complete(ts, id);
    forall d ensures Has(done, d, Completed) <==> d in after && after[d].status == Completed {}
  }

  /** The state of the search below `t`: `marked` are the tasks found so far. */
  ghost predicate Frontier(g: Deps, t: Id, visited: set<Id>, queue: seq<Id>, marked: set<Id>) {
    && (t in visited || t in queue)
    && (forall x :: x in marked ==> x in g && Reaches(g, x, t) && (x in visited || x in queue))
    && (forall x :: x in visited || x in queue ==> x == t || x in marked)
    && (forall x, y :: Edge(g, x, y) && y in visited ==> x in marked)
  }

  lemma FrontierSkip(g: Deps, t: Id, visited: set<Id>, queue: seq<Id>, marked: set<Id>)
    requires queue != [] && queue[0] in visited && Frontier(g, t, visited, queue, marked)
    ensures Frontier(g, t, visited, queue[1..], marked)
  {}

  lemma FrontierVisit(g: Deps, t: Id, visited: set<Id>, queue: seq<Id>, marked: set<Id>, reverse: map<Id, seq<Id>>)
    requires queue != [] && Frontier(g, t, visited, queue, marked) && Kahn.Inverts(g, reverse)
    ensures queue[0] in g.Keys + {t}
    ensures var children := if queue[0] in reverse then reverse[queue[0]] else [];
            Frontier(g, t, visited + {queue[0]}, queue[1..] + children, marked + set x | x in children)
  {
    var c := queue[0];
    var children := if c in reverse then reverse[c] else [];
    assert queue == [c] + queue[1..];
    forall x ensures x in children <==> Edge(g, x, c) {
      assert Kahn.Multiplicity(reverse, c, x) == Kahn.Multiplicity(g, x, c);
    }
    forall x | x in children ensures Reaches(g, x, t) {
      EdgeReaches(g, x, c);
      if c != t {
        EdgeThenReaches(g, x, c, t);
      }
    }
  }

  lemma FrontierDone(ts: Tasks, t: Id, visited: set<Id>, marked: set<Id>)
    requires Frontier(DepsOf(ts), t, visited, [], marked)
    ensures marked == Dependents(ts, t)
  {
    var g := DepsOf(ts);
    forall x | Reaches(g, x, t) ensures x in marked {
      var p :| WalkFromTo(g, p, x, t);
      ClosedContainsReaching(g, marked, t, p);
    }
  }
}
