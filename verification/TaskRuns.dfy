/** Whole runs of a task graph: dependency safety, exact failure cascade, deadlock freedom, termination. */
module TaskRuns {
  import opened Common
  import opened Graph
  import opened TaskGraphs
  import opened Retry

  datatype Run = Run(tasks: Tasks, ledger: Ledger)

  /** `Start` dispatches a ready task, `Finish` reports its result, `Reject` fails a task without asking
      for a retry, `Die` is the death of its worker, which asks for one. */
  datatype Move = Start(id: Id) | Finish(id: Id) | Reject(id: Id) | Die(id: Id)

  predicate Enabled(r: Run, m: Move) {
    match m
    case Start(id) => Has(r.tasks, id, Ready)
    case Finish(id) => Has(r.tasks, id, Running)
    case Reject(id) => Has(r.tasks, id, Ready) || Has(r.tasks, id, Running)
    case Die(id) => Has(r.tasks, id, Running)
  }

  ghost function FailAndSkip(ts: Tasks, id: Id): Tasks {
    SkipDependents(SetStatus(ts, id, Failed), id)
  }

  ghost function Step(r: Run, m: Move): Run {
    match m
    case Start(id) => r.(tasks := SetStatus(r.tasks, id, Running))
    case Finish(id) => r.(tasks := Complete(r.tasks, id))
    case Reject(id) => r.(tasks := FailAndSkip(r.tasks, id))
    case Die(id) =>
      var (granted, ledger) := Decide(r.ledger, id);
      if granted.Some? then Run(SetStatus(r.tasks, id, Ready), ledger)
      else Run(FailAndSkip(r.tasks, id), ledger)
  }

  ghost predicate Valid(r: Run, ms: seq<Move>)
    decreases |ms|
  {
    ms == [] || (Enabled(r, ms[0]) && Valid(Step(r, ms[0]), ms[1..]))
  }

  ghost function Exec(r: Run, ms: seq<Move>): Run
    decreases |ms|
  {
    if ms == [] then r else Exec(Step(r, ms[0]), ms[1..])
  }

  // ---- The invariant ----

  predicate Started(st: Status) {
    st == Ready || st == Running || st == Completed || st == Failed
  }

  predicate DependenciesSettled(ts: Tasks, id: Id)
    requires id in ts
  {
    && ts[id].status != AwaitingApproval
    && (Started(ts[id].status) ==> AllCompleted(ts, ts[id].dependsOn))
    && (ts[id].status == Pending ==> !AllCompleted(ts, ts[id].dependsOn))
  }

  predicate Dead(ts: Tasks, id: Id) {
    Has(ts, id, Failed) || Has(ts, id, Skipped)
  }

  ghost predicate DependsOnFailure(ts: Tasks, x: Id) {
    exists f :: Has(ts, f, Failed) && Reaches(DepsOf(ts), x, f)
  }

  ghost predicate Settled(ts: Tasks) {
    forall id :: id in ts ==> DependenciesSettled(ts, id)
  }

  ghost predicate Spread(ts: Tasks) {
    forall x, y :: x in ts && y in ts[x].dependsOn && Dead(ts, y) ==> ts[x].status == Skipped
  }

  ghost predicate Blamed(ts: Tasks) {
    forall x :: Has(ts, x, Skipped) ==> DependsOnFailure(ts, x)
  }

  ghost predicate Inv(ts: Tasks) {
    !HasCycle(DepsOf(ts)) && Settled(ts) && Spread(ts) && Blamed(ts)
  }

  /** The graph a successful `add_tasks` leaves in an empty graph. */
  ghost predicate Added(ts: Tasks, list: seq<Task>) {
    Add(map[], [], list).0 == Ok(()) && ts == Add(map[], [], list).1
  }

  lemma AddedInv(ts: Tasks, list: seq<Task>)
    requires Added(ts, list)
    ensures Inv(ts) && forall id :: id in ts ==> ts[id].status == Ready || ts[id].status == Pending
  {
    forall id | id in ts ensures ts[id].status == (if ts[id].dependsOn == [] then Ready else Pending) {
      LoadedNode(map[], [], list, id);
    }
    forall id | id in ts ensures DependenciesSettled(ts, id) {
      if ts[id].dependsOn != [] {
        assert ts[id].dependsOn[0] in ts[id].dependsOn;
      }
    }
  }

  /** Everything a started task transitively depends on is completed. */
  lemma StartedDependsOnCompleted(ts: Tasks, x: Id, t: Id)
    requires forall id :: id in ts ==> DependenciesSettled(ts, id)
    requires x in ts && Started(ts[x].status) && Reaches(DepsOf(ts), x, t)
    ensures Has(ts, t, Completed)
  {
    var p :| WalkFromTo(DepsOf(ts), p, x, t);
    CompletedAlong(ts, p);
  }

  lemma {:induction false} CompletedAlong(ts: Tasks, p: seq<Id>)
    requires forall id :: id in ts ==> DependenciesSettled(ts, id)
    requires |p| > 1 && Walk(DepsOf(ts), p) && p[0] in ts && Started(ts[p[0]].status)
    ensures Has(ts, p[|p| - 1], Completed)
    decreases |p|
  {
    assert Edge(DepsOf(ts), p[0], p[1]);
    if |p| > 2 {
      WalkSuffix(DepsOf(ts), p, 1);
      CompletedAlong(ts, p[1..]);
    }
  }

  /** The cascade below a task that is ready or running meets only pending and skipped tasks. */
  lemma CascadeIsHarmless(ts: Tasks, t: Id, x: Id)
    requires Inv(ts) && (Has(ts, t, Ready) || Has(ts, t, Running)) && x in Dependents(ts, t)
    ensures ts[x].status == Pending || ts[x].status == Skipped
  {
    if Started(ts[x].status) {
      StartedDependsOnCompleted(ts, x, t);
    }
  }

  ghost predicate SameShape(ts: Tasks, us: Tasks) {
    ts.Keys == us.Keys && forall id :: id in ts ==> ts[id].dependsOn == us[id].dependsOn
  }

  lemma SameDeps(ts: Tasks, us: Tasks)
    requires SameShape(ts, us)
    ensures DepsOf(ts) == DepsOf(us)
  {}

  lemma SettledKept(ts: Tasks, us: Tasks)
    requires SameShape(ts, us) && Settled(ts)
    requires forall x :: Has(us, x, Completed) <==> Has(ts, x, Completed)
    requires forall x :: x in us && Started(us[x].status) ==> Started(ts[x].status)
    requires forall x :: Has(us, x, Pending) ==> Has(ts, x, Pending)
    requires forall x :: !Has(us, x, AwaitingApproval)
    ensures Settled(us)
  {
    forall x | x in us ensures DependenciesSettled(us, x) {
      assert DependenciesSettled(ts, x);
      assert forall d :: Has(us, d, Completed) <==> Has(ts, d, Completed);
      assert AllCompleted(us, us[x].dependsOn) <==> AllCompleted(ts, ts[x].dependsOn);
      assert !Has(us, x, AwaitingApproval) && (Has(us, x, Pending) ==> Has(ts, x, Pending));
    }
  }

  lemma FailuresKept(ts: Tasks, us: Tasks)
    requires SameShape(ts, us) && Spread(ts) && Blamed(ts)
    requires forall x :: Has(us, x, Skipped) <==> Has(ts, x, Skipped)
    requires forall x :: Has(us, x, Failed) <==> Has(ts, x, Failed)
    ensures Spread(us) && Blamed(us)
  {
    SameDeps(ts, us);
    forall x, y | x in us && y in us[x].dependsOn && Dead(us, y) ensures us[x].status == Skipped {
      assert Dead(ts, y);
      assert Has(ts, x, Skipped);
    }
    forall x | Has(us, x, Skipped) ensures DependsOnFailure(us, x) {
      assert Has(ts, x, Skipped);
      var f :| Has(ts, f, Failed) && Reaches(DepsOf(ts), x, f);
      assert Has(us, f, Failed);
    }
  }

  /** Moving between ready and running changes nothing the invariant looks at. */
  lemma RelabelInv(ts: Tasks, id: Id, st: Status)
    requires Inv(ts) && (Has(ts, id, Ready) || Has(ts, id, Running)) && (st == Ready || st == Running)
    ensures Inv(SetStatus(ts, id, st)) && DepsOf(SetStatus(ts, id, st)) == DepsOf(ts)
  {
    var us := SetStatus(ts, id, st);
    forall x ensures !Has(ts, x, AwaitingApproval) {
      assert x in ts ==> DependenciesSettled(ts, x);
    }
    SettledKept(ts, us);
    FailuresKept(ts, us);
    SameDeps(ts, us);
  }

  lemma CompleteInv(ts: Tasks, id: Id)
    requires Inv(ts) && Has(ts, id, Running)
    ensures Inv(Complete(ts, id)) && DepsOf(Complete(ts, id)) == DepsOf(ts)
  {
    var us := Complete(ts, id);
    FailuresKept(ts, us);
    SameDeps(ts, us);
    PromotionSettles(ts, id);
  }

  lemma PromotionSettles(ts: Tasks, id: Id)
    requires Settled(ts) && Has(ts, id, Running)
    ensures Settled(Complete(ts, id))
  {}

  /** What the cascade leaves: `id` failed, everything above it skipped, the rest as it was. */
  lemma FailShape(ts: Tasks, id: Id)
    requires Inv(ts) && (Has(ts, id, Ready) || Has(ts, id, Running))
    ensures FailAndSkip(ts, id).Keys == ts.Keys && DepsOf(FailAndSkip(ts, id)) == DepsOf(ts)
    ensures forall x :: x in ts ==>
              && FailAndSkip(ts, id)[x].dependsOn == ts[x].dependsOn
              && FailAndSkip(ts, id)[x].status ==
                 if x == id then Failed else if x in Dependents(ts, id) then Skipped else ts[x].status
    ensures forall x :: x in Dependents(ts, id) ==> !Started(ts[x].status)
  {
    var mid := SetStatus(ts, id, Failed);
    SameDeps(ts, mid);
    SameDeps(ts, FailAndSkip(ts, id));
    assert !Reaches(DepsOf(ts), id, id);
    forall x | x in Dependents(ts, id) ensures !Started(ts[x].status) {
      CascadeIsHarmless(ts, id, x);
    }
  }

  lemma FailInv(ts: Tasks, id: Id)
    requires Inv(ts) && (Has(ts, id, Ready) || Has(ts, id, Running))
    ensures Inv(FailAndSkip(ts, id)) && DepsOf(FailAndSkip(ts, id)) == DepsOf(ts)
  {
    var us := FailAndSkip(ts, id);
    FailSettles(ts, id);
    FailBlames(ts, id);
    FailShape(ts, id);
    forall x, y | x in us && y in us[x].dependsOn && Dead(us, y) ensures us[x].status == Skipped {
      FailureSpreads(ts, id, x, y);
    }
  }

  lemma FailSettles(ts: Tasks, id: Id)
    requires Inv(ts) && (Has(ts, id, Ready) || Has(ts, id, Running))
    ensures Settled(FailAndSkip(ts, id))
  {
    FailShape(ts, id);
    forall x ensures !Has(ts, x, AwaitingApproval) {
      assert x in ts ==> DependenciesSettled(ts, x);
    }
    SettledKept(ts, FailAndSkip(ts, id));
  }

  lemma FailBlames(ts: Tasks, id: Id)
    requires Inv(ts) && (Has(ts, id, Ready) || Has(ts, id, Running))
    ensures Blamed(FailAndSkip(ts, id))
  {
    var us := FailAndSkip(ts, id);
    FailShape(ts, id);
    assert Has(us, id, Failed);
    forall x | Has(us, x, Skipped) ensures DependsOnFailure(us, x) {
      if x !in Dependents(ts, id) {
        assert Has(ts, x, Skipped) && DependsOnFailure(ts, x);
        var f :| Has(ts, f, Failed) && Reaches(DepsOf(ts), x, f);
        assert Has(us, f, Failed);
      }
    }
  }

  lemma FailureSpreads(ts: Tasks, id: Id, x: Id, y: Id)
    requires Inv(ts) && (Has(ts, id, Ready) || Has(ts, id, Running))
    requires x in ts && y in ts[x].dependsOn && Dead(FailAndSkip(ts, id), y)
    ensures FailAndSkip(ts, id)[x].status == Skipped
  {
    FailShape(ts, id);
    var g := DepsOf(ts);
    assert Edge(g, x, y);
    if y == id {
      EdgeReaches(g, x, y);
      assert x in Dependents(ts, id) && x != id;
    } else if y in Dependents(ts, id) {
      EdgeThenReaches(g, x, y, id);
      assert x in Dependents(ts, id) && x != id;
    } else {
      assert Dead(ts, y);
    }
  }

  lemma StepInv(r: Run, m: Move)
    requires Inv(r.tasks) && Enabled(r, m)
    ensures Inv(Step(r, m).tasks) && DepsOf(Step(r, m).tasks) == DepsOf(r.tasks)
  {
    match m
    case Start(id) => RelabelInv(r.tasks, id, Running);
    case Finish(id) => CompleteInv(r.tasks, id);
    case Reject(id) => FailInv(r.tasks, id);
    case Die(id) =>
      RelabelInv(r.tasks, id, Ready);
      FailInv(r.tasks, id);
  }

  lemma {:induction false} ExecInv(r: Run, ms: seq<Move>)
    requires Inv(r.tasks) && Valid(r, ms)
    ensures Inv(Exec(r, ms).tasks) && DepsOf(Exec(r, ms).tasks) == DepsOf(r.tasks)
    decreases |ms|
  {
    if ms != [] {
      StepInv(r, ms[0]);
      ExecInv(Step(r, ms[0]), ms[1..]);
    }
  }

  // ---- Main results over runs ----

  /** In every state of every run: a task that was ever released has all its transitive dependencies
      completed, and a task is skipped exactly when it transitively depends on a failed one. */
  lemma DependencySafety(list: seq<Task>, ledger: Ledger, ts: Tasks, ms: seq<Move>, x: Id)
    requires Added(ts, list) && Valid(Run(ts, ledger), ms) && x in ts
    ensures var now := Exec(Run(ts, ledger), ms).tasks;
            && now.Keys == ts.Keys
            && (Started(now[x].status) ==> forall t :: Reaches(DepsOf(ts), x, t) ==> Has(now, t, Completed))
            && (now[x].status == Skipped <==> DependsOnFailure(now, x))
  {
    AddedInv(ts, list);
    ExecInv(Run(ts, ledger), ms);
    var now := Exec(Run(ts, ledger), ms).tasks;
    assert now.Keys == DepsOf(now).Keys == ts.Keys;
    if Started(now[x].status) {
      forall t | Reaches(DepsOf(ts), x, t) ensures Has(now, t, Completed) {
        StartedDependsOnCompleted(now, x, t);
      }
    }
    if DependsOnFailure(now, x) {
      var f :| Has(now, f, Failed) && Reaches(DepsOf(now), x, f);
      SkippedAbove(now, x, f);
    }
  }

  lemma SkippedAbove(ts: Tasks, x: Id, f: Id)
    requires Inv(ts) && Has(ts, f, Failed) && Reaches(DepsOf(ts), x, f)
    ensures Has(ts, x, Skipped)
  {
    var p :| WalkFromTo(DepsOf(ts), p, x, f);
    var skipped := set y | y in ts && ts[y].status == Skipped;
    forall x', y | Edge(DepsOf(ts), x', y) && (y == f || y in skipped) ensures x' in skipped {
      assert Dead(ts, y);
    }
    ClosedContainsReaching(DepsOf(ts), skipped, f, p);
  }

  ghost predicate Deadlocked(ts: Tasks) {
    !AllTerminal(ts) && forall id :: !Has(ts, id, Ready) && !Has(ts, id, Running)
  }

  ghost predicate HasDangling(ts: Tasks) {
    exists x, y :: x in ts && y in ts[x].dependsOn && y !in ts
  }

  ghost predicate DeadlockFree(r: Run) {
    forall ms :: Valid(r, ms) ==> !Deadlocked(Exec(r, ms).tasks)
  }

  /** A deadlocked state without dangling dependencies would be a cycle of pending tasks. */
  lemma NoDeadlock(ts: Tasks)
    requires Inv(ts) && !HasDangling(ts)
    ensures !Deadlocked(ts)
  {
    if Deadlocked(ts) {
      var g, pending := DepsOf(ts), set x | x in ts && ts[x].status == Pending;
      forall x | x in pending ensures DependsInto(g, pending, x) {
        assert DependenciesSettled(ts, x);
        var y :| y in ts[x].dependsOn && !(y in ts && ts[y].status == Completed);
        assert y in ts && DependenciesSettled(ts, y) && Edge(g, x, y);
        assert !Has(ts, y, Ready) && !Has(ts, y, Running) && !Dead(ts, y);
        assert y in pending;
      }
      var x :| x in ts && !Terminal(ts[x].status);
      assert DependenciesSettled(ts, x) && !Has(ts, x, Ready) && !Has(ts, x, Running);
      assert x in pending;
      StuckHasCycle(g, pending);
    }
  }

  // ---- Termination ----

  function StatusWeight(st: Status): nat {
    match st
    case Pending => 3
    case Ready => 2
    case AwaitingApproval => 2
    case Running => 1
    case _ => 0
  }

  function Weight(r: Run, id: Id): nat {
    (if id in r.tasks then StatusWeight(r.tasks[id].status) else 0) + 2 * r.ledger.Remaining(id)
  }

  function Measure(r: Run, ids: seq<Id>): nat {
    if ids == [] then 0 else Weight(r, ids[0]) + Measure(r, ids[1..])
  }

  lemma {:induction false} MeasureFalls(r: Run, s: Run, ids: seq<Id>, id: Id)
    requires forall x :: Weight(s, x) <= Weight(r, x)
    requires Weight(s, id) < Weight(r, id)
    ensures Measure(s, ids) <= Measure(r, ids) && (id in ids ==> Measure(s, ids) < Measure(r, ids))
  {
    if ids != [] {
      MeasureFalls(r, s, ids[1..], id);
    }
  }

  lemma StepFalls(r: Run, m: Move, ids: seq<Id>)
    requires Inv(r.tasks) && Enabled(r, m) && m.id in ids
    ensures Measure(Step(r, m), ids) < Measure(r, ids)
  {
    StepLightens(r, m);
    MeasureFalls(r, Step(r, m), ids, m.id);
  }

  lemma StepLightens(r: Run, m: Move)
    requires Inv(r.tasks) && Enabled(r, m)
    ensures forall x :: Weight(Step(r, m), x) <= Weight(r, x)
    ensures Weight(Step(r, m), m.id) < Weight(r, m.id)
  {
    match m
    case Start(id) =>
    case Finish(id) =>
    case Reject(id) => FailLightens(r.tasks, id);
    case Die(id) => DieLightens(r, id);
  }

  lemma DieLightens(r: Run, id: Id)
    requires Inv(r.tasks) && Has(r.tasks, id, Running)
    ensures forall x :: Weight(Step(r, Die(id)), x) <= Weight(r, x)
    ensures Weight(Step(r, Die(id)), id) < Weight(r, id)
  {
    DecideLightens(r.ledger, id);
    if Decide(r.ledger, id).0.None? {
      FailLightens(r.tasks, id);
    }
  }

  lemma DecideLightens(l: Ledger, id: Id)
    ensures var (granted, next) := Decide(l, id);
            && (forall x :: next.Remaining(x) <= l.Remaining(x))
            && (granted.Some? ==> next.Remaining(id) == l.Remaining(id) - 1)
  {}

  lemma FailLightens(ts: Tasks, id: Id)
    requires Inv(ts) && (Has(ts, id, Ready) || Has(ts, id, Running))
    ensures FailAndSkip(ts, id).Keys == ts.Keys
    ensures forall x :: x in ts ==> StatusWeight(FailAndSkip(ts, id)[x].status) <= StatusWeight(ts[x].status)
    ensures StatusWeight(FailAndSkip(ts, id)[id].status) == 0
  {}

  lemma {:induction false} RunsAreFinite(r: Run, ms: seq<Move>, ids: seq<Id>)
    requires Inv(r.tasks) && Valid(r, ms) && forall x :: x in r.tasks ==> x in ids
    ensures |ms| + Measure(Exec(r, ms), ids) <= Measure(r, ids)
    decreases |ms|
  {
    if ms != [] {
      StepInv(r, ms[0]);
      StepFalls(r, ms[0], ids);
      assert DepsOf(Step(r, ms[0]).tasks).Keys == DepsOf(r.tasks).Keys;
      RunsAreFinite(Step(r, ms[0]), ms[1..], ids);
    }
  }

  /** Total work: each entry costs at most three moves and each allowed retry two more. */
  function Budget(ledger: Ledger, order: seq<Id>): nat {
    if order == [] then 0
    else 3 + 2 * Allowance(ledger.StrategyOf(order[0])) + Budget(ledger, order[1..])
  }

  lemma {:induction false} MeasureWithinBudget(r: Run, ids: seq<Id>)
    ensures Measure(r, ids) <= Budget(r.ledger, ids)
  {
    if ids != [] {
      MeasureWithinBudget(r, ids[1..]);
    }
  }

  /** No run of an accepted batch is longer than its budget. */
  lemma TerminationBound(list: seq<Task>, ledger: Ledger, ts: Tasks, ms: seq<Move>)
    requires Added(ts, list) && Valid(Run(ts, ledger), ms)
    ensures |ms| <= Budget(ledger, Add(map[], [], list).2)
  {
    hide Inv, Valid, Exec, Measure;
    var ids := LoadAdds(map[], [], list);
    assert Add(map[], [], list).2 == ids;
    AddedInv(ts, list);
    RunsAreFinite(Run(ts, ledger), ms, ids);
    MeasureWithinBudget(Run(ts, ledger), ids);
  }

  // ---- Deadlock freedom, exactly ----

  ghost predicate NothingFailed(ts: Tasks) {
    forall id :: id in ts ==> !Dead(ts, id)
  }

  /** A task waiting for an absent id is never released, so finishing everything else strands it. */
  lemma {:induction false} FinishEverything(r: Run, ids: seq<Id>, x: Id, y: Id) returns (ms: seq<Move>)
    requires Inv(r.tasks) && NothingFailed(r.tasks) && forall id :: id in r.tasks ==> id in ids
    requires x in r.tasks && y in r.tasks[x].dependsOn && y !in r.tasks
    ensures Valid(r, ms) && Deadlocked(Exec(r, ms).tasks)
    decreases Measure(r, ids)
  {
    hide Inv, Step, NothingFailed, Deadlocked, Measure;
    if id :| Has(r.tasks, id, Ready) || Has(r.tasks, id, Running) {
      var m := if Has(r.tasks, id, Ready) then Start(id) else Finish(id);
      StepInv(r, m);
      StepFalls(r, m, ids);
      SuccessKeepsGoing(r, m);
      var rest := FinishEverything(Step(r, m), ids, x, y);
      ms := [m] + rest;
    } else {
      ms := [];
      Stranded(r.tasks, x, y);
    }
  }

  lemma SuccessKeepsGoing(r: Run, m: Move)
    requires NothingFailed(r.tasks) && Enabled(r, m) && (m.Start? || m.Finish?)
    ensures var us := Step(r, m).tasks;
            && NothingFailed(us) && us.Keys == r.tasks.Keys
            && forall x :: x in us ==> us[x].dependsOn == r.tasks[x].dependsOn
  {}

  lemma Stranded(ts: Tasks, x: Id, y: Id)
    requires Inv(ts) && NothingFailed(ts) && x in ts && y in ts[x].dependsOn && y !in ts
    requires forall id :: !Has(ts, id, Ready) && !Has(ts, id, Running)
    ensures Deadlocked(ts)
  {}

  lemma DanglingDeadlocks(list: seq<Task>, ledger: Ledger, ts: Tasks)
    requires Added(ts, list) && HasDangling(ts)
    ensures !DeadlockFree(Run(ts, ledger))
  {
    hide Inv, Valid, Exec, Deadlocked;
    AddedInv(ts, list);
    var x, y :| x in ts && y in ts[x].dependsOn && y !in ts;
    var ids := LoadAdds(map[], [], list);
    var ms := FinishEverything(Run(ts, ledger), ids, x, y);
  }

  /** An accepted batch can never deadlock exactly when every dependency names a task of the batch. */
  lemma DeadlockFreeIffNoDangling(list: seq<Task>, ledger: Ledger, ts: Tasks)
    requires Added(ts, list)
    ensures DeadlockFree(Run(ts, ledger)) <==> !HasDangling(ts)
  {
    hide Inv, Valid, Exec, Deadlocked;
    AddedInv(ts, list);
    if HasDangling(ts) {
      DanglingDeadlocks(list, ledger, ts);
    } else {
      forall ms | Valid(Run(ts, ledger), ms) ensures !Deadlocked(Exec(Run(ts, ledger), ms).tasks) {
        NeverDeadlocked(Run(ts, ledger), ms);
      }
    }
  }

  lemma NeverDeadlocked(r: Run, ms: seq<Move>)
    requires Inv(r.tasks) && !HasDangling(r.tasks) && Valid(r, ms)
    ensures !Deadlocked(Exec(r, ms).tasks)
  {
    ExecInv(r, ms);
    DanglingKept(r.tasks, Exec(r, ms).tasks);
    NoDeadlock(Exec(r, ms).tasks);
  }

  lemma DanglingKept(ts: Tasks, us: Tasks)
    requires DepsOf(ts) == DepsOf(us)
    ensures HasDangling(us) ==> HasDangling(ts)
  {
    if HasDangling(us) {
      var x, y :| x in us && y in us[x].dependsOn && y !in us;
      assert DepsOf(us)[x] == DepsOf(ts)[x] && x in DepsOf(ts) && y !in DepsOf(us);
      assert x in ts && y in ts[x].dependsOn && y !in ts;
    }
  }

  /** A single task that waits for an id nobody provides is accepted and already deadlocked. */
  lemma DanglingBatchDeadlocks(ledger: Ledger)
    ensures var list := [Task(Some(0), [1], false, false)];
            exists ts :: Added(ts, list) && Deadlocked(ts) && !DeadlockFree(Run(ts, ledger))
  {
    var t := Task(Some(0), [1], false, false);
    var ts: Tasks := map[0 := NewNode(t)];
    assert Load(map[], [], [t]) == Load(ts, [0], []);
    if HasCycle(DepsOf(ts)) {
      RankedHasNoCycle(DepsOf(ts), map[0 := 0]);
    }
    assert Added(ts, [t]);
    assert Has(ts, 0, Pending);
    assert Valid(Run(ts, ledger), []) && Exec(Run(ts, ledger), []).tasks == ts;
  }
}
