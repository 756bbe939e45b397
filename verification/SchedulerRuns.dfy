/** Whole histories of the scheduler: any operations in any order, from the empty scheduler on. */
module SchedulerRuns {
  import opened Common
  import opened Queues
  import opened Processes
  import opened Scheduling
  import opened Cascades
  import opened Cycles

  /** `DoTick` is one cycle, for any responses, any list of timed-out processes and any behaviours. */
  datatype Op =
    | DoEnqueue(pid: Pid)
    | DoSend(to: Pid, msg: Message)
    | DoSpawn
    | DoLink(pid: Pid, other: Pid)
    | DoMonitor(watcher: Pid, target: Pid)
    | DoDemonitor(watcher: Pid, ref: Ref)
    | DoTerminate(pid: Pid, reason: Reason)
    | DoSetTimeout(pid: Pid, deadline: nat)
    | DoSetTrapExit(pid: Pid, trap: bool)
    | DoSetPriority(pid: Pid, lane: Priority)
    | DoSetExternal(enabled: bool)
    | DoDrain
    | DoStartChild(lane: Priority, starts: bool)
    | DoTick(responses: seq<(Pid, Message)>, due: seq<Pid>, choices: Choices)

  function Replace(s: Sched, p: Pid, proc: Process): Sched {
    s.(procs := s.procs[p := proc])
  }

  function Apply(s: Sched, op: Op): Sched {
    match op
    case DoEnqueue(p) => Enqueue(s, p)
    case DoSend(to, m) => Send(s, to, m)
    case DoSpawn => Spawn(s)
    case DoLink(p, q) => AddLink(AddLink(s, p, q), q, p)
    case DoMonitor(w, x) => if w in s.procs && x in s.procs then Monitor(s, w, x) else s
    case DoDemonitor(w, r) => Demonitor(s, w, r).1
    case DoTerminate(p, reason) => Terminate(s, p, reason)
    case DoSetTimeout(p, deadline) => if p in s.procs then Replace(s, p, s.procs[p].(timeout := Some(deadline))) else s
    case DoSetTrapExit(p, trap) => if p in s.procs then Replace(s, p, s.procs[p].(trapExit := trap)) else s
    case DoSetPriority(p, lane) => if p in s.procs then Replace(s, p, s.procs[p].(priority := lane)) else s
    case DoSetExternal(enabled) => s.(external := enabled)
    case DoDrain => s.(outbound := [])
    case DoStartChild(lane, starts) => SpawnAt(s, lane, starts)
    case DoTick(responses, due, choices) => Cycle(s, responses, due, choices).1
  }

  function Run(s: Sched, ops: seq<Op>): Sched
    decreases |ops|
  {
    if |ops| == 0 then s else Run(Apply(s, ops[0]), ops[1..])
  }

  lemma EmptyInv()
    ensures Inv(EMPTY, {})
  {}

  lemma LinkKeepsInv(s: Sched, p: Pid, q: Pid)
    requires Inv(s, {})
    ensures var u := AddLink(AddLink(s, p, q), q, p); Inv(u, {}) && Evolves(s, u)
  {
    hide Inv, Evolves;
    LinkStep(s, p, q, {});
    LinkStep(AddLink(s, p, q), q, p, {});
    EvolvesTrans(s, AddLink(s, p, q), AddLink(AddLink(s, p, q), q, p));
  }

  lemma ReplaceKeepsAll(s: Sched, p: Pid, proc: Process)
    requires Inv(s, {}) && p in s.procs && proc.monitors == s.procs[p].monitors && proc.monitoredBy == s.procs[p].monitoredBy
    requires proc.hasState == s.procs[p].hasState && proc.status == s.procs[p].status
    ensures Inv(Replace(s, p, proc), {}) && Evolves(s, Replace(s, p, proc))
  {
    RewireKeepsInv(s, s.procs[p := proc], {});
  }

  lemma RoutingKeepsAll(s: Sched, external: bool, outbound: seq<(Pid, Message)>)
    requires Inv(s, {})
    ensures var u := s.(external := external, outbound := outbound); Inv(u, {}) && Evolves(s, u)
  {
    hide TablesOk;
  }

  lemma SpawnAtKeepsInv(s: Sched, lane: Priority, starts: bool)
    requires Inv(s, {})
    ensures Inv(SpawnAt(s, lane, starts), {}) && Evolves(s, SpawnAt(s, lane, starts))
  {
    hide Inv, Evolves, Enqueue, PassPid;
    if starts {
      var born, pid := Spawn(s), s.nextPid;
      SpawnKeepsInv(s, {});
      var ranked := Replace(born, pid, born.procs[pid].(priority := lane));
      ReplaceKeepsAll(born, pid, born.procs[pid].(priority := lane));
      EnqueueStep(ranked, pid, {});
      EvolvesTrans(s, born, ranked);
      EvolvesTrans(s, ranked, Enqueue(ranked, pid));
    } else {
      PassPidKeepsInv(s, {});
    }
  }

  lemma ApplyKeepsInv(s: Sched, op: Op)
    requires Inv(s, {})
    ensures Inv(Apply(s, op), {}) && Evolves(s, Apply(s, op))
  {
    hide Inv, Evolves, Enqueue, Send, Spawn, SpawnAt, AddLink, Monitor, Demonitor, Terminate, Cycle, Replace;
    EvolvesRefl(s);
    match op
    case DoEnqueue(p) => EnqueueStep(s, p, {});
    case DoSend(to, m) => SendStep(s, to, m, {});
    case DoSpawn => SpawnKeepsInv(s, {});
    case DoLink(p, q) => LinkKeepsInv(s, p, q);
    case DoMonitor(w, x) =>
      if w in s.procs && x in s.procs {
        MonitorKeepsInv(s, w, x, {});
      }
    case DoDemonitor(w, r) => DemonitorKeepsInv(s, w, r, {});
    case DoTerminate(p, reason) =>
      TerminateKeeps(s, p, reason, {});
      FollowsEvolves(s, Terminate(s, p, reason), {});
    case DoSetTimeout(p, deadline) =>
      if p in s.procs {
        ReplaceKeepsAll(s, p, s.procs[p].(timeout := Some(deadline)));
      }
    case DoSetTrapExit(p, trap) =>
      if p in s.procs {
        ReplaceKeepsAll(s, p, s.procs[p].(trapExit := trap));
      }
    case DoSetPriority(p, lane) =>
      if p in s.procs {
        ReplaceKeepsAll(s, p, s.procs[p].(priority := lane));
      }
    case DoSetExternal(enabled) => RoutingKeepsAll(s, enabled, s.outbound);
    case DoDrain => RoutingKeepsAll(s, s.external, []);
    case DoStartChild(lane, starts) => SpawnAtKeepsInv(s, lane, starts);
    case DoTick(responses, due, choices) => CycleKeepsInv(s, responses, due, choices);
  }

  lemma {:induction false} RunKeepsInv(s: Sched, ops: seq<Op>)
    requires Inv(s, {})
    ensures Inv(Run(s, ops), {}) && Evolves(s, Run(s, ops))
    decreases |ops|
  {
    if ops != [] {
      ApplyKeepsInv(s, ops[0]);
      RunKeepsInv(Apply(s, ops[0]), ops[1..]);
      EvolvesTrans(s, Apply(s, ops[0]), Run(s, ops));
    }
  }

  /** No runnable process is lost: in every reachable state a live runnable process waits in a run queue
      exactly when it was ever enqueued, and it still has its state. */
  lemma RunnableIsQueuedIffEnqueued(ops: seq<Op>, p: Pid)
    requires var s := Run(EMPTY, ops); p in s.procs && s.procs[p].status == Runnable
    ensures var s := Run(EMPTY, ops); (Queued(s.queues, p) <==> p in s.enqueued) && s.procs[p].hasState
  {
    EmptyInv();
    RunKeepsInv(EMPTY, ops);
  }

  /** A process spawned but never enqueued is runnable and in no queue, and no message gets it there. */
  lemma NeverEnqueuedIsLost(m: Message)
    ensures var ops := [DoSpawn, DoSend(0x8000_0000, m)];
            var s := Run(EMPTY, ops);
            0x8000_0000 in s.procs && s.procs[0x8000_0000].status == Runnable
            && !Queued(s.queues, 0x8000_0000)
  {
    var ops := [DoSpawn, DoSend(0x8000_0000, m)];
    assert ops[1..] == [DoSend(0x8000_0000, m)] && ops[1..][1..] == [];
    var one := Apply(EMPTY, ops[0]);
    var two := Apply(one, ops[1]);
    assert Run(EMPTY, ops) == Run(one, ops[1..]) == Run(two, []) == two;
  }

  /** Both monitor tables agree in every reachable state, and each reference is announced at most once. */
  lemma MonitorsAgree(ops: seq<Op>, w: Pid, r: Ref, x: Pid)
    ensures var s := Run(EMPTY, ops);
            && (Watches(s.procs, w, r, x) <==> WatchedBy(s.procs, x, r, w))
            && (Watches(s.procs, w, r, x) ==> w in s.procs && x in s.procs && r !in s.downs)
            && multiset(s.downs)[r] <= 1
  {
    EmptyInv();
    RunKeepsInv(EMPTY, ops);
    var s := Run(EMPTY, ops);
    if Watches(s.procs, w, r, x) {
      assert Active(s.procs, r) && WatchedBy(s.procs, x, r, w);
    }
  }

  /** After a successful `demonitor` the reference is never announced, whatever happens next. */
  lemma SilentAfterDemonitor(s: Sched, w: Pid, r: Ref, ops: seq<Op>)
    requires Inv(s, {}) && Demonitor(s, w, r).0
    ensures r !in Run(Demonitor(s, w, r).1, ops).downs
  {
    DemonitorKeepsInv(s, w, r, {});
    RunKeepsInv(Demonitor(s, w, r).1, ops);
  }
}
