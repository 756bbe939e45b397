/** The scheduler object: its methods refine the functions of `Scheduling` and keep the invariant. */
module AgentSchedulers {
  import opened Common
  import opened Queues
  import opened Processes
  import opened Scheduling
  import opened Cascades
  import opened Cycles

  datatype MonitorError = WatcherNotFound | TargetNotFound

  class AgentScheduler {
    var procs: Table
    var queues: RunQueues
    var external: bool
    var outbound: seq<(Pid, Message)>
    var nextPid: Pid
    var nextRef: Ref
    ghost var enqueued: set<Pid>
    ghost var downs: seq<Ref>

    ghost function View(): Sched
      reads this
    {
      Sched(procs, queues, external, outbound, nextPid, nextRef, enqueued, downs)
    }

    constructor ()
      ensures View() == EMPTY && Inv(View(), {})
    {
      procs, queues := map[], RunQueues([], [], [], 0);
      external, outbound := false, [];
      nextPid, nextRef := 0x8000_0000, 1;
      enqueued, downs := {}, [];
      new;
      forall r ensures !Active(procs, r) {}
    }

    method EnqueuePid(p: Pid)
      modifies this
      ensures View() == Enqueue(old(View()), p)
      ensures forall lane :: Lane(queues, lane) ==
                Lane(old(queues), lane) + if p in procs && procs[p].priority == lane then [p] else []
      ensures procs == old(procs) && queues.advantage == old(queues.advantage)
    {
      assert forall lane :: Lane(queues, lane) + [] == Lane(queues, lane);
      if p in procs {
        queues := Push(queues, procs[p].priority, p);
        enqueued := enqueued + {p};
      }
    }

    method EnqueueEach(ps: seq<Pid>)
      modifies this
      ensures View() == EnqueueAll(old(View()), ps)
    {
      for i := 0 to |ps|
        invariant EnqueueAll(old(View()), ps) == EnqueueAll(View(), ps[i..])
      {
        assert ps[i..][1..] == ps[i + 1..];
        EnqueuePid(ps[i]);
      }
    }

    method NextRunnable() returns (p: Option<Pid>)
      modifies this`queues
      ensures (p, queues) == Next(old(queues))
    {
      if queues.high != [] {
        p, queues := Some(queues.high[0]), queues.(high := queues.high[1..]);
        return;
      }
      if queues.normal != [] {
        queues := queues.(advantage := queues.advantage + 1);
        if queues.advantage < NORMAL_ADVANTAGE || queues.low == [] {
          p, queues := Some(queues.normal[0]), queues.(normal := queues.normal[1..]);
          return;
        }
        queues := queues.(advantage := 0);
        p, queues := Some(queues.low[0]), queues.(low := queues.low[1..]);
        return;
      }
      if queues.low == [] {
        return None;
      }
      p, queues := Some(queues.low[0]), queues.(low := queues.low[1..]);
    }

    method SendMessage(to: Pid, m: Message) returns (ok: bool)
      modifies this
      ensures View() == Send(old(View()), to, m) && ok == Accepts(old(View()), to)
    {
      if to in procs {
        var wasWaiting := procs[to].status == Waiting;
        if Full(procs[to]) {
          return false;
        }
        procs := procs[to := Deliver(procs[to], m)];
        if wasWaiting {
          EnqueuePid(to);
        }
        return true;
      }
      if external {
        outbound := outbound + [(to, m)];
      }
      return external;
    }

    method SendEach(ms: seq<(Pid, Message)>)
      modifies this
      ensures View() == SendAll(old(View()), ms)
    {
      for i := 0 to |ms|
        invariant SendAll(old(View()), ms) == SendAll(View(), ms[i..])
      {
        assert ms[i..][1..] == ms[i + 1..];
        var ok := SendMessage(ms[i].0, ms[i].1);
      }
    }

    method MonitorProcess(watcher: Pid, target: Pid) returns (r: Result<Ref, MonitorError>)
      modifies this
      ensures if watcher !in old(procs) then r == Err(WatcherNotFound) && View() == old(View())
              else if target !in old(procs) then r == Err(TargetNotFound) && View() == old(View())
              else r == Ok(old(nextRef)) && View() == Monitor(old(View()), watcher, target)
    {
      if watcher !in procs {
        return Err(WatcherNotFound);
      }
      if target !in procs {
        return Err(TargetNotFound);
      }
      var ref := nextRef;
      nextRef := nextRef + 1;
      procs := procs[watcher := procs[watcher].(monitors := procs[watcher].monitors + [(ref, target)])];
      procs := procs[target := procs[target].(monitoredBy := procs[target].monitoredBy + [(ref, watcher)])];
      return Ok(ref);
    }

    method DemonitorProcess(watcher: Pid, ref: Ref) returns (found: bool)
      modifies this
      ensures (found, View()) == Demonitor(old(View()), watcher, ref)
    {
      if watcher !in procs {
        return false;
      }
      var l := procs[watcher].monitors;
      var pos := Position(l, ref);
      if pos.None? {
        return false;
      }
      var target := l[pos.value].1;
      procs := procs[watcher := procs[watcher].(monitors := SwapRemove(l, pos.value))];
      if target in procs {
        procs := procs[target := procs[target].(monitoredBy := Forget(procs[target].monitoredBy, (ref, watcher)))];
      }
      return true;
    }

    // ---- Termination of a process ----

    method TerminateProcess(p: Pid, reason: Reason)
      modifies this
      ensures View() == Terminate(old(View()), p, reason)
      decreases procs.Keys
    {
      if p !in procs {
        return;
      }
      KillShape(View(), p, reason);
      var dying := procs[p];
      ghost var (killed, doomed) := Kill(View(), p, reason);
      procs := procs - {p};
      ForgetTargets(dying.monitors, p);
      var wakes, cascade := NotifyLinked(dying.links, p, reason);
      var notices := NotifyWatchers(dying.monitoredBy, p, reason);
      EnqueueEach(wakes);
      SendEach(notices);
      assert View() == killed && cascade == doomed;
      for i := 0 to |cascade|
        invariant TerminateAll(killed, cascade, reason) == TerminateAll(View(), cascade[i..], reason)
        invariant procs.Keys <= old(procs.Keys) - {p}
      {
        assert cascade[i..][1..] == cascade[i + 1..];
        TerminateProcess(cascade[i], reason);
      }
    }

    method ForgetTargets(monitors: seq<(Ref, Pid)>, p: Pid)
      modifies this`procs
      ensures procs == DropTargets(old(procs), monitors, p)
    {
      for i := 0 to |monitors|
        invariant DropTargets(old(procs), monitors, p) == DropTargets(procs, monitors[i..], p)
      {
        assert monitors[i..][1..] == monitors[i + 1..];
        var (r, x) := monitors[i];
        if x in procs {
          procs := procs[x := procs[x].(monitoredBy := Forget(procs[x].monitoredBy, (r, p)))];
        }
      }
    }

    method NotifyLinked(links: seq<Pid>, p: Pid, reason: Reason) returns (wakes: seq<Pid>, cascade: seq<Pid>)
      modifies this`procs
      ensures (procs, wakes, cascade) == NotifyLinks(old(procs), links, p, reason)
    {
      hide Deliver;
      wakes, cascade := [], [];
      for i := 0 to |links|
        invariant NotifyLinks(procs, links[i..], p, reason).0 == NotifyLinks(old(procs), links, p, reason).0
        invariant wakes + NotifyLinks(procs, links[i..], p, reason).1 == NotifyLinks(old(procs), links, p, reason).1
        invariant cascade + NotifyLinks(procs, links[i..], p, reason).2 == NotifyLinks(old(procs), links, p, reason).2
      {
        assert links[i..][1..] == links[i + 1..];
        var l := links[i];
        if l in procs {
          if procs[l].trapExit {
            var wasWaiting := procs[l].status == Waiting;
            procs := procs[l := Deliver(procs[l], Exit(p, reason))];
            if wasWaiting {
              wakes := wakes + [l];
            }
          } else if reason != NormalExit {
            cascade := cascade + [l];
          }
        }
      }
      assert NotifyLinks(procs, links[|links|..], p, reason) == (procs, [], []);
      assert wakes + [] == wakes && cascade + [] == cascade;
    }

    method NotifyWatchers(monitoredBy: seq<(Ref, Pid)>, p: Pid, reason: Reason) returns (notices: seq<(Pid, Message)>)
      modifies this`procs, this`downs
      ensures procs == DropWatchers(old(procs), monitoredBy, p)
      ensures notices == DownNotices(monitoredBy, p, reason) && downs == old(downs) + Refs(monitoredBy)
    {
      notices := [];
      for i := 0 to |monitoredBy|
        invariant DropWatchers(old(procs), monitoredBy, p) == DropWatchers(procs, monitoredBy[i..], p)
        invariant DownNotices(monitoredBy, p, reason) == notices + DownNotices(monitoredBy[i..], p, reason)
        invariant downs + Refs(monitoredBy[i..]) == old(downs) + Refs(monitoredBy)
      {
        assert monitoredBy[i..][1..] == monitoredBy[i + 1..];
        var (r, w) := monitoredBy[i];
        if w in procs {
          procs := procs[w := procs[w].(monitors := Forget(procs[w].monitors, (r, p)))];
        }
        notices := notices + [(w, Down(r, p, reason))];
        downs := downs + [r];
      }
    }

    // ---- One scheduling cycle ----

    /** One cycle, for any bridge responses, any clock, any behaviours. Nothing runnable is lost: when no
        work was done, no process that was ever enqueued is runnable. */
    method Tick(now: nat, responses: seq<(Pid, Message)>, c: Choices) returns (worked: bool, ghost due: seq<Pid>)
      requires Inv(View(), {})
      modifies this
      ensures DueList(SendAll(old(View()), responses), due, now)
      ensures (worked, View()) == Cycle(old(View()), responses, due, c)
      ensures Inv(View(), {}) && Evolves(old(View()), View())
      ensures !worked ==> forall p :: p in procs && p in enqueued ==> procs[p].status != Runnable
    {
      hide Inv, Evolves, SendAll, Fire, Pick, RunOne, DueList;
      SendEach(responses);
      SendAllStep(old(View()), responses, {});
      var timedOut := Due(now);
      due := timedOut;
      CycleKeepsInv(old(View()), responses, due, c);
      FireKeepsInv(View(), due);
      FireTimeouts(timedOut);
      PickKeepsInv(View());
      PickedRuns(View());
      var picked := PickRunnable();
      if picked.None? {
        return false, due;
      }
      RunProcess(picked.value, c);
      return true, due;
    }

    method FireTimeouts(due: seq<Pid>)
      modifies this
      ensures View() == Fire(old(View()), due)
    {
      for i := 0 to |due|
        invariant Fire(old(View()), due) == Fire(View(), due[i..])
      {
        assert due[i..][1..] == due[i + 1..];
        if due[i] in procs {
          procs := procs[due[i] := procs[due[i]].(timeout := None)];
        }
        var ok := SendMessage(due[i], ReceiveTimeout);
      }
    }

    method Due(now: nat) returns (due: seq<Pid>)
      ensures DueList(View(), due, now)
      ensures forall p :: p in due <==>
                p in procs && procs[p].status == Waiting && procs[p].timeout.Some? && procs[p].timeout.value <= now
    {
      due := [];
      var rest := procs.Keys;
      while rest != {}
        invariant rest <= procs.Keys
        invariant forall p :: p in due <==> p !in rest && IsDue(View(), p, now)
      {
        var p :| p in rest;
        rest := rest - {p};
        if procs[p].status == Waiting && procs[p].timeout.Some? && now >= procs[p].timeout.value {
          due := due + [p];
        }
      }
    }

    /** Skips stale queue entries. */
    method PickRunnable() returns (picked: Option<Pid>)
      modifies this`queues
      ensures (picked, View()) == Pick(old(View()))
    {
      while true
        invariant Pick(View()) == Pick(old(View()))
        decreases Size(queues)
      {
        NextTakesOne(queues);
        var candidate := NextRunnable();
        if candidate.None? {
          return None;
        }
        if candidate.value in procs && procs[candidate.value].status == Runnable {
          return candidate;
        }
      }
    }

    /** The dispatch loop and what it deferred, for a process that was just taken from the queues. */
    method RunProcess(pid: Pid, c: Choices)
      requires pid in procs && procs[pid].hasState
      modifies this
      ensures View() == RunOne(old(View()), pid, c)
    {
      procs := procs[pid := procs[pid].(reductions := DEFAULT_REDUCTIONS)];
      DispatchKeepsPids(View(), pid, c, 0);
      var sends, spawns, ending := Dispatch(pid, c);
      match ending {
        case Drained => procs := procs[pid := procs[pid].(status := Waiting)];
        case Exhausted => EnqueuePid(pid);
        case _ =>
      }
      SendEach(sends);
      SpawnEach(pid, spawns, c.inits);
      if ending.Stopped? {
        TerminateProcess(pid, ending.reason);
      }
    }

    /** Handles messages while there are reductions and messages. What behaviours want sent and spawned is deferred. */
    method Dispatch(pid: Pid, c: Choices)
        returns (sends: seq<(Pid, Message)>, spawns: seq<(bool, bool)>, ending: Ending)
      requires pid in procs && procs[pid].hasState
      modifies this
      ensures Dispatched(View(), sends, spawns, ending) == DispatchFrom(old(View()), pid, c, 0)
    {
      hide Answer, SentBy, SpawnedBy;
      sends, spawns := [], [];
      var k := 0;
      ghost var goal := DispatchFrom(View(), pid, c, 0);
      assert Collected(sends, spawns, goal) == goal;
      while true
        invariant pid in procs && procs[pid].hasState
        invariant Collected(sends, spawns, DispatchFrom(View(), pid, c, k)) == goal
        decreases procs[pid].reductions
      {
        if procs[pid].reductions == 0 {
          return sends + [], spawns + [], Exhausted;
        }
        if procs[pid].mailbox == [] {
          return sends + [], spawns + [], Drained;
        }
        var o := c.answer(k);
        AnswerShape(View(), pid, o, c.accepted);
        CollectMore(sends, spawns, SentBy(o), SpawnedBy(o), DispatchFrom(Answer(View(), pid, o, c.accepted), pid, c, k + 1));
        var sent, spawned, next := HandleMessage(pid, o, c.accepted);
        sends, spawns, k := sends + sent, spawns + spawned, k + 1;
        match next {
          case Halt(reason) => return sends, spawns, Stopped(reason);
          case Suspended => return sends, spawns, OnBridge;
          case Go =>
        }
      }
    }

    /** Takes one message off the mailbox and applies what the callback answered. */
    method HandleMessage(pid: Pid, o: Outcome, accepted: bool)
        returns (sent: seq<(Pid, Message)>, spawned: seq<(bool, bool)>, next: Verdict)
      requires pid in procs && procs[pid].mailbox != [] && procs[pid].reductions > 0 && procs[pid].hasState
      modifies this
      ensures View() == Answer(old(View()), pid, o, accepted)
      ensures sent == SentBy(o) && spawned == SpawnedBy(o) && next == VerdictOf(o)
      ensures pid in procs && (next.Go? ==> procs[pid].hasState && procs[pid].reductions < old(procs)[pid].reductions)
    {
      var proc := procs[pid].(mailbox := procs[pid].mailbox[1..], reductions := procs[pid].reductions - 1);
      sent, spawned, next := [], [], Go;
      if o.Panic? {
        procs := procs[pid := proc.(hasState := false)];
        next := Halt(CustomExit(0));
        return;
      }
      match o.action {
        case Continue =>
        case SendTo(to, msg) =>
          proc := proc.(reductions := Minus(proc.reductions, 2));
          sent := [(to, msg)];
        case Stop(reason) =>
          next := Halt(reason);
        case IoRequest =>
          proc := proc.(reductions := Minus(proc.reductions, 1));
          next := Verdict.Suspended;
        case SpawnChild(link, monitor) =>
          proc := proc.(reductions := Minus(proc.reductions, 10));
          spawned := [(link, monitor)];
      }
      procs := procs[pid := proc];
      if next.Suspended? {
        RequestIo(pid, accepted);
      }
    }

    /** An I/O request suspends the process, unless there is no bridge or it refuses: then the process gets
        a note, if there is room, and is queued again. */
    method RequestIo(pid: Pid, accepted: bool)
      requires pid in procs
      modifies this
      ensures View() == Ask(old(View()), pid, accepted)
    {
      procs := procs[pid := procs[pid].(status := Waiting)];
      if !accepted {
        procs := procs[pid := Deliver(procs[pid], Text(0))];
        procs := procs[pid := procs[pid].(status := Runnable)];
        EnqueuePid(pid);
      }
    }

    /** The children a process asked for, as far as their behaviours initialise. */
    method SpawnEach(parent: Pid, spawns: seq<(bool, bool)>, inits: nat -> bool)
      modifies this
      ensures View() == SpawnAll(old(View()), parent, spawns, inits, 0)
    {
      for i := 0 to |spawns|
        invariant SpawnAll(old(View()), parent, spawns, inits, 0) == SpawnAll(View(), parent, spawns[i..], inits, i)
      {
        assert spawns[i..][1..] == spawns[i + 1..];
        if inits(i) {
          SpawnOne(parent, spawns[i].0, spawns[i].1);
        } else {
          nextPid := nextPid + 1;
        }
      }
    }

    /** A child is linked and monitored as asked, announced to its parent and queued. */
    method SpawnOne(parent: Pid, link: bool, monitor: bool)
      modifies this
      ensures View() == SpawnChildOf(old(View()), parent, link, monitor)
    {
      hide Spawn, AddLink, Monitor, Send, Enqueue;
      var child := SpawnProcess();
      if link {
        LinkOne(parent, child);
        LinkOne(child, parent);
      }
      var ref: Option<Ref> := None;
      if monitor {
        var r := MonitorProcess(parent, child);
        ref := if r.Ok? then Some(r.value) else None;
      }
      var ok := SendMessage(parent, SpawnResult(child, ref));
      EnqueuePid(child);
    }

    method SpawnProcess() returns (child: Pid)
      modifies this
      ensures child == old(nextPid) && View() == Spawn(old(View()))
    {
      child := nextPid;
      nextPid := nextPid + 1;
      procs := procs[child := NewProcess()];
    }

    method LinkOne(p: Pid, q: Pid)
      modifies this`procs
      ensures View() == AddLink(old(View()), p, q)
    {
      if p in procs {
        procs := procs[p := procs[p].(links := procs[p].links + [q])];
      }
    }
  }

  /** What was deferred so far, followed by what a dispatch defers. */
  function Collected(sends: seq<(Pid, Message)>, spawns: seq<(bool, bool)>, d: Dispatched): Dispatched {
    d.(sends := sends + d.sends, spawns := spawns + d.spawns)
  }

  lemma CollectMore(sends: seq<(Pid, Message)>, spawns: seq<(bool, bool)>,
                    sent: seq<(Pid, Message)>, spawned: seq<(bool, bool)>, d: Dispatched)
    ensures Collected(sends + sent, spawns + spawned, d) == Collected(sends, spawns, Collected(sent, spawned, d))
  {}
}
