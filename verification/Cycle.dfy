/** One scheduling cycle as a function of the state and of what the scheduler cannot know. */
module Cycles {
  import opened Common
  import opened Queues
  import opened Processes
  import opened Scheduling
  import opened Cascades

  const DEFAULT_REDUCTIONS: nat := 200

  datatype Action =
    | Continue
    | SendTo(to: Pid, msg: Message)
    | Stop(reason: Reason)
    | IoRequest
    | SpawnChild(link: bool, monitor: bool)

  /** What a callback does: an action, or a panic that loses the state. */
  datatype Outcome = Act(action: Action) | Panic

  /** After one message: go on, stop for a reason, or wait for the bridge. */
  datatype Verdict = Go | Halt(reason: Reason) | Suspended

  /** How a dispatch ended. */
  datatype Ending = Exhausted | Drained | Stopped(reason: Reason) | OnBridge

  /** Whatever behaviours and the bridge do in a cycle: what the callback for the k-th message answers, whether
      the bridge takes an I/O request, and whether the k-th spawned behaviour initialises. */
  datatype Choices = Choices(answer: nat -> Outcome, accepted: bool, inits: nat -> bool)

  function Minus(a: nat, b: nat): nat {
    if a < b then 0 else a - b
  }

  // ---- One message ----

  /** Reductions charged for a message and the action it leads to. */
  function Cost(o: Outcome): nat {
    match o
    case Act(SendTo(_, _)) => 3
    case Act(IoRequest) => 2
    case Act(SpawnChild(_, _)) => 11
    case _ => 1
  }

  function SentBy(o: Outcome): seq<(Pid, Message)> {
    match o
    case Act(SendTo(to, msg)) => [(to, msg)]
    case _ => []
  }

  function SpawnedBy(o: Outcome): seq<(bool, bool)> {
    match o
    case Act(SpawnChild(link, monitor)) => [(link, monitor)]
    case _ => []
  }

  function VerdictOf(o: Outcome): Verdict {
    match o
    case Panic => Halt(CustomExit(0))
    case Act(Stop(reason)) => Halt(reason)
    case Act(IoRequest) => Verdict.Suspended
    case _ => Go
  }

  /** The process after its first message led to `o`. A panic loses the state. */
  function Charge(p: Process, o: Outcome): Process
    requires p.mailbox != []
  {
    p.(mailbox := p.mailbox[1..], reductions := Minus(p.reductions, Cost(o)), hasState := p.hasState && !o.Panic?)
  }

  /** An I/O request: the process waits for the bridge, or is told that there is none and queued again. */
  function Ask(s: Sched, pid: Pid, accepted: bool): Sched
    requires pid in s.procs
  {
    var waiting := s.procs[pid].(status := Waiting);
    if accepted then s.(procs := s.procs[pid := waiting])
    else Enqueue(s.(procs := s.procs[pid := Deliver(waiting, Text(0)).(status := Runnable)]), pid)
  }

  function Answer(s: Sched, pid: Pid, o: Outcome, accepted: bool): Sched
    requires pid in s.procs && s.procs[pid].mailbox != []
  {
    var t := s.(procs := s.procs[pid := Charge(s.procs[pid], o)]);
    if VerdictOf(o).Suspended? then Ask(t, pid, accepted) else t
  }

  // ---- The dispatch loop ----

  datatype Dispatched = Dispatched(sched: Sched, sends: seq<(Pid, Message)>, spawns: seq<(bool, bool)>, ending: Ending)

  /** Handles messages from the k-th on, while there are reductions and messages. */
  function DispatchFrom(s: Sched, pid: Pid, c: Choices, k: nat): Dispatched
    requires pid in s.procs
    decreases s.procs[pid].reductions
  {
    if s.procs[pid].reductions == 0 then Dispatched(s, [], [], Exhausted)
    else if s.procs[pid].mailbox == [] then Dispatched(s, [], [], Drained)
    else
      var o := c.answer(k);
      var t := Answer(s, pid, o, c.accepted);
      match VerdictOf(o)
      case Halt(reason) => Dispatched(t, SentBy(o), SpawnedBy(o), Stopped(reason))
      case Suspended => Dispatched(t, SentBy(o), SpawnedBy(o), OnBridge)
      case Go =>
        var rest := DispatchFrom(t, pid, c, k + 1);
        Dispatched(rest.sched, SentBy(o) + rest.sends, SpawnedBy(o) + rest.spawns, rest.ending)
  }

  function Refilled(s: Sched, pid: Pid): Sched
    requires pid in s.procs
  {
    s.(procs := s.procs[pid := s.procs[pid].(reductions := DEFAULT_REDUCTIONS)])
  }

  /** An empty mailbox makes the process wait; without reductions it is queued again. */
  function Settle(s: Sched, pid: Pid, ending: Ending): Sched
    requires pid in s.procs
  {
    match ending
    case Drained => s.(procs := s.procs[pid := s.procs[pid].(status := Waiting)])
    case Exhausted => Enqueue(s, pid)
    case _ => s
  }

  // ---- Deferred spawns ----

  /** A child is linked and monitored as asked, the parent is told, and the child is queued. */
  function SpawnChildOf(s: Sched, parent: Pid, link: bool, monitor: bool): Sched {
    var child := s.nextPid;
    var born := Spawn(s);
    var linked := if link then AddLink(AddLink(born, parent, child), child, parent) else born;
    var watched := monitor && parent in linked.procs && child in linked.procs;
    var joined := if watched then Monitor(linked, parent, child) else linked;
    Enqueue(Send(joined, parent, SpawnResult(child, if watched then Some(linked.nextRef) else None)), child)
  }

  function SpawnAll(s: Sched, parent: Pid, spawns: seq<(bool, bool)>, inits: nat -> bool, k: nat): Sched
    decreases |spawns|
  {
    if spawns == [] then s
    else
      var next := if inits(k) then SpawnChildOf(s, parent, spawns[0].0, spawns[0].1) else PassPid(s);
      SpawnAll(next, parent, spawns[1..], inits, k + 1)
  }

  // ---- The whole cycle ----

  /** Dispatch, then the deferred sends, then the deferred spawns, then the stop. */
  function RunOne(s: Sched, pid: Pid, c: Choices): Sched
    requires pid in s.procs
  {
    var d := DispatchFrom(Refilled(s, pid), pid, c, 0);
    DispatchKeepsPids(Refilled(s, pid), pid, c, 0);
    var t := SpawnAll(SendAll(Settle(d.sched, pid, d.ending), d.sends), pid, d.spawns, c.inits, 0);
    if d.ending.Stopped? then Terminate(t, pid, d.ending.reason) else t
  }

  /** Stale entries are skipped until a runnable process turns up. */
  function Pick(s: Sched): (Option<Pid>, Sched)
    decreases Size(s.queues)
  {
    NextTakesOne(s.queues);
    var (p, q) := Next(s.queues);
    if p.None? then (None, s.(queues := q))
    else if p.value in s.procs && s.procs[p.value].status == Runnable then (p, s.(queues := q))
    else Pick(s.(queues := q))
  }

  function ClearTimeout(s: Sched, p: Pid): Sched {
    if p in s.procs then s.(procs := s.procs[p := s.procs[p].(timeout := None)]) else s
  }

  function Fire(s: Sched, due: seq<Pid>): Sched
    decreases |due|
  {
    if due == [] then s else Fire(Send(ClearTimeout(s, due[0]), due[0], ReceiveTimeout), due[1..])
  }

  predicate IsDue(s: Sched, p: Pid, now: nat) {
    p in s.procs && s.procs[p].status == Waiting && s.procs[p].timeout.Some? && now >= s.procs[p].timeout.value
  }

  /** The processes whose deadline has passed, in whatever order the hash map yields them. */
  ghost predicate DueList(s: Sched, due: seq<Pid>, now: nat) {
    forall p :: p in due <==> IsDue(s, p, now)
  }

  /** `tick`: bridge responses, timeouts, one process. */
  function Cycle(s: Sched, responses: seq<(Pid, Message)>, due: seq<Pid>, c: Choices): (bool, Sched) {
    var (picked, t) := Pick(Fire(SendAll(s, responses), due));
    PickedRuns(Fire(SendAll(s, responses), due));
    if picked.None? then (false, t) else (true, RunOne(t, picked.value, c))
  }

  // ---- What is kept ----

  lemma {:induction false} DispatchKeepsPids(s: Sched, pid: Pid, c: Choices, k: nat)
    requires pid in s.procs
    ensures DispatchFrom(s, pid, c, k).sched.procs.Keys == s.procs.Keys
    decreases s.procs[pid].reductions
  {
    if s.procs[pid].reductions > 0 && s.procs[pid].mailbox != [] && VerdictOf(c.answer(k)).Go? {
      DispatchKeepsPids(Answer(s, pid, c.answer(k), c.accepted), pid, c, k + 1);
    }
  }

  lemma {:induction false} PickedRuns(s: Sched)
    ensures var (picked, t) := Pick(s);
            && t == s.(queues := t.queues)
            && (picked.Some? ==> picked.value in s.procs && s.procs[picked.value].status == Runnable)
    decreases Size(s.queues)
  {
    NextTakesOne(s.queues);
    var (p, q) := Next(s.queues);
    if p.Some? && !(p.value in s.procs && s.procs[p.value].status == Runnable) {
      PickedRuns(s.(queues := q));
    }
  }

  /** A process being dispatched may be replaced by anything with the same monitors. */
  lemma ReplaceKeepsInv(s: Sched, pid: Pid, proc: Process)
    requires pid in s.procs && Inv(s, {pid})
    requires proc.monitors == s.procs[pid].monitors && proc.monitoredBy == s.procs[pid].monitoredBy
    ensures Inv(s.(procs := s.procs[pid := proc]), {pid}) && Evolves(s, s.(procs := s.procs[pid := proc]))
  {
    RewireKeepsInv(s, s.procs[pid := proc], {pid});
  }

  /** A process that has its state, and is not runnable or is in a queue, needs no exception. */
  lemma NoException(s: Sched, pid: Pid)
    requires pid in s.procs && Inv(s, {pid}) && s.procs[pid].hasState
    requires s.procs[pid].status != Runnable || Queued(s.queues, pid)
    ensures Inv(s, {})
  {
    hide TablesOk, DownsOk;
  }

  lemma QueueKeepsInv(s: Sched, pid: Pid)
    requires pid in s.procs && Inv(s, {pid}) && s.procs[pid].hasState
    ensures Inv(Enqueue(s, pid), {}) && Evolves(s, Enqueue(s, pid))
  {
    EnqueueKeeps(s, pid, {pid});
    TrafficKeepsInv(s, Enqueue(s, pid), {});
    TrafficEvolves(s, Enqueue(s, pid));
  }

  lemma AskKeepsInv(s: Sched, pid: Pid, accepted: bool)
    requires pid in s.procs && Inv(s, {pid}) && s.procs[pid].hasState
    ensures Inv(Ask(s, pid, accepted), {}) && Evolves(s, Ask(s, pid, accepted))
  {
    hide Inv, Evolves;
    var waiting := s.procs[pid].(status := Waiting);
    if accepted {
      ReplaceKeepsInv(s, pid, waiting);
      NoException(s.(procs := s.procs[pid := waiting]), pid);
    } else {
      var told := Deliver(waiting, Text(0)).(status := Runnable);
      ReplaceKeepsInv(s, pid, told);
      QueueKeepsInv(s.(procs := s.procs[pid := told]), pid);
      EvolvesTrans(s, s.(procs := s.procs[pid := told]), Ask(s, pid, accepted));
    }
  }

  lemma AnswerKeepsInv(s: Sched, pid: Pid, o: Outcome, accepted: bool)
    requires pid in s.procs && Inv(s, {pid}) && s.procs[pid].mailbox != [] && s.procs[pid].hasState
    ensures Evolves(s, Answer(s, pid, o, accepted))
    ensures Inv(Answer(s, pid, o, accepted), if VerdictOf(o).Suspended? then {} else {pid})
  {
    hide Inv, Evolves;
    var charged := Charge(s.procs[pid], o);
    ReplaceKeepsInv(s, pid, charged);
    var t := s.(procs := s.procs[pid := charged]);
    if VerdictOf(o).Suspended? {
      AskKeepsInv(t, pid, accepted);
      EvolvesTrans(s, t, Ask(t, pid, accepted));
    }
  }

  ghost function Exception(ending: Ending, pid: Pid): set<Pid> {
    if ending.OnBridge? then {} else {pid}
  }

  lemma {:induction false} DispatchKeepsInv(s: Sched, pid: Pid, c: Choices, k: nat)
    requires pid in s.procs && Inv(s, {pid}) && s.procs[pid].hasState && s.procs[pid].status == Runnable
    ensures var d := DispatchFrom(s, pid, c, k);
            && Evolves(s, d.sched) && Inv(d.sched, Exception(d.ending, pid)) && pid in d.sched.procs
            && (d.ending.Exhausted? || d.ending.Drained? ==> d.sched.procs[pid].hasState)
    decreases s.procs[pid].reductions
  {
    hide Inv, Evolves;
    EvolvesRefl(s);
    if s.procs[pid].reductions > 0 && s.procs[pid].mailbox != [] {
      var o := c.answer(k);
      var t := Answer(s, pid, o, c.accepted);
      AnswerKeepsInv(s, pid, o, c.accepted);
      if VerdictOf(o).Go? {
        DispatchKeepsInv(t, pid, c, k + 1);
        EvolvesTrans(s, t, DispatchFrom(t, pid, c, k + 1).sched);
      }
    }
  }

  lemma EvolvesRefl(s: Sched)
    ensures Evolves(s, s)
  {}

  lemma SettleKeepsInv(s: Sched, pid: Pid, ending: Ending)
    requires pid in s.procs && Inv(s, Exception(ending, pid))
    requires ending.Exhausted? || ending.Drained? ==> s.procs[pid].hasState
    ensures var t := Settle(s, pid, ending);
            Evolves(s, t) && Inv(t, if ending.Stopped? then {pid} else {})
  {
    hide Inv, Evolves;
    EvolvesRefl(s);
    match ending
    case Drained =>
      var waiting := s.procs[pid].(status := Waiting);
      ReplaceKeepsInv(s, pid, waiting);
      NoException(s.(procs := s.procs[pid := waiting]), pid);
    case Exhausted => QueueKeepsInv(s, pid);
    case _ =>
  }

  lemma SendStep(s: Sched, to: Pid, m: Message, except: set<Pid>)
    requires Inv(s, except)
    ensures Inv(Send(s, to, m), except) && Evolves(s, Send(s, to, m))
  {
    SendKeeps(s, to, m, except);
    TrafficKeepsInv(s, Send(s, to, m), except);
    TrafficEvolves(s, Send(s, to, m));
  }

  lemma SendAllStep(s: Sched, ms: seq<(Pid, Message)>, except: set<Pid>)
    requires Inv(s, except)
    ensures Inv(SendAll(s, ms), except) && Evolves(s, SendAll(s, ms))
  {
    SendAllKeeps(s, ms, except);
    TrafficKeepsInv(s, SendAll(s, ms), except);
    TrafficEvolves(s, SendAll(s, ms));
  }

  lemma EnqueueStep(s: Sched, p: Pid, except: set<Pid>)
    requires Inv(s, except)
    ensures Inv(Enqueue(s, p), except) && Evolves(s, Enqueue(s, p))
  {
    EnqueueKeeps(s, p, except);
    TrafficKeepsInv(s, Enqueue(s, p), except);
    TrafficEvolves(s, Enqueue(s, p));
  }

  lemma LinkStep(s: Sched, p: Pid, q: Pid, except: set<Pid>)
    requires Inv(s, except)
    ensures Inv(AddLink(s, p, q), except) && Evolves(s, AddLink(s, p, q))
  {
    RewireKeepsInv(s, AddLink(s, p, q).procs, except);
  }

  lemma SpawnChildKeepsInv(s: Sched, parent: Pid, link: bool, monitor: bool, except: set<Pid>)
    requires Inv(s, except)
    ensures var u := SpawnChildOf(s, parent, link, monitor); Inv(u, except) && Evolves(s, u)
  {
    hide Inv, Evolves, Spawn, AddLink, Monitor, Send, Enqueue;
    var child := s.nextPid;
    var born := Spawn(s);
    SpawnKeepsInv(s, except);
    LinkStep(born, parent, child, except);
    var half := AddLink(born, parent, child);
    LinkStep(half, child, parent, except);
    EvolvesTrans(born, half, AddLink(half, child, parent));
    var linked := if link then AddLink(half, child, parent) else born;
    EvolvesRefl(born);
    EvolvesTrans(s, born, linked);
    var watched := monitor && parent in linked.procs && child in linked.procs;
    if watched {
      MonitorKeepsInv(linked, parent, child, except);
    }
    JoinedKeepsInv(s, linked, if watched then Monitor(linked, parent, child) else linked, parent, child,
                   if watched then Some(linked.nextRef) else None, except);
  }

  lemma JoinedKeepsInv(s: Sched, linked: Sched, joined: Sched, parent: Pid, child: Pid, ref: Option<Ref>,
                       except: set<Pid>)
    requires Inv(joined, except) && Evolves(s, linked) && (joined == linked || Evolves(linked, joined))
    ensures var u := Enqueue(Send(joined, parent, SpawnResult(child, ref)), child); Inv(u, except) && Evolves(s, u)
  {
    hide Inv, Evolves, Send, Enqueue;
    EvolvesRefl(linked);
    EvolvesTrans(s, linked, joined);
    var told := Send(joined, parent, SpawnResult(child, ref));
    SendStep(joined, parent, SpawnResult(child, ref), except);
    EvolvesTrans(s, joined, told);
    EnqueueStep(told, child, except);
    EvolvesTrans(s, told, Enqueue(told, child));
  }

  lemma {:induction false} SpawnAllKeepsInv(s: Sched, parent: Pid, spawns: seq<(bool, bool)>, inits: nat -> bool,
                                            k: nat, except: set<Pid>)
    requires Inv(s, except)
    ensures var u := SpawnAll(s, parent, spawns, inits, k); Inv(u, except) && Evolves(s, u)
    decreases |spawns|
  {
    hide Inv, Evolves, SpawnChildOf;
    EvolvesRefl(s);
    if spawns != [] {
      var t := if inits(k) then SpawnChildOf(s, parent, spawns[0].0, spawns[0].1) else PassPid(s);
      PassPidKeepsInv(s, except);
      SpawnChildKeepsInv(s, parent, spawns[0].0, spawns[0].1, except);
      SpawnAllKeepsInv(t, parent, spawns[1..], inits, k + 1, except);
      EvolvesTrans(s, t, SpawnAll(t, parent, spawns[1..], inits, k + 1));
    }
  }

  /** Whatever the behaviours answer, the dispatched process ends up waiting, queued, or gone. */
  lemma RunOneKeepsInv(s: Sched, pid: Pid, c: Choices)
    requires pid in s.procs && Inv(s, {pid}) && s.procs[pid].hasState && s.procs[pid].status == Runnable
    ensures Inv(RunOne(s, pid, c), {}) && Evolves(s, RunOne(s, pid, c))
  {
    hide Inv, Evolves, DispatchFrom, Settle, SendAll, SpawnAll, Terminate;
    var start := Refilled(s, pid);
    ReplaceKeepsInv(s, pid, s.procs[pid].(reductions := DEFAULT_REDUCTIONS));
    var d := DispatchFrom(start, pid, c, 0);
    DispatchKeepsPids(start, pid, c, 0);
    DispatchKeepsInv(start, pid, c, 0);
    EvolvesTrans(s, start, d.sched);
    var except: set<Pid> := if d.ending.Stopped? then {pid} else {};
    var settled := Settle(d.sched, pid, d.ending);
    SettleKeepsInv(d.sched, pid, d.ending);
    EvolvesTrans(s, d.sched, settled);
    DeferredKeepsInv(s, settled, pid, d, c, except);
  }

  lemma DeferredKeepsInv(s: Sched, settled: Sched, pid: Pid, d: Dispatched, c: Choices, except: set<Pid>)
    requires Inv(settled, except) && Evolves(s, settled) && except == if d.ending.Stopped? then {pid} else {}
    ensures var t := SpawnAll(SendAll(settled, d.sends), pid, d.spawns, c.inits, 0);
            var u := if d.ending.Stopped? then Terminate(t, pid, d.ending.reason) else t;
            Inv(u, {}) && Evolves(s, u)
  {
    hide Inv, Evolves, SendAll, SpawnAll, Terminate;
    var sent := SendAll(settled, d.sends);
    SendAllStep(settled, d.sends, except);
    EvolvesTrans(s, settled, sent);
    var t := SpawnAll(sent, pid, d.spawns, c.inits, 0);
    SpawnAllKeepsInv(sent, pid, d.spawns, c.inits, 0, except);
    EvolvesTrans(s, sent, t);
    if d.ending.Stopped? {
      var u := Terminate(t, pid, d.ending.reason);
      TerminateKeeps(t, pid, d.ending.reason, except);
      FollowsEvolves(t, u, except);
      EvolvesTrans(s, t, u);
      GoneNeedsNoException(u, pid);
    }
  }

  lemma GoneNeedsNoException(s: Sched, pid: Pid)
    requires Inv(s, {pid}) && pid !in s.procs
    ensures Inv(s, {})
  {
    hide TablesOk, DownsOk;
  }

  lemma {:induction false} FireKeepsInv(s: Sched, due: seq<Pid>)
    requires Inv(s, {})
    ensures Inv(Fire(s, due), {}) && Evolves(s, Fire(s, due))
    decreases |due|
  {
    hide Inv, Evolves, Send, ClearTimeout;
    EvolvesRefl(s);
    if due != [] {
      var cleared := ClearTimeout(s, due[0]);
      ClearKeepsInv(s, due[0]);
      var sent := Send(cleared, due[0], ReceiveTimeout);
      SendStep(cleared, due[0], ReceiveTimeout, {});
      EvolvesTrans(s, cleared, sent);
      FireKeepsInv(sent, due[1..]);
      EvolvesTrans(s, sent, Fire(sent, due[1..]));
    }
  }

  /** Deadline gone, and either woken into a queue with the timeout in its mailbox, or left waiting. */
  predicate TimedOut(s: Sched, p: Pid, woken: bool) {
    && p in s.procs && s.procs[p].timeout.None?
    && if woken then s.procs[p].status == Runnable && Queued(s.queues, p) && ReceiveTimeout in s.procs[p].mailbox
       else s.procs[p].status == Waiting && Full(s.procs[p])
  }

  lemma FireOne(s: Sched, p: Pid)
    requires p in s.procs && (s.procs[p].status == Waiting || TimedOut(s, p, true))
    ensures var u := Send(ClearTimeout(s, p), p, ReceiveTimeout);
            if s.procs[p].status == Waiting then TimedOut(u, p, !Full(s.procs[p])) else TimedOut(u, p, true)
  {
    PushQueues(s.queues, s.procs[p].priority, p);
  }

  lemma FireOther(s: Sched, p: Pid, q: Pid)
    requires p in s.procs && q != p
    ensures var u := Send(ClearTimeout(s, q), q, ReceiveTimeout);
            p in u.procs && u.procs[p] == s.procs[p] && (Queued(s.queues, p) ==> Queued(u.queues, p))
  {
    if q in s.procs {
      PushQueues(s.queues, s.procs[q].priority, q);
    }
  }

  lemma {:induction false} FireKeepsTimedOut(s: Sched, due: seq<Pid>, p: Pid, woken: bool)
    requires TimedOut(s, p, woken)
    ensures TimedOut(Fire(s, due), p, woken)
    decreases |due|
  {
    if due != [] {
      if due[0] == p {
        FireOne(s, p);
      } else {
        FireOther(s, p, due[0]);
      }
      FireKeepsTimedOut(Send(ClearTimeout(s, due[0]), due[0], ReceiveTimeout), due[1..], p, woken);
    }
  }

  /** A process that timed out loses its deadline, and is woken into a queue with the timeout in its mailbox
      exactly unless that is full; then it waits on, without a deadline. */
  lemma {:induction false} FireWakesIff(s: Sched, due: seq<Pid>, p: Pid)
    requires p in due && p in s.procs && s.procs[p].status == Waiting
    ensures TimedOut(Fire(s, due), p, !Full(s.procs[p]))
    decreases |due|
  {
    var next := Send(ClearTimeout(s, due[0]), due[0], ReceiveTimeout);
    if due[0] == p {
      FireOne(s, p);
      FireKeepsTimedOut(next, due[1..], p, !Full(s.procs[p]));
    } else {
      FireOther(s, p, due[0]);
      FireWakesIff(next, due[1..], p);
    }
  }

  lemma ClearKeepsInv(s: Sched, p: Pid)
    requires Inv(s, {})
    ensures Inv(ClearTimeout(s, p), {}) && Evolves(s, ClearTimeout(s, p))
  {
    RewireKeepsInv(s, ClearTimeout(s, p).procs, {});
  }

  /** Picking loses nothing: only the chosen process leaves the queues while runnable, and if none is chosen, no
      process that was ever enqueued is runnable. */
  lemma {:induction false} PickKeepsInv(s: Sched)
    requires Inv(s, {})
    ensures var (picked, t) := Pick(s);
            && Evolves(s, t)
            && (picked.Some? ==> picked.value in t.procs && t.procs[picked.value].hasState && Inv(t, {picked.value}))
            && (picked.None? ==> Inv(t, {}) && forall p :: p in t.procs && p in t.enqueued ==> t.procs[p].status != Runnable)
    decreases Size(s.queues)
  {
    NextTakesOne(s.queues);
    var (p, q) := Next(s.queues);
    var t := s.(queues := q);
    PopKeepsInv(s);
    if p.Some? && !(p.value in s.procs && s.procs[p.value].status == Runnable) {
      PickKeepsInv(t);
    }
  }

  lemma PopKeepsInv(s: Sched)
    requires Inv(s, {})
    ensures var (p, q) := Next(s.queues);
            && Inv(s.(queues := q),
                   if p.Some? && p.value in s.procs && s.procs[p.value].status == Runnable then {p.value} else {})
            && Evolves(s, s.(queues := q))
  {
    hide TablesOk, Next;
    NextTakesOne(s.queues);
  }

  /** A whole cycle keeps the invariant; if it found no work, no process that was ever enqueued is runnable. */
  lemma CycleKeepsInv(s: Sched, responses: seq<(Pid, Message)>, due: seq<Pid>, c: Choices)
    requires Inv(s, {})
    ensures var (worked, u) := Cycle(s, responses, due, c);
            && Inv(u, {}) && Evolves(s, u)
            && (!worked ==> forall p :: p in u.procs && p in u.enqueued ==> u.procs[p].status != Runnable)
  {
    hide Inv, Evolves, SendAll, Fire, Pick, RunOne;
    var told := SendAll(s, responses);
    SendAllStep(s, responses, {});
    var fired := Fire(told, due);
    FireKeepsInv(told, due);
    EvolvesTrans(s, told, fired);
    var (picked, t) := Pick(fired);
    PickKeepsInv(fired);
    PickedRuns(fired);
    EvolvesTrans(s, fired, t);
    if picked.Some? {
      RunOneKeepsInv(t, picked.value, c);
      EvolvesTrans(s, t, RunOne(t, picked.value, c));
    }
  }

  // ---- How much a dispatch does ----

  /** How many messages a dispatch handles. */
  function Taken(s: Sched, pid: Pid, c: Choices, k: nat): nat
    requires pid in s.procs
    decreases s.procs[pid].reductions
  {
    if s.procs[pid].reductions == 0 || s.procs[pid].mailbox == [] then 0
    else if !VerdictOf(c.answer(k)).Go? then 1
    else 1 + Taken(Answer(s, pid, c.answer(k), c.accepted), pid, c, k + 1)
  }

  /** The reductions that `n` messages from the k-th on cost. */
  function Spent(c: Choices, k: nat, n: nat): nat
    decreases n
  {
    if n == 0 then 0 else Cost(c.answer(k)) + Spent(c, k + 1, n - 1)
  }

  /** What the answers to `n` messages from the k-th on ask to send, and to spawn. */
  function Sends(c: Choices, k: nat, n: nat): seq<(Pid, Message)>
    decreases n
  {
    if n == 0 then [] else SentBy(c.answer(k)) + Sends(c, k + 1, n - 1)
  }

  function Spawned(c: Choices, k: nat, n: nat): seq<(bool, bool)>
    decreases n
  {
    if n == 0 then [] else SpawnedBy(c.answer(k)) + Spawned(c, k + 1, n - 1)
  }

  /** `after` is `before` with at most one note appended. */
  ghost predicate Noted(before: seq<Message>, after: seq<Message>) {
    after == before || exists note :: after == before + [note]
  }

  lemma AnswerShape(s: Sched, pid: Pid, o: Outcome, accepted: bool)
    requires pid in s.procs && s.procs[pid].mailbox != []
    ensures var t := Answer(s, pid, o, accepted);
            && t.procs.Keys == s.procs.Keys
            && (forall q :: q in s.procs && q != pid ==> t.procs[q] == s.procs[q])
            && Noted(s.procs[pid].mailbox[1..], t.procs[pid].mailbox)
            && t.procs[pid].reductions == Minus(s.procs[pid].reductions, Cost(o))
            && (VerdictOf(o).Go? ==> t.procs[pid].mailbox == s.procs[pid].mailbox[1..])
  {}

  /** With a full budget a dispatch handles at most 200 messages: every message but the last left reductions
      over. It runs out of them exactly when all it handled cost as much and none asked to stop or for I/O. */
  lemma {:induction false} DispatchIsBounded(s: Sched, pid: Pid, c: Choices, k: nat)
    requires pid in s.procs
    ensures var (n, budget) := (Taken(s, pid, c, k), s.procs[pid].reductions);
            && n <= budget && n <= |s.procs[pid].mailbox|
            && (n > 0 ==> Spent(c, k, n - 1) < budget)
            && (DispatchFrom(s, pid, c, k).ending.Exhausted? ==> Spent(c, k, n) >= budget)
            && (DispatchFrom(s, pid, c, k).ending.Drained? ==> Spent(c, k, n) < budget && n == |s.procs[pid].mailbox|)
    decreases s.procs[pid].reductions
  {
    if s.procs[pid].reductions > 0 && s.procs[pid].mailbox != [] {
      var o := c.answer(k);
      AnswerShape(s, pid, o, c.accepted);
      if VerdictOf(o).Go? {
        hide Answer;
        DispatchIsBounded(Answer(s, pid, o, c.accepted), pid, c, k + 1);
      }
    }
  }

  /** It takes those messages off the front of the mailbox, puts at most one note behind the rest, and touches no
      other process. */
  lemma {:induction false} DispatchTakesInOrder(s: Sched, pid: Pid, c: Choices, k: nat)
    requires pid in s.procs
    ensures var (n, t) := (Taken(s, pid, c, k), DispatchFrom(s, pid, c, k).sched);
            && n <= |s.procs[pid].mailbox| && t.procs.Keys == s.procs.Keys
            && Noted(s.procs[pid].mailbox[n..], t.procs[pid].mailbox)
            && forall q :: q in s.procs && q != pid ==> t.procs[q] == s.procs[q]
    decreases s.procs[pid].reductions
  {
    hide Noted;
    if s.procs[pid].reductions == 0 || s.procs[pid].mailbox == [] {
      NotedItself(s.procs[pid].mailbox);
    } else {
      var o, mailbox := c.answer(k), s.procs[pid].mailbox;
      AnswerShape(s, pid, o, c.accepted);
      if VerdictOf(o).Go? {
        hide Answer;
        DispatchTakesInOrder(Answer(s, pid, o, c.accepted), pid, c, k + 1);
        assert mailbox[1..][Taken(s, pid, c, k) - 1..] == mailbox[Taken(s, pid, c, k)..];
      }
    }
  }

  lemma NotedItself(mailbox: seq<Message>)
    ensures Noted(mailbox[0..], mailbox)
  {}

  /** It defers every send and every spawn that was asked for, in order, and stops for the reason of the last answer. */
  lemma {:induction false} DispatchDefersAll(s: Sched, pid: Pid, c: Choices, k: nat)
    requires pid in s.procs
    ensures var (n, d) := (Taken(s, pid, c, k), DispatchFrom(s, pid, c, k));
            && d.sends == Sends(c, k, n) && d.spawns == Spawned(c, k, n)
            && (forall j: nat :: k <= j < k + n - 1 ==> VerdictOf(c.answer(j)).Go?)
            && (forall reason :: d.ending == Stopped(reason) <==> n > 0 && VerdictOf(c.answer(k + n - 1)) == Halt(reason))
            && (d.ending == OnBridge <==> n > 0 && VerdictOf(c.answer(k + n - 1)).Suspended?)
    decreases s.procs[pid].reductions
  {
    hide Answer, VerdictOf, SentBy, SpawnedBy;
    if s.procs[pid].reductions > 0 && s.procs[pid].mailbox != [] && VerdictOf(c.answer(k)).Go? {
      GoCosts(s, pid, c.answer(k), c.accepted);
      var t := Answer(s, pid, c.answer(k), c.accepted);
      DispatchDefersAll(t, pid, c, k + 1);
    }
  }

  lemma GoCosts(s: Sched, pid: Pid, o: Outcome, accepted: bool)
    requires pid in s.procs && s.procs[pid].mailbox != [] && s.procs[pid].reductions > 0
    ensures pid in Answer(s, pid, o, accepted).procs
    ensures Answer(s, pid, o, accepted).procs[pid].reductions < s.procs[pid].reductions
  {}
}
