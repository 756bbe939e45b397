/** Service guarantees of whole cycles: high-priority work goes first, and low-priority work is dispatched in the end. */
module Fairness {
  import opened Common
  import opened Queues
  import opened Processes
  import opened Scheduling
  import opened Cascades
  import opened Cycles

  // ---- Apart from picking, a cycle only adds to the ends of the queues ----

  predicate Longer(q: RunQueues, u: RunQueues) {
    q.high <= u.high && q.normal <= u.normal && q.low <= u.low && q.advantage == u.advantage
  }

  lemma EnqueueLonger(s: Sched, p: Pid)
    ensures Longer(s.queues, Enqueue(s, p).queues)
  {}

  lemma {:induction false} EnqueueAllLonger(s: Sched, ps: seq<Pid>)
    ensures Longer(s.queues, EnqueueAll(s, ps).queues)
    decreases |ps|
  {
    if ps != [] {
      EnqueueAllLonger(Enqueue(s, ps[0]), ps[1..]);
    }
  }

  lemma SendLonger(s: Sched, to: Pid, m: Message)
    ensures Longer(s.queues, Send(s, to, m).queues)
  {}

  lemma {:induction false} SendAllLonger(s: Sched, ms: seq<(Pid, Message)>)
    ensures Longer(s.queues, SendAll(s, ms).queues)
    decreases |ms|
  {
    if ms != [] {
      SendLonger(s, ms[0].0, ms[0].1);
      SendAllLonger(Send(s, ms[0].0, ms[0].1), ms[1..]);
    }
  }

  lemma {:induction false} FireLonger(s: Sched, due: seq<Pid>)
    ensures Longer(s.queues, Fire(s, due).queues)
    decreases |due|
  {
    if due != [] {
      SendLonger(ClearTimeout(s, due[0]), due[0], ReceiveTimeout);
      FireLonger(Send(ClearTimeout(s, due[0]), due[0], ReceiveTimeout), due[1..]);
    }
  }

  lemma KillLonger(s: Sched, p: Pid, r: Reason)
    requires p in s.procs
    ensures Longer(s.queues, Kill(s, p, r).0.queues)
  {
    hide NotifyLinks, DropTargets, DropWatchers, SendAll, EnqueueAll;
    var (g, wakes) := Gone(s, p, r);
    GoneQueues(s, p, r);
    EnqueueAllLonger(g, wakes);
    SendAllLonger(EnqueueAll(g, wakes), DownNotices(s.procs[p].monitoredBy, p, r));
  }

  lemma GoneQueues(s: Sched, p: Pid, r: Reason)
    requires p in s.procs
    ensures Gone(s, p, r).0.queues == s.queues
  {}

  lemma {:induction false} TerminateLonger(s: Sched, p: Pid, r: Reason)
    ensures Longer(s.queues, Terminate(s, p, r).queues)
    decreases s.procs.Keys, 0, 0
  {
    hide Kill;
    if p in s.procs {
      KillShape(s, p, r);
      KillLonger(s, p, r);
      TerminateAllLonger(Kill(s, p, r).0, Kill(s, p, r).1, r);
    }
  }

  lemma {:induction false} TerminateAllLonger(s: Sched, ps: seq<Pid>, r: Reason)
    ensures Longer(s.queues, TerminateAll(s, ps, r).queues)
    decreases s.procs.Keys, 1, |ps|
  {
    hide Terminate;
    if ps != [] {
      TerminateLonger(s, ps[0], r);
      TerminateAllLonger(Terminate(s, ps[0], r), ps[1..], r);
    }
  }

  lemma {:induction false} DispatchLonger(s: Sched, pid: Pid, c: Choices, k: nat)
    requires pid in s.procs
    ensures Longer(s.queues, DispatchFrom(s, pid, c, k).sched.queues)
    decreases s.procs[pid].reductions
  {
    if s.procs[pid].reductions > 0 && s.procs[pid].mailbox != [] {
      var o := c.answer(k);
      AnswerLonger(s, pid, o, c.accepted);
      GoCosts(s, pid, o, c.accepted);
      hide Answer;
      if VerdictOf(o).Go? {
        DispatchLonger(Answer(s, pid, o, c.accepted), pid, c, k + 1);
      }
    }
  }

  lemma AnswerLonger(s: Sched, pid: Pid, o: Outcome, accepted: bool)
    requires pid in s.procs && s.procs[pid].mailbox != []
    ensures Longer(s.queues, Answer(s, pid, o, accepted).queues)
  {}

  lemma SpawnChildLonger(s: Sched, parent: Pid, link: bool, monitor: bool)
    ensures Longer(s.queues, SpawnChildOf(s, parent, link, monitor).queues)
  {
    hide Send, Enqueue;
    var child, born := s.nextPid, Spawn(s);
    var linked := if link then AddLink(AddLink(born, parent, child), child, parent) else born;
    var watched := monitor && parent in linked.procs && child in linked.procs;
    var joined := if watched then Monitor(linked, parent, child) else linked;
    var note := SpawnResult(child, if watched then Some(linked.nextRef) else None);
    SendLonger(joined, parent, note);
    EnqueueLonger(Send(joined, parent, note), child);
  }

  lemma {:induction false} SpawnAllLonger(s: Sched, parent: Pid, spawns: seq<(bool, bool)>, inits: nat -> bool, k: nat)
    ensures Longer(s.queues, SpawnAll(s, parent, spawns, inits, k).queues)
    decreases |spawns|
  {
    hide SpawnChildOf;
    if spawns != [] {
      SpawnChildLonger(s, parent, spawns[0].0, spawns[0].1);
      var next := if inits(k) then SpawnChildOf(s, parent, spawns[0].0, spawns[0].1) else PassPid(s);
      SpawnAllLonger(next, parent, spawns[1..], inits, k + 1);
    }
  }

  lemma RunOneLonger(s: Sched, pid: Pid, c: Choices)
    requires pid in s.procs
    ensures Longer(s.queues, RunOne(s, pid, c).queues)
  {
    hide DispatchFrom, SendAll, SpawnAll, Terminate, Longer;
    var start := Refilled(s, pid);
    DispatchKeepsPids(start, pid, c, 0);
    DispatchLonger(start, pid, c, 0);
    var d := DispatchFrom(start, pid, c, 0);
    var settled := Settle(d.sched, pid, d.ending);
    SettleLonger(d.sched, pid, d.ending);
    SendAllLonger(settled, d.sends);
    var t := SpawnAll(SendAll(settled, d.sends), pid, d.spawns, c.inits, 0);
    SpawnAllLonger(SendAll(settled, d.sends), pid, d.spawns, c.inits, 0);
    LongerTrans(s.queues, d.sched.queues, settled.queues);
    LongerTrans(s.queues, settled.queues, SendAll(settled, d.sends).queues);
    LongerTrans(s.queues, SendAll(settled, d.sends).queues, t.queues);
    if d.ending.Stopped? {
      TerminateLonger(t, pid, d.ending.reason);
      LongerTrans(s.queues, t.queues, Terminate(t, pid, d.ending.reason).queues);
    }
  }

  lemma SettleLonger(s: Sched, pid: Pid, ending: Ending)
    requires pid in s.procs
    ensures Longer(s.queues, Settle(s, pid, ending).queues)
  {}

  lemma LongerTrans(q: RunQueues, m: RunQueues, u: RunQueues)
    requires Longer(q, m) && Longer(m, u)
    ensures Longer(q, u)
  {}

  // ---- Picking ----

  /** How many calls it can still take until position `k` of the low queue is served. */
  function CallsLeft(q: RunQueues, k: nat): nat {
    NORMAL_ADVANTAGE * k + Patience(q.advantage)
  }

  /** One pick, with no high-priority work: it takes `p`, or `p` moves closer by at least one call. */
  lemma {:induction false} PickAdvances(s: Sched, p: Pid, k: nat)
    requires s.queues.high == [] && k < |s.queues.low| && s.queues.low[k] == p
    requires p in s.procs && s.procs[p].status == Runnable
    ensures var (picked, t) := Pick(s);
            && picked.Some? && t == s.(queues := t.queues) && t.queues.high == []
            && (picked.value != p ==> exists j: nat ::
                  j < |t.queues.low| && t.queues.low[j] == p && CallsLeft(t.queues, j) < CallsLeft(s.queues, k))
    decreases Size(s.queues)
  {
    var (q, rest) := Next(s.queues);
    var next := s.(queues := rest);
    NextTakesOne(s.queues);
    ServiceOfLow(s.queues);
    if ServesLow(s.queues) && k == 0 {
      assert q == Some(p);
    } else {
      var j: nat := if ServesLow(s.queues) then k - 1 else k;
      assert j < |rest.low| && rest.low[j] == p && CallsLeft(rest, j) < CallsLeft(s.queues, k);
      if !(q.value in s.procs && s.procs[q.value].status == Runnable) {
        PickAdvances(next, p, j);
      }
    }
  }

  predicate Ready(s: Sched, p: Pid) {
    p in s.procs && s.procs[p].status == Runnable
  }

  /** Picking drops the stale entries of the high queue and takes the first runnable one, whatever the others hold. */
  lemma {:induction false} PickHighFirst(s: Sched, k: nat)
    requires k < |s.queues.high| && Ready(s, s.queues.high[k])
    requires forall i :: 0 <= i < k ==> !Ready(s, s.queues.high[i])
    ensures Pick(s) == (Some(s.queues.high[k]), s.(queues := s.queues.(high := s.queues.high[k + 1..])))
    decreases k
  {
    var next := s.(queues := s.queues.(high := s.queues.high[1..]));
    NextServes(s.queues);
    if k > 0 {
      assert !Ready(s, s.queues.high[0]);
      PickHighFirst(next, k - 1);
      assert next.queues.high[k..] == s.queues.high[k + 1..];
    }
  }

  /** Only a high queue without any runnable process lets the others have their turn. */
  lemma {:induction false} PickGoesOn(s: Sched)
    requires forall p :: p in s.queues.high ==> !Ready(s, p)
    ensures Pick(s) == Pick(s.(queues := s.queues.(high := [])))
    decreases |s.queues.high|
  {
    if s.queues.high != [] {
      var next := s.(queues := s.queues.(high := s.queues.high[1..]));
      NextServes(s.queues);
      assert s.queues.high[0] in s.queues.high;
      forall p | p in next.queues.high ensures !Ready(next, p) {
        assert p in s.queues.high && !Ready(s, p);
      }
      PickGoesOn(next);
    }
  }

  // ---- Runs of cycles ----

  datatype Turn = Turn(responses: seq<(Pid, Message)>, due: seq<Pid>, choices: Choices)

  /** The state in which a cycle picks. */
  function AtPick(s: Sched, t: Turn): Sched {
    Fire(SendAll(s, t.responses), t.due)
  }

  function AfterTurn(s: Sched, t: Turn): Sched {
    Cycle(s, t.responses, t.due, t.choices).1
  }

  /** Until it is picked, `p` stays runnable and no high-priority work is there when a cycle picks. */
  predicate Undisturbed(s: Sched, ts: seq<Turn>, p: Pid)
    decreases |ts|
  {
    |ts| == 0 ||
    (var u := AtPick(s, ts[0]);
     && u.queues.high == [] && p in u.procs && u.procs[p].status == Runnable
     && (Pick(u).0 != Some(p) ==> Undisturbed(AfterTurn(s, ts[0]), ts[1..], p)))
  }

  /** Some cycle picks `p`, which its dispatch then runs. */
  predicate Dispatches(s: Sched, ts: seq<Turn>, p: Pid)
    decreases |ts|
  {
    |ts| > 0 && (Pick(AtPick(s, ts[0])).0 == Some(p) || Dispatches(AfterTurn(s, ts[0]), ts[1..], p))
  }

  lemma {:induction false} DispatchedWithinCalls(s: Sched, ts: seq<Turn>, p: Pid, k: nat)
    requires k < |s.queues.low| && s.queues.low[k] == p && Undisturbed(s, ts, p) && |ts| >= CallsLeft(s.queues, k)
    ensures Dispatches(s, ts, p)
    decreases |ts|
  {
    hide SendAll, Fire, RunOne, Pick;
    var u := AtPick(s, ts[0]);
    SendAllLonger(s, ts[0].responses);
    FireLonger(SendAll(s, ts[0].responses), ts[0].due);
    LongerTrans(s.queues, SendAll(s, ts[0].responses).queues, u.queues);
    PickAdvances(u, p, k);
    PickedRuns(u);
    var (picked, t) := Pick(u);
    if picked != Some(p) {
      var j: nat :| j < |t.queues.low| && t.queues.low[j] == p && CallsLeft(t.queues, j) < CallsLeft(u.queues, k);
      RunOneLonger(t, picked.value, ts[0].choices);
      DispatchedWithinCalls(AfterTurn(s, ts[0]), ts[1..], p, j);
    }
  }

  /** Until it is picked, `p` stays runnable. */
  predicate Steady(s: Sched, ts: seq<Turn>, p: Pid)
    decreases |ts|
  {
    |ts| == 0 ||
    (Ready(AtPick(s, ts[0]), p) && (Pick(AtPick(s, ts[0])).0 != Some(p) ==> Steady(AfterTurn(s, ts[0]), ts[1..], p)))
  }

  /** The first runnable entry of a list that holds one. */
  lemma {:induction false} FirstReady(s: Sched, l: seq<Pid>, k: nat) returns (j: nat)
    requires k < |l| && Ready(s, l[k])
    ensures j <= k && Ready(s, l[j]) && forall i :: 0 <= i < j ==> !Ready(s, l[i])
    decreases k
  {
    if i: nat :| i < k && Ready(s, l[i]) {
      j := FirstReady(s, l, i);
    } else {
      j := k;
    }
  }

  /** A runnable process at position `k` of the high queue is dispatched within k + 1 cycles, whatever the other queues
      hold and whatever arrives. */
  lemma {:induction false} HighIsDispatched(s: Sched, ts: seq<Turn>, p: Pid, k: nat)
    requires k < |s.queues.high| && s.queues.high[k] == p && Steady(s, ts, p) && |ts| > k
    ensures Dispatches(s, ts, p)
    decreases |ts|
  {
    hide SendAll, Fire, RunOne, Pick;
    var u := AtPick(s, ts[0]);
    SendAllLonger(s, ts[0].responses);
    FireLonger(SendAll(s, ts[0].responses), ts[0].due);
    LongerTrans(s.queues, SendAll(s, ts[0].responses).queues, u.queues);
    var j := FirstReady(u, u.queues.high, k);
    PickHighFirst(u, j);
    PickedRuns(u);
    var (picked, t) := Pick(u);
    if picked != Some(p) {
      assert t.queues.high[k - j - 1] == p;
      RunOneLonger(t, picked.value, ts[0].choices);
      HighIsDispatched(AfterTurn(s, ts[0]), ts[1..], p, k - j - 1);
    }
  }

  /** Bounded bypass of cycles: while no high-priority work is there, a runnable process at position `k` of the low
      queue is dispatched within 8(k + 1) cycles, whatever stale entries the queues hold and whatever arrives. */
  lemma LowIsDispatched(s: Sched, ts: seq<Turn>, p: Pid, k: nat)
    requires k < |s.queues.low| && s.queues.low[k] == p && Undisturbed(s, ts, p) && |ts| >= 8 * (k + 1)
    ensures Dispatches(s, ts, p)
  {
    DispatchedWithinCalls(s, ts, p, k);
  }
}
