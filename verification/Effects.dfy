/** What a behaviour asks for happens: every send, every spawn, and the end of its turn. And notices come once. */
module Effects {
  import opened Common
  import opened Queues
  import opened Processes
  import opened Scheduling
  import opened Cascades
  import opened Cycles
  import opened Deliveries

  // ---- What was asked ----

  /** How many of the `n` answers from the k-th on ask for a send. */
  function SendCount(c: Choices, k: nat, n: nat): nat
    decreases n
  {
    if n == 0 then 0
    else (match c.answer(k) case Act(SendTo(_, _)) => 1 case _ => 0) + SendCount(c, k + 1, n - 1)
  }

  function SpawnCount(c: Choices, k: nat, n: nat): nat
    decreases n
  {
    if n == 0 then 0
    else (match c.answer(k) case Act(SpawnChild(_, _)) => 1 case _ => 0) + SpawnCount(c, k + 1, n - 1)
  }

  function IoCount(c: Choices, k: nat, n: nat): nat
    decreases n
  {
    if n == 0 then 0 else (match c.answer(k) case Act(IoRequest) => 1 case _ => 0) + IoCount(c, k + 1, n - 1)
  }

  lemma {:induction false} SendsAt(c: Choices, k: nat, n: nat, j: nat)
    requires j < n
    ensures |Sends(c, k, n)| == SendCount(c, k, n)
    ensures match c.answer(k + j)
            case Act(SendTo(to, msg)) =>
              SendCount(c, k, j) < |Sends(c, k, n)| && Sends(c, k, n)[SendCount(c, k, j)] == (to, msg)
            case _ => true
    decreases n
  {
    if j > 0 {
      SendsAt(c, k + 1, n - 1, j - 1);
    } else if n > 1 {
      SendsAt(c, k + 1, n - 1, 0);
    }
  }

  lemma {:induction false} SpawnsAt(c: Choices, k: nat, n: nat, j: nat)
    requires j < n
    ensures |Spawned(c, k, n)| == SpawnCount(c, k, n)
    ensures match c.answer(k + j)
            case Act(SpawnChild(link, monitor)) =>
              SpawnCount(c, k, j) < |Spawned(c, k, n)| && Spawned(c, k, n)[SpawnCount(c, k, j)] == (link, monitor)
            case _ => true
    decreases n
  {
    if j > 0 {
      SpawnsAt(c, k + 1, n - 1, j - 1);
    } else if n > 1 {
      SpawnsAt(c, k + 1, n - 1, 0);
    }
  }

  /** The sends and spawns a dispatch defers are exactly those its answers ask for, each in its place. */
  lemma DispatchDefersWhatIsAsked(s: Sched, pid: Pid, c: Choices, j: nat)
    requires pid in s.procs && j < Taken(s, pid, c, 0)
    ensures var (n, d) := (Taken(s, pid, c, 0), DispatchFrom(s, pid, c, 0));
            && |d.sends| == SendCount(c, 0, n) && |d.spawns| == SpawnCount(c, 0, n)
            && match c.answer(j)
               case Act(SendTo(to, msg)) => SendCount(c, 0, j) < |d.sends| && d.sends[SendCount(c, 0, j)] == (to, msg)
               case Act(SpawnChild(link, monitor)) =>
                 SpawnCount(c, 0, j) < |d.spawns| && d.spawns[SpawnCount(c, 0, j)] == (link, monitor)
               case _ => true
  {
    hide DispatchFrom, Taken, Sends, Spawned, SendCount, SpawnCount;
    DispatchDefersAll(s, pid, c, 0);
    SendsAt(c, 0, Taken(s, pid, c, 0), j);
    SpawnsAt(c, 0, Taken(s, pid, c, 0), j);
  }

  /** A dispatch goes on exactly over what asks neither to stop nor for I/O, and ends as the last answer says. */
  lemma DispatchEndsAsAsked(s: Sched, pid: Pid, c: Choices)
    requires pid in s.procs
    ensures var (n, ending) := (Taken(s, pid, c, 0), DispatchFrom(s, pid, c, 0).ending);
            && (forall j: nat :: j + 1 < n ==>
                  c.answer(j).Act? && !c.answer(j).action.Stop? && !c.answer(j).action.IoRequest?)
            && (ending.OnBridge? <==> n > 0 && c.answer(n - 1) == Act(IoRequest))
            && (forall reason :: ending == Stopped(reason) <==>
                  n > 0 && (c.answer(n - 1) == Act(Stop(reason)) || (c.answer(n - 1).Panic? && reason == CustomExit(0))))
  {
    hide DispatchFrom, Taken, Sends, Spawned;
    DispatchDefersAll(s, pid, c, 0);
    var n := Taken(s, pid, c, 0);
    forall j: nat | j + 1 < n ensures c.answer(j).Act? && !c.answer(j).action.Stop? && !c.answer(j).action.IoRequest? {
      assert VerdictOf(c.answer(j)).Go?;
    }
  }

  // ---- What it costs ----

  /** A message costs 1, a send 2 more, an I/O request 1 more, a spawn 10 more. */
  lemma {:induction false} SpentAdds(c: Choices, k: nat, n: nat)
    ensures Spent(c, k, n) == n + 2 * SendCount(c, k, n) + IoCount(c, k, n) + 10 * SpawnCount(c, k, n)
    ensures SendCount(c, k, n) + SpawnCount(c, k, n) + IoCount(c, k, n) <= n
    decreases n
  {
    if n > 0 {
      SpentAdds(c, k + 1, n - 1);
    }
  }

  lemma {:induction false} NoIo(c: Choices, k: nat, n: nat)
    requires forall j: nat :: k <= j < k + n ==> c.answer(j) != Act(IoRequest)
    ensures IoCount(c, k, n) == 0
    decreases n
  {
    if n > 0 {
      assert c.answer(k) != Act(IoRequest);
      NoIo(c, k + 1, n - 1);
    }
  }

  lemma {:induction false} CountsGrow(c: Choices, k: nat, n: nat)
    requires n > 0
    ensures SendCount(c, k, n) <= SendCount(c, k, n - 1) + 1 && SpawnCount(c, k, n) <= SpawnCount(c, k, n - 1) + 1
    decreases n
  {
    if n > 1 {
      CountsGrow(c, k + 1, n - 1);
    }
  }

  /** One cycle lets a process handle at most 200 messages, send at most 67 and spawn at most 19. It is queued again
      for lack of reductions only after using up all 200, and it is sent to sleep only before that. */
  lemma CycleBudget(s: Sched, pid: Pid, c: Choices)
    requires pid in s.procs
    ensures var start := Refilled(s, pid);
            var (n, d) := (Taken(start, pid, c, 0), DispatchFrom(start, pid, c, 0));
            && n <= 200 && |d.sends| <= 67 && |d.spawns| <= 19
            && (d.ending.Exhausted? ==> n + 2 * |d.sends| + 10 * |d.spawns| >= 200)
            && (d.ending.Drained? ==> n + 2 * |d.sends| + 10 * |d.spawns| < 200 && n == |s.procs[pid].mailbox|)
  {
    hide DispatchFrom, Taken, Spent, SendCount, SpawnCount, Sends, Spawned;
    var start := Refilled(s, pid);
    var n := Taken(start, pid, c, 0);
    DispatchIsBounded(start, pid, c, 0);
    DispatchEndsAsAsked(start, pid, c);
    if n > 0 {
      DispatchDefersWhatIsAsked(start, pid, c, 0);
      SpentAdds(c, 0, n - 1);
      CountsGrow(c, 0, n);
      var d := DispatchFrom(start, pid, c, 0);
      if d.ending.Exhausted? || d.ending.Drained? {
        LastIsNoRequest(start, pid, c);
        NoIo(c, 0, n);
        SpentAdds(c, 0, n);
      }
    } else {
      NothingDeferred(start, pid, c);
    }
  }

  lemma LastIsNoRequest(s: Sched, pid: Pid, c: Choices)
    requires pid in s.procs && !DispatchFrom(s, pid, c, 0).ending.OnBridge?
    ensures forall j: nat :: j < Taken(s, pid, c, 0) ==> c.answer(j) != Act(IoRequest)
  {
    hide DispatchFrom, Taken;
    DispatchEndsAsAsked(s, pid, c);
    forall j: nat | j < Taken(s, pid, c, 0) ensures c.answer(j) != Act(IoRequest) {
      assert j + 1 < Taken(s, pid, c, 0) || j == Taken(s, pid, c, 0) - 1;
    }
  }

  lemma NothingDeferred(s: Sched, pid: Pid, c: Choices)
    requires pid in s.procs && Taken(s, pid, c, 0) == 0
    ensures var d := DispatchFrom(s, pid, c, 0); |d.sends| == 0 && |d.spawns| == 0 && !d.ending.Stopped?
    ensures Spent(c, 0, 0) == 0
  {}

  // ---- Sends arrive ----

  /** The messages of a list that are addressed to `q`, in order. */
  function For(ms: seq<(Pid, Message)>, q: Pid): seq<Message> {
    if ms == [] then [] else (if ms[0].0 == q then [ms[0].1] else []) + For(ms[1..], q)
  }

  /** Those addressed to nobody among `live`. */
  function Unclaimed(ms: seq<(Pid, Message)>, live: set<Pid>): seq<(Pid, Message)> {
    if ms == [] then [] else (if ms[0].0 !in live then [ms[0]] else []) + Unclaimed(ms[1..], live)
  }

  /** As many of `more` as the mailbox has room for. */
  function Fitting(p: Process, more: seq<Message>): seq<Message> {
    if Full(p) then [] else more[..Least(|more|, p.capacity - |p.mailbox|)]
  }

  function Least(a: nat, b: nat): nat {
    if a < b then a else b
  }

  /** Every live process gets exactly the messages addressed to it, once each and in order, up to its capacity. */
  lemma {:induction false} SendAllExact(s: Sched, ms: seq<(Pid, Message)>, q: Pid)
    requires q in s.procs
    ensures var u := SendAll(s, ms);
            q in u.procs && u.procs[q].mailbox == s.procs[q].mailbox + Fitting(s.procs[q], For(ms, q))
    decreases |ms|
  {
    if ms == [] {
      assert Fitting(s.procs[q], []) == [];
      assert s.procs[q].mailbox + [] == s.procs[q].mailbox;
    } else {
      var next := Send(s, ms[0].0, ms[0].1);
      SendAllExact(next, ms[1..], q);
      if ms[0].0 == q {
        OneFits(s.procs[q], next.procs[q], ms[0].1, For(ms[1..], q));
      } else {
        assert next.procs[q] == s.procs[q];
        assert [] + For(ms[1..], q) == For(ms[1..], q);
      }
    }
  }

  /** A new process takes the first 1024 messages that it is sent. */
  lemma NewProcessTakes1024(s: Sched, ms: seq<(Pid, Message)>, q: Pid)
    requires q in s.procs && s.procs[q] == NewProcess()
    ensures var (u, all) := (SendAll(s, ms), For(ms, q));
            q in u.procs && u.procs[q].mailbox == if |all| <= 1024 then all else all[..1024]
  {
    SendAllExact(s, ms, q);
    assert For(ms, q)[..|For(ms, q)|] == For(ms, q);
  }

  lemma OneFits(p: Process, r: Process, m: Message, more: seq<Message>)
    requires r.capacity == p.capacity && r.mailbox == if Full(p) then p.mailbox else p.mailbox + [m]
    ensures r.mailbox + Fitting(r, more) == p.mailbox + Fitting(p, [m] + more)
  {
    if !Full(p) {
      var n := Least(|more|, p.capacity - |p.mailbox| - 1);
      assert ([m] + more)[..n + 1] == [m] + more[..n];
      assert Fitting(p, [m] + more) == [m] + more[..n];
      if Full(r) {
        assert more[..n] == [];
      }
    }
  }

  /** A send puts its addressee into a queue, once, exactly if that is alive, was waiting, and had room. */
  lemma SendQueues(s: Sched, to: Pid, m: Message)
    ensures Send(s, to, m).queues ==
            if to in s.procs && s.procs[to].status == Waiting && |s.procs[to].mailbox| < s.procs[to].capacity
            then Push(s.queues, s.procs[to].priority, to) else s.queues
  {}

  /** With external routing everything addressed to nobody goes out, once and in order; without it, nothing does. */
  lemma {:induction false} SendAllRoutes(s: Sched, ms: seq<(Pid, Message)>)
    ensures var u := SendAll(s, ms);
            && u.procs.Keys == s.procs.Keys && u.external == s.external && u.nextPid == s.nextPid && u.nextRef == s.nextRef
            && u.outbound == s.outbound + (if s.external then Unclaimed(ms, s.procs.Keys) else [])
    decreases |ms|
  {
    hide Send;
    if ms == [] {
      assert s.outbound + [] == s.outbound;
    } else {
      var rest := Unclaimed(ms[1..], s.procs.Keys);
      SendRoutes(s, ms[0].0, ms[0].1);
      SendAllRoutes(Send(s, ms[0].0, ms[0].1), ms[1..]);
      assert [] + rest == rest;
      Reassociate(s.outbound, [ms[0]], rest);
    }
  }

  lemma SendRoutes(s: Sched, to: Pid, m: Message)
    ensures var u := Send(s, to, m);
            && u.procs.Keys == s.procs.Keys && u.external == s.external && u.nextPid == s.nextPid && u.nextRef == s.nextRef
            && u.outbound == if to !in s.procs && s.external then s.outbound + [(to, m)] else s.outbound
  {}

  // ---- Children are born ----

  ghost predicate Fresh(s: Sched) {
    forall q: Pid :: q in s.procs ==> q < s.nextPid
  }

  /** Since `s`, `parent` spawned: it has more links, monitors and messages, and nobody else changed. */
  ghost predicate Raises(s: Sched, u: Sched, parent: Pid) {
    && s.nextPid <= u.nextPid && s.outbound == u.outbound && Fresh(u)
    && parent in s.procs && parent in u.procs && Grown(s, u, parent)
    && s.procs[parent].links <= u.procs[parent].links && s.procs[parent].monitors <= u.procs[parent].monitors
    && (forall q :: q in s.procs && q != parent ==> q in u.procs && u.procs[q] == s.procs[q])
    && (forall q: Pid :: q in u.procs && q < s.nextPid ==> q in s.procs)
    && (forall q: Pid :: Queued(s.queues, q) ==> Queued(u.queues, q))
  }

  lemma RaisesTrans(s: Sched, m: Sched, u: Sched, parent: Pid)
    requires Raises(s, m, parent) && Raises(m, u, parent)
    ensures Raises(s, u, parent)
  {}

  /** A new child of `parent`: its own process, known to its parent as asked, announced and queued. */
  ghost predicate Born(s: Sched, u: Sched, parent: Pid, child: Pid, link: bool, monitor: bool, ref: Ref)
    requires parent in s.procs
  {
    && child in u.procs && parent in u.procs
    && u.procs[child] == NewProcess().(links := if link then [parent] else [],
                                       monitoredBy := if monitor then [(ref, parent)] else [])
    && (link ==> child in u.procs[parent].links)
    && (monitor ==> (ref, child) in u.procs[parent].monitors)
    && Delivered(s, u, parent, SpawnResult(child, if monitor then Some(ref) else None))
    && Queued(u.queues, child)
  }

  /** Before the announcement the two processes are linked and monitored as asked, and nothing else has changed. */
  lemma JoinShape(s: Sched, parent: Pid, link: bool, monitor: bool) returns (joined: Sched)
    requires parent in s.procs && Fresh(s)
    ensures SpawnChildOf(s, parent, link, monitor) ==
            Enqueue(Send(joined, parent, SpawnResult(s.nextPid, if monitor then Some(s.nextRef) else None)), s.nextPid)
    ensures joined == s.(procs := joined.procs, nextPid := s.nextPid + 1, nextRef := joined.nextRef)
    ensures s.nextRef <= joined.nextRef && joined.procs.Keys == s.procs.Keys + {s.nextPid}
    ensures forall q :: q in s.procs && q != parent ==> joined.procs[q] == s.procs[q]
    ensures joined.procs[parent] == s.procs[parent].(
              links := s.procs[parent].links + (if link then [s.nextPid] else []),
              monitors := s.procs[parent].monitors + (if monitor then [(s.nextRef, s.nextPid)] else []))
    ensures joined.procs[s.nextPid] == NewProcess().(links := if link then [parent] else [],
                                                     monitoredBy := if monitor then [(s.nextRef, parent)] else [])
  {
    hide Send, Enqueue;
    assert s.nextPid !in s.procs;
    var child, born := s.nextPid, Spawn(s);
    var linked := if link then AddLink(AddLink(born, parent, child), child, parent) else born;
    joined := if monitor then Monitor(linked, parent, child) else linked;
    assert [] + [parent] == [parent] && [] + [(s.nextRef, parent)] == [(s.nextRef, parent)];
    assert s.procs[parent].links + [] == s.procs[parent].links;
    assert s.procs[parent].monitors + [] == s.procs[parent].monitors;
  }

  lemma ChildIsBorn(s: Sched, parent: Pid, link: bool, monitor: bool)
    requires parent in s.procs && Fresh(s)
    ensures var u := SpawnChildOf(s, parent, link, monitor);
            && Raises(s, u, parent) && u.nextPid == s.nextPid + 1 && s.nextRef <= u.nextRef
            && Born(s, u, parent, s.nextPid, link, monitor, s.nextRef)
  {
    hide SpawnChildOf, NewProcess, Full, Delivered, Grown;
    var child := s.nextPid;
    var news := SpawnResult(child, if monitor then Some(s.nextRef) else None);
    var joined := JoinShape(s, parent, link, monitor);
    Announced(s, joined, parent, child, news);
  }

  lemma Announced(s: Sched, joined: Sched, parent: Pid, child: Pid, news: Message)
    requires parent in s.procs && parent in joined.procs && child in joined.procs && child != parent
    requires joined.queues == s.queues
    requires joined.procs[parent] ==
             s.procs[parent].(links := joined.procs[parent].links, monitors := joined.procs[parent].monitors)
    ensures var u := Enqueue(Send(joined, parent, news), child);
            && u == joined.(procs := u.procs, queues := u.queues, enqueued := u.enqueued)
            && u.procs.Keys == joined.procs.Keys
            && (forall q :: q in joined.procs && q != parent ==> u.procs[q] == joined.procs[q])
            && u.procs[parent].links == joined.procs[parent].links
            && u.procs[parent].monitors == joined.procs[parent].monitors
            && Delivered(s, u, parent, news) && Grown(s, u, parent) && Queued(u.queues, child)
            && (forall q: Pid :: Queued(s.queues, q) ==> Queued(u.queues, q))
  {
    hide Push, Queued, Deliver;
    var told := Send(joined, parent, news);
    Told(s, joined, parent, news);
    PushQueues(told.queues, told.procs[child].priority, child);
  }

  lemma Told(s: Sched, joined: Sched, parent: Pid, news: Message)
    requires parent in s.procs && parent in joined.procs && joined.queues == s.queues
    requires joined.procs[parent] ==
             s.procs[parent].(links := joined.procs[parent].links, monitors := joined.procs[parent].monitors)
    ensures var u := Send(joined, parent, news);
            && u == joined.(procs := u.procs, queues := u.queues, enqueued := u.enqueued)
            && u.procs.Keys == joined.procs.Keys
            && (forall q :: q in joined.procs && q != parent ==> u.procs[q] == joined.procs[q])
            && u.procs[parent].links == joined.procs[parent].links
            && u.procs[parent].monitors == joined.procs[parent].monitors
            && Delivered(s, u, parent, news) && Grown(s, u, parent)
            && (forall q: Pid :: Queued(s.queues, q) ==> Queued(u.queues, q))
  {
    PushQueues(joined.queues, joined.procs[parent].priority, parent);
  }

  function Step(s: Sched, parent: Pid, spawn: (bool, bool), starts: bool): Sched {
    if starts then SpawnChildOf(s, parent, spawn.0, spawn.1) else PassPid(s)
  }

  lemma StepBears(s: Sched, parent: Pid, spawn: (bool, bool), starts: bool)
    requires parent in s.procs && Fresh(s)
    ensures var u := Step(s, parent, spawn, starts);
            && Raises(s, u, parent) && u.nextPid == s.nextPid + 1
            && if starts then Born(s, u, parent, s.nextPid, spawn.0, spawn.1, s.nextRef) else s.nextPid !in u.procs
  {
    hide SpawnChildOf, Born;
    if starts {
      ChildIsBorn(s, parent, spawn.0, spawn.1);
    }
  }

  lemma {:induction false} SpawnAllRaises(s: Sched, parent: Pid, spawns: seq<(bool, bool)>, inits: nat -> bool, k: nat)
    requires parent in s.procs && Fresh(s)
    ensures var u := SpawnAll(s, parent, spawns, inits, k);
            Raises(s, u, parent) && u.nextPid == s.nextPid + |spawns|
    decreases |spawns|
  {
    hide SpawnChildOf, Born, PassPid, Grown;
    if spawns == [] {
      GrowsRefl(s);
    } else {
      var next := Step(s, parent, spawns[0], inits(k));
      StepBears(s, parent, spawns[0], inits(k));
      SpawnAllRaises(next, parent, spawns[1..], inits, k + 1);
      hide Raises;
      RaisesTrans(s, next, SpawnAll(s, parent, spawns, inits, k), parent);
    }
  }

  /** The i-th deferred spawn uses up the i-th pid from here, and if it initialises its child is there in the end. */
  lemma {:induction false} SpawnAllBears(s: Sched, parent: Pid, spawns: seq<(bool, bool)>, inits: nat -> bool, k: nat,
                                         i: nat) returns (ref: Ref)
    requires parent in s.procs && Fresh(s) && i < |spawns|
    ensures var u := SpawnAll(s, parent, spawns, inits, k);
            if inits(k + i) then Born(s, u, parent, s.nextPid + i, spawns[i].0, spawns[i].1, ref)
            else s.nextPid + i !in u.procs
    decreases |spawns|
  {
    hide SpawnChildOf, Born, PassPid, Step, Raises, Fresh, SpawnAll;
    var next, u := Step(s, parent, spawns[0], inits(k)), SpawnAll(s, parent, spawns, inits, k);
    StepIs(s, parent, spawns, inits, k);
    StepBears(s, parent, spawns[0], inits(k));
    RaisedParent(s, next, parent);
    SpawnAllRaises(next, parent, spawns[1..], inits, k + 1);
    if i == 0 {
      ref := s.nextRef;
      if inits(k) {
        NotItself(s, parent);
        BornLater(s, next, u, parent, s.nextPid, spawns[0].0, spawns[0].1, ref);
      } else {
        NoLaterBirth(next, u, parent, s.nextPid);
      }
    } else {
      ref := SpawnAllBears(next, parent, spawns[1..], inits, k + 1, i - 1);
      if inits(k + i) {
        BornBefore(s, next, u, parent, s.nextPid + i, spawns[i].0, spawns[i].1, ref);
      }
    }
  }

  lemma RaisedParent(s: Sched, u: Sched, parent: Pid)
    requires Raises(s, u, parent)
    ensures parent in s.procs && parent in u.procs && Fresh(u)
    ensures forall q: Pid :: q in s.procs ==> q in u.procs
  {}

  lemma NotItself(s: Sched, parent: Pid)
    requires Fresh(s) && parent in s.procs
    ensures parent != s.nextPid
  {}

  lemma NoLaterBirth(s: Sched, u: Sched, parent: Pid, child: Pid)
    requires Raises(s, u, parent) && child < s.nextPid && child !in s.procs
    ensures child !in u.procs
  {}

  lemma StepIs(s: Sched, parent: Pid, spawns: seq<(bool, bool)>, inits: nat -> bool, k: nat)
    requires spawns != []
    ensures SpawnAll(s, parent, spawns, inits, k) ==
            SpawnAll(Step(s, parent, spawns[0], inits(k)), parent, spawns[1..], inits, k + 1)
  {
    hide SpawnChildOf, PassPid;
  }

  lemma BornLater(s: Sched, m: Sched, u: Sched, parent: Pid, child: Pid, link: bool, monitor: bool, ref: Ref)
    requires parent in s.procs && child != parent && Born(s, m, parent, child, link, monitor, ref) && Raises(m, u, parent)
    ensures Born(s, u, parent, child, link, monitor, ref)
  {
    GrownOne(m, u, parent);
    KeptMessage(s, m, u, parent, SpawnResult(child, if monitor then Some(ref) else None));
    hide Delivered, Grown, NewProcess;
  }

  lemma BornBefore(s: Sched, m: Sched, u: Sched, parent: Pid, child: Pid, link: bool, monitor: bool, ref: Ref)
    requires Raises(s, m, parent) && Born(m, u, parent, child, link, monitor, ref)
    ensures parent in s.procs && Born(s, u, parent, child, link, monitor, ref)
  {
    GrownOne(s, m, parent);
    LaterMessage(s, m, u, parent, SpawnResult(child, if monitor then Some(ref) else None));
    hide Delivered, Grown, NewProcess, Fresh;
  }

  lemma KeptMessage(s: Sched, m: Sched, u: Sched, q: Pid, msg: Message)
    requires Delivered(s, m, q, msg) && q in u.procs
    requires m.procs[q].mailbox <= u.procs[q].mailbox && m.procs[q].capacity == u.procs[q].capacity
    ensures Delivered(s, u, q, msg)
  {
    var start, before, after := |s.procs[q].mailbox|, m.procs[q].mailbox, u.procs[q].mailbox;
    if msg in before[start..] {
      var i :| 0 <= i < |before| - start && before[start..][i] == msg;
      assert after[start..][i] == msg;
    }
  }

  lemma LaterMessage(s: Sched, m: Sched, u: Sched, q: Pid, msg: Message)
    requires q in s.procs && q in m.procs && s.procs[q].mailbox <= m.procs[q].mailbox && Delivered(m, u, q, msg)
    ensures Delivered(s, u, q, msg)
  {
    var start, from, after := |s.procs[q].mailbox|, |m.procs[q].mailbox|, u.procs[q].mailbox;
    if msg in after[from..] {
      var i :| 0 <= i < |after| - from && after[from..][i] == msg;
      assert after[start..][from + i - start] == msg;
    }
  }

  lemma GrownOne(s: Sched, u: Sched, q: Pid)
    requires q in s.procs && q in u.procs && Grown(s, u, q)
    ensures s.procs[q].mailbox <= u.procs[q].mailbox && s.procs[q].capacity == u.procs[q].capacity
  {}

  // ---- The whole turn of a process ----

  /** The turn when the process has been settled, before anything deferred happens. */
  function Settled(s: Sched, pid: Pid, c: Choices): Sched
    requires pid in s.procs
  {
    var d := DispatchFrom(Refilled(s, pid), pid, c, 0);
    DispatchKeepsPids(Refilled(s, pid), pid, c, 0);
    Settle(d.sched, pid, d.ending)
  }

  function Handled(s: Sched, pid: Pid, c: Choices): nat
    requires pid in s.procs
  {
    Taken(Refilled(s, pid), pid, c, 0)
  }

  function Turn(s: Sched, pid: Pid, c: Choices): Dispatched
    requires pid in s.procs
  {
    DispatchFrom(Refilled(s, pid), pid, c, 0)
  }

  /** A dispatch touches nothing but its process and the queues, which lose nothing. */
  lemma {:induction false} DispatchIsLocal(s: Sched, pid: Pid, c: Choices, k: nat)
    requires pid in s.procs
    ensures var t := DispatchFrom(s, pid, c, k).sched;
            && t == s.(procs := t.procs, queues := t.queues, enqueued := t.enqueued)
            && (forall q: Pid :: Queued(s.queues, q) ==> Queued(t.queues, q))
            && pid in t.procs && t.procs[pid].links == s.procs[pid].links && t.procs[pid].capacity == s.procs[pid].capacity
    decreases s.procs[pid].reductions
  {
    if s.procs[pid].reductions > 0 && s.procs[pid].mailbox != [] {
      AnswerIsLocal(s, pid, c.answer(k), c.accepted);
      GoCosts(s, pid, c.answer(k), c.accepted);
      if VerdictOf(c.answer(k)).Go? {
        hide Answer, VerdictOf;
        DispatchIsLocal(Answer(s, pid, c.answer(k), c.accepted), pid, c, k + 1);
      }
    }
  }

  lemma AnswerIsLocal(s: Sched, pid: Pid, o: Outcome, accepted: bool)
    requires pid in s.procs && s.procs[pid].mailbox != []
    ensures var t := Answer(s, pid, o, accepted);
            && t == s.(procs := t.procs, queues := t.queues, enqueued := t.enqueued)
            && (forall q: Pid :: Queued(s.queues, q) ==> Queued(t.queues, q))
            && pid in t.procs && t.procs[pid].links == s.procs[pid].links && t.procs[pid].capacity == s.procs[pid].capacity
  {
    PushQueues(s.queues, s.procs[pid].priority, pid);
  }

  /** How the process stands when its dispatch is over, with `rest` of its mailbox not handled and the queues as they
      were: awake with or without the rest, or asleep on the bridge; if the bridge refused, queued with a note behind
      the rest, if there is room. */
  predicate LeftAs(rest: seq<Message>, queues: RunQueues, pid: Pid, accepted: bool, d: Dispatched) {
    pid in d.sched.procs &&
    var now := d.sched.procs[pid];
    match d.ending
    case Drained => now.mailbox == rest == [] && now.status == Runnable && d.sched.queues == queues
    case Exhausted => now.mailbox == rest && now.status == Runnable && d.sched.queues == queues
    case Stopped(_) => now.mailbox == rest && d.sched.queues == queues
    case OnBridge =>
      if accepted then now.mailbox == rest && now.status == Waiting && d.sched.queues == queues
      else && now.mailbox == (if |rest| >= now.capacity then rest else rest + [Text(0)])
           && now.status == Runnable && d.sched.queues == Push(queues, now.priority, pid)
  }

  lemma {:induction false} DispatchLeaves(s: Sched, pid: Pid, c: Choices, k: nat)
    requires pid in s.procs && s.procs[pid].status == Runnable
    ensures var (n, d) := (Taken(s, pid, c, k), DispatchFrom(s, pid, c, k));
            n <= |s.procs[pid].mailbox| && LeftAs(s.procs[pid].mailbox[n..], s.queues, pid, c.accepted, d)
    decreases s.procs[pid].reductions
  {
    hide LeftAs, Answer, VerdictOf;
    var o, mailbox := c.answer(k), s.procs[pid].mailbox;
    if s.procs[pid].reductions > 0 && mailbox != [] && VerdictOf(o).Go? {
      var t := Answer(s, pid, o, c.accepted);
      AnswerLeaves(s, pid, o, c.accepted);
      GoCosts(s, pid, o, c.accepted);
      GoIsNoRequest(o);
      DispatchLeaves(t, pid, c, k + 1);
      assert mailbox[1..][Taken(s, pid, c, k) - 1..] == mailbox[Taken(s, pid, c, k)..];
      SameButDeferred(DispatchFrom(t, pid, c, k + 1), DispatchFrom(s, pid, c, k), mailbox[Taken(s, pid, c, k)..], s.queues,
                      pid, c.accepted);
    } else {
      LastLeaves(s, pid, c, k);
    }
  }

  lemma GoIsNoRequest(o: Outcome)
    requires VerdictOf(o).Go?
    ensures o != Act(IoRequest)
  {}

  /** The dispatch that ends here and now. */
  lemma LastLeaves(s: Sched, pid: Pid, c: Choices, k: nat)
    requires pid in s.procs && s.procs[pid].status == Runnable
    requires s.procs[pid].reductions == 0 || s.procs[pid].mailbox == [] || !VerdictOf(c.answer(k)).Go?
    ensures var (n, d) := (Taken(s, pid, c, k), DispatchFrom(s, pid, c, k));
            n <= |s.procs[pid].mailbox| && LeftAs(s.procs[pid].mailbox[n..], s.queues, pid, c.accepted, d)
  {
    hide Answer;
    if s.procs[pid].reductions > 0 && s.procs[pid].mailbox != [] {
      AnswerLeaves(s, pid, c.answer(k), c.accepted);
    }
  }

  lemma SameButDeferred(d: Dispatched, e: Dispatched, rest: seq<Message>, queues: RunQueues, pid: Pid, accepted: bool)
    requires LeftAs(rest, queues, pid, accepted, d) && e.sched == d.sched && e.ending == d.ending
    ensures LeftAs(rest, queues, pid, accepted, e)
  {}

  lemma AnswerLeaves(s: Sched, pid: Pid, o: Outcome, accepted: bool)
    requires pid in s.procs && s.procs[pid].mailbox != [] && s.procs[pid].status == Runnable
    ensures var t := Answer(s, pid, o, accepted);
            && pid in t.procs
            && var (rest, now) := (s.procs[pid].mailbox[1..], t.procs[pid]);
               if o != Act(IoRequest) then now.mailbox == rest && now.status == Runnable && t.queues == s.queues
               else if accepted then now.mailbox == rest && now.status == Waiting && t.queues == s.queues
               else && now.mailbox == (if |rest| >= now.capacity then rest else rest + [Text(0)])
                    && now.status == Runnable && t.queues == Push(s.queues, now.priority, pid)
  {
    PushQueues(s.queues, s.procs[pid].priority, pid);
  }

  /** The same for the whole turn, up to the deferred sends and spawns. */
  lemma TurnLeaves(s: Sched, pid: Pid, c: Choices)
    requires pid in s.procs && s.procs[pid].status == Runnable
    ensures var (n, st, ending) := (Handled(s, pid, c), Settled(s, pid, c), Turn(s, pid, c).ending);
            && n <= |s.procs[pid].mailbox| && st.procs.Keys == s.procs.Keys
            && (forall q :: q in s.procs && q != pid ==> st.procs[q] == s.procs[q])
            && st == s.(procs := st.procs, queues := st.queues, enqueued := st.enqueued)
            && (forall q: Pid :: Queued(s.queues, q) ==> Queued(st.queues, q))
            && var (rest, now) := (s.procs[pid].mailbox[n..], st.procs[pid]);
               match ending
               case Drained => now.mailbox == rest == [] && now.status == Waiting && st.queues == s.queues
               case Exhausted =>
                 now.mailbox == rest && now.status == Runnable && st.queues == Push(s.queues, now.priority, pid)
               case Stopped(_) => now.mailbox == rest && st.queues == s.queues
               case OnBridge =>
                 if c.accepted then now.mailbox == rest && now.status == Waiting && st.queues == s.queues
                 else && now.mailbox == (if |rest| >= now.capacity then rest else rest + [Text(0)])
                      && now.status == Runnable && st.queues == Push(s.queues, now.priority, pid)
  {
    hide DispatchFrom, Taken;
    var start := Refilled(s, pid);
    DispatchLeaves(start, pid, c, 0);
    DispatchIsLocal(start, pid, c, 0);
    DispatchTakesInOrder(start, pid, c, 0);
    var t := Turn(s, pid, c).sched;
    PushQueues(t.queues, t.procs[pid].priority, pid);
  }

  /** After that come the sends, the spawns and the stop. */
  lemma RunOneIs(s: Sched, pid: Pid, c: Choices)
    requires pid in s.procs
    ensures var (st, d) := (Settled(s, pid, c), Turn(s, pid, c));
            var t := SpawnAll(SendAll(st, d.sends), pid, d.spawns, c.inits, 0);
            RunOne(s, pid, c) == if d.ending.Stopped? then Terminate(t, pid, d.ending.reason) else t
  {}

  /** From there on mailboxes only grow, by messages that wake whoever waits for them; nothing that goes out is taken
      back; and the process is gone exactly if it stopped. */
  lemma TurnGoesOn(s: Sched, pid: Pid, c: Choices, q: Pid)
    requires pid in s.procs && s.procs[pid].status == Runnable && Fresh(s) && q in s.procs
    ensures var (st, u, d) := (Settled(s, pid, c), RunOne(s, pid, c), Turn(s, pid, c));
            && q in st.procs && (q in u.procs ==> Grown(st, u, q)) && SendAll(st, d.sends).outbound <= u.outbound
            && (pid in u.procs <==> !d.ending.Stopped?) && (!d.ending.Stopped? ==> q in u.procs)
  {
    hide DispatchFrom, Settle, SendAll, SpawnAll, Terminate, Grown, Queued, Taken;
    var (st, d) := (Settled(s, pid, c), Turn(s, pid, c));
    var sent := SendAll(st, d.sends);
    var t := SpawnAll(sent, pid, d.spawns, c.inits, 0);
    RunOneIs(s, pid, c);
    TurnLeaves(s, pid, c);
    SendAllGrows(st, d.sends);
    SendAllRoutes(st, d.sends);
    SpawnAllRaises(sent, pid, d.spawns, c.inits, 0);
    RaisedGrown(st, sent, t, pid, q);
    if d.ending.Stopped? {
      var u := Terminate(t, pid, d.ending.reason);
      TerminateGrows(t, pid, d.ending.reason);
      TerminateRoutes(t, pid, d.ending.reason);
      if q in u.procs {
        GrownTrans(st, t, u, q);
      }
      assert u.procs.Keys <= t.procs.Keys - {pid};
    }
  }

  lemma GrownTrans(s: Sched, m: Sched, u: Sched, q: Pid)
    requires q in s.procs && q in m.procs && q in u.procs && Grown(s, m, q) && Grown(m, u, q)
    ensures Grown(s, u, q)
  {}

  lemma RaisedGrown(s: Sched, m: Sched, u: Sched, parent: Pid, q: Pid)
    requires q in s.procs && q in m.procs && Grown(s, m, q) && Raises(m, u, parent)
    ensures q in u.procs && Grown(s, u, q)
  {
    hide Fresh;
    if q != parent {
      assert u.procs[q] == m.procs[q];
    }
  }

  /** Messages that went out stay out. */
  lemma {:induction false} TerminateRoutes(s: Sched, p: Pid, r: Reason)
    ensures s.outbound <= Terminate(s, p, r).outbound
    decreases s.procs.Keys, 0, 0
  {
    hide Kill;
    if p in s.procs {
      var (k, cascade) := Kill(s, p, r);
      KillShape(s, p, r);
      KillRoutes(s, p, r);
      TerminateAllRoutes(k, cascade, r);
    }
  }

  lemma {:induction false} TerminateAllRoutes(s: Sched, ps: seq<Pid>, r: Reason)
    ensures s.outbound <= TerminateAll(s, ps, r).outbound
    decreases s.procs.Keys, 1, |ps|
  {
    if ps != [] {
      TerminateRoutes(s, ps[0], r);
      TerminateAllRoutes(Terminate(s, ps[0], r), ps[1..], r);
    }
  }

  lemma KillRoutes(s: Sched, p: Pid, r: Reason)
    requires p in s.procs
    ensures s.outbound <= Kill(s, p, r).0.outbound
  {
    hide NotifyLinks, DropTargets, DropWatchers;
    var (g, wakes) := Gone(s, p, r);
    EnqueueAllRoutes(g, wakes);
    SendAllRoutes(EnqueueAll(g, wakes), DownNotices(s.procs[p].monitoredBy, p, r));
  }

  lemma {:induction false} EnqueueAllRoutes(s: Sched, ps: seq<Pid>)
    ensures EnqueueAll(s, ps).outbound == s.outbound
    decreases |ps|
  {
    if ps != [] {
      EnqueueAllRoutes(Enqueue(s, ps[0]), ps[1..]);
    }
  }

  /** A message that a behaviour sends in answer to the j-th message of its turn reaches its addressee, if that is
      alive in the end, unless its mailbox is full then, and wakes it if it was waiting with room. If there is no such
      process, the message is routed outwards, if that is on. */
  lemma MessageIsSent(s: Sched, pid: Pid, c: Choices, j: nat, to: Pid, msg: Message)
    requires pid in s.procs && s.procs[pid].status == Runnable && Fresh(s)
    requires j < Handled(s, pid, c) && c.answer(j) == Act(SendTo(to, msg))
    ensures var (st, u) := (Settled(s, pid, c), RunOne(s, pid, c));
            && (to in s.procs && to in u.procs ==>
                  && Delivered(st, u, to, msg)
                  && (st.procs[to].status == Waiting && !Full(st.procs[to]) ==>
                        u.procs[to].status == Runnable && Queued(u.queues, to)))
            && (to !in s.procs && s.external ==> |s.outbound| <= |u.outbound| && (to, msg) in u.outbound[|s.outbound|..])
  {
    hide DispatchFrom, Settle, SendAll, SpawnAll, Taken, RunOne, Delivered, Grown, Sends, SendCount, Settled;
    hide Fresh, Queued;
    var (st, u, d) := (Settled(s, pid, c), RunOne(s, pid, c), Turn(s, pid, c));
    var sent := SendAll(st, d.sends);
    DispatchDefersWhatIsAsked(Refilled(s, pid), pid, c, j);
    var i := SendCount(c, 0, j);
    assert d.sends[i] == (to, msg) && (to, msg) in d.sends;
    TurnLeaves(s, pid, c);
    TurnGoesOn(s, pid, c, pid);
    if to in s.procs {
      TurnGoesOn(s, pid, c, to);
      if to in u.procs {
        SendAllDelivers(st, d.sends, to, msg);
        TurnAfterSends(s, pid, c, to);
        GrownOne(sent, u, to);
        KeptMessage(st, sent, u, to, msg);
        WokenByMessage(st, u, to, msg);
      }
    } else if s.external {
      SendAllRoutes(st, d.sends);
      IsUnclaimed(d.sends, st.procs.Keys, to, msg);
      OutAndKept(s.outbound, Unclaimed(d.sends, st.procs.Keys), u.outbound, (to, msg));
    }
  }

  lemma OutAndKept<T>(a: seq<T>, b: seq<T>, c: seq<T>, x: T)
    requires a + b <= c && x in b
    ensures x in c[|a|..]
  {
    var i :| 0 <= i < |b| && b[i] == x;
    assert c[|a|..][i] == (a + b)[|a| + i];
  }

  lemma WokenByMessage(s: Sched, u: Sched, to: Pid, msg: Message)
    requires to in s.procs && to in u.procs && Grown(s, u, to) && Delivered(s, u, to, msg)
    ensures s.procs[to].status == Waiting && !Full(s.procs[to]) ==> u.procs[to].status == Runnable && Queued(u.queues, to)
  {}

  lemma {:induction false} IsUnclaimed(ms: seq<(Pid, Message)>, live: set<Pid>, to: Pid, msg: Message)
    requires (to, msg) in ms && to !in live
    ensures (to, msg) in Unclaimed(ms, live)
  {
    if ms[0] != (to, msg) {
      assert ms == [ms[0]] + ms[1..];
      IsUnclaimed(ms[1..], live, to, msg);
    }
  }

  lemma TurnAfterSends(s: Sched, pid: Pid, c: Choices, q: Pid)
    requires pid in s.procs && s.procs[pid].status == Runnable && Fresh(s) && q in s.procs && q in RunOne(s, pid, c).procs
    ensures var sent := SendAll(Settled(s, pid, c), Turn(s, pid, c).sends);
            q in sent.procs && Grown(sent, RunOne(s, pid, c), q)
  {
    hide DispatchFrom, Settle, SendAll, SpawnAll, Terminate, Grown, Queued, Taken;
    var (st, d) := (Settled(s, pid, c), Turn(s, pid, c));
    var sent := SendAll(st, d.sends);
    var t := SpawnAll(sent, pid, d.spawns, c.inits, 0);
    RunOneIs(s, pid, c);
    TurnLeaves(s, pid, c);
    SendAllRoutes(st, d.sends);
    SpawnAllRaises(sent, pid, d.spawns, c.inits, 0);
    GrowsRefl(sent);
    RaisedGrown(sent, sent, t, pid, q);
    if d.ending.Stopped? {
      TerminateGrows(t, pid, d.ending.reason);
      GrownTrans(sent, t, Terminate(t, pid, d.ending.reason), q);
    }
  }

  /** A child that a behaviour asks for in answer to the j-th message, as the i-th of its turn, gets the i-th pid from
      here. If its own behaviour initialises, it is linked, monitored and announced as asked, and queued; if not, that
      pid stays unused. All this has happened when a stop takes effect. */
  lemma ChildIsSpawned(s: Sched, pid: Pid, c: Choices, j: nat, link: bool, monitor: bool) returns (t: Sched, ref: Ref)
    requires pid in s.procs && s.procs[pid].status == Runnable && Fresh(s)
    requires j < Handled(s, pid, c) && c.answer(j) == Act(SpawnChild(link, monitor))
    ensures var (i, ending) := (SpawnCount(c, 0, j), Turn(s, pid, c).ending);
            && RunOne(s, pid, c) == (if ending.Stopped? then Terminate(t, pid, ending.reason) else t)
            && pid in Settled(s, pid, c).procs
            && if c.inits(i) then Born(Settled(s, pid, c), t, pid, s.nextPid + i, link, monitor, ref)
               else s.nextPid + i !in t.procs
  {
    hide DispatchFrom, Settle, SendAll, SpawnAll, Taken, RunOne, Born, Grown, Spawned, SpawnCount, Settled, Queued;
    var (st, d) := (Settled(s, pid, c), Turn(s, pid, c));
    var sent := SendAll(st, d.sends);
    t := SpawnAll(sent, pid, d.spawns, c.inits, 0);
    RunOneIs(s, pid, c);
    DispatchDefersWhatIsAsked(Refilled(s, pid), pid, c, j);
    TurnLeaves(s, pid, c);
    SendAllRoutes(st, d.sends);
    SendAllGrows(st, d.sends);
    var i := SpawnCount(c, 0, j);
    assert d.spawns[i] == (link, monitor);
    ref := SpawnAllBears(sent, pid, d.spawns, c.inits, 0, i);
    if c.inits(i) {
      BornSince(st, sent, t, pid, s.nextPid + i, link, monitor, ref);
    }
  }

  lemma BornSince(s: Sched, m: Sched, u: Sched, parent: Pid, child: Pid, link: bool, monitor: bool, ref: Ref)
    requires parent in s.procs && parent in m.procs && Grown(s, m, parent) && Born(m, u, parent, child, link, monitor, ref)
    ensures Born(s, u, parent, child, link, monitor, ref)
  {
    GrownOne(s, m, parent);
    LaterMessage(s, m, u, parent, SpawnResult(child, if monitor then Some(ref) else None));
    hide Delivered, Grown, NewProcess;
  }

  // ---- The whole cycle ----

  lemma {:induction false} FireMail(s: Sched, due: seq<Pid>, q: Pid)
    requires q in s.procs
    ensures var u := Fire(s, due);
            && u.procs.Keys == s.procs.Keys && u.nextPid == s.nextPid
            && s.procs[q].mailbox <= u.procs[q].mailbox && s.procs[q].capacity == u.procs[q].capacity
            && (q in due ==> Delivered(s, u, q, ReceiveTimeout))
    decreases |due|
  {
    hide Delivered;
    if due != [] {
      var next := Send(ClearTimeout(s, due[0]), due[0], ReceiveTimeout);
      FireOneMail(s, due[0], q);
      FireMail(next, due[1..], q);
      assert due == [due[0]] + due[1..];
      if q == due[0] {
        KeptMessage(s, next, Fire(s, due), q, ReceiveTimeout);
      } else if q in due {
        LaterMessage(s, next, Fire(s, due), q, ReceiveTimeout);
      }
    }
  }

  lemma FireOneMail(s: Sched, p: Pid, q: Pid)
    requires q in s.procs
    ensures var u := Send(ClearTimeout(s, p), p, ReceiveTimeout);
            && u.procs.Keys == s.procs.Keys && u.nextPid == s.nextPid
            && s.procs[q].mailbox <= u.procs[q].mailbox && s.procs[q].capacity == u.procs[q].capacity
            && (q == p ==> Delivered(s, u, q, ReceiveTimeout))
  {}

  /** What the bridge answers and the timeouts that are due have arrived before a process is picked. */
  lemma CyclePicksAfterwards(s: Sched, responses: seq<(Pid, Message)>, due: seq<Pid>, q: Pid, msg: Message)
    requires q in s.procs && ((q, msg) in responses || (q in due && msg == ReceiveTimeout))
    ensures var told := Fire(SendAll(s, responses), due);
            q in told.procs && told.procs.Keys == s.procs.Keys && told.nextPid == s.nextPid && Delivered(s, told, q, msg)
  {
    hide SendAll, Fire, Delivered, Grown;
    var sent := SendAll(s, responses);
    SendAllGrows(s, responses);
    SendAllRoutes(s, responses);
    GrownMailbox(s, sent, q);
    FireMail(sent, due, q);
    if (q, msg) in responses {
      SendAllDelivers(s, responses, q, msg);
      KeptMessage(s, sent, Fire(sent, due), q, msg);
    } else {
      LaterMessage(s, sent, Fire(sent, due), q, msg);
    }
  }

  /** Whoever is not picked, and is alive in the end, has in its mailbox what the bridge answered it in this cycle, and
      the timeout if one was due, unless that is full then. */
  lemma CycleDelivers(s: Sched, responses: seq<(Pid, Message)>, due: seq<Pid>, c: Choices, q: Pid, msg: Message)
    requires Fresh(s) && q in s.procs && ((q, msg) in responses || (q in due && msg == ReceiveTimeout))
    ensures var (picked, u) := (Pick(Fire(SendAll(s, responses), due)).0, Cycle(s, responses, due, c).1);
            picked != Some(q) && q in u.procs ==> Delivered(s, u, q, msg)
  {
    hide SendAll, Fire, Delivered, Grown, Pick, RunOne, Settled;
    var told := Fire(SendAll(s, responses), due);
    CyclePicksAfterwards(s, responses, due, q, msg);
    PickedRuns(told);
    var (picked, t) := Pick(told);
    var u := Cycle(s, responses, due, c).1;
    if picked.Some? && picked != Some(q) && q in u.procs {
      TurnLeaves(t, picked.value, c);
      TurnGoesOn(t, picked.value, c, q);
      GrownOne(Settled(t, picked.value, c), u, q);
      KeptMessage(s, told, u, q, msg);
    } else if picked.None? {
      KeptMessage(s, told, u, q, msg);
    }
  }

  // ---- Notices come once ----

  /** How often `m` was added to the mailbox of `q` between `s` and `u`. */
  function Added(s: Sched, u: Sched, q: Pid, m: Message): nat
    requires q in s.procs && q in u.procs && |s.procs[q].mailbox| <= |u.procs[q].mailbox|
  {
    multiset(u.procs[q].mailbox[|s.procs[q].mailbox|..])[m]
  }

  lemma AddedTrans(s: Sched, m: Sched, u: Sched, q: Pid, x: Message)
    requires q in s.procs && q in m.procs && q in u.procs
    requires s.procs[q].mailbox <= m.procs[q].mailbox <= u.procs[q].mailbox
    ensures Added(s, u, q, x) == Added(s, m, q, x) + Added(m, u, q, x)
  {
    var a, b, e := s.procs[q].mailbox, m.procs[q].mailbox, u.procs[q].mailbox;
    assert e[|a|..] == b[|a|..] + e[|b|..];
  }

  lemma {:induction false} NoticeCount(l: seq<(Ref, Pid)>, p: Pid, reason: Reason, r: Ref, w: Pid)
    ensures multiset(For(DownNotices(l, p, reason), w))[Down(r, p, reason)] == multiset(l)[(r, w)]
  {
    hide For, DownNotices;
    if l == [] {
      NoNotices(p, reason, w);
    } else {
      NoticeCount(l[1..], p, reason, r, w);
      FirstNotice(l, p, reason, w);
      assert l == [l[0]] + l[1..];
      assert multiset(l) == multiset{l[0]} + multiset(l[1..]);
      var tail := For(DownNotices(l[1..], p, reason), w);
      var head := Down(l[0].0, p, reason);
      assert multiset([head] + tail) == multiset{head} + multiset(tail);
    }
  }

  lemma NoNotices(p: Pid, reason: Reason, w: Pid)
    ensures For(DownNotices([], p, reason), w) == []
  {}

  lemma FirstNotice(l: seq<(Ref, Pid)>, p: Pid, reason: Reason, w: Pid)
    requires l != []
    ensures var rest := For(DownNotices(l[1..], p, reason), w);
            For(DownNotices(l, p, reason), w) == if l[0].1 == w then [Down(l[0].0, p, reason)] + rest else rest
  {
    var ms := DownNotices(l, p, reason);
    assert ms[1..] == DownNotices(l[1..], p, reason);
    assert [] + For(ms[1..], w) == For(ms[1..], w);
  }

  lemma KillNotifiesOnce(s: Sched, p: Pid, reason: Reason, except: set<Pid>, w: Pid, r: Ref)
    requires p in s.procs && w in s.procs && w != p && Inv(s, except) && Watches(s.procs, w, r, p)
    ensures var k := Kill(s, p, reason).0;
            w in k.procs && s.procs[w].mailbox <= k.procs[w].mailbox && Added(s, k, w, Down(r, p, reason)) <= 1
  {
    hide Grown, NotifyLinks, DropTargets, DropWatchers, Inv, Added;
    var (g, wakes) := Gone(s, p, reason);
    var notices := DownNotices(s.procs[p].monitoredBy, p, reason);
    var woken, k := EnqueueAll(g, wakes), Kill(s, p, reason).0;
    KillShape(s, p, reason);
    KillGrows(s, p, reason);
    GrownMailbox(s, k, w);
    GoneMail(s, p, reason, w);
    EnqueueAllGrows(g, wakes);
    SendAllExact(woken, notices, w);
    NoticeCount(s.procs[p].monitoredBy, p, reason, r, w);
    NoRepeatsOf(s, except, p);
    AtMostFitting(woken.procs[w], For(notices, w), Down(r, p, reason));
    AddedTrans(s, woken, k, w, Down(r, p, reason));
    ExitsOnly(s, p, reason, woken, w, r);
    FittingAdded(woken, k, w, For(notices, w), Down(r, p, reason));
  }

  lemma NoRepeatsOf(s: Sched, except: set<Pid>, p: Pid)
    requires Inv(s, except) && p in s.procs
    ensures forall e :: multiset(s.procs[p].monitoredBy)[e] <= 1
  {
    assert NoRepeats(s.procs[p].monitoredBy);
  }

  lemma AtMostFitting(p: Process, more: seq<Message>, m: Message)
    ensures multiset(Fitting(p, more))[m] <= multiset(more)[m]
  {
    if !Full(p) {
      var n := Least(|more|, p.capacity - |p.mailbox|);
      assert more == more[..n] + more[n..];
    }
  }

  lemma FittingAdded(s: Sched, u: Sched, q: Pid, more: seq<Message>, m: Message)
    requires q in s.procs && q in u.procs && u.procs[q].mailbox == s.procs[q].mailbox + Fitting(s.procs[q], more)
    ensures Added(s, u, q, m) == multiset(Fitting(s.procs[q], more))[m]
  {
    assert u.procs[q].mailbox[|s.procs[q].mailbox|..] == Fitting(s.procs[q], more);
  }

  /** Until the watchers are told, a death adds nothing but exits. */
  lemma ExitsOnly(s: Sched, p: Pid, reason: Reason, woken: Sched, w: Pid, r: Ref)
    requires p in s.procs && w in s.procs && w != p && w in woken.procs && woken.procs == Gone(s, p, reason).0.procs
    requires |s.procs[w].mailbox| <= |woken.procs[w].mailbox|
    ensures Added(s, woken, w, Down(r, p, reason)) == 0
  {
    hide NotifyLinks, DropTargets, DropWatchers;
    var news := woken.procs[w].mailbox[|s.procs[w].mailbox|..];
    forall i | 0 <= i < |news| ensures news[i] != Down(r, p, reason) {
      GoneAdds(s, p, reason, w, |s.procs[w].mailbox| + i);
    }
    assert Down(r, p, reason) !in news;
  }

  lemma {:induction false} TerminateNotifiesOnce(s: Sched, p: Pid, reason: Reason, except: set<Pid>, w: Pid, r: Ref,
                                                 x: Pid)
    requires Inv(s, except) && Watches(s.procs, w, r, x) && w in Terminate(s, p, reason).procs
    ensures var u := Terminate(s, p, reason);
            s.procs[w].mailbox <= u.procs[w].mailbox && Added(s, u, w, Down(r, x, reason)) <= 1
    decreases s.procs.Keys, 0, 0
  {
    hide Grown, Inv, Kill, MonitorsFollow, Added;
    var u := Terminate(s, p, reason);
    TerminateGrows(s, p, reason);
    GrownMailbox(s, u, w);
    if p in s.procs {
      var (k, cascade) := Kill(s, p, reason);
      KillShape(s, p, reason);
      KillGrows(s, p, reason);
      KillKeepsInv(s, p, reason, except);
      TerminateAllGrows(k, cascade, reason);
      GrownMailbox(k, u, w);
      GrownMailbox(s, k, w);
      AddedTrans(s, k, u, w, Down(r, x, reason));
      if x == p {
        KillNotifiesOnce(s, p, reason, except, w, r);
        AllGetOnlyNotices(k, cascade, reason, except, w);
        NothingAdded(k, u, w, reason, Down(r, x, reason));
      } else {
        WatchedToo(s, except, w, r, x);
        KillNotices(s, p, reason, except, w);
        NothingAdded(s, k, w, reason, Down(r, x, reason));
        TerminateAllNotifiesOnce(k, cascade, reason, except, w, r, x);
      }
    } else {
      NothingNew(s, w, Down(r, x, reason));
    }
  }

  lemma NothingNew(s: Sched, w: Pid, m: Message)
    requires w in s.procs
    ensures Added(s, s, w, m) == 0
  {}

  /** What is no notice between `s` and `u` is not added. */
  lemma NothingAdded(s: Sched, u: Sched, w: Pid, reason: Reason, m: Message)
    requires OnlyNotices(s, u, w, reason) && |s.procs[w].mailbox| <= |u.procs[w].mailbox| && !Notice(s, u, w, reason, m)
    ensures Added(s, u, w, m) == 0
  {
    var news := u.procs[w].mailbox[|s.procs[w].mailbox|..];
    forall i | 0 <= i < |news| ensures news[i] != m {
      assert Notice(s, u, w, reason, u.procs[w].mailbox[|s.procs[w].mailbox| + i]);
    }
    assert m !in news;
  }

  lemma {:induction false} TerminateAllNotifiesOnce(s: Sched, ps: seq<Pid>, reason: Reason, except: set<Pid>, w: Pid,
                                                    r: Ref, x: Pid)
    requires Inv(s, except) && Watches(s.procs, w, r, x) && w in TerminateAll(s, ps, reason).procs
    ensures var u := TerminateAll(s, ps, reason);
            s.procs[w].mailbox <= u.procs[w].mailbox && Added(s, u, w, Down(r, x, reason)) <= 1
    decreases s.procs.Keys, 1, |ps|
  {
    hide Grown, Inv, Terminate, MonitorsFollow, Added;
    var u := TerminateAll(s, ps, reason);
    TerminateAllGrows(s, ps, reason);
    GrownMailbox(s, u, w);
    if ps == [] {
      NothingNew(s, w, Down(r, x, reason));
    } else {
      var m := Terminate(s, ps[0], reason);
      TerminateKeeps(s, ps[0], reason, except);
      TerminateGrows(s, ps[0], reason);
      TerminateAllGrows(m, ps[1..], reason);
      GrownMailbox(m, u, w);
      GrownMailbox(s, m, w);
      AddedTrans(s, m, u, w, Down(r, x, reason));
      FollowedMonitor(s, m, w, r, x);
      if x in m.procs {
        SurvivorsGetOnlyNotices(s, ps[0], reason, except, w);
        NothingAdded(s, m, w, reason, Down(r, x, reason));
        TerminateAllNotifiesOnce(m, ps[1..], reason, except, w, r, x);
      } else {
        TerminateNotifiesOnce(s, ps[0], reason, except, w, r, x);
        AllGetOnlyNotices(m, ps[1..], reason, except, w);
        NothingAdded(m, u, w, reason, Down(r, x, reason));
      }
    }
  }

  lemma FollowedMonitor(s: Sched, m: Sched, w: Pid, r: Ref, x: Pid)
    requires MonitorsFollow(s, m) && Watches(s.procs, w, r, x) && w in m.procs
    ensures Watches(m.procs, w, r, x) <==> x in m.procs
  {}

  /** The DOWN notice of a monitor whose target dies in a cascade is put into the mailbox of a surviving watcher
      exactly once, unless that is full in the end; then at most once. */
  lemma DownArrivesOnce(s: Sched, p: Pid, reason: Reason, except: set<Pid>, w: Pid, r: Ref, x: Pid)
    requires Inv(s, except) && Watches(s.procs, w, r, x)
    requires w in Terminate(s, p, reason).procs && x !in Terminate(s, p, reason).procs
    ensures var u := Terminate(s, p, reason);
            && |s.procs[w].mailbox| <= |u.procs[w].mailbox| && Added(s, u, w, Down(r, x, reason)) <= 1
            && (!Full(u.procs[w]) ==> Added(s, u, w, Down(r, x, reason)) == 1)
  {
    hide Inv, Terminate;
    TerminateNotifiesOnce(s, p, reason, except, w, r, x);
    DownReachesWatcher(s, p, reason, except, w, r, x);
  }
}
