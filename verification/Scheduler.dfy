/** The scheduler's state and its operations as functions, with the invariants every one of them keeps. */
module Scheduling {
  import opened Common
  import opened Queues
  import opened Processes

  /** `enqueued` and `downs` are histories: the pids ever put in a run queue while alive, and the
      references of the DOWN notices handed to `send`. */
  datatype Sched = Sched(
    procs: Table,
    queues: RunQueues,
    external: bool,
    outbound: seq<(Pid, Message)>,
    nextPid: Pid,
    nextRef: Ref,
    enqueued: set<Pid>,
    downs: seq<Ref>)

  const EMPTY: Sched := Sched(map[], RunQueues([], [], [], 0), false, [], 0x8000_0000, 1, {}, [])

  function Enqueue(s: Sched, p: Pid): Sched {
    if p in s.procs then s.(queues := Push(s.queues, s.procs[p].priority, p), enqueued := s.enqueued + {p}) else s
  }

  function EnqueueAll(s: Sched, ps: seq<Pid>): Sched
    decreases |ps|
  {
    if ps == [] then s else EnqueueAll(Enqueue(s, ps[0]), ps[1..])
  }

  /** `send` reports an error exactly when the mailbox is full or nobody takes the message. */
  predicate Accepts(s: Sched, to: Pid) {
    if to in s.procs then !Full(s.procs[to]) else s.external
  }

  function Send(s: Sched, to: Pid, m: Message): Sched {
    if !Accepts(s, to) then s
    else if to in s.procs then
      var woken := s.(procs := s.procs[to := Deliver(s.procs[to], m)]);
      if s.procs[to].status == Waiting then Enqueue(woken, to) else woken
    else s.(outbound := s.outbound + [(to, m)])
  }

  function SendAll(s: Sched, ms: seq<(Pid, Message)>): Sched
    decreases |ms|
  {
    if ms == [] then s else SendAll(Send(s, ms[0].0, ms[0].1), ms[1..])
  }

  /** Tells the processes linked to a dead `p`: the table afterwards, those woken, those to die as well. */
  function NotifyLinks(t: Table, links: seq<Pid>, p: Pid, r: Reason): (Table, seq<Pid>, seq<Pid>)
    decreases |links|
  {
    if links == [] then (t, [], [])
    else
      var l := links[0];
      if l !in t then NotifyLinks(t, links[1..], p, r)
      else if t[l].trapExit then
        var (u, wakes, cascade) := NotifyLinks(t[l := Deliver(t[l], Exit(p, r))], links[1..], p, r);
        (u, (if t[l].status == Waiting then [l] else []) + wakes, cascade)
      else
        var (u, wakes, cascade) := NotifyLinks(t, links[1..], p, r);
        (u, wakes, (if r != NormalExit then [l] else []) + cascade)
  }

  function Refs(l: seq<(Ref, Pid)>): seq<Ref> {
    if l == [] then [] else [l[0].0] + Refs(l[1..])
  }

  function DownNotices(l: seq<(Ref, Pid)>, p: Pid, r: Reason): seq<(Pid, Message)> {
    if l == [] then [] else [(l[0].1, Down(l[0].0, p, r))] + DownNotices(l[1..], p, r)
  }

  /** The death of one process, up to the cascade: the state then, and who has to die with it. */
  function Kill(s: Sched, p: Pid, r: Reason): (k: (Sched, seq<Pid>))
    requires p in s.procs
  {
    var dying := s.procs[p];
    var (told, wakes, cascade) := NotifyLinks(DropTargets(s.procs - {p}, dying.monitors, p), dying.links, p, r);
    var gone := s.(procs := DropWatchers(told, dying.monitoredBy, p), downs := s.downs + Refs(dying.monitoredBy));
    (SendAll(EnqueueAll(gone, wakes), DownNotices(dying.monitoredBy, p, r)), cascade)
  }

  // ---- Invariants ----

  /** No process outside `except` is without state, or runnable, once enqueued, but in no queue. */
  ghost predicate Healthy(s: Sched, except: set<Pid>) {
    forall p :: p in s.procs && p !in except ==>
      s.procs[p].hasState && (s.procs[p].status == Runnable && p in s.enqueued ==> Queued(s.queues, p))
  }

  /** No reference was announced twice, and none that was announced is still in use. */
  ghost predicate DownsOk(s: Sched) {
    forall r :: multiset(s.downs)[r] <= 1 && (r in s.downs ==> r < s.nextRef && !Active(s.procs, r))
  }

  ghost predicate Orderly(s: Sched) {
    && TablesOk(s.procs, s.nextRef)
    && DownsOk(s)
    && (forall p :: p in s.procs || p in s.enqueued ==> p < s.nextPid)
    && OnlyEnqueued(s)
  }

  /** The queues hold nothing that was not put there by `enqueue`. */
  ghost predicate OnlyEnqueued(s: Sched) {
    forall p: Pid :: Queued(s.queues, p) ==> p in s.enqueued
  }

  ghost predicate Inv(s: Sched, except: set<Pid>) {
    Healthy(s, except) && Orderly(s)
  }

  /** What sends and wake-ups may change: mailboxes, statuses, queues, outbound messages. */
  ghost predicate Traffic(s: Sched, u: Sched) {
    && SameTable(s.procs, u.procs)
    && u.nextPid == s.nextPid && u.nextRef == s.nextRef && u.downs == s.downs
    && s.enqueued <= u.enqueued && u.enqueued <= s.enqueued + s.procs.Keys
    && (OnlyEnqueued(s) ==> OnlyEnqueued(u))
  }

  lemma TrafficTrans(s: Sched, m: Sched, u: Sched)
    requires Traffic(s, m) && Traffic(m, u)
    ensures Traffic(s, u)
  {}

  lemma TrafficKeepsTables(s: Sched, u: Sched)
    requires Traffic(s, u) && TablesOk(s.procs, s.nextRef) && DownsOk(s)
    ensures TablesOk(u.procs, u.nextRef) && DownsOk(u)
    ensures forall w, r, x :: Watches(s.procs, w, r, x) <==> Watches(u.procs, w, r, x)
  {
    TablesRespectWiring(s.procs, u.procs, s.nextRef);
    forall r: Ref | Active(u.procs, r) ensures Active(s.procs, r) {
      var w, x :| Watches(u.procs, w, r, x);
      assert Watches(s.procs, w, r, x);
    }
  }

  lemma TrafficKeepsInv(s: Sched, u: Sched, except: set<Pid>)
    requires Traffic(s, u) && Orderly(s) && Healthy(u, except)
    ensures Inv(u, except)
  {
    TrafficKeepsTables(s, u);
    assert u.procs.Keys == s.procs.Keys;
  }

  lemma PushQueues(q: RunQueues, lane: Priority, p: Pid)
    ensures forall x: Pid :: Queued(Push(q, lane, p), x) <==> Queued(q, x) || x == p
  {}

  lemma EnqueueKeeps(s: Sched, p: Pid, except: set<Pid>)
    requires Healthy(s, except)
    ensures Traffic(s, Enqueue(s, p)) && Healthy(Enqueue(s, p), except)
    ensures p in s.procs ==> Healthy(Enqueue(s, p), except - {p}) || !s.procs[p].hasState
  {}

  lemma SendKeeps(s: Sched, to: Pid, m: Message, except: set<Pid>)
    requires Healthy(s, except)
    ensures Traffic(s, Send(s, to, m)) && Healthy(Send(s, to, m), except)
  {
    if to in s.procs && Accepts(s, to) {
      var woken := s.(procs := s.procs[to := Deliver(s.procs[to], m)]);
      if s.procs[to].status == Waiting {
        assert Healthy(woken, except + {to});
        EnqueueKeeps(woken, to, except + {to});
        PushQueues(woken.queues, s.procs[to].priority, to);
      }
    }
  }

  lemma {:induction false} SendAllKeeps(s: Sched, ms: seq<(Pid, Message)>, except: set<Pid>)
    requires Healthy(s, except)
    ensures Traffic(s, SendAll(s, ms)) && Healthy(SendAll(s, ms), except)
    decreases |ms|
  {
    if ms != [] {
      var next := Send(s, ms[0].0, ms[0].1);
      SendKeeps(s, ms[0].0, ms[0].1, except);
      SendAllKeeps(next, ms[1..], except);
      TrafficTrans(s, next, SendAll(next, ms[1..]));
    }
  }

  /** Enqueueing everything in `ps` heals whatever was only lost there. */
  lemma {:induction false} EnqueueAllHeals(s: Sched, ps: seq<Pid>, except: set<Pid>)
    requires forall p :: p in s.procs && p !in except ==> s.procs[p].hasState
    requires Healthy(s, except + set p | p in ps)
    ensures Traffic(s, EnqueueAll(s, ps)) && Healthy(EnqueueAll(s, ps), except)
    decreases |ps|
  {
    if ps != [] {
      var next := Enqueue(s, ps[0]);
      EnqueueKeeps(s, ps[0], except + set p | p in ps);
      assert ps == [ps[0]] + ps[1..];
      if ps[0] in s.procs {
        PushQueues(s.queues, s.procs[ps[0]].priority, ps[0]);
      }
      assert Healthy(next, except + set p | p in ps[1..]);
      EnqueueAllHeals(next, ps[1..], except);
      TrafficTrans(s, next, EnqueueAll(next, ps[1..]));
    }
  }

  /** Links decide: trapping processes get a message and are woken, the others die unless the exit is normal. */
  lemma {:induction false} NotifyShape(t: Table, links: seq<Pid>, p: Pid, r: Reason)
    ensures var (u, wakes, cascade) := NotifyLinks(t, links, p, r);
            && SameTable(t, u)
            && (forall q :: q in t && u[q].status == Runnable ==> t[q].status == Runnable || q in wakes)
            && (forall q :: q in wakes ==> q in links && q in t && t[q].trapExit && t[q].status == Waiting)
            && (forall q :: q in cascade <==> q in links && q in t && !t[q].trapExit && r != NormalExit)
            && (r == NormalExit ==> cascade == [])
    decreases |links|
  {
    if links != [] {
      var l := links[0];
      var next := if l in t && t[l].trapExit then t[l := Deliver(t[l], Exit(p, r))] else t;
      NotifyShape(next, links[1..], p, r);
      assert links == [l] + links[1..];
      var (u, wakes, cascade) := NotifyLinks(next, links[1..], p, r);
      forall q | q in t ensures SameWiring(t[q], u[q]) {
        assert SameWiring(next[q], u[q]);
      }
    }
  }

  lemma {:induction false} RefsOnce(l: seq<(Ref, Pid)>)
    requires NoRepeats(l) && forall r, w, w' :: (r, w) in l && (r, w') in l ==> w == w'
    ensures forall r :: multiset(Refs(l))[r] <= 1
    ensures forall r :: r in Refs(l) <==> exists w :: (r, w) in l
  {
    if l != [] {
      assert l == [l[0]] + l[1..];
      forall e ensures multiset(l[1..])[e] <= 1 {
        assert multiset(l)[e] <= 1;
      }
      RefsOnce(l[1..]);
      assert multiset(l)[l[0]] <= 1 && l[0] !in l[1..];
      forall w ensures (l[0].0, w) !in l[1..] {
        assert (l[0].0, l[0].1) in l;
      }
      assert l[0].0 !in Refs(l[1..]);
      assert Refs(l) == [l[0].0] + Refs(l[1..]);
    }
  }

  // ---- Spawning, linking, monitoring ----

  /** `AgentRegistry::spawn` when `init` succeeds: pids are never reused. */
  function Spawn(s: Sched): Sched {
    s.(procs := s.procs[s.nextPid := NewProcess()], nextPid := s.nextPid + 1)
  }

  /** A behaviour that fails to initialise still uses up a pid. */
  function PassPid(s: Sched): Sched {
    s.(nextPid := s.nextPid + 1)
  }

  /** Spawning at a priority and queueing, as supervisors do. */
  function SpawnAt(s: Sched, lane: Priority, starts: bool): Sched {
    if !starts then PassPid(s)
    else
      var born := Spawn(s);
      Enqueue(born.(procs := born.procs[s.nextPid := born.procs[s.nextPid].(priority := lane)]), s.nextPid)
  }

  function AddLink(s: Sched, p: Pid, q: Pid): Sched {
    if p in s.procs then s.(procs := s.procs[p := s.procs[p].(links := s.procs[p].links + [q])]) else s
  }

  function Monitor(s: Sched, watcher: Pid, target: Pid): Sched
    requires watcher in s.procs && target in s.procs
  {
    var t1 := s.procs[watcher := s.procs[watcher].(monitors := s.procs[watcher].monitors + [(s.nextRef, target)])];
    var t2 := t1[target := t1[target].(monitoredBy := t1[target].monitoredBy + [(s.nextRef, watcher)])];
    s.(procs := t2, nextRef := s.nextRef + 1)
  }

  /** `iter().position(|(r, _)| r == ref)`. */
  function Position(l: seq<(Ref, Pid)>, r: Ref): (pos: Option<nat>)
    ensures pos.Some? ==> pos.value < |l| && l[pos.value].0 == r
    ensures pos.None? ==> forall e :: e in l ==> e.0 != r
  {
    if l == [] then None
    else if l[0].0 == r then Some(0)
    else
      var rest := Position(l[1..], r);
      if rest.Some? then Some(rest.value + 1) else None
  }

  function Demonitor(s: Sched, watcher: Pid, r: Ref): (bool, Sched) {
    if watcher !in s.procs then (false, s)
    else
      var l := s.procs[watcher].monitors;
      var pos := Position(l, r);
      if pos.None? then (false, s)
      else
        var target := l[pos.value].1;
        var t1 := s.procs[watcher := s.procs[watcher].(monitors := SwapRemove(l, pos.value))];
        var t2 := if target !in t1 then t1
                  else t1[target := t1[target].(monitoredBy := Forget(t1[target].monitoredBy, (r, watcher)))];
        (true, s.(procs := t2))
  }

  /** Whatever happens later: old notices stay, and a reference that is out of use is never announced or reused. */
  ghost predicate Evolves(s: Sched, u: Sched) {
    && s.nextRef <= u.nextRef && s.nextPid <= u.nextPid && s.downs <= u.downs
    && forall r: Ref :: r < s.nextRef && !Active(s.procs, r) ==>
         !Active(u.procs, r) && (r in u.downs ==> r in s.downs)
  }

  lemma EvolvesTrans(s: Sched, m: Sched, u: Sched)
    requires Evolves(s, m) && Evolves(m, u)
    ensures Evolves(s, u)
  {}

  lemma TrafficEvolves(s: Sched, u: Sched)
    requires Traffic(s, u) && TablesOk(s.procs, s.nextRef) && DownsOk(s)
    ensures Evolves(s, u)
  {
    TrafficKeepsTables(s, u);
    forall r: Ref | Active(u.procs, r) ensures Active(s.procs, r) {
      var w, x :| Watches(u.procs, w, r, x);
      assert Watches(s.procs, w, r, x);
    }
  }

  /** Changes that keep every process's monitor lists, fault handling and queueing as they are. */
  lemma RewireKeepsInv(s: Sched, t: Table, except: set<Pid>)
    requires Inv(s, except) && SameMonitors(s.procs, t)
    requires forall q :: q in t && q !in except ==>
               t[q].hasState && (t[q].status == Runnable ==> s.procs[q].status == Runnable)
    ensures Inv(s.(procs := t), except) && Evolves(s, s.(procs := t))
  {
    TablesRespectMonitors(s.procs, t, s.nextRef);
    var u := s.(procs := t);
    forall r: Ref | Active(t, r) ensures Active(s.procs, r) {
      var w, x :| Watches(t, w, r, x);
      assert Watches(s.procs, w, r, x);
    }
  }

  lemma SpawnKeepsInv(s: Sched, except: set<Pid>)
    requires Inv(s, except)
    ensures Inv(Spawn(s), except) && Evolves(s, Spawn(s))
  {
    var u := Spawn(s);
    forall w, r, x ensures Watches(u.procs, w, r, x) <==> Watches(s.procs, w, r, x)
                   ensures WatchedBy(u.procs, w, r, x) <==> WatchedBy(s.procs, w, r, x) {}
    assert UniqueRefs(u.procs);
    forall r: Ref | Active(u.procs, r) ensures Active(s.procs, r) {
      var w, x :| Watches(u.procs, w, r, x);
      assert Watches(s.procs, w, r, x);
    }
  }

  lemma PassPidKeepsInv(s: Sched, except: set<Pid>)
    requires Inv(s, except)
    ensures Inv(PassPid(s), except) && Evolves(s, PassPid(s))
  {
    hide TablesOk;
  }

  lemma MonitorPairs(s: Sched, watcher: Pid, target: Pid)
    requires watcher in s.procs && target in s.procs
    ensures var u := Monitor(s, watcher, target).procs;
            && (forall w: Pid, r: Ref, x: Pid :: Watches(u, w, r, x) <==>
                                  Watches(s.procs, w, r, x) || (w, r, x) == (watcher, s.nextRef, target))
            && (forall w: Pid, r: Ref, x: Pid :: WatchedBy(u, x, r, w) <==>
                                  WatchedBy(s.procs, x, r, w) || (w, r, x) == (watcher, s.nextRef, target))
  {}

  lemma MonitorTables(s: Sched, watcher: Pid, target: Pid)
    requires TablesOk(s.procs, s.nextRef) && watcher in s.procs && target in s.procs
    ensures TablesOk(Monitor(s, watcher, target).procs, s.nextRef + 1)
  {
    hide NoRepeats;
    var u := Monitor(s, watcher, target).procs;
    MonitorPairs(s, watcher, target);
    forall w, r: Ref, x | Watches(s.procs, w, r, x) ensures r < s.nextRef {
      assert Active(s.procs, r);
    }
    forall w | w in u ensures NoRepeats(u[w].monitors) && NoRepeats(u[w].monitoredBy) {
      MonitorNoRepeats(s, watcher, target, w);
    }
    forall r: Ref | Active(u, r) ensures r < s.nextRef + 1 {
      var w, x :| Watches(u, w, r, x);
    }
  }

  /** New monitor tables that use no reference that was out of use. */
  lemma NewTablesKeepInv(s: Sched, t: Table, next: Ref, except: set<Pid>)
    requires Inv(s, except) && TablesOk(t, next) && s.nextRef <= next && t.Keys == s.procs.Keys
    requires forall q :: q in t ==> t[q].hasState == s.procs[q].hasState && t[q].status == s.procs[q].status
    requires forall r: Ref :: Active(t, r) && r < s.nextRef ==> Active(s.procs, r)
    ensures Inv(s.(procs := t, nextRef := next), except) && Evolves(s, s.(procs := t, nextRef := next))
  {
    hide TablesOk, Active;
  }

  lemma MonitorShape(s: Sched, watcher: Pid, target: Pid)
    requires watcher in s.procs && target in s.procs
    ensures var u := Monitor(s, watcher, target);
            && u == s.(procs := u.procs, nextRef := s.nextRef + 1) && u.procs.Keys == s.procs.Keys
            && forall q :: q in u.procs ==> u.procs[q].hasState == s.procs[q].hasState
                                            && u.procs[q].status == s.procs[q].status
  {}

  /** A new reference joins exactly one watcher to one target. */
  lemma MonitorKeepsInv(s: Sched, watcher: Pid, target: Pid, except: set<Pid>)
    requires Inv(s, except) && watcher in s.procs && target in s.procs
    ensures Inv(Monitor(s, watcher, target), except) && Evolves(s, Monitor(s, watcher, target))
    ensures Watches(Monitor(s, watcher, target).procs, watcher, s.nextRef, target)
  {
    hide Monitor, Evolves, Inv, TablesOk, Active, Watches;
    InvTables(s, except);
    MonitorPairs(s, watcher, target);
    MonitorTables(s, watcher, target);
    MonitorShape(s, watcher, target);
    MonitorActive(s, watcher, target);
    NewTablesKeepInv(s, Monitor(s, watcher, target).procs, s.nextRef + 1, except);
  }

  lemma InvTables(s: Sched, except: set<Pid>)
    requires Inv(s, except)
    ensures TablesOk(s.procs, s.nextRef)
  {}

  lemma MonitorActive(s: Sched, watcher: Pid, target: Pid)
    requires watcher in s.procs && target in s.procs
    ensures forall r: Ref :: Active(Monitor(s, watcher, target).procs, r) && r < s.nextRef ==> Active(s.procs, r)
  {
    hide Watches, Monitor;
    MonitorPairs(s, watcher, target);
    var u := Monitor(s, watcher, target);
    forall r: Ref | Active(u.procs, r) && r < s.nextRef ensures Active(s.procs, r) {
      var w, x :| Watches(u.procs, w, r, x);
      assert Watches(s.procs, w, r, x);
    }
  }

  lemma MonitorNoRepeats(s: Sched, watcher: Pid, target: Pid, w: Pid)
    requires TablesOk(s.procs, s.nextRef) && watcher in s.procs && target in s.procs && w in s.procs
    ensures var u := Monitor(s, watcher, target);
            NoRepeats(u.procs[w].monitors) && NoRepeats(u.procs[w].monitoredBy)
  {
    hide NoRepeats;
    assert !Active(s.procs, s.nextRef);
    assert !Watches(s.procs, w, s.nextRef, target);
    assert !WatchedBy(s.procs, w, s.nextRef, watcher) by {
      assert !Watches(s.procs, watcher, s.nextRef, w);
    }
    AppendNoRepeats(s.procs[w].monitors, (s.nextRef, target));
    AppendNoRepeats(s.procs[w].monitoredBy, (s.nextRef, watcher));
  }

  lemma DemonitorPairs(s: Sched, watcher: Pid, r: Ref)
    requires TablesOk(s.procs, s.nextRef) && Demonitor(s, watcher, r).0
    ensures var u := Demonitor(s, watcher, r).1.procs;
            && (forall w, q, x :: Watches(u, w, q, x) <==> Watches(s.procs, w, q, x) && q != r)
            && (forall w, q, x :: WatchedBy(u, x, q, w) <==> WatchedBy(s.procs, x, q, w) && q != r)
  {
    hide NoRepeats, SwapRemove, Forget, Position;
    var l := s.procs[watcher].monitors;
    var pos := Position(l, r).value;
    var target := l[pos].1;
    var u := Demonitor(s, watcher, r).1.procs;
    assert l[pos] in l && Watches(s.procs, watcher, r, target) && WatchedBy(s.procs, target, r, watcher);
    SwapRemoveForgets(l, pos);
    ForgetRemoves(s.procs[target].monitoredBy, (r, watcher));
    forall w, q, x ensures Watches(u, w, q, x) <==> Watches(s.procs, w, q, x) && q != r {
      assert Watches(s.procs, w, r, x) ==> w == watcher && x == target;
    }
    forall w, q, x ensures WatchedBy(u, x, q, w) <==> WatchedBy(s.procs, x, q, w) && q != r {
      assert WatchedBy(s.procs, x, r, w) ==> w == watcher && x == target;
    }
  }

  lemma DemonitorTables(s: Sched, watcher: Pid, r: Ref)
    requires TablesOk(s.procs, s.nextRef) && Demonitor(s, watcher, r).0
    ensures TablesOk(Demonitor(s, watcher, r).1.procs, s.nextRef)
  {
    var u := Demonitor(s, watcher, r).1.procs;
    DemonitorPairs(s, watcher, r);
    forall w | w in u ensures NoRepeats(u[w].monitors) && NoRepeats(u[w].monitoredBy) {
      DemonitorNoRepeats(s, watcher, r, w);
    }
    forall q: Ref | Active(u, q) ensures q < s.nextRef {
      var w, x :| Watches(u, w, q, x);
      assert Active(s.procs, q);
    }
  }

  lemma DemonitorShape(s: Sched, watcher: Pid, r: Ref)
    requires Demonitor(s, watcher, r).0
    ensures var u := Demonitor(s, watcher, r).1;
            && u == s.(procs := u.procs) && u.procs.Keys == s.procs.Keys
            && forall q :: q in u.procs ==> u.procs[q].hasState == s.procs[q].hasState
                                            && u.procs[q].status == s.procs[q].status
  {}

  lemma DemonitorActive(s: Sched, watcher: Pid, r: Ref)
    requires TablesOk(s.procs, s.nextRef) && Demonitor(s, watcher, r).0
    ensures Active(s.procs, r)
    ensures forall q: Ref :: Active(Demonitor(s, watcher, r).1.procs, q) ==> Active(s.procs, q) && q != r
  {
    var l := s.procs[watcher].monitors;
    var pos := Position(l, r).value;
    assert l[pos] in l && Watches(s.procs, watcher, r, l[pos].1);
    DemonitorPairs(s, watcher, r);
    forall q: Ref | Active(Demonitor(s, watcher, r).1.procs, q) ensures Active(s.procs, q) && q != r {
      var w, x :| Watches(Demonitor(s, watcher, r).1.procs, w, q, x);
      assert Watches(s.procs, w, q, x);
    }
  }

  /** `demonitor` takes the pair out of both tables and the reference out of use for good. */
  lemma DemonitorKeepsInv(s: Sched, watcher: Pid, r: Ref, except: set<Pid>)
    requires Inv(s, except)
    ensures var (found, u) := Demonitor(s, watcher, r);
            && Inv(u, except) && Evolves(s, u)
            && (found ==> !Active(u.procs, r) && r < u.nextRef && r !in u.downs)
  {
    if Demonitor(s, watcher, r).0 {
      DemonitorShape(s, watcher, r);
      DemonitorActive(s, watcher, r);
      DemonitorTables(s, watcher, r);
      hide Demonitor;
      NewTablesKeepInv(s, Demonitor(s, watcher, r).1.procs, s.nextRef, except);
    }
  }

  /** It finds the monitor exactly when this watcher holds it. */
  lemma DemonitorFinds(s: Sched, watcher: Pid, r: Ref)
    ensures Demonitor(s, watcher, r).0 <==> exists x :: Watches(s.procs, watcher, r, x)
  {
    if watcher in s.procs {
      var l := s.procs[watcher].monitors;
      if Position(l, r).Some? {
        assert l[Position(l, r).value] in l;
        assert Watches(s.procs, watcher, r, l[Position(l, r).value].1);
      }
    }
  }

  lemma DemonitorNoRepeats(s: Sched, watcher: Pid, r: Ref, w: Pid)
    requires TablesOk(s.procs, s.nextRef) && Demonitor(s, watcher, r).0 && w in s.procs
    ensures var u := Demonitor(s, watcher, r).1;
            w in u.procs && NoRepeats(u.procs[w].monitors) && NoRepeats(u.procs[w].monitoredBy)
  {
    var l := s.procs[watcher].monitors;
    var pos := Position(l, r).value;
    SwapRemoveRemoves(l, pos);
    assert NoRepeats(SwapRemove(l, pos)) by {
      forall e ensures multiset(SwapRemove(l, pos))[e] <= 1 {
        assert multiset(l)[e] <= 1;
      }
    }
    ForgetRemoves(s.procs[w].monitoredBy, (r, watcher));
  }
}
