/** Supervisors: restart strategies, child order, and the restart intensity limit. */
module Supervision {
  import opened Common
  import Graph
  import opened Queues
  import opened Processes
  import opened Scheduling
  import opened Cascades
  import opened AgentSchedulers
  import Cycles
  import R = RateLimiters
  import Runs = SchedulerRuns

  datatype Strategy = OneForOne | OneForAll | RestForOne

  datatype ChildRestart = Permanent | Transient | Temporary

  datatype ChildSpec = ChildSpec(id: nat, restart: ChildRestart, priority: Priority)

  datatype RunningChild = RunningChild(pid: Pid, spec: ChildSpec)

  /** Whether `init` of the process that would get this pid succeeds. */
  type Starts = Pid -> bool

  function Specs(children: seq<RunningChild>): (specs: seq<ChildSpec>)
    ensures |specs| == |children|
  {
    if children == [] then [] else [children[0].spec] + Specs(children[1..])
  }

  function Ids(specs: seq<ChildSpec>): seq<nat> {
    if specs == [] then [] else [specs[0].id] + Ids(specs[1..])
  }

  function ChildIds(children: seq<RunningChild>): seq<nat> {
    Ids(Specs(children))
  }

  /** A pid is used up whether or not the process starts. */
  function StartChild(s: Sched, spec: ChildSpec, starts: Starts): (Sched, Option<RunningChild>) {
    (SpawnAt(s, spec.priority, starts(s.nextPid)),
     if starts(s.nextPid) then Some(RunningChild(s.nextPid, spec)) else None)
  }

  /** Spawns in order; children that do not start are left out. */
  function StartChildren(s: Sched, specs: seq<ChildSpec>, starts: Starts): (Sched, seq<RunningChild>)
    decreases |specs|
  {
    if specs == [] then (s, [])
    else
      var (next, child) := StartChild(s, specs[0], starts);
      var (last, rest) := StartChildren(next, specs[1..], starts);
      (last, (if child.Some? then [child.value] else []) + rest)
  }

  /** The pids to terminate: all but the one that is already dead. */
  function Others(children: seq<RunningChild>, dead: Pid): seq<Pid> {
    if children == [] then []
    else (if children[0].pid != dead then [children[0].pid] else []) + Others(children[1..], dead)
  }

  /** Restarting what is at and after `from`: terminate it, except the dead child, and spawn it anew. */
  function RestartFrom(s: Sched, children: seq<RunningChild>, from: nat, dead: Pid, starts: Starts)
      : (Sched, seq<RunningChild>)
    requires from <= |children|
  {
    var (after, started) := StartChildren(TerminateAll(s, Others(children[from..], dead), ShutdownExit),
                                         Specs(children[from..]), starts);
    (after, children[..from] + started)
  }

  function RestartOne(s: Sched, children: seq<RunningChild>, idx: nat, starts: Starts): (Sched, seq<RunningChild>)
    requires idx < |children|
  {
    var (after, child) := StartChild(s, children[idx].spec, starts);
    (after, children[..idx] + (if child.Some? then [child.value] else []) + children[idx + 1..])
  }

  function Restart(st: Strategy, s: Sched, children: seq<RunningChild>, idx: nat, starts: Starts)
      : (Sched, seq<RunningChild>)
    requires idx < |children|
  {
    match st
    case OneForOne => RestartOne(s, children, idx, starts)
    case OneForAll => RestartFrom(s, children, 0, children[idx].pid, starts)
    case RestForOne => RestartFrom(s, children, idx, children[idx].pid, starts)
  }

  /** A child that starts is a fresh process at its spec's priority, waiting in the queue of that priority. */
  lemma ChildStarts(s: Sched, spec: ChildSpec, starts: Starts)
    ensures var (u, child) := StartChild(s, spec, starts);
            && (child.Some? <==> starts(s.nextPid)) && u.nextPid == s.nextPid + 1
            && (child.Some? ==>
                  && child == Some(RunningChild(s.nextPid, spec)) && s.nextPid in u.procs
                  && u.procs[s.nextPid] == NewProcess().(priority := spec.priority)
                  && Lane(u.queues, spec.priority) == Lane(s.queues, spec.priority) + [s.nextPid])
            && forall q :: q in s.procs && q != s.nextPid ==> q in u.procs && u.procs[q] == s.procs[q]
  {}

  // ---- Child order ----

  lemma {:induction false} IdsSplit(a: seq<ChildSpec>, b: seq<ChildSpec>)
    ensures Ids(a + b) == Ids(a) + Ids(b)
  {
    if a == [] {
      assert a + b == b;
    } else {
      assert (a + b)[0] == a[0] && (a + b)[1..] == a[1..] + b;
      IdsSplit(a[1..], b);
      Reassociate([a[0].id], Ids(a[1..]), Ids(b));
    }
  }

  lemma {:induction false} SpecsSplit(a: seq<RunningChild>, b: seq<RunningChild>)
    ensures Specs(a + b) == Specs(a) + Specs(b)
  {
    if a == [] {
      assert a + b == b;
    } else {
      assert (a + b)[0] == a[0] && (a + b)[1..] == a[1..] + b;
      SpecsSplit(a[1..], b);
      Reassociate([a[0].spec], Specs(a[1..]), Specs(b));
    }
  }

  lemma ChildIdsSplit(a: seq<RunningChild>, b: seq<RunningChild>)
    ensures ChildIds(a + b) == ChildIds(a) + ChildIds(b)
  {
    SpecsSplit(a, b);
    IdsSplit(Specs(a), Specs(b));
  }

  /** `StartChildren` yields children with new, distinct, live pids. Nobody else is touched. */
  lemma {:induction false} SpawnedPids(s: Sched, specs: seq<ChildSpec>, starts: Starts)
    ensures var (u, cs) := StartChildren(s, specs, starts);
            && s.nextPid <= u.nextPid
            && (forall i :: 0 <= i < |cs| ==> s.nextPid <= cs[i].pid < u.nextPid && cs[i].pid in u.procs)
            && (forall i, j :: 0 <= i < j < |cs| ==> cs[i].pid < cs[j].pid)
            && (forall q: Pid :: q < s.nextPid ==> (q in u.procs <==> q in s.procs))
    decreases |specs|
  {
    if specs != [] {
      var (next, child) := StartChild(s, specs[0], starts);
      SpawnedPids(next, specs[1..], starts);
      assert next.nextPid == s.nextPid + 1 && forall q: Pid :: q < s.nextPid ==> (q in next.procs <==> q in s.procs);
      assert child.Some? ==> child.value.pid == s.nextPid && s.nextPid in next.procs;
      hide StartChild;
    }
  }

  /** Their ids are in spec order, and all of them are there when every process starts. */
  lemma {:induction false} SpawnedIds(s: Sched, specs: seq<ChildSpec>, starts: Starts)
    ensures var (u, cs) := StartChildren(s, specs, starts);
            && Subsequence(ChildIds(cs), Ids(specs))
            && ((forall p :: starts(p)) ==> Specs(cs) == specs)
    decreases |specs|
  {
    if specs != [] {
      var (next, child) := StartChild(s, specs[0], starts);
      SpawnedIds(next, specs[1..], starts);
      var (u, rest) := StartChildren(next, specs[1..], starts);
      if child.Some? {
        assert ([child.value] + rest)[1..] == rest;
        assert specs == [specs[0]] + specs[1..];
      } else {
        assert [] + rest == rest;
        SubsequenceSkip(ChildIds(rest), specs[0].id, Ids(specs[1..]));
      }
    }
  }

  /** Whatever the strategy and whichever processes start, the child ids keep their order: they only drop out. */
  lemma RestartKeepsOrder(st: Strategy, s: Sched, children: seq<RunningChild>, idx: nat, starts: Starts)
    requires idx < |children|
    ensures Subsequence(ChildIds(Restart(st, s, children, idx, starts).1), ChildIds(children))
    ensures (forall p :: starts(p)) ==> ChildIds(Restart(st, s, children, idx, starts).1) == ChildIds(children)
  {
    match st
    case OneForOne => RestartOneOrder(s, children, idx, starts);
    case OneForAll => RestartFromOrder(s, children, 0, children[idx].pid, starts);
    case RestForOne => RestartFromOrder(s, children, idx, children[idx].pid, starts);
  }

  lemma RestartFromOrder(s: Sched, children: seq<RunningChild>, from: nat, dead: Pid, starts: Starts)
    requires from <= |children|
    ensures Subsequence(ChildIds(RestartFrom(s, children, from, dead, starts).1), ChildIds(children))
    ensures (forall p :: starts(p)) ==> ChildIds(RestartFrom(s, children, from, dead, starts).1) == ChildIds(children)
  {
    var mid := TerminateAll(s, Others(children[from..], dead), ShutdownExit);
    var (u, cs) := StartChildren(mid, Specs(children[from..]), starts);
    SpawnedIds(mid, Specs(children[from..]), starts);
    ChildIdsSplit(children[..from], cs);
    ChildIdsSplit(children[..from], children[from..]);
    assert children == children[..from] + children[from..];
    SubsequenceConcat(ChildIds(children[..from]), ChildIds(cs), ChildIds(children[from..]));
  }

  lemma RestartOneOrder(s: Sched, children: seq<RunningChild>, idx: nat, starts: Starts)
    requires idx < |children|
    ensures Subsequence(ChildIds(RestartOne(s, children, idx, starts).1), ChildIds(children))
    ensures (forall p :: starts(p)) ==> ChildIds(RestartOne(s, children, idx, starts).1) == ChildIds(children)
  {
    var (u, child) := StartChild(s, children[idx].spec, starts);
    var before, after := children[..idx], children[idx + 1..];
    assert children == before + ([children[idx]] + after);
    ChildIdsSplit(before, [children[idx]] + after);
    ChildIdsSplit([children[idx]], after);
    if child.Some? {
      assert RestartOne(s, children, idx, starts).1 == before + ([child.value] + after);
      ChildIdsSplit(before, [child.value] + after);
      ChildIdsSplit([child.value], after);
      SubsequenceRefl(ChildIds(children));
    } else {
      assert RestartOne(s, children, idx, starts).1 == before + after;
      ChildIdsSplit(before, after);
      SubsequenceRefl(ChildIds(after));
      SubsequenceSkip(ChildIds(after), children[idx].spec.id, ChildIds(after));
      SubsequenceConcat(ChildIds(before), ChildIds(after), [children[idx].spec.id] + ChildIds(after));
      DropKeepsOrder(children, idx);
    }
  }

  /** Removing a child keeps the order of the others. */
  lemma DropKeepsOrder(children: seq<RunningChild>, idx: nat)
    requires idx < |children|
    ensures Subsequence(ChildIds(children[..idx] + children[idx + 1..]), ChildIds(children))
  {
    var before, after := children[..idx], children[idx + 1..];
    assert children == before + ([children[idx]] + after);
    ChildIdsSplit(before, [children[idx]] + after);
    ChildIdsSplit([children[idx]], after);
    ChildIdsSplit(before, after);
    SubsequenceRefl(ChildIds(after));
    SubsequenceSkip(ChildIds(after), children[idx].spec.id, ChildIds(after));
    SubsequenceConcat(ChildIds(before), ChildIds(after), [children[idx].spec.id] + ChildIds(after));
  }

  // ---- Who is replaced, who survives ----

  /** All children are processes that the scheduler once issued. */
  predicate Known(children: seq<RunningChild>, s: Sched) {
    forall i :: 0 <= i < |children| ==> children[i].pid < s.nextPid
  }

  lemma {:induction false} OthersWhich(children: seq<RunningChild>, dead: Pid)
    ensures forall p :: p in Others(children, dead) <==> p != dead && exists i :: 0 <= i < |children| && children[i].pid == p
  {
    if children != [] {
      OthersWhich(children[1..], dead);
      assert children == [children[0]] + children[1..];
    }
  }

  /** OneForAll and RestForOne keep the children before `from`, replace all others by processes that did not
      exist before, and leave none of the replaced pids in the registry. A kept child survives exactly when no
      terminated sibling drags it along through links: then, and only then, is the prefix intact. */
  lemma RestartFromReplaces(s: Sched, children: seq<RunningChild>, from: nat, dead: Pid, starts: Starts)
    requires from <= |children| && dead !in s.procs && dead < s.nextPid
    requires forall i :: 0 <= i < |children| ==> children[i].pid < s.nextPid
    requires Inv(s, {})
    ensures var (u, cs) := RestartFrom(s, children, from, dead, starts);
            && from <= |cs| && cs[..from] == children[..from]
            && (forall i :: from <= i < |cs| ==> cs[i].pid >= s.nextPid && cs[i].pid in u.procs)
            && (forall i :: from <= i < |children| ==> children[i].pid !in u.procs)
            && (forall i :: 0 <= i < from ==>
                  (children[i].pid in u.procs <==>
                   children[i].pid in s.procs && !DraggedFrom(s.procs, Others(children[from..], dead), children[i].pid)))
  {
    var roots := Others(children[from..], dead);
    var mid := TerminateAll(s, roots, ShutdownExit);
    TerminateAllKeeps(s, roots, ShutdownExit, {});
    TerminateAllDrags(s, roots, ShutdownExit);
    SpawnedPids(mid, Specs(children[from..]), starts);
    OthersWhich(children[from..], dead);
    forall i | from <= i < |children| ensures children[i].pid !in mid.procs {
      assert children[from..][i - from].pid == children[i].pid;
      if children[i].pid != dead {
        assert children[i].pid in roots;
      }
    }
    forall i | 0 <= i < from && DraggedFrom(s.procs, roots, children[i].pid)
      ensures children[i].pid !in mid.procs {
      DraggedDies(s, roots, children[i].pid);
    }
  }

  lemma DraggedDies(s: Sched, roots: seq<Pid>, q: Pid)
    requires DraggedFrom(s.procs, roots, q)
    ensures q !in TerminateAll(s, roots, ShutdownExit).procs
  {
    var u := TerminateAll(s, roots, ShutdownExit).procs;
    TerminateAllDrags(s, roots, ShutdownExit);
    var p :| p in roots && (q == p || Graph.Reaches(LinkGraph(s.procs), p, q));
    if q != p {
      var w :| Graph.WalkFromTo(LinkGraph(s.procs), w, p, q);
      DeadAlong(s.procs, u, w);
    }
  }

  lemma {:induction false} SpecAt(children: seq<RunningChild>, k: nat)
    requires k < |children|
    ensures Specs(children)[k] == children[k].spec
  {
    if k > 0 {
      SpecAt(children[1..], k - 1);
    }
  }

  /** Which places a strategy fills anew when the child at `idx` has died. */
  predicate Replaces(st: Strategy, idx: nat, k: nat) {
    match st
    case OneForOne => k == idx
    case OneForAll => true
    case RestForOne => k >= idx
  }

  /** When every process starts, each spec keeps its place; exactly the children at the places that the strategy names
      are new processes, and those they stand in for are gone. */
  lemma StrategyReplaces(st: Strategy, s: Sched, children: seq<RunningChild>, idx: nat, starts: Starts)
    requires idx < |children| && Inv(s, {}) && Known(children, s) && children[idx].pid !in s.procs
    requires forall p :: starts(p)
    ensures var (u, cs) := Restart(st, s, children, idx, starts);
            && |cs| == |children|
            && (forall k: nat :: k < |cs| ==>
                  && cs[k].spec == children[k].spec
                  && if Replaces(st, idx, k)
                     then cs[k].pid >= s.nextPid && cs[k].pid in u.procs && children[k].pid !in u.procs
                     else cs[k] == children[k])
            && (st == OneForOne ==>
                  forall q: Pid :: q in s.procs && q < s.nextPid ==> q in u.procs && u.procs[q] == s.procs[q])
  {
    hide Inv, RestartFrom, RestartOne;
    match st
    case OneForOne => OneReplaced(s, children, idx, starts);
    case OneForAll => AllReplaced(s, children, 0, children[idx].pid, starts);
    case RestForOne => AllReplaced(s, children, idx, children[idx].pid, starts);
  }

  lemma OneReplaced(s: Sched, children: seq<RunningChild>, idx: nat, starts: Starts)
    requires idx < |children| && Known(children, s) && children[idx].pid !in s.procs && starts(s.nextPid)
    ensures var (u, cs) := RestartOne(s, children, idx, starts);
            && |cs| == |children| && cs[idx] == RunningChild(s.nextPid, children[idx].spec) && s.nextPid in u.procs
            && children[idx].pid !in u.procs
            && (forall k: nat :: k < |cs| && k != idx ==> cs[k] == children[k])
            && (forall q: Pid :: q in s.procs && q < s.nextPid ==> q in u.procs && u.procs[q] == s.procs[q])
  {
    assert children[idx].pid < s.nextPid;
    hide Known;
    var cs := RestartOne(s, children, idx, starts).1;
    assert cs == children[..idx] + [RunningChild(s.nextPid, children[idx].spec)] + children[idx + 1..];
  }

  lemma AllReplaced(s: Sched, children: seq<RunningChild>, from: nat, dead: Pid, starts: Starts)
    requires from <= |children| && Inv(s, {}) && Known(children, s) && dead !in s.procs && dead < s.nextPid
    requires forall p :: starts(p)
    ensures var (u, cs) := RestartFrom(s, children, from, dead, starts);
            && |cs| == |children| && cs[..from] == children[..from]
            && forall k: nat :: from <= k < |cs| ==>
                 && cs[k].spec == children[k].spec
                 && cs[k].pid >= s.nextPid && cs[k].pid in u.procs && children[k].pid !in u.procs
  {
    hide Inv, TerminateAll, StartChildren, Others, Specs;
    var rest := children[from..];
    var mid := TerminateAll(s, Others(rest, dead), ShutdownExit);
    var (u, cs) := RestartFrom(s, children, from, dead, starts);
    var started := StartChildren(mid, Specs(rest), starts).1;
    RestartFromReplaces(s, children, from, dead, starts);
    SpawnedIds(mid, Specs(rest), starts);
    forall k: nat | from <= k < |cs| ensures cs[k].spec == children[k].spec {
      SpecAt(started, k - from);
      SpecAt(rest, k - from);
    }
  }

  /** A process of its own: alive, linked to nobody, not trapping exits. */
  predicate Unlinked(s: Sched, p: Pid) {
    p in s.procs && s.procs[p].links == [] && !s.procs[p].trapExit
  }

  lemma ThreeStarted(s: Sched, specs: seq<ChildSpec>, starts: Starts)
    requires |specs| == 3 && forall p :: starts(p)
    ensures var (u, cs) := StartChildren(s, specs, starts);
            var p := s.nextPid;
            && cs == [RunningChild(p, specs[0]), RunningChild(p + 1, specs[1]), RunningChild(p + 2, specs[2])]
            && Unlinked(u, p) && Unlinked(u, p + 1) && Unlinked(u, p + 2)
  {
    var s1 := StartChild(s, specs[0], starts).0;
    var s2 := StartChild(s1, specs[1], starts).0;
    var s3 := StartChild(s2, specs[2], starts).0;
    assert specs[1..][0] == specs[1] && specs[1..][1..] == specs[2..] && specs[2..][0] == specs[2];
    assert specs[2..][1..] == [];
    assert StartChildren(s3, [], starts) == (s3, []);
    hide StartChild;
    assert StartChildren(s2, specs[2..], starts).1 == [RunningChild(s.nextPid + 2, specs[2])];
  }

  /** Three children start, the first and the third are linked, the second dies: RestForOne then keeps on its
      list a first child that its own shutdown of the third has killed. */
  lemma KeptChildCanDie(s: Sched, specs: seq<ChildSpec>, reason: Reason, starts: Starts)
    requires Inv(s, {}) && |specs| == 3 && forall p :: starts(p)
    ensures var (a, cs) := StartChildren(s, specs, starts);
            && |cs| == 3
            && var linked := Runs.Apply(a, Runs.DoLink(cs[0].pid, cs[2].pid));
               var (u, kept) := Restart(RestForOne, Terminate(linked, cs[1].pid, reason), cs, 1, starts);
               |kept| > 0 && kept[0] == cs[0] && cs[0].pid !in u.procs
  {
    hide StartChildren, Terminate, RestartFrom, Inv, Others, DraggedFrom, Runs.Apply;
    var (a, cs) := StartChildren(s, specs, starts);
    ThreeStarted(s, specs, starts);
    StartChildrenKeepsInv(s, specs, starts);
    SpawnedPids(s, specs, starts);
    var linked := Runs.Apply(a, Runs.DoLink(cs[0].pid, cs[2].pid));
    Runs.ApplyKeepsInv(a, Runs.DoLink(cs[0].pid, cs[2].pid));
    PairLinked(a, cs[0].pid, cs[1].pid, cs[2].pid);
    var d := Terminate(linked, cs[1].pid, reason);
    DeathKeeps(linked, cs[1].pid, reason);
    LinkedDrags(linked, cs[0].pid, cs[1].pid, cs[2].pid, reason);
    LastOther(cs[1..]);
    RestartFromReplaces(d, cs, 1, cs[1].pid, starts);
  }

  lemma DeathKeeps(s: Sched, p: Pid, reason: Reason)
    requires Inv(s, {})
    ensures Inv(Terminate(s, p, reason), {}) && s.nextPid <= Terminate(s, p, reason).nextPid
  {
    hide Inv, Terminate;
    Runs.ApplyKeepsInv(s, Runs.DoTerminate(p, reason));
  }

  lemma PairLinked(s: Sched, x: Pid, other: Pid, y: Pid)
    requires Unlinked(s, x) && Unlinked(s, other) && Unlinked(s, y) && x != y && x != other && y != other
    ensures var u := Runs.Apply(s, Runs.DoLink(x, y));
            && x in u.procs && y in u.procs && x in u.procs[y].links && !u.procs[x].trapExit && Unlinked(u, other)
  {}

  lemma LinkedDrags(s: Sched, x: Pid, dead: Pid, y: Pid, reason: Reason)
    requires x in s.procs && Unlinked(s, dead) && y in s.procs && x != dead && y != dead
    requires x in s.procs[y].links && !s.procs[x].trapExit
    ensures DraggedFrom(Terminate(s, dead, reason).procs, [y], x)
  {
    var d := Terminate(s, dead, reason);
    KillShape(s, dead, reason);
    var (k, cascade) := Kill(s, dead, reason);
    assert cascade == [];
    assert TerminateAll(k, [], reason) == k;
    LinkEdge(d.procs, y, x);
    Graph.EdgeReaches(LinkGraph(d.procs), y, x);
    assert y in [y];
  }

  lemma LastOther(cs: seq<RunningChild>)
    requires |cs| == 2 && cs[0].pid != cs[1].pid
    ensures Others(cs, cs[0].pid) == [cs[1].pid]
  {
    assert cs[1..][1..] == [];
    assert Others(cs[1..], cs[0].pid) == [cs[1].pid];
  }

  // ---- Restart intensity ----

  /** `retain(|t| now - t <= window)`. */
  function Retain(ts: seq<R.Time>, now: R.Time, window: R.Time): seq<R.Time> {
    if ts == [] then []
    else Retain(ts[..|ts| - 1], now, window) + if now - ts[|ts| - 1] <= window then [ts[|ts| - 1]] else []
  }

  lemma {:induction false} RetainKeepsYoung(ts: seq<R.Time>, now: R.Time, window: R.Time)
    requires R.Sorted(ts)
    ensures Retain(ts, now, window) == R.Recent(ts, R.Young(ts, now, window + 1))
  {
    if ts != [] {
      var n := |ts| - 1;
      RetainKeepsYoung(ts[..n], now, window);
      if now - ts[n] <= window {
        RecentLast(ts, R.Young(ts[..n], now, window + 1));
      } else {
        OldLast(ts, now, window + 1);
      }
    }
  }

  lemma RecentLast(ts: seq<R.Time>, k: nat)
    requires k < |ts|
    ensures R.Recent(ts, k + 1) == R.Recent(ts[..|ts| - 1], k) + [ts[|ts| - 1]]
  {}

  lemma OldLast(ts: seq<R.Time>, now: R.Time, window: R.Time)
    requires R.Sorted(ts) && ts != [] && now - ts[|ts| - 1] >= window
    ensures R.Young(ts[..|ts| - 1], now, window) == 0
  {
    R.NoneYoung(ts[..|ts| - 1], now, window);
  }

  /** The time stamps are the recent end of the restarts performed, and no closed window of `window` holds
      more than `maxRestarts` of those. */
  ghost predicate Paced(maxRestarts: nat, window: R.Time, stamps: seq<R.Time>, performed: seq<R.Time>, clock: R.Time) {
    R.Tracks(R.ProviderLimit(maxRestarts, window + 1, stamps), performed, clock)
  }

  lemma {:induction false} YoungDrop(a: seq<R.Time>, k: nat, now: R.Time, window: R.Time)
    requires k <= |a| && forall i :: 0 <= i < k ==> now - a[i] >= window
    ensures R.Young(a[k..], now, window) == R.Young(a, now, window)
  {
    if k == |a| {
      R.NoneYoung(a, now, window);
    } else {
      YoungDrop(a[..|a| - 1], k, now, window);
      assert a[k..][..|a| - k - 1] == a[..|a| - 1][k..];
    }
  }

  /** The intensity check allows a restart exactly when fewer than `maxRestarts` were performed in the closed
      window that ends now; an allowed restart keeps the pace. */
  lemma IntensityIsExact(maxRestarts: nat, window: R.Time, stamps: seq<R.Time>, performed: seq<R.Time>,
                         clock: R.Time, now: R.Time)
    requires Paced(maxRestarts, window, stamps, performed, clock) && clock <= now
    ensures var kept := Retain(stamps + [now], now, window);
            && (|kept| <= maxRestarts <==> R.Young(performed, now, window + 1) < maxRestarts)
            && (|kept| <= maxRestarts ==> Paced(maxRestarts, window, kept, performed + [now], now))
  {
    var all, k := performed + [now], |performed| - |stamps|;
    var n := R.Young(all, now, window + 1);
    R.TracksLater(R.ProviderLimit(maxRestarts, window + 1, stamps), performed, clock, now);
    RetainedAre(maxRestarts, window, stamps, performed, now);
    assert all[..|performed|] == performed;
    if n <= maxRestarts {
      RestartKeepsPace(maxRestarts, window, stamps, performed, now);
    }
    hide R.Tracks, Paced, Retain;
    R.RecentLength(all, n);
  }

  lemma RetainedAre(maxRestarts: nat, window: R.Time, stamps: seq<R.Time>, performed: seq<R.Time>, now: R.Time)
    requires Paced(maxRestarts, window, stamps, performed, now)
    ensures var all := performed + [now];
            Retain(stamps + [now], now, window) == R.Recent(all, R.Young(all, now, window + 1))
  {
    var all, k := performed + [now], |performed| - |stamps|;
    assert all[k..] == stamps + [now];
    assert R.Sorted(stamps + [now]);
    YoungDrop(all, k, now, window + 1);
    RetainKeepsYoung(stamps + [now], now, window);
    hide R.Tracks, R.Sorted, Retain, R.Young;
    var n := R.Young(all, now, window + 1);
    assert R.Recent(stamps + [now], n) == R.Recent(all, n);
  }

  lemma PacedIsSpaced(maxRestarts: nat, window: R.Time, stamps: seq<R.Time>, performed: seq<R.Time>, clock: R.Time)
    requires Paced(maxRestarts, window, stamps, performed, clock)
    ensures R.Spaced(performed, maxRestarts, window + 1)
  {}

  lemma RestartKeepsPace(maxRestarts: nat, window: R.Time, stamps: seq<R.Time>, performed: seq<R.Time>, now: R.Time)
    requires Paced(maxRestarts, window, stamps, performed, now) && R.Young(performed, now, window + 1) < maxRestarts
    ensures var all := performed + [now];
            Paced(maxRestarts, window, R.Recent(all, R.Young(all, now, window + 1)), all, now)
  {
    hide R.Spaced, R.Young, R.Sorted, R.Recent;
    var all := performed + [now];
    R.GrantKeepsSpacing(performed, now, maxRestarts, window + 1);
    R.YoungIsSuffix(all, now, window + 1);
    R.RecentLength(all, R.Young(all, now, window + 1));
  }

  // ---- One exit ----

  datatype Config = Config(strategy: Strategy, maxRestarts: nat, window: R.Time)

  /** `performed` holds the times of all restarts so far. */
  datatype Status = Status(children: seq<RunningChild>, shutdown: bool, performed: seq<R.Time>)

  /** `handle_child_exit`: a supervisor that shut down does nothing, a child that is not to be restarted drops out,
      one restart too many in the closed window shuts down, and any other is performed as the strategy says. */
  function HandleExit(c: Config, v: Status, s: Sched, pid: Pid, reason: Reason, now: R.Time, starts: Starts)
      : (Status, Sched)
  {
    var at := Find(v.children, pid);
    if v.shutdown || at.None? then (v, s)
    else if !Wanted(v.children[at.value].spec.restart, reason) then
      (v.(children := v.children[..at.value] + v.children[at.value + 1..]), s)
    else if R.Young(v.performed, now, c.window + 1) >= c.maxRestarts then (v.(shutdown := true), s)
    else
      var (u, cs) := Restart(c.strategy, s, v.children, at.value, starts);
      (Status(cs, false, v.performed + [now]), u)
  }

  /** A running supervisor drops a known child and does nothing else if and only if it is temporary, or transient and
      ended as it should. For any other it shuts down, with nothing else changed, if and only if `maxRestarts` restarts
      fell into the closed window that ends now; else it performs one more, as its strategy says. */
  lemma ExitDecides(c: Config, v: Status, s: Sched, idx: nat, reason: Reason, now: R.Time, starts: Starts)
    requires !v.shutdown && idx < |v.children|
    requires forall i :: 0 <= i < idx ==> v.children[i].pid != v.children[idx].pid
    ensures var child := v.children[idx];
            var (w, u) := HandleExit(c, v, s, child.pid, reason, now, starts);
            var done := child.spec.restart == Temporary
                        || (child.spec.restart == Transient && (reason == NormalExit || reason == ShutdownExit));
            var full := R.Young(v.performed, now, c.window + 1) >= c.maxRestarts;
            && (done <==> w.performed == v.performed && !w.shutdown)
            && (done ==> u == s && w.children == v.children[..idx] + v.children[idx + 1..])
            && (w.shutdown <==> !done && full) && (w.shutdown ==> u == s && w == v.(shutdown := true))
            && (!done && !full ==> w.performed == v.performed + [now]
                                   && (u, w.children) == Restart(c.strategy, s, v.children, idx, starts))
  {
    hide Restart, R.Young;
    FindsFirst(v.children, idx);
    assert |v.performed + [now]| == |v.performed| + 1;
  }

  lemma {:induction false} FindsFirst(children: seq<RunningChild>, idx: nat)
    requires idx < |children| && forall i :: 0 <= i < idx ==> children[i].pid != children[idx].pid
    ensures Find(children, children[idx].pid) == Some(idx)
  {
    if idx > 0 {
      assert children[0].pid != children[idx].pid;
      forall i | 0 <= i < idx - 1 ensures children[1..][i].pid != children[1..][idx - 1].pid {
        assert children[i + 1].pid != children[idx].pid;
      }
      FindsFirst(children[1..], idx - 1);
    }
  }

  // ---- Whole runs ----

  lemma {:induction false} StartChildrenKeepsInv(s: Sched, specs: seq<ChildSpec>, starts: Starts)
    requires Inv(s, {})
    ensures Inv(StartChildren(s, specs, starts).0, {}) && Evolves(s, StartChildren(s, specs, starts).0)
    decreases |specs|
  {
    hide Inv, Evolves, SpawnAt;
    Cycles.EvolvesRefl(s);
    if specs != [] {
      var next := StartChild(s, specs[0], starts).0;
      Runs.SpawnAtKeepsInv(s, specs[0].priority, starts(s.nextPid));
      StartChildrenKeepsInv(next, specs[1..], starts);
      EvolvesTrans(s, next, StartChildren(s, specs, starts).0);
    }
  }

  lemma RestartFromKeeps(s: Sched, children: seq<RunningChild>, from: nat, dead: Pid, starts: Starts)
    requires from <= |children| && Inv(s, {}) && Known(children, s)
    ensures var (u, cs) := RestartFrom(s, children, from, dead, starts); Inv(u, {}) && Evolves(s, u) && Known(cs, u)
  {
    var roots, specs := Others(children[from..], dead), Specs(children[from..]);
    var mid := TerminateAll(s, roots, ShutdownExit);
    TerminateAllKeeps(s, roots, ShutdownExit, {});
    FollowsEvolves(s, mid, {});
    StartChildrenKeepsInv(mid, specs, starts);
    SpawnedPids(mid, specs, starts);
    EvolvesTrans(s, mid, StartChildren(mid, specs, starts).0);
    hide Inv, TerminateAll, StartChildren, MonitorsFollow;
  }

  lemma RestartOneKeeps(s: Sched, children: seq<RunningChild>, idx: nat, starts: Starts)
    requires idx < |children| && Inv(s, {}) && Known(children, s)
    ensures var (u, cs) := RestartOne(s, children, idx, starts); Inv(u, {}) && Evolves(s, u) && Known(cs, u)
  {
    hide Inv, Evolves;
    Runs.SpawnAtKeepsInv(s, children[idx].spec.priority, starts(s.nextPid));
  }

  /** Every restart leaves a sound scheduler, and only children that it issued. */
  lemma RestartKeepsInv(st: Strategy, s: Sched, children: seq<RunningChild>, idx: nat, starts: Starts)
    requires idx < |children| && Inv(s, {}) && Known(children, s)
    ensures var (u, cs) := Restart(st, s, children, idx, starts); Inv(u, {}) && Evolves(s, u) && Known(cs, u)
  {
    hide Inv, Evolves, RestartFrom, RestartOne;
    match st
    case OneForOne => RestartOneKeeps(s, children, idx, starts);
    case OneForAll => RestartFromKeeps(s, children, 0, children[idx].pid, starts);
    case RestForOne => RestartFromKeeps(s, children, idx, children[idx].pid, starts);
  }

  /** What holds between exits: no closed window of the restarts performed holds more than allowed. */
  ghost predicate Sane(c: Config, v: Status, s: Sched, clock: R.Time) {
    && Inv(s, {}) && Known(v.children, s)
    && R.Sorted(v.performed) && R.Spaced(v.performed, c.maxRestarts, c.window + 1)
    && forall i :: 0 <= i < |v.performed| ==> v.performed[i] <= clock
  }

  /** One exit keeps all of it, and the child ids stay in order. */
  lemma ExitKeepsSane(c: Config, v: Status, s: Sched, pid: Pid, reason: Reason, now: R.Time, starts: Starts)
    requires Sane(c, v, s, now)
    ensures var (w, u) := HandleExit(c, v, s, pid, reason, now, starts);
            && Sane(c, w, u, now) && Evolves(s, u)
            && Subsequence(ChildIds(w.children), ChildIds(v.children))
            && (v.shutdown ==> w == v && u == s)
            && v.performed <= w.performed
  {
    hide Inv, Evolves, ChildIds, Restart, R.Young, R.Sorted, R.Spaced;
    Cycles.EvolvesRefl(s);
    SubsequenceRefl(ChildIds(v.children));
    var at := Find(v.children, pid);
    if !v.shutdown && at.Some? {
      DropKeepsOrder(v.children, at.value);
      RestartKeepsInv(c.strategy, s, v.children, at.value, starts);
      RestartKeepsOrder(c.strategy, s, v.children, at.value, starts);
      if R.Young(v.performed, now, c.window + 1) < c.maxRestarts {
        R.GrantKeepsSpacing(v.performed, now, c.maxRestarts, c.window + 1);
      }
    }
  }

  /** An exit as the supervisor sees it, and what the scheduler did since the one before. */
  datatype ChildExit = ChildExit(meanwhile: seq<Runs.Op>, pid: Pid, reason: Reason, now: R.Time, starts: Starts)

  function RunExits(c: Config, v: Status, s: Sched, xs: seq<ChildExit>): (Status, Sched)
    decreases |xs|
  {
    if |xs| == 0 then (v, s)
    else
      var x := xs[0];
      var (w, u) := HandleExit(c, v, Runs.Run(s, x.meanwhile), x.pid, x.reason, x.now, x.starts);
      RunExits(c, w, u, xs[1..])
  }

  /** The clock never goes back. */
  predicate Clocked(clock: R.Time, xs: seq<ChildExit>)
    decreases |xs|
  {
    |xs| == 0 || (clock <= xs[0].now && Clocked(xs[0].now, xs[1..]))
  }

  /** Over any run of exits, whatever the scheduler does in between: no closed window holds more than `maxRestarts`
      restarts, the child ids stay a subsequence of what they were, shutdown is absorbing, and every next restart
      again finds a sound scheduler and known children. */
  lemma {:induction false} ExitsKeepOrderAndPace(c: Config, v: Status, s: Sched, clock: R.Time, xs: seq<ChildExit>)
    requires Sane(c, v, s, clock) && Clocked(clock, xs)
    ensures var (w, u) := RunExits(c, v, s, xs);
            && R.Spaced(w.performed, c.maxRestarts, c.window + 1)
            && Inv(u, {}) && Known(w.children, u)
            && Subsequence(ChildIds(w.children), ChildIds(v.children))
            && (v.shutdown ==> w == v)
            && v.performed <= w.performed
    decreases |xs|
  {
    hide Inv, Evolves, ChildIds, HandleExit, R.Sorted, R.Spaced, Runs.Run, Subsequence;
    if |xs| == 0 {
      SubsequenceRefl(ChildIds(v.children));
    } else {
      var x := xs[0];
      var before := Runs.Run(s, x.meanwhile);
      Runs.RunKeepsInv(s, x.meanwhile);
      KnownLater(v.children, s, before);
      var (w, u) := HandleExit(c, v, before, x.pid, x.reason, x.now, x.starts);
      ExitKeepsSane(c, v, before, x.pid, x.reason, x.now, x.starts);
      ExitsKeepOrderAndPace(c, w, u, x.now, xs[1..]);
      var last := RunExits(c, w, u, xs[1..]).0;
      SubsequenceTrans(ChildIds(last.children), ChildIds(w.children), ChildIds(v.children));
    }
  }

  lemma KnownLater(children: seq<RunningChild>, s: Sched, u: Sched)
    requires Known(children, s) && Evolves(s, u)
    ensures Known(children, u)
  {}

  // ---- Starting ----

  /** Starts the children in order and gives up at the first that fails; those before it are left running. */
  function StartAll(s: Sched, specs: seq<ChildSpec>, starts: Starts): (Option<seq<RunningChild>>, Sched)
    decreases |specs|
  {
    if specs == [] then (Some([]), s)
    else
      var (next, child) := StartChild(s, specs[0], starts);
      if child.None? then (None, next)
      else
        var (rest, last) := StartAll(next, specs[1..], starts);
        (if rest.Some? then Some([child.value] + rest.value) else None, last)
  }

  /** A supervisor that starts has exactly the children of its spec, and is ready for `ExitsKeepOrderAndPace`. */
  lemma {:induction false} StartedIsSane(c: Config, s: Sched, specs: seq<ChildSpec>, starts: Starts)
    requires Inv(s, {})
    ensures var (cs, u) := StartAll(s, specs, starts);
            && Inv(u, {}) && Evolves(s, u)
            && (cs.Some? ==> Specs(cs.value) == specs && Known(cs.value, u) && Sane(c, Status(cs.value, false, []), u, 0))
    decreases |specs|
  {
    hide Inv, Evolves, SpawnAt;
    Cycles.EvolvesRefl(s);
    if specs != [] {
      var next := StartChild(s, specs[0], starts).0;
      Runs.SpawnAtKeepsInv(s, specs[0].priority, starts(s.nextPid));
      StartedIsSane(c, next, specs[1..], starts);
      var (rest, last) := StartAll(next, specs[1..], starts);
      EvolvesTrans(s, next, last);
      if starts(s.nextPid) {
        PidsGrow(s, specs[0].priority, last);
      }
    }
  }

  lemma PidsGrow(s: Sched, lane: Priority, u: Sched)
    requires Evolves(SpawnAt(s, lane, true), u)
    ensures s.nextPid < u.nextPid
  {}

  // ---- The supervisor ----

  class Supervisor {
    const strategy: Strategy
    const maxRestarts: nat
    const window: R.Time
    var children: seq<RunningChild>
    var stamps: seq<R.Time>
    var shutdown: bool
    /** The times of the restarts performed so far, and of the last exit handled. */
    ghost var performed: seq<R.Time>
    ghost var clock: R.Time

    /** The pace is kept, also after the shutdown, when the time stamps no longer matter. */
    ghost predicate Valid()
      reads this
    {
      && R.Spaced(performed, maxRestarts, window + 1)
      && (!shutdown ==> Paced(maxRestarts, window, stamps, performed, clock))
    }

    ghost function View(): Status
      reads this
    {
      Status(children, shutdown, performed)
    }

    ghost function Setting(): Config
      reads this
    {
      Config(strategy, maxRestarts, window)
    }

    constructor (c: Config, children: seq<RunningChild>)
      ensures Valid() && View() == Status(children, false, []) && clock == 0 && Setting() == c
    {
      strategy, maxRestarts, window, this.children := c.strategy, c.maxRestarts, c.window, children;
      stamps, shutdown, performed, clock := [], false, [], 0;
    }

    /** Starts all children of the spec; the first that fails is the result, and there is no supervisor then. */
    static method Start(sched: AgentScheduler, c: Config, specs: seq<ChildSpec>, starts: Starts)
        returns (sup: Supervisor?)
      modifies sched
      ensures var (cs, u) := StartAll(old(sched.View()), specs, starts);
              && sched.View() == u && (sup == null <==> cs.None?)
              && (sup != null ==> fresh(sup) && sup.Valid() && sup.View() == Status(cs.value, false, [])
                                  && sup.clock == 0 && sup.Setting() == c)
    {
      hide StartChild;
      var children: seq<RunningChild> := [];
      ghost var goal := StartAll(sched.View(), specs, starts);
      assert goal.0.Some? ==> [] + goal.0.value == goal.0.value;
      for i := 0 to |specs|
        invariant Onto(children, StartAll(sched.View(), specs[i..], starts).0) == goal.0
        invariant StartAll(sched.View(), specs[i..], starts).1 == goal.1
      {
        assert specs[i..][1..] == specs[i + 1..];
        var child := StartOne(sched, specs[i], starts);
        if child.None? {
          return null;
        }
        OntoMore(children, child.value, StartAll(sched.View(), specs[i + 1..], starts).0);
        children := children + [child.value];
      }
      assert children + [] == children;
      sup := new Supervisor(c, children);
    }

    /** Handles the exit of a child at time `now`. No closed window ever holds more than `maxRestarts` performed
        restarts. */
    method HandleChildExit(sched: AgentScheduler, pid: Pid, reason: Reason, now: R.Time, starts: Starts)
      requires Valid() && clock <= now
      modifies this, sched
      ensures Valid() && R.Spaced(performed, maxRestarts, window + 1) && old(clock) <= clock <= now
      ensures (View(), sched.View()) == HandleExit(Setting(), old(View()), old(sched.View()), pid, reason, now, starts)
    {
      hide R.Spaced, R.Young, Paced, Restart;
      if shutdown {
        return;
      }
      var at := Find(children, pid);
      if at.None? {
        return;
      }
      var idx := at.value;
      if !Wanted(children[idx].spec.restart, reason) {
        children := children[..idx] + children[idx + 1..];
        return;
      }
      var exceeded := ExceedsMaxRestarts(now);
      if exceeded {
        shutdown := true;
        return;
      }
      RestartAs(sched, idx, starts);
    }

    method RestartAs(sched: AgentScheduler, idx: nat, starts: Starts)
      requires idx < |children|
      modifies this`children, sched
      ensures (sched.View(), children) == Restart(strategy, old(sched.View()), old(children), idx, starts)
    {
      match strategy {
        case OneForOne => RestartOneChild(sched, idx, starts);
        case OneForAll => RestartChildrenFrom(sched, 0, children[idx].pid, starts);
        case RestForOne => RestartChildrenFrom(sched, idx, children[idx].pid, starts);
      }
    }

    method ExceedsMaxRestarts(now: R.Time) returns (exceeded: bool)
      requires Valid() && !shutdown && clock <= now
      modifies this`stamps, this`performed, this`clock
      ensures exceeded <==> R.Young(old(performed), now, window + 1) >= maxRestarts
      ensures performed == if exceeded then old(performed) else old(performed) + [now]
      ensures R.Spaced(performed, maxRestarts, window + 1) && old(clock) <= clock <= now
      ensures !exceeded ==> Valid()
    {
      hide R.Young, R.Spaced, Paced, Retain;
      IntensityIsExact(maxRestarts, window, stamps, performed, clock, now);
      if R.Young(performed, now, window + 1) < maxRestarts {
        PacedIsSpaced(maxRestarts, window, Retain(stamps + [now], now, window), performed + [now], now);
      }
      stamps := Retain(stamps + [now], now, window);
      exceeded := |stamps| > maxRestarts;
      if !exceeded {
        performed := performed + [now];
        clock := now;
      }
    }

    static method StartOne(sched: AgentScheduler, spec: ChildSpec, starts: Starts) returns (child: Option<RunningChild>)
      modifies sched
      ensures (sched.View(), child) == StartChild(old(sched.View()), spec, starts)
    {
      var pid := sched.nextPid;
      sched.nextPid := pid + 1;
      if !starts(pid) {
        return None;
      }
      sched.procs := sched.procs[pid := NewProcess()];
      sched.procs := sched.procs[pid := sched.procs[pid].(priority := spec.priority)];
      sched.EnqueuePid(pid);
      return Some(RunningChild(pid, spec));
    }

    method RestartOneChild(sched: AgentScheduler, idx: nat, starts: Starts)
      requires idx < |children|
      modifies this`children, sched
      ensures (sched.View(), children) == RestartOne(old(sched.View()), old(children), idx, starts)
    {
      var dead := children[idx];
      children := children[..idx] + children[idx + 1..];
      var child := StartOne(sched, dead.spec, starts);
      if child.Some? {
        children := children[..idx] + [child.value] + children[idx..];
      }
      assert old(children)[..idx] + [] == old(children)[..idx];
    }

    method RestartChildrenFrom(sched: AgentScheduler, from: nat, dead: Pid, starts: Starts)
      requires from <= |children|
      modifies this`children, sched
      ensures (sched.View(), children) == RestartFrom(old(sched.View()), old(children), from, dead, starts)
    {
      hide TerminateAll, Others, Specs, StartChild;
      var rest := children[from..];
      var specs := Specs(rest);
      children := children[..from];
      ghost var kept := children;
      TerminateOthers(sched, rest, dead);
      ghost var goal := StartChildren(sched.View(), specs, starts);
      for i := 0 to |specs|
        invariant StartChildren(sched.View(), specs[i..], starts).0 == goal.0
        invariant children + StartChildren(sched.View(), specs[i..], starts).1 == kept + goal.1
      {
        assert specs[i..][1..] == specs[i + 1..];
        var child := StartOne(sched, specs[i], starts);
        if child.Some? {
          children := children + [child.value];
        }
      }
      assert StartChildren(sched.View(), specs[|specs|..], starts) == (sched.View(), []);
      assert children + [] == children;
    }

    method TerminateOthers(sched: AgentScheduler, rest: seq<RunningChild>, dead: Pid)
      modifies sched
      ensures sched.View() == TerminateAll(old(sched.View()), Others(rest, dead), ShutdownExit)
    {
      for i := 0 to |rest|
        invariant TerminateAll(sched.View(), Others(rest[i..], dead), ShutdownExit)
                  == TerminateAll(old(sched.View()), Others(rest, dead), ShutdownExit)
      {
        assert rest[i..][1..] == rest[i + 1..];
        if rest[i].pid != dead {
          assert Others(rest[i..], dead)[1..] == Others(rest[i + 1..], dead);
          sched.TerminateProcess(rest[i].pid, ShutdownExit);
        } else {
          assert [] + Others(rest[i + 1..], dead) == Others(rest[i + 1..], dead);
        }
      }
    }
  }

  function Onto(started: seq<RunningChild>, rest: Option<seq<RunningChild>>): Option<seq<RunningChild>> {
    if rest.None? then None else Some(started + rest.value)
  }

  lemma OntoMore(started: seq<RunningChild>, child: RunningChild, rest: Option<seq<RunningChild>>)
    ensures Onto(started + [child], rest) == Onto(started, Onto([child], rest))
  {
    if rest.Some? {
      assert started + [child] + rest.value == started + ([child] + rest.value);
    }
  }

  /** `position(|c| c.pid == pid)`. */
  function Find(children: seq<RunningChild>, pid: Pid): (at: Option<nat>)
    ensures at.Some? ==> at.value < |children| && children[at.value].pid == pid
    ensures at.None? ==> forall c :: c in children ==> c.pid != pid
  {
    if children == [] then None
    else if children[0].pid == pid then Some(0)
    else
      var rest := Find(children[1..], pid);
      if rest.Some? then Some(rest.value + 1) else None
  }

  predicate Wanted(restart: ChildRestart, reason: Reason) {
    match restart
    case Permanent => true
    case Transient => reason != NormalExit && reason != ShutdownExit
    case Temporary => false
  }
}
