/** Agent processes, their mailboxes, and the two monitor tables each process holds. */
module Processes {
  import opened Common
  import opened Queues

  type Ref = nat

  datatype Reason = NormalExit | ShutdownExit | CustomExit(code: nat)

  datatype Status = Runnable | Waiting | Suspended | Exiting

  datatype Message =
    | Text(code: nat)
    | Json(payload: nat)
    | Exit(from: Pid, reason: Reason)
    | IoResponse(correlation: nat)
    | SpawnResult(child: Pid, monitor: Option<Ref>)
    | Down(ref: Ref, pid: Pid, reason: Reason)
    | ReceiveTimeout

  /** A process. What a behaviour keeps in its state is opaque to the runtime: only its presence is tracked. */
  datatype Process = Process(
    status: Status,
    priority: Priority,
    mailbox: seq<Message>,
    capacity: nat,
    reductions: nat,
    hasState: bool,
    links: seq<Pid>,
    monitors: seq<(Ref, Pid)>,
    monitoredBy: seq<(Ref, Pid)>,
    trapExit: bool,
    timeout: Option<nat>)

  type Table = map<Pid, Process>

  const DEFAULT_MAILBOX_CAPACITY: nat := 1024

  function NewProcess(): Process {
    Process(Runnable, Normal, [], DEFAULT_MAILBOX_CAPACITY, 0, true, [], [], [], false, None)
  }

  predicate Full(p: Process) {
    |p.mailbox| >= p.capacity
  }

  /** `deliver_message`, with its error ignored: a full mailbox drops the message. */
  function Deliver(p: Process, m: Message): Process {
    if Full(p) then p
    else p.(mailbox := p.mailbox + [m], timeout := None, status := if p.status == Waiting then Runnable else p.status)
  }

  /** Delivery leaves everything alone that links, monitors and fault handling look at. */
  ghost predicate SameWiring(p: Process, q: Process) {
    && p.links == q.links && p.monitors == q.monitors && p.monitoredBy == q.monitoredBy
    && p.trapExit == q.trapExit && p.hasState == q.hasState && p.priority == q.priority
  }

  // ---- Monitor tables ----

  predicate Watches(t: Table, watcher: Pid, ref: Ref, target: Pid) {
    watcher in t && (ref, target) in t[watcher].monitors
  }

  predicate WatchedBy(t: Table, target: Pid, ref: Ref, watcher: Pid) {
    target in t && (ref, watcher) in t[target].monitoredBy
  }

  ghost predicate NoRepeats(l: seq<(Ref, Pid)>) {
    forall e :: multiset(l)[e] <= 1
  }

  ghost predicate Inverse(t: Table) {
    && (forall w, r, x :: Watches(t, w, r, x) ==> WatchedBy(t, x, r, w))
    && (forall w, r, x :: WatchedBy(t, x, r, w) ==> Watches(t, w, r, x))
  }

  ghost predicate UniqueRefs(t: Table) {
    && (forall w, r, x, w', x' :: Watches(t, w, r, x) && Watches(t, w', r, x') ==> w == w' && x == x')
    && (forall w :: w in t ==> NoRepeats(t[w].monitors) && NoRepeats(t[w].monitoredBy))
  }

  /** A monitor reference in use. */
  ghost predicate Active(t: Table, ref: Ref) {
    exists w, x :: Watches(t, w, ref, x)
  }

  /** Both tables agree, every reference stands for one pair, and all were issued before `next`. */
  ghost predicate TablesOk(t: Table, next: Ref) {
    Inverse(t) && UniqueRefs(t) && forall r: Ref :: Active(t, r) ==> r < next
  }

  /** `retain(|x| x != e)`. */
  function Forget(l: seq<(Ref, Pid)>, e: (Ref, Pid)): seq<(Ref, Pid)> {
    if l == [] then [] else (if l[0] == e then [] else [l[0]]) + Forget(l[1..], e)
  }

  lemma ForgetRemoves(l: seq<(Ref, Pid)>, e: (Ref, Pid))
    ensures forall x :: x in Forget(l, e) <==> x in l && x != e
    ensures NoRepeats(l) ==> NoRepeats(Forget(l, e))
  {
    ForgetCounts(l, e);
    forall x ensures x in Forget(l, e) <==> x in l && x != e {
      assert x in l <==> multiset(l)[x] > 0;
      assert x in Forget(l, e) <==> multiset(Forget(l, e))[x] > 0;
    }
    forall x | NoRepeats(l) ensures multiset(Forget(l, e))[x] <= 1 {
      assert multiset(l)[x] <= 1;
    }
  }

  lemma {:induction false} ForgetCounts(l: seq<(Ref, Pid)>, e: (Ref, Pid))
    ensures multiset(Forget(l, e)) == multiset(l)[e := 0]
  {
    if l != [] {
      ForgetCounts(l[1..], e);
      assert l == [l[0]] + l[1..];
    }
  }

  /** `swap_remove`: the last element takes the place of the removed one. */
  function SwapRemove(l: seq<(Ref, Pid)>, i: nat): seq<(Ref, Pid)>
    requires i < |l|
  {
    l[i := l[|l| - 1]][..|l| - 1]
  }

  lemma LastApart(l: seq<(Ref, Pid)>)
    requires l != []
    ensures multiset(l) == multiset(l[..|l| - 1]) + multiset{l[|l| - 1]}
  {
    assert l == l[..|l| - 1] + [l[|l| - 1]];
  }

  lemma CancelLast(a: multiset<(Ref, Pid)>, b: multiset<(Ref, Pid)>, x: (Ref, Pid))
    requires a + multiset{x} == b + multiset{x}
    ensures a == b
  {
    assert a == a + multiset{x} - multiset{x} && b == b + multiset{x} - multiset{x};
  }

  lemma SwapRemoveRemoves(l: seq<(Ref, Pid)>, i: nat)
    requires i < |l|
    ensures multiset(SwapRemove(l, i)) == multiset(l) - multiset{l[i]}
  {
    var last := l[|l| - 1];
    var u := l[i := last];
    assert multiset(u) == multiset(l) - multiset{l[i]} + multiset{last};
    LastApart(u);
    assert u[..|u| - 1] == SwapRemove(l, i) && u[|u| - 1] == last;
    CancelLast(multiset(SwapRemove(l, i)), multiset(l) - multiset{l[i]}, last);
  }

  lemma SwapRemoveForgets(l: seq<(Ref, Pid)>, i: nat)
    requires i < |l| && NoRepeats(l)
    ensures forall e :: e in SwapRemove(l, i) <==> e in l && e != l[i]
  {
    SwapRemoveRemoves(l, i);
    forall e ensures e in SwapRemove(l, i) <==> e in l && e != l[i] {
      assert e in SwapRemove(l, i) <==> multiset(SwapRemove(l, i))[e] > 0;
      assert multiset(l)[e] <= 1;
    }
  }

  lemma AppendNoRepeats(l: seq<(Ref, Pid)>, e: (Ref, Pid))
    ensures NoRepeats(l) && e !in l ==> NoRepeats(l + [e])
  {}

  /** Takes `(ref, p)` out of the `monitoredBy` list of each monitored target, for the monitors of a dying `p`. */
  function DropTargets(t: Table, monitors: seq<(Ref, Pid)>, p: Pid): (u: Table)
    ensures u.Keys == t.Keys
    decreases |monitors|
  {
    if monitors == [] then t
    else
      var (r, x) := monitors[0];
      DropTargets(if x in t then t[x := t[x].(monitoredBy := Forget(t[x].monitoredBy, (r, p)))] else t, monitors[1..], p)
  }

  /** Takes `(ref, p)` out of the `monitors` list of each watcher of a dying `p`. */
  function DropWatchers(t: Table, monitoredBy: seq<(Ref, Pid)>, p: Pid): (u: Table)
    ensures u.Keys == t.Keys
    decreases |monitoredBy|
  {
    if monitoredBy == [] then t
    else
      var (r, w) := monitoredBy[0];
      DropWatchers(if w in t then t[w := t[w].(monitors := Forget(t[w].monitors, (r, p)))] else t, monitoredBy[1..], p)
  }

  lemma {:induction false} DropTargetsShape(t: Table, monitors: seq<(Ref, Pid)>, p: Pid, x: Pid)
    requires x in t
    ensures var u := DropTargets(t, monitors, p);
            && u[x] == t[x].(monitoredBy := u[x].monitoredBy)
            && (forall r, w :: (r, w) in u[x].monitoredBy <==>
                               (r, w) in t[x].monitoredBy && !(w == p && (r, x) in monitors))
            && (NoRepeats(t[x].monitoredBy) ==> NoRepeats(u[x].monitoredBy))
    decreases |monitors|
  {
    if monitors != [] {
      var (r, y) := monitors[0];
      var mid := if y in t then t[y := t[y].(monitoredBy := Forget(t[y].monitoredBy, (r, p)))] else t;
      DropTargetsShape(mid, monitors[1..], p, x);
      ForgetRemoves(t[x].monitoredBy, (r, p));
      hide NoRepeats;
      assert monitors == [monitors[0]] + monitors[1..];
    }
  }

  lemma {:induction false} DropWatchersShape(t: Table, monitoredBy: seq<(Ref, Pid)>, p: Pid, w: Pid)
    requires w in t
    ensures var u := DropWatchers(t, monitoredBy, p);
            && u[w] == t[w].(monitors := u[w].monitors)
            && (forall r, x :: (r, x) in u[w].monitors <==> (r, x) in t[w].monitors && !(x == p && (r, w) in monitoredBy))
            && (NoRepeats(t[w].monitors) ==> NoRepeats(u[w].monitors))
    decreases |monitoredBy|
  {
    if monitoredBy != [] {
      var (r, y) := monitoredBy[0];
      var mid := if y in t then t[y := t[y].(monitors := Forget(t[y].monitors, (r, p)))] else t;
      ForgetRemoves(t[w].monitors, (r, p));
      hide NoRepeats;
      DropWatchersShape(mid, monitoredBy[1..], p, w);
      assert monitoredBy == [monitoredBy[0]] + monitoredBy[1..];
    }
  }

  /** The table after `p` is gone and its monitors and watchers have been told. */
  function Unwire(t: Table, p: Pid): (u: Table)
    requires p in t
    ensures u.Keys == t.Keys - {p}
  {
    DropWatchers(DropTargets(t - {p}, t[p].monitors, p), t[p].monitoredBy, p)
  }

  /** Removing a process removes exactly the monitor pairs it takes part in. */
  lemma UnwireKeepsTables(t: Table, p: Pid, next: Ref)
    requires p in t && TablesOk(t, next)
    ensures TablesOk(Unwire(t, p), next)
    ensures forall w, r, x :: Watches(Unwire(t, p), w, r, x) <==> Watches(t, w, r, x) && w != p && x != p
  {
    var u := Unwire(t, p);
    var mid := DropTargets(t - {p}, t[p].monitors, p);
    forall w, r, x ensures Watches(u, w, r, x) <==> Watches(t, w, r, x) && w != p && x != p {
      if w in u {
        DropTargetsShape(t - {p}, t[p].monitors, p, w);
        DropWatchersShape(mid, t[p].monitoredBy, p, w);
        assert Watches(t, w, r, p) <==> WatchedBy(t, p, r, w);
      }
    }
    forall w, r, x ensures WatchedBy(u, x, r, w) <==> WatchedBy(t, x, r, w) && w != p && x != p {
      if x in u {
        DropTargetsShape(t - {p}, t[p].monitors, p, x);
        DropWatchersShape(mid, t[p].monitoredBy, p, x);
        assert Watches(t, p, r, x) <==> WatchedBy(t, x, r, p);
      }
    }
    forall w | w in u ensures NoRepeats(u[w].monitors) && NoRepeats(u[w].monitoredBy) {
      DropTargetsShape(t - {p}, t[p].monitors, p, w);
      DropWatchersShape(mid, t[p].monitoredBy, p, w);
    }
    forall r: Ref | Active(u, r) ensures r < next {
      var w, x :| Watches(u, w, r, x);
      assert Active(t, r);
    }
  }

  ghost predicate SameTable(t: Table, u: Table) {
    t.Keys == u.Keys && forall q :: q in t ==> SameWiring(t[q], u[q])
  }

  lemma {:induction false} DropWatchersRespectsWiring(t: Table, u: Table, monitoredBy: seq<(Ref, Pid)>, p: Pid)
    requires SameTable(t, u)
    ensures SameTable(DropWatchers(t, monitoredBy, p), DropWatchers(u, monitoredBy, p))
    decreases |monitoredBy|
  {
    if monitoredBy != [] {
      var (r, w) := monitoredBy[0];
      var t' := if w in t then t[w := t[w].(monitors := Forget(t[w].monitors, (r, p)))] else t;
      var u' := if w in u then u[w := u[w].(monitors := Forget(u[w].monitors, (r, p)))] else u;
      assert w in t ==> SameWiring(t[w], u[w]);
      DropWatchersRespectsWiring(t', u', monitoredBy[1..], p);
    }
  }

  ghost predicate SameMonitors(t: Table, u: Table) {
    && t.Keys == u.Keys
    && forall q :: q in t ==> t[q].monitors == u[q].monitors && t[q].monitoredBy == u[q].monitoredBy
  }

  lemma TablesRespectMonitors(t: Table, u: Table, next: Ref)
    requires SameMonitors(t, u) && TablesOk(t, next)
    ensures TablesOk(u, next) && forall w, r, x :: Watches(t, w, r, x) <==> Watches(u, w, r, x)
  {
    forall w, r, x ensures Watches(t, w, r, x) <==> Watches(u, w, r, x)
                   ensures WatchedBy(t, w, r, x) <==> WatchedBy(u, w, r, x) {}
    forall w | w in u ensures NoRepeats(u[w].monitors) && NoRepeats(u[w].monitoredBy) {
      assert NoRepeats(t[w].monitors) && NoRepeats(t[w].monitoredBy);
    }
    forall r: Ref | Active(u, r) ensures r < next {
      var w, x :| Watches(u, w, r, x);
      assert Watches(t, w, r, x) && Active(t, r);
    }
  }

  lemma TablesRespectWiring(t: Table, u: Table, next: Ref)
    requires SameTable(t, u) && TablesOk(t, next)
    ensures TablesOk(u, next) && forall w, r, x :: Watches(t, w, r, x) <==> Watches(u, w, r, x)
  {
    forall q | q in t ensures t[q].monitors == u[q].monitors && t[q].monitoredBy == u[q].monitoredBy {
      assert SameWiring(t[q], u[q]);
    }
    TablesRespectMonitors(t, u, next);
  }
}
