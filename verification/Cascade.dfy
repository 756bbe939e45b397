/** Process death: the cascade along links, and the DOWN notices it produces. */
module Cascades {
  import opened Common
  import opened Graph
  import opened Queues
  import opened Processes
  import opened Scheduling

  /** `terminate_process` without exit handlers: nothing happens for a pid that is already gone. */
  function Terminate(s: Sched, p: Pid, r: Reason): (u: Sched)
    ensures u.procs.Keys <= s.procs.Keys - {p}
    decreases s.procs.Keys, 0, 0
  {
    if p !in s.procs then s
    else
      KillShape(s, p, r);
      var (k, cascade) := Kill(s, p, r);
      TerminateAll(k, cascade, r)
  }

  function TerminateAll(s: Sched, ps: seq<Pid>, r: Reason): (u: Sched)
    ensures u.procs.Keys <= s.procs.Keys
    ensures forall p :: p in ps ==> p !in u.procs
    decreases s.procs.Keys, 1, |ps|
  {
    if ps == [] then s
    else
      var u := TerminateAll(Terminate(s, ps[0], r), ps[1..], r);
      assert ps == [ps[0]] + ps[1..];
      u
  }

  /** One death removes one process and leaves the links and the trap flag of all others. */
  lemma KillShape(s: Sched, p: Pid, r: Reason)
    requires p in s.procs
    ensures var (k, cascade) := Kill(s, p, r);
            && k.procs.Keys == s.procs.Keys - {p}
            && (forall q :: q in k.procs ==> k.procs[q].links == s.procs[q].links
                                             && k.procs[q].trapExit == s.procs[q].trapExit)
            && (forall q :: q in cascade <==> q in k.procs && q in s.procs[p].links
                                              && !s.procs[q].trapExit && r != NormalExit)
            && (r == NormalExit ==> cascade == [])
  {
    var (gone, wakes) := Gone(s, p, r);
    var ms := DownNotices(s.procs[p].monitoredBy, p, r);
    SendAllTraffic(EnqueueAll(gone, wakes), ms);
    EnqueueAllTraffic(gone, wakes);
    TrafficTrans(gone, EnqueueAll(gone, wakes), SendAll(EnqueueAll(gone, wakes), ms));
    var k := Kill(s, p, r).0;
    forall q | q in k.procs ensures k.procs[q].links == s.procs[q].links && k.procs[q].trapExit == s.procs[q].trapExit {
      GoneProcess(s, p, r, q);
      assert SameWiring(gone.procs[q], k.procs[q]);
    }
    var t1 := DropTargets(s.procs - {p}, s.procs[p].monitors, p);
    NotifyShape(t1, s.procs[p].links, p, r);
    forall q | q in t1 ensures t1[q].trapExit == s.procs[q].trapExit {
      DropTargetsShape(s.procs - {p}, s.procs[p].monitors, p, q);
    }
  }

  /** The state inside `Kill` after the tables are cleaned up and before anybody is woken. */
  ghost function Gone(s: Sched, p: Pid, r: Reason): (g: (Sched, seq<Pid>))
    requires p in s.procs
    ensures g.0.procs.Keys == s.procs.Keys - {p}
    ensures Kill(s, p, r).0 == SendAll(EnqueueAll(g.0, g.1), DownNotices(s.procs[p].monitoredBy, p, r))
  {
    var dying := s.procs[p];
    var t1 := DropTargets(s.procs - {p}, dying.monitors, p);
    NotifyShape(t1, dying.links, p, r);
    var (told, wakes, cascade) := NotifyLinks(t1, dying.links, p, r);
    (s.(procs := DropWatchers(told, dying.monitoredBy, p), downs := s.downs + Refs(dying.monitoredBy)), wakes)
  }

  lemma GoneProcess(s: Sched, p: Pid, r: Reason, q: Pid)
    requires p in s.procs && q in s.procs && q != p
    ensures var (g, wakes) := Gone(s, p, r);
            && g.procs[q].links == s.procs[q].links && g.procs[q].trapExit == s.procs[q].trapExit
            && g.procs[q].hasState == s.procs[q].hasState
            && (g.procs[q].status == Runnable ==> s.procs[q].status == Runnable || q in wakes)
  {
    var dying := s.procs[p];
    var t1 := DropTargets(s.procs - {p}, dying.monitors, p);
    DropTargetsShape(s.procs - {p}, dying.monitors, p, q);
    NotifyShape(t1, dying.links, p, r);
    var (t2, wakes, cascade) := NotifyLinks(t1, dying.links, p, r);
    assert SameWiring(t1[q], t2[q]);
    DropWatchersShape(t2, dying.monitoredBy, p, q);
  }

  lemma EnqueueAllTraffic(s: Sched, ps: seq<Pid>)
    ensures Traffic(s, EnqueueAll(s, ps))
    decreases |ps|
  {
    if ps != [] {
      EnqueueAllTraffic(Enqueue(s, ps[0]), ps[1..]);
    }
  }

  lemma SendAllTraffic(s: Sched, ms: seq<(Pid, Message)>)
    ensures Traffic(s, SendAll(s, ms))
  {
    SendAllKeeps(s, ms, s.procs.Keys);
  }

  // ---- What a death does to the invariants and to the DOWN notices ----

  lemma KillKeepsInv(s: Sched, p: Pid, r: Reason, except: set<Pid>)
    requires p in s.procs && Inv(s, except)
    ensures Inv(Kill(s, p, r).0, except)
    ensures Kill(s, p, r).0.downs == s.downs + Refs(s.procs[p].monitoredBy)
    ensures forall w, q, x :: Watches(Kill(s, p, r).0.procs, w, q, x) <==> Watches(s.procs, w, q, x) && w != p && x != p
  {
    var (gone, wakes) := Gone(s, p, r);
    var ms := DownNotices(s.procs[p].monitoredBy, p, r);
    GoneTables(s, p, r);
    GoneDowns(s, p, r);
    forall q | q in gone.procs && q !in except ensures gone.procs[q].hasState {
      GoneProcess(s, p, r, q);
    }
    forall q | q in gone.procs && q !in except && q !in wakes && gone.procs[q].status == Runnable && q in gone.enqueued
      ensures Queued(gone.queues, q)
    {
      GoneProcess(s, p, r, q);
    }
    EnqueueAllHeals(gone, wakes, except);
    var woken := EnqueueAll(gone, wakes);
    SendAllKeeps(woken, ms, except);
    TrafficTrans(gone, woken, SendAll(woken, ms));
    TrafficKeepsTables(gone, SendAll(woken, ms));
    assert SendAll(woken, ms).procs.Keys == gone.procs.Keys;
    KillTraffic(s, p, r);
  }

  lemma GoneTables(s: Sched, p: Pid, r: Reason)
    requires p in s.procs && TablesOk(s.procs, s.nextRef)
    ensures TablesOk(Gone(s, p, r).0.procs, s.nextRef)
    ensures forall w, q, x :: Watches(Gone(s, p, r).0.procs, w, q, x) <==> Watches(s.procs, w, q, x) && w != p && x != p
  {
    var dying := s.procs[p];
    var t1 := DropTargets(s.procs - {p}, dying.monitors, p);
    NotifyShape(t1, dying.links, p, r);
    var told := NotifyLinks(t1, dying.links, p, r).0;
    DropWatchersRespectsWiring(t1, told, dying.monitoredBy, p);
    UnwireKeepsTables(s.procs, p, s.nextRef);
    TablesRespectWiring(Unwire(s.procs, p), Gone(s, p, r).0.procs, s.nextRef);
  }

  lemma GoneActive(s: Sched, p: Pid, r: Reason, q: Ref)
    requires p in s.procs && TablesOk(s.procs, s.nextRef) && Active(Gone(s, p, r).0.procs, q)
    ensures Active(s.procs, q)
  {
    GoneTables(s, p, r);
    var w, x :| Watches(Gone(s, p, r).0.procs, w, q, x);
    assert Watches(s.procs, w, q, x);
  }

  lemma GoneDowns(s: Sched, p: Pid, r: Reason)
    requires p in s.procs && TablesOk(s.procs, s.nextRef) && DownsOk(s)
    ensures DownsOk(Gone(s, p, r).0)
  {
    var g := Gone(s, p, r).0;
    var watchers := s.procs[p].monitoredBy;
    GoneTables(s, p, r);
    forall q, w, w' | (q, w) in watchers && (q, w') in watchers ensures w == w' {
      assert WatchedBy(s.procs, p, q, w) && WatchedBy(s.procs, p, q, w');
    }
    RefsOnce(watchers);
    forall q | q in Refs(watchers) ensures q < s.nextRef && q !in s.downs && !Active(g.procs, q) {
      var w :| (q, w) in watchers;
      assert WatchedBy(s.procs, p, q, w) && Watches(s.procs, w, q, p);
      assert Active(s.procs, q);
    }
    forall q: Ref ensures multiset(g.downs)[q] <= 1 && (q in g.downs ==> q < g.nextRef && !Active(g.procs, q)) {
      if Active(g.procs, q) {
        GoneActive(s, p, r, q);
      }
    }
  }

  /** What happened to the monitors between `s` and `u`, when processes died and nothing else. */
  ghost predicate MonitorsFollow(s: Sched, u: Sched) {
    && u.procs.Keys <= s.procs.Keys && u.nextRef == s.nextRef && u.nextPid == s.nextPid
    && s.downs <= u.downs && s.enqueued <= u.enqueued
    && (forall w, r, x :: Watches(u.procs, w, r, x) <==> Watches(s.procs, w, r, x) && w in u.procs && x in u.procs)
    && (forall w, r, x :: Watches(s.procs, w, r, x) && w in u.procs && x !in u.procs ==> r in u.downs)
    && (forall r :: r in u.downs ==> r in s.downs || TargetDied(s, u, r))
  }

  ghost predicate TargetDied(s: Sched, u: Sched, r: Ref) {
    exists w, x :: Watches(s.procs, w, r, x) && x !in u.procs
  }

  lemma MonitorsFollowTrans(s: Sched, m: Sched, u: Sched)
    requires MonitorsFollow(s, m) && MonitorsFollow(m, u)
    ensures MonitorsFollow(s, u)
  {}

  lemma KillFollows(s: Sched, p: Pid, r: Reason, except: set<Pid>)
    requires p in s.procs && Inv(s, except)
    ensures MonitorsFollow(s, Kill(s, p, r).0)
  {
    var k := Kill(s, p, r).0;
    var watchers := s.procs[p].monitoredBy;
    KillKeepsInv(s, p, r, except);
    KillShape(s, p, r);
    KillTraffic(s, p, r);
    forall q, w, w' | (q, w) in watchers && (q, w') in watchers ensures w == w' {
      assert WatchedBy(s.procs, p, q, w) && WatchedBy(s.procs, p, q, w');
    }
    RefsOnce(watchers);
    forall w, q, x | Watches(s.procs, w, q, x) && w in k.procs && x !in k.procs ensures q in k.downs {
      assert WatchedBy(s.procs, p, q, w);
    }
    forall q | q in k.downs ensures q in s.downs || TargetDied(s, k, q) {
      if q in Refs(watchers) {
        var w :| (q, w) in watchers;
        assert WatchedBy(s.procs, p, q, w) && Watches(s.procs, w, q, p);
      }
    }
    forall w, q, x | Watches(s.procs, w, q, x) ensures x in s.procs {
      assert WatchedBy(s.procs, x, q, w);
    }
  }

  lemma KillTraffic(s: Sched, p: Pid, r: Reason)
    requires p in s.procs
    ensures var k := Kill(s, p, r).0;
            k.nextPid == s.nextPid && k.nextRef == s.nextRef
            && s.enqueued <= k.enqueued && k.enqueued <= s.enqueued + s.procs.Keys
            && (OnlyEnqueued(s) ==> OnlyEnqueued(k))
  {
    var (gone, wakes) := Gone(s, p, r);
    EnqueueAllTraffic(gone, wakes);
    SendAllTraffic(EnqueueAll(gone, wakes), DownNotices(s.procs[p].monitoredBy, p, r));
  }

  lemma {:induction false} TerminateKeeps(s: Sched, p: Pid, r: Reason, except: set<Pid>)
    requires Inv(s, except)
    ensures Inv(Terminate(s, p, r), except) && MonitorsFollow(s, Terminate(s, p, r))
    decreases s.procs.Keys, 0, 0
  {
    if p in s.procs {
      var (k, cascade) := Kill(s, p, r);
      KillKeepsInv(s, p, r, except);
      KillFollows(s, p, r, except);
      KillShape(s, p, r);
      TerminateAllKeeps(k, cascade, r, except);
      MonitorsFollowTrans(s, k, Terminate(s, p, r));
    } else {
      SameFollows(s, except);
    }
  }

  lemma SameFollows(s: Sched, except: set<Pid>)
    requires Inv(s, except)
    ensures MonitorsFollow(s, s)
  {}

  lemma {:induction false} TerminateAllKeeps(s: Sched, ps: seq<Pid>, r: Reason, except: set<Pid>)
    requires Inv(s, except)
    ensures Inv(TerminateAll(s, ps, r), except) && MonitorsFollow(s, TerminateAll(s, ps, r))
    decreases s.procs.Keys, 1, |ps|
  {
    if ps == [] {
      SameFollows(s, except);
    } else {
      var next := Terminate(s, ps[0], r);
      TerminateKeeps(s, ps[0], r, except);
      TerminateAllKeeps(next, ps[1..], r, except);
      MonitorsFollowTrans(s, next, TerminateAll(s, ps, r));
    }
  }

  // ---- The cascade is exactly reachability ----

  /** Whom the death of a process drags along: the live processes it links to that do not trap exits. */
  function Drags(t: Table, links: seq<Pid>): seq<Pid> {
    if links == [] then []
    else (if links[0] in t && !t[links[0]].trapExit then [links[0]] else []) + Drags(t, links[1..])
  }

  function LinkGraph(t: Table): Deps {
    map p | p in t :: Drags(t, t[p].links)
  }

  lemma {:induction false} DragsWhich(t: Table, links: seq<Pid>)
    ensures forall q :: q in Drags(t, links) <==> q in links && q in t && !t[q].trapExit
  {
    if links != [] {
      DragsWhich(t, links[1..]);
      assert links == [links[0]] + links[1..];
    }
  }

  lemma LinkEdge(t: Table, p: Pid, q: Pid)
    ensures Edge(LinkGraph(t), p, q) <==> p in t && q in t && q in t[p].links && !t[q].trapExit
  {
    if p in t {
      DragsWhich(t, t[p].links);
    }
  }

  /** The survivors keep their links and trap flags. */
  ghost predicate Shrinks(t: Table, u: Table) {
    u.Keys <= t.Keys && forall q :: q in u ==> u[q].links == t[q].links && u[q].trapExit == t[q].trapExit
  }

  lemma ShrinkEdge(t: Table, u: Table, p: Pid, q: Pid)
    requires Shrinks(t, u)
    ensures Edge(LinkGraph(u), p, q) <==> Edge(LinkGraph(t), p, q) && p in u && q in u
  {
    LinkEdge(t, p, q);
    LinkEdge(u, p, q);
  }

  lemma ShrinkReaches(t: Table, u: Table, p: Pid, q: Pid)
    requires Shrinks(t, u) && Reaches(LinkGraph(u), p, q)
    ensures Reaches(LinkGraph(t), p, q)
  {
    var w :| WalkFromTo(LinkGraph(u), w, p, q);
    forall i | 0 <= i < |w| - 1 ensures Edge(LinkGraph(t), w[i], w[i + 1]) {
      ShrinkEdge(t, u, w[i], w[i + 1]);
    }
    assert WalkFromTo(LinkGraph(t), w, p, q);
  }

  /** Everything dragged along by the dead is dead, and nothing else died but what `roots` account for. */
  ghost predicate ExactlyDragged(t: Table, u: Table, roots: seq<Pid>) {
    && Shrinks(t, u)
    && (forall p, q :: p in t && p !in u && Edge(LinkGraph(t), p, q) ==> q !in u)
    && (forall q :: q in t && q !in u ==> DraggedFrom(t, roots, q))
  }

  ghost predicate DraggedFrom(t: Table, roots: seq<Pid>, q: Pid) {
    exists p :: p in roots && (q == p || Reaches(LinkGraph(t), p, q))
  }

  lemma {:induction false} TerminateDrags(s: Sched, p: Pid, r: Reason)
    requires r != NormalExit
    ensures ExactlyDragged(s.procs, Terminate(s, p, r).procs, [p])
    decreases s.procs.Keys, 0, 0
  {
    if p in s.procs {
      var (k, cascade) := Kill(s, p, r);
      KillShape(s, p, r);
      TerminateAllDrags(k, cascade, r);
      KillThenDrag(s, p, r, Terminate(s, p, r).procs);
    }
  }

  lemma KillThenDrag(s: Sched, p: Pid, r: Reason, u: Table)
    requires p in s.procs && r != NormalExit
    requires ExactlyDragged(Kill(s, p, r).0.procs, u, Kill(s, p, r).1)
    requires forall q :: q in Kill(s, p, r).1 ==> q !in u
    ensures ExactlyDragged(s.procs, u, [p])
  {
    KillShape(s, p, r);
    var (k, cascade) := Kill(s, p, r);
    var t := s.procs;
    forall a, b | a in t && a !in u && Edge(LinkGraph(t), a, b) ensures b !in u {
      LinkEdge(t, a, b);
      ShrinkEdge(t, k.procs, a, b);
      if a == p {
        assert b == p || b in cascade;
      }
    }
    forall q | q in t && q !in u ensures DraggedFrom(t, [p], q) {
      assert p in [p];
      if q != p {
        var c :| c in cascade && (q == c || Reaches(LinkGraph(k.procs), c, q));
        LinkEdge(t, p, c);
        EdgeReaches(LinkGraph(t), p, c);
        if q != c {
          ShrinkReaches(t, k.procs, c, q);
          EdgeThenReaches(LinkGraph(t), p, c, q);
        }
      }
    }
  }

  lemma {:induction false} TerminateAllDrags(s: Sched, ps: seq<Pid>, r: Reason)
    requires r != NormalExit
    ensures ExactlyDragged(s.procs, TerminateAll(s, ps, r).procs, ps)
    decreases s.procs.Keys, 1, |ps|
  {
    if ps != [] {
      var next := Terminate(s, ps[0], r);
      TerminateDrags(s, ps[0], r);
      TerminateAllDrags(next, ps[1..], r);
      DragThenDrag(s.procs, next.procs, TerminateAll(s, ps, r).procs, ps);
    }
  }

  lemma DragThenDrag(t: Table, m: Table, u: Table, ps: seq<Pid>)
    requires ps != [] && ExactlyDragged(t, m, [ps[0]]) && ExactlyDragged(m, u, ps[1..])
    ensures ExactlyDragged(t, u, ps)
  {
    assert ps == [ps[0]] + ps[1..];
    forall a, b | a in t && a !in u && Edge(LinkGraph(t), a, b) ensures b !in u {
      ShrinkEdge(t, m, a, b);
    }
    forall q | q in t && q !in u ensures DraggedFrom(t, ps, q) {
      if q in m {
        var p :| p in ps[1..] && (q == p || Reaches(LinkGraph(m), p, q));
        if q != p {
          ShrinkReaches(t, m, p, q);
        }
        assert p in ps;
      } else {
        assert ps[0] in ps;
      }
    }
  }

  /** Cascading death: a non-normal exit of `p` removes exactly `p` and the processes reachable from it
      along links through live processes that do not trap exits; a normal exit removes only `p`. */
  lemma DeathIsReachability(s: Sched, p: Pid, r: Reason, q: Pid)
    requires p in s.procs && q in s.procs
    ensures q !in Terminate(s, p, r).procs <==> q == p || (r != NormalExit && Reaches(LinkGraph(s.procs), p, q))
  {
    var u := Terminate(s, p, r).procs;
    if r == NormalExit {
      KillShape(s, p, r);
    } else {
      TerminateDrags(s, p, r);
      if Reaches(LinkGraph(s.procs), p, q) {
        var w :| WalkFromTo(LinkGraph(s.procs), w, p, q);
        DeadAlong(s.procs, u, w);
      }
    }
  }

  lemma {:induction false} DeadAlong(t: Table, u: Table, w: seq<Pid>)
    requires forall p, q :: p in t && p !in u && Edge(LinkGraph(t), p, q) ==> q !in u
    requires Walk(LinkGraph(t), w) && w[0] !in u
    ensures w[|w| - 1] !in u
    decreases |w|
  {
    if |w| > 1 {
      assert Edge(LinkGraph(t), w[0], w[1]);
      WalkSuffix(LinkGraph(t), w, 1);
      DeadAlong(t, u, w[1..]);
    }
  }

  /** A monitor whose target dies in a cascade that its watcher survives is announced exactly once; one
      whose target survives is not announced and stays in place. */
  lemma DownExactlyOnce(s: Sched, p: Pid, reason: Reason, except: set<Pid>, w: Pid, r: Ref, x: Pid)
    requires Inv(s, except) && Watches(s.procs, w, r, x)
    ensures var u := Terminate(s, p, reason);
            && (w in u.procs && x !in u.procs ==> multiset(u.downs)[r] == 1 && !Active(u.procs, r))
            && (w in u.procs && x in u.procs ==> r !in u.downs && Watches(u.procs, w, r, x))
  {
    TerminateKeeps(s, p, reason, except);
    var u := Terminate(s, p, reason);
    if w in u.procs && x !in u.procs {
      assert r in u.downs && multiset(u.downs)[r] <= 1;
    } else if w in u.procs {
      assert Active(u.procs, r);
    }
  }

  lemma FollowsEvolves(s: Sched, u: Sched, except: set<Pid>)
    requires Inv(s, except) && MonitorsFollow(s, u)
    ensures Evolves(s, u)
  {}
}
