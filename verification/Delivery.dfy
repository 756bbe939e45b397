/** What reaches a mailbox: mailboxes grow while processes die, DOWN notices arrive, and whoever waits has room. */
module Deliveries {
  import opened Common
  import opened Graph
  import opened Queues
  import opened Processes
  import opened Scheduling
  import opened Cascades
  import opened Cycles
  import opened SchedulerRuns

  // ---- Mailboxes only grow while nothing is dispatched ----

  /** Between `s` and `u` the mailbox of `q` grew at its end; if it did, no deadline is left, and if `q` waited for
      that it is awake and queued. */
  predicate Grown(s: Sched, u: Sched, q: Pid)
    requires q in s.procs && q in u.procs
  {
    var (a, b) := (s.procs[q], u.procs[q]);
    && a.mailbox <= b.mailbox && a.capacity == b.capacity
    && (b.mailbox == a.mailbox || |b.mailbox| <= b.capacity)
    && b.timeout == (if b.mailbox == a.mailbox then a.timeout else None)
    && (Queued(s.queues, q) ==> Queued(u.queues, q))
    && (b.status == a.status || (a.status == Waiting && b.status == Runnable && Queued(u.queues, q)))
    && (a.status == Waiting && |a.mailbox| < |b.mailbox| ==> b.status == Runnable && Queued(u.queues, q))
  }

  ghost predicate Grows(s: Sched, u: Sched) {
    forall q :: q in u.procs ==> q in s.procs && Grown(s, u, q)
  }

  lemma GrowsTrans(s: Sched, m: Sched, u: Sched)
    requires Grows(s, m) && Grows(m, u)
    ensures Grows(s, u)
  {
    forall q | q in u.procs ensures q in s.procs && Grown(s, u, q) {
      assert Grown(m, u, q) && Grown(s, m, q);
    }
  }

  lemma EnqueueGrows(s: Sched, p: Pid)
    ensures Grows(s, Enqueue(s, p)) && (p in s.procs ==> Queued(Enqueue(s, p).queues, p))
  {
    if p in s.procs {
      PushQueues(s.queues, s.procs[p].priority, p);
    }
  }

  lemma SendGrows(s: Sched, to: Pid, m: Message)
    ensures Grows(s, Send(s, to, m))
    ensures to in s.procs ==> Delivered(s, Send(s, to, m), to, m)
  {
    if to in s.procs {
      PushQueues(s.queues, s.procs[to].priority, to);
    }
  }

  /** Since `s`, the process got this message, or its mailbox is full. */
  predicate Delivered(s: Sched, u: Sched, w: Pid, m: Message) {
    && w in s.procs && w in u.procs && |s.procs[w].mailbox| <= |u.procs[w].mailbox|
    && (m in u.procs[w].mailbox[|s.procs[w].mailbox|..] || Full(u.procs[w]))
  }

  /** What was delivered stays delivered. */
  lemma StaysDelivered(s: Sched, a: Sched, b: Sched, u: Sched, w: Pid, m: Message)
    requires Delivered(a, b, w, m) && w in u.procs && Grows(b, u)
    requires w in s.procs && s.procs[w].mailbox <= a.procs[w].mailbox
    ensures Delivered(s, u, w, m)
  {
    assert Grown(b, u, w);
    var start, from, before, after := |s.procs[w].mailbox|, |a.procs[w].mailbox|, b.procs[w].mailbox, u.procs[w].mailbox;
    if m in before[from..] {
      var i :| 0 <= i < |before| - from && before[from..][i] == m;
      assert after[start..][from + i - start] == m;
    }
  }

  lemma {:induction false} SendAllGrows(s: Sched, ms: seq<(Pid, Message)>)
    ensures Grows(s, SendAll(s, ms)) && SendAll(s, ms).procs.Keys == s.procs.Keys
    decreases |ms|
  {
    hide Grown;
    if ms == [] {
      GrowsRefl(s);
    } else {
      var next := Send(s, ms[0].0, ms[0].1);
      SendGrows(s, ms[0].0, ms[0].1);
      SendAllGrows(next, ms[1..]);
      GrowsTrans(s, next, SendAll(next, ms[1..]));
    }
  }

  lemma GrowsRefl(s: Sched)
    ensures Grows(s, s)
  {}

  lemma {:induction false} SendAllDelivers(s: Sched, ms: seq<(Pid, Message)>, w: Pid, m: Message)
    requires (w, m) in ms && w in s.procs
    ensures Delivered(s, SendAll(s, ms), w, m)
    decreases |ms|
  {
    hide Grown, Delivered;
    var next := Send(s, ms[0].0, ms[0].1);
    var last := SendAll(next, ms[1..]);
    SendGrows(s, ms[0].0, ms[0].1);
    SendAllGrows(next, ms[1..]);
    GrowsRefl(last);
    GrownMailbox(s, next, w);
    if ms[0] == (w, m) {
      StaysDelivered(s, s, next, last, w, m);
    } else {
      assert ms == [ms[0]] + ms[1..];
      SendAllDelivers(next, ms[1..], w, m);
      StaysDelivered(s, next, last, last, w, m);
    }
  }

  lemma GrownMailbox(s: Sched, u: Sched, w: Pid)
    requires Grows(s, u) && w in u.procs
    ensures w in s.procs && s.procs[w].mailbox <= u.procs[w].mailbox
  {
    assert Grown(s, u, w);
  }

  // ---- One death ----

  lemma {:induction false} NotifyMail(t: Table, links: seq<Pid>, p: Pid, r: Reason, q: Pid)
    requires q in t
    ensures var (u, wakes, _) := NotifyLinks(t, links, p, r);
            && q in u && t[q].mailbox <= u[q].mailbox && t[q].capacity == u[q].capacity
            && (u[q].mailbox == t[q].mailbox || |u[q].mailbox| <= u[q].capacity)
            && u[q].timeout == (if u[q].mailbox == t[q].mailbox then t[q].timeout else None)
            && (u[q].status == t[q].status || (t[q].status == Waiting && u[q].status == Runnable && q in wakes))
            && (t[q].status == Waiting && |t[q].mailbox| < |u[q].mailbox| ==> u[q].status == Runnable && q in wakes)
    decreases |links|
  {
    if links != [] {
      var l := links[0];
      NotifyMail(if l in t && t[l].trapExit then t[l := Deliver(t[l], Exit(p, r))] else t, links[1..], p, r, q);
    }
  }

  lemma {:induction false} EnqueueAllGrows(s: Sched, ps: seq<Pid>)
    ensures var u := EnqueueAll(s, ps);
            && Grows(s, u) && u.procs == s.procs
            && forall q :: q in ps && q in s.procs ==> Queued(u.queues, q)
    decreases |ps|
  {
    if ps != [] {
      EnqueueGrows(s, ps[0]);
      EnqueueAllGrows(Enqueue(s, ps[0]), ps[1..]);
      GrowsTrans(s, Enqueue(s, ps[0]), EnqueueAll(s, ps));
      forall q | q in ps && q in s.procs ensures Queued(EnqueueAll(s, ps).queues, q) {
        assert ps == [ps[0]] + ps[1..];
        assert Grown(Enqueue(s, ps[0]), EnqueueAll(s, ps), q);
      }
    }
  }

  /** What a death does to the mailbox and the status of somebody else before anybody is woken. */
  lemma GoneMail(s: Sched, p: Pid, r: Reason, q: Pid)
    requires p in s.procs && q in Gone(s, p, r).0.procs
    ensures var ((g, wakes), a) := (Gone(s, p, r), s.procs);
            && q in a && a[q].mailbox <= g.procs[q].mailbox && a[q].capacity == g.procs[q].capacity
            && (g.procs[q].mailbox == a[q].mailbox || |g.procs[q].mailbox| <= g.procs[q].capacity)
            && g.procs[q].timeout == (if g.procs[q].mailbox == a[q].mailbox then a[q].timeout else None)
            && (g.procs[q].status == a[q].status ||
                (a[q].status == Waiting && g.procs[q].status == Runnable && q in wakes))
            && (a[q].status == Waiting && |a[q].mailbox| < |g.procs[q].mailbox| ==>
                  g.procs[q].status == Runnable && q in wakes)
            && g.queues == s.queues
  {
    var t0 := s.procs - {p};
    var t1 := DropTargets(t0, s.procs[p].monitors, p);
    NotifyShape(t1, s.procs[p].links, p, r);
    DropTargetsShape(t0, s.procs[p].monitors, p, q);
    NotifyMail(t1, s.procs[p].links, p, r, q);
    DropWatchersShape(NotifyLinks(t1, s.procs[p].links, p, r).0, s.procs[p].monitoredBy, p, q);
  }

  lemma KillGrows(s: Sched, p: Pid, r: Reason)
    requires p in s.procs
    ensures Grows(s, Kill(s, p, r).0)
  {
    hide NotifyLinks, DropTargets, DropWatchers;
    var (g, wakes) := Gone(s, p, r);
    var woken := EnqueueAll(g, wakes);
    EnqueueAllGrows(g, wakes);
    forall q | q in woken.procs ensures q in s.procs && Grown(s, woken, q) {
      GoneMail(s, p, r, q);
      assert Grown(g, woken, q);
    }
    SendAllGrows(woken, DownNotices(s.procs[p].monitoredBy, p, r));
    GrowsTrans(s, woken, Kill(s, p, r).0);
  }

  lemma {:induction false} NoticeFor(l: seq<(Ref, Pid)>, p: Pid, reason: Reason, r: Ref, w: Pid)
    requires (r, w) in l
    ensures (w, Down(r, p, reason)) in DownNotices(l, p, reason)
  {
    if l[0] != (r, w) {
      assert l == [l[0]] + l[1..];
      NoticeFor(l[1..], p, reason, r, w);
    }
  }

  lemma KillDelivers(s: Sched, p: Pid, reason: Reason, r: Ref, w: Pid)
    requires p in s.procs && WatchedBy(s.procs, p, r, w) && w in Kill(s, p, reason).0.procs
    ensures Delivered(s, Kill(s, p, reason).0, w, Down(r, p, reason))
  {
    hide NotifyLinks, DropTargets, DropWatchers, Delivered, Grown;
    var (g, wakes) := Gone(s, p, reason);
    var woken, notices, k := EnqueueAll(g, wakes), DownNotices(s.procs[p].monitoredBy, p, reason), Kill(s, p, reason).0;
    EnqueueAllGrows(g, wakes);
    SendAllGrows(woken, notices);
    GoneMail(s, p, reason, w);
    NoticeFor(s.procs[p].monitoredBy, p, reason, r, w);
    SendAllDelivers(woken, notices, w, Down(r, p, reason));
    GrowsRefl(k);
    StaysDelivered(s, woken, k, k, w, Down(r, p, reason));
  }

  // ---- The whole cascade ----

  lemma {:induction false} TerminateGrows(s: Sched, p: Pid, r: Reason)
    ensures Grows(s, Terminate(s, p, r))
    decreases s.procs.Keys, 0, 0
  {
    hide Grown, Kill;
    if p in s.procs {
      var (k, cascade) := Kill(s, p, r);
      KillShape(s, p, r);
      KillGrows(s, p, r);
      TerminateAllGrows(k, cascade, r);
      GrowsTrans(s, k, Terminate(s, p, r));
    } else {
      GrowsRefl(s);
    }
  }

  lemma {:induction false} TerminateAllGrows(s: Sched, ps: seq<Pid>, r: Reason)
    ensures Grows(s, TerminateAll(s, ps, r))
    decreases s.procs.Keys, 1, |ps|
  {
    hide Grown;
    if ps == [] {
      GrowsRefl(s);
    } else {
      var m := Terminate(s, ps[0], r);
      TerminateGrows(s, ps[0], r);
      TerminateAllGrows(m, ps[1..], r);
      GrowsTrans(s, m, TerminateAll(m, ps[1..], r));
    }
  }

  lemma {:induction false} TerminateDelivers(s: Sched, p: Pid, reason: Reason, except: set<Pid>, w: Pid, r: Ref, x: Pid)
    requires Inv(s, except) && Watches(s.procs, w, r, x)
    requires w in Terminate(s, p, reason).procs && x !in Terminate(s, p, reason).procs
    ensures Delivered(s, Terminate(s, p, reason), w, Down(r, x, reason))
    decreases s.procs.Keys, 0, 0
  {
    hide Delivered, Grown, Kill, Inv;
    var u := Terminate(s, p, reason);
    WatchedToo(s, except, w, r, x);
    if p in s.procs {
      var (k, cascade) := Kill(s, p, reason);
      KillShape(s, p, reason);
      KillGrows(s, p, reason);
      KillKeepsInv(s, p, reason, except);
      TerminateAllGrows(k, cascade, reason);
      GrownMailbox(k, u, w);
      GrownMailbox(s, k, w);
      if x == p {
        KillDelivers(s, p, reason, r, w);
        StaysDelivered(s, s, k, u, w, Down(r, x, reason));
      } else {
        assert Watches(k.procs, w, r, x);
        TerminateAllDelivers(k, cascade, reason, except, w, r, x);
        GrowsRefl(u);
        StaysDelivered(s, k, u, u, w, Down(r, x, reason));
      }
    }
  }

  lemma WatchedToo(s: Sched, except: set<Pid>, w: Pid, r: Ref, x: Pid)
    requires Inv(s, except) && Watches(s.procs, w, r, x)
    ensures WatchedBy(s.procs, x, r, w)
  {}

  lemma {:induction false} TerminateAllDelivers(s: Sched, ps: seq<Pid>, reason: Reason, except: set<Pid>, w: Pid, r: Ref,
                                                x: Pid)
    requires Inv(s, except) && Watches(s.procs, w, r, x)
    requires w in TerminateAll(s, ps, reason).procs && x !in TerminateAll(s, ps, reason).procs
    ensures Delivered(s, TerminateAll(s, ps, reason), w, Down(r, x, reason))
    decreases s.procs.Keys, 1, |ps|
  {
    hide Delivered, Grown, Inv, Terminate;
    WatchedToo(s, except, w, r, x);
    if ps != [] {
      var m, u := Terminate(s, ps[0], reason), TerminateAll(s, ps, reason);
      TerminateGrows(s, ps[0], reason);
      TerminateKeeps(s, ps[0], reason, except);
      TerminateAllGrows(m, ps[1..], reason);
      GrownMailbox(m, u, w);
      GrownMailbox(s, m, w);
      if x !in m.procs {
        TerminateDelivers(s, ps[0], reason, except, w, r, x);
        StaysDelivered(s, s, m, u, w, Down(r, x, reason));
      } else {
        TerminateAllDelivers(m, ps[1..], reason, except, w, r, x);
        GrowsRefl(u);
        StaysDelivered(s, m, u, u, w, Down(r, x, reason));
      }
    }
  }

  /** A surviving watcher gets the notice of a target that dies in the cascade, unless its mailbox is full at the
      end; and a watcher that was waiting, with room, is awake and queued. */
  lemma DownReachesWatcher(s: Sched, p: Pid, reason: Reason, except: set<Pid>, w: Pid, r: Ref, x: Pid)
    requires Inv(s, except) && Watches(s.procs, w, r, x)
    requires w in Terminate(s, p, reason).procs && x !in Terminate(s, p, reason).procs
    ensures var u := Terminate(s, p, reason);
            && Delivered(s, u, w, Down(r, x, reason))
            && (s.procs[w].status == Waiting && !Full(s.procs[w]) ==>
                  u.procs[w].status == Runnable && Queued(u.queues, w))
  {
    hide Inv, Terminate;
    var u := Terminate(s, p, reason);
    TerminateDelivers(s, p, reason, except, w, r, x);
    TerminateGrows(s, p, reason);
    assert Grown(s, u, w);
  }

  // ---- Exits reach whoever traps them ----

  /** The loop over the links of a dead `p` leaves its exit with each process that traps exits. */
  lemma {:induction false} NotifyTells(t: Table, links: seq<Pid>, p: Pid, r: Reason, q: Pid)
    requires q in t && t[q].trapExit && q in links
    ensures var u := NotifyLinks(t, links, p, r).0;
            && q in u && |t[q].mailbox| <= |u[q].mailbox|
            && (Exit(p, r) in u[q].mailbox[|t[q].mailbox|..] || Full(u[q]))
    decreases |links|
  {
    var l := links[0];
    var next := if l in t && t[l].trapExit then t[l := Deliver(t[l], Exit(p, r))] else t;
    NotifyMail(next, links[1..], p, r, q);
    if l != q {
      assert links == [l] + links[1..];
      NotifyTells(next, links[1..], p, r, q);
    } else if !Full(t[q]) {
      assert next[q].mailbox[|t[q].mailbox|] == Exit(p, r);
    }
  }

  lemma KillTells(s: Sched, p: Pid, r: Reason, q: Pid)
    requires p in s.procs && q in s.procs && q != p && s.procs[q].trapExit && q in s.procs[p].links
    ensures Delivered(s, Kill(s, p, r).0, q, Exit(p, r))
  {
    hide Grown, Delivered;
    var (g, wakes) := Gone(s, p, r);
    var woken, k := EnqueueAll(g, wakes), Kill(s, p, r).0;
    GoneTells(s, p, r, q);
    EnqueueAllGrows(g, wakes);
    SendAllGrows(woken, DownNotices(s.procs[p].monitoredBy, p, r));
    GrowsTrans(g, woken, k);
    StaysDelivered(s, s, g, k, q, Exit(p, r));
  }

  lemma GoneTells(s: Sched, p: Pid, r: Reason, q: Pid)
    requires p in s.procs && q in s.procs && q != p && s.procs[q].trapExit && q in s.procs[p].links
    ensures Delivered(s, Gone(s, p, r).0, q, Exit(p, r))
  {
    var t0 := s.procs - {p};
    var t1 := DropTargets(t0, s.procs[p].monitors, p);
    var told := NotifyLinks(t1, s.procs[p].links, p, r).0;
    DropTargetsShape(t0, s.procs[p].monitors, p, q);
    NotifyShape(t1, s.procs[p].links, p, r);
    NotifyTells(t1, s.procs[p].links, p, r, q);
    DropWatchersShape(told, s.procs[p].monitoredBy, p, q);
  }

  /** The survivors keep their links and trap flags. */
  lemma TerminateShrinks(s: Sched, p: Pid, r: Reason)
    ensures Shrinks(s.procs, Terminate(s, p, r).procs)
  {
    if r != NormalExit {
      TerminateDrags(s, p, r);
    } else if p in s.procs {
      KillShape(s, p, r);
      assert TerminateAll(Kill(s, p, r).0, [], r) == Kill(s, p, r).0;
    }
  }

  /** Who traps exits dies in no cascade. */
  lemma TerminateSpares(s: Sched, p: Pid, r: Reason, q: Pid)
    requires q in s.procs && q != p && s.procs[q].trapExit
    ensures q in Terminate(s, p, r).procs && Shrinks(s.procs, Terminate(s, p, r).procs)
  {
    TerminateShrinks(s, p, r);
    if p in s.procs {
      DeathIsReachability(s, p, r, q);
      if q !in Terminate(s, p, r).procs {
        var y := LastEdge(LinkGraph(s.procs), p, q);
        LinkEdge(s.procs, y, q);
      }
    }
  }

  lemma {:induction false} TerminateTells(s: Sched, p: Pid, r: Reason, x: Pid, q: Pid)
    requires q in s.procs && q != p && s.procs[q].trapExit && x in s.procs && q in s.procs[x].links
    requires x !in Terminate(s, p, r).procs
    ensures Delivered(s, Terminate(s, p, r), q, Exit(x, r))
    decreases s.procs.Keys, 0, 0
  {
    hide Delivered, Grown, Kill;
    var u := Terminate(s, p, r);
    TerminateSpares(s, p, r, q);
    var (k, cascade) := Kill(s, p, r);
    KillShape(s, p, r);
    KillGrows(s, p, r);
    TerminateAllGrows(k, cascade, r);
    GrownMailbox(s, k, q);
    if x == p {
      KillTells(s, p, r, q);
      StaysDelivered(s, s, k, u, q, Exit(x, r));
    } else {
      TerminateAllTells(k, cascade, r, x, q);
      GrowsRefl(u);
      StaysDelivered(s, k, u, u, q, Exit(x, r));
    }
  }

  lemma {:induction false} TerminateAllTells(s: Sched, ps: seq<Pid>, r: Reason, x: Pid, q: Pid)
    requires q in s.procs && q !in ps && s.procs[q].trapExit && x in s.procs && q in s.procs[x].links
    requires x !in TerminateAll(s, ps, r).procs
    ensures Delivered(s, TerminateAll(s, ps, r), q, Exit(x, r))
    ensures q in TerminateAll(s, ps, r).procs
    decreases s.procs.Keys, 1, |ps|
  {
    hide Delivered, Grown, Terminate;
    var m, u := Terminate(s, ps[0], r), TerminateAll(s, ps, r);
    assert ps[0] in ps && forall y :: y in ps[1..] ==> y in ps;
    TerminateSpares(s, ps[0], r, q);
    TerminateGrows(s, ps[0], r);
    TerminateAllGrows(m, ps[1..], r);
    GrownMailbox(s, m, q);
    if x !in m.procs {
      TerminateTells(s, ps[0], r, x, q);
      AllSpare(m, ps[1..], r, q);
      StaysDelivered(s, s, m, u, q, Exit(x, r));
    } else {
      TerminateAllTells(m, ps[1..], r, x, q);
      GrowsRefl(u);
      StaysDelivered(s, m, u, u, q, Exit(x, r));
    }
  }

  lemma {:induction false} AllSpare(s: Sched, ps: seq<Pid>, r: Reason, q: Pid)
    requires q in s.procs && q !in ps && s.procs[q].trapExit
    ensures q in TerminateAll(s, ps, r).procs
    decreases |ps|
  {
    if ps != [] {
      assert ps[0] in ps && forall y :: y in ps[1..] ==> y in ps;
      TerminateSpares(s, ps[0], r, q);
      AllSpare(Terminate(s, ps[0], r), ps[1..], r, q);
    }
  }

  /** A process that traps exits outlives every other process, and gets the exit, with its reason, of each process
      that links to it and dies in the cascade, unless its mailbox is full at the end; if it was waiting, with room,
      it is awake and queued. */
  lemma ExitReachesTrapper(s: Sched, p: Pid, r: Reason, x: Pid, q: Pid)
    requires q in s.procs && q != p && s.procs[q].trapExit
    requires x in s.procs && q in s.procs[x].links && x !in Terminate(s, p, r).procs
    ensures var u := Terminate(s, p, r);
            && Delivered(s, u, q, Exit(x, r))
            && (s.procs[q].status == Waiting && !Full(s.procs[q]) ==>
                  u.procs[q].status == Runnable && Queued(u.queues, q))
  {
    hide Terminate;
    TerminateTells(s, p, r, x, q);
    TerminateGrows(s, p, r);
    assert Grown(s, Terminate(s, p, r), q);
  }

  // ---- Nothing else arrives ----

  /** `m` tells `q` of a process that died between `s` and `u`, which it traps or watches. */
  predicate Notice(s: Sched, u: Sched, q: Pid, r: Reason, m: Message)
    requires q in s.procs
  {
    match m
    case Exit(x, why) => why == r && x in s.procs && x !in u.procs && q in s.procs[x].links && s.procs[q].trapExit
    case Down(ref, x, why) => why == r && x !in u.procs && Watches(s.procs, q, ref, x)
    case _ => false
  }

  ghost predicate OnlyNotices(s: Sched, u: Sched, q: Pid, r: Reason) {
    && q in s.procs && q in u.procs
    && forall i :: |s.procs[q].mailbox| <= i < |u.procs[q].mailbox| ==> Notice(s, u, q, r, u.procs[q].mailbox[i])
  }

  lemma {:induction false} NotifyAdds(t: Table, links: seq<Pid>, p: Pid, r: Reason, q: Pid, i: nat)
    requires q in t && q in NotifyLinks(t, links, p, r).0
    requires |t[q].mailbox| <= i < |NotifyLinks(t, links, p, r).0[q].mailbox|
    ensures NotifyLinks(t, links, p, r).0[q].mailbox[i] == Exit(p, r) && q in links && t[q].trapExit
    decreases |links|
  {
    var l := links[0];
    var next := if l in t && t[l].trapExit then t[l := Deliver(t[l], Exit(p, r))] else t;
    NotifyMail(next, links[1..], p, r, q);
    assert links == [l] + links[1..];
    if i < |next[q].mailbox| {
      assert NotifyLinks(next, links[1..], p, r).0[q].mailbox[i] == next[q].mailbox[i];
    } else {
      NotifyAdds(next, links[1..], p, r, q, i);
    }
  }

  lemma {:induction false} SendAllAdds(s: Sched, ms: seq<(Pid, Message)>, q: Pid)
    requires q in s.procs
    ensures var u := SendAll(s, ms);
            q in u.procs && forall i :: |s.procs[q].mailbox| <= i < |u.procs[q].mailbox| ==> (q, u.procs[q].mailbox[i]) in ms
    decreases |ms|
  {
    hide Grown;
    SendAllGrows(s, ms);
    if ms != [] {
      var next := Send(s, ms[0].0, ms[0].1);
      SendAllGrows(next, ms[1..]);
      GrownMailbox(next, SendAll(next, ms[1..]), q);
      SendAllAdds(next, ms[1..], q);
      assert ms == [ms[0]] + ms[1..];
    }
  }

  lemma {:induction false} NoticesFor(l: seq<(Ref, Pid)>, p: Pid, reason: Reason, w: Pid, m: Message)
    requires (w, m) in DownNotices(l, p, reason)
    ensures m.Down? && m == Down(m.ref, p, reason) && (m.ref, w) in l
  {
    assert l == [l[0]] + l[1..];
    if (w, m) != (l[0].1, Down(l[0].0, p, reason)) {
      NoticesFor(l[1..], p, reason, w, m);
    }
  }

  lemma KillNotices(s: Sched, p: Pid, r: Reason, except: set<Pid>, q: Pid)
    requires p in s.procs && q in s.procs && q != p && Inv(s, except)
    ensures OnlyNotices(s, Kill(s, p, r).0, q, r)
  {
    hide Grown, NotifyLinks, DropTargets, DropWatchers, Inv;
    var (g, wakes) := Gone(s, p, r);
    var notices := DownNotices(s.procs[p].monitoredBy, p, r);
    var woken, k := EnqueueAll(g, wakes), Kill(s, p, r).0;
    KillShape(s, p, r);
    EnqueueAllGrows(g, wakes);
    SendAllAdds(woken, notices, q);
    forall i | |s.procs[q].mailbox| <= i < |k.procs[q].mailbox| ensures Notice(s, k, q, r, k.procs[q].mailbox[i]) {
      SendAllGrows(woken, notices);
      GrownMailbox(woken, k, q);
      if i < |g.procs[q].mailbox| {
        GoneAdds(s, p, r, q, i);
      } else {
        NoticesFor(s.procs[p].monitoredBy, p, r, q, k.procs[q].mailbox[i]);
        WatchesToo(s, except, q, k.procs[q].mailbox[i].ref, p);
      }
    }
  }

  lemma WatchesToo(s: Sched, except: set<Pid>, w: Pid, r: Ref, x: Pid)
    requires Inv(s, except) && WatchedBy(s.procs, x, r, w)
    ensures Watches(s.procs, w, r, x)
  {}

  lemma GoneAdds(s: Sched, p: Pid, r: Reason, q: Pid, i: nat)
    requires p in s.procs && q in s.procs && q != p
    requires |s.procs[q].mailbox| <= i < |Gone(s, p, r).0.procs[q].mailbox|
    ensures Gone(s, p, r).0.procs[q].mailbox[i] == Exit(p, r) && q in s.procs[p].links && s.procs[q].trapExit
  {
    var t0 := s.procs - {p};
    var t1 := DropTargets(t0, s.procs[p].monitors, p);
    var told := NotifyLinks(t1, s.procs[p].links, p, r).0;
    DropTargetsShape(t0, s.procs[p].monitors, p, q);
    NotifyShape(t1, s.procs[p].links, p, r);
    DropWatchersShape(told, s.procs[p].monitoredBy, p, q);
    NotifyAdds(t1, s.procs[p].links, p, r, q, i);
  }

  lemma OnlyNoticesTrans(s: Sched, m: Sched, u: Sched, q: Pid, r: Reason)
    requires OnlyNotices(s, m, q, r) && OnlyNotices(m, u, q, r) && m.procs[q].mailbox <= u.procs[q].mailbox
    requires MonitorsFollow(s, m) && Shrinks(s.procs, m.procs) && u.procs.Keys <= m.procs.Keys
    ensures OnlyNotices(s, u, q, r)
  {
    forall i | |s.procs[q].mailbox| <= i < |u.procs[q].mailbox| ensures Notice(s, u, q, r, u.procs[q].mailbox[i]) {
      if i < |m.procs[q].mailbox| {
        assert Notice(s, m, q, r, m.procs[q].mailbox[i]);
      } else {
        assert Notice(m, u, q, r, u.procs[q].mailbox[i]);
      }
    }
  }

  /** A survivor of a cascade finds nothing new in its mailbox but exits it traps and notices of targets it watched,
      each of a process that died, with the reason. */
  lemma {:induction false} SurvivorsGetOnlyNotices(s: Sched, p: Pid, r: Reason, except: set<Pid>, q: Pid)
    requires Inv(s, except) && q in Terminate(s, p, r).procs
    ensures OnlyNotices(s, Terminate(s, p, r), q, r)
    decreases s.procs.Keys, 0, 0
  {
    hide Grown, Inv, OnlyNotices, Kill, MonitorsFollow;
    var u := Terminate(s, p, r);
    if p in s.procs {
      var (k, cascade) := Kill(s, p, r);
      KillShape(s, p, r);
      KillNotices(s, p, r, except, q);
      KillKeepsInv(s, p, r, except);
      KillFollows(s, p, r, except);
      TerminateAllGrows(k, cascade, r);
      GrownMailbox(k, u, q);
      AllGetOnlyNotices(k, cascade, r, except, q);
      OnlyNoticesTrans(s, k, u, q, r);
    } else {
      NothingNoticed(s, q, r);
    }
  }

  lemma NothingNoticed(s: Sched, q: Pid, r: Reason)
    requires q in s.procs
    ensures OnlyNotices(s, s, q, r)
  {}

  lemma {:induction false} AllGetOnlyNotices(s: Sched, ps: seq<Pid>, r: Reason, except: set<Pid>, q: Pid)
    requires Inv(s, except) && q in TerminateAll(s, ps, r).procs
    ensures OnlyNotices(s, TerminateAll(s, ps, r), q, r)
    decreases s.procs.Keys, 1, |ps|
  {
    hide Grown, Inv, OnlyNotices, Terminate, MonitorsFollow;
    var u := TerminateAll(s, ps, r);
    if ps == [] {
      NothingNoticed(s, q, r);
    } else {
      var m := Terminate(s, ps[0], r);
      TerminateKeeps(s, ps[0], r, except);
      TerminateShrinks(s, ps[0], r);
      TerminateAllGrows(m, ps[1..], r);
      GrownMailbox(m, u, q);
      SurvivorsGetOnlyNotices(s, ps[0], r, except, q);
      AllGetOnlyNotices(m, ps[1..], r, except, q);
      OnlyNoticesTrans(s, m, u, q, r);
    }
  }

  // ---- Whoever waits has room ----

  predicate HasRoom(p: Process) {
    p.capacity > 0 && |p.mailbox| <= p.capacity && (p.status == Waiting ==> |p.mailbox| < p.capacity)
  }

  /** No mailbox is over its capacity, and no process waits with a full one. */
  ghost predicate Roomy(s: Sched) {
    forall p :: p in s.procs ==> HasRoom(s.procs[p])
  }

  lemma GrowthKeepsRoom(s: Sched, u: Sched)
    requires Roomy(s) && Grows(s, u)
    ensures Roomy(u)
  {
    forall q | q in u.procs ensures HasRoom(u.procs[q]) {
      assert Grown(s, u, q) && HasRoom(s.procs[q]);
    }
  }

  /** Mailboxes and statuses stay. */
  ghost predicate SameMail(s: Sched, u: Sched) {
    forall q :: q in u.procs ==>
      && q in s.procs && u.procs[q].mailbox == s.procs[q].mailbox
      && u.procs[q].capacity == s.procs[q].capacity && u.procs[q].status == s.procs[q].status
  }

  lemma SameMailKeepsRoom(s: Sched, u: Sched)
    requires Roomy(s) && SameMail(s, u)
    ensures Roomy(u)
  {
    forall q | q in u.procs ensures HasRoom(u.procs[q]) {
      assert HasRoom(s.procs[q]);
    }
  }

  lemma EnqueueRoom(s: Sched, p: Pid)
    requires Roomy(s)
    ensures Roomy(Enqueue(s, p))
  {
    EnqueueGrows(s, p);
    GrowthKeepsRoom(s, Enqueue(s, p));
  }

  lemma SendRoom(s: Sched, to: Pid, m: Message)
    requires Roomy(s)
    ensures Roomy(Send(s, to, m))
  {
    SendGrows(s, to, m);
    GrowthKeepsRoom(s, Send(s, to, m));
  }

  lemma SpawnRoom(s: Sched)
    requires Roomy(s)
    ensures Roomy(Spawn(s)) && Roomy(PassPid(s))
  {
    forall q | q in Spawn(s).procs ensures HasRoom(Spawn(s).procs[q]) {
      if q != s.nextPid {
        assert HasRoom(s.procs[q]);
      }
    }
  }

  lemma SpawnAtRoom(s: Sched, lane: Priority, starts: bool)
    requires Roomy(s)
    ensures Roomy(SpawnAt(s, lane, starts))
  {
    SpawnRoom(s);
    if starts {
      var born := Spawn(s);
      var ranked := Replace(born, s.nextPid, born.procs[s.nextPid].(priority := lane));
      SameMailKeepsRoom(born, ranked);
      EnqueueRoom(ranked, s.nextPid);
    }
  }

  lemma DemonitorRoom(s: Sched, w: Pid, r: Ref)
    requires Roomy(s)
    ensures Roomy(Demonitor(s, w, r).1)
  {
    hide SwapRemove, Forget, Position, Roomy, HasRoom, SameMail;
    var (found, u) := Demonitor(s, w, r);
    if found {
      var watcher := s.procs[w];
      var pos := Position(watcher.monitors, r).value;
      var mid := s.(procs := s.procs[w := watcher.(monitors := SwapRemove(watcher.monitors, pos))]);
      RewiredRoom(s, mid, w);
      RewiredRoom(mid, u, watcher.monitors[pos].1);
    }
  }

  lemma RewiredRoom(s: Sched, u: Sched, p: Pid)
    requires Roomy(s) && u.procs.Keys == s.procs.Keys && forall q :: q in u.procs && q != p ==> u.procs[q] == s.procs[q]
    requires p in u.procs ==>
               u.procs[p].(monitors := [], monitoredBy := []) == s.procs[p].(monitors := [], monitoredBy := [])
    ensures Roomy(u)
  {
    SameMailKeepsRoom(s, u);
  }

  lemma LinkRoom(s: Sched, p: Pid, q: Pid)
    requires Roomy(s)
    ensures Roomy(AddLink(AddLink(s, p, q), q, p))
  {
    SameMailKeepsRoom(s, AddLink(AddLink(s, p, q), q, p));
  }

  lemma SpawnChildRoom(s: Sched, parent: Pid, link: bool, monitor: bool)
    requires Roomy(s)
    ensures Roomy(SpawnChildOf(s, parent, link, monitor))
  {
    hide Roomy, Spawn, AddLink, Monitor, Send, Enqueue;
    var child, born := s.nextPid, Spawn(s);
    SpawnRoom(s);
    LinkRoom(born, parent, child);
    var linked := if link then AddLink(AddLink(born, parent, child), child, parent) else born;
    var watched := monitor && parent in linked.procs && child in linked.procs;
    if watched {
      MonitorRoom(linked, parent, child);
    }
    var joined := if watched then Monitor(linked, parent, child) else linked;
    var note := SpawnResult(child, if watched then Some(linked.nextRef) else None);
    SendRoom(joined, parent, note);
    EnqueueRoom(Send(joined, parent, note), child);
  }

  lemma MonitorRoom(s: Sched, w: Pid, x: Pid)
    requires Roomy(s) && w in s.procs && x in s.procs
    ensures Roomy(Monitor(s, w, x))
  {
    SameMailKeepsRoom(s, Monitor(s, w, x));
  }

  lemma {:induction false} SpawnAllRoom(s: Sched, parent: Pid, spawns: seq<(bool, bool)>, inits: nat -> bool, k: nat)
    requires Roomy(s)
    ensures Roomy(SpawnAll(s, parent, spawns, inits, k))
    decreases |spawns|
  {
    hide Roomy, SpawnChildOf, PassPid;
    if spawns != [] {
      SpawnRoom(s);
      SpawnChildRoom(s, parent, spawns[0].0, spawns[0].1);
      var next := if inits(k) then SpawnChildOf(s, parent, spawns[0].0, spawns[0].1) else PassPid(s);
      SpawnAllRoom(next, parent, spawns[1..], inits, k + 1);
    }
  }

  /** A process that asks for I/O has just taken a message, so it waits with room. */
  lemma AnswerRoom(s: Sched, pid: Pid, o: Outcome, accepted: bool)
    requires Roomy(s) && pid in s.procs && s.procs[pid].mailbox != []
    ensures Roomy(Answer(s, pid, o, accepted))
  {
    var u := Answer(s, pid, o, accepted);
    forall q | q in u.procs ensures HasRoom(u.procs[q]) {
      assert HasRoom(s.procs[q]);
    }
  }

  lemma {:induction false} DispatchRoom(s: Sched, pid: Pid, c: Choices, k: nat)
    requires Roomy(s) && pid in s.procs
    ensures var d := DispatchFrom(s, pid, c, k);
            Roomy(d.sched) && pid in d.sched.procs && (d.ending.Drained? ==> d.sched.procs[pid].mailbox == [])
    decreases s.procs[pid].reductions
  {
    hide Roomy, Answer;
    if s.procs[pid].reductions > 0 && s.procs[pid].mailbox != [] {
      var o := c.answer(k);
      AnswerRoom(s, pid, o, c.accepted);
      AnswerShape(s, pid, o, c.accepted);
      if VerdictOf(o).Go? {
        DispatchRoom(Answer(s, pid, o, c.accepted), pid, c, k + 1);
      }
    }
  }

  /** A process with an empty mailbox waits with room. */
  lemma SettleRoom(s: Sched, pid: Pid, ending: Ending)
    requires Roomy(s) && pid in s.procs && (ending.Drained? ==> s.procs[pid].mailbox == [])
    ensures Roomy(Settle(s, pid, ending))
  {
    EnqueueRoom(s, pid);
    forall q | q in s.procs ensures HasRoom(Settle(s, pid, ending).procs[q]) {
      assert HasRoom(s.procs[q]);
    }
  }

  lemma TerminateRoom(s: Sched, p: Pid, r: Reason)
    requires Roomy(s)
    ensures Roomy(Terminate(s, p, r))
  {
    TerminateGrows(s, p, r);
    GrowthKeepsRoom(s, Terminate(s, p, r));
  }

  lemma SendAllRoom(s: Sched, ms: seq<(Pid, Message)>)
    requires Roomy(s)
    ensures Roomy(SendAll(s, ms))
  {
    SendAllGrows(s, ms);
    GrowthKeepsRoom(s, SendAll(s, ms));
  }

  lemma RunOneRoom(s: Sched, pid: Pid, c: Choices)
    requires Roomy(s) && pid in s.procs
    ensures Roomy(RunOne(s, pid, c))
  {
    hide Roomy, DispatchFrom, Settle, SendAll, SpawnAll, Terminate;
    var start := Refilled(s, pid);
    RefilledRoom(s, pid);
    DispatchKeepsPids(start, pid, c, 0);
    DispatchRoom(start, pid, c, 0);
    var d := DispatchFrom(start, pid, c, 0);
    SettleRoom(d.sched, pid, d.ending);
    var settled := Settle(d.sched, pid, d.ending);
    SendAllRoom(settled, d.sends);
    SpawnAllRoom(SendAll(settled, d.sends), pid, d.spawns, c.inits, 0);
    if d.ending.Stopped? {
      TerminateRoom(SpawnAll(SendAll(settled, d.sends), pid, d.spawns, c.inits, 0), pid, d.ending.reason);
    }
  }

  lemma RefilledRoom(s: Sched, pid: Pid)
    requires Roomy(s) && pid in s.procs
    ensures Roomy(Refilled(s, pid))
  {
    SameMailKeepsRoom(s, Refilled(s, pid));
  }

  lemma {:induction false} FireRoom(s: Sched, due: seq<Pid>)
    requires Roomy(s)
    ensures Roomy(Fire(s, due))
    decreases |due|
  {
    if due != [] {
      SameMailKeepsRoom(s, ClearTimeout(s, due[0]));
      SendRoom(ClearTimeout(s, due[0]), due[0], ReceiveTimeout);
      FireRoom(Send(ClearTimeout(s, due[0]), due[0], ReceiveTimeout), due[1..]);
    }
  }

  lemma CycleRoom(s: Sched, responses: seq<(Pid, Message)>, due: seq<Pid>, c: Choices)
    requires Roomy(s)
    ensures Roomy(Cycle(s, responses, due, c).1)
  {
    hide SendAll, Fire, Pick, RunOne;
    SendAllRoom(s, responses);
    FireRoom(SendAll(s, responses), due);
    var fired := Fire(SendAll(s, responses), due);
    PickedRuns(fired);
    var (picked, t) := Pick(fired);
    SameMailKeepsRoom(fired, t);
    if picked.Some? {
      RunOneRoom(t, picked.value, c);
    }
  }

  lemma ApplyRoom(s: Sched, op: Op)
    requires Roomy(s)
    ensures Roomy(Apply(s, op))
  {
    hide Enqueue, Send, Spawn, SpawnAt, AddLink, Monitor, Demonitor, Terminate, Cycle, HasRoom;
    match op
    case DoEnqueue(p) => EnqueueRoom(s, p);
    case DoSend(to, m) => SendRoom(s, to, m);
    case DoSpawn => SpawnRoom(s);
    case DoLink(p, q) => LinkRoom(s, p, q);
    case DoMonitor(w, x) =>
      if w in s.procs && x in s.procs {
        MonitorRoom(s, w, x);
      }
    case DoDemonitor(w, r) => DemonitorRoom(s, w, r);
    case DoTerminate(p, reason) => TerminateRoom(s, p, reason);
    case DoStartChild(lane, starts) => SpawnAtRoom(s, lane, starts);
    case DoTick(responses, due, choices) => CycleRoom(s, responses, due, choices);
    case _ => SameMailKeepsRoom(s, Apply(s, op));
  }

  /** In every reachable state a waiting process has room in its mailbox. */
  lemma {:induction false} RunRoom(s: Sched, ops: seq<Op>)
    requires Roomy(s)
    ensures Roomy(Run(s, ops))
    decreases |ops|
  {
    if |ops| > 0 {
      ApplyRoom(s, ops[0]);
      RunRoom(Apply(s, ops[0]), ops[1..]);
    }
  }

  /** Timeouts are never lost: in every reachable state, whatever the bridge answers first, each process whose
      deadline has passed ends without deadline, runnable, queued, and with the timeout in its mailbox. */
  lemma TimeoutAlwaysWakes(ops: seq<Op>, responses: seq<(Pid, Message)>, due: seq<Pid>, p: Pid, now: nat)
    requires var s := SendAll(Run(EMPTY, ops), responses); p in due && IsDue(s, p, now)
    ensures TimedOut(Fire(SendAll(Run(EMPTY, ops), responses), due), p, true)
  {
    hide Run, SendAll, Fire, TimedOut;
    RunRoom(EMPTY, ops);
    SendAllRoom(Run(EMPTY, ops), responses);
    var s := SendAll(Run(EMPTY, ops), responses);
    assert HasRoom(s.procs[p]);
    FireWakesIff(s, due, p);
  }
}
