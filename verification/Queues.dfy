/** The scheduler's three run queues and the service order between them. */
module Queues {
  import opened Common

  datatype Priority = High | Normal | Low

  datatype RunQueues = RunQueues(high: seq<Pid>, normal: seq<Pid>, low: seq<Pid>, advantage: nat)

  const NORMAL_ADVANTAGE: nat := 8

  function Push(q: RunQueues, lane: Priority, p: Pid): RunQueues {
    match lane
    case High => q.(high := q.high + [p])
    case Normal => q.(normal := q.normal + [p])
    case Low => q.(low := q.low + [p])
  }

  predicate Queued(q: RunQueues, p: Pid) {
    p in q.high || p in q.normal || p in q.low
  }

  function Size(q: RunQueues): nat {
    |q.high| + |q.normal| + |q.low|
  }

  function PopLane(q: RunQueues, lane: Priority): (Option<Pid>, RunQueues) {
    match lane
    case High => if q.high == [] then (None, q) else (Some(q.high[0]), q.(high := q.high[1..]))
    case Normal => if q.normal == [] then (None, q) else (Some(q.normal[0]), q.(normal := q.normal[1..]))
    case Low => if q.low == [] then (None, q) else (Some(q.low[0]), q.(low := q.low[1..]))
  }

  /** `next_runnable`: the pid taken, the lane it came from, and the queues afterwards. */
  function Next(q: RunQueues): (Option<Pid>, RunQueues) {
    if q.high != [] then PopLane(q, High)
    else if q.normal != [] then
      var counted := q.(advantage := q.advantage + 1);
      if counted.advantage < NORMAL_ADVANTAGE || counted.low == [] then PopLane(counted, Normal)
      else PopLane(counted.(advantage := 0), Low)
    else PopLane(q, Low)
  }

  lemma NextTakesOne(q: RunQueues)
    ensures var (p, rest) := Next(q);
            && (p.None? <==> Size(q) == 0)
            && (p.None? ==> rest == q)
            && (p.Some? ==> Size(rest) == Size(q) - 1 && Queued(q, p.value))
            && forall x: Pid :: Queued(q, x) <==> p == Some(x) || Queued(rest, x)
  {}

  // ---- The service discipline ----

  function Lane(q: RunQueues, lane: Priority): seq<Pid> {
    match lane
    case High => q.high
    case Normal => q.normal
    case Low => q.low
  }

  /** The call takes the first entry of this lane and leaves the others alone. */
  ghost predicate Takes(q: RunQueues, lane: Priority) {
    && Lane(q, lane) != [] && Next(q).0 == Some(Lane(q, lane)[0])
    && Lane(Next(q).1, lane) == Lane(q, lane)[1..]
    && forall other: Priority :: other != lane ==> Lane(Next(q).1, other) == Lane(q, other)
  }

  /** High-priority work comes first and leaves the advantage of normal work as it is. Without any, low work comes when
      no normal work waits, or when that has been preferred seven times already; then the count starts anew. */
  lemma NextServes(q: RunQueues)
    requires Size(q) > 0
    ensures q.high != [] ==> Takes(q, High) && Next(q).1.advantage == q.advantage
    ensures q.high == [] && q.normal == [] ==> Takes(q, Low) && Next(q).1.advantage == q.advantage
    ensures q.high == [] && q.normal != [] && (q.low == [] || q.advantage < 7) ==>
              Takes(q, Normal) && Next(q).1.advantage == q.advantage + 1
    ensures q.high == [] && q.normal != [] && q.low != [] && q.advantage >= 7 ==>
              Takes(q, Low) && Next(q).1.advantage == 0
  {}

  // ---- Whole histories ----

  /** What happens to the queues: a call of `next_runnable`, or an arrival in some lane. */
  datatype Event = Call | Arrive(lane: Priority, pid: Pid)

  function After(q: RunQueues, e: Event): RunQueues {
    match e
    case Call => Next(q).1
    case Arrive(lane, p) => Push(q, lane, p)
  }

  function AfterAll(q: RunQueues, es: seq<Event>): RunQueues
    decreases |es|
  {
    if es == [] then q else AfterAll(After(q, es[0]), es[1..])
  }

  function OneOrNone(p: Option<Pid>): seq<Pid> {
    if p.Some? then [p.value] else []
  }

  /** Everything a history returns, in order. */
  function Returned(q: RunQueues, es: seq<Event>): seq<Pid>
    decreases |es|
  {
    if es == [] then []
    else (if es[0].Call? then OneOrNone(Next(q).0) else []) + Returned(After(q, es[0]), es[1..])
  }

  /** What it returns by taking an entry out of this lane. */
  function Served(q: RunQueues, es: seq<Event>, lane: Priority): seq<Pid>
    decreases |es|
  {
    if es == [] then []
    else
      (if es[0].Call? && Lane(Next(q).1, lane) != Lane(q, lane) then OneOrNone(Next(q).0) else [])
      + Served(After(q, es[0]), es[1..], lane)
  }

  function Arrived(es: seq<Event>, lane: Priority): seq<Pid> {
    if es == [] then []
    else (if es[0].Arrive? && es[0].lane == lane then [es[0].pid] else []) + Arrived(es[1..], lane)
  }

  lemma SomeLane(q: RunQueues) returns (lane: Priority)
    requires Size(q) > 0
    ensures Takes(q, lane)
  {
    hide Next, Takes;
    NextServes(q);
    lane := if q.high != [] then High else if q.normal != [] && (q.low == [] || q.advantage < 7) then Normal else Low;
  }

  lemma CallIsFifo(q: RunQueues, lane: Priority)
    ensures (if Lane(Next(q).1, lane) != Lane(q, lane) then OneOrNone(Next(q).0) else []) + Lane(Next(q).1, lane)
            == Lane(q, lane)
  {
    hide Next, Lane;
    if Size(q) == 0 {
      NextTakesOne(q);
    } else {
      var from := SomeLane(q);
      assert [Lane(q, from)[0]] + Lane(q, from)[1..] == Lane(q, from);
    }
    assert [] + Lane(Next(q).1, lane) == Lane(Next(q).1, lane);
  }

  lemma StepIsFifo(q: RunQueues, e: Event, lane: Priority)
    ensures (if e.Call? && Lane(Next(q).1, lane) != Lane(q, lane) then OneOrNone(Next(q).0) else [])
            + Lane(After(q, e), lane)
            == Lane(q, lane) + (if e.Arrive? && e.lane == lane then [e.pid] else [])
  {
    hide Next;
    if e.Call? {
      CallIsFifo(q, lane);
      assert Lane(q, lane) + [] == Lane(q, lane);
    } else {
      assert [] + Lane(After(q, e), lane) == Lane(After(q, e), lane);
      assert Lane(q, lane) + [] == Lane(q, lane);
    }
  }

  /** Each lane is first in, first out, over any history: what was taken out of it, followed by what is left, is what
      was there, followed by what arrived. */
  lemma {:induction false} LanesAreFifo(q: RunQueues, es: seq<Event>, lane: Priority)
    ensures Served(q, es, lane) + Lane(AfterAll(q, es), lane) == Lane(q, lane) + Arrived(es, lane)
    decreases |es|
  {
    hide Lane, After, OneOrNone;
    if es == [] {
      assert [] + Lane(q, lane) == Lane(q, lane) + [];
    } else {
      var e, next := es[0], After(q, es[0]);
      StepIsFifo(q, e, lane);
      LanesAreFifo(next, es[1..], lane);
      var taken := if e.Call? && Lane(Next(q).1, lane) != Lane(q, lane) then OneOrNone(Next(q).0) else [];
      var came := if e.Arrive? && e.lane == lane then [e.pid] else [];
      Reassociate(taken, Served(next, es[1..], lane), Lane(AfterAll(q, es), lane));
      Reassociate(taken, Lane(next, lane), Arrived(es[1..], lane));
      Reassociate(Lane(q, lane), came, Arrived(es[1..], lane));
    }
  }

  /** Strict priority: as long as high-priority work waits nothing else is returned. Its entry at position `k` is the
      (k+1)-th that any history returns, whatever arrives meanwhile. */
  lemma {:induction false} HighComesFirst(q: RunQueues, es: seq<Event>, k: nat)
    requires k < |q.high| && Calls(es) > k
    ensures k < |Returned(q, es)| && Returned(q, es)[k] == q.high[k]
    decreases |es|
  {
    if es[0].Call? {
      NextServes(q);
      assert Lane(Next(q).1, High) == q.high[1..];
      if k > 0 {
        HighComesFirst(After(q, es[0]), es[1..], k - 1);
      }
    } else {
      HighComesFirst(After(q, es[0]), es[1..], k);
    }
  }

  // ---- Fairness ----

  /** The high queue is empty whenever `next_runnable` is called. */
  predicate Quiet(q: RunQueues, es: seq<Event>)
    decreases |es|
  {
    es == [] || ((es[0].Call? ==> q.high == []) && Quiet(After(q, es[0]), es[1..]))
  }

  /** The normal queue holds something whenever `next_runnable` is called. */
  predicate Busy(q: RunQueues, es: seq<Event>)
    decreases |es|
  {
    es == [] || ((es[0].Call? ==> q.normal != []) && Busy(After(q, es[0]), es[1..]))
  }

  function Calls(es: seq<Event>): nat {
    if es == [] then 0 else (if es[0].Call? then 1 else 0) + Calls(es[1..])
  }

  /** This call takes an entry of the low queue. */
  predicate ServesLow(q: RunQueues) {
    q.low != [] && Next(q).1.low != q.low
  }

  /** The low entries returned by a history, in order. */
  function LowServed(q: RunQueues, es: seq<Event>): seq<Pid>
    decreases |es|
  {
    if es == [] then []
    else (if es[0].Call? && ServesLow(q) then [q.low[0]] else []) + LowServed(After(q, es[0]), es[1..])
  }

  /** Calls until low is served at the latest. */
  function Patience(advantage: nat): nat {
    if advantage < NORMAL_ADVANTAGE - 1 then NORMAL_ADVANTAGE - advantage else 1
  }

  lemma ServiceOfLow(q: RunQueues)
    requires q.high == [] && q.low != []
    ensures if ServesLow(q) then
              && Next(q) == (Some(q.low[0]), q.(low := q.low[1..], advantage := if q.normal != [] then 0 else q.advantage))
            else
              && q.normal != [] && q.advantage < NORMAL_ADVANTAGE - 1
              && Next(q) == (Some(q.normal[0]), q.(normal := q.normal[1..], advantage := q.advantage + 1))
  {}

  lemma {:induction false} LowServedWithin(q: RunQueues, es: seq<Event>, k: nat)
    requires k < |q.low| && Quiet(q, es)
    requires Calls(es) >= NORMAL_ADVANTAGE * k + Patience(q.advantage)
    ensures k < |LowServed(q, es)| && LowServed(q, es)[k] == q.low[k]
    decreases |es|
  {
    if es[0].Call? {
      ServiceOfLow(q);
      if ServesLow(q) {
        if k > 0 {
          LowServedWithin(After(q, es[0]), es[1..], k - 1);
        }
      } else {
        LowServedWithin(After(q, es[0]), es[1..], k);
      }
    } else {
      LowServedWithin(After(q, es[0]), es[1..], k);
    }
  }

  /** Bounded bypass: with the high queue empty, the low entry at position `k` is returned within
      8(k + 1) calls, whatever arrives in between and whatever the advantage counter was. */
  lemma BoundedBypass(q: RunQueues, es: seq<Event>, k: nat)
    requires k < |q.low| && Quiet(q, es) && Calls(es) >= 8 * (k + 1)
    ensures k < |LowServed(q, es)| && LowServed(q, es)[k] == q.low[k]
  {
    LowServedWithin(q, es, k);
  }

  lemma {:induction false} NormalOnly(q: RunQueues, es: seq<Event>)
    requires Quiet(q, es) && Busy(q, es) && q.advantage + Calls(es) < NORMAL_ADVANTAGE
    ensures LowServed(q, es) == []
    decreases |es|
  {
    if es != [] {
      NormalOnly(After(q, es[0]), es[1..]);
    }
  }

  /** The other side of the bargain: a low pick made while normal work was waiting is followed by
      seven picks that are not low, as long as normal work keeps waiting. */
  lemma LowThenSevenNormal(q: RunQueues, es: seq<Event>)
    requires q.high == [] && q.normal != [] && ServesLow(q)
    requires Quiet(Next(q).1, es) && Busy(Next(q).1, es) && Calls(es) <= 7
    ensures LowServed(Next(q).1, es) == []
  {
    ServiceOfLow(q);
    NormalOnly(Next(q).1, es);
  }

  /** Eight is tight: a low entry behind eight waiting normal entries is served by the eighth call, not the seventh. */
  lemma EightIsTight()
    ensures var q := RunQueues([], [1, 1, 1, 1, 1, 1, 1, 1], [2], 0);
            LowServed(q, seq(7, _ => Call)) == [] && LowServed(q, seq(8, _ => Call)) == [2]
  {
    var q := RunQueues([], [1, 1, 1, 1, 1, 1, 1, 1], [2], 0);
    AllCalls(q, 7);
    NormalOnly(q, seq(7, _ => Call));
    AllCalls(q, 8);
    BoundedBypass(q, seq(8, _ => Call), 0);
    LowServedAtMost(q, seq(8, _ => Call));
  }

  lemma {:induction false} AllCalls(q: RunQueues, n: nat)
    requires q.high == []
    ensures Quiet(q, seq(n, _ => Call)) && Calls(seq(n, _ => Call)) == n
    ensures |q.normal| >= n ==> Busy(q, seq(n, _ => Call))
    decreases n
  {
    if n > 0 {
      assert seq(n, _ => Call)[1..] == seq(n - 1, _ => Call);
      AllCalls(Next(q).1, n - 1);
    }
  }

  lemma PrefixBehind(low: seq<Pid>, served: seq<Pid>)
    requires low != [] && served <= low[1..]
    ensures [low[0]] + served <= low
  {}

  lemma {:induction false} LowServedAtMost(q: RunQueues, es: seq<Event>)
    requires forall e :: e in es ==> e == Call
    ensures LowServed(q, es) <= q.low
    decreases |es|
  {
    if es != [] {
      assert es[0] in es && forall e :: e in es[1..] ==> e in es;
      LowServedAtMost(Next(q).1, es[1..]);
      if ServesLow(q) {
        PrefixBehind(q.low, LowServed(Next(q).1, es[1..]));
      }
    }
  }
}
