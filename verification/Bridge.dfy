/** The bridge's cancellation table, as a protocol of interleaved atomic steps of handles and workers. */
module Bridge {
  import opened Common

  datatype CancellationEntry = CancellationEntry(inFlight: nat, cancelled: bool)

  type Table = map<Pid, CancellationEntry>

  /** `table` counts the requests in flight per pid. The rest is what the threads know: submissions that
      have reserved a slot and not yet sent, requests queued or running, and who ever asked for a destroy. */
  datatype State = State(
    table: Table,
    reserved: multiset<Pid>,
    running: multiset<Pid>,
    destroys: multiset<Pid>,
    everDestroyed: set<Pid>)

  datatype Step =
    | Reserve(pid: Pid)
    | SendOk(pid: Pid)
    | SendFailed(pid: Pid)
    | SubmitDestroy(pid: Pid)
    | DestroyRefused(pid: Pid)
    | Complete(pid: Pid)
    | CompleteDestroy(pid: Pid)
    | Cancel(pid: Pid)

  const INITIAL: State := State(map[], multiset{}, multiset{}, multiset{}, {})

  predicate Enabled(s: State, e: Step) {
    match e
    case Reserve(p) => true
    case SendOk(p) => p in s.reserved
    case SendFailed(p) => p in s.reserved
    case SubmitDestroy(p) => true
    case DestroyRefused(p) => true
    case Complete(p) => p in s.running
    case CompleteDestroy(p) => p in s.destroys
    case Cancel(p) => true
  }

  /** `reserve_cancellation_slot`: a new entry starts with a token that is not cancelled. */
  function Increment(t: Table, p: Pid): Table {
    var e := if p in t then t[p] else CancellationEntry(0, false);
    t[p := e.(inFlight := e.inFlight + 1)]
  }

  /** `release_cancellation_slot`, which the workers repeat on completion: the last one out removes the entry. */
  function Decrement(t: Table, p: Pid): Table {
    if p !in t then t else if t[p].inFlight > 1 then t[p := t[p].(inFlight := t[p].inFlight - 1)] else t - {p}
  }

  function CancelToken(t: Table, p: Pid): Table {
    if p in t then t[p := t[p].(cancelled := true)] else t
  }

  /** A destroy reserves nothing, but its completion releases a slot like any other. */
  function Next(s: State, e: Step): State {
    match e
    case Reserve(p) => s.(table := Increment(s.table, p), reserved := s.reserved + multiset{p})
    case SendOk(p) => s.(reserved := s.reserved - multiset{p}, running := s.running + multiset{p})
    case SendFailed(p) => s.(table := Decrement(s.table, p), reserved := s.reserved - multiset{p})
    case SubmitDestroy(p) => s.(destroys := s.destroys + multiset{p}, everDestroyed := s.everDestroyed + {p})
    case DestroyRefused(p) => s
    case Complete(p) => s.(table := Decrement(s.table, p), running := s.running - multiset{p})
    case CompleteDestroy(p) => s.(table := Decrement(s.table, p), destroys := s.destroys - multiset{p})
    case Cancel(p) => s.(table := CancelToken(s.table, p))
  }

  function Entry(s: State, p: Pid): nat {
    InFlight(s.table, p)
  }

  /** Requests of `p` that hold a slot: being sent, queued or running. */
  function Outstanding(s: State, p: Pid): nat {
    s.reserved[p] + s.running[p]
  }

  ghost predicate Accounted(s: State, p: Pid) {
    && (p in s.table ==> s.table[p].inFlight >= 1)
    && Entry(s, p) <= Outstanding(s, p)
    && (p !in s.everDestroyed ==> Entry(s, p) == Outstanding(s, p) && p !in s.destroys)
  }

  ghost predicate Inv(s: State) {
    forall p :: Accounted(s, p)
  }

  function InFlight(t: Table, p: Pid): nat {
    if p in t then t[p].inFlight else 0
  }

  lemma IncrementCounts(t: Table, q: Pid, p: Pid)
    ensures InFlight(Increment(t, q), p) == InFlight(t, p) + (if p == q then 1 else 0)
    ensures p in Increment(t, q) <==> p in t || p == q
  {}

  lemma DecrementCounts(t: Table, q: Pid, p: Pid)
    requires p in t ==> t[p].inFlight >= 1
    ensures InFlight(Decrement(t, q), p) == if p == q && p in t then InFlight(t, p) - 1 else InFlight(t, p)
    ensures p in Decrement(t, q) ==> p in t && Decrement(t, q)[p].inFlight >= 1
  {}

  lemma CancelCounts(t: Table, q: Pid, p: Pid)
    ensures InFlight(CancelToken(t, q), p) == InFlight(t, p) && (p in CancelToken(t, q) <==> p in t)
  {}

  lemma StepAccounts(s: State, e: Step, p: Pid)
    requires Accounted(s, p) && Enabled(s, e)
    ensures Accounted(Next(s, e), p)
  {
    hide Increment, Decrement, CancelToken;
    IncrementCounts(s.table, e.pid, p);
    DecrementCounts(s.table, e.pid, p);
    CancelCounts(s.table, e.pid, p);
  }

  lemma StepInv(s: State, e: Step)
    requires Inv(s) && Enabled(s, e)
    ensures Inv(Next(s, e))
  {
    forall p ensures Accounted(Next(s, e), p) {
      StepAccounts(s, e, p);
    }
  }

  ghost predicate Valid(s: State, es: seq<Step>)
    decreases |es|
  {
    es == [] || (Enabled(s, es[0]) && Valid(Next(s, es[0]), es[1..]))
  }

  function Run(s: State, es: seq<Step>): State
    decreases |es|
  {
    if es == [] then s else Run(Next(s, es[0]), es[1..])
  }

  lemma {:induction false} RunInv(s: State, es: seq<Step>)
    requires Inv(s) && Valid(s, es)
    ensures Inv(Run(s, es))
    decreases |es|
  {
    if es != [] {
      StepInv(s, es[0]);
      RunInv(Next(s, es[0]), es[1..]);
    }
  }

  /** Under any interleaving an entry is at least 1 and at most what is outstanding, so nothing leaks; and it
      is exact for every pid that was never asked to be destroyed. */
  lemma NeverLeaksNeverOverCounts(es: seq<Step>, p: Pid)
    requires Valid(INITIAL, es)
    ensures var s := Run(INITIAL, es);
            && (p in s.table ==> 1 <= s.table[p].inFlight <= Outstanding(s, p))
            && (Outstanding(s, p) == 0 ==> p !in s.table)
            && (p !in s.everDestroyed ==> Entry(s, p) == Outstanding(s, p))
  {
    RunInv(INITIAL, es);
    assert Accounted(Run(INITIAL, es), p);
  }

  /** One step keeps an exact count exact unless it is the completion of a destroy that finds an entry. */
  lemma CountStaysExactIff(s: State, e: Step, p: Pid)
    requires Inv(s) && Enabled(s, e) && Entry(s, p) == Outstanding(s, p)
    ensures Entry(Next(s, e), p) == Outstanding(Next(s, e), p) <==> !(e == CompleteDestroy(p) && p in s.table)
  {
    hide Increment, Decrement, CancelToken;
    IncrementCounts(s.table, e.pid, p);
    DecrementCounts(s.table, e.pid, p);
    CancelCounts(s.table, e.pid, p);
    assert Accounted(s, p);
  }

  /** A cancelled token stays cancelled for as long as its entry is there, whatever the threads do. */
  lemma {:induction false} CancelSticks(s: State, es: seq<Step>, p: Pid)
    requires p in s.table && Keeps(Next(s, Cancel(p)), es, p)
    ensures IsCancelled(Run(Next(s, Cancel(p)), es).table, p)
  {
    hide Run, Keeps;
    StaysCancelled(Next(s, Cancel(p)), es, p);
  }

  /** The entry of `p` is there after each step. */
  predicate Keeps(s: State, es: seq<Step>, p: Pid)
    decreases |es|
  {
    p in s.table && (es == [] || Keeps(Next(s, es[0]), es[1..], p))
  }

  lemma {:induction false} StaysCancelled(s: State, es: seq<Step>, p: Pid)
    requires Keeps(s, es, p) && IsCancelled(s.table, p)
    ensures IsCancelled(Run(s, es).table, p)
    decreases |es|
  {
    hide Next, IsCancelled;
    if es != [] {
      OnlyCancelCancels(s, es[0], p);
      StaysCancelled(Next(s, es[0]), es[1..], p);
    }
  }

  predicate IsCancelled(t: Table, p: Pid) {
    p in t && t[p].cancelled
  }

  lemma IncrementTokens(t: Table, q: Pid, p: Pid)
    ensures IsCancelled(Increment(t, q), p) <==> IsCancelled(t, p)
  {}

  lemma DecrementTokens(t: Table, q: Pid, p: Pid)
    ensures p in Decrement(t, q) ==> (IsCancelled(Decrement(t, q), p) <==> IsCancelled(t, p))
  {}

  lemma CancelTokens(t: Table, q: Pid, p: Pid)
    ensures IsCancelled(CancelToken(t, q), p) <==> p in t && (t[p].cancelled || p == q)
  {}

  /** A token that is there after a step is cancelled exactly if it was before or the step cancels it; so only a cancel
      cancels, nothing takes it back, and a new entry starts with a good token. */
  lemma OnlyCancelCancels(s: State, e: Step, p: Pid)
    requires p in Next(s, e).table
    ensures IsCancelled(Next(s, e).table, p) <==> IsCancelled(s.table, p) || (e == Cancel(p) && p in s.table)
  {
    hide Increment, Decrement, CancelToken;
    IncrementTokens(s.table, e.pid, p);
    DecrementTokens(s.table, e.pid, p);
    CancelTokens(s.table, e.pid, p);
  }

  /** A destroy that completes beside a running request takes away the entry that request still needs: it
      can no longer be cancelled. */
  lemma DestroyCanDropALiveEntry()
    ensures var es := [Reserve(0), SendOk(0), SubmitDestroy(0), CompleteDestroy(0)];
            Valid(INITIAL, es) && 0 !in Run(INITIAL, es).table && Outstanding(Run(INITIAL, es), 0) == 1
  {}

  // ---- The handle ----

  /** A handle with the table it shares. */
  class BridgeHandle {
    var table: Table
    var nextCorrelation: nat

    constructor ()
      ensures table == map[] && nextCorrelation == 0
    {
      table, nextCorrelation := map[], 0;
    }

    /** One submission with nobody else in between: `sent` says what the request channel answered. The net
        effect on the table is one slot exactly when a request that is not a destroy was accepted. */
    method Submit(p: Pid, destroy: bool, sent: bool) returns (correlation: Option<nat>)
      requires forall q :: q in table ==> table[q].inFlight >= 1
      modifies this
      ensures correlation == if sent then Some(old(nextCorrelation)) else None
      ensures nextCorrelation == old(nextCorrelation) + 1
      ensures table == if sent && !destroy then Increment(old(table), p) else old(table)
    {
      if !destroy {
        table := Increment(table, p);
      }
      var cid := nextCorrelation;
      nextCorrelation := nextCorrelation + 1;
      if sent {
        return Some(cid);
      }
      if !destroy {
        table := Decrement(table, p);
        assert table == old(table);
      }
      return None;
    }

    /** Cancels the token of a pid that has an entry, once. */
    method CancelPid(p: Pid) returns (did: bool)
      modifies this`table
      ensures did <==> p in old(table) && !old(table)[p].cancelled
      ensures table == if p in old(table) then old(table)[p := old(table)[p].(cancelled := true)] else old(table)
    {
      did := p in table && !table[p].cancelled;
      if did {
        table := CancelToken(table, p);
      }
      assert table == CancelToken(old(table), p);
    }
  }
}
