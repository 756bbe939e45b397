/** Per-task retry accounting. */
module Retry {
  import opened Common
  import opened Graph

  const U64_MAX: nat := 0xFFFF_FFFF_FFFF_FFFF

  datatype Strategy =
    | NoRetry
    | Immediate(maxAttempts: nat)
    | Backoff(maxAttempts: nat, baseMs: nat, maxMs: nat)
    | SkipTask

  /** How many retries the strategy grants in all. */
  function Allowance(st: Strategy): nat {
    match st
    case NoRetry => 0
    case SkipTask => 0
    case Immediate(m) => m
    case Backoff(m, _, _) => m
  }

  datatype Ledger = Ledger(attempts: map<Id, nat>, defaultStrategy: Strategy, perTask: map<Id, Strategy>) {
    function StrategyOf(id: Id): Strategy {
      if id in perTask then perTask[id] else defaultStrategy
    }

    function Attempts(id: Id): nat {
      if id in attempts then attempts[id] else 0
    }

    /** Retries still to be granted to `id`. */
    function Remaining(id: Id): nat {
      var m := Allowance(StrategyOf(id));
      if Attempts(id) < m then m - Attempts(id) else 0
    }
  }

  function Min(a: nat, b: nat): nat {
    if a < b then a else b
  }

  function Pow2(n: nat): nat {
    if n == 0 then 1 else 2 * Pow2(n - 1)
  }

  /** `base.saturating_mul(2.saturating_pow(count - 1)).min(max)` on 64-bit words. */
  function BackoffDelay(baseMs: nat, maxMs: nat, count: nat): nat
    requires count > 0
  {
    Min(Min(baseMs * Min(Pow2(count - 1), U64_MAX), U64_MAX), maxMs)
  }

  /** Saturation at either step is never visible: the delay is the exponential, capped once at `maxMs`. */
  lemma BackoffIsExactExponential(baseMs: nat, maxMs: nat, count: nat)
    requires baseMs <= U64_MAX && maxMs <= U64_MAX && count > 0
    ensures BackoffDelay(baseMs, maxMs, count) == Min(baseMs * Pow2(count - 1), maxMs)
  {}

  /** One call of `should_retry`: the delay if a retry is granted, and the ledger afterwards. */
  function Decide(l: Ledger, id: Id): (Option<nat>, Ledger) {
    var counted := l.(attempts := l.attempts[id := l.Attempts(id) + 1]);
    match l.StrategyOf(id)
    case NoRetry => (None, l)
    case SkipTask => (None, l)
    case Immediate(m) => (if counted.Attempts(id) <= m then Some(0) else None, counted)
    case Backoff(m, b, x) =>
      (if counted.Attempts(id) <= m then Some(BackoffDelay(b, x, counted.Attempts(id))) else None, counted)
  }

  /** How many of the calls for the ids in `calls` grant a retry to `id`. */
  function Granted(l: Ledger, calls: seq<Id>, id: Id): nat
    decreases |calls|
  {
    if calls == [] then 0
    else
      var (r, next) := Decide(l, calls[0]);
      (if calls[0] == id && r.Some? then 1 else 0) + Granted(next, calls[1..], id)
  }

  /** A request is granted exactly while some allowance is left, and spends one of it. */
  lemma DecideSpends(l: Ledger, asked: Id, id: Id)
    ensures var (r, next) := Decide(l, asked);
            && (r.Some? <==> l.Remaining(asked) > 0)
            && next.Remaining(id) == l.Remaining(id) - if asked == id && r.Some? then 1 else 0
  {}

  /** Whatever other tasks do in between, a task is granted exactly its first `maxAttempts` requests. */
  lemma {:induction false} GrantsAreExact(l: Ledger, calls: seq<Id>, id: Id)
    ensures Granted(l, calls, id) == Min(l.Remaining(id), multiset(calls)[id])
    decreases |calls|
  {
    if calls != [] {
      hide Decide, Ledger.Remaining, Ledger.StrategyOf, Ledger.Attempts;
      var (r, next) := Decide(l, calls[0]);
      DecideSpends(l, calls[0], id);
      GrantsAreExact(next, calls[1..], id);
      assert calls == [calls[0]] + calls[1..];
    }
  }

  /** The delays of the retries that the calls in `calls` grant to `id`, in order. */
  function Delays(l: Ledger, calls: seq<Id>, id: Id): seq<nat>
    decreases |calls|
  {
    if calls == [] then []
    else
      var (r, next) := Decide(l, calls[0]);
      (if calls[0] == id && r.Some? then [r.value] else []) + Delays(next, calls[1..], id)
  }

  /** An attempt counts when somebody asks for it under a strategy that can grant any. */
  lemma DecideCounts(l: Ledger, asked: Id, id: Id)
    ensures var next := Decide(l, asked).1;
            && next.StrategyOf(id) == l.StrategyOf(id)
            && next.Attempts(id) == l.Attempts(id) +
               if asked == id && (l.StrategyOf(id).Immediate? || l.StrategyOf(id).Backoff?) then 1 else 0
  {}

  /** Whatever other tasks do in between, the waits of a task with backoff double from one retry to the next, up to the
      maximum; a task that is retried immediately never waits. */
  lemma {:induction false} DelaysDouble(l: Ledger, calls: seq<Id>, id: Id, k: nat)
    requires k < |Delays(l, calls, id)|
    requires l.StrategyOf(id).Backoff? ==> l.StrategyOf(id).baseMs <= U64_MAX && l.StrategyOf(id).maxMs <= U64_MAX
    ensures match l.StrategyOf(id)
            case Backoff(m, base, most) => Delays(l, calls, id)[k] == Min(base * Pow2(l.Attempts(id) + k), most)
            case Immediate(m) => Delays(l, calls, id)[k] == 0
            case _ => false
    decreases |calls|
  {
    hide Ledger.StrategyOf, Ledger.Attempts, Pow2;
    var (r, next) := Decide(l, calls[0]);
    DecideCounts(l, calls[0], id);
    if calls[0] == id && r.Some? {
      if k > 0 {
        DelaysDouble(next, calls[1..], id, k - 1);
      } else {
        FirstDelay(l, id);
      }
    } else {
      assert [] + Delays(next, calls[1..], id) == Delays(next, calls[1..], id);
      DelaysDouble(next, calls[1..], id, k);
      RefusedForGood(l, calls, id);
    }
  }

  lemma FirstDelay(l: Ledger, id: Id)
    requires Decide(l, id).0.Some?
    requires l.StrategyOf(id).Backoff? ==> l.StrategyOf(id).baseMs <= U64_MAX && l.StrategyOf(id).maxMs <= U64_MAX
    ensures match l.StrategyOf(id)
            case Backoff(m, base, most) => Decide(l, id).0 == Some(Min(base * Pow2(l.Attempts(id)), most))
            case Immediate(m) => Decide(l, id).0 == Some(0)
            case _ => false
  {
    hide Pow2;
    if l.StrategyOf(id).Backoff? {
      BackoffIsExactExponential(l.StrategyOf(id).baseMs, l.StrategyOf(id).maxMs, l.Attempts(id) + 1);
    }
  }

  /** Once a task has been refused, none of its later requests is granted. */
  lemma RefusedForGood(l: Ledger, calls: seq<Id>, id: Id)
    requires calls != [] && Delays(Decide(l, calls[0]).1, calls[1..], id) != []
    ensures calls[0] == id ==> Decide(l, id).0.Some?
  {
    if calls[0] == id && Decide(l, id).0.None? {
      DecideSpends(l, id, id);
      var next := Decide(l, id).1;
      DelaysGranted(next, calls[1..], id);
      GrantsAreExact(next, calls[1..], id);
    }
  }

  lemma {:induction false} DelaysGranted(l: Ledger, calls: seq<Id>, id: Id)
    ensures |Delays(l, calls, id)| == Granted(l, calls, id)
    decreases |calls|
  {
    if calls != [] {
      DelaysGranted(Decide(l, calls[0]).1, calls[1..], id);
    }
  }

  class RetryTracker {
    var attempts: map<Id, nat>
    var perTask: map<Id, Strategy>
    const defaultStrategy: Strategy

    constructor (defaultStrategy: Strategy)
      ensures View() == Ledger(map[], defaultStrategy, map[])
    {
      attempts, perTask := map[], map[];
      this.defaultStrategy := defaultStrategy;
    }

    function View(): Ledger
      reads this
    {
      Ledger(attempts, defaultStrategy, perTask)
    }

    method SetTaskStrategy(id: Id, st: Strategy)
      modifies this`perTask
      ensures View() == old(View()).(perTask := old(perTask)[id := st])
      ensures View().StrategyOf(id) == st
      ensures forall other :: other != id ==> View().StrategyOf(other) == old(View()).StrategyOf(other)
    {
      perTask := perTask[id := st];
    }

    method ShouldRetry(id: Id) returns (delay: Option<nat>)
      modifies this`attempts
      ensures (delay, View()) == Decide(old(View()), id)
    {
      var strategy := if id in perTask then perTask[id] else defaultStrategy;
      match strategy {
        case NoRetry => return None;
        case SkipTask => return None;
        case Immediate(maxAttempts) =>
          var count := (if id in attempts then attempts[id] else 0) + 1;
          attempts := attempts[id := count];
          return if count <= maxAttempts then Some(0) else None;
        case Backoff(maxAttempts, baseMs, maxMs) =>
          var count := (if id in attempts then attempts[id] else 0) + 1;
          attempts := attempts[id := count];
          return if count <= maxAttempts then Some(BackoffDelay(baseMs, maxMs, count)) else None;
      }
    }
  }
}
