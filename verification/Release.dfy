/** Releases: a plan is applied as a compensating transaction; the manager remembers what is applied. */
module Releases {
  import opened Common

  datatype ReleaseStep =
    | UpgradeBehavior(name: nat, fromVersion: nat, toVersion: nat)
    | ApplyConfig(key: nat, oldValue: nat, newValue: nat)

  type Manifest = nat

  /** How a caller executes steps on its state: the state afterwards and whether the step worked. */
  datatype Handler<!S> = Handler(apply: (ReleaseStep, S) -> (S, bool), undo: (ReleaseStep, S) -> (S, bool))

  /** A failed step changes nothing and a rollback undoes its step. */
  ghost predicate Compensates<S(!new)>(h: Handler<S>) {
    forall step, s ::
      if h.apply(step, s).1 then h.undo(step, h.apply(step, s).0) == (s, true) else h.apply(step, s).0 == s
  }

  datatype ReleaseError = ApplyFailed | RollbackFailed | NothingToRollBack

  /** One call to the handler and how it ended. */
  datatype Call =
    | Applied(step: ReleaseStep)
    | Refused(step: ReleaseStep)
    | Undone(step: ReleaseStep)
    | Stuck(step: ReleaseStep)

  function After<S>(h: Handler<S>, steps: seq<ReleaseStep>, s: S): S {
    if steps == [] then s else h.apply(steps[|steps| - 1], After(h, steps[..|steps| - 1], s)).0
  }

  function AllApply<S>(h: Handler<S>, steps: seq<ReleaseStep>, s: S): bool {
    steps == [] ||
    (AllApply(h, steps[..|steps| - 1], s) && h.apply(steps[|steps| - 1], After(h, steps[..|steps| - 1], s)).1)
  }

  function AppliedCalls(steps: seq<ReleaseStep>): (c: seq<Call>)
    ensures |c| == |steps| && forall i :: 0 <= i < |c| ==> c[i] == Applied(steps[i])
  {
    seq(|steps|, i requires 0 <= i < |steps| => Applied(steps[i]))
  }

  /** The rollback of `steps`: last to first. */
  function UndoneCalls(steps: seq<ReleaseStep>): (c: seq<Call>)
    ensures |c| == |steps| && forall i, j :: 0 <= i && 0 <= j && i + j + 1 == |c| ==> c[i] == Undone(steps[j])
  {
    seq(|steps|, i requires 0 <= i < |steps| => Undone(steps[|steps| - 1 - i]))
  }

  /** The handler has seen the steps of `done` undone last to first, completely or up to one that would not. */
  ghost predicate RolledBack(done: seq<ReleaseStep>, calls: seq<Call>, complete: bool) {
    if complete then calls == UndoneCalls(done)
    else exists j: nat :: j < |done| && calls == UndoneCalls(done)[..j] + [Stuck(done[|done| - 1 - j])]
  }

  class ReleaseManager {
    var current: Option<Manifest>
    var history: seq<Manifest>
    const maxHistory: nat
    /** What was applied and not rolled back, oldest first, without any bound. */
    ghost var stack: seq<Manifest>

    /** History and current release, oldest first. */
    function Kept(): seq<Manifest>
      reads this
    {
      history + if current.Some? then [current.value] else []
    }

    /** The manager remembers the end of the stack, and never more history than allowed. */
    ghost predicate Valid()
      reads this
    {
      && |history| <= maxHistory
      && (current.None? ==> history == [])
      && |Kept()| <= |stack| && Kept() == stack[|stack| - |Kept()|..]
    }

    constructor (maxHistory: nat)
      ensures Valid() && this.maxHistory == maxHistory && current == None && history == [] && stack == []
    {
      this.maxHistory := maxHistory;
      current, history, stack := None, [], [];
    }

    /** All or nothing: the calls are the whole plan, or the applied prefix, the refusal, and the prefix
        undone in reverse. A handler that compensates is back where it was after a failure. */
    method Apply<S(!new)>(m: Manifest, plan: seq<ReleaseStep>, h: Handler<S>, s0: S)
        returns (r: Result<(), ReleaseError>, s: S, ghost calls: seq<Call>)
      requires Valid()
      modifies this
      ensures Valid()
      ensures r.Ok? <==> AllApply(h, plan, s0)
      ensures r.Ok? ==> s == After(h, plan, s0) && calls == AppliedCalls(plan)
                        && current == Some(m) && stack == old(stack) + [m]
      ensures r.Err? ==> current == old(current) && history == old(history) && stack == old(stack)
      ensures r.Err? ==> exists k: nat, undone :: k < |plan| && AllApply(h, plan[..k], s0)
                           && RolledBack(plan[..k], undone, r.error == ApplyFailed)
                           && calls == AppliedCalls(plan[..k]) + [Refused(plan[k])] + undone
      ensures r.Err? && Compensates(h) ==> s == s0 && r.error == ApplyFailed
    {
      s, calls := s0, [];
      for k := 0 to |plan|
        invariant AllApply(h, plan[..k], s0) && s == After(h, plan[..k], s0)
        invariant calls == AppliedCalls(plan[..k])
      {
        var (next, ok) := h.apply(plan[k], s);
        assert plan[..k + 1][..k] == plan[..k];
        if !ok {
          PrefixFails(h, plan, k, s0);
          var reached := s;
          var clean;
          ghost var undone;
          clean, s, undone := UndoAll(plan[..k], h, next);
          calls := calls + [Refused(plan[k])] + undone;
          if Compensates(h) {
            assert reached == next;
            UndoRestores(h, plan[..k], s0);
          }
          return Err(if clean then ApplyFailed else RollbackFailed), s, calls;
        }
        s, calls := next, calls + [Applied(plan[k])];
      }
      assert plan[..|plan|] == plan;
      RecordApply(m);
      return Ok(()), s, calls;
    }

    /** Undoes the steps last to first and stops at the first that cannot be undone. */
    static method UndoAll<S(!new)>(done: seq<ReleaseStep>, h: Handler<S>, s0: S)
        returns (clean: bool, s: S, ghost calls: seq<Call>)
      ensures RolledBack(done, calls, clean)
      ensures (clean, s) == (Undo(h, done, s0).1, Undo(h, done, s0).0)
    {
      s, calls := s0, [];
      assert done[..|done|] == done;
      for i := 0 to |done|
        invariant Undo(h, done, s0) == Undo(h, done[..|done| - i], s)
        invariant calls == UndoneCalls(done)[..i]
      {
        var step := done[|done| - 1 - i];
        assert done[..|done| - i][..|done| - i - 1] == done[..|done| - (i + 1)];
        var (next, ok) := h.undo(step, s);
        if !ok {
          return false, next, calls + [Stuck(step)];
        }
        s, calls := next, calls + [Undone(step)];
      }
      assert UndoneCalls(done)[..|done|] == UndoneCalls(done);
      return true, s, calls;
    }

    /** Only the current release can be rolled back; success brings back the previous one that is still remembered. */
    method Rollback<S(!new)>(plan: seq<ReleaseStep>, h: Handler<S>, s0: S)
        returns (r: Result<(), ReleaseError>, s: S, ghost calls: seq<Call>)
      requires Valid()
      modifies this
      ensures Valid()
      ensures old(current).None? ==> r == Err(NothingToRollBack) && s == s0 && calls == []
      ensures old(current).Some? ==>
                RolledBack(plan, calls, r.Ok?) && s == Undo(h, plan, s0).0 && r.Ok? == Undo(h, plan, s0).1
      ensures r.Err? ==> current == old(current) && history == old(history) && stack == old(stack)
      ensures r.Ok? ==> (history, current) == RolledBackTo(old(history))
      ensures r.Ok? ==> Kept() == old(Kept())[..|old(Kept())| - 1] && stack == old(stack)[..|old(stack)| - 1]
    {
      if current.None? {
        return Err(NothingToRollBack), s0, [];
      }
      var clean;
      clean, s, calls := UndoAll(plan, h, s0);
      if !clean {
        return Err(RollbackFailed), s, calls;
      }
      stack := stack[..|stack| - 1];
      if history == [] {
        current := None;
      } else {
        current, history := Some(history[|history| - 1]), history[..|history| - 1];
      }
      return Ok(()), s, calls;
    }

    method RecordApply(m: Manifest)
      requires Valid()
      modifies this
      ensures Valid() && current == Some(m) && stack == old(stack) + [m]
      ensures (history, current) == Recorded(old(history), old(current), maxHistory, m)
    {
      if current.Some? {
        history := history + [current.value];
        if |history| > maxHistory {
          history := history[1..];
        }
      }
      current := Some(m);
      stack := stack + [m];
    }
  }

  function Recorded(history: seq<Manifest>, current: Option<Manifest>, maxHistory: nat, m: Manifest):
      (seq<Manifest>, Option<Manifest>) {
    var grown := if current.Some? then history + [current.value] else history;
    (if current.Some? && |grown| > maxHistory then grown[1..] else grown, Some(m))
  }

  function RolledBackTo(history: seq<Manifest>): (seq<Manifest>, Option<Manifest>) {
    if history == [] then ([], None) else (history[..|history| - 1], Some(history[|history| - 1]))
  }

  /** Applying and rolling back restores the manager exactly when the history had room for the release that
      was replaced. */
  lemma ApplyRollbackRestoresIff(history: seq<Manifest>, current: Option<Manifest>, maxHistory: nat, m: Manifest)
    requires |history| <= maxHistory && (current.None? ==> history == [])
    ensures RolledBackTo(Recorded(history, current, maxHistory, m).0) == (history, current) <==>
            current.None? || |history| < maxHistory
  {}

  /** With a history of one, a third release applied and rolled back leaves the second current and the first forgotten. */
  lemma HistoryForgets(m1: Manifest, m2: Manifest, m3: Manifest)
    ensures Recorded([], Some(m1), 1, m2) == ([m1], Some(m2))
    ensures RolledBackTo(Recorded([m1], Some(m2), 1, m3).0) == ([], Some(m2))
  {
    assert [] + [m1] == [m1] && ([m1] + [m2])[1..] == [m2];
  }

  /** Undoing last to first: the state and whether every step could be undone. */
  function Undo<S>(h: Handler<S>, done: seq<ReleaseStep>, s: S): (S, bool) {
    if done == [] then (s, true)
    else
      var (next, ok) := h.undo(done[|done| - 1], s);
      if ok then Undo(h, done[..|done| - 1], next) else (next, false)
  }

  /** A handler that compensates comes back exactly to where it started. */
  lemma {:induction false} UndoRestores<S(!new)>(h: Handler<S>, steps: seq<ReleaseStep>, s: S)
    requires Compensates(h) && AllApply(h, steps, s)
    ensures Undo(h, steps, After(h, steps, s)) == (s, true)
  {
    if steps != [] {
      UndoRestores(h, steps[..|steps| - 1], s);
    }
  }

  lemma {:induction false} PrefixFails<S>(h: Handler<S>, plan: seq<ReleaseStep>, k: nat, s: S)
    requires k < |plan| && !h.apply(plan[k], After(h, plan[..k], s)).1
    ensures !AllApply(h, plan, s)
  {
    if k < |plan| - 1 {
      assert plan[..|plan| - 1][..k] == plan[..k];
      PrefixFails(h, plan[..|plan| - 1], k, s);
    }
  }
}
