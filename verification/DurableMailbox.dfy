/** WAL-backed mailboxes: numbered appends, an acknowledgement file, truncation, and reopening after a crash. */
module DurableMailboxes {
  import opened Common

  type Msg = nat

  datatype Entry = Entry(seqNo: nat, msg: Msg)

  datatype Line = HeaderLine | EntryLine(entry: Entry)

  /** The WAL, the ack file, and the temporary files they are replaced through. */
  datatype Disk = Disk(wal: Option<seq<Line>>, walTmp: Option<seq<Line>>, ack: Option<nat>, ackTmp: Option<nat>)

  datatype MailboxError = AckNotNew | AckTooHigh | BadEntry

  /** Every reader skips the first line, whatever it is. */
  function Body(wal: Option<seq<Line>>): seq<Line> {
    if wal.None? || wal.value == [] then [] else wal.value[1..]
  }

  function AckOf(d: Disk): nat {
    if d.ack.Some? then d.ack.value else 0
  }

  function Lines(es: seq<Entry>): seq<Line> {
    seq(|es|, i requires 0 <= i < |es| => EntryLine(es[i]))
  }

  /** The entries numbered above `n`, in order. */
  function Above(es: seq<Entry>, n: nat): seq<Entry> {
    if es == [] then []
    else
      var last := es[|es| - 1];
      Above(es[..|es| - 1], n) + if last.seqNo > n then [last] else []
  }

  /** The largest number of any entry line. */
  function MaxSeq(lines: seq<Line>): nat {
    if lines == [] then 0
    else
      var rest, last := MaxSeq(lines[..|lines| - 1]), lines[|lines| - 1];
      if last.EntryLine? && last.entry.seqNo > rest then last.entry.seqNo else rest
  }

  ghost predicate Increasing(es: seq<Entry>) {
    && (forall i :: 0 <= i < |es| ==> es[i].seqNo > 0)
    && (forall i, j :: 0 <= i < j < |es| ==> es[i].seqNo < es[j].seqNo)
  }

  /** How many entries at the front are not above `n`. */
  function Settled(es: seq<Entry>, n: nat): (cut: nat)
    ensures cut <= |es|
  {
    if es == [] || es[|es| - 1].seqNo <= n then |es| else Settled(es[..|es| - 1], n)
  }

  lemma DropLast<T>(s: seq<T>, k: nat)
    requires k < |s|
    ensures s[k..] == s[..|s| - 1][k..] + [s[|s| - 1]]
  {}

  /** What is above `n` is a suffix, and what precedes it is not above `n`. */
  lemma {:induction false} AboveIsSuffix(es: seq<Entry>, n: nat)
    requires Increasing(es)
    ensures Above(es, n) == es[Settled(es, n)..]
    ensures forall i :: 0 <= i < Settled(es, n) ==> es[i].seqNo <= n
  {
    if es != [] {
      var init, last := es[..|es| - 1], es[|es| - 1];
      if last.seqNo > n {
        AboveIsSuffix(init, n);
        DropLast(es, Settled(init, n));
        assert forall i :: 0 <= i < Settled(init, n) ==> es[i] == init[i];
      } else {
        NoneAbove(es, n);
      }
    }
  }

  /** Dropping entries that are not above `n` does not change what is. */
  lemma {:induction false} AboveDrop(es: seq<Entry>, cut: nat, n: nat)
    requires cut <= |es| && forall i :: 0 <= i < cut ==> es[i].seqNo <= n
    ensures Above(es[cut..], n) == Above(es, n)
  {
    if cut < |es| {
      AboveDrop(es[..|es| - 1], cut, n);
      assert es[cut..][..|es| - cut - 1] == es[..|es| - 1][cut..];
    } else {
      NoneAbove(es, n);
    }
  }

  lemma {:induction false} NoneAbove(es: seq<Entry>, n: nat)
    requires forall i :: 0 <= i < |es| ==> es[i].seqNo <= n
    ensures Above(es, n) == []
  {
    if es != [] {
      NoneAbove(es[..|es| - 1], n);
    }
  }

  /** The scan at `open` finds the largest number, in whatever order the lines are. */
  lemma {:induction false} MaxSeqIsMax(lines: seq<Line>)
    ensures forall l :: l in lines && l.EntryLine? ==> l.entry.seqNo <= MaxSeq(lines)
    ensures MaxSeq(lines) == 0 || exists l :: l in lines && l.EntryLine? && l.entry.seqNo == MaxSeq(lines)
  {
    if lines != [] {
      var n := |lines| - 1;
      MaxSeqIsMax(lines[..n]);
      assert lines == lines[..n] + [lines[n]];
      assert lines[n] in lines;
    }
  }

  lemma {:induction false} MaxSeqOfLines(es: seq<Entry>)
    requires Increasing(es)
    ensures MaxSeq(Lines(es)) == if es == [] then 0 else es[|es| - 1].seqNo
  {
    if es != [] {
      MaxSeqOfLines(es[..|es| - 1]);
      assert Lines(es)[..|es| - 1] == Lines(es[..|es| - 1]);
    }
  }

  /** The files against a history: the WAL holds a suffix of it, and what it lacks has been acknowledged. */
  ghost predicate Consistent(d: Disk, h: seq<Entry>) {
    Increasing(h) && exists cut: nat :: HoldsFrom(d, h, cut)
  }

  ghost predicate HoldsFrom(d: Disk, h: seq<Entry>, cut: nat) {
    && cut <= |h| && Body(d.wal) == Lines(h[cut..])
    && forall i :: 0 <= i < cut ==> h[i].seqNo <= AckOf(d)
  }

  /** Files seen during a run, with the history at that moment. */
  datatype Snapshot = Snapshot(disk: Disk, history: seq<Entry>)

  /** Crash states in which readers see the same messages. */
  ghost predicate Unchanged(snaps: seq<Snapshot>, h: seq<Entry>, acked: nat) {
    forall s :: s in snaps ==> s.history == h && AckOf(s.disk) == acked
  }

  /** A new acknowledgement or a new WAL content keeps the files consistent. */
  lemma AckKeeps(d: Disk, h: seq<Entry>, n: nat)
    requires Consistent(d, h) && n >= AckOf(d)
    ensures Consistent(d.(ack := Some(n), ackTmp := None), h)
  {
    var cut: nat :| HoldsFrom(d, h, cut);
    assert HoldsFrom(d.(ack := Some(n), ackTmp := None), h, cut);
  }

  lemma TmpKeeps(d: Disk, h: seq<Entry>, w: Option<seq<Line>>, a: Option<nat>)
    requires Consistent(d, h)
    ensures Consistent(d.(walTmp := w, ackTmp := a), h)
  {
    var cut: nat :| HoldsFrom(d, h, cut);
    assert HoldsFrom(d.(walTmp := w, ackTmp := a), h, cut);
  }

  lemma AppendKeeps(d: Disk, h: seq<Entry>, e: Entry)
    requires Consistent(d, h) && d.wal.Some? && e.seqNo > 0 && forall x :: x in h ==> x.seqNo < e.seqNo
    ensures Consistent(d.(wal := Some(d.wal.value + [EntryLine(e)])), if d.wal.value == [] then h else h + [e])
  {
    var cut: nat :| HoldsFrom(d, h, cut);
    var u := d.(wal := Some(d.wal.value + [EntryLine(e)]));
    if d.wal.value == [] {
      assert HoldsFrom(u, h, cut);
    } else {
      AppendIncreases(h, e);
      hide Increasing;
      assert (h + [e])[cut..] == h[cut..] + [e];
      assert HoldsFrom(u, h + [e], cut);
    }
  }

  lemma AppendIncreases(h: seq<Entry>, e: Entry)
    requires Increasing(h) && e.seqNo > 0 && forall x :: x in h ==> x.seqNo < e.seqNo
    ensures Increasing(h + [e])
  {}

  lemma AppendVisible(d: Disk, h: seq<Entry>, e: Entry)
    requires Consistent(d, h) && d.wal.Some?
    ensures var after := if d.wal.value == [] then h else h + [e];
            Above(after, AckOf(d)) ==
            Above(h, AckOf(d)) + if d.wal.value != [] && AckOf(d) < e.seqNo then [e] else []
  {}

  lemma RewriteKeeps(d: Disk, h: seq<Entry>, kept: seq<Line>)
    requires Consistent(d, h) && kept == Lines(Above(h, AckOf(d)))
    ensures Consistent(d.(wal := Some([HeaderLine] + kept), walTmp := None), h)
  {
    AboveIsSuffix(h, AckOf(d));
    var u := d.(wal := Some([HeaderLine] + kept), walTmp := None);
    assert ([HeaderLine] + kept)[1..] == kept;
    assert HoldsFrom(u, h, Settled(h, AckOf(d)));
  }

  /** Reading the WAL gives exactly the unacknowledged part of the history. */
  lemma BodyAbove(d: Disk, h: seq<Entry>) returns (held: seq<Entry>)
    requires Consistent(d, h)
    ensures Body(d.wal) == Lines(held) && Increasing(held)
    ensures Above(held, AckOf(d)) == Above(h, AckOf(d))
    ensures held != [] ==> h != [] && held[|held| - 1] == h[|h| - 1]
    ensures held == [] ==> Above(h, AckOf(d)) == []
    ensures held == [] && h != [] ==> AckOf(d) >= h[|h| - 1].seqNo
  {
    var cut: nat :| HoldsFrom(d, h, cut);
    held := h[cut..];
    AboveDrop(h, cut, AckOf(d));
  }

  /** The files hold the history itself, or none of it, in which case all of it was acknowledged. */
  lemma Reopened(d: Disk, before: seq<Entry>)
    requires Consistent(d, before)
    ensures var h := if Body(d.wal) == [] then [] else before;
            && Consistent(d, h) && Above(h, AckOf(d)) == Above(before, AckOf(d))
            && forall e :: e in h ==> e.seqNo <= MaxSeq(Body(d.wal))
  {
    var held := BodyAbove(d, before);
    MaxSeqOfLines(held);
    assert |Lines(held)| == |held|;
    if held == [] {
      assert HoldsFrom(d, [], 0);
    }
  }

  lemma FreshFiles(d: Disk)
    requires d.wal.None?
    ensures Consistent(d.(wal := Some([])), []) && Consistent(d.(wal := Some([HeaderLine])), [])
  {
    assert HoldsFrom(d.(wal := Some([])), [], 0) && HoldsFrom(d.(wal := Some([HeaderLine])), [], 0);
  }

  // ---- Mailbox states ----

  /** A mailbox with its files. `history` holds the messages readers can see, acknowledged or not, and starts
      anew when `open` finds no entry; `trail` holds every file content on the way, as a crash can leave it. */
  datatype State = State(disk: Disk, sequence: nat, lastAcked: nat, history: seq<Entry>, trail: seq<Snapshot>)

  ghost predicate Good(s: State) {
    && Consistent(s.disk, s.history) && s.disk.wal.Some? && s.lastAcked == AckOf(s.disk)
    && (forall e :: e in s.history ==> e.seqNo <= s.sequence)
    && (forall x :: x in s.trail ==> Consistent(x.disk, x.history))
  }

  /** Whether the next append will be seen by readers: the WAL has its header line, and the numbering has
      not fallen behind the acknowledgements. */
  predicate Sound(s: State) {
    s.disk.wal.Some? && s.disk.wal.value != [] && s.lastAcked <= s.sequence
  }

  /** The messages to deliver again. */
  function Pending(s: State): seq<Entry> {
    Above(s.history, s.lastAcked)
  }

  function Written(s: State, d: Disk): State {
    s.(disk := d, trail := s.trail + [Snapshot(d, s.history)])
  }

  function Appended(s: State, msg: Msg): State
    requires s.disk.wal.Some?
  {
    var e := Entry(s.sequence + 1, msg);
    Written(s.(sequence := s.sequence + 1, history := if s.disk.wal.value == [] then s.history else s.history + [e]),
            s.disk.(wal := Some(s.disk.wal.value + [EntryLine(e)])))
  }

  function Acked(s: State, n: nat): State {
    var tmp := Written(s, s.disk.(ackTmp := Some(n)));
    Written(tmp, tmp.disk.(ack := Some(n), ackTmp := None)).(lastAcked := n)
  }

  /** The temporary WAL being filled: its first `i` lines after the header. */
  function Filled(s: State, kept: seq<Line>, i: nat): State
    requires i <= |kept|
  {
    if i == 0 then
      var created := Written(s, s.disk.(walTmp := Some([])));
      Written(created, created.disk.(walTmp := Some([HeaderLine])))
    else
      var rest := Filled(s, kept, i - 1);
      Written(rest, rest.disk.(walTmp := Some([HeaderLine] + kept[..i])))
  }

  function Truncated(s: State): State {
    var kept := Lines(Pending(s));
    var filled := Filled(s, kept, |kept|);
    Written(filled, filled.disk.(wal := filled.disk.walTmp, walTmp := None))
  }

  /** `open` on the files of a crash; `before` is the history at that moment. */
  function Opened(d: Disk, before: seq<Entry>): State {
    var h := if Body(d.wal) == [] then [] else before;
    var s := State(d, MaxSeq(Body(d.wal)), AckOf(d), h, [Snapshot(d, h)]);
    if d.wal.Some? then s
    else
      var created := Written(s, d.(wal := Some([])));
      Written(created, d.(wal := Some([HeaderLine])))
  }

  // ---- What the operations keep ----

  lemma AppendGood(s: State, msg: Msg)
    requires Good(s)
    ensures Good(Appended(s, msg))
  {
    hide Consistent;
    AppendKeeps(s.disk, s.history, Entry(s.sequence + 1, msg));
  }

  /** An append is replayed, after everything that was, exactly when the mailbox was sound. */
  lemma AppendIsReplayedIffSound(s: State, msg: Msg)
    requires Good(s)
    ensures Good(Appended(s, msg))
    ensures Pending(Appended(s, msg)) == Pending(s) + if Sound(s) then [Entry(s.sequence + 1, msg)] else []
    ensures Sound(s) ==> Sound(Appended(s, msg))
  {
    hide Consistent, Above, AckOf;
    AppendGood(s, msg);
    AppendVisible(s.disk, s.history, Entry(s.sequence + 1, msg));
  }

  /** An acknowledgement hides exactly the messages up to its number; a crash leaves the old or the new one. */
  lemma AckHides(s: State, n: nat)
    requires Good(s) && s.lastAcked < n <= s.sequence
    ensures Good(Acked(s, n)) && Pending(Acked(s, n)) == Above(s.history, n)
    ensures Sound(s) ==> Sound(Acked(s, n))
    ensures forall x :: x in Acked(s, n).trail[|s.trail|..] ==>
              x.history == s.history && AckOf(x.disk) in {s.lastAcked, n}
  {
    hide Consistent, Above, Body;
    TmpKeeps(s.disk, s.history, s.disk.walTmp, Some(n));
    AckKeeps(s.disk.(ackTmp := Some(n)), s.history, n);
  }

  lemma {:induction false} FilledGood(s: State, kept: seq<Line>, i: nat)
    requires Good(s) && i <= |kept|
    ensures Good(Filled(s, kept, i))
    ensures Filled(s, kept, i).disk == s.disk.(walTmp := Some([HeaderLine] + kept[..i]))
    ensures Filled(s, kept, i) == s.(disk := Filled(s, kept, i).disk, trail := Filled(s, kept, i).trail)
    ensures s.trail <= Filled(s, kept, i).trail
    ensures Unchanged(Filled(s, kept, i).trail[|s.trail|..], s.history, s.lastAcked)
  {
    TmpKeeps(s.disk, s.history, Some([HeaderLine] + kept[..i]), s.disk.ackTmp);
    hide Consistent;
    if i == 0 {
      TmpKeeps(s.disk, s.history, Some([]), s.disk.ackTmp);
      assert [HeaderLine] + kept[..0] == [HeaderLine];
    } else {
      FilledGood(s, kept, i - 1);
    }
  }

  /** Truncation shrinks the WAL to what is not acknowledged; at every crash point on the way, and
      afterwards, readers see the same messages. */
  lemma TruncateKeepsPending(s: State)
    requires Good(s)
    ensures Good(Truncated(s)) && Pending(Truncated(s)) == Pending(s)
    ensures Body(Truncated(s).disk.wal) == Lines(Pending(s))
    ensures Sound(s) ==> Sound(Truncated(s))
    ensures s.trail <= Truncated(s).trail && Unchanged(Truncated(s).trail[|s.trail|..], s.history, s.lastAcked)
  {
    hide Consistent, Above, Filled, Unchanged;
    var kept := Lines(Pending(s));
    FilledGood(s, kept, |kept|);
    assert kept[..|kept|] == kept && ([HeaderLine] + kept)[1..] == kept;
    RewriteKeeps(Filled(s, kept, |kept|).disk, s.history, kept);
    OneMoreUnchanged(Filled(s, kept, |kept|), s, Truncated(s).disk);
  }

  /** Files with the same acknowledgement, written over the same history, change nothing for readers. */
  lemma OneMoreUnchanged(u: State, s: State, d: Disk)
    requires s.trail <= u.trail && u.history == s.history && AckOf(d) == s.lastAcked
    requires Unchanged(u.trail[|s.trail|..], s.history, s.lastAcked)
    ensures Unchanged(Written(u, d).trail[|s.trail|..], s.history, s.lastAcked)
  {
    assert Written(u, d).trail[|s.trail|..] == u.trail[|s.trail|..] + [Snapshot(d, s.history)];
  }

  lemma OpenedGood(d: Disk, before: seq<Entry>)
    requires Consistent(d, before)
    ensures Good(Opened(d, before))
  {
    hide Consistent, MaxSeq;
    Reopened(d, before);
    if d.wal.None? {
      FreshFiles(d);
    }
  }

  /** Reopening after a crash loses no unacknowledged message. The mailbox is sound exactly when the WAL is
      not an empty file and its last number has not fallen behind the acknowledgement. */
  lemma ReopenKeepsPending(d: Disk, before: seq<Entry>)
    requires Consistent(d, before)
    ensures Good(Opened(d, before)) && Pending(Opened(d, before)) == Above(before, AckOf(d))
    ensures Sound(Opened(d, before)) <==> d.wal != Some([]) && AckOf(d) <= MaxSeq(Body(d.wal))
  {
    OpenedGood(d, before);
    Reopened(d, before);
    hide Good, Above, MaxSeq;
  }

  class DurableMailbox {
    var disk: Disk
    var sequence: nat
    var lastAcked: nat
    ghost var history: seq<Entry>
    ghost var trail: seq<Snapshot>

    ghost function View(): State
      reads this
    {
      State(disk, sequence, lastAcked, history, trail)
    }

    constructor (disk: Disk, sequence: nat, lastAcked: nat, ghost history: seq<Entry>)
      ensures View() == State(disk, sequence, lastAcked, history, [Snapshot(disk, history)])
    {
      this.disk, this.sequence, this.lastAcked, this.history := disk, sequence, lastAcked, history;
      this.trail := [Snapshot(disk, history)];
    }

    static method Open(disk: Disk, ghost before: seq<Entry>) returns (m: DurableMailbox)
      requires Consistent(disk, before)
      ensures fresh(m) && Good(m.View()) && m.View() == Opened(disk, before)
    {
      ReopenKeepsPending(disk, before);
      hide Good;
      var lastAcked := AckOf(disk);
      var maxSeq := ScanMax(disk.wal);
      m := new DurableMailbox(disk, maxSeq, lastAcked, if Body(disk.wal) == [] then [] else before);
      if disk.wal.None? {
        m.Write(disk.(wal := Some([])));
        m.Write(disk.(wal := Some([HeaderLine])));
      }
    }

    static method ScanMax(wal: Option<seq<Line>>) returns (maxSeq: nat)
      ensures maxSeq == MaxSeq(Body(wal))
      ensures forall l :: l in Body(wal) && l.EntryLine? ==> l.entry.seqNo <= maxSeq
      ensures maxSeq == 0 || exists l :: l in Body(wal) && l.EntryLine? && l.entry.seqNo == maxSeq
    {
      MaxSeqIsMax(Body(wal));
      maxSeq := 0;
      var lines := Body(wal);
      for i := 0 to |lines|
        invariant maxSeq == MaxSeq(lines[..i])
      {
        assert lines[..i + 1][..i] == lines[..i];
        if lines[i].EntryLine? && lines[i].entry.seqNo > maxSeq {
          maxSeq := lines[i].entry.seqNo;
        }
      }
      assert lines[..|lines|] == lines;
    }

    /** Replaces the files; the snapshot joins the crash states. */
    method Write(d: Disk)
      modifies this`disk, this`trail
      ensures View() == Written(old(View()), d)
    {
      disk := d;
      trail := trail + [Snapshot(d, history)];
    }

    method Append(msg: Msg) returns (n: nat)
      requires Good(View())
      modifies this
      ensures Good(View()) && View() == Appended(old(View()), msg) && n == sequence
    {
      hide Consistent, Above;
      AppendGood(View(), msg);
      var lines := disk.wal.value;
      sequence := sequence + 1;
      var e := Entry(sequence, msg);
      if lines != [] {
        history := history + [e];
      }
      Write(disk.(wal := Some(lines + [EntryLine(e)])));
      n := sequence;
    }

    /** Exactly the visible messages above the last acknowledgement, in order. */
    method Replay() returns (r: Result<seq<Entry>, MailboxError>)
      requires Good(View())
      ensures r == Ok(Pending(View()))
    {
      var entries: seq<Entry> := [];
      var lines := Body(disk.wal);
      ghost var held := BodyAbove(disk, history);
      hide Good, Consistent, Body, Increasing;
      for i := 0 to |lines|
        invariant entries == Above(held[..i], lastAcked)
      {
        assert held[..i + 1][..i] == held[..i];
        if lines[i].HeaderLine? {
          return Err(BadEntry);
        }
        if lines[i].entry.seqNo > lastAcked {
          entries := entries + [lines[i].entry];
        }
      }
      assert held[..|held|] == held;
      return Ok(entries);
    }

    /** Only a new number that was handed out can be acknowledged. */
    method Ack(n: nat) returns (r: Result<(), MailboxError>)
      requires Good(View())
      modifies this
      ensures r == if n <= old(lastAcked) then Err(AckNotNew) else if n > old(sequence) then Err(AckTooHigh) else Ok(())
      ensures Good(View()) && View() == if r.Ok? then Acked(old(View()), n) else old(View())
    {
      if n <= lastAcked {
        return Err(AckNotNew);
      }
      if n > sequence {
        return Err(AckTooHigh);
      }
      AckHides(View(), n);
      hide Good;
      Write(disk.(ackTmp := Some(n)));
      Write(disk.(ack := Some(n), ackTmp := None));
      lastAcked := n;
      return Ok(());
    }

    method Truncate()
      requires Good(View())
      modifies this
      ensures Good(View()) && View() == Truncated(old(View()))
    {
      var kept := KeepUnacked();
      TruncateKeepsPending(View());
      hide Good;
      Write(disk.(walTmp := Some([])));
      Write(disk.(walTmp := Some([HeaderLine])));
      for i := 0 to |kept|
        invariant View() == Filled(old(View()), kept, i)
      {
        Write(disk.(walTmp := Some([HeaderLine] + kept[..i + 1])));
      }
      Write(disk.(wal := disk.walTmp, walTmp := None));
    }

    /** `replay_all` followed by the filter of `truncate`. */
    method KeepUnacked() returns (kept: seq<Line>)
      requires Good(View())
      ensures kept == Lines(Pending(View()))
    {
      kept := [];
      var lines := Body(disk.wal);
      ghost var held := BodyAbove(disk, history);
      hide Good, Consistent, Body, Increasing;
      for i := 0 to |lines|
        invariant kept == Lines(Above(held[..i], lastAcked))
      {
        assert held[..i + 1][..i] == held[..i];
        if lines[i].EntryLine? && lines[i].entry.seqNo > lastAcked {
          kept := kept + [lines[i]];
        }
      }
      assert held[..|held|] == held;
    }
  }

  // ---- Whole runs, with crashes ----

  /** `Crash(k)` stops the machine at the k-th file content since it was opened, and reopens. */
  datatype Event = DoAppend(msg: Msg) | DoAck(n: nat) | DoTruncate | Crash(k: nat)

  function Next(s: State, e: Event): State
    requires s.disk.wal.Some?
  {
    match e
    case DoAppend(m) => Appended(s, m)
    case DoAck(n) => if s.lastAcked < n <= s.sequence then Acked(s, n) else s
    case DoTruncate => Truncated(s)
    case Crash(k) => if k < |s.trail| then Opened(s.trail[k].disk, s.trail[k].history) else Opened(s.disk, s.history)
  }

  lemma NextIsGood(s: State, e: Event)
    requires Good(s)
    ensures Good(Next(s, e))
  {
    hide Consistent, Appended, Acked, Truncated, Opened, Above;
    match e
    case DoAppend(m) => AppendIsReplayedIffSound(s, m);
    case DoAck(n) =>
      if s.lastAcked < n <= s.sequence {
        AckHides(s, n);
      }
    case DoTruncate => TruncateKeepsPending(s);
    case Crash(k) =>
      if k < |s.trail| {
        TrailConsistent(s, k);
        OpenedGood(s.trail[k].disk, s.trail[k].history);
      } else {
        OpenedGood(s.disk, s.history);
      }
  }

  ghost function RunAll(s: State, es: seq<Event>): (u: State)
    requires Good(s)
    ensures Good(u)
    decreases |es|
  {
    if es == [] then s
    else
      NextIsGood(s, es[0]);
      RunAll(Next(s, es[0]), es[1..])
  }

  /** In every state of every run, crashes included, readers get numbers in increasing order, all above the
      last acknowledgement, and a further crash at any recorded point keeps what was pending there. */
  lemma EveryRunKeepsPending(s: State, es: seq<Event>, k: nat)
    requires Good(s)
    ensures var u := RunAll(s, es);
            && Increasing(Pending(u)) && (forall e :: e in Pending(u) ==> e.seqNo > u.lastAcked)
            && (k < |u.trail| ==> Pending(Next(u, Crash(k))) == Above(u.trail[k].history, AckOf(u.trail[k].disk)))
  {
    hide Good, Increasing, Above, Opened, Consistent;
    var u := RunAll(s, es);
    PendingIncreases(u);
    if k < |u.trail| {
      TrailConsistent(u, k);
      ReopenKeepsPending(u.trail[k].disk, u.trail[k].history);
    }
  }

  lemma TrailConsistent(s: State, k: nat)
    requires Good(s) && k < |s.trail|
    ensures Consistent(s.trail[k].disk, s.trail[k].history)
  {}

  lemma PendingIncreases(s: State)
    requires Good(s)
    ensures Increasing(Pending(s)) && forall e :: e in Pending(s) ==> e.seqNo > s.lastAcked
  {
    AboveIsSuffix(s.history, s.lastAcked);
    AboveAll(s.history, s.lastAcked);
  }

  lemma {:induction false} AboveAll(es: seq<Entry>, n: nat)
    ensures forall e :: e in Above(es, n) ==> e in es && e.seqNo > n
  {
    if es != [] {
      AboveAll(es[..|es| - 1], n);
    }
  }

  /** Files left by a sound mailbox reopen into a sound one exactly when the WAL still holds an entry or
      nothing was ever acknowledged; otherwise the numbering restarts below the acknowledgement. */
  lemma ReopenSoundIff(d: Disk, h: seq<Entry>)
    requires Consistent(d, h) && d.wal.Some? && d.wal.value != []
    requires if h == [] then AckOf(d) == 0 else AckOf(d) <= h[|h| - 1].seqNo
    ensures Sound(Opened(d, h)) <==> Body(d.wal) != [] || AckOf(d) == 0
  {}

  // ---- What a client may expect ----

  /** The mailbox as its client understands it: no files, only numbered messages that are not acknowledged. */
  datatype Client = Client(pending: seq<Entry>, next: nat, acked: nat)

  /** What the client can count on when the machine stops at some file content, and whether the WAL exists then. */
  datatype Point = Point(client: Client, wal: bool)

  /** The client now, and at each file content since the mailbox was opened. */
  datatype Account = Account(now: Client, points: seq<Point>)

  function Delivered(c: Client, n: nat): Client {
    Client(Above(c.pending, n), c.next, n)
  }

  /** Opening writes nothing when the WAL exists; otherwise it creates the file, then its header. */
  function Restarted(p: Point): Account {
    Account(p.client, if p.wal then [p] else [p, Point(p.client, true), Point(p.client, true)])
  }

  /** An append writes once. An acknowledgement writes twice and counts from its second write on. A truncation
      writes once for each message kept and three times more, and at no point changes anything for the client. */
  function AccountNext(a: Account, e: Event): Account
    requires a.points != []
  {
    match e
    case DoAppend(m) =>
      var c := Client(a.now.pending + [Entry(a.now.next + 1, m)], a.now.next + 1, a.now.acked);
      Account(c, a.points + [Point(c, true)])
    case DoAck(n) =>
      if a.now.acked < n <= a.now.next then
        Account(Delivered(a.now, n), a.points + [Point(a.now, true), Point(Delivered(a.now, n), true)])
      else a
    case DoTruncate => Account(a.now, a.points + seq(|a.now.pending| + 3, _ => Point(a.now, true)))
    case Crash(k) => Restarted(if k < |a.points| then a.points[k] else a.points[|a.points| - 1])
  }

  function AccountAfter(a: Account, es: seq<Event>): (b: Account)
    requires a.points != []
    ensures b.points != []
    decreases |es|
  {
    if es == [] then a else AccountAfter(AccountNext(a, es[0]), es[1..])
  }

  /** The files at a crash can be reopened for good: they are not an empty WAL file, and the WAL holds an entry
      unless nothing was ever acknowledged. */
  predicate SafeFiles(d: Disk) {
    d.wal != Some([]) && (Body(d.wal) != [] || AckOf(d) == 0)
  }

  predicate SafeCrash(s: State, e: Event) {
    e.Crash? ==> SafeFiles(if e.k < |s.trail| then s.trail[e.k].disk else s.disk)
  }

  ghost predicate SafeCrashes(s: State, es: seq<Event>)
    requires Good(s)
    decreases |es|
  {
    es == [] || (SafeCrash(s, es[0]) && (NextIsGood(s, es[0]); SafeCrashes(Next(s, es[0]), es[1..])))
  }

  function LastSeq(h: seq<Entry>): nat {
    if h == [] then 0 else h[|h| - 1].seqNo
  }

  /** The files at a point hold what the client counts on there. */
  predicate AtPoint(x: Snapshot, p: Point) {
    && p.client == Client(Above(x.history, AckOf(x.disk)), LastSeq(x.history), AckOf(x.disk))
    && p.wal == x.disk.wal.Some? && p.client.acked <= p.client.next
  }

  predicate AtPoints(xs: seq<Snapshot>, ps: seq<Point>) {
    |xs| == |ps| && forall k :: 0 <= k < |xs| ==> AtPoint(xs[k], ps[k])
  }

  predicate Agrees(s: State, c: Client) {
    Sound(s) && c == Client(Pending(s), s.sequence, s.lastAcked) && s.sequence == LastSeq(s.history)
  }

  predicate Matches(s: State, a: Account) {
    && Agrees(s, a.now) && AtPoints(s.trail, a.points) && a.points != []
    && s.trail != [] && s.trail[|s.trail| - 1] == Snapshot(s.disk, s.history)
  }

  lemma {:induction false} AboveTwice(es: seq<Entry>, m: nat, n: nat)
    requires m <= n
    ensures Above(Above(es, m), n) == Above(es, n)
  {
    if es != [] {
      AboveTwice(es[..|es| - 1], m, n);
      if es[|es| - 1].seqNo > m {
        var kept := Above(es[..|es| - 1], m);
        assert (kept + [es[|es| - 1]])[..|kept|] == kept;
      } else {
        assert Above(es, m) == Above(es[..|es| - 1], m);
      }
    }
  }

  /** Reopening safe files of a crash point resumes with the client of that point. */
  lemma RestartAgrees(x: Snapshot, p: Point)
    requires Consistent(x.disk, x.history) && AtPoint(x, p) && SafeFiles(x.disk)
    ensures Agrees(Opened(x.disk, x.history), p.client)
  {
    ReopenKeepsPending(x.disk, x.history);
    var held := BodyAbove(x.disk, x.history);
    MaxSeqOfLines(held);
    assert |Lines(held)| == |held|;
  }

  /** The guard is exact: the next message is replayed if and only if the files reopened were safe. */
  lemma SafeFilesAreNeeded(x: Snapshot, p: Point, msg: Msg)
    requires Consistent(x.disk, x.history) && AtPoint(x, p)
    ensures var s := Opened(x.disk, x.history);
            && Good(s) && Pending(s) == p.client.pending
            && Pending(Appended(s, msg)) ==
               p.client.pending + if SafeFiles(x.disk) then [Entry(s.sequence + 1, msg)] else []
  {
    ReopenKeepsPending(x.disk, x.history);
    AppendIsReplayedIffSound(Opened(x.disk, x.history), msg);
    var held := BodyAbove(x.disk, x.history);
    MaxSeqOfLines(held);
    assert |Lines(held)| == |held|;
    hide Good, Consistent, Above, Appended;
  }

  /** Files with the same messages and acknowledgement are worth the same to the client. */
  lemma SamePoint(s: State, c: Client, x: Snapshot)
    requires Agrees(s, c) && s.lastAcked == AckOf(x.disk) && x.history == s.history
    ensures AtPoint(x, Point(c, x.disk.wal.Some?))
  {}

  lemma RestartMatches(x: Snapshot, p: Point)
    requires Consistent(x.disk, x.history) && AtPoint(x, p) && SafeFiles(x.disk)
    ensures Matches(Opened(x.disk, x.history), Restarted(p))
  {
    hide Above, MaxSeq, Consistent, AtPoint;
    var s := Opened(x.disk, x.history);
    RestartAgrees(x, p);
    KnowsWal(x, p);
    forall k | 0 <= k < |s.trail| ensures AtPoint(s.trail[k], Restarted(p).points[k]) {
      SamePoint(s, p.client, s.trail[k]);
    }
  }

  lemma KnowsWal(x: Snapshot, p: Point)
    requires AtPoint(x, p)
    ensures p.wal == x.disk.wal.Some?
  {}

  lemma AgreedPending(s: State, c: Client)
    requires Agrees(s, c)
    ensures Pending(s) == c.pending
  {}

  lemma MorePoints(xs: seq<Snapshot>, ps: seq<Point>, ys: seq<Snapshot>, qs: seq<Point>)
    requires AtPoints(xs, ps) && |ys| == |qs| == 1 && AtPoint(ys[0], qs[0])
    ensures AtPoints(xs + ys, ps + qs)
  {
    hide AtPoint;
  }

  lemma AppendMatches(s: State, a: Account, msg: Msg)
    requires Good(s) && Matches(s, a)
    ensures Matches(Appended(s, msg), AccountNext(a, DoAppend(msg)))
  {
    hide AtPoints, Above, Consistent;
    var t := Appended(s, msg);
    AppendIsReplayedIffSound(s, msg);
    SamePoint(t, AccountNext(a, DoAppend(msg)).now, Snapshot(t.disk, t.history));
    MorePoints(s.trail, a.points, [Snapshot(t.disk, t.history)], [Point(AccountNext(a, DoAppend(msg)).now, true)]);
  }

  lemma AckMatches(s: State, a: Account, n: nat)
    requires Good(s) && Matches(s, a) && s.lastAcked < n <= s.sequence
    ensures Matches(Acked(s, n), AccountNext(a, DoAck(n)))
  {
    hide AtPoints, Above, Consistent;
    var tmp, t := Written(s, s.disk.(ackTmp := Some(n))), Acked(s, n);
    var before, after := Point(a.now, true), Point(Delivered(a.now, n), true);
    AckHides(s, n);
    AboveTwice(s.history, s.lastAcked, n);
    SamePoint(tmp, a.now, Snapshot(tmp.disk, s.history));
    SamePoint(t, after.client, Snapshot(t.disk, t.history));
    MorePoints(s.trail, a.points, [Snapshot(tmp.disk, s.history)], [before]);
    MorePoints(tmp.trail, a.points + [before], [Snapshot(t.disk, t.history)], [after]);
    assert a.points + [before] + [after] == a.points + [before, after];
  }

  lemma {:induction false} FilledTrail(s: State, kept: seq<Line>, i: nat)
    requires i <= |kept|
    ensures var t := Filled(s, kept, i).trail;
            && |t| == |s.trail| + 2 + i && t[..|s.trail|] == s.trail
            && forall k :: |s.trail| <= k < |t| ==>
                 t[k].history == s.history && t[k].disk.wal == s.disk.wal && t[k].disk.ack == s.disk.ack
    ensures var u := Filled(s, kept, i); u.disk == s.disk.(walTmp := u.disk.walTmp) && u.history == s.history
  {
    if i > 0 {
      FilledTrail(s, kept, i - 1);
    }
  }

  lemma TruncateMatches(s: State, a: Account)
    requires Good(s) && Matches(s, a)
    ensures Matches(Truncated(s), AccountNext(a, DoTruncate))
  {
    hide Above, Consistent, Filled, AtPoint, Unchanged, Lines;
    var kept := Lines(Pending(s));
    LinesLength(Pending(s));
    TruncateKeepsPending(s);
    FilledTrail(s, kept, |kept|);
    FilledGood(s, kept, |kept|);
    var t, points := Truncated(s), AccountNext(a, DoTruncate).points;
    forall k | 0 <= k < |t.trail| ensures AtPoint(t.trail[k], points[k]) {
      if k < |s.trail| {
        assert AtPoint(s.trail[k], a.points[k]);
      } else {
        SamePoint(s, a.now, t.trail[k]);
      }
    }
  }

  lemma LinesLength(es: seq<Entry>)
    ensures |Lines(es)| == |es|
  {}

  lemma CrashMatches(s: State, a: Account, k: nat)
    requires Good(s) && Matches(s, a) && SafeCrash(s, Crash(k))
    ensures Matches(Next(s, Crash(k)), AccountNext(a, Crash(k)))
  {
    var at := if k < |s.trail| then k else |s.trail| - 1;
    assert AtPoint(s.trail[at], a.points[at]);
    TrailConsistent(s, at);
    RestartMatches(s.trail[at], a.points[at]);
    hide Opened, Agrees, Consistent, Above;
  }

  lemma StepMatches(s: State, a: Account, e: Event)
    requires Good(s) && Matches(s, a) && SafeCrash(s, e)
    ensures Matches(Next(s, e), AccountNext(a, e))
  {
    match e
    case DoAppend(m) => AppendMatches(s, a, m);
    case DoAck(n) =>
      if s.lastAcked < n <= s.sequence {
        AckMatches(s, a, n);
      }
    case DoTruncate => TruncateMatches(s, a);
    case Crash(k) => CrashMatches(s, a, k);
  }

  /** Over any run of appends, acknowledgements, truncations and crashes at any file content whose files are safe,
      what is replayed is what the client expects: every message appended and not acknowledged, in order, under
      the number it was given. */
  lemma {:induction false} ReplaysWhatTheClientExpects(s: State, a: Account, es: seq<Event>)
    requires Good(s) && Matches(s, a) && SafeCrashes(s, es)
    ensures Pending(RunAll(s, es)) == AccountAfter(a, es).now.pending
    decreases |es|
  {
    hide Consistent, Next, Agrees, AccountNext;
    if es == [] {
      AgreedPending(s, a.now);
    } else {
      NextIsGood(s, es[0]);
      StepMatches(s, a, es[0]);
      ReplaysWhatTheClientExpects(Next(s, es[0]), AccountNext(a, es[0]), es[1..]);
    }
  }

  const NO_FILES: Disk := Disk(None, None, None, None)
  const NEWCOMER: Client := Client([], 0, 0)

  ghost function Newborn(): (s: State)
    ensures Good(s)
  {
    EmptyConsistent(None);
    OpenedGood(NO_FILES, []);
    Opened(NO_FILES, [])
  }

  /** From no files at all, nothing about the state needs to be assumed. */
  lemma FreshMailboxKeepsItsPromise(es: seq<Event>)
    requires SafeCrashes(Newborn(), es)
    ensures Pending(RunAll(Newborn(), es)) == AccountAfter(Restarted(Point(NEWCOMER, false)), es).now.pending
  {
    hide RunAll, AccountAfter, SafeCrashes, Good, Matches, Restarted, Newborn, Pending;
    NewbornMatches();
    ReplaysWhatTheClientExpects(Newborn(), Restarted(Point(NEWCOMER, false)), es);
  }

  lemma NewbornMatches()
    ensures Matches(Newborn(), Restarted(Point(NEWCOMER, false)))
  {
    var x, p := Snapshot(NO_FILES, []), Point(NEWCOMER, false);
    EmptyConsistent(None);
    assert Above([], 0) == [];
    RestartMatches(x, p);
  }

  lemma EmptyConsistent(wal: Option<seq<Line>>)
    requires wal.None? || wal == Some([]) || wal == Some([HeaderLine])
    ensures forall a :: Consistent(Disk(wal, None, a, None), [])
  {
    forall a ensures Consistent(Disk(wal, None, a, None), []) {
      assert HoldsFrom(Disk(wal, None, a, None), [], 0);
    }
  }

  /** Everything acknowledged, truncated, and reopened: the next message is written and never replayed. */
  lemma EmptyWalLosesNext(msg: Msg)
    ensures var d := Disk(Some([HeaderLine]), None, Some(1), None);
            Consistent(d, []) && Appended(Opened(d, []), msg).disk.wal == Some([HeaderLine, EntryLine(Entry(1, msg))])
            && Pending(Appended(Opened(d, []), msg)) == []
  {
    EmptyConsistent(Some([HeaderLine]));
    var d := Disk(Some([HeaderLine]), None, Some(1), None);
    ReopenKeepsPending(d, []);
    assert Body(d.wal) == [] && Above([], AckOf(d)) == [] && MaxSeq([]) == 0;
    assert [HeaderLine] + [EntryLine(Entry(1, msg))] == [HeaderLine, EntryLine(Entry(1, msg))];
    AppendIsReplayedIffSound(Opened(d, []), msg);
  }

  /** A crash between creating the WAL and writing its header: the first message is taken for the header. */
  lemma HeaderlessWalLosesFirst(msg: Msg)
    ensures var d := Disk(Some([]), None, None, None);
            Consistent(d, []) && Appended(Opened(d, []), msg).disk.wal == Some([EntryLine(Entry(1, msg))])
            && Pending(Appended(Opened(d, []), msg)) == []
  {
    EmptyConsistent(Some([]));
    var d := Disk(Some([]), None, None, None);
    ReopenKeepsPending(d, []);
    assert Body(d.wal) == [] && Above([], AckOf(d)) == [] && MaxSeq([]) == 0;
    assert [] + [EntryLine(Entry(1, msg))] == [EntryLine(Entry(1, msg))];
    AppendIsReplayedIffSound(Opened(d, []), msg);
  }
}
