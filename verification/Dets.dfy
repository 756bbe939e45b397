/** Disk-backed tables: a cache, a snapshot file `.dat`, and a log that is replayed over it. */
module Dets {
  import opened Common

  type Key = nat

  /** JSON values; only null behaves differently from the others. */
  datatype Value = Null | Json(data: nat)

  /** A line of `.dat`: the schema header or an entry. */
  datatype DatLine = Header(version: nat) | Entry(key: Key, value: Value)

  datatype LogOp = PutOp | DeleteOp | OtherOp

  datatype LogLine = LogLine(op: LogOp, key: Key, value: Option<Value>)

  /** The three files of a table, absent or with their lines. */
  datatype Disk = Disk(dat: Option<seq<DatLine>>, tmp: Option<seq<DatLine>>, log: Option<seq<LogLine>>)

  datatype Access = Public | Protected | Private

  datatype DetsError = BadHeader | SchemaVersion | BadEntry | AccessDenied | TableFull

  const SCHEMA_VERSION: nat := 1

  type Cache = map<Key, Value>

  // ---- Recovery ----

  /** The optional value of a log line as the parser returns it: a logged null reads back as no value. */
  function ReadBack(v: Option<Value>): Option<Value> {
    if v == Some(Null) then None else v
  }

  function Redo(m: Cache, l: LogLine): Cache {
    match l.op
    case PutOp => if ReadBack(l.value).Some? then m[l.key := l.value.value] else m
    case DeleteOp => m - {l.key}
    case OtherOp => m
  }

  function Replay(m: Cache, log: seq<LogLine>): Cache {
    if log == [] then m else Redo(Replay(m, log[..|log| - 1]), log[|log| - 1])
  }

  predicate AllEntries(lines: seq<DatLine>) {
    forall l :: l in lines ==> l.Entry?
  }

  function Entries(lines: seq<DatLine>): Cache
    requires AllEntries(lines)
  {
    if lines == [] then map[]
    else Entries(lines[..|lines| - 1])[lines[|lines| - 1].key := lines[|lines| - 1].value]
  }

  function LoadDat(dat: Option<seq<DatLine>>): Result<Cache, DetsError> {
    if dat.None? || dat.value == [] then Ok(map[])
    else if dat.value[0].Entry? then Err(BadHeader)
    else if dat.value[0].version > SCHEMA_VERSION then Err(SchemaVersion)
    else if !AllEntries(dat.value[1..]) then Err(BadEntry)
    else Ok(Entries(dat.value[1..]))
  }

  function LogLines(d: Disk): seq<LogLine> {
    if d.log.Some? then d.log.value else []
  }

  /** What `open` makes of the files. The temporary file is never read. */
  function Recover(d: Disk): Result<Cache, DetsError> {
    var base := LoadDat(d.dat);
    if base.Err? then base else Ok(Replay(base.value, LogLines(d)))
  }

  function Get(m: Cache, k: Key): Option<Value> {
    if k in m then Some(m[k]) else None
  }

  /** Of the entries for a key the last one decides; a key without any is absent. */
  lemma {:induction false} EntriesLastWins(lines: seq<DatLine>, k: Key)
    requires AllEntries(lines)
    ensures Get(Entries(lines), k) == None <==> forall l :: l in lines ==> l.key != k
    ensures forall i :: 0 <= i < |lines| && lines[i].key == k && (forall j :: i < j < |lines| ==> lines[j].key != k) ==>
              Get(Entries(lines), k) == Some(lines[i].value)
  {
    if lines != [] {
      var n := |lines| - 1;
      EntriesLastWins(lines[..n], k);
      assert lines == lines[..n] + [lines[n]];
      forall i | 0 <= i < |lines| && lines[i].key == k && forall j :: i < j < |lines| ==> lines[j].key != k
        ensures Get(Entries(lines), k) == Some(lines[i].value) {
        if i < n {
          assert lines[n].key != k && lines[..n][i] == lines[i];
          assert forall j :: i < j < n ==> lines[..n][j].key == lines[j].key;
        }
      }
    }
  }

  // ---- Replay is determined key by key by the last line that has an effect ----

  datatype Effect = Untouched | Wrote(value: Value) | Removed

  function LastEffect(log: seq<LogLine>, k: Key): Effect {
    if log == [] then Untouched
    else
      var l := log[|log| - 1];
      if l.key == k && l.op == DeleteOp then Removed
      else if l.key == k && l.op == PutOp && ReadBack(l.value).Some? then Wrote(l.value.value)
      else LastEffect(log[..|log| - 1], k)
  }

  lemma {:induction false} ReplayAt(m: Cache, log: seq<LogLine>, k: Key)
    ensures Get(Replay(m, log), k) ==
            match LastEffect(log, k) {
              case Untouched => Get(m, k)
              case Wrote(v) => Some(v)
              case Removed => None
            }
  {
    if log != [] {
      ReplayAt(m, log[..|log| - 1], k);
    }
  }

  /** Replaying a log over its own result changes nothing, nulls or not. */
  lemma ReplayIdempotent(m: Cache, log: seq<LogLine>)
    ensures Replay(Replay(m, log), log) == Replay(m, log)
  {
    forall k ensures Get(Replay(Replay(m, log), log), k) == Get(Replay(m, log), k) {
      ReplayAt(m, log, k);
      ReplayAt(Replay(m, log), log, k);
    }
    SameEverywhere(Replay(Replay(m, log), log), Replay(m, log));
  }

  lemma SameEverywhere(a: Cache, b: Cache)
    requires forall k :: Get(a, k) == Get(b, k)
    ensures a == b
  {
    forall k ensures k in a <==> k in b {
      assert Get(a, k) == Get(b, k);
    }
    forall k | k in a ensures a[k] == b[k] {
      assert Get(a, k) == Get(b, k);
    }
  }

  // ---- What the files still say about the cache ----

  /** The files recover to the cache, except possibly on `lost`: keys whose last write was a null that
      only the log holds. */
  ghost predicate RecoversTo(d: Disk, cache: Cache, lost: set<Key>) {
    && Recover(d).Ok?
    && (forall k :: k !in lost ==> Get(Recover(d).value, k) == Get(cache, k))
    && (forall k :: k in lost ==> Get(cache, k) == Some(Null))
  }

  /** `lost` are exactly the keys on which the files recover to something else than the cache holds. */
  ghost predicate LosesExactly(d: Disk, cache: Cache, lost: set<Key>) {
    && Recover(d).Ok?
    && (forall k :: k in lost <==> Get(Recover(d).value, k) != Get(cache, k))
    && (forall k :: k in lost ==> Get(cache, k) == Some(Null))
  }

  lemma LosesAtMost(d: Disk, cache: Cache, lost: set<Key>)
    requires LosesExactly(d, cache, lost)
    ensures RecoversTo(d, cache, lost)
    ensures Recover(d) == Ok(cache) <==> lost == {}
  {
    if lost == {} {
      SameEverywhere(Recover(d).value, cache);
    } else {
      var k :| k in lost;
    }
  }

  lemma NothingLost(d: Disk, cache: Cache)
    requires Recover(d) == Ok(cache)
    ensures LosesExactly(d, cache, {})
  {}

  ghost predicate EachRecovers(ds: seq<Disk>, cache: Cache, lost: set<Key>) {
    forall d :: d in ds ==> RecoversTo(d, cache, lost)
  }

  lemma OneRecovers(before: seq<Disk>, d: Disk, cache: Cache, lost: set<Key>)
    requires RecoversTo(d, cache, lost)
    ensures EachRecovers((before + [d])[|before|..], cache, lost)
  {
    assert (before + [d])[|before|..] == [d];
  }

  lemma MoreRecover(before: seq<Disk>, logged: seq<Disk>, after: seq<Disk>, cache: Cache, lost: set<Key>)
    requires before <= logged <= after
    requires EachRecovers(logged[|before|..], cache, lost) && EachRecovers(after[|logged|..], cache, lost)
    ensures EachRecovers(after[|before|..], cache, lost)
  {
    hide RecoversTo;
    assert after[|before|..] == logged[|before|..] + after[|logged|..];
  }

  lemma RecoversExactly(d: Disk, cache: Cache)
    requires RecoversTo(d, cache, {})
    ensures Recover(d) == Ok(cache)
  {
    SameEverywhere(Recover(d).value, cache);
  }

  /** A logged null loses its key unless the files already say null; any other write secures its key. */
  function LostAfter(lost: set<Key>, cache: Cache, l: LogLine): set<Key> {
    if l.op == PutOp && l.value == Some(Null) then
      if l.key in lost || Get(cache, l.key) != Some(Null) then lost + {l.key} else lost
    else lost - {l.key}
  }

  function CacheAfter(cache: Cache, l: LogLine): Cache
    requires l.op == PutOp ==> l.value.Some?
  {
    match l.op
    case PutOp => cache[l.key := l.value.value]
    case _ => cache - {l.key}
  }

  function AppendLine(d: Disk, l: LogLine): Disk {
    d.(log := Some(LogLines(d) + [l]))
  }

  lemma AppendRecovers(d: Disk, cache: Cache, lost: set<Key>, l: LogLine)
    requires LosesExactly(d, cache, lost) && l.op != OtherOp && (l.op == PutOp ==> l.value.Some?)
    ensures LosesExactly(AppendLine(d, l), CacheAfter(cache, l), LostAfter(lost, cache, l))
  {
    var log := LogLines(d);
    assert (log + [l])[..|log|] == log;
    assert Recover(AppendLine(d, l)) == Ok(Redo(Recover(d).value, l));
  }

  /** Between the rename and the log truncation the log is replayed over a snapshot that already has its effects. */
  lemma SnapshotUnderOldLog(d: Disk, cache: Cache, lost: set<Key>, lines: seq<DatLine>)
    requires RecoversTo(d, cache, lost)
    requires AllEntries(lines) && Entries(lines) == cache
    ensures RecoversTo(d.(dat := Some([Header(SCHEMA_VERSION)] + lines), tmp := None), cache, lost)
  {
    var u := d.(dat := Some([Header(SCHEMA_VERSION)] + lines), tmp := None);
    SnapshotLoads(lines);
    forall k | k !in lost ensures Get(Recover(u).value, k) == Get(cache, k) {
      ReplayAt(LoadDat(d.dat).value, LogLines(d), k);
      ReplayAt(cache, LogLines(d), k);
    }
  }

  lemma SnapshotLoads(lines: seq<DatLine>)
    requires AllEntries(lines)
    ensures LoadDat(Some([Header(SCHEMA_VERSION)] + lines)) == Ok(Entries(lines))
  {}

  /** A logged put survives a crash, and everything before it does, exactly when nothing else was lost and the
      value is not null or the files already said null. */
  lemma PutSurvivesIff(d: Disk, cache: Cache, lost: set<Key>, k: Key, v: Value)
    requires LosesExactly(d, cache, lost)
    ensures Recover(AppendLine(d, LogLine(PutOp, k, Some(v)))) == Ok(cache[k := v]) <==>
            if v == Null then lost == {} && Get(cache, k) == Some(Null) else lost <= {k}
  {
    var l := LogLine(PutOp, k, Some(v));
    AppendRecovers(d, cache, lost, l);
    LosesAtMost(AppendLine(d, l), cache[k := v], LostAfter(lost, cache, l));
    hide Recover, LosesExactly;
    assert k in lost + {k};
    if x :| x in lost && x != k {
      assert x in lost - {k};
    }
  }

  /** Overwriting a value with null and crashing brings the old value back. */
  lemma NullIsForgotten()
    ensures var d := Disk(None, None, Some([LogLine(PutOp, 0, Some(Json(7))), LogLine(PutOp, 0, Some(Null))]));
            Recover(d) == Ok(map[0 := Json(7)])
  {
    var one := LogLine(PutOp, 0, Some(Json(7)));
    var log := [one, LogLine(PutOp, 0, Some(Null))];
    assert log[..1] == [one] && [one][..0] == [];
    assert Replay(map[], [one]) == Redo(Replay(map[], []), one);
    assert Replay(map[], log) == Redo(Replay(map[], [one]), log[1]);
  }

  // ---- The table ----

  class DetsTable {
    var cache: Cache
    var dirtyCount: nat
    var disk: Disk
    const access: Access
    const owner: Pid
    const maxEntries: nat
    const compactThreshold: nat
    /** Every content the files have had: a crash can leave any of them. */
    ghost var trail: seq<Disk>
    ghost var lost: set<Key>

    ghost predicate Valid()
      reads this
    {
      LosesExactly(disk, cache, lost) && disk.log.Some? && trail != [] && trail[|trail| - 1] == disk
    }

    constructor (disk: Disk, cache: Cache, access: Access, owner: Pid, maxEntries: nat, compactThreshold: nat)
      requires Recover(disk) == Ok(cache)
      ensures Valid() && this.cache == cache && lost == {} && dirtyCount == 0
      ensures this.disk == disk.(log := Some(LogLines(disk))) && trail == [this.disk]
      ensures this.access == access && this.owner == owner
      ensures this.maxEntries == maxEntries && this.compactThreshold == compactThreshold
    {
      this.disk, this.cache := disk.(log := Some(LogLines(disk))), cache;
      this.access, this.owner := access, owner;
      this.maxEntries, this.compactThreshold := maxEntries, compactThreshold;
      dirtyCount, lost := 0, {};
      new;
      trail := [this.disk];
      NothingLost(this.disk, cache);
    }

    /** Opens the table on any files: the cache is what they recover to, or the reason why they do not. */
    static method Open(disk: Disk, access: Access, owner: Pid, maxEntries: nat, compactThreshold: nat)
        returns (error: Option<DetsError>, table: DetsTable?)
      ensures error.None? <==> Recover(disk).Ok?
      ensures error.Some? ==> Recover(disk) == Err(error.value) && table == null
      ensures error.None? ==> table != null && fresh(table) && table.Valid() && table.lost == {}
                              && Recover(disk) == Ok(table.cache) && table.dirtyCount == 0
                              && table.trail == [table.disk] && table.access == access && table.owner == owner
                              && table.maxEntries == maxEntries && table.compactThreshold == compactThreshold
    {
      var loaded := ReadDat(disk.dat);
      if loaded.Err? {
        return Some(loaded.error), null;
      }
      var replayed := ReplayFile(loaded.value, disk.log);
      var t := new DetsTable(disk, replayed, access, owner, maxEntries, compactThreshold);
      return None, t;
    }

    static method ReadDat(dat: Option<seq<DatLine>>) returns (r: Result<Cache, DetsError>)
      ensures r == LoadDat(dat)
      ensures dat.None? || dat.value == [] ==> r == Ok(map[])
      ensures dat.Some? && dat.value != [] ==>
                var (first, rest) := (dat.value[0], dat.value[1..]);
                && (r == Err(BadHeader) <==> first.Entry?)
                && (r == Err(SchemaVersion) <==> first.Header? && first.version > 1)
                && (r == Err(BadEntry) <==> first.Header? && first.version <= 1 && exists l :: l in rest && l.Header?)
    {
      var m: Cache := map[];
      if dat.Some? {
        var first := true;
        for i := 0 to |dat.value|
          invariant first <==> i == 0
          invariant i == 0 ==> m == map[]
          invariant i > 0 ==> dat.value[0].Header? && dat.value[0].version <= SCHEMA_VERSION
          invariant i > 0 ==> AllEntries(dat.value[1..i]) && m == Entries(dat.value[1..i])
        {
          var line := dat.value[i];
          if first {
            if line.Entry? {
              return Err(BadHeader);
            }
            if line.version > SCHEMA_VERSION {
              return Err(SchemaVersion);
            }
            first := false;
          } else {
            if line.Header? {
              assert line in dat.value[1..];
              return Err(BadEntry);
            }
            assert dat.value[1..i + 1][..i - 1] == dat.value[1..i];
            m := m[line.key := line.value];
          }
        }
        assert dat.value != [] ==> dat.value[1..|dat.value|] == dat.value[1..];
      }
      return Ok(m);
    }

    static method ReplayFile(m0: Cache, log: Option<seq<LogLine>>) returns (m: Cache)
      ensures m == Replay(m0, if log.Some? then log.value else [])
    {
      m := m0;
      if log.Some? {
        for i := 0 to |log.value|
          invariant m == Replay(m0, log.value[..i])
        {
          assert log.value[..i + 1][..i] == log.value[..i];
          var entry := log.value[i];
          match entry.op {
            case PutOp =>
              if ReadBack(entry.value).Some? {
                m := m[entry.key := entry.value.value];
              }
            case DeleteOp => m := m - {entry.key};
            case OtherOp =>
          }
        }
        assert log.value[..|log.value|] == log.value;
      }
    }

    predicate MayWrite(caller: Pid) {
      access == Public || caller == owner
    }

    /** Changes a file; the content before and after is a possible crash state. */
    method Write(d: Disk)
      modifies this`disk, this`trail
      ensures disk == d && trail == old(trail) + [d]
    {
      disk := d;
      trail := trail + [d];
    }

    /** Whether the next write compacts. */
    predicate Compacts()
      reads this
    {
      dirtyCount + 1 >= compactThreshold
    }

    /** An accepted put is durable at every crash point: all file contents from the log append on, through
        any compaction, recover to the new cache, except where a null is lost. On a table that had lost nothing,
        the files recover to the new cache afterwards exactly unless the value is null, the old one was not, and
        the write does not compact. */
    method Put(k: Key, v: Value, caller: Pid) returns (r: Result<(), DetsError>)
      requires Valid()
      modifies this
      ensures Valid() && old(trail) <= trail
      ensures r.Err? <==> (access != Public && caller != owner) || (k !in old(cache) && |old(cache)| >= maxEntries)
      ensures r.Err? ==> r.error == if access != Public && caller != owner then AccessDenied else TableFull
      ensures r.Err? ==> unchanged(this)
      ensures r.Ok? ==> Recorded(LogLine(PutOp, k, Some(v)), old(cache), old(lost), old(disk), old(trail), old(dirtyCount))
      ensures r.Ok? ==> cache == old(cache)[k := v] && (Recover(disk) == Ok(cache) <==> lost == {})
      ensures r.Ok? && old(lost) == {} ==>
                (Recover(disk) == Ok(cache) <==> v != Null || Get(old(cache), k) == Some(Null) || old(Compacts()))
    {
      if !MayWrite(caller) {
        return Err(AccessDenied);
      }
      if k !in cache && |cache| >= maxEntries {
        return Err(TableFull);
      }
      Record(LogLine(PutOp, k, Some(v)));
      LosesAtMost(disk, cache, lost);
      hide LosesExactly, Recover, EachRecovers;
      assert k in old(lost) + {k};
      return Ok(());
    }

    /** A delete is logged even when the key is absent, and is durable in the same way. */
    method DeleteKey(k: Key, caller: Pid) returns (r: Result<(), DetsError>)
      requires Valid()
      modifies this
      ensures Valid() && old(trail) <= trail
      ensures r.Err? <==> access != Public && caller != owner
      ensures r.Err? ==> r.error == AccessDenied && unchanged(this)
      ensures r.Ok? ==> Recorded(LogLine(DeleteOp, k, None), old(cache), old(lost), old(disk), old(trail), old(dirtyCount))
      ensures r.Ok? ==> cache == old(cache) - {k} && (Recover(disk) == Ok(cache) <==> lost == {})
    {
      if !MayWrite(caller) {
        return Err(AccessDenied);
      }
      Record(LogLine(DeleteOp, k, None));
      LosesAtMost(disk, cache, lost);
      return Ok(());
    }

    /** The state after logging `l`: every file content from the append on recovers to the new cache except on lost
        keys, which a compaction empties; without one, the append is all that happened to the files. */
    ghost predicate Recorded(l: LogLine, cache0: Cache, lost0: set<Key>, disk0: Disk, trail0: seq<Disk>, dirty0: nat)
      requires l.op == PutOp ==> l.value.Some?
      reads this
    {
      && cache == CacheAfter(cache0, l)
      && trail0 <= trail && EachRecovers(trail[|trail0|..], cache, LostAfter(lost0, cache0, l))
      && if dirty0 + 1 >= compactThreshold then
           lost == {} && dirtyCount == 0 && disk.log == Some([])
         else
           && lost == LostAfter(lost0, cache0, l) && dirtyCount == dirty0 + 1
           && disk == AppendLine(disk0, l) && trail == trail0 + [disk]
    }

    /** Appends to the log, then updates the cache. */
    method Log(l: LogLine)
      requires Valid() && l.op != OtherOp && (l.op == PutOp ==> l.value.Some?)
      modifies this
      ensures Valid() && disk == AppendLine(old(disk), l) && trail == old(trail) + [disk]
      ensures cache == CacheAfter(old(cache), l) && lost == LostAfter(old(lost), old(cache), l)
      ensures dirtyCount == old(dirtyCount) + 1 && RecoversTo(disk, cache, lost)
    {
      AppendRecovers(disk, cache, lost, l);
      LosesAtMost(AppendLine(disk, l), CacheAfter(cache, l), LostAfter(lost, cache, l));
      hide LosesExactly, RecoversTo, CacheAfter, LostAfter;
      Write(AppendLine(disk, l));
      lost := LostAfter(lost, cache, l);
      cache := CacheAfter(cache, l);
      dirtyCount := dirtyCount + 1;
    }

    /** One write: logs it, then compacts when the threshold is reached. */
    method Record(l: LogLine)
      requires Valid() && l.op != OtherOp && (l.op == PutOp ==> l.value.Some?)
      modifies this
      ensures Valid()
      ensures Recorded(l, old(cache), old(lost), old(disk), old(trail), old(dirtyCount))
    {
      hide LosesExactly, RecoversTo, Recover, EachRecovers, CacheAfter, LostAfter, AppendLine;
      Log(l);
      OneRecovers(old(trail), disk, cache, lost);
      if dirtyCount >= compactThreshold {
        ghost var logged, losing := trail, lost;
        Compact();
        MoreRecover(old(trail), logged, trail, cache, losing);
      }
    }

    /** Rewrites the snapshot and empties the log. Every file content on the way recovers to the cache as
        well as before; at the end nothing is lost. */
    method Compact()
      requires Valid()
      modifies this
      ensures Valid() && lost == {} && dirtyCount == 0 && cache == old(cache)
      ensures Recover(disk) == Ok(cache) && disk.log == Some([])
      ensures old(trail) <= trail && EachRecovers(trail[|old(trail)|..], cache, old(lost))
    {
      LosesAtMost(disk, cache, lost);
      var lines := WriteSnapshot();
      SnapshotUnderOldLog(disk, cache, lost, lines);
      SnapshotLoads(lines);
      Write(disk.(dat := disk.tmp, tmp := None));
      Write(disk.(log := Some([])));
      lost, dirtyCount := {}, 0;
      NothingLost(disk, cache);
    }

    /** Fills the temporary file line by line, the entries in whatever order the hash map yields them. */
    method WriteSnapshot() returns (lines: seq<DatLine>)
      requires RecoversTo(disk, cache, lost)
      modifies this`disk, this`trail
      ensures AllEntries(lines) && Entries(lines) == cache
      ensures disk == old(disk).(tmp := Some([Header(SCHEMA_VERSION)] + lines))
      ensures old(trail) <= trail && EachRecovers(trail[|old(trail)|..], cache, lost)
    {
      Write(disk.(tmp := Some([])));
      Write(disk.(tmp := Some([Header(SCHEMA_VERSION)])));
      lines := [];
      assert [Header(SCHEMA_VERSION)] + lines == [Header(SCHEMA_VERSION)];
      var rest := cache.Keys;
      while rest != {}
        invariant rest <= cache.Keys
        invariant AllEntries(lines) && Entries(lines) == map k | k in cache && k !in rest :: cache[k]
        invariant disk == old(disk).(tmp := Some([Header(SCHEMA_VERSION)] + lines))
        invariant old(trail) <= trail && EachRecovers(trail[|old(trail)|..], cache, lost)
      {
        var k :| k in rest;
        rest := rest - {k};
        ghost var before := lines;
        lines := lines + [Entry(k, cache[k])];
        assert lines[..|before|] == before;
        Write(disk.(tmp := Some([Header(SCHEMA_VERSION)] + lines)));
      }
    }
  }

  // ---- Whole sessions ----

  datatype Request = PutRequest(key: Key, value: Value) | DeleteRequest(key: Key) | CompactRequest

  /** The content a request of the owner leaves; a put that does not fit leaves it alone. */
  function Serve(m: Cache, q: Request, maxEntries: nat): Cache {
    match q
    case PutRequest(k, v) => if k !in m && |m| >= maxEntries then m else m[k := v]
    case DeleteRequest(k) => m - {k}
    case CompactRequest => m
  }

  function ServeAll(m: Cache, qs: seq<Request>, maxEntries: nat): Cache {
    if qs == [] then m else Serve(ServeAll(m, qs[..|qs| - 1], maxEntries), qs[|qs| - 1], maxEntries)
  }

  /** Prefix consistency: whatever the owner asks for and wherever the machine stops, reopening gives the content
      after a prefix of the requests, as long as no null is written; and it is the right prefix. `marks[i]` counts
      the file contents before the (i+1)-th request: whatever a request writes recovers to what it leaves, and what
      is there when it is done does as well, so no completed request is ever lost. */
  method Session(table: DetsTable, qs: seq<Request>) returns (ghost marks: seq<nat>)
    requires table.Valid() && table.lost == {}
    requires forall q :: q in qs && q.PutRequest? ==> q.value != Null
    modifies table
    ensures table.Valid() && table.cache == ServeAll(old(table.cache), qs, table.maxEntries)
    ensures Recover(table.disk) == Ok(table.cache) && old(table.trail) <= table.trail
    ensures |marks| == |qs| + 1 && marks[0] == |old(table.trail)| && marks[|qs|] == |table.trail|
    ensures Marked(table.trail, marks, old(table.cache), qs, table.maxEntries)
  {
    hide Recover, Marked, LosesExactly, ServeAll, Serve;
    ghost var m, max := table.cache, table.maxEntries;
    marks := [|table.trail|];
    LosesAtMost(table.disk, table.cache, table.lost);
    FirstMark(table.trail, m, max);
    NothingServed(m, max);
    for i := 0 to |qs|
      invariant table.Valid() && table.lost == {} && Recover(table.disk) == Ok(table.cache)
      invariant table.cache == ServeAll(m, qs[..i], max)
      invariant old(table.trail) <= table.trail
      invariant |marks| == i + 1 && marks[0] == |old(table.trail)| && marks[i] == |table.trail|
      invariant Marked(table.trail, marks, m, qs[..i], max)
    {
      ghost var trail := table.trail;
      ServeOne(table, qs[i]);
      assert qs[..i] + [qs[i]] == qs[..i + 1];
      ServeNext(m, qs[..i], qs[i], max);
      MarkOneMore(trail, table.trail, marks, m, qs[..i], qs[i], max);
      marks := marks + [|table.trail|];
    }
    assert qs[..|qs|] == qs;
  }

  /** The files at mark `i` recover to what the first `i` requests leave. */
  ghost predicate AtMark(trail: seq<Disk>, marks: seq<nat>, m: Cache, qs: seq<Request>, max: nat, i: nat)
    requires i < |marks| && i <= |qs|
  {
    0 < marks[i] <= |trail| && Recover(trail[marks[i] - 1]) == Ok(ServeAll(m, qs[..i], max))
  }

  /** So does every file content between mark `i` and the next, with one request more. */
  ghost predicate InSpan(trail: seq<Disk>, marks: seq<nat>, m: Cache, qs: seq<Request>, max: nat, i: nat)
    requires i + 1 < |marks| && i < |qs|
  {
    && marks[i] <= marks[i + 1] <= |trail|
    && forall j :: marks[i] <= j < marks[i + 1] ==> Recover(trail[j]) == Ok(ServeAll(m, qs[..i + 1], max))
  }

  ghost predicate Marked(trail: seq<Disk>, marks: seq<nat>, m: Cache, qs: seq<Request>, max: nat) {
    && |marks| == |qs| + 1
    && (forall i: nat :: i <= |qs| ==> AtMark(trail, marks, m, qs, max, i))
    && (forall i: nat :: i < |qs| ==> InSpan(trail, marks, m, qs, max, i))
  }

  lemma NothingServed(m: Cache, max: nat)
    ensures ServeAll(m, [], max) == m
  {}

  lemma ServeNext(m: Cache, qs: seq<Request>, q: Request, max: nat)
    ensures ServeAll(m, qs + [q], max) == Serve(ServeAll(m, qs, max), q, max)
  {
    assert (qs + [q])[..|qs|] == qs;
  }

  lemma FirstMark(trail: seq<Disk>, m: Cache, max: nat)
    requires trail != [] && Recover(trail[|trail| - 1]) == Ok(m)
    ensures Marked(trail, [|trail|], m, [], max)
  {}

  lemma MarkKept(earlier: seq<Disk>, trail: seq<Disk>, marks: seq<nat>, more: seq<nat>, m: Cache, qs: seq<Request>,
                 all: seq<Request>, max: nat, i: nat)
    requires earlier <= trail && marks <= more && qs <= all && i < |marks| && i <= |qs|
    ensures AtMark(earlier, marks, m, qs, max, i) ==> AtMark(trail, more, m, all, max, i)
    ensures i + 1 < |marks| && i < |qs| && InSpan(earlier, marks, m, qs, max, i) ==> InSpan(trail, more, m, all, max, i)
  {
    hide Recover, ServeAll;
    assert all[..i] == qs[..i];
    if i < |qs| {
      assert all[..i + 1] == qs[..i + 1];
    }
  }

  lemma MarkOneMore(earlier: seq<Disk>, trail: seq<Disk>, marks: seq<nat>, m: Cache, qs: seq<Request>, q: Request,
                    max: nat)
    requires Marked(earlier, marks, m, qs, max) && marks[|qs|] == |earlier| && earlier <= trail && trail != []
    requires Recover(trail[|trail| - 1]) == Ok(ServeAll(m, qs + [q], max))
    requires forall j :: |earlier| <= j < |trail| ==> Recover(trail[j]) == Ok(ServeAll(m, qs + [q], max))
    ensures Marked(trail, marks + [|trail|], m, qs + [q], max)
  {
    hide Recover, ServeAll;
    var more, all := marks + [|trail|], qs + [q];
    assert all[..|qs| + 1] == all;
    assert AtMark(trail, more, m, all, max, |qs| + 1) && InSpan(trail, more, m, all, max, |qs|);
    hide AtMark, InSpan;
    forall i: nat | i <= |qs| ensures AtMark(trail, more, m, all, max, i) {
      MarkKept(earlier, trail, marks, more, m, qs, all, max, i);
    }
    forall i: nat | i < |qs| ensures InSpan(trail, more, m, all, max, i) {
      MarkKept(earlier, trail, marks, more, m, qs, all, max, i);
    }
  }

  method ServeOne(table: DetsTable, q: Request)
    requires table.Valid() && table.lost == {} && (q.PutRequest? ==> q.value != Null)
    modifies table
    ensures table.Valid() && table.lost == {} && table.cache == Serve(old(table.cache), q, table.maxEntries)
    ensures Recover(table.disk) == Ok(table.cache) && old(table.trail) <= table.trail
    ensures forall j :: |old(table.trail)| <= j < |table.trail| ==> Recover(table.trail[j]) == Ok(table.cache)
  {
    match q {
      case PutRequest(k, v) => var r := table.Put(k, v, table.owner);
      case DeleteRequest(k) => var r := table.DeleteKey(k, table.owner);
      case CompactRequest => table.Compact();
    }
    LosesAtMost(table.disk, table.cache, table.lost);
    forall j | |old(table.trail)| <= j < |table.trail| ensures Recover(table.trail[j]) == Ok(table.cache) {
      assert table.trail[j] in table.trail[|old(table.trail)|..];
      RecoversExactly(table.trail[j], table.cache);
    }
  }
}
