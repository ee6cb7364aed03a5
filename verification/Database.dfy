/** The open database, after class DB in include/lsm/db.h and its methods in src/db.cpp.

    Every method is what one thread does, with background work done inline, and is shown to
    be a sequence of engine steps. What the engine guarantees for all interleavings of such
    steps therefore holds for it. File operations may fail; which ones do is left open. */
module Databases {
  import opened ByteStrings
  import opened InternalKeys
  import opened Views
  import opened MergeSpec
  import opened MergingIterators
  import opened Scans
  import opened Compactions
  import opened Versions
  import opened Trees
  import opened WriteBatches
  import GC = GroupCommit
  import opened MemTables
  import opened Updates
  import opened Disks
  import opened Engine
  import opened EngineInv
  import opened EngineBack
  import opened EngineRecovery
  import opened EngineTheorems
  import opened EngineSnapshots
  import opened Drains
  import opened Replays
  import opened Reachability

  /** What the environment decides: how many bytes a table takes, when an output file has
      reached its target size, and when a memtable is over budget. */
  datatype Sizes = Sizes(bytes: seq<Entry> -> nat, fileFull: seq<Entry> -> bool, memFull: seq<Entry> -> bool)

  ghost predicate SizesOk(z: Sizes) {
    (forall es :: z.bytes(es) > 0) && !z.memFull([])
  }

  /** How a caller wants its write synced. */
  datatype WriteOptions = WriteOptions(sync: bool, useDefaultPolicy: bool)

  /** Whether a group's record is synced before anyone in it returns; `due` says that the
      interval since the last sync is over. */
  predicate ShouldSyncNow(policy: SyncPolicy, wants: bool, due: bool): (r: bool)
    ensures r <==> wants || policy.EveryWrite? || (policy.Interval? && due)
  {
    match policy
    case EveryWrite => true
    case Interval => wants || due
    case Never => wants
  }

  // --------------------------------------------------- choosing what to compact

  /** Round robin over a level: the first file that ends after the last compaction did, and
      the first of all when there is none. */
  ghost predicate IsChoice(files: seq<File>, cursor: Option<Entry>, i: nat) {
    && NoneEmpty(files) && i < |files|
    && (cursor.None? ==> i == 0)
    && (cursor.Some? ==>
        || (Before(cursor.value, Last(files[i].entries)) && forall j :: 0 <= j < i ==>
          !Before(cursor.value, Last(files[j].entries)))
        || (i == 0 && forall j :: 0 <= j < |files| ==> !Before(cursor.value, Last(files[j].entries))))
  }

  method ChooseFile(files: seq<File>, cursor: Option<Entry>) returns (i: nat)
    requires files != [] && NoneEmpty(files)
    ensures IsChoice(files, cursor, i)
  {
    hide Before;
    for k := 0 to |files|
      invariant cursor.None? ==> k == 0
      invariant cursor.Some? ==> forall j :: 0 <= j < k ==> !Before(cursor.value, Last(files[j].entries))
    {
      if cursor.None? || Before(cursor.value, Last(files[k].entries)) { return k; }
    }
    i := 0;
  }

  /** Nothing lives below the output level, so tombstones may go. */
  method IsBottomMost(v: Version, level: nat) returns (bottom: bool)
    requires |v| == NUM_LEVELS && level < NUM_LEVELS - 1
    ensures bottom <==> forall l :: level + 2 <= l < NUM_LEVELS ==> v[l] == []
  {
    for l := level + 2 to NUM_LEVELS
      invariant forall m :: level + 2 <= m < l ==> v[m] == []
    {
      if v[l] != [] { return false; }
    }
    bottom := true;
  }

  lemma LevelOk(v: Version, l: nat)
    requires VersionOk(v) && l < NUM_LEVELS
    ensures AllOk(v[l]) && NoneEmpty(v[l])
  {
  }

  /** The inputs DoCompaction settles on. */
  method PickInputs(v: Version, level: nat, i: nat, floor: nat) returns (job: Compaction)
    requires VersionOk(v) && level < NUM_LEVELS - 1 && i < |v[level]|
    ensures IsCompaction(v, job) && job.level == level && job.floor == floor
    ensures level > 0 ==> job.in0 == [v[level][i]]
  {
    hide IsHull, FileOk, RangesOverlap, Overlapping, LevelZero, LevelSorted, ById;
    LevelOk(v, level);
    LevelOk(v, level + 1);
    var in0 := if level == 0 then v[0] else [v[level][i]];
    var lo, hi := Hull(in0);
    var in1 := SelectOverlapping(v[level + 1], lo, hi);
    var bottom := IsBottomMost(v, level);
    job := Compaction(level, in0, in1, floor, bottom);
    assert PicksBelow(v, job, lo, hi);
  }

  /** One table per piece, each of the size its entries take. */
  ghost predicate WrittenAs(outputs: seq<File>, pieces: seq<seq<Entry>>, z: Sizes) {
    |outputs| == |pieces| && forall i :: 0 <= i < |outputs| ==>
      outputs[i].entries == pieces[i] && outputs[i].size == z.bytes(pieces[i])
  }

  /** The tables of a compaction: each of the size its entries take, and cut where it was full. */
  ghost predicate SizedAndCut(outputs: seq<File>, z: Sizes) {
    exists pieces: seq<seq<Entry>> :: WrittenAs(outputs, pieces, z) && CutWhenFull(pieces, z.fileFull)
  }

  /** One compaction of the level that is due, or nothing if none is. */
  ghost predicate WorkedOn(v: Version, v': Version, cursors: seq<Option<Entry>>, floor: nat, o: Options, z: Sizes) {
    |v| == NUM_LEVELS && exists level: int ::
      IsPick(v, o, level)
        && if level < 0 then v' == v else level < |cursors| && Compacted(v, v', level, floor, cursors[level], z)
  }

  /** The next compaction of the level goes on from the end of the file chosen now. */
  ghost predicate TakesTurn(files: seq<File>, cursor: Option<Entry>, cursor': Option<Entry>) {
    NoneEmpty(files) && exists i: nat :: IsChoice(files, cursor, i) && cursor' == Some(Last(files[i].entries))
  }

  /** What one compaction does to the tree. */
  ghost predicate Compacted(v: Version, v': Version, level: nat, floor: nat, cursor: Option<Entry>, z: Sizes) {
    exists job: Compaction, outputs: seq<File>, i: nat ::
      CompactedBy(v, v', level, floor, cursor, job, outputs, i) && SizedAndCut(outputs, z)
  }

  ghost predicate CompactedBy(v: Version, v': Version, level: nat, floor: nat, cursor: Option<Entry>, job: Compaction,
          outputs: seq<File>, i: nat)
  {
    && Ready(v, job, outputs) && job.level == level && job.floor == floor && v' == After(v, job, outputs)
    && (level > 0 ==> level < |v| && IsChoice(v[level], cursor, i) && job.in0 == [v[level][i]])
  }

  lemma CompactedWork(v: Version, v': Version, level: nat, floor: nat, cursor: Option<Entry>, imm: seq<Entry>,
          z: Sizes)
    requires Compacted(v, v', level, floor, cursor, z)
    ensures |v| == NUM_LEVELS && |v'| == NUM_LEVELS && Work(imm, v') < Work(imm, v)
  {
    hide VersionOk, IsCompaction, IsOutput, SharedLow, After, Work, IsChoice, SizedAndCut;
    var job, outputs, i: nat :| CompactedBy(v, v', level, floor, cursor, job, outputs, i) && SizedAndCut(outputs, z);
    LevelBound(v, job);
    CompactionProgress(imm, v, job, outputs);
  }

  // -------------------------------------------------------------- small facts

  /** What the methods need to know about a good state of the open database. */
  lemma OpenFacts(s: State)
    requires s.mode.Up? && Good(s)
    ensures VersionOk(s.mode.core.v) && |s.mode.core.v| == NUM_LEVELS && Sorted(s.mode.core.mem)
    ensures Sorted(s.mode.core.imm)
    ensures s.mode.core.log in s.disk.logs && GC.Inv(s.mode.core.q)
  {
    hide Ok, VersionOk, Sorted, OrderOk, ViewOk, Held, SeqUnique, GC.Inv, History, LogsClimb;
    CoreParts(s);
    LogPresent(s);
    QueueInv(s);
    ShapeOfVersion(s.mode.core.v);
  }

  /** Once every output is written the compaction can be installed. */
  lemma JobReady(s: State)
    requires s.mode.Up? && Good(s)
    requires s.mode.core.bg.Compacting? && |s.mode.core.bg.outputs| == |s.mode.core.bg.pieces|
    ensures Ready(s.mode.core.v, s.mode.core.bg.job, s.mode.core.bg.outputs)
  {
    hide LogsClimb, GC.Inv, HistoryOk, AppliedOk, LogsMatch, MemOk, ViewOk, NumbersOk, ShapeOk, DiskOk,
      History, Ready, CompactOk, VersionOk, Held, SeqUnique, TreeUp;
    CoreParts(s);
    CompactionReady(s.mode.core, s.disk);
  }

  lemma DeepLevelRun(v: Version, l: nat)
    requires VersionOk(v) && 1 <= l < NUM_LEVELS
    ensures IsRun(EntriesOf(v[l]))
  {
    LevelIsRun(v[l]);
  }

  lemma Rotated(s: State, t: State)
    requires Engine.Rotate(s, t) && Good(s)
    ensures Good(t) && Reaches(s, t)
  {
    hide Good, SoundNext, Reaches, Engine.Rotate;
    ReachSelf(s);
    TookFront(s, s, t, RotateLog);
  }

  lemma NextIsNew(s: State)
    requires s.mode.Up? && Good(s)
    ensures s.mode.core.next !in s.disk.logs
  {
    hide LogsClimb, GC.Inv, HistoryOk, AppliedOk, LogsMatch, MemOk, TreeUp, ViewOk, ShapeOk, WorkerOk, DiskOk, History;
  }

  class Db {
    const options: Options
    const sizes: Sizes

    var q: GC.Queue                     // writers_, last_sequence_, bg_error_ and what has been logged
    var mem: seq<Entry>
    var imm: seq<Entry>
    var immLog: nat
    var log: nat
    var v: Version
    var next: nat
    var snaps: map<nat, nat>
    var cursors: seq<Option<Entry>>    // where the last compaction of each level ended

    var manifest: Manifest              // the directory
    var tables: map<nat, seq<Entry>>
    var logs: map<nat, LogFile>

    ghost var bg: Worker
    ghost var past: seq<seq<Entry>>
    ghost var applied: set<Entry>

    /** The engine state this object is in. */
    ghost function Abs(): State
      reads this
    {
      State(Disk(manifest, tables, logs), past, Up(Core(q, mem, imm, immLog, log, v, next, snaps, bg, applied)))
    }

    ghost predicate Valid()
      reads this
    {
      OptionsOk(options) && SizesOk(sizes) && |cursors| == NUM_LEVELS && Good(Abs()) && q.lastSeq < MAX_SEQUENCE
        && manifest.lastSeq < MAX_SEQUENCE
    }

    /** No background job is under way; after an error none ever is again. */
    ghost predicate Quiet()
      reads this
    {
      bg.AtRest? || (bg.Halted? && q.failed)
    }

    /** A database that has just come up on directory `d`, with `log` as its active log. */
    constructor (options: Options, sizes: Sizes, d: Disk, v: Version, log: nat, next: nat, lastSeq: nat,
            ghost past: seq<seq<Entry>>)
      ensures this.options == options && this.sizes == sizes && |cursors| == NUM_LEVELS
      ensures Abs()
        == State(d, past, Up(Core(GC.Open(lastSeq), [], [], 0, log, v, next, map[], AtRest, GroupsSet(past))))
    {
      this.options, this.sizes := options, sizes;
      q, mem, imm, immLog, this.log := GC.Open(lastSeq), [], [], 0, log;
      this.v, this.next, snaps, bg, applied := v, next, map[], AtRest, GroupsSet(past);
      manifest, tables, logs, this.past := d.manifest, d.tables, d.logs, past;
      cursors := seq(NUM_LEVELS, i => None);
    }

    // --------------------------------------------------------------- reading

    /** Below the result no live reader looks. */
    method SmallestSnapshot() returns (s: nat)
      ensures s == Floor(Abs().mode.core)
    {
      s := q.lastSeq;
      var rest := snaps.Keys;
      while rest != {}
        invariant rest <= snaps.Keys && s <= q.lastSeq
        invariant forall id :: id in snaps && id !in rest ==> s <= snaps[id]
        invariant s == q.lastSeq || exists id :: id in snaps && snaps[id] == s
        decreases |rest|
      {
        var id :| id in rest;
        if snaps[id] < s { s := snaps[id]; }
        rest := rest - {id};
      }
      FloorIs(Abs().mode.core, s);
    }

    /** Reads return the newest applied version, at any sequence no snapshot is below. */
    method Get(key: Bytes, sn: nat) returns (r: Option<Bytes>)
      requires Valid() && Floor(Abs().mode.core) <= sn
      ensures r == View(applied, key, sn)
    {
      hide Ok, LogsClimb, View, IsFirstHit, VersionOk, Sorted, GC.Inv;
      OpenFacts(Abs());
      var e := Versions.Get(mem, imm, v, key, sn);
      ReadIsHistory(Abs(), key, sn, e);
      r := Answer(e);
    }

    /** DB::NewIterator: the memtables, each L0 file and each deeper level under one merge. */
    method NewIterator(sn: nat) returns (it: DBIter)
      requires Valid()
      ensures fresh(it) && fresh(it.inner) && it.sn == sn && it.inner.Positioned()
      ensures |v| == NUM_LEVELS && it.inner.runs == IteratorRuns(Abs().mode.core)
    {
      hide Good, VersionOk, Sorted, GC.Inv, RunsSorted, IsRun;
      OpenFacts(Abs());
      var children := [mem, imm] + EntriesOf(v[0]);
      for l := 1 to NUM_LEVELS
        invariant |children| == 1 + |v[0]| + l && children[..2 + |v[0]|] == [mem, imm] + EntriesOf(v[0])
        invariant forall i :: 1 <= i < l ==> children[1 + |v[0]| + i] == Concat(EntriesOf(v[i]))
      {
        DeepLevelRun(v, l);
        var run := LevelRun(EntriesOf(v[l]));
        children := children + [run];
      }
      assert children == IteratorRuns(Abs().mode.core);
      IteratorRunsAre(Abs().mode.core);
      var merged := new MergingIterator(children);
      it := new DBIter(merged, sn);
    }

    /** A scan, of everything or from a key on, shows exactly what point reads find. */
    method Scan(sn: nat, from: Option<Bytes>) returns (rows: seq<Row>)
      requires Valid() && Floor(Abs().mode.core) <= sn
      ensures RowsAscend(rows)
      ensures forall key, value :: Row(key, value) in rows <==>
        (from.None? || Leq(from.value, key)) && View(applied, key, sn) == Some(value)
    {
      hide Valid, View, RunsSorted, Merge, Collapse, Entries, UnionOf, IteratorRuns, AllLive, HeapFrom, LiveChildren,
        SeekRuns, RowsAscend;
      var it := NewIterator(sn);
      ghost var runs := it.inner.runs;
      ChildrenShow(sn, runs);
      if from.None? {
        it.SeekToFirst();
        ScanIsView(runs, sn);
      } else {
        it.Seek(from.value);
        SeekShows(runs, from.value, sn);
      }
      rows := it.Drain();
    }

    lemma ChildrenShow(sn: nat, runs: seq<seq<Entry>>)
      requires Valid() && Floor(Abs().mode.core) <= sn && |v| == NUM_LEVELS && runs == IteratorRuns(Abs().mode.core)
      ensures RunsSorted(runs) && SeqUnique(UnionOf(runs))
      ensures forall key :: View(UnionOf(runs), key, sn) == View(applied, key, sn)
    {
      hide Ok, LogsClimb, View, VersionOk, Sorted, IteratorRuns, Held, RunsSorted, UnionOf, OrderOk, SeqUnique;
      CoreParts(Abs());
      IteratorRunsAre(Abs().mode.core);
      IteratorUnion(Abs().mode.core);
    }

    /** Pins the current sequence number. */
    method GetSnapshot(id: nat) returns (sn: nat)
      requires Valid() && id !in snaps
      modifies this
      ensures Valid() && TakeSnapshot(old(Abs()), Abs(), id) && sn == q.lastSeq && snaps[id] == sn
    {
      hide Good, SoundNext, Reaches;
      ghost var s0 := Abs();
      sn := q.lastSeq;
      snaps := snaps[id := sn];
      ReachSelf(s0);
      TookFront(s0, s0, Abs(), Take(id));
    }

    method ReleaseSnapshot(id: nat)
      requires Valid()
      modifies this
      ensures Valid() && Engine.ReleaseSnapshot(old(Abs()), Abs(), id) && id !in snaps
    {
      hide Good, SoundNext, Reaches;
      ghost var s0 := Abs();
      snaps := snaps - {id};
      ReachSelf(s0);
      TookFront(s0, s0, Abs(), Release(id));
    }

    // ------------------------------------------------------- background work

    /** A failed file operation stops all background work for good. */
    method Fail()
      requires Valid() && !bg.AtRest?
      modifies this`q, this`bg
      ensures Valid() && WorkerFails(old(Abs()), Abs()) && bg.Halted? && q == old(q).(failed := true)
      ensures Reaches(old(Abs()), Abs())
    {
      hide Good, SoundNext, Reaches;
      ghost var s0 := Abs();
      ReachSelf(s0);
      q := q.(failed := true);
      bg := Halted;
      TookCommit(s0, s0, Abs(), WorkerFailed);
    }

    /** Deletes the tables the installed version does not name. Neither the directory listing
        nor an unlink is checked: those in `stuck` stay, and all do if there is no listing. */
    method RemoveTables(listed: bool, stuck: set<nat>)
      requires Valid() && bg.Committing? && bg.written
      modifies this`tables
      ensures Valid() && Reaches(old(Abs()), Abs())
      ensures forall n :: n in tables <==> n in old(tables) && (!listed || n in stuck || !NotNamed(v, n))
      ensures forall n :: n in tables ==> tables[n] == old(tables)[n]
    {
      hide Good, SoundNext, Reaches, NotNamed, SizesOk;
      ghost var s0 := Abs();
      ReachSelf(s0);
      if !listed { return; }
      var live := set l, f | 0 <= l < |v| && f in v[l] :: f.number;
      forall n ensures n !in live <==> NotNamed(v, n) { NotLive(v, live, n); }
      var rest := tables.Keys;
      while rest != {}
        invariant Good(Abs()) && Reaches(s0, Abs()) && rest <= old(tables).Keys
        invariant forall n :: n in tables <==> n in old(tables) && (n in rest || n in stuck || n in live)
        invariant forall n :: n in tables ==> tables[n] == old(tables)[n]
        decreases |rest|
      {
        var n :| n in rest;
        if n !in live && n !in stuck {
          ghost var s1 := Abs();
          tables := tables - {n};
          TookCommit(s0, s1, Abs(), TableDropped(n));
        }
        rest := rest - {n};
      }
    }

    /** Deletes the logs older than the oldest one still needed, in any order; again some may
        stay. */
    method RemoveLogs(keep: nat, listed: bool, stuck: set<nat>)
      requires Valid() && bg.Committing? && bg.written && bg.log == keep
      modifies this`logs
      ensures Valid() && Reaches(old(Abs()), Abs())
      ensures forall n :: n in logs <==> n in old(logs) && (!listed || n in stuck || n >= keep)
      ensures forall n :: n in logs ==> logs[n] == old(logs)[n]
    {
      hide Good, SoundNext, Reaches, SizesOk;
      ghost var s0 := Abs();
      ReachSelf(s0);
      if !listed { return; }
      var rest := logs.Keys;
      while rest != {}
        invariant Good(Abs()) && Reaches(s0, Abs()) && rest <= old(logs).Keys
        invariant forall n :: n in logs <==> n in old(logs) && (n in rest || n in stuck || n >= keep)
        invariant forall n :: n in logs ==> logs[n] == old(logs)[n]
        decreases |rest|
      {
        var n: nat :| n in rest;
        if n < keep && n !in stuck {
          ghost var s1 := Abs();
          logs := logs - {n};
          TookCommit(s0, s1, Abs(), LogDropped(n));
        }
        rest := rest - {n};
      }
    }

    /** Makes the version already installed durable; the rename of the manifest commits. Here
        and below `healthy` says that no file operation fails. */
    method CommitVersion(healthy: bool) returns (ok: bool)
      requires Valid() && bg.Committing? && !bg.written && bg.next == next && bg.lastSeq == q.lastSeq
      requires bg.log == OldestLiveLog(Abs().mode.core)
      modifies this`q, this`bg, this`manifest, this`tables, this`logs
      ensures Valid() && Quiet() && Reaches(old(Abs()), Abs())
      ensures ok ==> q == old(q) && bg.AtRest? && manifest == Manifest(v, old(bg).log, next, q.lastSeq)
      ensures !ok ==> q == old(q).(failed := true)
      ensures healthy ==> ok && forall n :: n in logs ==> n >= manifest.log
      ensures healthy ==> forall n :: n in tables ==> !NotNamed(v, n)
    {
      hide Good, SoundNext, Reaches, DeadTable, SizesOk, NotNamed;
      ghost var s0 := Abs();
      ReachSelf(s0);
      var keep := if imm != [] then immLog else log;
      var written: bool := *;
      if !healthy && !written {
        Fail();
        return false;
      }
      manifest := Manifest(v, keep, next, q.lastSeq);
      bg := bg.(written := true);
      TookCommit(s0, s0, Abs(), ManifestWritten);
      ghost var s1 := Abs();
      var listed: bool, stuck: set<nat> := *, *;
      if healthy { listed, stuck := true, {}; }
      RemoveLogs(keep, listed, stuck);
      ReachTrans(s0, s1, Abs());
      ghost var s2 := Abs();
      RemoveTables(listed, stuck);
      ReachTrans(s0, s2, Abs());
      s2 := Abs();
      bg := AtRest;
      TookCommit(s0, s2, Abs(), CommitFinished);
      ok := true;
    }

    /** Puts the flushed table in front of L0 and commits. */
    method InstallFlush(f: File, healthy: bool) returns (ok: bool)
      requires Valid() && bg.Flushing? && bg.built == Some(f) && |v| == NUM_LEVELS && !q.failed
      modifies this`q, this`imm, this`immLog, this`v, this`bg, this`manifest, this`tables, this`logs
      ensures Valid() && Quiet() && Reaches(old(Abs()), Abs())
      ensures q == old(q).(failed := !ok) && imm == [] && v == AddNewest(old(v), f) && (healthy ==> ok)
    {
      hide Good, SoundNext, Reaches, SizesOk, AddNewest;
      ghost var s0 := Abs();
      ReachSelf(s0);
      v, imm, immLog := AddNewest(v, f), [], 0;
      bg := Committing(log, next, q.lastSeq, false);
      TookFlush(s0, s0, Abs(), FlushInstalled);
      ghost var s1 := Abs();
      ok := CommitVersion(healthy);
      ReachTrans(s0, s1, Abs());
    }

    /** Writes the immutable memtable, collapsed, to a table of its own. */
    method BuildTable(healthy: bool) returns (built: Option<File>)
      requires Valid() && bg.AtRest? && !q.failed && imm != []
      modifies this`q, this`next, this`bg, this`tables
      ensures Valid() && Reaches(old(Abs()), Abs())
      ensures built.None? ==> Quiet() && q == old(q).(failed := true) && !healthy
      ensures built.Some? ==> q == old(q) && bg.Flushing? && bg.built == built
      ensures built.Some? ==> built.value.entries == AllSurvivors(imm, old(Floor(Abs().mode.core)), false)
      ensures built.Some? ==> built.value.size == sizes.bytes(built.value.entries)
    {
      hide Good, SoundNext, Reaches, Floor, AllSurvivors, SizesOk;
      ghost var s0 := Abs();
      ReachSelf(s0);
      var number := next;
      var floor := SmallestSnapshot();
      FloorBound(s0.mode.core);
      next := next + 1;
      bg := Flushing(number, floor, None);
      TookFlush(s0, s0, Abs(), FlushStarts);
      var es, dropped := CollapseMemTable(imm, floor);
      ghost var s1 := Abs();
      var fails: bool := *;
      if !healthy && fails {
        Fail();
        ReachTrans(s0, s1, Abs());
        return None;
      }
      BytesPositive(sizes, es);
      var f := File(number, sizes.bytes(es), es);
      tables := tables[number := es];
      bg := Flushing(number, floor, Some(f));
      TookFlush(s0, s1, Abs(), FlushBuilt(f.size));
      built := Some(f);
    }

    method FlushImmutableMemTable(healthy: bool) returns (ok: bool)
      requires Valid() && Quiet() && !q.failed
      modifies this`q, this`imm, this`immLog, this`v, this`next, this`bg, this`manifest, this`tables, this`logs
      ensures Valid() && Quiet() && Reaches(old(Abs()), Abs())
      ensures q == old(q).(failed := !ok) && (healthy ==> ok)
      ensures ok ==> imm == []
      ensures ok && old(imm) == [] ==> Abs() == old(Abs())
      ensures ok && old(imm) != [] ==> FlushedInto(old(imm), old(v), v, old(Floor(Abs().mode.core)), sizes)
    {
      hide Good, SoundNext, Reaches, Floor, AllSurvivors, AddNewest, VersionOk, Sorted, GC.Inv, SizesOk;
      ghost var s0 := Abs();
      ReachSelf(s0);
      OpenFacts(s0);
      if imm == [] { return true; }
      var built := BuildTable(healthy);
      if built.None? { return false; }
      ghost var s1 := Abs();
      ok := InstallFlush(built.value, healthy);
      ReachTrans(s0, s1, Abs());
    }

    /** Writes the merged inputs to fresh tables, one per piece. */
    method WriteTables(job: Compaction, pieces: seq<seq<Entry>>, healthy: bool) returns (ok: bool, outputs: seq<File>)
      requires Valid() && bg == Compacting(job, pieces, [])
      modifies this`q, this`next, this`bg, this`tables
      ensures Valid() && Reaches(old(Abs()), Abs())
      ensures ok ==> q == old(q) && bg == Compacting(job, pieces, outputs) && WrittenAs(outputs, pieces, sizes)
      ensures !ok ==> Quiet() && q == old(q).(failed := true) && !healthy
    {
      hide Good, SoundNext, Reaches, SizesOk;
      ghost var s0 := Abs();
      ReachSelf(s0);
      outputs := [];
      while |outputs| < |pieces|
        invariant Valid() && Reaches(s0, Abs()) && bg == Compacting(job, pieces, outputs) && q == old(q)
        invariant |outputs| <= |pieces| && WrittenAs(outputs, pieces[..|outputs|], sizes)
        decreases |pieces| - |outputs|
      {
        ghost var s1 := Abs();
        var fails: bool := *;
        if !healthy && fails {
          Fail();
          ReachTrans(s0, s1, Abs());
          return false, outputs;
        }
        var es := pieces[|outputs|];
        BytesPositive(sizes, es);
        var f := File(next, sizes.bytes(es), es);
        next := next + 1;
        tables := tables[f.number := es];
        outputs := outputs + [f];
        bg := Compacting(job, pieces, outputs);
        TookCompact(s0, s1, Abs(), TableEmitted(f.size));
      }
      ok := true;
    }

    /** Replaces the inputs by the outputs, one level down, and commits. */
    method InstallCompaction(job: Compaction, outputs: seq<File>, healthy: bool) returns (ok: bool)
      requires Valid() && bg.Compacting? && bg.job == job && bg.outputs == outputs && |outputs| == |bg.pieces|
      requires !q.failed
      modifies this`q, this`v, this`bg, this`manifest, this`tables, this`logs
      ensures Valid() && Quiet() && Reaches(old(Abs()), Abs())
      ensures q == old(q).(failed := !ok) && (healthy ==> ok)
      ensures Ready(old(v), job, outputs) && v == After(old(v), job, outputs)
    {
      hide Good, SoundNext, Reaches, SizesOk, Install, After, Ready, NoneEmpty, Removed;
      ghost var s0 := Abs();
      ReachSelf(s0);
      JobReady(s0);
      AfterIs(v, job, outputs);
      var removed := set f | f in job.in0 + job.in1 :: f.number;
      RemovedIs(job, removed);
      v := Install(v, job.level, removed, outputs);
      bg := Committing(if imm != [] then immLog else log, next, q.lastSeq, false);
      TookCompact(s0, s0, Abs(), CompactionInstalled);
      ghost var s1 := Abs();
      ok := CommitVersion(healthy);
      ReachTrans(s0, s1, Abs());
    }

    /** Runs one compaction from its inputs to the committed version. */
    method RunCompaction(job: Compaction, healthy: bool) returns (ok: bool, outputs: seq<File>)
      requires Valid() && bg.AtRest? && !q.failed && imm == [] && VersionOk(v)
      requires IsCompaction(v, job) && job.floor == Floor(Abs().mode.core)
      modifies this`q, this`v, this`next, this`bg, this`manifest, this`tables, this`logs
      ensures Valid() && Quiet() && Reaches(old(Abs()), Abs()) && q == old(q).(failed := !ok) && (healthy ==> ok)
      ensures ok ==> Ready(old(v), job, outputs) && v == After(old(v), job, outputs) && SizedAndCut(outputs, sizes)
    {
      hide Good, SoundNext, Reaches, SizesOk, Floor, VersionOk, IsCompaction, Output, IsCut, Ready, After, CutWhenFull;
      ghost var s0 := Abs();
      ReachSelf(s0);
      FloorBound(s0.mode.core);
      var pieces := MergeInputs(v, job, sizes.fileFull);
      bg := Compacting(job, pieces, []);
      TookCompact(s0, s0, Abs(), CompactionStarts(job, pieces));
      ghost var s1 := Abs();
      ok, outputs := WriteTables(job, pieces, healthy);
      ReachTrans(s0, s1, Abs());
      if !ok { return; }
      s1 := Abs();
      ok := InstallCompaction(job, outputs, healthy);
      ReachTrans(s0, s1, Abs());
    }

    /** Which file of the level goes first, and where the next round starts. */
    method ChooseInput(level: nat) returns (i: nat)
      requires |cursors| == NUM_LEVELS && level < NUM_LEVELS - 1 && |v| == NUM_LEVELS && v[level] != []
      requires NoneEmpty(v[level])
      modifies this`cursors
      ensures i < |v[level]| && |cursors| == NUM_LEVELS
      ensures level == 0 ==> cursors == old(cursors)
      ensures level > 0 ==> IsChoice(v[level], old(cursors)[level], i)
      ensures level > 0 ==> cursors == old(cursors)[level := Some(Last(v[level][i].entries))]
    {
      i := 0;
      if level > 0 {
        i := ChooseFile(v[level], cursors[level]);
        cursors := cursors[level := Some(Last(v[level][i].entries))];
      }
    }

    /** Merges one level's files into the next. */
    method DoCompaction(level: nat, healthy: bool) returns (ok: bool)
      requires Valid() && Quiet() && !q.failed && imm == [] && level < NUM_LEVELS - 1
      modifies this`q, this`v, this`next, this`bg, this`manifest, this`tables, this`logs, this`cursors
      ensures Valid() && Quiet() && Reaches(old(Abs()), Abs()) && q == old(q).(failed := !ok) && (healthy ==> ok)
      ensures level < |old(v)| && level < |old(cursors)|
      ensures level == 0 || old(v)[level] == [] ==> cursors == old(cursors)
      ensures level > 0 && old(v)[level] != [] ==>
        |cursors| == NUM_LEVELS && cursors == old(cursors)[level := cursors[level]]
          && TakesTurn(old(v)[level], old(cursors)[level], cursors[level])
      ensures ok && old(v)[level] == [] ==> Abs() == old(Abs())
      ensures ok && old(v)[level] != [] ==>
        Compacted(old(v), v, level, old(Floor(Abs().mode.core)), old(cursors)[level], sizes)
    {
      hide Good, SoundNext, Reaches, SizesOk, Floor, VersionOk, Sorted, GC.Inv, IsCompaction, IsChoice, Ready, After,
        NoneEmpty, AllOk, SizedAndCut;
      ghost var s0, cursor := Abs(), cursors[level];
      ReachSelf(s0);
      OpenFacts(s0);
      if v[level] == [] { return true; }
      LevelOk(v, level);
      var i := ChooseInput(level);
      var floor := SmallestSnapshot();
      var job := PickInputs(v, level, i, floor);
      var outputs;
      ok, outputs := RunCompaction(job, healthy);
      if ok { assert CompactedBy(s0.mode.core.v, v, level, floor, cursor, job, outputs, i); }
    }

    method HasPendingWork() returns (pending: bool)
      requires |v| == NUM_LEVELS
      ensures pending <==> imm != [] || !IsPick(v, options, -1)
    {
      hide Score;
      var level := PickCompactionLevel(v, options);
      pending := imm != [] || level >= 0;
    }

    /** One flush or one compaction, whichever is due. */
    method BackgroundWorkOnce(healthy: bool) returns (ok: bool)
      requires Valid() && Quiet() && !q.failed && |v| == NUM_LEVELS
      modifies this`q, this`imm, this`immLog, this`v, this`next, this`bg, this`manifest, this`tables, this`logs
      modifies this`cursors
      ensures Valid() && Quiet() && Reaches(old(Abs()), Abs()) && q == old(q).(failed := !ok) && |v| == NUM_LEVELS
      ensures healthy ==> ok
      ensures ok && (old(imm) != [] || !IsPick(old(v), options, -1)) ==> Work(imm, v) < old(Work(imm, v))
      ensures ok && old(imm) != [] ==>
        imm == [] && cursors == old(cursors) && FlushedInto(old(imm), old(v), v, old(Floor(Abs().mode.core)), sizes)
      ensures ok && old(imm) == [] ==>
        imm == [] && WorkedOn(old(v), v, old(cursors), old(Floor(Abs().mode.core)), options, sizes)
    {
      hide Good, SoundNext, Reaches, SizesOk, Floor, VersionOk, Sorted, GC.Inv, Work, Compacted, IsPick, AllSurvivors,
        AddNewest;
      ghost var s0 := Abs();
      ReachSelf(s0);
      if imm != [] {
        ok := FlushImmutableMemTable(healthy);
        OpenFacts(Abs());
        if ok { FlushedWork(s0.mode.core.imm, s0.mode.core.v, v, Floor(s0.mode.core), sizes); }
        return;
      }
      var level := PickCompactionLevel(v, options);
      PickNegative(v, options, level);
      if level < 0 { return true; }
      PickHasFiles(v, options, level);
      ghost var cursor := cursors[level];
      ok := DoCompaction(level, healthy);
      OpenFacts(Abs());
      if ok { CompactedWork(s0.mode.core.v, v, level, Floor(s0.mode.core), cursor, imm, sizes); }
    }

    /** Flushes and compacts until the tree is within its budgets; always ends. */
    method DrainBackgroundWork(healthy: bool) returns (ok: bool)
      requires Valid() && Quiet() && |v| == NUM_LEVELS
      modifies this`q, this`imm, this`immLog, this`v, this`next, this`bg, this`manifest, this`tables, this`logs
      modifies this`cursors
      ensures Valid() && Quiet() && Reaches(old(Abs()), Abs()) && |v| == NUM_LEVELS
      ensures q == old(q).(failed := !ok) && (healthy && !old(q).failed ==> ok)
      ensures ok ==> imm == [] && IsPick(v, options, -1)
    {
      hide Good, SoundNext, Reaches, SizesOk, Work, IsPick;
      ghost var s0 := Abs();
      ReachSelf(s0);
      if q.failed { return false; }
      var pending := HasPendingWork();
      while pending
        invariant Valid() && Quiet() && Reaches(s0, Abs()) && |v| == NUM_LEVELS && q == old(q) && !q.failed
        invariant pending <==> imm != [] || !IsPick(v, options, -1)
        decreases Work(imm, v), pending
      {
        ghost var s1 := Abs();
        ok := BackgroundWorkOnce(healthy);
        ReachTrans(s0, s1, Abs());
        if !ok { return; }
        pending := HasPendingWork();
      }
      ok := true;
    }

    /** The full memtable becomes immutable and a fresh log takes over. */
    method Rotate()
      requires Valid() && q.phase.Idle? && !q.failed && mem != [] && imm == []
      modifies this`mem, this`imm, this`immLog, this`log, this`next, this`logs
      ensures Valid() && Engine.Rotate(old(Abs()), Abs()) && Reaches(old(Abs()), Abs())
      ensures mem == [] && imm == old(mem)
    {
      hide Good, SoundNext, Reaches, SizesOk, OptionsOk, WithLog;
      ghost var s0 := Abs();
      logs := WithLog(logs, next);
      immLog, log, next := log, next, next + 1;
      imm, mem := mem, [];
      ghost var s1 := Abs();
      assert Engine.Rotate(s0, s1);
      hide Engine.Rotate;
      Rotated(s0, s1);
    }

    /** Rotates, unless the new log cannot be created whole; then a stray one may be left. */
    method TryRotate(healthy: bool) returns (ok: bool)
      requires Valid() && q.phase.Idle? && !q.failed && mem != [] && imm == []
      modifies this`mem, this`imm, this`immLog, this`log, this`next, this`logs
      ensures Valid() && Reaches(old(Abs()), Abs())
      ensures healthy ==> ok
      ensures ok ==> mem == [] && imm == old(mem) && Engine.Rotate(old(Abs()), Abs())
      ensures !ok ==> mem == old(mem) && imm == [] && log == old(log)
      ensures !ok ==> logs == old(logs) || exists torn :: logs == old(logs)[old(next) := LogFile([], torn)]
    {
      hide Good, SoundNext, Reaches, SizesOk, OptionsOk, Engine.Rotate;
      ghost var s0 := Abs();
      ok := *;
      if healthy || ok {
        ok := true;
        Rotate();
      } else {
        ReachSelf(s0);
        var stray: bool, torn: bool := *, *;
        if stray {
          NextIsNew(s0);
          logs := logs[next := LogFile([], torn)];
          next := next + 1;
          TookFront(s0, s0, Abs(), StrayRotation(torn));
        } else {
          next := next + 1;
          TookCommit(s0, s0, Abs(), NumberSkipped);
        }
      }
    }

    /** Makes sure the memtable can take another group, flushing what is in the way. */
    method MakeRoomForWrite(healthy: bool) returns (ok: bool)
      requires Valid() && Quiet() && q.phase.Idle? && |v| == NUM_LEVELS
      modifies this`q, this`mem, this`imm, this`immLog, this`log, this`v, this`next, this`bg, this`manifest, this`tables
      modifies this`logs, this`cursors
      ensures Valid() && Quiet() && Reaches(old(Abs()), Abs()) && |v| == NUM_LEVELS
      ensures q == old(q) || (!ok && q == old(q).(failed := true))
      ensures ok ==> !q.failed && !sizes.memFull(mem)
      ensures healthy && !old(q).failed ==> ok
      ensures !old(q).failed && !sizes.memFull(old(mem)) ==> ok && Abs() == old(Abs())
      ensures ok && sizes.memFull(old(mem)) ==> mem == [] && imm == old(mem)
    {
      hide Good, SoundNext, Reaches, IsPick, OptionsOk;
      ghost var s0 := Abs();
      ReachSelf(s0);
      ok := !q.failed;
      while ok && sizes.memFull(mem)
        invariant Valid() && Quiet() && Reaches(s0, Abs()) && |v| == NUM_LEVELS
        invariant q == old(q) || (!ok && q == old(q).(failed := true))
        invariant (ok ==> !q.failed) && (healthy && !old(q).failed ==> ok)
        invariant !sizes.memFull(old(mem)) ==> ok == !old(q).failed && Abs() == s0
        invariant mem == old(mem) || (mem == [] && imm == old(mem))
        decreases ok, sizes.memFull(mem), imm != []
      {
        ghost var s1 := Abs();
        if imm != [] {
          ok := DrainBackgroundWork(healthy);
        } else {
          ok := TryRotate(healthy);
        }
        ReachTrans(s0, s1, Abs());
      }
    }

    /** DB::FlushMemTable with no leader in flight: afterwards everything is in tables and
        the tree is within its budgets. */
    method FlushMemTable(healthy: bool) returns (ok: bool)
      requires Valid() && Quiet() && q.phase.Idle? && |v| == NUM_LEVELS
      modifies this`q, this`mem, this`imm, this`immLog, this`log, this`v, this`next, this`bg, this`manifest, this`tables
      modifies this`logs, this`cursors
      ensures Valid() && Quiet() && Reaches(old(Abs()), Abs()) && |v| == NUM_LEVELS
      ensures q == old(q) || (!ok && q == old(q).(failed := true))
      ensures healthy && !old(q).failed ==> ok
      ensures ok ==> mem == [] && imm == [] && (old(mem) != [] ==> IsPick(v, options, -1))
    {
      hide Good, SoundNext, Reaches, IsPick, SizesOk;
      ghost var s0 := Abs();
      ReachSelf(s0);
      ok := !q.failed;
      if ok && imm != [] { ok := DrainBackgroundWork(healthy); }
      if !ok || mem == [] { return; }
      ghost var s1 := Abs();
      ok := TryRotate(healthy);
      ReachTrans(s0, s1, Abs());
      if !ok { return; }
      s1 := Abs();
      ok := DrainBackgroundWork(healthy);
      ReachTrans(s0, s1, Abs());
    }

    // ------------------------------------------------------------- write path

    /** A queue step that touches neither disk nor memtable. */
    method MoveQueue(q': GC.Queue)
      requires Valid() && QuietQueueStep(q, q') && q'.lastSeq < MAX_SEQUENCE
      modifies this`q
      ensures Valid() && Reaches(old(Abs()), Abs()) && q == q'
    {
      hide Good, SoundNext, Reaches, SizesOk, QuietQueueStep;
      ghost var s0 := Abs();
      ReachSelf(s0);
      q := q';
      TookFront(s0, s0, Abs(), FrontStep.MoveQueue(q));
    }

    /** Appends the group's record to the log; a failed append may leave a torn tail. */
    method AppendRecord(n: nat, base: nat, sync: bool, merged: seq<Op>, healthy: bool) returns (ok: bool)
      requires Valid() && q.phase == GC.Reserved(n, base, sync) && n <= |q.queue| && merged == GC.AllOps(q.queue[..n])
      requires log in logs
      modifies this`q, this`logs
      ensures Valid() && Reaches(old(Abs()), Abs())
      ensures ok ==> GC.Append(old(q), q)
      ensures ok ==> logs == old(logs)[log := LogFile(old(logs)[log].groups + [Number(base, merged)], false)]
      ensures !ok ==> GC.AppendFails(old(q), q) && !healthy
      ensures !ok ==> logs == old(logs) || logs == old(logs)[log := old(logs)[log].(torn := true)]
    {
      hide Good, SoundNext, Reaches, SizesOk, GC.AllOps, Number;
      ghost var s0 := Abs();
      ReachSelf(s0);
      ok := *;
      if healthy || ok {
        ok := true;
        q := q.(records := q.records + [GC.Record(base, q.queue[..n], false)], phase := GC.Logged(n, sync));
        logs := logs[log := LogFile(logs[log].groups + [Number(base, merged)], false)];
        TookFront(s0, s0, Abs(), Log(q));
      } else {
        var some: bool := *;
        if some {
          logs := logs[log := logs[log].(torn := true)];
          TookFront(s0, s0, Abs(), Tear);
        }
        ghost var s1 := Abs();
        MoveQueue(q.(phase := GC.Finished(n, GC.Error, false), broken := true));
        ReachTrans(s0, s1, Abs());
      }
    }

    /** Syncs the log if the group asks for it. */
    method SyncRecord(n: nat, sync: bool, healthy: bool) returns (ok: bool)
      requires Valid() && q.phase == GC.Logged(n, sync) && q.records != []
      modifies this`q
      ensures Valid() && Reaches(old(Abs()), Abs())
      ensures if ok then GC.Sync(old(q), q) else sync && !healthy && GC.SyncFails(old(q), q)
    {
      hide Good, SoundNext, Reaches, SizesOk;
      var fails: bool := *;
      if sync && !healthy && fails {
        MoveQueue(q.(phase := GC.Finished(n, GC.Error, true), broken := true));
        return false;
      }
      MoveQueue(q.(phase := GC.Applying(n, 0), records := if sync then GC.MarkSynced(q.records) else q.records));
      ok := true;
    }

    /** Inserts one logged operation into the memtable. */
    method ApplyNext(n: nat, i: nat, es: seq<Entry>)
      requires Valid() && q.phase == GC.Applying(n, i) && q.records != [] && es == RecordEntries(LastRecord(q))
      requires i < |es|
      modifies this`q, this`mem, this`applied
      ensures Valid() && Reaches(old(Abs()), Abs())
      ensures q == old(q).(phase := GC.Applying(n, i + 1)) && mem == Add(old(mem), es[i])
      ensures applied == old(applied) + {es[i]}
    {
      hide Good, SoundNext, Reaches, SizesOk, RecordEntries, Add;
      ghost var s0 := Abs();
      ReachSelf(s0);
      mem := Add(mem, es[i]);
      applied := applied + {es[i]};
      q := q.(phase := GC.Applying(n, i + 1));
      TookFront(s0, s0, Abs(), ApplyOp(q));
    }

    /** Inserts the logged operations into the memtable, one by one. */
    method ApplyGroup(n: nat, es: seq<Entry>)
      requires Valid() && q.phase == GC.Applying(n, 0) && q.records != [] && es == RecordEntries(LastRecord(q))
      modifies this`q, this`mem, this`applied
      ensures Valid() && Reaches(old(Abs()), Abs())
      ensures q == old(q).(phase := GC.Finished(n, GC.Ok, true)) && applied == old(applied) + SetOf(es)
    {
      hide Valid, SoundNext, Reaches, RecordEntries, Add, SetOf;
      ghost var s0 := Abs();
      ReachSelf(s0);
      assert SetOf(es[..0]) == {} by { SetOfNothing(es); }
      for i := 0 to |es|
        invariant Valid() && Reaches(s0, Abs())
        invariant q == old(q).(phase := GC.Applying(n, i)) && applied == old(applied) + SetOf(es[..i])
      {
        ghost var s1 := Abs();
        ApplyNext(n, i, es);
        ReachTrans(s0, s1, Abs());
        SetOfNext(es, i);
      }
      assert es[..|es|] == es;
      ghost var s2 := Abs();
      SequenceBound();
      MoveQueue(q.(phase := GC.Finished(n, GC.Ok, true)));
      ReachTrans(s0, s2, Abs());
    }

    lemma SequenceBound()
      requires Valid()
      ensures q.lastSeq < MAX_SEQUENCE
    {
    }

    /** Everyone the group covered returns with its status. */
    method RetireGroup()
      requires Valid() && q.phase.Finished? && q.phase.n <= |q.queue| && (q.phase.logged ==> q.records != [])
      modifies this`q
      ensures Valid() && Reaches(old(Abs()), Abs()) && GC.Retire(old(q), q)
    {
      hide Good, SoundNext, Reaches, SizesOk;
      var record := if q.phase.logged then Some(|q.records| - 1) else None;
      MoveQueue(q.(served := q.served + GC.Outcomes(q.queue[..q.phase.n], q.phase.status, record),
                   queue := q.queue[q.phase.n..], phase := GC.Idle, failed := q.failed || q.phase.status.Error?));
    }

    /** The leader is turned away. */
    method RejectLeader()
      requires Valid() && q.phase.Idle? && q.queue != []
      modifies this`q
      ensures Valid() && Reaches(old(Abs()), Abs()) && GC.Reject(old(q), q)
    {
      hide Good, SoundNext, Reaches, SizesOk;
      MoveQueue(q.(served := q.served + [GC.Outcome(q.queue[0], GC.Error, None)], queue := q.queue[1..]));
    }

    /** What the queue looks like once the first `n` writers have returned. If all went well
        their batches are in the last record, which has been synced or not. */
    static ghost predicate Served(q: GC.Queue, q': GC.Queue, n: nat, status: GC.Status, synced: bool) {
      && 1 <= n <= |q.queue| && q'.phase.Idle? && q'.arrived == q.arrived && q.records <= q'.records
      && (status.Ok? ==> |q'.records| == |q.records| + 1 && LastRecord(q').writers == q.queue[..n])
      && (status.Ok? ==> LastRecord(q').synced == synced)
      && exists record ::
        && q'.queue == q.queue[n..] && q'.served == q.served + GC.Outcomes(q.queue[..n], status, record)
        && (status.Ok? ==> record == Some(|q'.records| - 1))
    }

    static ghost predicate SameCallers(q: GC.Queue, q': GC.Queue) {
      q'.queue == q.queue && q'.served == q.served && q'.arrived == q.arrived && q'.lastSeq == q.lastSeq
        && q'.failed == q.failed
    }

    /** Takes sequence numbers for the group the leader forms. */
    method ReserveGroup(due: bool) returns (n: nat, sync: bool, merged: seq<Op>)
      requires Valid() && q.phase.Idle? && !q.failed && q.queue != []
      requires forall n :: 0 <= n <= |q.queue| ==> q.lastSeq + |GC.AllOps(q.queue[..n])| < MAX_SEQUENCE
      modifies this`q
      ensures Valid() && Reaches(old(Abs()), Abs()) && GC.Reserve(old(q), q, n, sync)
      ensures 1 <= n <= |old(q).queue| && merged == GC.AllOps(old(q).queue[..n])
      ensures sync == ShouldSyncNow(options.policy, old(q).queue[0].sync, due)
    {
      hide Valid, SoundNext, Reaches, GC.AllOps, GC.IsGroup;
      n, merged := GC.BuildBatchGroup(q.queue);
      GroupSize(q.queue, n);
      sync := ShouldSyncNow(options.policy, q.queue[0].sync, due);
      ghost var q0 := q;
      var q' := q.(phase := GC.Reserved(n, q.lastSeq + 1, sync), lastSeq := q.lastSeq + |merged|);
      assert GC.Reserve(q, q', n, sync);
      MoveQueue(q');
    }

    /** Makes the reserved group durable. */
    method LogReserved(n: nat, base: nat, sync: bool, merged: seq<Op>, healthy: bool) returns (ok: bool)
      requires Valid() && q.phase == GC.Reserved(n, base, sync) && n <= |q.queue| && merged == GC.AllOps(q.queue[..n])
      requires log in logs
      modifies this`q, this`logs
      ensures Valid() && Reaches(old(Abs()), Abs()) && SameCallers(old(q), q)
      ensures old(q).records <= q.records && (healthy ==> ok)
      ensures ok ==> q.phase == GC.Applying(n, 0) && |q.records| == |old(q).records| + 1
      ensures ok ==> LastRecord(q).writers == old(q).queue[..n] && LastRecord(q).synced == sync
      ensures ok ==> RecordEntries(LastRecord(q)) == Number(base, merged)
      ensures !ok ==> q.phase.Finished? && q.phase.n == n && q.phase.status.Error?
      ensures !ok ==> (q.phase.logged ==> q.records != [])
    {
      hide Valid, SoundNext, Reaches, GC.AllOps, Number;
      ghost var s0 := Abs();
      ok := AppendRecord(n, base, sync, merged, healthy);
      if ok {
        ghost var s1 := Abs();
        ok := SyncRecord(n, sync, healthy);
        ReachTrans(s0, s1, Abs());
      }
    }

    /** The group commit of one leader, once there is room. */
    method CommitGroup(due: bool, healthy: bool) returns (ok: bool, n: nat)
      requires Valid() && q.phase.Idle? && !q.failed && q.queue != [] && log in logs
      requires forall n :: 0 <= n <= |q.queue| ==> q.lastSeq + |GC.AllOps(q.queue[..n])| < MAX_SEQUENCE
      modifies this`q, this`mem, this`applied, this`logs
      ensures Valid() && Reaches(old(Abs()), Abs()) && GC.IsGroup(old(q).queue, n)
      ensures Served(old(q), q, n, if ok then GC.Ok else GC.Error,
                     ShouldSyncNow(options.policy, old(q).queue[0].sync, due))
      ensures q.failed == !ok && (healthy ==> ok)
      ensures q.lastSeq == old(q).lastSeq + |GC.AllOps(old(q).queue[..n])|
      ensures applied == old(applied) + if ok then SetOf(Number(old(q).lastSeq + 1, GC.AllOps(old(q).queue[..n])))
        else {}
    {
      hide Valid, SoundNext, Reaches, GC.AllOps, Number, GC.IsGroup, SetOf, GC.Outcomes, RecordEntries;
      ghost var s0 := Abs();
      var base := q.lastSeq + 1;
      var sync, merged;
      n, sync, merged := ReserveGroup(due);
      ghost var s1 := Abs();
      ok := LogReserved(n, base, sync, merged, healthy);
      ReachTrans(s0, s1, Abs());
      s1 := Abs();
      if ok { ApplyGroup(n, Number(base, merged)); } else { ReachSelf(s1); }
      ReachTrans(s0, s1, Abs());
      s1 := Abs();
      RetireGroup();
      ReachTrans(s0, s1, Abs());
    }

    /** DB::Write as its leader runs it: make room, then commit everyone it may cover. */
    method LeadGroup(due: bool, healthy: bool) returns (ok: bool, n: nat)
      requires Valid() && Quiet() && q.phase.Idle? && q.queue != []
      requires forall n :: 0 <= n <= |q.queue| ==> q.lastSeq + |GC.AllOps(q.queue[..n])| < MAX_SEQUENCE
      modifies this
      ensures Valid() && Quiet() && Reaches(old(Abs()), Abs()) && snaps == old(snaps)
      ensures Served(old(q), q, n, if ok then GC.Ok else GC.Error,
                     ShouldSyncNow(options.policy, old(q).queue[0].sync, due))
      ensures (ok ==> !q.failed) && (healthy && !old(q).failed ==> ok)
      ensures ok ==> GC.IsGroup(old(q).queue, n) && q.lastSeq == old(q).lastSeq + |GC.AllOps(old(q).queue[..n])|
      ensures old(q).lastSeq <= q.lastSeq <= old(q).lastSeq + |GC.AllOps(old(q).queue[..n])|
      ensures applied == old(applied) + if ok then SetOf(Number(old(q).lastSeq + 1, GC.AllOps(old(q).queue[..n])))
        else {}
    {
      hide Good, SizesOk, OptionsOk, SoundNext, Reaches, GC.AllOps, Number, GC.IsGroup, SetOf, VersionOk, Sorted,
        GC.Inv, Served, ShouldSyncNow;
      ghost var s0 := Abs();
      OpenFacts(s0);
      ok := MakeRoomForWrite(healthy);
      ghost var s1 := Abs();
      OpenFacts(s1);
      if ok {
        ok, n := CommitGroup(due, healthy);
      } else {
        RejectLeader();
        n := 1;
        RejectedServes(old(q), s1.mode.core.q, q, ShouldSyncNow(options.policy, old(q).queue[0].sync, due));
      }
      ReachTrans(s0, s1, Abs());
    }

    lemma GoodNow()
      requires Valid()
      ensures Good(Abs())
    {
      hide Good;
    }

    /** One leader's turn, and what it does to those it covers and to the latest view. */
    method LeadNext(healthy: bool) returns (ghost more: seq<GC.Outcome>)
      requires Valid() && Quiet() && q.phase.Idle? && q.queue != [] && q.lastSeq + |GC.AllOps(q.queue)| < MAX_SEQUENCE
      modifies this
      ensures Valid() && Quiet() && Reaches(old(Abs()), Abs()) && q.phase.Idle? && snaps == old(snaps)
      ensures q.served == old(q).served + more && GC.ServedWriters(more) + q.queue == old(q).queue
      ensures |q.queue| < |old(q).queue|
      ensures q.lastSeq + |GC.AllOps(q.queue)| < MAX_SEQUENCE
      ensures forall key ::
        View(applied, key, q.lastSeq) == Updated(old(View(applied, key, q.lastSeq)), OkOps(more), key)
      ensures OkOps(more) == [] ==> applied == old(applied)
      ensures old(q).records <= q.records && AllSynced(more, options.policy, q.records)
      ensures healthy && !old(q).failed ==> !q.failed && NoneFailed(more)
    {
      hide Valid, Reaches, Number, GC.AllOps, GC.IsGroup, SetOf, View, Updated, GC.ServedWriters, OkOps, Served,
        GC.Outcomes, Good;
      ghost var s1, q1 := Abs(), q;
      GoodNow();
      forall n | 0 <= n <= |q.queue|
        ensures |GC.AllOps(q.queue[..n])| + |GC.AllOps(q.queue[n..])| == |GC.AllOps(q.queue)|
      {
        AllOpsSplit(q.queue, n);
      }
      var due: bool := *;
      var ok, n := LeadGroup(due, healthy);
      ghost var status := if ok then GC.Ok else GC.Error;
      ghost var synced := ShouldSyncNow(options.policy, q1.queue[0].sync, due);
      more := ServedBy(q1, q, n, status, synced);
      ServedSynced(q1, q, n, more, status, options.policy, due);
      ghost var ops := GC.AllOps(q1.queue[..n]);
      TurnServed(q1, q, n, more, status);
      forall key
        ensures View(applied, key, q.lastSeq) == Updated(old(View(applied, key, q.lastSeq)), OkOps(more), key)
      {
        LedView(s1, ops, ok, applied, q.lastSeq, key);
      }
      if OkOps(more) == [] { NothingNumbered(q1.lastSeq + 1); }
    }

    /** Leader after leader commits its group, until nobody is queued. */
    method LeadAll(healthy: bool) returns (ghost os: seq<GC.Outcome>)
      requires Valid() && Quiet() && q.phase.Idle? && q.lastSeq + |GC.AllOps(q.queue)| < MAX_SEQUENCE
      modifies this
      ensures Valid() && Quiet() && Reaches(old(Abs()), Abs()) && q.phase.Idle? && q.queue == [] && snaps == old(snaps)
      ensures q.served == old(q).served + os && GC.ServedWriters(os) == old(q).queue
      ensures forall key :: View(applied, key, q.lastSeq) == Updated(old(View(applied, key, q.lastSeq)), OkOps(os), key)
      ensures OkOps(os) == [] ==> applied == old(applied)
      ensures AllSynced(os, options.policy, q.records)
      ensures healthy && !old(q).failed ==> !q.failed && NoneFailed(os)
    {
      hide Valid, Reaches, GC.AllOps, View, Updated, GC.ServedWriters, OkOps, AllSynced, NoneFailed;
      ghost var s0 := Abs();
      ReachSelf(s0);
      os := [];
      NobodyServed();
      NobodySynced(options.policy, q.records);
      forall key, b ensures Updated(b, [], key) == b { UpdatedNone(b, key); }
      while q.queue != []
        invariant Valid() && Quiet() && Reaches(s0, Abs()) && q.phase.Idle? && snaps == old(snaps)
        invariant q.served == old(q).served + os && GC.ServedWriters(os) + q.queue == old(q).queue
        invariant q.lastSeq + |GC.AllOps(q.queue)| < MAX_SEQUENCE
        invariant forall key ::
          View(applied, key, q.lastSeq) == Updated(old(View(applied, key, q.lastSeq)), OkOps(os), key)
        invariant OkOps(os) == [] ==> applied == old(applied)
        invariant AllSynced(os, options.policy, q.records)
        invariant healthy && !old(q).failed ==> !q.failed && NoneFailed(os)
        decreases |q.queue|
      {
        ghost var s1, os1, rs := Abs(), os, q.records;
        ghost var more := LeadNext(healthy);
        ReachTrans(s0, s1, Abs());
        os := os1 + more;
        SyncedTwice(os1, more, options.policy, rs, q.records);
        ServedTwice(os1, more);
        forall key
          ensures View(applied, key, q.lastSeq) == Updated(old(View(applied, key, q.lastSeq)), OkOps(os), key)
        {
          UpdatedTwice(old(View(applied, key, q.lastSeq)), OkOps(os1), OkOps(more), key);
        }
      }
      assert GC.ServedWriters(os) + [] == GC.ServedWriters(os);
    }

    /** DB::Write: waits behind whoever is queued already, leading its own group if nobody
        else covers it. `os` says what became of everyone up to and including the caller. */
    method Write(opts: WriteOptions, ops: seq<Op>, healthy: bool) returns (ok: bool, ghost os: seq<GC.Outcome>)
      requires Valid() && Quiet() && q.phase.Idle? && OpsFit(ops)
      requires q.lastSeq + |GC.AllOps(q.queue)| + |ops| < MAX_SEQUENCE
      modifies this
      ensures Valid() && Quiet() && Reaches(old(Abs()), Abs()) && q.phase.Idle? && snaps == old(snaps)
      ensures ops == [] ==> ok && Abs() == old(Abs()) && os == []
      ensures ops != [] ==> q.queue == [] && q.served == old(q).served + os && |os| == |old(q).queue| + 1
      ensures ops != [] ==>
        GC.ServedWriters(os) == old(q).queue + [GC.Writer(0, ops, !opts.useDefaultPolicy && opts.sync)]
      ensures ops != [] ==> os[|os| - 1].writer == GC.Writer(0, ops, !opts.useDefaultPolicy && opts.sync)
      ensures ops != [] ==> os[|os| - 1].status == if ok then GC.Ok else GC.Error
      ensures forall key :: View(applied, key, q.lastSeq) == Updated(old(View(applied, key, q.lastSeq)), OkOps(os), key)
      ensures OkOps(os) == [] ==> applied == old(applied)
      ensures AllSynced(os, options.policy, q.records)
      ensures healthy && !old(q).failed ==> ok && !q.failed && NoneFailed(os)
    {
      hide Valid, Reaches, Number, GC.AllOps, GC.IsGroup, SetOf, View, Updated, GC.ServedWriters, OkOps, OpsFit,
        AllSynced;
      ghost var s0 := Abs();
      if ops == [] {
        ReachSelf(s0);
        os := [];
        NobodyServed();
        NobodySynced(options.policy, q.records);
        forall key, b ensures Updated(b, [], key) == b { UpdatedNone(b, key); }
        return true, os;
      }
      SequenceBound();
      var w := GC.Writer(0, ops, !opts.useDefaultPolicy && opts.sync);
      var q' := q.(arrived := q.arrived + [w], queue := q.queue + [w]);
      assert GC.Enqueue(q, q', w);
      MoveQueue(q');
      OneMoreOps(s0.mode.core.q.queue, w);
      ghost var s1 := Abs();
      os := LeadAll(healthy);
      ReachTrans(s0, s1, Abs());
      LastServed(os, s0.mode.core.q.queue, w);
      ok := q.served[|q.served| - 1].status.Ok?;
    }

    /** On success the key reads as the value, and the write was synced if the caller or the
        policy asks for it; other keys only change through the operations of those who were
        queued before. */
    method Put(opts: WriteOptions, key: Bytes, value: Bytes, healthy: bool)
      returns (ok: bool, ghost os: seq<GC.Outcome>)
      requires Valid() && Quiet() && q.phase.Idle? && q.lastSeq + |GC.AllOps(q.queue)| + 1 < MAX_SEQUENCE
      requires |key| < TWO32 && |value| < TWO32
      modifies this
      ensures Valid() && Quiet() && q.phase.Idle? && q.queue == [] && snaps == old(snaps)
      ensures |os| == |old(q).queue| + 1 && q.served == old(q).served + os
      ensures var o := os[|os| - 1];
        && o.writer.ops == [Op(Value, key, value)] && o.writer.sync == (!opts.useDefaultPolicy && opts.sync)
        && o.status == (if ok then GC.Ok else GC.Error)
        && (ok ==> SyncedAs(o, options.policy, q.records))
      ensures ok ==> View(applied, key, q.lastSeq) == Some(value)
      ensures forall k :: !ok || k != key ==>
        View(applied, k, q.lastSeq) == Updated(old(View(applied, k, q.lastSeq)), OkOps(os[..|os| - 1]), k)
      ensures !ok && old(q).queue == [] ==> applied == old(applied)
      ensures healthy && !old(q).failed ==> ok && !q.failed && NoneFailed(os)
    {
      hide Valid, Reaches, View, GC.AllOps, GC.ServedWriters, SyncedAs;
      var op := Op(Value, key, value);
      ok, os := Write(opts, [op], healthy);
      LastOp(os, op);
    }

    method Delete(opts: WriteOptions, key: Bytes, healthy: bool) returns (ok: bool, ghost os: seq<GC.Outcome>)
      requires Valid() && Quiet() && q.phase.Idle? && q.lastSeq + |GC.AllOps(q.queue)| + 1 < MAX_SEQUENCE
      requires |key| < TWO32
      modifies this
      ensures Valid() && Quiet() && q.phase.Idle? && q.queue == [] && snaps == old(snaps)
      ensures |os| == |old(q).queue| + 1 && q.served == old(q).served + os
      ensures var o := os[|os| - 1];
        && o.writer.ops == [Op(Deletion, key, [])] && o.writer.sync == (!opts.useDefaultPolicy && opts.sync)
        && o.status == (if ok then GC.Ok else GC.Error)
        && (ok ==> SyncedAs(o, options.policy, q.records))
      ensures ok ==> View(applied, key, q.lastSeq) == None
      ensures forall k :: !ok || k != key ==>
        View(applied, k, q.lastSeq) == Updated(old(View(applied, k, q.lastSeq)), OkOps(os[..|os| - 1]), k)
      ensures !ok && old(q).queue == [] ==> applied == old(applied)
      ensures healthy && !old(q).failed ==> ok && !q.failed && NoneFailed(os)
    {
      hide Valid, Reaches, View, GC.AllOps, GC.ServedWriters, SyncedAs;
      var op := Op(Deletion, key, []);
      ok, os := Write(opts, [op], healthy);
      LastOp(os, op);
    }
  }

  // ---------------------------------------------------------- writes as updates

  /** What those who were told Ok have written, in order. */
  function OkOps(os: seq<GC.Outcome>): seq<Op> {
    if os == [] then []
    else OkOps(os[..|os| - 1]) + if os[|os| - 1].status.Ok? then os[|os| - 1].writer.ops else []
  }

  /** Everyone was told Ok. */
  ghost predicate NoneFailed(os: seq<GC.Outcome>) {
    forall i :: 0 <= i < |os| ==> os[i].status.Ok?
  }

  /** The writer's batch is in a record that was synced before the writer returned, if the
      writer or the policy asks for that; under the policy never to sync, only if the leader of
      its group asks. */
  ghost predicate SyncedAs(o: GC.Outcome, policy: SyncPolicy, rs: seq<GC.Record>) {
    && o.record.Some? && o.record.value < |rs| && o.writer in rs[o.record.value].writers
    && var r := rs[o.record.value];
       && (o.writer.sync || policy.EveryWrite? ==> r.synced)
       && (policy.Never? ==> (r.synced <==> r.writers[0].sync))
  }

  /** So it is for everyone who was told Ok. */
  ghost predicate AllSynced(os: seq<GC.Outcome>, policy: SyncPolicy, rs: seq<GC.Record>) {
    forall i :: 0 <= i < |os| && os[i].status.Ok? ==> SyncedAs(os[i], policy, rs)
  }

  lemma NobodySynced(policy: SyncPolicy, rs: seq<GC.Record>)
    ensures AllSynced([], policy, rs) && NoneFailed([])
  {
  }

  lemma SyncedTwice(os: seq<GC.Outcome>, more: seq<GC.Outcome>, policy: SyncPolicy, rs: seq<GC.Record>,
          rs': seq<GC.Record>)
    requires AllSynced(os, policy, rs) && AllSynced(more, policy, rs') && rs <= rs'
    ensures AllSynced(os + more, policy, rs') && (NoneFailed(os) && NoneFailed(more) ==> NoneFailed(os + more))
  {
  }

  lemma ServedSynced(q: GC.Queue, q': GC.Queue, n: nat, more: seq<GC.Outcome>, status: GC.Status, policy: SyncPolicy,
          due: bool)
    requires q.queue != [] && 1 <= n <= |q.queue| && (status.Ok? ==> GC.IsGroup(q.queue, n))
    requires Db.Served(q, q', n, status, ShouldSyncNow(policy, q.queue[0].sync, due))
    requires |more| == n && forall i :: 0 <= i < n ==>
      more[i].writer == q.queue[i] && more[i].status == status
        && (status.Ok? ==> more[i].record == Some(|q'.records| - 1))
    ensures q.records <= q'.records && AllSynced(more, policy, q'.records) && (status.Ok? ==> NoneFailed(more))
  {
    hide GC.Outcomes;
    forall i | 0 <= i < n && status.Ok? ensures SyncedAs(more[i], policy, q'.records) {
      assert q.queue[..n][i] == q.queue[i] && q.queue[..n][0] == q.queue[0];
      if i > 0 { assert GC.MayFollow(q.queue, i); }
    }
  }

  /** A leader that is turned away is served alone. */
  lemma RejectedServes(q: GC.Queue, q1: GC.Queue, q': GC.Queue, synced: bool)
    requires q1 == q.(failed := q1.failed) && GC.Reject(q1, q')
    ensures Db.Served(q, q', 1, GC.Error, synced)
  {
    assert GC.Outcomes(q.queue[..1], GC.Error, None) == [GC.Outcome(q.queue[0], GC.Error, None)];
  }

  lemma NobodyServed()
    ensures OkOps([]) == [] && GC.ServedWriters([]) == []
  {
  }

  lemma {:induction false} AllOpsSplit(ws: seq<GC.Writer>, n: nat)
    requires n <= |ws|
    ensures GC.AllOps(ws) == GC.AllOps(ws[..n]) + GC.AllOps(ws[n..])
    decreases |ws|
  {
    if n < |ws| {
      var m := |ws| - 1;
      AllOpsSplit(ws[..m], n);
      assert ws[..m][..n] == ws[..n] && ws[..m][n..] == ws[n..][..m - n] && ws[n..][m - n] == ws[m];
    } else {
      assert ws[..n] == ws && ws[n..] == [];
    }
  }

  lemma OneMoreOps(ws: seq<GC.Writer>, w: GC.Writer)
    ensures GC.AllOps(ws + [w]) == GC.AllOps(ws) + w.ops
  {
    assert (ws + [w])[..|ws|] == ws;
  }

  lemma {:induction false} OkOpsOf(ws: seq<GC.Writer>, status: GC.Status, record: Option<nat>)
    ensures OkOps(GC.Outcomes(ws, status, record)) == if status.Ok? then GC.AllOps(ws) else []
    decreases |ws|
  {
    var os := GC.Outcomes(ws, status, record);
    if ws != [] {
      var m := |ws| - 1;
      OkOpsOf(ws[..m], status, record);
      assert os[..m] == GC.Outcomes(ws[..m], status, record) && os[m] == GC.Outcome(ws[m], status, record);
    }
  }

  lemma {:induction false} ServedTwice(os: seq<GC.Outcome>, more: seq<GC.Outcome>)
    ensures OkOps(os + more) == OkOps(os) + OkOps(more)
    ensures GC.ServedWriters(os + more) == GC.ServedWriters(os) + GC.ServedWriters(more)
    decreases |more|
  {
    hide OkOps, GC.ServedWriters;
    if more == [] {
      assert os + more == os;
      NobodyServed();
    } else {
      var m := |more| - 1;
      var o := more[m];
      ServedTwice(os, more[..m]);
      assert os + more == (os + more[..m]) + [o] && more == more[..m] + [o];
      OneServed(os + more[..m], o);
      OneServed(more[..m], o);
    }
  }

  lemma OneServed(os: seq<GC.Outcome>, o: GC.Outcome)
    ensures OkOps(os + [o]) == OkOps(os) + if o.status.Ok? then o.writer.ops else []
    ensures GC.ServedWriters(os + [o]) == GC.ServedWriters(os) + [o.writer]
  {
    assert (os + [o])[..|os|] == os;
  }

  /** The outcomes a leader hands out. */
  ghost function ServedBy(q: GC.Queue, q': GC.Queue, n: nat, status: GC.Status, synced: bool): (os: seq<GC.Outcome>)
    requires Db.Served(q, q', n, status, synced)
    ensures 1 <= n <= |q.queue| && q'.served == q.served + os && q'.queue == q.queue[n..] && q'.phase.Idle?
    ensures exists record :: os == GC.Outcomes(q.queue[..n], status, record)
    ensures |os| == n && forall i :: 0 <= i < n ==>
      os[i].writer == q.queue[i] && os[i].status == status && (status.Ok? ==> os[i].record == Some(|q'.records| - 1))
  {
    var record :| && q'.queue == q.queue[n..] && q'.served == q.served + GC.Outcomes(q.queue[..n], status, record)
                  && (status.Ok? ==> record == Some(|q'.records| - 1));
    GC.Outcomes(q.queue[..n], status, record)
  }

  lemma TurnServed(q: GC.Queue, q': GC.Queue, n: nat, more: seq<GC.Outcome>, status: GC.Status)
    requires 1 <= n <= |q.queue| && q'.queue == q.queue[n..]
    requires exists record :: more == GC.Outcomes(q.queue[..n], status, record)
    ensures GC.ServedWriters(more) + q'.queue == q.queue
    ensures OkOps(more) == if status.Ok? then GC.AllOps(q.queue[..n]) else []
  {
    hide GC.ServedWriters, OkOps, GC.AllOps, GC.Outcomes;
    var record :| more == GC.Outcomes(q.queue[..n], status, record);
    NobodyServed();
    GC.ServedAppend([], q.queue[..n], status, record);
    assert [] + more == more && [] + q.queue[..n] == q.queue[..n];
    OkOpsOf(q.queue[..n], status, record);
    assert q.queue == q.queue[..n] + q.queue[n..];
  }

  lemma NothingNumbered(base: nat)
    ensures SetOf(Number(base, [])) == {}
  {
    assert Number(base, []) == [];
  }

  lemma LastServed(os: seq<GC.Outcome>, ws: seq<GC.Writer>, w: GC.Writer)
    requires GC.ServedWriters(os) == ws + [w]
    ensures |os| == |ws| + 1 && os[|os| - 1].writer == w
  {
    ServedLength(os);
    assert GC.ServedWriters(os)[|ws|] == w;
    ServedLength(os[..|os| - 1]);
    assert GC.ServedWriters(os)[|os| - 1] == os[|os| - 1].writer;
  }

  lemma {:induction false} ServedLength(os: seq<GC.Outcome>)
    ensures |GC.ServedWriters(os)| == |os|
    decreases |os|
  {
    if os != [] { ServedLength(os[..|os| - 1]); }
  }

  lemma LastOp(os: seq<GC.Outcome>, op: Op)
    requires os != [] && os[|os| - 1].writer.ops == [op]
    ensures os[|os| - 1].status.Ok? ==> forall before, key ::
      Updated(before, OkOps(os), key) ==
      if key == op.key then (if op.kind.Value? then Some(op.value) else None)
        else Updated(before, OkOps(os[..|os| - 1]), key)
    ensures !os[|os| - 1].status.Ok? ==> OkOps(os) == OkOps(os[..|os| - 1])
    ensures |os| == 1 ==> OkOps(os[..|os| - 1]) == []
  {
    var front := OkOps(os[..|os| - 1]);
    assert (front + [op])[..|front|] == front;
  }

  /** What a leader's group does to the latest view, whether it succeeds or not. */
  lemma LedView(s: State, ops: seq<Op>, ok: bool, A: set<Entry>, last: nat, key: Bytes)
    requires s.mode.Up? && Good(s) && last >= s.mode.core.q.lastSeq && (ok ==> last == s.mode.core.q.lastSeq + |ops|)
    requires A == s.mode.core.applied + if ok then SetOf(Number(s.mode.core.q.lastSeq + 1, ops)) else {}
    ensures View(A, key, last)
      == Updated(View(s.mode.core.applied, key, s.mode.core.q.lastSeq), if ok then ops else [], key)
  {
    hide Ok, LogsClimb, View, SetOf, Updated, VersionOk, Sorted, OrderOk, ViewOk, Held, Number, SeqUnique, SeqLe,
      History;
    if ok {
      WriteIsUpdate(s, ops, key);
    } else {
      assert A == s.mode.core.applied;
      CoreParts(s);
      AppliedBelow(s);
      StillBelow(A, s.mode.core.q.lastSeq, last);
      ViewTop(A, key, s.mode.core.q.lastSeq, last);
      UpdatedNone(View(A, key, last), key);
    }
  }

  lemma StillBelow(A: set<Entry>, m: nat, n: nat)
    requires SeqLe(A, m) && m <= n
    ensures SeqLe(A, n)
  {
  }

  /** The next group updates the latest view like a map. */
  lemma WriteIsUpdate(s: State, ops: seq<Op>, key: Bytes)
    requires s.mode.Up? && Good(s)
    ensures var c := s.mode.core;
      View(c.applied + SetOf(Number(c.q.lastSeq + 1, ops)), key, c.q.lastSeq + |ops|)
        == Updated(View(c.applied, key, c.q.lastSeq), ops, key)
  {
    hide Ok, LogsClimb, View, SetOf, Updated, VersionOk, Sorted, OrderOk, ViewOk, Held, Number, SeqUnique, SeqLe,
      History;
    CoreParts(s);
    AppliedBelow(s);
    LatestUpdate(s.mode.core.applied, s.mode.core.q.lastSeq, ops, key);
  }

  lemma LatestUpdate(A: set<Entry>, last: nat, ops: seq<Op>, key: Bytes)
    requires SeqUnique(A) && SeqLe(A, last)
    ensures View(A + SetOf(Number(last + 1, ops)), key, last + |ops|) == Updated(View(A, key, last), ops, key)
  {
    hide View, SetOf, Updated, Number, SeqUnique;
    GroupIsUpdate(A, last + 1, ops, key, last + |ops|);
    ViewTop(A, key, last, last + |ops|);
  }

  lemma AppliedBelow(s: State)
    requires s.mode.Up? && Good(s)
    ensures SeqLe(s.mode.core.applied, s.mode.core.q.lastSeq)
  {
    hide LogsClimb, PendingIs, LogsMatch, MemOk, TreeUp, ViewOk, NumbersOk, ShapeOk, WorkerOk, DiskOk,
      History, HistSet, GC.PhaseOk, GC.WellNumbered, GC.OutcomeOk, GC.WritersOf, GC.ServedWriters, GC.LoggedWriters,
      GC.TotalCount, GC.QueueOk, GC.InFlight;
  }

  lemma SetOfNothing(es: seq<Entry>)
    ensures SetOf(es[..0]) == {}
  {
  }

  lemma SetOfNext(es: seq<Entry>, i: nat)
    requires i < |es|
    ensures SetOf(es[..i + 1]) == SetOf(es[..i]) + {es[i]}
  {
    assert es[..i + 1] == es[..i] + [es[i]];
  }

  lemma GroupSize(queue: seq<GC.Writer>, n: nat)
    requires GC.IsGroup(queue, n)
    ensures 1 <= n <= |queue|
  {
    hide GC.MayFollow;
  }

  lemma PickNegative(v: Version, o: Options, level: int)
    requires |v| == NUM_LEVELS && IsPick(v, o, level)
    ensures level < 0 <==> IsPick(v, o, -1)
    ensures level < NUM_LEVELS - 1
  {
    hide Score;
  }

  lemma FlushedWork(imm: seq<Entry>, v: Version, v': Version, floor: nat, z: Sizes)
    requires FlushedInto(imm, v, v', floor, z) && imm != []
    ensures |v| == NUM_LEVELS && |v'| == NUM_LEVELS && Work([], v') < Work(imm, v)
  {
    hide Work, AllSurvivors;
    var f: File :| f.entries == AllSurvivors(imm, floor, false) && f.size == z.bytes(f.entries)
                   && v' == AddNewest(v, f);
    FlushProgress(imm, v, f, floor);
  }

  /** What a flush does to the tree. */
  ghost predicate FlushedInto(imm: seq<Entry>, v: Version, v': Version, floor: nat, z: Sizes) {
    |v| == NUM_LEVELS && exists f: File ::
      f.entries == AllSurvivors(imm, floor, false) && f.size == z.bytes(f.entries) && v' == AddNewest(v, f)
  }

  lemma RemovedIs(job: Compaction, removed: set<nat>)
    requires removed == set f | f in job.in0 + job.in1 :: f.number
    ensures removed == Removed(job)
  {
  }

  /** Merges the inputs, drops what nobody can see, and cuts the rest into files. */
  method MergeInputs(v: Version, job: Compaction, full: seq<Entry> -> bool) returns (pieces: seq<seq<Entry>>)
    requires VersionOk(v) && IsCompaction(v, job) && job.floor < MAX_SEQUENCE
    ensures IsCut(pieces, Output(job)) && CutWhenFull(pieces, full)
  {
    hide VersionOk, IsCompaction, IsCut, AllSurvivors, Merge, CutWhenFull;
    InputsOk(v, job);
    var merged := new MergingIterator(EntriesOf(job.in0 + job.in1));
    pieces := WriteOutputs(merged, job.floor, job.bottom, full);
  }

  lemma BytesPositive(z: Sizes, es: seq<Entry>)
    requires SizesOk(z)
    ensures z.bytes(es) > 0
  {
  }

  lemma FloorBound(c: Core)
    ensures Floor(c) <= c.q.lastSeq
  {
  }

  lemma NotLive(v: Version, live: set<nat>, n: nat)
    requires live == set l, f | 0 <= l < |v| && f in v[l] :: f.number
    ensures n !in live <==> NotNamed(v, n)
  {
    if n in live {
      var l, f :| 0 <= l < |v| && f in v[l] && f.number == n;
      assert f in Files(v);
    }
  }
}
