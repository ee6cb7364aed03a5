/** The invariant across the background worker's steps. */
module EngineBack {
  import opened ByteStrings
  import opened InternalKeys
  import opened Views
  import opened Scans
  import opened Compactions
  import opened Versions
  import opened Trees
  import GC = GroupCommit
  import opened Disks
  import opened Engine
  import opened EngineInv
  import opened EngineFront

  // -------------------------------------------------------------- fresh numbers

  lemma FreshNumber(v: Version, tables: map<nat, seq<Entry>>, next: nat)
    requires TablesHold(v, tables) && forall n :: n in tables ==> n < next
    ensures IsNewNumber(v, next) && NotNamed(v, next)
  {
  }

  lemma ManifestHeld(d: Disk, H: set<Entry>)
    requires DiskOk(d, H)
    ensures TablesHold(d.manifest.version, d.tables)
  {
    hide VersionOk, LevelsOrdered, TablesHold, LogsOk, Covers, Counted, SeqUnique, VersionSet;
  }

  lemma NewIsUnnamed(v: Version, n: nat)
    requires IsNewNumber(v, n)
    ensures NotNamed(v, n)
  {
  }

  /** A table written under a number no live file carries disturbs nothing. */
  lemma PutTable(c: Core, d: Disk, H: set<Entry>, n: nat, es: seq<Entry>, next: nat)
    requires TreeUp(c.v, Floor(c), d.tables) && DiskOk(d, H) && NumbersOk(d, c.next)
    requires NotNamed(c.v, n) && NotNamed(d.manifest.version, n) && n < next && c.next <= next
    ensures var d' := d.(tables := d.tables[n := es]);
      TreeUp(c.v, Floor(c), d'.tables) && DiskOk(d', H) && NumbersOk(d', next)
  {
    hide VersionOk, SharedLow, DiskOk, TablesHold, NotNamed;
    HoldPut(c.v, d.tables, n, es);
    DiskTable(d, H, n, es);
  }

  // ------------------------------------------------------------------- flush

  lemma StartFlushOk(s: State, s': State)
    requires s.mode.Up? && StartFlush(s, s') && Ok(s)
    ensures Ok(s')
  {
    hide GC.Inv, HistSet, HistoryOk, MemOk, DiskOk, ViewOk, AppliedOk, LogsMatch, History, VersionSet,
      LogsSet, VersionOk, SharedLow, TablesHold, IsNewNumber, NotNamed;
    var c, c', d := s.mode.core, s'.mode.core, s.disk;
    HistoryUp(s);
    HistoryUp(s');
    FloorSame(c, c');
    ManifestHeld(d, History(s));
    FreshNumber(c.v, d.tables, c.next);
    FreshNumber(d.manifest.version, d.tables, c.next);
    assert Held(c') == Held(c);
  }

  lemma BuildFlushOk(s: State, s': State, size: nat)
    requires s.mode.Up? && BuildFlush(s, s', size) && Ok(s)
    ensures Ok(s')
  {
    hide GC.Inv, HistSet, HistoryOk, MemOk, DiskOk, ViewOk, AppliedOk, LogsMatch, History, VersionSet,
      LogsSet, TreeUp, NumbersOk, IsNewNumber, NotNamed, AllSurvivors;
    var c, c', d := s.mode.core, s'.mode.core, s.disk;
    HistoryUp(s);
    HistoryUp(s');
    FloorSame(c, c');
    NewIsUnnamed(c.v, c.bg.number);
    PutTable(c, d, History(s), c.bg.number, AllSurvivors(c.imm, c.bg.floor, false), c.next);
    assert Held(c') == Held(c);
  }

  /** The file about to be installed. */
  lemma FlushFile(c: Core, d: Disk)
    requires MemOk(c.mem, c.imm, c.v, c.applied) && c.bg.Flushing? && c.bg.built.Some?
    requires FlushOk(c.bg.number, c.bg.floor, c.bg.built, c.v, c.imm, c.next, Floor(c), d)
    ensures var f := c.bg.built.value;
      FileOk(f) && FileSet(f) <= SetOf(c.imm) && f.entries == AllSurvivors(c.imm, c.bg.floor, false)
  {
    hide OrderOk, Sorted, VersionSet, AllSurvivors, IsNewNumber, NotNamed;
    FlushOutput(c.imm, c.bg.floor);
  }

  lemma FlushMem(c: Core, f: File)
    requires MemOk(c.mem, c.imm, c.v, c.applied) && |c.v| == NUM_LEVELS && FileSet(f) <= SetOf(c.imm)
    ensures MemOk(c.mem, [], AddNewest(c.v, f), c.applied)
  {
    hide LevelsOrdered, VersionSet, Sorted, AddNewest, FileSet;
    AddNewestFiles(c.v, f);
    assert Newer(FileSet(f), VersionSet(c.v));
    AddNewestOrder(c.v, f);
    assert SetOf([]) == {};
    SortedEmpty();
  }

  lemma SortedEmpty()
    ensures Sorted([])
  {
  }

  lemma FlushTree(c: Core, f: File, tables: map<nat, seq<Entry>>)
    requires TreeUp(c.v, Floor(c), tables) && MemOk(c.mem, c.imm, c.v, c.applied) && FileOk(f)
    requires FileSet(f) <= SetOf(c.imm)
    requires IsNewNumber(c.v, f.number) && f.number in tables && tables[f.number] == f.entries
    ensures TreeUp(AddNewest(c.v, f), Floor(c), tables)
  {
    hide OrderOk, Sorted, VersionSet, AddNewest, VersionOk, SharedLow;
    ShapeOfVersion(c.v);
    AddNewestOk(c.v, f);
    forall x | x in f.entries ensures x !in VersionSet(c.v) { assert x in FileSet(f); }
    AddNewestShared(c.v, f, Floor(c));
    AddNewestFiles(c.v, f);
  }

  lemma ShapeOfVersion(v: Version)
    requires VersionOk(v)
    ensures |v| == NUM_LEVELS
  {
  }

  lemma FlushView(c: Core, f: File)
    requires ViewOk(Held(c), c.applied, Floor(c)) && SeqUnique(Held(c)) && |c.v| == NUM_LEVELS && Sorted(c.imm)
    requires c.bg.Flushing? && c.bg.floor <= Floor(c) && f.entries == AllSurvivors(c.imm, c.bg.floor, false)
    ensures ViewOk(SetOf(c.mem) + SetOf([]) + VersionSet(AddNewest(c.v, f)), c.applied, Floor(c))
  {
    hide View, AllSurvivors, Sorted, VersionSet, AddNewest;
    AddNewestFiles(c.v, f);
    SortedAscends(c.imm);
    var rest := SetOf(c.mem) + VersionSet(c.v);
    assert rest + SetOf(c.imm) == Held(c);
    assert SetOf(c.mem) + SetOf([]) + VersionSet(AddNewest(c.v, f)) == rest + SetOf(f.entries);
    forall key, sn | sn >= Floor(c) ensures View(rest + SetOf(f.entries), key, sn) == View(c.applied, key, sn) {
      CollapseKeepsView(c.imm, c.bg.floor, false, rest, key, sn);
    }
  }

  /** Everything in the history has been numbered by now. */
  lemma AllCounted(past: seq<seq<Entry>>, q: GC.Queue, R: set<Entry>)
    requires GC.Inv(q) && HistoryOk(past, q)
    ensures SeqLe(HistSet(past, q.records), q.lastSeq) && Counted(R, HistSet(past, q.records), q.lastSeq)
  {
    hide GC.WellNumbered, GC.OutcomeOk, GC.PhaseOk, GC.WritersOf, GC.ServedWriters, GC.LoggedWriters, GC.TotalCount,
      HistSet;
  }

  lemma FlushedShape(c: Core, logs: map<nat, LogFile>, pending: set<Entry>, from: nat)
    requires c.bg.Flushing? && c.imm != [] && ShapeOk(c.bg, c.imm, c.immLog, c.log, logs, from)
    requires LogsMatch(c.mem, c.imm, c.immLog, c.log, pending, logs)
    ensures ShapeOk(Committing(c.log, c.next, c.q.lastSeq, false), [], 0, c.log, logs, from)
  {
    hide LogSet;
    assert LiveBut([], 0, c.log, logs, from, c.immLog);
  }

  lemma InstallFlushOk(s: State, s': State)
    requires s.mode.Up? && InstallFlush(s, s') && Ok(s)
    ensures Ok(s')
  {
    hide GC.Inv, HistSet, HistoryOk, MemOk, DiskOk, ViewOk, AppliedOk, History, LogsSet, TreeUp, NumbersOk,
      IsNewNumber, NotNamed, AllSurvivors, AddNewest, FileSet, FileOk, LogSet, Held, Counted, ShapeOk;
    var c, c', d, H, f := s.mode.core, s'.mode.core, s.disk, History(s), s.mode.core.bg.built.value;
    HistoryUp(s);
    HistoryUp(s');
    FloorSame(c, c');
    FlushFile(c, d);
    FlushMem(c, f);
    FlushTree(c, f, d.tables);
    HeldFacts(c, d, s.past, H);
    ImmSorted(c);
    FlushView(c, f);
    HeldIs(c');
    FlushedShape(c, d.logs, H - c.applied, d.manifest.log);
    AllCounted(s.past, c.q, LogsSet(d.logs, c.log));
  }

  lemma ImmSorted(c: Core)
    requires MemOk(c.mem, c.imm, c.v, c.applied)
    ensures Sorted(c.imm) && Sorted(c.mem)
  {
  }

  lemma HeldIs(c: Core)
    ensures Held(c) == SetOf(c.mem) + SetOf(c.imm) + VersionSet(c.v)
  {
  }

  // -------------------------------------------------------------- compaction

  lemma StartCompactionOk(s: State, s': State, job: Compaction, pieces: seq<seq<Entry>>)
    requires s.mode.Up? && StartCompaction(s, s', job, pieces) && Ok(s)
    ensures Ok(s')
  {
    hide GC.Inv, HistSet, HistoryOk, MemOk, DiskOk, ViewOk, AppliedOk, LogsMatch, History, LogsSet,
      NumbersOk, IsCompaction, IsCut, Output, VersionSet, VersionOk, SharedLow, TablesHold;
    var c, c' := s.mode.core, s'.mode.core;
    HistoryUp(s);
    HistoryUp(s');
    FloorSame(c, c');
    assert Held(c') == Held(c);
  }

  lemma EmitOutputs(c: Core, d: Disk, size: nat)
    requires c.bg.Compacting? && CompactOk(c.bg.job, c.bg.pieces, c.bg.outputs, c.v, c.next, Floor(c), d)
    requires |c.bg.outputs| < |c.bg.pieces| && size > 0 && IsNewNumber(c.v, c.next)
    requires NotNamed(d.manifest.version, c.next)
    ensures var f := File(c.next, size, c.bg.pieces[|c.bg.outputs|]);
      CompactOk(c.bg.job, c.bg.pieces, c.bg.outputs + [f], c.v, c.next + 1, Floor(c),
        d.(tables := d.tables[c.next := f.entries]))
  {
    hide IsCompaction, IsCut, Output, IsNewNumber, NotNamed, SharedLow;
  }

  lemma EmitTableOk(s: State, s': State, size: nat)
    requires s.mode.Up? && EmitTable(s, s', size) && Ok(s)
    ensures Ok(s')
  {
    hide GC.Inv, HistSet, HistoryOk, MemOk, DiskOk, ViewOk, AppliedOk, LogsMatch, History, LogsSet, TreeUp,
      NumbersOk, CompactOk, IsNewNumber, NotNamed, VersionSet;
    var c, c', d, H := s.mode.core, s'.mode.core, s.disk, History(s);
    HistoryUp(s);
    HistoryUp(s');
    FloorSame(c, c');
    FreshEverywhere(c, d, H);
    NewIsUnnamed(c.v, c.next);
    PutTable(c, d, H, c.next, c.bg.pieces[|c.bg.outputs|], c.next + 1);
    EmitOutputs(c, d, size);
    assert Held(c') == Held(c);
  }

  lemma FreshEverywhere(c: Core, d: Disk, H: set<Entry>)
    requires TreeUp(c.v, Floor(c), d.tables) && DiskOk(d, H) && NumbersOk(d, c.next)
    ensures IsNewNumber(c.v, c.next) && NotNamed(c.v, c.next) && NotNamed(d.manifest.version, c.next)
  {
    hide DiskOk, VersionOk, SharedLow, TablesHold, IsNewNumber, NotNamed;
    ManifestHeld(d, H);
    FreshNumber(c.v, d.tables, c.next);
    FreshNumber(d.manifest.version, d.tables, c.next);
  }

  /** When every output has been written, the compaction is ready to be installed. */
  lemma CompactionReady(c: Core, d: Disk)
    requires c.bg.Compacting? && CompactOk(c.bg.job, c.bg.pieces, c.bg.outputs, c.v, c.next, Floor(c), d)
    requires |c.bg.outputs| == |c.bg.pieces| && VersionOk(c.v) && SeqUnique(Held(c))
    ensures Ready(c.v, c.bg.job, c.bg.outputs)
  {
    hide IsCompaction, Output, SharedLow, VersionOk, IsCut, VersionSet, SetOf;
    var outputs := c.bg.outputs;
    assert EntriesOf(outputs) == c.bg.pieces;
    forall i, f | 0 <= i < |outputs| && f in Files(c.v) ensures outputs[i].number != f.number {
      assert IsTable(outputs[i], c.v, d, c.next);
    }
    assert SeqUnique(VersionSet(c.v));
  }

  lemma CompactTree(c: Core, d: Disk)
    requires c.bg.Compacting? && CompactOk(c.bg.job, c.bg.pieces, c.bg.outputs, c.v, c.next, Floor(c), d)
    requires Ready(c.v, c.bg.job, c.bg.outputs) && TreeUp(c.v, Floor(c), d.tables)
    ensures TreeUp(After(c.v, c.bg.job, c.bg.outputs), Floor(c), d.tables)
  {
    hide Ready, After, VersionOk, SharedLow, IsCompaction, IsCut;
    AfterOk(c.v, c.bg.job, c.bg.outputs);
    AfterShared(c.v, c.bg.job, c.bg.outputs, Floor(c));
    var w := After(c.v, c.bg.job, c.bg.outputs);
    ShapeOfVersion(w);
    ShapeOfVersion(c.v);
    forall f | f in Files(w) ensures f.number in d.tables && d.tables[f.number] == f.entries {
      var l: nat :| l < |w| && f in w[l];
      AfterFiles(c.v, c.bg.job, c.bg.outputs, l, f);
      if f in c.bg.outputs {
        var i :| 0 <= i < |c.bg.outputs| && c.bg.outputs[i] == f;
        assert IsTable(c.bg.outputs[i], c.v, d, c.next);
      } else {
        assert f in Files(c.v);
      }
    }
  }

  lemma CompactMem(c: Core)
    requires c.bg.Compacting? && MemOk(c.mem, c.imm, c.v, c.applied) && Ready(c.v, c.bg.job, c.bg.outputs)
    ensures MemOk(c.mem, c.imm, After(c.v, c.bg.job, c.bg.outputs), c.applied)
  {
    hide Ready, After, VersionSet, OrderOk, Sorted;
    AfterSubset(c.v, c.bg.job, c.bg.outputs);
    AfterOrder(c.v, c.bg.job, c.bg.outputs, SetOf(c.mem), SetOf(c.imm));
  }

  lemma CompactView(c: Core)
    requires c.bg.Compacting? && Ready(c.v, c.bg.job, c.bg.outputs) && MemOk(c.mem, c.imm, c.v, c.applied)
    requires ViewOk(Held(c), c.applied, Floor(c)) && SeqUnique(Held(c)) && c.bg.job.floor <= Floor(c)
    ensures ViewOk(SetOf(c.mem) + SetOf(c.imm) + VersionSet(After(c.v, c.bg.job, c.bg.outputs)), c.applied, Floor(c))
  {
    hide Ready, After, VersionSet, OrderOk, Sorted, View;
    forall key, sn | sn >= Floor(c)
      ensures View(SetOf(c.mem) + SetOf(c.imm) + VersionSet(After(c.v, c.bg.job, c.bg.outputs)), key, sn)
        == View(c.applied, key, sn)
    {
      AfterView(c.v, c.bg.job, c.bg.outputs, SetOf(c.mem), SetOf(c.imm), key, sn);
    }
  }

  lemma AfterIs(v: Version, job: Compaction, outputs: seq<File>)
    requires Ready(v, job, outputs)
    ensures |v| == NUM_LEVELS && job.level < NUM_LEVELS - 1 && NoneEmpty(v[job.level + 1]) && NoneEmpty(outputs)
    ensures After(v, job, outputs) == Install(v, job.level, Removed(job), outputs)
  {
    hide VersionOk, IsCompaction, IsOutput, SharedLow, SeqUnique, Install;
    LevelBound(v, job);
    OutputsLevel(v, job, outputs);
  }

  lemma LiveShape(c: Core, logs: map<nat, LogFile>, pending: set<Entry>, from: nat)
    requires c.bg.Compacting? && ShapeOk(c.bg, c.imm, c.immLog, c.log, logs, from)
    requires LogsMatch(c.mem, c.imm, c.immLog, c.log, pending, logs)
    ensures ShapeOk(Committing(OldestLiveLog(c), c.next, c.q.lastSeq, false), c.imm, c.immLog, c.log, logs, from)
    ensures OldestLiveLog(c) <= c.log
  {
  }

  lemma InstallCompactionOk(s: State, s': State)
    requires s.mode.Up? && InstallCompaction(s, s') && Ok(s)
    ensures Ok(s')
  {
    hide GC.Inv, HistSet, HistoryOk, MemOk, DiskOk, ViewOk, AppliedOk, History, LogsSet, NumbersOk, ShapeOk,
      LogsMatch, VersionOk, SharedLow, TablesHold, CompactOk, Ready, After, Install, Held, Counted, Removed;
    var c, c', d, H := s.mode.core, s'.mode.core, s.disk, History(s);
    HistoryUp(s);
    HistoryUp(s');
    FloorSame(c, c');
    HeldFacts(c, d, s.past, H);
    CompactionReady(c, d);
    AfterIs(c.v, c.bg.job, c.bg.outputs);
    CompactTree(c, d);
    CompactMem(c);
    JobFloor(c, d);
    CompactView(c);
    HeldIs(c');
    LiveShape(c, d.logs, H - c.applied, d.manifest.log);
    AllCounted(s.past, c.q, LogsSet(d.logs, OldestLiveLog(c)));
  }

  lemma JobFloor(c: Core, d: Disk)
    requires c.bg.Compacting? && CompactOk(c.bg.job, c.bg.pieces, c.bg.outputs, c.v, c.next, Floor(c), d)
    ensures c.bg.job.floor <= Floor(c)
  {
  }

  // ----------------------------------------------------------------- strays

  lemma WorkerKeepsTables(c: Core, d: Disk, H: set<Entry>, es: seq<Entry>)
    requires WorkerOk(c, d, H, Floor(c))
    ensures WorkerOk(c.(next := c.next + 1), d.(tables := d.tables[c.next := es]), H, Floor(c))
  {
    hide IsCompaction, IsCut, Counted, LogsSet, IsNewNumber, NotNamed, SharedLow, AllSurvivors, Output;
  }

  lemma StrayTableOk(s: State, s': State, junk: seq<Entry>)
    requires s.mode.Up? && StrayTable(s, s', junk) && Ok(s)
    ensures Ok(s')
  {
    hide GC.Inv, HistSet, HistoryOk, MemOk, DiskOk, ViewOk, AppliedOk, LogsMatch, History, LogsSet, TreeUp,
      NumbersOk, WorkerOk, IsNewNumber, NotNamed, VersionSet;
    var c, c', d, H := s.mode.core, s'.mode.core, s.disk, History(s);
    HistoryUp(s);
    HistoryUp(s');
    FloorSame(c, c');
    FreshEverywhere(c, d, H);
    PutTable(c, d, H, c.next, junk, c.next + 1);
    WorkerKeepsTables(c, d, H, junk);
    assert Held(c') == Held(c);
  }

  lemma WorkerSkips(c: Core, d: Disk, H: set<Entry>)
    requires WorkerOk(c, d, H, Floor(c))
    ensures WorkerOk(c.(next := c.next + 1), d, H, Floor(c))
  {
    hide IsCompaction, IsCut, Counted, LogsSet, IsNewNumber, NotNamed, SharedLow, AllSurvivors, Output;
  }

  lemma SkipNumberOk(s: State, s': State)
    requires s.mode.Up? && SkipNumber(s, s') && Ok(s)
    ensures Ok(s')
  {
    hide GC.Inv, HistSet, HistoryOk, MemOk, DiskOk, ViewOk, AppliedOk, LogsMatch, History, LogsSet, TreeUp,
      WorkerOk, VersionSet;
    var c, c' := s.mode.core, s'.mode.core;
    HistoryUp(s);
    HistoryUp(s');
    FloorSame(c, c');
    WorkerSkips(c, s.disk, History(s));
    assert Held(c') == Held(c);
  }

  // ------------------------------------------------------------------ commit

  lemma ViewTop(E: set<Entry>, key: Bytes, a: nat, b: nat)
    requires SeqUnique(E) && SeqLe(E, a) && SeqLe(E, b)
    ensures View(E, key, a) == View(E, key, b)
  {
    hide View;
    if NoHit(E, key, a) {
      ViewNone(E, key, a);
      ViewNone(E, key, b);
    } else {
      NewestExists(E, key, a);
      var e :| IsNewest(e, E, key, a);
      ViewIs(E, key, a, e);
      ViewIs(E, key, b, e);
    }
  }

  lemma ViewDropsOthers(E: set<Entry>, F: set<Entry>, key: Bytes, sn: nat)
    requires SeqUnique(F) && E <= F && NoKey(F - E, key)
    ensures View(E, key, sn) == View(F, key, sn)
  {
    hide View;
    ViewSame(E, F, key, sn);
  }

  /** Keys in none of the live logs are in neither memtable. */
  lemma OutsideLogs(c: Core, logs: map<nat, LogFile>, pending: set<Entry>, keep: nat, key: Bytes)
    requires LogsMatch(c.mem, c.imm, c.immLog, c.log, pending, logs) && keep <= c.log
    requires (c.imm != [] ==> keep <= c.immLog)
    requires NoKey(LogsSet(logs, keep), key)
    ensures NoKey(SetOf(c.mem), key) && NoKey(SetOf(c.imm), key) && NoKey(pending, key)
  {
    assert forall x :: x in LogSet(logs[c.log]) ==> x in LogsSet(logs, keep);
    if c.imm != [] { assert forall x :: x in LogSet(logs[c.immLog]) ==> x in LogsSet(logs, keep); }
  }

  /** The tables show the latest state of every key outside the live logs. */
  lemma CommitCovers(c: Core, logs: map<nat, LogFile>, H: set<Entry>, keep: nat)
    requires LogsMatch(c.mem, c.imm, c.immLog, c.log, H - c.applied, logs) && keep <= c.log
    requires (c.imm != [] ==> keep <= c.immLog)
    requires ViewOk(Held(c), c.applied, Floor(c)) && Held(c) <= c.applied <= H && SeqUnique(H)
    ensures Covers(c.v, LogsSet(logs, keep), H)
  {
    hide View, LogsMatch, LogsSet, VersionSet, SetOf;
    forall key: Bytes, sn: nat | SeqLe(H, sn) && NoKey(LogsSet(logs, keep), key)
      ensures View(VersionSet(c.v), key, sn) == View(H, key, sn)
    {
      OutsideLogs(c, logs, H - c.applied, keep, key);
      var top := if sn < Floor(c) then Floor(c) else sn;
      calc {
        View(VersionSet(c.v), key, sn);
        { ViewDropsOthers(VersionSet(c.v), Held(c), key, sn); }
        View(Held(c), key, sn);
        { ViewTop(Held(c), key, sn, top); }
        View(Held(c), key, top);
        View(c.applied, key, top);
        { ViewDropsOthers(c.applied, H, key, top); }
        View(H, key, top);
        { ViewTop(H, key, sn, top); }
        View(H, key, sn);
      }
    }
  }

  lemma CommitTree(c: Core, d: Disk, H: set<Entry>)
    requires TreeUp(c.v, Floor(c), d.tables) && MemOk(c.mem, c.imm, c.v, c.applied) && c.applied <= H
    ensures TreeOk(c.v, H, d.tables)
  {
    hide VersionOk, LevelsOrdered, VersionSet, TablesHold, SharedLow, Sorted, Newer;
  }

  /** Once the manifest names the log of the commit, only live logs are replayed. */
  lemma WrittenShape(c: Core, d: Disk, H: set<Entry>)
    requires c.bg.Committing? && !c.bg.written && ShapeOk(c.bg, c.imm, c.immLog, c.log, d.logs, d.manifest.log)
    requires WorkerOk(c, d, H, Floor(c))
    ensures ShapeOk(c.bg.(written := true), c.imm, c.immLog, c.log, d.logs, c.bg.log)
  {
    hide Counted, LogsSet;
  }

  lemma WriteManifestOk(s: State, s': State)
    requires s.mode.Up? && WriteManifest(s, s') && Ok(s)
    ensures Ok(s')
  {
    hide GC.Inv, HistSet, HistoryOk, MemOk, DiskOk, ViewOk, AppliedOk, History, LogsSet, TreeUp, LogsMatch,
      Held, Counted, Covers, TreeOk, ShapeOk;
    var c, c', d, H := s.mode.core, s'.mode.core, s.disk, History(s);
    HistoryUp(s);
    HistoryUp(s');
    FloorSame(c, c');
    HeldFacts(c, d, s.past, H);
    CommitTree(c, d, H);
    WrittenShape(c, d, H);
    CommitCovers(c, d.logs, H, c.bg.log);
    DiskManifest(d, H, Manifest(c.v, c.bg.log, c.bg.next, c.bg.lastSeq));
    HeldIs(c);
    HeldIs(c');
  }

  lemma DropTableOk(s: State, s': State, n: nat)
    requires s.mode.Up? && DropTable(s, s', n) && Ok(s)
    ensures Ok(s')
  {
    hide GC.Inv, HistSet, HistoryOk, MemOk, DiskOk, ViewOk, AppliedOk, History, LogsSet, LogsMatch, Counted,
      VersionOk, SharedLow, TablesHold, NotNamed;
    var c, d, H := s.mode.core, s.disk, History(s);
    HistoryUp(s);
    HistoryUp(s');
    DiskTable(d, H, n, []);
    HoldPut(c.v, d.tables, n, []);
  }

  lemma DropLogKeeps(c: Core, d: Disk, pending: set<Entry>, n: nat)
    requires LogsMatch(c.mem, c.imm, c.immLog, c.log, pending, d.logs) && NumbersOk(d, c.next)
    requires ShapeOk(c.bg, c.imm, c.immLog, c.log, d.logs, d.manifest.log)
    requires n in d.logs && c.bg.Committing? && c.bg.written && n < c.bg.log
    requires c.bg.log <= c.log && (c.imm != [] ==> c.bg.log <= c.immLog)
    ensures LogsMatch(c.mem, c.imm, c.immLog, c.log, pending, d.logs - {n})
    ensures NumbersOk(d.(logs := d.logs - {n}), c.next)
    ensures ShapeOk(c.bg, c.imm, c.immLog, c.log, d.logs - {n}, d.manifest.log)
  {
    hide LogSet;
  }

  lemma DropLogOk(s: State, s': State, n: nat)
    requires s.mode.Up? && DropLog(s, s', n) && Ok(s)
    ensures Ok(s')
  {
    hide GC.Inv, HistSet, HistoryOk, MemOk, DiskOk, ViewOk, AppliedOk, History, LogsSet, LogsMatch, Counted,
      TreeUp, NumbersOk, ShapeOk;
    var c, d, H := s.mode.core, s.disk, History(s);
    HistoryUp(s);
    HistoryUp(s');
    DropLogKeeps(c, d, H - c.applied, n);
    DiskDeleteLog(d, H, n);
    DeletedLogSets(d.logs, n, c.bg.log);
  }

  lemma FinishCommitOk(s: State, s': State)
    requires s.mode.Up? && FinishCommit(s, s') && Ok(s)
    ensures Ok(s')
  {
    hide GC.Inv, HistSet, HistoryOk, MemOk, DiskOk, ViewOk, AppliedOk, History, LogsSet, LogsMatch, Counted,
      TreeUp, NumbersOk, LiveBut, Held;
    var c, c' := s.mode.core, s'.mode.core;
    HistoryUp(s);
    HistoryUp(s');
    FloorSame(c, c');
    HeldIs(c);
    HeldIs(c');
  }

  lemma FailedQueue(q: GC.Queue, pending: set<Entry>)
    requires GC.Inv(q) && PendingIs(q, pending)
    ensures GC.Inv(q.(failed := true)) && PendingIs(q.(failed := true), pending)
  {
    hide GC.Inv, SetOf, RecordEntries;
    GC.StepOk(q, q.(failed := true));
  }

  lemma HaltedShape(c: Core, logs: map<nat, LogFile>, from: nat)
    requires ShapeOk(c.bg, c.imm, c.immLog, c.log, logs, from)
    requires c.bg.Committing? ==> c.bg.log <= c.log && (c.imm != [] ==> c.bg.log <= c.immLog)
    ensures ShapeOk(Halted, c.imm, c.immLog, c.log, logs, from)
  {
    hide LiveBut;
  }

  lemma WorkerFailsOk(s: State, s': State)
    requires s.mode.Up? && WorkerFails(s, s') && Ok(s)
    ensures Ok(s')
  {
    hide GC.Inv, HistSet, MemOk, DiskOk, ViewOk, History, LogsSet, LogsMatch, Counted, TreeUp, NumbersOk,
      Held, PendingIs, ShapeOk;
    var c, c', H := s.mode.core, s'.mode.core, History(s);
    HistoryUp(s);
    HistoryUp(s');
    FloorSame(c, c');
    FailedQueue(c.q, H - c.applied);
    if c.bg.Committing? { CommitFacts(c, s.disk, H, Floor(c)); }
    HaltedShape(c, s.disk.logs, s.disk.manifest.log);
    HeldIs(c);
    HeldIs(c');
  }

  lemma WorkerStepOk(s: State, s': State)
    requires Ok(s) && WorkerStep(s, s')
    ensures Ok(s')
  {
    hide Ok, StartFlush, BuildFlush, InstallFlush, StartCompaction, EmitTable, InstallCompaction, StrayTable,
      SkipNumber, WriteManifest, DropTable, DropLog, FinishCommit, WorkerFails;
    WorkerIsUp(s, s');
    if StartFlush(s, s') { StartFlushOk(s, s'); }
    else if size :| BuildFlush(s, s', size) { BuildFlushOk(s, s', size); }
    else if InstallFlush(s, s') { InstallFlushOk(s, s'); }
    else if job, pieces :| StartCompaction(s, s', job, pieces) { StartCompactionOk(s, s', job, pieces); }
    else if size :| EmitTable(s, s', size) { EmitTableOk(s, s', size); }
    else if InstallCompaction(s, s') { InstallCompactionOk(s, s'); }
    else if junk :| StrayTable(s, s', junk) { StrayTableOk(s, s', junk); }
    else if SkipNumber(s, s') { SkipNumberOk(s, s'); }
    else if WriteManifest(s, s') { WriteManifestOk(s, s'); }
    else if n :| DropTable(s, s', n) { DropTableOk(s, s', n); }
    else if n :| DropLog(s, s', n) { DropLogOk(s, s', n); }
    else if FinishCommit(s, s') { FinishCommitOk(s, s'); }
    else if WorkerFails(s, s') { WorkerFailsOk(s, s'); }
  }

  lemma WorkerIsUp(s: State, s': State)
    requires WorkerStep(s, s')
    ensures s.mode.Up? && s'.mode.Up?
  {
    hide Install, AddNewest, AllSurvivors, IsCompaction, IsCut, DeadTable, Removed;
  }
}
