/** The invariant across crashes and every stage of recovery. */
module EngineRecovery {
  import opened ByteStrings
  import opened InternalKeys
  import opened Views
  import opened Scans
  import opened Compactions
  import opened Versions
  import opened Trees
  import GC = GroupCommit
  import opened Disks
  import opened Engine
  import opened EngineInv
  import opened EngineFront
  import opened EngineBack

  lemma HistoryDown(s: State, s': State)
    requires !s.mode.Up? && !s'.mode.Up? && s'.past == s.past
    ensures History(s') == History(s)
  {
  }

  lemma CrashOk(s: State, s': State)
    requires Ok(s) && Crash(s, s')
    ensures Ok(s') && History(s') == History(s)
  {
    hide DiskOk, CoreOk;
  }

  lemma LoadOk(s: State, s': State, mem: seq<Entry>, next: nat, lastSeq: nat)
    requires Ok(s) && Load(s, s', mem, next, lastSeq)
    ensures Ok(s')
  {
    hide History, Sorted, SetOf, LogsSet, TreeOk, LogsOk, Covers, SeqUnique;
    HistoryDown(s, s');
  }

  // ------------------------------------------------------- replaying into L0

  /** The newest replayed version of a key is at least as new as anything in the tables. */
  lemma ReplayedNewer(mem: seq<Entry>, lastSeq: nat, V: set<Entry>)
    requires Sorted(mem) && ReplayNewest(SetOf(mem), V) && SeqLe(SetOf(mem), lastSeq)
    ensures Newer(SetOf(AllSurvivors(mem, lastSeq, false)), V)
  {
    hide Sorted, AllSurvivors;
    SortedAscends(mem);
    var out := AllSurvivors(mem, lastSeq, false);
    forall i | 0 <= i < |mem| ensures mem[i].sn <= lastSeq { assert mem[i] in SetOf(mem); }
    forall x, y | x in SetOf(out) && y in V && x.key == y.key ensures x.sn >= y.sn {
      SurvivorsSubset(mem, lastSeq, false, x);
      assert x in SetOf(mem);
      assert HasFrom(SetOf(mem), x.key, y.sn);
      var z :| z in SetOf(mem) && z.key == x.key && z.sn >= y.sn;
      OnlyNewestSurvive(mem, lastSeq, x, z);
    }
  }

  /** Tables and replayed logs together show the latest state of every key. */
  lemma TablesPlusReplay(v: Version, R: set<Entry>, H: set<Entry>, key: Bytes, sn: nat)
    requires SeqUnique(H) && R <= H && VersionSet(v) <= H && Covers(v, R, H) && SeqLe(H, sn)
    requires ReplayCurrent(R, H, sn) && ReplayNewest(R, VersionSet(v))
    ensures View(VersionSet(v) + R, key, sn) == View(H, key, sn)
  {
    hide View, VersionSet, Covers;
    var E := VersionSet(v) + R;
    if NoKey(R, key) {
      CoversAt(v, R, H, key, sn);
      ViewDropsOthers(VersionSet(v), E, key, sn);
    } else {
      var x :| x in R && x.key == key;
      assert Hit(x, key, sn);
      NewestExists(R, key, sn);
      var e :| IsNewest(e, R, key, sn);
      forall y | y in E && Hit(y, key, sn) ensures y.sn <= e.sn {
        if y !in R {
          assert HasFrom(R, x.key, y.sn);
          var z :| z in R && z.key == x.key && z.sn >= y.sn;
          assert Hit(z, key, sn);
        }
      }
      ViewIs(E, key, sn, e);
      ViewIs(R, key, sn, e);
    }
  }

  lemma CoversAt(v: Version, R: set<Entry>, H: set<Entry>, key: Bytes, sn: nat)
    requires Covers(v, R, H) && SeqLe(H, sn) && NoKey(R, key)
    ensures View(VersionSet(v), key, sn) == View(H, key, sn)
  {
  }

  lemma ReplayCovers(mem: seq<Entry>, lastSeq: nat, v: Version, f: File, H: set<Entry>)
    requires |v| == NUM_LEVELS && Sorted(mem) && f.entries == AllSurvivors(mem, lastSeq, false)
    requires SeqUnique(H) && SetOf(mem) <= H && VersionSet(v) <= H && Covers(v, SetOf(mem), H) && SeqLe(H, lastSeq)
    requires ReplayCurrent(SetOf(mem), H, lastSeq) && ReplayNewest(SetOf(mem), VersionSet(v))
    ensures FullyCovers(AddNewest(v, f), H)
  {
    hide View, VersionSet, AllSurvivors, Sorted, AddNewest, SetOf, ReplayCurrent, ReplayNewest;
    AddNewestFiles(v, f);
    SortedAscends(mem);
    var w := AddNewest(v, f);
    forall key: Bytes, sn: nat | SeqLe(H, sn) && NoKey({}, key)
      ensures View(VersionSet(w), key, sn) == View(H, key, sn)
    {
      ReplayOutputIn(mem, lastSeq, f, H);
      calc {
        View(VersionSet(w), key, sn);
        { ViewTop(VersionSet(w), key, sn, lastSeq); }
        View(VersionSet(w), key, lastSeq);
        View(VersionSet(v) + SetOf(f.entries), key, lastSeq);
        { CollapseKeepsView(mem, lastSeq, false, VersionSet(v), key, lastSeq); }
        View(VersionSet(v) + SetOf(mem), key, lastSeq);
        { TablesPlusReplay(v, SetOf(mem), H, key, lastSeq); }
        View(H, key, lastSeq);
        { ViewTop(H, key, sn, lastSeq); }
        View(H, key, sn);
      }
    }
  }

  lemma ReplayOutputIn(mem: seq<Entry>, lastSeq: nat, f: File, H: set<Entry>)
    requires f.entries == AllSurvivors(mem, lastSeq, false) && SetOf(mem) <= H
    ensures FileSet(f) <= H
  {
    hide AllSurvivors;
    forall x | x in FileSet(f) ensures x in H {
      SurvivorsSubset(mem, lastSeq, false, x);
      assert x in SetOf(mem);
    }
  }

  lemma ReplayTree(d: Disk, H: set<Entry>, mem: seq<Entry>, lastSeq: nat, f: File, next: nat)
    requires DiskOk(d, H) && Sorted(mem) && mem != [] && SetOf(mem) == Replay(d) && SeqLe(H, lastSeq)
    requires NumbersOk(d, next)
    requires |d.manifest.version| == NUM_LEVELS && f.number == next && f.size > 0
    requires f.entries == AllSurvivors(mem, lastSeq, false)
    requires ReplayNewest(Replay(d), VersionSet(d.manifest.version)) && Replay(d) <= H
    ensures TreeOk(AddNewest(d.manifest.version, f), H, d.tables[next := f.entries])
  {
    hide VersionOk, LevelsOrdered, VersionSet, AllSurvivors, Sorted, AddNewest, LogsOk, Covers, LogsSet, ReplayNewest,
      Counted, IsNewNumber, NotNamed;
    var v := d.manifest.version;
    FreshNumber(v, d.tables, next);
    FlushOutput(mem, lastSeq);
    assert FileOk(f);
    AddNewestOk(v, f);
    ReplayedNewer(mem, lastSeq, VersionSet(v));
    AddNewestOrder(v, f);
    ReplayOutputIn(mem, lastSeq, f, H);
    AddNewestFiles(v, f);
    HoldPut(v, d.tables, next, f.entries);
  }

  lemma ReplayInHistory(d: Disk, H: set<Entry>)
    requires DiskOk(d, H)
    ensures Replay(d) <= H && SeqUnique(H) && SeqUnique(Replay(d)) && |d.manifest.version| == NUM_LEVELS
  {
    hide LevelsOrdered, VersionSet, TablesHold, Covers, LogsOrdered, LogsSet, ById, LevelSorted, LevelZero, Counted;
    LogsFrom(d.logs, d.manifest.log);
  }

  lemma BuildReplayedOk(s: State, s': State, size: nat)
    requires Ok(s) && BuildReplayed(s, s', size) && GoodReplay(s.disk, History(s), s.mode.lastSeq)
    ensures Ok(s')
  {
    hide History, Sorted, SetOf, LogsSet, DiskOk, SeqUnique, TreeOk, FullyCovers, AddNewest, AllSurvivors, Replay,
      SeqLe, ReplayCurrent, ReplayNewest;
    HistoryDown(s, s');
    var d, H, mem, next, last := s.disk, History(s), s.mode.mem, s.mode.next, s.mode.lastSeq;
    var f := File(next, size, AllSurvivors(mem, last, false));
    ReplayInHistory(d, H);
    ReplayTree(d, H, mem, last, f, next);
    DiskParts(d, H);
    ReplayCovers(mem, last, s.mode.v, f, H);
    ManifestHeld(d, H);
    FreshNumber(d.manifest.version, d.tables, next);
    DiskTable(d, H, next, f.entries);
  }

  // --------------------------------------- what a sound replay cannot do without

  lemma {:induction false} FirstVersionKept(es: seq<Entry>, i: nat, floor: nat) returns (y: Entry)
    requires i < |es|
    ensures y in AllSurvivors(es, floor, false) && y.key == es[i].key
    decreases i
  {
    if i > 0 && es[i - 1].key == es[i].key {
      y := FirstVersionKept(es, i - 1, floor);
    } else {
      y := es[i];
      assert Kept(es, i, floor, false);
      SurvivorsAre(es, |es|, floor, false, y);
    }
  }

  /** A table in front of the others is newer than they are. */
  lemma FrontIsNewer(v: Version, f: File)
    requires |v| == NUM_LEVELS && LevelsOrdered(AddNewest(v, f))
    ensures Newer(FileSet(f), VersionSet(v))
  {
    var w := AddNewest(v, f);
    forall x, y | x in FileSet(f) && y in VersionSet(v) && x.key == y.key ensures x.sn >= y.sn {
      var l: nat, g: File :| l < |v| && g in v[l] && y in g.entries;
      assert w[0][0] == f && f in w[0] && x in LevelSet(w[0]);
      if l == 0 {
        var j :| 0 <= j < |v[0]| && v[0][j] == g;
        assert w[0][j + 1] == g && Newer(FileSet(w[0][0]), FileSet(w[0][j + 1]));
      } else {
        assert w[l] == v[l] && y in LevelSet(w[l]) && Newer(LevelSet(w[0]), LevelSet(w[l]));
      }
    }
  }

  /** With the replayed table in front, a replayed key reads as in the replayed logs. */
  lemma ReplayedReads(mem: seq<Entry>, V: set<Entry>, f: File, x: Entry, sn: nat)
    requires Sorted(mem) && f.entries == AllSurvivors(mem, sn, false) && SeqUnique(V + SetOf(mem))
    requires SeqLe(SetOf(mem), sn) && x in SetOf(mem) && Newer(FileSet(f), V)
    ensures View(V + FileSet(f), x.key, sn) == View(SetOf(mem), x.key, sn)
    ensures forall y :: y in V && y.key == x.key ==> HasFrom(SetOf(mem), x.key, y.sn)
  {
    hide View, AllSurvivors, Sorted;
    var i :| 0 <= i < |mem| && mem[i] == x;
    var k := FirstVersionKept(mem, i, sn);
    SurvivorsSubset(mem, sn, false, k);
    assert k in FileSet(f) && k in SetOf(mem) && Hit(k, x.key, sn);
    forall z | z in FileSet(f) ensures z in SetOf(mem) { SurvivorsSubset(mem, sn, false, z); }
    NewestExists(FileSet(f), x.key, sn);
    var e :| IsNewest(e, FileSet(f), x.key, sn);
    ViewIs(FileSet(f), x.key, sn, e);
    ViewIs(V + FileSet(f), x.key, sn, e);
    SortedAscends(mem);
    assert {} + SetOf(mem) == SetOf(mem) && {} + SetOf(f.entries) == FileSet(f);
    CollapseKeepsView(mem, sn, false, {}, x.key, sn);
  }

  /** If the tables with the replayed one in front are in order and show the history, the
      replay was a good one. */
  lemma GoodReplayNeeded(d: Disk, H: set<Entry>, mem: seq<Entry>, f: File, sn: nat)
    requires DiskOk(d, H) && Sorted(mem) && SetOf(mem) == Replay(d) && SeqLe(H, sn)
    requires |d.manifest.version| == NUM_LEVELS && f.entries == AllSurvivors(mem, sn, false)
    requires LevelsOrdered(AddNewest(d.manifest.version, f))
    requires forall key :: View(VersionSet(AddNewest(d.manifest.version, f)), key, sn) == View(H, key, sn)
    ensures GoodReplay(d, H, sn)
  {
    hide View, AllSurvivors, Sorted, DiskOk, LogsSet, LevelsOrdered, VersionSet, AddNewest, Newer, SeqUnique, HasFrom;
    var v, R := d.manifest.version, Replay(d);
    ReplayInHistory(d, H);
    DiskParts(d, H);
    UniqueWithin(VersionSet(v) + R, H);
    FrontIsNewer(v, f);
    AddNewestFiles(v, f);
    forall x | x in R
      ensures View(R, x.key, sn) == View(H, x.key, sn)
      ensures forall y :: y in VersionSet(v) && y.key == x.key ==> HasFrom(R, x.key, y.sn)
    {
      ReplayedReads(mem, VersionSet(v), f, x, sn);
    }
  }

  lemma UniqueWithin(E: set<Entry>, H: set<Entry>)
    requires E <= H && SeqUnique(H)
    ensures SeqUnique(E)
  {
  }

  lemma FullyCoversAt(v: Version, H: set<Entry>, sn: nat)
    requires FullyCovers(v, H) && SeqLe(H, sn)
    ensures forall key :: View(VersionSet(v), key, sn) == View(H, key, sn)
  {
    hide View, VersionSet;
    assert forall key :: NoKey({}, key);
  }

  lemma BuildReplayedNeeds(s: State, s': State, size: nat)
    requires Ok(s) && BuildReplayed(s, s', size) && Ok(s')
    ensures GoodReplay(s.disk, History(s), s.mode.lastSeq)
  {
    hide History, Sorted, SetOf, LogsSet, DiskOk, VersionOk, LevelsOrdered, VersionSet, TablesHold, FullyCovers,
      AddNewest, AllSurvivors, GoodReplay, NumbersOk;
    HistoryDown(s, s');
    var H, last := History(s), s.mode.lastSeq;
    FullyCoversAt(s'.mode.v, H, last);
    GoodReplayNeeded(s.disk, H, s.mode.mem, File(s.mode.next, size, AllSurvivors(s.mode.mem, last, false)), last);
  }

  // ------------------------------------------------------------- a blind load

  lemma BlindLoadOk(s: State, s': State)
    requires Ok(s) && BlindLoad(s, s')
    ensures Ok(s') <==> NothingHidden(s.disk)
  {
    hide History, LogsSet, TreeOk, LogsOk, Covers, SeqUnique, DiskOk, CoreOk;
    HistoryDown(s, s');
    NothingReplayed();
    if NothingHidden(s.disk) { AllCountedOnDisk(s.disk, History(s)); }
  }

  lemma AllCountedOnDisk(d: Disk, H: set<Entry>)
    requires DiskOk(d, H) && Replay(d) == {}
    ensures SeqLe(H, d.manifest.lastSeq)
  {
    hide TreeOk, LogsOk, Covers, SeqUnique;
  }

  lemma DiskParts(d: Disk, H: set<Entry>)
    requires DiskOk(d, H)
    ensures SeqUnique(H) && VersionSet(d.manifest.version) <= H && Covers(d.manifest.version, Replay(d), H)
    ensures VersionOk(d.manifest.version) && LevelsOrdered(d.manifest.version)
    ensures TablesHold(d.manifest.version, d.tables)
  {
    hide LevelsOrdered, VersionSet, TablesHold, Covers, LogsOk, LogsSet, VersionOk, SeqUnique;
  }

  lemma StrayReplayTableOk(s: State, s': State, junk: seq<Entry>)
    requires Ok(s) && StrayReplayTable(s, s', junk)
    ensures Ok(s')
  {
    hide History, Sorted, SetOf, LogsSet, DiskOk, SeqLe, NotNamed, IsNewNumber;
    HistoryDown(s, s');
    ManifestHeld(s.disk, History(s));
    FreshNumber(s.disk.manifest.version, s.disk.tables, s.mode.next);
    DiskTable(s.disk, History(s), s.mode.next, junk);
  }

  // ------------------------------------------------------------------ commits

  lemma CoversMore(v: Version, R: set<Entry>, H: set<Entry>)
    requires FullyCovers(v, H)
    ensures Covers(v, R, H)
  {
    hide View;
    assert forall key :: NoKey({}, key);
  }

  lemma CountedAll(R: set<Entry>, H: set<Entry>, lastSeq: nat)
    requires SeqLe(H, lastSeq)
    ensures Counted(R, H, lastSeq)
  {
  }

  lemma CommitReplayedOk(s: State, s': State)
    requires Ok(s) && CommitReplayed(s, s')
    ensures Ok(s')
  {
    hide History, LogsSet, DiskOk, TreeOk, FullyCovers, Covers, Counted, SeqLe;
    HistoryDown(s, s');
    var R, H := LogsSet(s.disk.logs, 0), History(s);
    CoversMore(s.mode.v, R, H);
    CountedAll(R, H, s.mode.lastSeq);
    DiskManifest(s.disk, H, Manifest(s.mode.v, 0, s.mode.next, s.mode.lastSeq));
  }

  lemma OpenLogOk(s: State, s': State)
    requires Ok(s) && OpenLog(s, s')
    ensures Ok(s')
  {
    hide History, LogsSet, DiskOk, Covers, SeqLe, SetOf, Sorted;
    HistoryDown(s, s');
    var d, H, n := s.disk, History(s), s.mode.next;
    DiskNewLog(d, H, n, false);
    assert LogSet(LogFile([], false)) == {};
    if s.mode.Replayed? {
      DiskParts(d, H);
      NothingReplayed();
    }
  }

  lemma StrayOpenLogOk(s: State, s': State, torn: bool)
    requires Ok(s) && StrayOpenLog(s, s', torn)
    ensures Ok(s')
  {
    hide History, LogsSet, DiskOk, FullyCovers, SeqLe, SetOf, Sorted;
    HistoryDown(s, s');
    DiskNewLog(s.disk, History(s), s.mode.next, torn);
  }

  lemma NothingReplayed()
    ensures SetOf([]) == {}
  {
  }

  lemma NewestLogSet(log: nat, logs: map<nat, LogFile>)
    requires NewestLog(log, logs)
    ensures LogsSet(logs, log) == {}
  {
    hide LogSet;
  }

  lemma CommitOpenedOk(s: State, s': State)
    requires Ok(s) && CommitOpened(s, s')
    ensures Ok(s')
  {
    hide History, LogsSet, TreeOk, FullyCovers, Covers, Counted, SeqLe, NewestLog, LogsOk, SeqUnique;
    HistoryDown(s, s');
    var d, H, log := s.disk, History(s), s.mode.log;
    CoversMore(s.mode.v, LogsSet(d.logs, log), H);
    CountedAll(LogsSet(d.logs, log), H, s.mode.lastSeq);
    NewestLogSet(log, d.logs);
    DiskManifest(d, H, Manifest(s.mode.v, log, s.mode.next, s.mode.lastSeq));
  }

  lemma RecoveryDropTableOk(s: State, s': State, n: nat)
    requires Ok(s) && RecoveryDropTable(s, s', n)
    ensures Ok(s')
  {
    hide History, LogsSet, DiskOk, FullyCovers, SeqLe, NewestLog, NotNamed;
    HistoryDown(s, s');
    DiskTable(s.disk, History(s), n, []);
  }

  lemma RecoveryDropLogOk(s: State, s': State, n: nat)
    requires Ok(s) && RecoveryDropLog(s, s', n)
    ensures Ok(s')
  {
    hide History, LogsSet, DiskOk, FullyCovers, SeqLe, LogSet;
    HistoryDown(s, s');
    NewestLogSet(s.mode.log, s.disk.logs);
    DiskDeleteLog(s.disk, History(s), n);
  }

  // ------------------------------------------------------------------- go up

  lemma FreshMem(v: Version, H: set<Entry>)
    requires LevelsOrdered(v) && VersionSet(v) <= H
    ensures MemOk([], [], v, H)
  {
    hide LevelsOrdered, VersionSet;
  }

  lemma FreshTree(v: Version, H: set<Entry>, tables: map<nat, seq<Entry>>, lastSeq: nat)
    requires VersionOk(v) && TablesHold(v, tables) && VersionSet(v) <= H && SeqLe(H, lastSeq)
    ensures TreeUp(v, lastSeq, tables)
  {
    hide VersionOk, TablesHold, VersionSet;
    forall f, g, x | f in Files(v) && g in Files(v) && f != g && x in f.entries && x in g.entries
      ensures x.sn <= lastSeq
    {
      InVersionSet(v, f, x);
    }
  }

  lemma FreshView(v: Version, H: set<Entry>, lastSeq: nat, held: set<Entry>)
    requires FullyCovers(v, H) && SeqLe(H, lastSeq) && held == VersionSet(v)
    ensures ViewOk(held, H, lastSeq)
  {
    hide View, VersionSet;
    forall key: Bytes, sn: nat | sn >= lastSeq ensures View(held, key, sn) == View(H, key, sn) {
      assert SeqLe(H, sn) && NoKey({}, key);
    }
  }

  lemma FreshLogs(log: nat, logs: map<nat, LogFile>)
    requires NewestLog(log, logs)
    ensures LogsMatch([], [], 0, log, {}, logs) && ShapeOk(AtRest, [], 0, log, logs, log)
  {
    hide LogSet;
    assert SetOf([]) == {};
  }

  lemma FreshHistory(s: State, lastSeq: nat)
    requires !s.mode.Up? && SeqUnique(History(s)) && SeqLe(History(s), lastSeq)
    ensures HistSet(s.past, []) == History(s) && HistoryOk(s.past, GC.Open(lastSeq))
  {
    assert s.past + RecordGroups([]) == s.past;
  }

  lemma GoUpOk(s: State, s': State)
    requires Ok(s) && GoUp(s, s')
    ensures Ok(s') && History(s') == History(s)
  {
    hide GC.Inv, History, HistSet, HistoryOk, LogsSet, DiskOk, FullyCovers, NewestLog, SeqLe, LogsMatch,
      ShapeOk, MemOk, TreeUp, ViewOk;
    var d, H, c := s.disk, History(s), s'.mode.core;
    var v, log, lastSeq := s.mode.v, s.mode.log, s.mode.lastSeq;
    DiskParts(d, H);
    FreshHistory(s, lastSeq);
    HistoryUp(s');
    GC.OpenOk(lastSeq);
    FreshLogs(log, d.logs);
    FreshMem(v, H);
    FloorIs(c, lastSeq);
    FreshTree(v, H, d.tables, lastSeq);
    HeldNothing(c);
    FreshView(v, H, lastSeq, Held(c));
    assert H - H == {};
  }

  lemma HeldNothing(c: Core)
    requires c.mem == [] && c.imm == []
    ensures Held(c) == VersionSet(c.v)
  {
  }

  /** What a step of recovery must not do unseen: put replayed logs in front that hold
      overwritten values, or go on without having listed the directory when it holds logs to
      replay or files with numbers to come. */
  ghost predicate Sound(s: State, s': State) {
    && (forall size :: BuildReplayed(s, s', size) ==> GoodReplay(s.disk, History(s), s.mode.lastSeq))
    && (BlindLoad(s, s') ==> NothingHidden(s.disk))
  }

  ghost predicate SoundNext(s: State, s': State) {
    Next(s, s') && Sound(s, s')
  }

  lemma RecoveryStepOk(s: State, s': State)
    requires Ok(s) && RecoveryStep(s, s') && Sound(s, s')
    ensures Ok(s')
  {
    hide Ok, GoodReplay, NothingHidden, Load, BlindLoad, BuildReplayed, StrayReplayTable, CommitReplayed, OpenLog,
      StrayOpenLog, CommitOpened, RecoveryDropTable, RecoveryDropLog, GoUp;
    if mem, next, lastSeq :| Load(s, s', mem, next, lastSeq) { LoadOk(s, s', mem, next, lastSeq); }
    else if BlindLoad(s, s') { BlindLoadOk(s, s'); }
    else if size :| BuildReplayed(s, s', size) { BuildReplayedOk(s, s', size); }
    else if junk :| StrayReplayTable(s, s', junk) { StrayReplayTableOk(s, s', junk); }
    else if CommitReplayed(s, s') { CommitReplayedOk(s, s'); }
    else if OpenLog(s, s') { OpenLogOk(s, s'); }
    else if torn :| StrayOpenLog(s, s', torn) { StrayOpenLogOk(s, s', torn); }
    else if CommitOpened(s, s') { CommitOpenedOk(s, s'); }
    else if n :| RecoveryDropTable(s, s', n) { RecoveryDropTableOk(s, s', n); }
    else if n :| RecoveryDropLog(s, s', n) { RecoveryDropLogOk(s, s', n); }
    else if GoUp(s, s') { GoUpOk(s, s'); }
  }

  /** Every step keeps the invariant, unless it is a recovery step that is not sound. */
  lemma NextOk(s: State, s': State)
    requires Ok(s) && Next(s, s') && Sound(s, s')
    ensures Ok(s')
  {
    hide Ok, Sound, ForegroundStep, WorkerStep, RecoveryStep, Crash;
    if ForegroundStep(s, s') { ForegroundOk(s, s'); }
    else if WorkerStep(s, s') { WorkerStepOk(s, s'); }
    else if RecoveryStep(s, s') { RecoveryStepOk(s, s'); }
    else { CrashOk(s, s'); }
  }

  /** A step keeps the invariant exactly when it is sound. */
  lemma NextOkIff(s: State, s': State)
    requires Ok(s) && Next(s, s')
    ensures Ok(s') <==> Sound(s, s')
  {
    hide Ok, Next, BlindLoad, GoodReplay, NothingHidden, AddNewest, AllSurvivors, History;
    if Sound(s, s') { NextOk(s, s'); }
    if Ok(s') {
      forall size | BuildReplayed(s, s', size) ensures GoodReplay(s.disk, History(s), s.mode.lastSeq) {
        BuildReplayedNeeds(s, s', size);
      }
      if BlindLoad(s, s') { BlindLoadOk(s, s'); }
    }
  }

  /** While the database is up there is nothing of the kind. */
  lemma UpIsSound(s: State, s': State)
    requires s.mode.Up?
    ensures Sound(s, s')
  {
  }

  lemma EmptyTree(v: Version)
    requires |v| == NUM_LEVELS && forall l :: 0 <= l < NUM_LEVELS ==> v[l] == []
    ensures VersionOk(v) && LevelsOrdered(v) && VersionSet(v) == {} && TablesHold(v, map[])
  {
    hide FileOk, Newer;
    NoFilesInOrder();
    forall l | 0 <= l < NUM_LEVELS ensures LevelSet(v[l]) == {} { }
  }

  lemma NoFilesInOrder()
    ensures forall A: set<Entry> :: Newer({}, A)
  {
  }

  lemma EmptyDisk(d: Disk)
    requires VersionOk(d.manifest.version) && LevelsOrdered(d.manifest.version) && VersionSet(d.manifest.version) == {}
    requires TablesHold(d.manifest.version, d.tables) && d.logs == map[]
    ensures DiskOk(d, {})
  {
    hide VersionOk, LevelsOrdered, VersionSet, TablesHold, View;
    assert LogsSet(d.logs, 0) == {} && Replay(d) == {};
  }

  lemma InitOk()
    ensures Ok(Init())
  {
    hide DiskOk, VersionOk, LevelsOrdered, VersionSet, TablesHold;
    var s := Init();
    assert GroupsSet([]) == {};
    EmptyTree(s.disk.manifest.version);
    EmptyDisk(s.disk);
  }
}
