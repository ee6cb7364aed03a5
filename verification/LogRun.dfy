/** The bytes of the log files over whole runs: whatever the engine does, and wherever writes
    are cut short, every log file is a log in the format of src/wal.cpp, cut somewhere, and
    holds just the whole groups the engine says it does. */
module LogRuns {
  import opened ByteStrings
  import opened InternalKeys
  import opened Scans
  import opened Compactions
  import opened Trees
  import GC = GroupCommit
  import opened MemTables
  import opened Disks
  import opened Engine
  import opened EngineInv
  import opened EngineFront
  import opened EngineBack
  import opened EngineRecovery
  import opened EngineTheorems
  import opened EngineSnapshots
  import opened EngineCleanup
  import opened LogBytes
  import Wal

  /** The log files, and how long the one being written was when its last append ended. */
  datatype LogFiles = LogFiles(files: map<nat, Bytes>, mark: nat)

  /** The record the leader is about to append. */
  function InFlight(q: GC.Queue): Wal.Batch
    requires q.phase.Reserved? && q.phase.n <= |q.queue|
  {
    Wal.Batch(q.phase.base, GC.AllOps(q.queue[..q.phase.n]))
  }

  /** A group that has been formed fits into one record. */
  ghost predicate GroupFits(s: State) {
    s.mode.Up? && s.mode.core.q.phase.Reserved? && s.mode.core.q.phase.n <= |s.mode.core.q.queue| ==>
      Wal.Fits(InFlight(s.mode.core.q))
  }

  // ------------------------------------------------------ what a step writes

  /** The first `n` bytes of the record are in the active log: all of them, or not. */
  ghost predicate Wrote(s: State, f: LogFiles, f': LogFiles, n: nat, whole: bool) {
    s.mode.Up? && var c := s.mode.core;
    && c.q.phase.Reserved? && c.q.phase.n <= |c.q.queue| && c.log in f.files && f.mark <= |f.files[c.log]|
    && var e := Wal.EncodeRecord(InFlight(c.q));
       && n <= |e| && whole == (n == |e|)
       && f'.files == f.files[c.log := f.files[c.log][..f.mark] + e[..n]]
       && f'.mark == if whole then f.mark + n else f.mark
  }

  /** A new log gets its header. */
  ghost predicate Created(f: LogFiles, f': LogFiles, n: nat) {
    f' == LogFiles(f.files[n := Wal.HEADER], |Wal.HEADER|)
  }

  /** A new log gets part of its header, or all of it and then an error. */
  ghost predicate LeftBehind(f: LogFiles, f': LogFiles, n: nat, torn: bool) {
    exists k: nat ::
      k <= |Wal.HEADER| && torn == (0 < k < |Wal.HEADER|) && f' == f.(files := f.files[n := Wal.HEADER[..k]])
  }

  ghost predicate FrontWrites(s: State, s': State, f: LogFiles, f': LogFiles) {
    || (TearLog(s, s') && exists n :: n > 0 && Wrote(s, f, f', n, false))
    || ((exists q' :: LogGroup(s, s', q')) && exists n :: Wrote(s, f, f', n, true))
    || (Rotate(s, s') && Created(f, f', s.mode.core.next))
    || exists torn :: StrayLog(s, s', torn) && LeftBehind(f, f', s.mode.core.next, torn)
  }

  ghost predicate RecoveryWrites(s: State, s': State, f: LogFiles, f': LogFiles) {
    || (OpenLog(s, s') && Created(f, f', s.mode.next))
    || exists torn :: StrayOpenLog(s, s', torn) && LeftBehind(f, f', s.mode.next, torn)
  }

  ghost predicate Unlinks(s: State, s': State, f: LogFiles, f': LogFiles) {
    exists n :: (DropLog(s, s', n) || RecoveryDropLog(s, s', n)) && f' == f.(files := f.files - {n})
  }

  /** What a step does to the bytes of the logs. */
  ghost predicate FileStep(s: State, s': State, f: LogFiles, f': LogFiles) {
    || FrontWrites(s, s', f, f') || RecoveryWrites(s, s', f, f') || Unlinks(s, s', f, f')
    || (s'.disk.logs == s.disk.logs && f' == f)
  }

  // ------------------------------------------------------------- the invariant

  /** The log that may be appended to. */
  function ActiveLog(s: State): Option<nat> {
    if s.mode.Up? && !s.mode.core.q.broken then Some(s.mode.core.log)
    else if s.mode.Opened? || s.mode.Committed? then Some(s.mode.log)
    else None
  }

  /** Up to the mark the log is whole. */
  ghost predicate Writable(f: LogFiles, logs: map<nat, LogFile>, log: nat) {
    && log in f.files && log in logs && f.mark <= |f.files[log]|
    && StoresWhole(f.files[log][..f.mark], logs[log].(torn := false))
  }

  ghost predicate Stored(s: State, f: LogFiles) {
    FilesStore(f.files, s.disk.logs) && (ActiveLog(s).Some? ==> Writable(f, s.disk.logs, ActiveLog(s).value))
  }

  lemma FilesPut(files: map<nat, Bytes>, logs: map<nat, LogFile>, n: nat, buf: Bytes, l: LogFile)
    requires FilesStore(files, logs) && Stores(buf, l)
    ensures FilesStore(files[n := buf], logs[n := l])
  {
    hide Stores;
  }

  lemma FilesDrop(files: map<nat, Bytes>, logs: map<nat, LogFile>, n: nat)
    requires FilesStore(files, logs)
    ensures FilesStore(files - {n}, logs - {n})
  {
    hide Stores;
  }

  /** While a group is being appended nothing has failed yet. */
  lemma AppendingActive(s: State)
    requires s.mode.Up? && s.mode.core.q.phase.Reserved? && Ok(s)
    ensures ActiveLog(s) == Some(s.mode.core.log) && s.mode.core.q.phase.n <= |s.mode.core.q.queue|
  {
    hide Ok, GC.WellNumbered, GC.OutcomeOk, GC.WritersOf, GC.ServedWriters, GC.LoggedWriters, GC.TotalCount, GC.AllOps;
    QueueInv(s);
    BrokenFacts(s.mode.core.q);
  }

  // ------------------------------------------------------------ step by step

  lemma TornStored(s: State, s': State, f: LogFiles, f': LogFiles, n: nat)
    requires TearLog(s, s') && n > 0 && Wrote(s, f, f', n, false) && Stored(s, f) && GroupFits(s) && Ok(s)
    ensures Stored(s', f')
  {
    hide Ok, Stores, StoresWhole, FilesStore, Wal.EncodeRecord, Wal.Fits, InFlight;
    AppendingActive(s);
    var c, logs := s.mode.core, s.disk.logs;
    var buf, l := f.files[c.log][..f.mark], logs[c.log];
    AppendStores(buf, l.(torn := false), InFlight(c.q), n);
    FilesPut(f.files, logs, c.log, f'.files[c.log], l.(torn := true));
    assert f'.files[c.log][..f.mark] == buf;
  }

  lemma LoggedStored(s: State, s': State, q': GC.Queue, f: LogFiles, f': LogFiles, n: nat)
    requires LogGroup(s, s', q') && Wrote(s, f, f', n, true) && Stored(s, f) && GroupFits(s) && Ok(s)
    ensures Stored(s', f')
  {
    hide Ok, Stores, StoresWhole, FilesStore, Wal.EncodeRecord, Wal.Fits, Number, GC.AllOps;
    AppendingActive(s);
    var c, logs := s.mode.core, s.disk.logs;
    var buf, l, r := f.files[c.log][..f.mark], logs[c.log], InFlight(s.mode.core.q);
    AppendStores(buf, l.(torn := false), r, n);
    assert RecordEntries(LastRecord(q')) == Number(r.base, r.ops);
    var l' := s'.disk.logs[c.log];
    WholeIsStored(f'.files[c.log], l');
    FilesPut(f.files, logs, c.log, f'.files[c.log], l');
    assert f'.files[c.log][..f'.mark] == f'.files[c.log];
  }

  /** A log that is there for the first time, and whole. */
  lemma CreatedStored(f: LogFiles, f': LogFiles, logs: map<nat, LogFile>, n: nat)
    requires Created(f, f', n) && FilesStore(f.files, logs)
    ensures FilesStore(f'.files, logs[n := LogFile([], false)]) && Writable(f', logs[n := LogFile([], false)], n)
  {
    hide Stores, StoresWhole, FilesStore;
    FreshStores(|Wal.HEADER|);
    assert Wal.HEADER[..|Wal.HEADER|] == Wal.HEADER;
    FilesPut(f.files, logs, n, Wal.HEADER, LogFile([], false));
  }

  lemma LeftStored(f: LogFiles, f': LogFiles, logs: map<nat, LogFile>, n: nat, torn: bool)
    requires LeftBehind(f, f', n, torn) && FilesStore(f.files, logs)
    ensures FilesStore(f'.files, logs[n := LogFile([], torn)])
  {
    hide Stores, StoresWhole, FilesStore;
    var k: nat :| k <= |Wal.HEADER| && torn == (0 < k < |Wal.HEADER|)
                  && f' == f.(files := f.files[n := Wal.HEADER[..k]]);
    FreshStores(k);
    FilesPut(f.files, logs, n, Wal.HEADER[..k], LogFile([], torn));
  }

  lemma NextLogNew(s: State)
    requires Ok(s)
    ensures s.mode.Up? ==> s.mode.core.next !in s.disk.logs && s.mode.core.log < s.mode.core.next
    ensures s.mode.Flushed? || s.mode.Replayed? ==> s.mode.next !in s.disk.logs
  {
    hide GC.Inv, HistoryOk, AppliedOk, MemOk, TreeUp, ViewOk, ShapeOk, WorkerOk, DiskOk, History, FullyCovers, LogSet,
      LogsSet;
  }

  lemma FrontStored(s: State, s': State, f: LogFiles, f': LogFiles)
    requires FrontWrites(s, s', f, f') && Stored(s, f) && GroupFits(s) && Ok(s)
    ensures Stored(s', f')
  {
    hide Ok, FilesStore, Writable, LeftBehind, Created, Wrote, TearLog, LogGroup, GroupFits;
    if TearLog(s, s') && exists n :: n > 0 && Wrote(s, f, f', n, false) {
      var n :| n > 0 && Wrote(s, f, f', n, false);
      TornStored(s, s', f, f', n);
    } else if q', n :| LogGroup(s, s', q') && Wrote(s, f, f', n, true) {
      LoggedStored(s, s', q', f, f', n);
    } else {
      NewLogStored(s, s', f, f');
    }
  }

  lemma NewLogStored(s: State, s': State, f: LogFiles, f': LogFiles)
    requires Stored(s, f) && Ok(s)
    requires (Rotate(s, s') && Created(f, f', s.mode.core.next))
      || exists torn :: StrayLog(s, s', torn) && LeftBehind(f, f', s.mode.core.next, torn)
    ensures Stored(s', f')
  {
    hide Ok, FilesStore, Writable, LeftBehind, Created;
    NextLogNew(s);
    var c, logs := s.mode.core, s.disk.logs;
    if Rotate(s, s') && Created(f, f', c.next) {
      CreatedStored(f, f', logs, c.next);
    } else {
      var torn :| StrayLog(s, s', torn) && LeftBehind(f, f', c.next, torn);
      LeftStored(f, f', logs, c.next, torn);
      if !c.q.broken { StillWritable(f, f', logs, c.next, torn, c.log); }
    }
  }

  lemma StillWritable(f: LogFiles, f': LogFiles, logs: map<nat, LogFile>, n: nat, torn: bool, log: nat)
    requires LeftBehind(f, f', n, torn) && Writable(f, logs, log) && log != n
    ensures Writable(f', logs[n := LogFile([], torn)], log)
  {
    hide StoresWhole;
  }

  lemma RecoveryStored(s: State, s': State, f: LogFiles, f': LogFiles)
    requires RecoveryWrites(s, s', f, f') && Stored(s, f) && Ok(s)
    ensures Stored(s', f')
  {
    hide Ok, FilesStore, Writable, LeftBehind, Created;
    NextLogNew(s);
    if OpenLog(s, s') && Created(f, f', s.mode.next) {
      CreatedStored(f, f', s.disk.logs, s.mode.next);
    } else {
      var torn :| StrayOpenLog(s, s', torn) && LeftBehind(f, f', s.mode.next, torn);
      LeftStored(f, f', s.disk.logs, s.mode.next, torn);
    }
  }

  lemma UnlinkStored(s: State, s': State, f: LogFiles, f': LogFiles)
    requires Unlinks(s, s', f, f') && Stored(s, f) && Ok(s)
    ensures Stored(s', f')
  {
    hide Ok, FilesStore, StoresWhole;
    var n :| (DropLog(s, s', n) || RecoveryDropLog(s, s', n)) && f' == f.(files := f.files - {n});
    FilesDrop(f.files, s.disk.logs, n);
    if s.mode.Up? { LogNumbersFacts(s); }
  }

  // -------------------------------------------------- steps that write nothing

  lemma StaysBroken(s: State, s': State)
    requires Next(s, s') && s.mode.Up? && s'.mode.Up? && s.mode.core.q.broken
    ensures s'.mode.core.q.broken
  {
    hide Next, GC.IsGroup, GC.AllOps, GC.Outcomes, RecordEntries;
    UpSteps(s, s');
  }

  lemma SameActiveUp(s: State, s': State)
    requires Next(s, s') && s.mode.Up? && s'.mode.Up? && s'.disk.logs == s.disk.logs && Ok(s)
    ensures s'.mode.core.log == s.mode.core.log
  {
    hide ForegroundStep, WorkerStep, RecoveryStep, Ok;
    NextLogNew(s);
    if ForegroundStep(s, s') {
      FrontSameLog(s, s');
    } else if WorkerStep(s, s') {
      BackSameLog(s, s');
    } else {
      NotRecovery(s, s');
    }
  }

  lemma FrontSameLog(s: State, s': State)
    requires ForegroundStep(s, s') && s.mode.Up? && s'.mode.Up?
    ensures s'.mode.core.log == s.mode.core.log || (Rotate(s, s') && s.mode.core.next in s'.disk.logs)
  {
    hide QuietQueueStep, GC.Append, GC.Apply, RecordEntries, Add;
  }

  lemma BackSameLog(s: State, s': State)
    requires WorkerStep(s, s') && s.mode.Up? && s'.mode.Up?
    ensures s'.mode.core.log == s.mode.core.log
  {
    hide Install, AddNewest, AllSurvivors, IsCompaction, IsCut, DeadTable, Removed, Output, NoneEmpty, Floor;
  }

  lemma SameActiveDown(s: State, s': State)
    requires RecoveryStep(s, s') && s'.disk.logs == s.disk.logs && Ok(s)
    ensures ActiveLog(s') == ActiveLog(s) || ActiveLog(s').None?
  {
    hide IsMaxSeq, Bumped, Sorted, AddNewest, AllSurvivors, DeadTable, History, Ok, SetOf, LogsSet;
    NextLogNew(s);
  }

  lemma SameActive(s: State, s': State)
    requires Next(s, s') && s'.disk.logs == s.disk.logs && Ok(s)
    ensures ActiveLog(s') == ActiveLog(s) || ActiveLog(s').None?
  {
    hide Ok, ForegroundStep, WorkerStep, RecoveryStep, Groups;
    if s.mode.Up? && s'.mode.Up? {
      SameActiveUp(s, s');
      if s.mode.core.q.broken { StaysBroken(s, s'); }
    } else if RecoveryStep(s, s') {
      SameActiveDown(s, s');
    } else {
      NotUpIsCrash(s, s');
    }
  }

  lemma NotUpIsCrash(s: State, s': State)
    requires Next(s, s') && !(s.mode.Up? && s'.mode.Up?) && !RecoveryStep(s, s')
    ensures Crash(s, s')
  {
    hide ForegroundStep, WorkerStep, RecoveryStep, Crash;
    if ForegroundStep(s, s') { FrontIsUp(s, s'); }
    if WorkerStep(s, s') { WorkerIsUp(s, s'); }
  }

  lemma StoredStep(s: State, s': State, f: LogFiles, f': LogFiles)
    requires Next(s, s') && FileStep(s, s', f, f') && Stored(s, f) && GroupFits(s) && Ok(s)
    ensures Stored(s', f')
  {
    hide Ok, Next, FrontWrites, RecoveryWrites, Unlinks, FilesStore, Writable, GroupFits, ActiveLog;
    if FrontWrites(s, s', f, f') {
      FrontStored(s, s', f, f');
    } else if RecoveryWrites(s, s', f, f') {
      RecoveryStored(s, s', f, f');
    } else if Unlinks(s, s', f, f') {
      UnlinkStored(s, s', f, f');
    } else {
      SameActive(s, s');
    }
  }

  // ----------------------------------------------------------------- over runs

  /** The bytes of the logs along a run. */
  ghost predicate FileRun(run: seq<State>, fs: seq<LogFiles>) {
    && |fs| == |run| > 0 && fs[0] == LogFiles(map[], 0)
    && forall i :: 0 < i < |run| ==> FileStep(run[i - 1], run[i], fs[i - 1], fs[i])
  }

  lemma {:induction false} RunStored(run: seq<State>, fs: seq<LogFiles>, i: nat)
    requires SoundRun(run) && FileRun(run, fs) && i < |run| && forall k :: 0 <= k < |run| ==> GroupFits(run[k])
    ensures Stored(run[i], fs[i])
    decreases i
  {
    hide Ok, Next, FileStep, Stored, Sound, GroupFits, Init;
    if i == 0 {
      InitStored();
    } else {
      RunStored(run, fs, i - 1);
      RunOk(run, i - 1);
      StoredStep(run[i - 1], run[i], fs[i - 1], fs[i]);
    }
  }

  lemma InitStored()
    ensures Stored(Init(), LogFiles(map[], 0))
  {
  }

  /** In every state of every run whose groups fit their records, whatever part of each record
      a write got out before it failed or the process died, replaying a log file delivers the
      groups the engine has in that log, never an error, and never part of a group. */
  lemma LogsAlwaysReplay(run: seq<State>, fs: seq<LogFiles>, i: nat)
    requires SoundRun(run) && FileRun(run, fs) && i < |run| && forall k :: 0 <= k < |run| ==> GroupFits(run[k])
    ensures FilesStore(fs[i].files, run[i].disk.logs)
    ensures forall n :: n in run[i].disk.logs ==>
      n in fs[i].files
      && Wal.ReplayBytes(fs[i].files[n]) == Wal.Replayed(run[i].disk.logs[n].groups, run[i].disk.logs[n].torn, None)
  {
    hide SoundRun, FileRun, GroupFits, Stores, Writable, ActiveLog, Wal.ReplayBytes;
    FileLengths(run, fs);
    RunStored(run, fs, i);
    var files, logs := fs[i].files, run[i].disk.logs;
    forall n | n in logs
      ensures n in files && Wal.ReplayBytes(files[n]) == Wal.Replayed(logs[n].groups, logs[n].torn, None)
    {
      assert n in files.Keys;
      StoredReplays(files[n], logs[n]);
    }
  }

  lemma FileLengths(run: seq<State>, fs: seq<LogFiles>)
    requires FileRun(run, fs)
    ensures |fs| == |run|
  {
    hide FileStep;
  }

  // ------------------------------------------------------- there are such bytes

  /** Some bytes go with a step. */
  ghost predicate CanWrite(s: State, s': State, f: LogFiles) {
    exists f' :: FileStep(s, s', f, f')
  }

  lemma FrontCanWrite(s: State, s': State, f: LogFiles)
    requires ForegroundStep(s, s') && Stored(s, f) && Ok(s)
    ensures CanWrite(s, s', f)
  {
    hide Ok, FilesStore, QueueOnly, ApplyOne, RecoveryWrites, Unlinks, Wal.EncodeRecord, InFlight;
    if TearLog(s, s') {
      AppendingActive(s);
      var f' := WriteSome(s, f, 1);
      assert FileStep(s, s', f, f');
    } else if q' :| LogGroup(s, s', q') {
      AppendingActive(s);
      var f' := WriteSome(s, f, |Wal.EncodeRecord(InFlight(s.mode.core.q))|);
      assert FileStep(s, s', f, f');
    } else if Rotate(s, s') {
      assert FileStep(s, s', f, LogFiles(f.files[s.mode.core.next := Wal.HEADER], |Wal.HEADER|));
    } else if torn :| StrayLog(s, s', torn) {
      LeaveSome(f, s.mode.core.next, torn);
      var f' :| LeftBehind(f, f', s.mode.core.next, torn);
      assert FileStep(s, s', f, f');
    } else {
      OtherFront(s, s');
      assert FileStep(s, s', f, f);
    }
  }

  lemma WriteSome(s: State, f: LogFiles, n: nat) returns (f': LogFiles)
    requires s.mode.Up? && s.mode.core.q.phase.Reserved? && s.mode.core.q.phase.n <= |s.mode.core.q.queue|
    requires Stored(s, f) && 0 < n <= |Wal.EncodeRecord(InFlight(s.mode.core.q))| && Ok(s)
    ensures Wrote(s, f, f', n, n == |Wal.EncodeRecord(InFlight(s.mode.core.q))|)
  {
    hide Ok, FilesStore, StoresWhole, Wal.EncodeRecord, InFlight;
    AppendingActive(s);
    var c, e := s.mode.core, Wal.EncodeRecord(InFlight(s.mode.core.q));
    f' := LogFiles(f.files[c.log := f.files[c.log][..f.mark] + e[..n]], if n == |e| then f.mark + n else f.mark);
  }

  lemma LeaveSome(f: LogFiles, n: nat, torn: bool)
    ensures exists f' :: LeftBehind(f, f', n, torn)
  {
    var k := if torn then 1 else 0;
    assert |Wal.HEADER| == 8;
    assert LeftBehind(f, f.(files := f.files[n := Wal.HEADER[..k]]), n, torn);
  }

  lemma OtherFront(s: State, s': State)
    requires ForegroundStep(s, s') && !TearLog(s, s') && !(exists q' :: LogGroup(s, s', q')) && !Rotate(s, s')
    requires !exists torn :: StrayLog(s, s', torn)
    ensures s'.disk.logs == s.disk.logs
  {
    hide QuietQueueStep, GC.Apply, RecordEntries, Add, TearLog, LogGroup, Rotate, StrayLog;
  }

  lemma BackCanWrite(s: State, s': State, f: LogFiles)
    requires WorkerStep(s, s')
    ensures CanWrite(s, s', f)
  {
    hide WorkerStep, FrontWrites, RecoveryWrites, DropLog, RecoveryDropLog, History;
    BackContents(s, s');
    if n :| DropLog(s, s', n) {
      assert FileStep(s, s', f, f.(files := f.files - {n}));
    } else {
      assert FileStep(s, s', f, f);
    }
  }

  lemma RecoveryCanWrite(s: State, s': State, f: LogFiles)
    requires RecoveryStep(s, s')
    ensures CanWrite(s, s', f)
  {
    hide RecoveryStep, FrontWrites, DropLog, RecoveryDropLog, OpenLog, StrayOpenLog, GoUp, LeftBehind;
    if GoUp(s, s') {
      GoUpHistory(s, s');
      assert FileStep(s, s', f, f);
    } else {
      RecoveryLogChange(s, s');
      if n :| RecoveryDropLog(s, s', n) {
        assert FileStep(s, s', f, f.(files := f.files - {n}));
      } else if OpenLog(s, s') {
        OpensAt(s, s');
        assert FileStep(s, s', f, LogFiles(f.files[s.mode.next := Wal.HEADER], |Wal.HEADER|));
      } else if torn :| StrayOpenLog(s, s', torn) {
        OpensAt(s, s');
        LeaveSome(f, s.mode.next, torn);
        var f' :| LeftBehind(f, f', s.mode.next, torn);
        assert FileStep(s, s', f, f');
      } else {
        assert FileStep(s, s', f, f);
      }
    }
  }

  lemma OpensAt(s: State, s': State)
    requires OpenLog(s, s') || exists torn :: StrayOpenLog(s, s', torn)
    ensures s.mode.Flushed? || s.mode.Replayed?
  {
  }

  lemma StepCanWrite(s: State, s': State, f: LogFiles)
    requires Next(s, s') && Stored(s, f) && Ok(s)
    ensures CanWrite(s, s', f)
  {
    hide Ok, ForegroundStep, WorkerStep, RecoveryStep, Stored, FrontWrites, RecoveryWrites, Unlinks;
    if ForegroundStep(s, s') {
      FrontCanWrite(s, s', f);
    } else if WorkerStep(s, s') {
      BackCanWrite(s, s', f);
    } else if RecoveryStep(s, s') {
      RecoveryCanWrite(s, s', f);
    } else {
      assert FileStep(s, s', f, f);
    }
  }

  /** For every run there are bytes that go with it. */
  lemma {:induction false} FilesExist(run: seq<State>) returns (fs: seq<LogFiles>)
    requires SoundRun(run) && forall k :: 0 <= k < |run| ==> GroupFits(run[k])
    ensures FileRun(run, fs) && forall i :: 0 <= i < |run| ==> FilesStore(fs[i].files, run[i].disk.logs)
    decreases |run|
  {
    hide Ok, Next, FileStep, Sound, GroupFits, Init, FilesStore, ActiveLog, Writable;
    var n := |run| - 1;
    if n == 0 {
      fs := [LogFiles(map[], 0)];
    } else {
      fs := FilesExist(run[..n]);
      RunStored(run[..n], fs, n - 1);
      RunOk(run, n - 1);
      StepCanWrite(run[n - 1], run[n], fs[n - 1]);
      var f :| FileStep(run[n - 1], run[n], fs[n - 1], f);
      fs := fs + [f];
    }
    forall i | 0 <= i < |run| ensures FilesStore(fs[i].files, run[i].disk.logs) { RunStored(run, fs, i); }
  }
}
