/** Obsolete logs. Nothing checks whether a log was really unlinked, and a log left behind is
    replayed again once a recovery commits a manifest that names log 0. Two ways of unlinking
    leave every later recovery sound: oldest first, and completely. */
module EngineCleanup {
  import opened InternalKeys
  import opened Views
  import opened Scans
  import opened Compactions
  import opened Versions
  import opened Trees
  import GC = GroupCommit
  import opened MemTables
  import opened Disks
  import opened Engine
  import opened EngineInv
  import opened EngineFront
  import opened EngineBack
  import opened EngineRecovery
  import opened EngineTheorems

  // -------------------------------------------- logs with the newest of their keys

  lemma {:induction false} LatestExists(H: set<Entry>, x: Entry) returns (y: Entry)
    requires x in H
    ensures Latest(y, H) && y.key == x.key && y.sn >= x.sn
    decreases H
  {
    var rest := H - {x};
    if z :| z in rest && z.key == x.key && z.sn >= x.sn {
      y := LatestExists(rest, z);
    } else {
      y := x;
      assert forall z :: z in H && z.key == x.key ==> z == x || z in rest;
    }
  }

  lemma NewestReplayed(R: set<Entry>, H: set<Entry>, x: Entry, y: Entry) returns (z: Entry)
    requires x in R && y in H && y.key == x.key && Fresh(R, H)
    ensures z in R && z.key == x.key && z.sn >= y.sn
  {
    z := LatestExists(H, y);
  }

  /** Logs that hold the newest version of each of their keys replay to a current state. */
  lemma FreshIsCurrent(R: set<Entry>, H: set<Entry>, sn: nat)
    requires SeqUnique(H) && R <= H && Fresh(R, H) && SeqLe(H, sn)
    ensures ReplayCurrent(R, H, sn)
  {
    hide View, Fresh;
    forall x | x in R ensures View(R, x.key, sn) == View(H, x.key, sn) {
      assert Hit(x, x.key, sn);
      NewestExists(R, x.key, sn);
      var e :| IsNewest(e, R, x.key, sn);
      forall y | y in H && Hit(y, x.key, sn) ensures y.sn <= e.sn {
        var z := NewestReplayed(R, H, x, y);
        assert Hit(z, x.key, sn);
      }
      ViewIs(R, x.key, sn, e);
      ViewIs(H, x.key, sn, e);
    }
  }

  lemma FreshIsNewest(R: set<Entry>, H: set<Entry>, V: set<Entry>)
    requires V <= H && Fresh(R, H)
    ensures ReplayNewest(R, V)
  {
    hide Fresh;
    forall x, y | x in R && y in V && y.key == x.key ensures HasFrom(R, x.key, y.sn) {
      var z := NewestReplayed(R, H, x, y);
    }
  }

  ghost predicate AllFresh(s: State) {
    Fresh(LogsSet(s.disk.logs, 0), History(s))
  }

  lemma LogFacts(s: State)
    requires Ok(s)
    ensures LogsOrdered(s.disk.logs) && LogsSet(s.disk.logs, 0) <= History(s)
    ensures SeqUnique(History(s)) && VersionSet(s.disk.manifest.version) <= History(s)
  {
    hide RecoveryOk, CoreOk, VersionOk, LevelsOrdered, TablesHold, VersionSet, LogsOrdered, Covers, Counted, Fresh,
      History, SeqUnique;
  }

  lemma FreshIsGood(s: State, sn: nat)
    requires Ok(s) && AllFresh(s) && SeqLe(History(s), sn)
    ensures GoodReplay(s.disk, History(s), sn)
  {
    hide Ok, Fresh, LogsOrdered, LogsSet, VersionSet, ReplayCurrent, ReplayNewest, History, SeqUnique, SeqLe;
    LogFacts(s);
    SuffixFresh(s.disk.logs, s.disk.manifest.log, History(s));
    LogsFrom(s.disk.logs, s.disk.manifest.log);
    FreshIsCurrent(Replay(s.disk), History(s), sn);
    FreshIsNewest(Replay(s.disk), History(s), VersionSet(s.disk.manifest.version));
  }

  // ---------------------------------------------------------- steps of an open db

  /** The step leaves the contents of the logs and the history as they are. */
  ghost predicate SameContents(s: State, s': State) {
    LogsSet(s'.disk.logs, 0) == LogsSet(s.disk.logs, 0) && History(s') == History(s)
  }

  lemma QueueContents(s: State, s': State, q': GC.Queue)
    requires QueueOnly(s, s', q')
    ensures SameContents(s, s')
  {
    hide QuietQueueStep, RecordGroups, GroupsSet;
    QuietSameLog(s.mode.core.q, q');
    SameLogSame(s.mode.core.q.records, q'.records);
  }

  lemma ApplyContents(s: State, s': State, q': GC.Queue)
    requires ApplyOne(s, s', q')
    ensures SameContents(s, s')
  {
    hide RecordGroups, RecordEntries, Add;
    assert q'.records == s.mode.core.q.records;
  }

  lemma LogContents(s: State, s': State)
    requires TearLog(s, s') || Rotate(s, s') || exists torn :: StrayLog(s, s', torn)
    ensures SameContents(s, s')
  {
    hide LogsSet, RecordGroups, GroupsSet;
    var logs, c := s.disk.logs, s.mode.core;
    if TearLog(s, s') {
      TornSets(logs, c.log, true, 0);
    } else if Rotate(s, s') {
      if c.next !in logs { NewLogSets(logs, c.next, false, 0); }
    } else {
      var torn :| StrayLog(s, s', torn);
      NewLogSets(logs, c.next, torn, 0);
    }
  }

  lemma FrontContents(s: State, s': State)
    requires ForegroundStep(s, s')
    ensures SameContents(s, s') || exists q' :: LogGroup(s, s', q')
  {
    hide QueueOnly, TearLog, LogGroup, ApplyOne, Rotate, StrayLog, SameContents;
    if q' :| QueueOnly(s, s', q') {
      QueueContents(s, s', q');
    } else if q' :| ApplyOne(s, s', q') {
      ApplyContents(s, s', q');
    } else if q' :| LogGroup(s, s', q') {
    } else if TearLog(s, s') || Rotate(s, s') || exists torn :: StrayLog(s, s', torn) {
      LogContents(s, s');
    } else {
      SnapshotContents(s, s');
    }
  }

  lemma SnapshotContents(s: State, s': State)
    requires (exists id :: TakeSnapshot(s, s', id)) || exists id :: ReleaseSnapshot(s, s', id)
    ensures SameContents(s, s')
  {
  }

  /** A logged group is the newest version of its keys. */
  lemma LoggedFresh(s: State, s': State, q': GC.Queue)
    requires LogGroup(s, s', q') && AllFresh(s) && Ok(s)
    ensures AllFresh(s')
  {
    hide GC.Inv, GC.Append, HistSet, HistoryOk, MemOk, DiskOk, ViewOk, TreeUp, AppliedOk, WorkerOk, LogsSet,
      LogsMatch, RecordEntries, NumbersOk, ShapeOk, History, Fresh, LogsOrdered;
    HistoryUp(s);
    HistoryUp(s');
    LogFacts(s);
    NewGroup(s.past, s.mode.core.q, q');
    LoggedHistory(s.past, s.mode.core.q, q');
    var g := RecordEntries(LastRecord(q'));
    AppendSets(s.disk.logs, s.mode.core.log, g, false, 0);
    FreshGrows(LogsSet(s.disk.logs, 0), History(s), SetOf(g));
  }

  lemma FrontFresh(s: State, s': State)
    requires ForegroundStep(s, s') && AllFresh(s) && Ok(s)
    ensures AllFresh(s')
  {
    hide Ok, ForegroundStep, LogGroup, Fresh, History, LogsSet;
    FrontContents(s, s');
    if !SameContents(s, s') {
      var q' :| LogGroup(s, s', q');
      LoggedFresh(s, s', q');
    }
  }

  lemma BackContents(s: State, s': State)
    requires WorkerStep(s, s')
    ensures History(s') == History(s) && (s'.disk.logs == s.disk.logs || exists n :: DropLog(s, s', n))
  {
    hide Install, AddNewest, AllSurvivors, IsCompaction, IsCut, DeadTable, Removed, Output, NoneEmpty, Floor,
      RecordGroups, GroupsSet;
  }

  // ---------------------------------------------------------- steps of recovery

  /** What recovery does to the logs. */
  lemma RecoveryLogChange(s: State, s': State)
    requires RecoveryStep(s, s') && !GoUp(s, s')
    ensures !s.mode.Up? && !s'.mode.Up? && s'.past == s.past
    ensures
      || s'.disk.logs == s.disk.logs || (exists n :: RecoveryDropLog(s, s', n)) || OpenLog(s, s')
      || exists torn :: StrayOpenLog(s, s', torn)
  {
    hide IsMaxSeq, Bumped, Sorted, AddNewest, DeadTable, History, AllSurvivors;
  }

  lemma OpenedContents(s: State, s': State)
    requires OpenLog(s, s') || exists torn :: StrayOpenLog(s, s', torn)
    ensures LogsSet(s'.disk.logs, 0) == LogsSet(s.disk.logs, 0)
    ensures LogsSet(s'.disk.logs, s.disk.manifest.log) == LogsSet(s.disk.logs, s.disk.manifest.log)
  {
    hide LogsSet;
    if s.mode.next !in s.disk.logs {
      var torn := s'.disk.logs[s.mode.next].torn;
      NewLogSets(s.disk.logs, s.mode.next, torn, 0);
      NewLogSets(s.disk.logs, s.mode.next, torn, s.disk.manifest.log);
    }
  }

  lemma GoUpHistory(s: State, s': State)
    requires GoUp(s, s')
    ensures History(s') == History(s) && s'.disk == s.disk
  {
    assert RecordGroups([]) == [];
    assert Groups(s') == s.past == Groups(s);
  }

  lemma CrashGroups(s: State, s': State)
    requires Crash(s, s')
    ensures Groups(s') == Groups(s)
  {
  }

  lemma CrashFresh(s: State, s': State)
    requires Crash(s, s') && AllFresh(s)
    ensures AllFresh(s')
  {
    hide Groups, GroupsSet;
    CrashGroups(s, s');
  }

  // ------------------------------------------------------- unlinked oldest first

  /** A log that goes is the oldest one that holds any group, or holds none itself. */
  ghost predicate OldestFirst(s: State, s': State) {
    forall m, n :: n in s.disk.logs && n !in s'.disk.logs && m in s.disk.logs && m < n ==>
      s.disk.logs[m].groups == [] || s.disk.logs[n].groups == []
  }

  /** A recovery either lists the directory or misses nothing by not doing so. */
  ghost predicate Listed(s: State, s': State) {
    BlindLoad(s, s') ==> NothingHidden(s.disk)
  }

  lemma DroppedFresh(s: State, s': State, n: nat)
    requires s'.disk.logs == s.disk.logs - {n} && n in s.disk.logs && OldestFirst(s, s')
    requires History(s') == History(s) && AllFresh(s) && Ok(s)
    ensures AllFresh(s')
  {
    hide Ok, Fresh, LogsOrdered, LogsSet, History;
    LogFacts(s);
    FreshAfterDelete(s.disk.logs, History(s), n);
  }

  lemma BackFresh(s: State, s': State)
    requires WorkerStep(s, s') && OldestFirst(s, s') && AllFresh(s) && Ok(s)
    ensures AllFresh(s')
  {
    hide Ok, WorkerStep, Fresh, History, LogsSet, OldestFirst;
    BackContents(s, s');
    if s'.disk.logs != s.disk.logs {
      var n :| DropLog(s, s', n);
      DroppedFresh(s, s', n);
    }
  }

  lemma OrderlyRecovery(s: State, s': State)
    requires RecoveryStep(s, s') && !GoUp(s, s') && OldestFirst(s, s') && AllFresh(s) && Ok(s)
    ensures AllFresh(s')
  {
    hide Ok, RecoveryStep, GoUp, Fresh, LogsOrdered, LogsSet, OpenLog, StrayOpenLog, History, OldestFirst;
    RecoveryLogChange(s, s');
    HistoryDown(s, s');
    if n :| RecoveryDropLog(s, s', n) {
      DroppedFresh(s, s', n);
    } else if s'.disk.logs != s.disk.logs {
      OpenedContents(s, s');
    }
  }

  lemma FreshIsSound(s: State, s': State)
    requires Ok(s) && Listed(s, s') && AllFresh(s)
    ensures Sound(s, s')
  {
    hide DiskOk, AllFresh, GoodReplay, NothingHidden, History, BlindLoad, CoreOk, AddNewest, AllSurvivors, NumbersOk,
      SetOf, Sorted, LogsSet, SeqLe, FullyCovers;
    forall size | BuildReplayed(s, s', size) ensures GoodReplay(s.disk, History(s), s.mode.lastSeq) {
      FreshIsGood(s, s.mode.lastSeq);
    }
  }

  lemma OrderlyStep(s: State, s': State)
    requires Next(s, s') && OldestFirst(s, s') && Listed(s, s') && AllFresh(s) && Ok(s)
    ensures Sound(s, s') && Ok(s') && AllFresh(s')
  {
    hide Ok, Sound, Listed, ForegroundStep, WorkerStep, RecoveryStep, GoUp, Crash, OldestFirst, Fresh, LogsSet, History;
    FreshIsSound(s, s');
    NextOk(s, s');
    if ForegroundStep(s, s') {
      FrontFresh(s, s');
    } else if WorkerStep(s, s') {
      BackFresh(s, s');
    } else if GoUp(s, s') {
      GoUpHistory(s, s');
    } else if RecoveryStep(s, s') {
      OrderlyRecovery(s, s');
    } else {
      CrashFresh(s, s');
    }
  }

  ghost predicate OrderlyRun(run: seq<State>) {
    IsExecution(run) && forall k :: 0 < k < |run| ==> OldestFirst(run[k - 1], run[k]) && Listed(run[k - 1], run[k])
  }

  lemma {:induction false} OrderlyPrefix(run: seq<State>, i: nat)
    requires OrderlyRun(run) && i < |run|
    ensures Ok(run[i]) && AllFresh(run[i]) && (i > 0 ==> Sound(run[i - 1], run[i]))
    decreases i
  {
    hide Ok, AllFresh, Next, OldestFirst, Listed, Sound, Init;
    if i == 0 {
      InitOk();
      InitFresh();
    } else {
      OrderlyPrefix(run, i - 1);
      OrderlyStep(run[i - 1], run[i]);
    }
  }

  lemma InitFresh()
    ensures AllFresh(Init())
  {
    assert LogsSet(Init().disk.logs, 0) == {};
  }

  /** If no log with groups is ever unlinked while an older one is still there, every recovery
      is sound, and would be from every state in between. */
  lemma OldestFirstIsSound(run: seq<State>)
    requires OrderlyRun(run)
    ensures SoundRun(run)
    ensures forall i, sn :: 0 <= i < |run| && SeqLe(History(run[i]), sn) ==>
      GoodReplay(run[i].disk, History(run[i]), sn)
  {
    hide Ok, Next, AllFresh, Sound, GoodReplay, History, SeqLe, Init, OldestFirst, Listed;
    forall i | 0 < i < |run| ensures Sound(run[i - 1], run[i]) { OrderlyPrefix(run, i); }
    forall i, sn | 0 <= i < |run| && SeqLe(History(run[i]), sn) ensures GoodReplay(run[i].disk, History(run[i]), sn) {
      OrderlyPrefix(run, i);
      FreshIsGood(run[i], sn);
    }
  }

  // -------------------------------------------------------- unlinked completely

  /** A commit finishes, and the database goes up, only once no obsolete log holds a group. */
  ghost predicate Complete(s: State, s': State) {
    FinishCommit(s, s') || GoUp(s, s') ==> NoneStale(s.disk)
  }

  ghost predicate NoneStale(d: Disk) {
    forall n :: n in d.logs && d.logs[n].groups != [] ==> n >= d.manifest.log
  }

  /** How many obsolete logs with groups an open database can see: none, but for the one log
      that the commit under way has made obsolete. */
  ghost predicate FewStale(bg: Worker, d: Disk) {
    match bg
    case Halted => true
    case Committing(keep, _, _, true) =>
      forall m, n ::
        (m in d.logs && n in d.logs && m < keep && n < keep && d.logs[m].groups != [] && d.logs[n].groups != [])
        ==> m == n
    case _ => NoneStale(d)
  }

  ghost predicate Clean(s: State) {
    s.mode.Up? ==> FewStale(s.mode.core.bg, s.disk)
  }

  /** Between the unlinks of a recovery anything may be left, but nothing to replay. */
  ghost predicate Tidy(s: State) {
    AllFresh(s) || (!s.mode.Up? && !s.mode.Built? && Replay(s.disk) == {})
  }

  lemma FrontLogChange(s: State, s': State)
    requires ForegroundStep(s, s')
    ensures s.mode.Up? && s'.mode.Up? && s'.mode.core.bg == s.mode.core.bg && s'.disk.manifest == s.disk.manifest
    ensures forall n :: n in s'.disk.logs && s'.disk.logs[n].groups != [] && n != s.mode.core.log ==>
      n in s.disk.logs && s.disk.logs[n].groups != []
  {
    hide QuietQueueStep, GC.Append, GC.Apply, RecordEntries, Add;
  }

  ghost predicate BusyAlike(bg: Worker, bg': Worker) {
    bg' == bg || bg'.Halted? || (!bg.Halted? && !(bg.Committing? && bg.written) && !(bg'.Committing? && bg'.written))
  }

  lemma BackLogChange(s: State, s': State)
    requires WorkerStep(s, s')
    ensures
      || WriteManifest(s, s') || (exists n :: DropLog(s, s', n)) || FinishCommit(s, s')
      || (s'.disk.logs == s.disk.logs && s'.disk.manifest == s.disk.manifest
        && BusyAlike(s.mode.core.bg, s'.mode.core.bg))
  {
    hide Install, AddNewest, AllSurvivors, IsCompaction, IsCut, DeadTable, Removed, Output, NoneEmpty, Floor;
  }

  lemma LogNumbersFacts(s: State)
    requires Ok(s) && s.mode.Up?
    ensures s.disk.manifest.log <= OldestLiveLog(s.mode.core) <= s.mode.core.log < s.mode.core.next
    ensures s.mode.core.bg.Committing? ==> s.mode.core.bg.log <= OldestLiveLog(s.mode.core)
    ensures s.mode.core.bg.Committing? && s.mode.core.bg.written ==> s.disk.manifest.log == s.mode.core.bg.log
  {
    hide GC.Inv, HistoryOk, AppliedOk, MemOk, TreeUp, ViewOk, ShapeOk, DiskOk, History, Counted, FlushOk, CompactOk,
      LogSet;
  }

  /** The commit point makes at most one log with groups obsolete. */
  lemma WrittenStale(s: State, s': State)
    requires WriteManifest(s, s') && FewStale(s.mode.core.bg, s.disk) && Ok(s)
    ensures FewStale(s'.mode.core.bg, s'.disk)
  {
    hide GC.Inv, HistoryOk, AppliedOk, MemOk, TreeUp, ViewOk, DiskOk, History, Counted, LogsMatch;
  }

  lemma CleanFront(s: State, s': State)
    requires ForegroundStep(s, s') && Clean(s) && Ok(s)
    ensures Clean(s')
  {
    hide Ok, ForegroundStep;
    FrontLogChange(s, s');
    LogNumbersFacts(s);
  }

  lemma CleanBack(s: State, s': State)
    requires WorkerStep(s, s') && Clean(s) && Complete(s, s') && Ok(s)
    ensures Clean(s')
  {
    hide Ok, WorkerStep, GoUp;
    BackLogChange(s, s');
    WorkerIsUp(s, s');
    if WriteManifest(s, s') {
      WrittenStale(s, s');
    } else if n :| DropLog(s, s', n) {
      LogNumbersFacts(s);
    }
  }

  lemma CleanGoUp(s: State, s': State)
    requires GoUp(s, s') && Complete(s, s')
    ensures Clean(s')
  {
  }

  lemma CleanStep(s: State, s': State)
    requires Next(s, s') && Clean(s) && Complete(s, s') && Ok(s)
    ensures Clean(s')
  {
    hide Ok, ForegroundStep, WorkerStep, RecoveryStep, Crash, Complete, GoUp;
    if ForegroundStep(s, s') {
      CleanFront(s, s');
    } else if WorkerStep(s, s') {
      CleanBack(s, s');
    } else if GoUp(s, s') {
      CleanGoUp(s, s');
    } else {
      RecoveryOrCrash(s, s');
    }
  }

  lemma RecoveryOrCrash(s: State, s': State)
    requires Next(s, s') && !ForegroundStep(s, s') && !WorkerStep(s, s') && !GoUp(s, s')
    ensures !s'.mode.Up?
  {
    hide ForegroundStep, WorkerStep, RecoveryStep, GoUp;
    if RecoveryStep(s, s') { RecoveryLogChange(s, s'); }
  }

  lemma OnlyStaleDropped(s: State, s': State, n: nat)
    requires DropLog(s, s', n) && Clean(s)
    ensures OldestFirst(s, s')
  {
  }

  lemma TidyBack(s: State, s': State)
    requires WorkerStep(s, s') && Clean(s) && AllFresh(s) && Ok(s)
    ensures AllFresh(s')
  {
    hide Ok, WorkerStep, Fresh, History, LogsSet, OldestFirst, Clean;
    BackContents(s, s');
    if s'.disk.logs != s.disk.logs {
      var n :| DropLog(s, s', n);
      OnlyStaleDropped(s, s', n);
      DroppedFresh(s, s', n);
    }
  }

  lemma NothingFresh(H: set<Entry>)
    ensures Fresh({}, H)
  {
  }

  lemma NothingStale(d: Disk)
    requires NoneStale(d)
    ensures LogsSet(d.logs, 0) == Replay(d)
  {
    forall x | x in LogsSet(d.logs, 0) ensures x in Replay(d) {
      var n: nat :| n in d.logs && n >= 0 && x in LogSet(d.logs[n]);
    }
  }

  lemma CommittedReplay(s: State)
    requires Ok(s) && s.mode.Committed?
    ensures Replay(s.disk) == {}
  {
    hide DiskOk, FullyCovers, NumbersOk, SeqLe, History, LogSet, LogsSet;
    NewestLogSet(s.mode.log, s.disk.logs);
  }

  lemma TidyGoUp(s: State, s': State)
    requires GoUp(s, s') && Complete(s, s') && Ok(s)
    ensures AllFresh(s')
  {
    hide Ok, History, Fresh, LogsSet, LogSet, NoneStale;
    GoUpHistory(s, s');
    CommittedReplay(s);
    NothingStale(s.disk);
    NothingFresh(History(s));
  }

  lemma DroppedReplay(s: State, s': State, n: nat)
    requires RecoveryDropLog(s, s', n) && Ok(s)
    ensures Replay(s'.disk) == {}
  {
    hide DiskOk, FullyCovers, NumbersOk, SeqLe, History, LogSet, LogsSet;
    NewestLogSet(s.mode.log, s.disk.logs);
    DeletedLogSets(s.disk.logs, n, s.mode.log);
  }

  lemma NoneInMem(mem: seq<Entry>)
    ensures SetOf(mem) == {} ==> mem == []
  {
    if mem != [] { assert mem[0] in SetOf(mem); }
  }

  /** A recovery that found nothing to replay builds no table, and names no other log. */
  lemma NothingReplay(s: State, s': State)
    requires RecoveryStep(s, s') && s'.disk.logs == s.disk.logs && Ok(s)
    requires !s.mode.Built? && Replay(s.disk) == {}
    ensures !s'.mode.Built? && Replay(s'.disk) == {}
  {
    hide DiskOk, FullyCovers, NumbersOk, SeqLe, History, LogSet, LogsSet, Sorted, IsMaxSeq, Bumped, AllSurvivors,
      AddNewest, DeadTable, CoreOk, SetOf;
    if s.mode.Replayed? { NoneInMem(s.mode.mem); }
    if CommitOpened(s, s') { NewestLogSet(s.mode.log, s.disk.logs); }
  }

  lemma TidyRecovery(s: State, s': State)
    requires RecoveryStep(s, s') && !GoUp(s, s') && Tidy(s) && Ok(s)
    ensures Tidy(s')
  {
    hide Ok, RecoveryStep, GoUp, Fresh, LogsOrdered, LogsSet, History;
    RecoveryLogChange(s, s');
    HistoryDown(s, s');
    if n :| RecoveryDropLog(s, s', n) {
      DroppedReplay(s, s', n);
    } else if s'.disk.logs != s.disk.logs {
      OpenedContents(s, s');
    } else if !AllFresh(s) {
      NothingReplay(s, s');
    }
  }

  lemma NoKeysGood(s: State, sn: nat)
    requires Replay(s.disk) == {}
    ensures GoodReplay(s.disk, History(s), sn)
  {
  }

  lemma TidyIsGood(s: State, sn: nat)
    requires Ok(s) && Tidy(s) && SeqLe(History(s), sn)
    ensures GoodReplay(s.disk, History(s), sn)
  {
    hide Ok, AllFresh, GoodReplay, History;
    if AllFresh(s) { FreshIsGood(s, sn); } else { NoKeysGood(s, sn); }
  }

  lemma TidyIsSound(s: State, s': State)
    requires Ok(s) && Listed(s, s') && Tidy(s)
    ensures Sound(s, s')
  {
    hide DiskOk, Tidy, GoodReplay, NothingHidden, History, BlindLoad, CoreOk, AddNewest, AllSurvivors, NumbersOk,
      SetOf, Sorted, LogsSet, SeqLe, FullyCovers;
    forall size | BuildReplayed(s, s', size) ensures GoodReplay(s.disk, History(s), s.mode.lastSeq) {
      TidyIsGood(s, s.mode.lastSeq);
    }
  }

  lemma UpIsFresh(s: State)
    requires Tidy(s) && s.mode.Up?
    ensures AllFresh(s)
  {
  }

  lemma CrashTidy(s: State, s': State)
    requires Crash(s, s') && Tidy(s)
    ensures Tidy(s')
  {
    hide Groups, GroupsSet, LogsSet;
    CrashGroups(s, s');
  }

  lemma TidyStep(s: State, s': State)
    requires Next(s, s') && Clean(s) && Complete(s, s') && Listed(s, s') && Tidy(s) && Ok(s)
    ensures Sound(s, s') && Ok(s') && Tidy(s')
  {
    hide Ok, Sound, Listed, ForegroundStep, WorkerStep, RecoveryStep, GoUp, Crash, Complete, Clean, AllFresh, LogsSet;
    TidyIsSound(s, s');
    NextOk(s, s');
    if ForegroundStep(s, s') {
      FrontIsUp(s, s');
      UpIsFresh(s);
      FrontFresh(s, s');
    } else if WorkerStep(s, s') {
      WorkerIsUp(s, s');
      UpIsFresh(s);
      TidyBack(s, s');
    } else if GoUp(s, s') {
      TidyGoUp(s, s');
    } else if RecoveryStep(s, s') {
      TidyRecovery(s, s');
    } else {
      CrashTidy(s, s');
    }
  }

  ghost predicate CompleteRun(run: seq<State>) {
    IsExecution(run) && forall k :: 0 < k < |run| ==> Complete(run[k - 1], run[k]) && Listed(run[k - 1], run[k])
  }

  lemma {:induction false} CleanPrefix(run: seq<State>, i: nat)
    requires CompleteRun(run) && i < |run|
    ensures Ok(run[i]) && Clean(run[i]) && Tidy(run[i]) && (i > 0 ==> Sound(run[i - 1], run[i]))
    decreases i
  {
    hide Ok, Next, Complete, Listed, FewStale, AllFresh, Sound;
    if i == 0 {
      InitOk();
      InitFresh();
    } else {
      CleanPrefix(run, i - 1);
      hide Tidy, Clean;
      CleanStep(run[i - 1], run[i]);
      TidyStep(run[i - 1], run[i]);
    }
  }

  /** If no obsolete log with groups is left whenever a commit finishes and whenever the
      database goes up, every recovery is sound, and would be from every state in between,
      whatever the order of the unlinks. */
  lemma CompleteIsSound(run: seq<State>)
    requires CompleteRun(run)
    ensures SoundRun(run)
    ensures forall i, sn :: 0 <= i < |run| && SeqLe(History(run[i]), sn) ==>
      GoodReplay(run[i].disk, History(run[i]), sn)
  {
    hide Ok, Next, Tidy, Clean, Sound, GoodReplay, History, SeqLe, Init, Complete, Listed;
    forall i | 0 < i < |run| ensures Sound(run[i - 1], run[i]) { CleanPrefix(run, i); }
    forall i, sn | 0 <= i < |run| && SeqLe(History(run[i]), sn) ensures GoodReplay(run[i].disk, History(run[i]), sn) {
      CleanPrefix(run, i);
      TidyIsGood(run[i], sn);
    }
  }

  // ------------------------------------------------------------ how many logs

  /** The logs from which a recovery would replay anything. */
  ghost function ReplayedLogs(d: Disk): set<nat> {
    set n | n in d.logs && n >= d.manifest.log && d.logs[n].groups != []
  }

  lemma LiveAt(c: Core, d: Disk, more: nat, n: nat)
    requires LiveBut(c.imm, c.immLog, c.log, d.logs, d.manifest.log, more) && n in ReplayedLogs(d)
    ensures n == c.log || (c.imm != [] && n == c.immLog) || n == more
  {
  }

  lemma {:induction false} SubsetSize(a: set<nat>, b: set<nat>)
    requires a <= b
    ensures |a| <= |b|
    decreases b
  {
    if a != {} {
      var x :| x in a;
      SubsetSize(a - {x}, b - {x});
    }
  }

  /** The one log that may be replayed besides the live ones. */
  lemma MoreThanLive(s: State) returns (more: nat)
    requires s.mode.Up? && Ok(s)
    ensures var c := s.mode.core;
      && LiveBut(c.imm, c.immLog, c.log, s.disk.logs, s.disk.manifest.log, more)
      && (more == c.log || (more < OldestLiveLog(c)
        && (c.bg.Halted? || (c.bg.Committing? && !c.bg.written && more < c.bg.log))))
  {
    hide GC.Inv, HistoryOk, AppliedOk, MemOk, TreeUp, ViewOk, DiskOk, History, WorkerOk, LogsMatch, NumbersOk, LiveBut;
    LogNumbersFacts(s);
    var c := s.mode.core;
    more :| LiveBut(c.imm, c.immLog, c.log, s.disk.logs, s.disk.manifest.log, more)
            && (more == c.log || (more < OldestLiveLog(c)
              && (c.bg.Halted? || (c.bg.Committing? && !c.bg.written && more < c.bg.log))));
  }

  /** The log of the immutable memtable would be replayed. */
  lemma ImmReplayed(s: State)
    requires s.mode.Up? && Ok(s) && s.mode.core.imm != []
    ensures s.mode.core.immLog in ReplayedLogs(s.disk) && s.mode.core.immLog < s.mode.core.log
  {
    hide GC.Inv, HistoryOk, AppliedOk, MemOk, TreeUp, ViewOk, DiskOk, History, WorkerOk, ShapeOk, NumbersOk;
    assert s.mode.core.imm[0] in SetOf(s.mode.core.imm);
  }

  /** If an open database dies, at most three logs are replayed; three exactly when both live
      logs hold groups and so does an older one, which is one whose flush was installed and
      not yet committed. */
  lemma FewLogsReplayed(s: State)
    requires s.mode.Up? && Ok(s)
    ensures |ReplayedLogs(s.disk)| <= 3
    ensures var c, R := s.mode.core, ReplayedLogs(s.disk);
      |R| == 3 <==> c.imm != [] && c.log in R && exists n :: n in R && n < c.immLog
    ensures forall n :: n in ReplayedLogs(s.disk) && n < OldestLiveLog(s.mode.core) ==>
      s.mode.core.bg.Halted? || (s.mode.core.bg.Committing? && !s.mode.core.bg.written && n < s.mode.core.bg.log)
  {
    hide Ok, ReplayedLogs, LiveBut;
    var c, R := s.mode.core, ReplayedLogs(s.disk);
    var more := MoreThanLive(s);
    var live: set<nat> := if c.imm != [] then {c.log, c.immLog, more} else {c.log, more};
    forall n: nat | n in R ensures n in live { LiveAt(c, s.disk, more, n); }
    SubsetSize(R, live);
    if c.imm != [] { ImmReplayed(s); }
    if |R| == 3 {
      ThreeOfThree(R, c.log, c.immLog, more);
    } else if n: nat :| n in R && n < c.immLog && c.imm != [] && c.log in R {
      SubsetSize({c.log, c.immLog, n}, R);
    }
  }

  lemma ThreeOfThree(R: set<nat>, a: nat, b: nat, c: nat)
    requires |R| == 3 && R <= {a, b, c}
    ensures a in R && b in R && c in R && a != b && b != c && a != c
  {
    if a !in R || a == b || a == c { SubsetSize(R, {b, c}); }
    else if b !in R || b == c { SubsetSize(R, {a, c}); }
    else if c !in R { SubsetSize(R, {a, b}); }
  }
}
