/** What survives crashes: over every run the logged groups only ever grow at the end,
    whatever was acknowledged stays applied, and a reopened database shows exactly the
    whole groups logged so far. */
module EngineDurability {
  import opened ByteStrings
  import opened InternalKeys
  import opened Views
  import opened Scans
  import opened Compactions
  import opened Versions
  import opened Trees
  import opened WriteBatches
  import GC = GroupCommit
  import opened MemTables
  import opened Disks
  import opened Engine
  import opened EngineInv
  import opened EngineFront
  import opened EngineBack
  import opened EngineRecovery
  import opened EngineTheorems
  import opened EngineSnapshots
  import opened EngineCleanup

  // ------------------------------------------------------------ kinds of step

  lemma RecoverySteps(s: State, s': State)
    requires RecoveryStep(s, s')
    ensures !s.mode.Up? && s'.past == s.past && (s'.mode.Up? ==> GoUp(s, s'))
  {
    hide IsMaxSeq, Bumped, Sorted, AddNewest, DeadTable, History;
  }

  lemma StepKinds(s: State, s': State)
    requires Next(s, s')
    ensures (s.mode.Up? && s'.mode.Up?) || (!s.mode.Up? && RecoveryStep(s, s')) || Crash(s, s')
  {
    hide ForegroundStep, WorkerStep, RecoveryStep, Crash;
    if ForegroundStep(s, s') {
      FrontIsUp(s, s');
    } else if WorkerStep(s, s') {
      WorkerIsUp(s, s');
    } else if RecoveryStep(s, s') {
      RecoverySteps(s, s');
    }
  }

  // --------------------------------------------------------------- the groups

  lemma UpGroups(s: State, s': State)
    requires Next(s, s') && s.mode.Up? && s'.mode.Up?
    ensures Groups(s) <= Groups(s')
  {
    hide Next, QuietQueueStep, RecordEntries;
    UpSteps(s, s');
    var rs, rs' := s.mode.core.q.records, s'.mode.core.q.records;
    if QuietQueueStep(s.mode.core.q, s'.mode.core.q) {
      QuietSameLog(s.mode.core.q, s'.mode.core.q);
      SameLogSame(rs, rs');
    } else if GC.Append(s.mode.core.q, s'.mode.core.q) {
      assert RecordGroups(rs') == RecordGroups(rs) + [RecordEntries(LastRecord(s'.mode.core.q))];
    }
  }

  /** No step, crashes included, loses or changes a logged group. */
  lemma GroupsGrow(s: State, s': State)
    requires Next(s, s')
    ensures Groups(s) <= Groups(s')
  {
    hide Next, RecoveryStep, RecordGroups, History;
    StepKinds(s, s');
    if s.mode.Up? && s'.mode.Up? {
      UpGroups(s, s');
    } else if RecoveryStep(s, s') {
      RecoverySteps(s, s');
    }
  }

  lemma {:induction false} GroupsKept(run: seq<State>, i: nat, j: nat)
    requires IsExecution(run) && i <= j < |run|
    ensures Groups(run[i]) <= Groups(run[j])
    decreases j - i
  {
    hide Next, Init, Groups;
    if i < j {
      GroupsKept(run, i, j - 1);
      GroupsGrow(run[j - 1], run[j]);
    }
  }

  // ------------------------------------------------------ acknowledged writes

  /** Everything acknowledged, and everything from earlier incarnations, is in a memtable
      or a table. */
  ghost predicate Acked(q: GC.Queue, applied: set<Entry>) {
    forall o :: o in q.served && o.status.Ok? && o.record.Some? && o.record.value < |q.records| ==>
      SetOf(RecordEntries(q.records[o.record.value])) <= applied
  }

  ghost predicate Kept(s: State) {
    s.mode.Up? ==> GroupsSet(s.past) <= s.mode.core.applied && Acked(s.mode.core.q, s.mode.core.applied)
  }

  lemma RecordInHistory(past: seq<seq<Entry>>, rs: seq<GC.Record>, k: nat)
    requires k < |rs|
    ensures SetOf(RecordEntries(rs[k])) <= HistSet(past, rs)
  {
    hide RecordEntries;
    assert (past + RecordGroups(rs))[|past| + k] == RecordEntries(rs[k]);
  }

  /** A group that finishes well has reached the memtable in full. */
  lemma FinishedApplied(s: State)
    requires s.mode.Up? && Ok(s) && s.mode.core.q.phase.Finished? && s.mode.core.q.phase.status.Ok?
    ensures s.mode.core.applied == HistSet(s.past, s.mode.core.q.records)
  {
    hide GC.Inv, HistoryOk, LogsMatch, MemOk, TreeUp, ViewOk, NumbersOk, ShapeOk, WorkerOk, DiskOk, History,
      HistSet, RecordEntries;
    var H := HistSet(s.past, s.mode.core.q.records);
    assert H - s.mode.core.applied == {};
    assert forall x :: x in H ==> x in H - s.mode.core.applied || x in s.mode.core.applied;
  }

  lemma AckedRetire(s: State, q': GC.Queue)
    requires s.mode.Up? && GC.Retire(s.mode.core.q, q') && Acked(s.mode.core.q, s.mode.core.applied) && Ok(s)
    ensures Acked(q', s.mode.core.applied)
  {
    hide Ok, RecordEntries, SetOf, HistSet;
    var q := s.mode.core.q;
    forall o | o in q'.served && o.status.Ok? && o.record.Some? && o.record.value < |q'.records|
      ensures SetOf(RecordEntries(q'.records[o.record.value])) <= s.mode.core.applied
    {
      if o !in q.served {
        FinishedApplied(s);
        RecordInHistory(s.past, q'.records, o.record.value);
      }
    }
  }

  lemma OutcomesInLog(s: State)
    requires s.mode.Up? && Ok(s)
    ensures forall o :: o in s.mode.core.q.served ==> GC.OutcomeOk(o, s.mode.core.q.records)
  {
    hide Ok, GC.OutcomeOk, GC.WellNumbered, GC.PhaseOk, GC.WritersOf, GC.LoggedWriters, GC.ServedWriters,
      GC.TotalCount, GC.QueueOk, GC.InFlight;
    QueueInv(s);
  }

  /** Other steps retire nobody and leave earlier records as they are. */
  lemma AckedOther(q: GC.Queue, q': GC.Queue, applied: set<Entry>)
    requires Acked(q, applied) && forall o :: o in q.served ==> GC.OutcomeOk(o, q.records)
    requires q' == q || q' == q.(failed := true) || QuietQueueStep(q, q') || GC.Append(q, q') || GC.Apply(q, q')
    requires !GC.Retire(q, q')
    ensures Acked(q', applied)
  {
    hide SetOf, GC.IsGroup, OpsFit, GC.AllOps, Number;
    forall o | o in q'.served && o.status.Ok? && o.record.Some? && o.record.value < |q'.records|
      ensures SetOf(RecordEntries(q'.records[o.record.value])) <= applied
    {
      assert o in q.served;
      assert RecordEntries(q'.records[o.record.value]) == RecordEntries(q.records[o.record.value]);
    }
  }

  lemma AckedMore(q: GC.Queue, applied: set<Entry>, applied': set<Entry>)
    requires Acked(q, applied) && applied <= applied'
    ensures Acked(q, applied')
  {
    hide SetOf, RecordEntries;
  }

  lemma KeptUp(s: State, s': State)
    requires s.mode.Up? && s'.mode.Up? && Next(s, s') && Ok(s) && Kept(s)
    ensures Kept(s') && s.mode.core.applied <= s'.mode.core.applied
  {
    hide Ok, Next, Acked, QuietQueueStep, GC.Append, GC.Apply, GC.Retire, RecordEntries, GroupsSet;
    UpSteps(s, s');
    var c, c' := s.mode.core, s'.mode.core;
    if GC.Retire(c.q, c'.q) && c'.applied == c.applied {
      AckedRetire(s, c'.q);
    } else {
      OutcomesInLog(s);
      ApplyIsNotRetire(c.q, c'.q);
      AckedOther(c.q, c'.q, c.applied);
      AckedMore(c'.q, c.applied, c'.applied);
    }
  }

  lemma ApplyIsNotRetire(q: GC.Queue, q': GC.Queue)
    ensures !(GC.Apply(q, q') && GC.Retire(q, q'))
  {
  }

  lemma KeptStep(s: State, s': State)
    requires Ok(s) && Kept(s) && Next(s, s')
    ensures Kept(s')
  {
    hide Ok, Next, RecoveryStep, RecordEntries, SetOf;
    StepKinds(s, s');
    if s.mode.Up? && s'.mode.Up? {
      KeptUp(s, s');
    } else if RecoveryStep(s, s') {
      RecoverySteps(s, s');
    }
  }

  lemma {:induction false} RunKept(run: seq<State>, i: nat)
    requires SoundRun(run) && i < |run|
    ensures Kept(run[i])
    decreases i
  {
    hide Ok, Next;
    if i > 0 {
      RunKept(run, i - 1);
      RunOk(run, i - 1);
      hide Kept;
      KeptStep(run[i - 1], run[i]);
    }
  }

  /** Entries that once were readable or acknowledged stay so. */
  ghost predicate Secured(s: State, E: set<Entry>) {
    E <= History(s) && (s.mode.Up? ==> E <= s.mode.core.applied)
  }

  lemma SecuredStep(s: State, s': State, E: set<Entry>)
    requires Ok(s) && Kept(s) && Next(s, s') && Secured(s, E)
    ensures Secured(s', E)
  {
    hide Ok, Next, RecoveryStep, Kept, GroupsSet, RecordGroups;
    StepKinds(s, s');
    GroupsGrow(s, s');
    HistoryGrows(s, s');
    if s.mode.Up? && s'.mode.Up? {
      KeptUp(s, s');
    } else if RecoveryStep(s, s') {
      RecoverySteps(s, s');
    }
  }

  lemma HistoryGrows(s: State, s': State)
    requires Groups(s) <= Groups(s')
    ensures History(s) <= History(s')
  {
    hide Groups;
    GroupsConcat(Groups(s), Groups(s')[|Groups(s)|..]);
    assert Groups(s') == Groups(s) + Groups(s')[|Groups(s)|..];
  }

  lemma {:induction false} SecuredRun(run: seq<State>, i: nat, j: nat, E: set<Entry>)
    requires SoundRun(run) && i <= j < |run| && Secured(run[i], E)
    ensures Secured(run[j], E)
    decreases j - i
  {
    hide Next, Init, Secured, Ok, Kept;
    if i < j {
      SecuredRun(run, i, j - 1, E);
      RunOk(run, j - 1);
      RunKept(run, j - 1);
      SecuredStep(run[j - 1], run[j], E);
    }
  }

  /** Where an acknowledged writer's record sits among all logged groups. */
  ghost predicate AckedAt(s: State, o: GC.Outcome, k: nat) {
    && s.mode.Up? && o in s.mode.core.q.served && o.status.Ok?
    && o.record.Some? && o.record.value < |s.mode.core.q.records|
    && o.writer in s.mode.core.q.records[o.record.value].writers
    && k == |s.past| + o.record.value
  }

  lemma AckedGroup(s: State, o: GC.Outcome)
    requires s.mode.Up? && Ok(s) && o in s.mode.core.q.served && o.status.Ok?
    ensures o.record.Some? && AckedAt(s, o, |s.past| + o.record.value)
  {
    hide Ok;
    OutcomesInLog(s);
  }

  /** The read of a key at `sn` that finds `e`. */
  ghost predicate Shows(s: State, key: Bytes, sn: nat, e: Entry) {
    s.mode.Up? && IsNewest(e, s.mode.core.applied, key, sn) && e in GroupsSet(Groups(s))
  }

  /** Whatever a reader gets for the key of `x`, it is the result of `x` or of a logged
      operation that came later. */
  ghost predicate ReadsFrom(s: State, x: Entry) {
    s.mode.Up? && |s.mode.core.v| == NUM_LEVELS
    && forall sn, r ::
      (sn >= Floor(s.mode.core) && sn >= x.sn
        && IsFirstHit(Sources(SetOf(s.mode.core.mem), SetOf(s.mode.core.imm), s.mode.core.v), x.key, sn, r))
      ==> exists e :: Shows(s, x.key, sn, e) && e.sn >= x.sn && Answer(r) == Result(e)
  }

  lemma AppliedIsRead(s: State, x: Entry, sn: nat, r: Option<Entry>)
    requires s.mode.Up? && x in s.mode.core.applied && sn >= Floor(s.mode.core) && sn >= x.sn && Ok(s)
    requires |s.mode.core.v| == NUM_LEVELS
    requires IsFirstHit(Sources(SetOf(s.mode.core.mem), SetOf(s.mode.core.imm), s.mode.core.v), x.key, sn, r)
    ensures exists e :: Shows(s, x.key, sn, e) && e.sn >= x.sn && Answer(r) == Result(e)
  {
    hide Ok, IsFirstHit, Sources, View, Groups, GroupsSet;
    var A := s.mode.core.applied;
    CoreParts(s);
    ReadIsHistory(s, x.key, sn, r);
    assert Hit(x, x.key, sn);
    NewestExists(A, x.key, sn);
    var e :| IsNewest(e, A, x.key, sn);
    ViewIs(A, x.key, sn, e);
    assert Shows(s, x.key, sn, e);
  }

  lemma AppliedReadsFrom(s: State, x: Entry)
    requires s.mode.Up? && x in s.mode.core.applied && Ok(s)
    ensures ReadsFrom(s, x)
  {
    hide Ok, IsFirstHit, Sources, Shows;
    assert |s.mode.core.v| == NUM_LEVELS by { CoreParts(s); ShapeOfVersion(s.mode.core.v); }
    forall sn, r | sn >= Floor(s.mode.core) && sn >= x.sn
      && IsFirstHit(Sources(SetOf(s.mode.core.mem), SetOf(s.mode.core.imm), s.mode.core.v), x.key, sn, r)
      ensures exists e :: Shows(s, x.key, sn, e) && e.sn >= x.sn && Answer(r) == Result(e)
    {
      AppliedIsRead(s, x, sn, r);
    }
  }

  /** Durability: a writer that was told Ok stays, with its whole group, at the same place in
      the log order, and in every later state in which the database is open a read of any of
      its keys returns the result of that operation or of a later logged one, however often
      the process and its recoveries crash in between. */
  lemma AcknowledgedSurvives(run: seq<State>, i: nat, j: nat, o: GC.Outcome)
    requires SoundRun(run) && i <= j < |run| && run[i].mode.Up? && o in run[i].mode.core.q.served && o.status.Ok?
    ensures o.record.Some?
    ensures var k := |run[i].past| + o.record.value;
      && AckedAt(run[i], o, k) && k < |Groups(run[j])|
      && Groups(run[j])[k] == RecordEntries(run[i].mode.core.q.records[o.record.value])
      && (run[j].mode.Up? ==> forall x :: x in Groups(run[j])[k] ==>
        x in run[j].mode.core.applied && ReadsFrom(run[j], x))
  {
    hide Next, Init, Ok, RecordEntries, History, GroupsSet, Sound, ReadsFrom;
    RunOk(run, i);
    RunKept(run, i);
    AckedGroup(run[i], o);
    var k := |run[i].past| + o.record.value;
    var g := RecordEntries(run[i].mode.core.q.records[o.record.value]);
    assert Groups(run[i])[k] == g;
    GroupsKept(run, i, j);
    RecordInHistory(run[i].past, run[i].mode.core.q.records, o.record.value);
    HistoryUp(run[i]);
    SecuredRun(run, i, j, SetOf(g));
    RunOk(run, j);
    if run[j].mode.Up? {
      forall x | x in g ensures x in run[j].mode.core.applied && ReadsFrom(run[j], x) {
        assert x in SetOf(g);
        AppliedReadsFrom(run[j], x);
      }
    }
  }

  // ------------------------------------------------------------ recovered state

  lemma RecoveredFacts(s: State, s': State)
    requires Ok(s) && GoUp(s, s')
    ensures SeqLe(History(s'), s'.mode.core.q.lastSeq) && History(s') == History(s) == s'.mode.core.applied
    ensures Groups(s') == Groups(s)
  {
    hide DiskOk, NewestLog, NumbersOk;
    assert RecordGroups([]) == [];
    assert Groups(s') == s.past;
  }

  /** The logged groups are on disk, in every state from which a recovery would be sound: the
      manifest's tables and the logs from its log on show the latest version of every key. */
  lemma GroupsOnDisk(s: State, key: Bytes, sn: nat)
    requires SeqLe(GroupsSet(Groups(s)), sn) && GoodReplay(s.disk, GroupsSet(Groups(s)), sn) && Ok(s)
    ensures var d := s.disk;
      View(VersionSet(d.manifest.version) + Replay(d), key, sn) == View(GroupsSet(Groups(s)), key, sn)
  {
    hide View, VersionSet, LogsSet, RecoveryOk, CoreOk, Covers, TablesHold, VersionOk, LevelsOrdered, Groups, GroupsSet,
      LogsOrdered, ReplayCurrent, ReplayNewest, DiskOk;
    ReplayInHistory(s.disk, History(s));
    DiskParts(s.disk, History(s));
    TablesPlusReplay(s.disk.manifest.version, Replay(s.disk), History(s), key, sn);
  }

  /** A reopened database shows exactly the whole groups logged so far, all of them, and its
      sequence counter is at or above every one of theirs. */
  lemma ReopenedShowsWholeGroups(run: seq<State>, i: nat, j: nat, key: Bytes, sn: nat)
    requires SoundRun(run) && i < j < |run| && GoUp(run[j - 1], run[j])
    requires sn >= run[j].mode.core.q.lastSeq
    ensures Groups(run[i]) <= Groups(run[j])
    ensures SeqLe(GroupsSet(Groups(run[j])), run[j].mode.core.q.lastSeq)
    ensures View(Held(run[j].mode.core), key, sn) == View(GroupsSet(Groups(run[j])), key, sn)
  {
    hide Next, Init, Ok, GoUp, Groups, GroupsSet, View, Held, Sound;
    GroupsKept(run, i, j);
    RunOk(run, j - 1);
    RunOk(run, j);
    assert run[j].mode.Up? by { UpAfter(run[j - 1], run[j]); }
    RecoveredFacts(run[j - 1], run[j]);
    CoreParts(run[j]);
  }

  /** At any later moment an open database shows all groups of earlier incarnations and, of
      its own, what has been applied; once nothing is in flight and no write has failed, that
      is every group ever logged. */
  lemma OpenShowsWholeGroups(run: seq<State>, i: nat, j: nat, key: Bytes, sn: nat, r: Option<Entry>)
    requires SoundRun(run) && i <= j < |run| && run[j].mode.Up? && sn >= Floor(run[j].mode.core)
    requires |run[j].mode.core.v| == NUM_LEVELS
    requires var c := run[j].mode.core; IsFirstHit(Sources(SetOf(c.mem), SetOf(c.imm), c.v), key, sn, r)
    ensures Groups(run[i]) <= Groups(run[j])
    ensures GroupsSet(run[j].past) <= run[j].mode.core.applied <= GroupsSet(Groups(run[j]))
    ensures Answer(r) == View(run[j].mode.core.applied, key, sn) == View(Held(run[j].mode.core), key, sn)
    ensures !GroupInFlight(run[j].mode.core.q) && !run[j].mode.core.q.broken ==>
      Answer(r) == View(GroupsSet(Groups(run[j])), key, sn)
  {
    hide Next, Init, Ok, Groups, GroupsSet, View, Held, Sound, GroupInFlight, Sources, IsFirstHit, Acked;
    GroupsKept(run, i, j);
    RunOk(run, j);
    RunKept(run, j);
    CoreParts(run[j]);
    ReadIsHistory(run[j], key, sn, r);
    if !GroupInFlight(run[j].mode.core.q) && !run[j].mode.core.q.broken { QuietHistory(run[j]); }
  }

  lemma UpAfter(s: State, s': State)
    requires GoUp(s, s')
    ensures s'.mode.Up?
  {
    hide History;
  }

  // ------------------------------------------------------- after a failed write

  /** While a database stays up after a failed append or sync, its log stays as it is. */
  lemma BrokenStep(s: State, s': State)
    requires s.mode.Up? && s'.mode.Up? && s.mode.core.q.broken && Next(s, s') && Ok(s)
    ensures s'.mode.core.q.broken && Groups(s') == Groups(s)
    ensures s'.mode.core.log == s.mode.core.log && s.mode.core.log in s.disk.logs && s.mode.core.log in s'.disk.logs
    ensures s'.disk.logs[s.mode.core.log].groups == s.disk.logs[s.mode.core.log].groups
  {
    hide Ok, ForegroundStep, WorkerStep, RecoveryStep, Groups, History;
    QueueInv(s);
    LogPresent(s);
    if ForegroundStep(s, s') {
      BrokenFront(s, s');
    } else if WorkerStep(s, s') {
      LogNumbersFacts(s);
      BrokenBack(s, s');
    } else {
      NotRecovery(s, s');
    }
  }

  lemma BrokenFront(s: State, s': State)
    requires ForegroundStep(s, s') && s.mode.Up? && s'.mode.Up? && s.mode.core.q.broken && GC.Inv(s.mode.core.q)
    requires s.mode.core.log in s.disk.logs
    ensures s'.mode.core.q.broken && Groups(s') == Groups(s) && s'.mode.core.log == s.mode.core.log
    ensures s.mode.core.log in s'.disk.logs
    ensures s'.disk.logs[s.mode.core.log].groups == s.disk.logs[s.mode.core.log].groups
  {
    hide GC.WellNumbered, GC.OutcomeOk, GC.WritersOf, GC.ServedWriters, GC.LoggedWriters, GC.TotalCount, GC.AllOps,
      GC.QueueOk, GC.IsGroup, GC.Outcomes, OpsFit, RecordEntries, Add, GC.PhaseOk, GC.InFlight;
  }

  lemma BrokenBack(s: State, s': State)
    requires WorkerStep(s, s') && s.mode.Up? && s'.mode.Up? && s.mode.core.q.broken && s.mode.core.log in s.disk.logs
    requires s.mode.core.bg.Committing? ==> s.mode.core.bg.log <= s.mode.core.log
    ensures s'.mode.core.q.broken && Groups(s') == Groups(s) && s'.mode.core.log == s.mode.core.log
    ensures s.mode.core.log in s'.disk.logs && s'.disk.logs[s.mode.core.log] == s.disk.logs[s.mode.core.log]
  {
    hide Install, AddNewest, AllSurvivors, IsCompaction, IsCut, DeadTable, Removed, Output, NoneEmpty, Floor,
      RecordGroups;
  }

  /** Until it is reopened, a database in which an append or a sync has failed neither logs
      another group nor changes the whole groups in its log. */
  lemma {:induction false} NothingLoggedAfterFailure(run: seq<State>, i: nat, j: nat)
    requires SoundRun(run) && i <= j < |run| && (forall k :: i <= k <= j ==> run[k].mode.Up?)
    requires run[i].mode.core.q.broken
    ensures run[j].mode.core.q.broken && Groups(run[j]) == Groups(run[i])
    ensures run[j].mode.core.log == run[i].mode.core.log
    ensures run[i].mode.core.log in run[i].disk.logs && run[i].mode.core.log in run[j].disk.logs
    ensures run[j].disk.logs[run[i].mode.core.log].groups == run[i].disk.logs[run[i].mode.core.log].groups
    decreases j - i
  {
    hide Ok, Next, Init, Sound, Groups;
    RunOk(run, i);
    LogPresent(run[i]);
    if i < j {
      NothingLoggedAfterFailure(run, i, j - 1);
      RunOk(run, j - 1);
      BrokenStep(run[j - 1], run[j]);
    }
  }
}
