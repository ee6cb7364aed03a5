/** The invariant across the writers' and readers' steps. */
module EngineFront {
  import opened InternalKeys
  import opened Views
  import opened Scans
  import opened Compactions
  import opened Versions
  import opened Trees
  import opened WriteBatches
  import GC = GroupCommit
  import opened MemTables
  import opened Disks
  import opened Engine
  import opened EngineInv

  // ------------------------------------------------------------- queue steps

  ghost predicate SameLog(rs: seq<GC.Record>, rs': seq<GC.Record>) {
    |rs| == |rs'| && forall i :: 0 <= i < |rs| ==> rs'[i].base == rs[i].base && rs'[i].writers == rs[i].writers
  }

  lemma {:induction false} SameLogSame(rs: seq<GC.Record>, rs': seq<GC.Record>)
    requires SameLog(rs, rs')
    ensures RecordGroups(rs) == RecordGroups(rs') && GC.TotalCount(rs) == GC.TotalCount(rs')
    decreases |rs|
  {
    if rs != [] { SameLogSame(rs[..|rs| - 1], rs'[..|rs'| - 1]); }
  }

  lemma QuietSameLog(q: GC.Queue, q': GC.Queue)
    requires QuietQueueStep(q, q')
    ensures SameLog(q.records, q'.records) && q'.start == q.start && q.lastSeq <= q'.lastSeq && GC.Step(q, q')
  {
    hide GC.IsGroup, GC.AllOps, GC.Outcomes, OpsFit;
  }

  lemma BrokenFacts(q: GC.Queue)
    requires GC.Inv(q)
    ensures q.phase.Finished? && q.phase.status.Error? ==> q.broken
    ensures q.broken ==> (q.phase.Idle? && q.failed) || (q.phase.Finished? && q.phase.status.Error?)
  {
  }

  /** What is logged but not yet applied follows the phase. */
  lemma QuietPending(q: GC.Queue, q': GC.Queue, pending: set<Entry>)
    requires GC.Inv(q) && QuietQueueStep(q, q') && PendingIs(q, pending)
    ensures PendingIs(q', pending)
  {
    hide GC.Inv, GC.IsGroup, GC.AllOps, GC.Outcomes, OpsFit, Number, SetOf;
    BrokenFacts(q);
    if GC.Sync(q, q') {
      SyncPending(q, q', pending);
    } else if GC.Finish(q, q') {
      FinishPending(q, q', pending);
    }
  }

  lemma FinishPending(q: GC.Queue, q': GC.Queue, pending: set<Entry>)
    requires GC.Finish(q, q') && PendingIs(q, pending)
    ensures PendingIs(q', pending)
  {
    hide GC.AllOps;
    var es := RecordEntries(LastRecord(q));
    assert es[|es|..] == [];
  }

  lemma SyncPending(q: GC.Queue, q': GC.Queue, pending: set<Entry>)
    requires GC.Sync(q, q') && PendingIs(q, pending)
    ensures PendingIs(q', pending)
  {
    hide GC.AllOps, Number;
    var es := RecordEntries(LastRecord(q));
    assert RecordEntries(LastRecord(q')) == es && es[0..] == es;
  }

  lemma QueueOnlyOk(s: State, s': State, q': GC.Queue)
    requires s.mode.Up? && QueueOnly(s, s', q') && Ok(s)
    ensures Ok(s')
  {
    hide GC.Inv, QuietQueueStep, HistSet, SeqUnique, SeqLe, LogsMatch, MemOk, ShapeOk, WorkerOk, DiskOk,
      ViewOk, TreeUp, NumbersOk, PendingIs;
    var c, c' := s.mode.core, s'.mode.core;
    QuietSameLog(c.q, q');
    GC.StepOk(c.q, q');
    SameLogSame(c.q.records, q'.records);
    HistSame(s.past, c.q.records, q'.records);
    QuietPending(c.q, q', History(s) - c.applied);
    FloorRises(c, c');
    ViewOkRises(Held(c), c.applied, Floor(c), Floor(c'));
    TreeUpRises(c.v, Floor(c), Floor(c'), s.disk.tables);
    WorkerRises(c, s.disk, History(s), Floor(c), Floor(c'));
    WorkerIgnoresQueue(c, c', s.disk, History(s), Floor(c'));
  }

  lemma HistSame(past: seq<seq<Entry>>, rs: seq<GC.Record>, rs': seq<GC.Record>)
    requires RecordGroups(rs) == RecordGroups(rs')
    ensures HistSet(past, rs) == HistSet(past, rs')
  {
  }

  lemma WorkerIgnoresQueue(c: Core, c': Core, d: Disk, H: set<Entry>, now: nat)
    requires WorkerOk(c, d, H, now) && c'.bg == c.bg && c'.v == c.v && c'.imm == c.imm && c'.immLog == c.immLog
    requires c'.log == c.log && c'.next == c.next
    ensures WorkerOk(c', d, H, now)
  {
    hide FlushOk, CompactOk, CommitOk;
  }

  // --------------------------------------------------------------- log steps

  lemma WorkerNewDisk(c: Core, d: Disk, d': Disk, H: set<Entry>, H': set<Entry>, now: nat)
    requires WorkerOk(c, d, H, now) && d'.tables == d.tables && d'.manifest == d.manifest
    requires c.bg.Committing? ==> Counted(LogsSet(d'.logs, c.bg.log), H', c.bg.lastSeq)
    ensures WorkerOk(c, d', H', now)
  {
    hide IsCompaction, IsCut, Counted, LogsSet, IsNewNumber, NotNamed, SharedLow;
  }

  lemma TearLogOk(s: State, s': State)
    requires s.mode.Up? && TearLog(s, s') && Ok(s)
    ensures Ok(s')
  {
    hide GC.Inv, HistSet, MemOk, DiskOk, ViewOk, TreeUp, AppliedOk, HistoryOk, WorkerOk, Counted, LogsSet,
      LogsMatch, NumbersOk, ShapeOk, History;
    HistoryUp(s);
    HistoryUp(s');
    var c, d, H := s.mode.core, s.disk, History(s);
    DiskTorn(d, H, c.log, true);
    TornKeeps(c, d, H - c.applied);
    if c.bg.Committing? {
      TornSets(d.logs, c.log, true, c.bg.log);
      CommitFacts(c, d, H, Floor(c));
    }
    WorkerNewDisk(c, d, s'.disk, H, H, Floor(c));
  }

  lemma TornKeeps(c: Core, d: Disk, pending: set<Entry>)
    requires LogsMatch(c.mem, c.imm, c.immLog, c.log, pending, d.logs) && NumbersOk(d, c.next)
    requires ShapeOk(c.bg, c.imm, c.immLog, c.log, d.logs, d.manifest.log)
    ensures var d' := d.(logs := d.logs[c.log := d.logs[c.log].(torn := true)]);
      && LogsMatch(c.mem, c.imm, c.immLog, c.log, pending, d'.logs) && NumbersOk(d', c.next)
      && ShapeOk(c.bg, c.imm, c.immLog, c.log, d'.logs, d'.manifest.log)
  {
    SameKeysShape(c, d, d.logs[c.log := d.logs[c.log].(torn := true)]);
  }

  lemma SameKeysShape(c: Core, d: Disk, logs: map<nat, LogFile>)
    requires logs.Keys == d.logs.Keys && ShapeOk(c.bg, c.imm, c.immLog, c.log, d.logs, d.manifest.log)
    requires forall n :: n in logs && n != c.log ==> logs[n].groups == d.logs[n].groups
    ensures ShapeOk(c.bg, c.imm, c.immLog, c.log, logs, d.manifest.log)
  {
    assert forall n :: n in logs <==> n in d.logs;
    assert forall more: nat :: LiveBut(c.imm, c.immLog, c.log, d.logs, d.manifest.log, more)
                          ==> LiveBut(c.imm, c.immLog, c.log, logs, d.manifest.log, more);
  }

  lemma CommitFacts(c: Core, d: Disk, H: set<Entry>, now: nat)
    requires WorkerOk(c, d, H, now) && c.bg.Committing?
    ensures c.bg.log <= c.log && (c.imm != [] ==> c.bg.log <= c.immLog)
    ensures Counted(LogsSet(d.logs, c.bg.log), H, c.bg.lastSeq)
    ensures c.bg.written ==> d.manifest.version == c.v && d.manifest.log == c.bg.log
  {
  }

  lemma HistAppend(past: seq<seq<Entry>>, rs: seq<GC.Record>, r: GC.Record)
    ensures HistSet(past, rs + [r]) == HistSet(past, rs) + SetOf(RecordEntries(r))
  {
    assert past + RecordGroups(rs + [r]) == past + RecordGroups(rs) + [RecordEntries(r)];
    GroupsAppend(past + RecordGroups(rs), RecordEntries(r));
  }

  /** A group about to be logged is newer than the whole history. */
  lemma NewGroup(past: seq<seq<Entry>>, q: GC.Queue, q': GC.Queue)
    requires GC.Inv(q) && GC.Append(q, q') && HistoryOk(past, q)
    ensures q'.records != [] && q'.records == q.records + [LastRecord(q')] && q'.start == q.start
    ensures q'.lastSeq == q.lastSeq
    ensures var g := RecordEntries(LastRecord(q'));
      && SeqUnique(SetOf(g))
      && (forall x, y :: x in SetOf(g) && y in HistSet(past, q.records) ==> y.sn < x.sn)
      && SeqLe(SetOf(g), q.start + GC.TotalCount(q'.records))
      && GC.TotalCount(q.records) <= GC.TotalCount(q'.records)
  {
    hide GC.AllOps, GC.WellNumbered, GC.OutcomeOk, GC.WritersOf, GC.ServedWriters, GC.LoggedWriters, HistSet,
      GC.TotalCount;
    var r := LastRecord(q');
    GC.RecordsAppend(q.records, r);
    NumberSeqs(r.base, GC.AllOps(r.writers));
  }

  lemma LoggedHistory(past: seq<seq<Entry>>, q: GC.Queue, q': GC.Queue)
    requires GC.Inv(q) && GC.Append(q, q') && HistoryOk(past, q)
    ensures HistoryOk(past, q') && q'.records != []
    ensures HistSet(past, q'.records) == HistSet(past, q.records) + SetOf(RecordEntries(LastRecord(q')))
  {
    hide GC.Inv, HistSet, GC.TotalCount, RecordEntries;
    NewGroup(past, q, q');
    HistAppend(past, q.records, LastRecord(q'));
    UniqueGrows(HistSet(past, q.records), SetOf(RecordEntries(LastRecord(q'))));
  }

  lemma LoggedApplied(q: GC.Queue, q': GC.Queue, applied: set<Entry>, H: set<Entry>, g: seq<Entry>)
    requires GC.Append(q, q') && q'.records != [] && g == RecordEntries(LastRecord(q')) && AppliedOk(q, applied, H)
    requires forall x, y :: x in SetOf(g) && y in H ==> y.sn < x.sn
    ensures applied == H && AppliedOk(q', applied, H + SetOf(g)) && H + SetOf(g) - applied == SetOf(g)
  {
    hide RecordEntries;
    forall x | x in H ensures x in applied { assert x !in H - applied; }
    assert applied == H;
    assert H + SetOf(g) - applied == SetOf(g);
  }

  lemma LoggedLogs(mem: seq<Entry>, imm: seq<Entry>, immLog: nat, log: nat, logs: map<nat, LogFile>, g: seq<Entry>,
          torn: bool)
    requires LogsMatch(mem, imm, immLog, log, {}, logs)
    ensures LogsMatch(mem, imm, immLog, log, SetOf(g), logs[log := LogFile(logs[log].groups + [g], torn)])
  {
    AppendSets(logs, log, g, torn, 0);
  }

  lemma LoggedCounted(logs: map<nat, LogFile>, log: nat, keep: nat, H: set<Entry>, g: seq<Entry>, torn: bool,
          lastSeq: nat)
    requires log in logs && keep <= log && Counted(LogsSet(logs, keep), H, lastSeq)
    ensures Counted(LogsSet(logs[log := LogFile(logs[log].groups + [g], torn)], keep), H + SetOf(g), lastSeq)
  {
    hide LogsSet;
    AppendSets(logs, log, g, torn, keep);
  }

  lemma HistoryUp(s: State)
    requires s.mode.Up?
    ensures History(s) == HistSet(s.past, s.mode.core.q.records)
  {
  }

  lemma AppendKeys(c: Core, d: Disk, l: LogFile)
    requires c.log in d.logs && NumbersOk(d, c.next)
    requires ShapeOk(c.bg, c.imm, c.immLog, c.log, d.logs, d.manifest.log)
    ensures NumbersOk(d.(logs := d.logs[c.log := l]), c.next)
    ensures ShapeOk(c.bg, c.imm, c.immLog, c.log, d.logs[c.log := l], d.manifest.log)
  {
    SameKeysShape(c, d, d.logs[c.log := l]);
  }

  lemma LogGroupOk(s: State, s': State, q': GC.Queue)
    requires s.mode.Up? && LogGroup(s, s', q') && Ok(s)
    ensures Ok(s')
  {
    hide GC.Inv, GC.Append, HistSet, HistoryOk, SeqUnique, MemOk, DiskOk, ViewOk, TreeUp, AppliedOk,
      WorkerOk, Counted, LogsSet, LogsMatch, RecordEntries, NumbersOk, ShapeOk, History;
    var c, d, H := s.mode.core, s.disk, History(s);
    var c', H', g := s'.mode.core, History(s'), RecordEntries(LastRecord(q'));
    HistoryUp(s);
    HistoryUp(s');
    GC.StepOk(c.q, q');
    NewGroup(s.past, c.q, q');
    LoggedHistory(s.past, c.q, q');
    assert H' == H + SetOf(g);
    LoggedApplied(c.q, q', c.applied, H, g);
    assert H - c.applied == {};
    LogBelow(c, d, H);
    DiskAppend(d, H, c.log, g, false);
    LoggedLogs(c.mem, c.imm, c.immLog, c.log, d.logs, g, false);
    AppendKeys(c, d, LogFile(d.logs[c.log].groups + [g], false));
    FloorSame(c, c');
    LoggedWorker(c, d, H, g);
    WorkerIgnoresQueue(c, c', s'.disk, H', Floor(c'));
  }

  lemma LoggedWorker(c: Core, d: Disk, H: set<Entry>, g: seq<Entry>)
    requires WorkerOk(c, d, H, Floor(c)) && c.log in d.logs
    ensures WorkerOk(c, d.(logs := d.logs[c.log := LogFile(d.logs[c.log].groups + [g], false)]), H + SetOf(g), Floor(c))
  {
    hide WorkerOk, Counted, LogsSet, Floor;
    if c.bg.Committing? {
      CommitFacts(c, d, H, Floor(c));
      LoggedCounted(d.logs, c.log, c.bg.log, H, g, false, c.bg.lastSeq);
    }
    WorkerNewDisk(c, d, d.(logs := d.logs[c.log := LogFile(d.logs[c.log].groups + [g], false)]), H, H + SetOf(g),
      Floor(c));
  }

  lemma LogBelow(c: Core, d: Disk, H: set<Entry>)
    requires LogsMatch(c.mem, c.imm, c.immLog, c.log, H - c.applied, d.logs) && d.manifest.log <= OldestLiveLog(c)
    ensures c.log in d.logs && d.manifest.log <= c.log
    ensures forall n :: n in d.logs && n > c.log ==> LogSet(d.logs[n]) == {}
  {
  }

  // ------------------------------------------------------------ apply a step

  lemma NextPending(q: GC.Queue, pending: set<Entry>)
    requires GC.Inv(q) && q.phase.Applying? && PendingIs(q, pending) && q.phase.done < GC.Count(LastRecord(q))
    ensures var es := RecordEntries(LastRecord(q));
      var e := es[q.phase.done];
      && e in pending && pending - {e} == SetOf(es[q.phase.done + 1..])
      && forall x :: x in pending && x != e ==> e.sn < x.sn
  {
    hide GC.Inv, GC.AllOps;
    var r := LastRecord(q);
    var es, i := RecordEntries(r), q.phase.done;
    NumberSeqs(r.base, GC.AllOps(r.writers));
    assert es[i..] == [es[i]] + es[i + 1..];
    forall x | x in SetOf(es[i + 1..]) ensures es[i].sn < x.sn {
      var j :| 0 <= j < |es[i + 1..]| && es[i + 1..][j] == x;
      assert x == es[i + 1 + j];
    }
  }

  lemma AppliedMore(q: GC.Queue, q': GC.Queue, applied: set<Entry>, H: set<Entry>, e: Entry)
    requires GC.Inv(q) && GC.Apply(q, q') && AppliedOk(q, applied, H) && e == RecordEntries(LastRecord(q))[q.phase.done]
    ensures e in H && e !in applied && (forall x :: x in applied ==> x.sn < e.sn)
    ensures AppliedOk(q', applied + {e}, H) && H - (applied + {e}) == H - applied - {e}
  {
    hide GC.Inv, RecordEntries, GC.AllOps;
    NextPending(q, H - applied);
    assert H - (applied + {e}) == H - applied - {e};
  }

  lemma AppliedMem(c: Core, e: Entry)
    requires MemOk(c.mem, c.imm, c.v, c.applied) && e !in c.applied && (forall x :: x in c.applied ==> x.sn < e.sn)
    ensures MemOk(Add(c.mem, e), c.imm, c.v, c.applied + {e}) && SetOf(Add(c.mem, e)) == SetOf(c.mem) + {e}
  {
    hide Sorted, Before, LevelsOrdered, VersionSet, Add;
    forall i | 0 <= i < |c.mem| ensures c.mem[i].sn != e.sn { assert c.mem[i] in SetOf(c.mem); }
    AddSorted(c.mem, e);
    AddContents(c.mem, e);
  }

  lemma AppliedView(held: set<Entry>, applied: set<Entry>, floor: nat, e: Entry)
    requires ViewOk(held, applied, floor) && held <= applied && SeqUnique(applied)
    requires (forall x :: x in applied ==> x.sn < e.sn)
    ensures ViewOk(held + {e}, applied + {e}, floor)
  {
    hide View;
    forall key, sn | sn >= floor ensures View(held + {e}, key, sn) == View(applied + {e}, key, sn) {
      ViewInsert(held, applied, e, key, sn);
    }
  }

  lemma ApplyOneOk(s: State, s': State, q': GC.Queue)
    requires s.mode.Up? && ApplyOne(s, s', q') && Ok(s)
    ensures Ok(s')
  {
    hide GC.Inv, HistSet, HistoryOk, MemOk, DiskOk, ViewOk, TreeUp, AppliedOk, WorkerOk, LogsMatch,
      RecordEntries, NumbersOk, ShapeOk, History, Add, VersionSet;
    var c, d, H := s.mode.core, s.disk, History(s);
    var c', e := s'.mode.core, RecordEntries(LastRecord(c.q))[c.q.phase.done];
    HistoryUp(s);
    HistoryUp(s');
    GC.StepOk(c.q, q');
    AppliedMore(c.q, q', c.applied, H, e);
    AppliedMem(c, e);
    AppliedLogs(c, H, e, d.logs);
    FloorSame(c, c');
    HeldFacts(c, d, s.past, H);
    AppliedView(Held(c), c.applied, Floor(c), e);
    assert Held(c') == Held(c) + {e};
    SameRecords(s.past, c.q, q');
    WorkerIgnoresQueue(c, c', d, H, Floor(c'));
  }

  lemma SameRecords(past: seq<seq<Entry>>, q: GC.Queue, q': GC.Queue)
    requires HistoryOk(past, q) && q'.records == q.records && q'.start == q.start
    ensures HistoryOk(past, q')
  {
    hide HistSet;
  }

  lemma AppliedLogs(c: Core, H: set<Entry>, e: Entry, logs: map<nat, LogFile>)
    requires LogsMatch(c.mem, c.imm, c.immLog, c.log, H - c.applied, logs) && e in H - c.applied
    requires SetOf(Add(c.mem, e)) == SetOf(c.mem) + {e}
    ensures LogsMatch(Add(c.mem, e), c.imm, c.immLog, c.log, H - (c.applied + {e}), logs)
  {
    hide Add;
    assert SetOf(c.mem) + {e} + (H - (c.applied + {e})) == SetOf(c.mem) + (H - c.applied);
  }

  lemma HeldFacts(c: Core, d: Disk, past: seq<seq<Entry>>, H: set<Entry>)
    requires CoreOk(c, d, past, H)
    ensures Held(c) <= c.applied <= H && SeqUnique(H) && SeqUnique(c.applied) && SeqUnique(Held(c))
  {
    hide GC.Inv, HistSet, OrderOk, Sorted, PendingIs, VersionSet, LogsMatch, TreeUp, ViewOk, NumbersOk,
      ShapeOk, WorkerOk, DiskOk;
  }

  // ---------------------------------------------------------------- rotation

  lemma NothingPending(q: GC.Queue, applied: set<Entry>, H: set<Entry>)
    requires GC.Inv(q) && AppliedOk(q, applied, H) && q.phase.Idle? && !q.failed
    ensures H - applied == {} && applied == H
  {
    hide GC.Inv;
    BrokenFacts(q);
    forall x | x in H ensures x in applied { assert x !in H - applied; }
  }

  lemma RotateLogs(c: Core, logs: map<nat, LogFile>)
    requires LogsMatch(c.mem, c.imm, c.immLog, c.log, {}, logs) && (forall n :: n in logs ==> n < c.next)
    ensures LogsMatch([], c.mem, c.log, c.next, {}, logs[c.next := LogFile([], false)])
  {
    assert LogSet(LogFile([], false)) == {};
  }

  lemma RotateMem(c: Core)
    requires MemOk(c.mem, c.imm, c.v, c.applied) && c.imm == []
    ensures MemOk([], c.mem, c.v, c.applied)
  {
    hide LevelsOrdered, VersionSet;
  }

  /** The rotated log stays live as the immutable memtable's. */
  lemma RotateLive(c: Core, logs: map<nat, LogFile>, from: nat, more: nat)
    requires LiveBut(c.imm, c.immLog, c.log, logs, from, more) && c.imm == [] && c.mem != []
    ensures LiveBut(c.mem, c.log, c.next, logs[c.next := LogFile([], false)], from, more)
    ensures more == c.log ==> LiveBut(c.mem, c.log, c.next, logs[c.next := LogFile([], false)], from, c.next)
  {
  }

  lemma RotateShape(c: Core, logs: map<nat, LogFile>, from: nat)
    requires ShapeOk(c.bg, c.imm, c.immLog, c.log, logs, from) && c.imm == [] && c.mem != [] && c.log < c.next
    ensures ShapeOk(c.bg, c.mem, c.log, c.next, logs[c.next := LogFile([], false)], from)
  {
    hide LiveBut;
    forall more: nat | LiveBut(c.imm, c.immLog, c.log, logs, from, more)
      ensures LiveBut(c.mem, c.log, c.next, logs[c.next := LogFile([], false)], from, more)
      ensures more == c.log ==> LiveBut(c.mem, c.log, c.next, logs[c.next := LogFile([], false)], from, c.next)
    {
      RotateLive(c, logs, from, more);
    }
  }

  lemma RotateWorker(c: Core, d: Disk, H: set<Entry>)
    requires WorkerOk(c, d, H, Floor(c)) && c.imm == [] && c.mem != [] && NumbersOk(d, c.next) && c.log in d.logs
    ensures var d' := d.(logs := d.logs[c.next := LogFile([], false)]);
      WorkerOk(c.(mem := [], imm := c.mem, immLog := c.log, log := c.next, next := c.next + 1), d', H, Floor(c))
  {
    hide IsCompaction, IsCut, Counted, LogsSet, IsNewNumber, NotNamed, SharedLow;
    if c.bg.Committing? { NewLogSets(d.logs, c.next, false, c.bg.log); }
  }

  lemma RotateOk(s: State, s': State)
    requires s.mode.Up? && Rotate(s, s') && Ok(s)
    ensures Ok(s')
  {
    hide GC.Inv, HistSet, HistoryOk, MemOk, DiskOk, ViewOk, TreeUp, AppliedOk, WorkerOk, LogsMatch, ShapeOk,
      History, VersionSet, LogsSet;
    var c, d, H := s.mode.core, s.disk, History(s);
    var c' := s'.mode.core;
    HistoryUp(s);
    HistoryUp(s');
    NothingPending(c.q, c.applied, H);
    LogBelow(c, d, H);
    DiskNewLog(d, H, c.next, false);
    RotateLogs(c, d.logs);
    RotateMem(c);
    RotateShape(c, d.logs, d.manifest.log);
    RotateWorker(c, d, H);
    FloorSame(c, c');
    assert Held(c') == Held(c);
  }

  /** A log left by a failed rotation holds nothing. */
  lemma StrayShape(c: Core, d: Disk, torn: bool)
    requires ShapeOk(c.bg, c.imm, c.immLog, c.log, d.logs, d.manifest.log)
    ensures ShapeOk(c.bg, c.imm, c.immLog, c.log, d.logs[c.next := LogFile([], torn)], d.manifest.log)
  {
    var logs := d.logs[c.next := LogFile([], torn)];
    assert forall more: nat :: LiveBut(c.imm, c.immLog, c.log, d.logs, d.manifest.log, more)
                          ==> LiveBut(c.imm, c.immLog, c.log, logs, d.manifest.log, more);
  }

  lemma StrayMatch(c: Core, pending: set<Entry>, logs: map<nat, LogFile>, torn: bool)
    requires LogsMatch(c.mem, c.imm, c.immLog, c.log, pending, logs) && c.next !in logs
    ensures LogsMatch(c.mem, c.imm, c.immLog, c.log, pending, logs[c.next := LogFile([], torn)])
  {
    assert LogSet(LogFile([], torn)) == {};
  }

  lemma StrayWorker(c: Core, d: Disk, H: set<Entry>, torn: bool)
    requires WorkerOk(c, d, H, Floor(c)) && c.next !in d.logs
    ensures WorkerOk(c.(next := c.next + 1), d.(logs := d.logs[c.next := LogFile([], torn)]), H, Floor(c))
  {
    hide IsCompaction, IsCut, Counted, LogsSet, IsNewNumber, NotNamed, SharedLow, AllSurvivors, Output;
    if c.bg.Committing? { NewLogSets(d.logs, c.next, torn, c.bg.log); }
  }

  lemma StrayLogOk(s: State, s': State, torn: bool)
    requires s.mode.Up? && StrayLog(s, s', torn) && Ok(s)
    ensures Ok(s')
  {
    hide GC.Inv, HistSet, HistoryOk, MemOk, DiskOk, ViewOk, TreeUp, AppliedOk, WorkerOk, LogsMatch, ShapeOk, History,
      VersionSet, LogsSet;
    var c, c', d, H := s.mode.core, s'.mode.core, s.disk, History(s);
    HistoryUp(s);
    HistoryUp(s');
    DiskNewLog(d, H, c.next, torn);
    StrayMatch(c, H - c.applied, d.logs, torn);
    StrayShape(c, d, torn);
    StrayWorker(c, d, H, torn);
    FloorSame(c, c');
    assert Held(c') == Held(c);
  }

  // --------------------------------------------------------------- snapshots

  lemma SnapshotOk(s: State, s': State, id: nat)
    requires s.mode.Up? && (TakeSnapshot(s, s', id) || ReleaseSnapshot(s, s', id)) && Ok(s)
    ensures Ok(s')
  {
    hide GC.Inv, HistSet, HistoryOk, MemOk, DiskOk, ViewOk, TreeUp, AppliedOk, WorkerOk, LogsMatch, ShapeOk,
      History, VersionSet, LogsSet, NumbersOk;
    var c, c', H := s.mode.core, s'.mode.core, History(s);
    HistoryUp(s);
    HistoryUp(s');
    FloorRises(c, c');
    ViewOkRises(Held(c), c.applied, Floor(c), Floor(c'));
    TreeUpRises(c.v, Floor(c), Floor(c'), s.disk.tables);
    WorkerRises(c, s.disk, H, Floor(c), Floor(c'));
    WorkerIgnoresQueue(c, c', s.disk, H, Floor(c'));
  }

  lemma ForegroundOk(s: State, s': State)
    requires Ok(s) && ForegroundStep(s, s')
    ensures Ok(s')
  {
    hide Ok, QueueOnly, TearLog, LogGroup, ApplyOne, Rotate, StrayLog, TakeSnapshot, ReleaseSnapshot;
    FrontIsUp(s, s');
    if q' :| QueueOnly(s, s', q') { QueueOnlyOk(s, s', q'); }
    else if TearLog(s, s') { TearLogOk(s, s'); }
    else if q' :| LogGroup(s, s', q') { LogGroupOk(s, s', q'); }
    else if q' :| ApplyOne(s, s', q') { ApplyOneOk(s, s', q'); }
    else if Rotate(s, s') { RotateOk(s, s'); }
    else if torn :| StrayLog(s, s', torn) { StrayLogOk(s, s', torn); }
    else if id :| TakeSnapshot(s, s', id) { SnapshotOk(s, s', id); }
    else if id :| ReleaseSnapshot(s, s', id) { SnapshotOk(s, s', id); }
  }

  lemma FrontIsUp(s: State, s': State)
    requires ForegroundStep(s, s')
    ensures s.mode.Up? && s'.mode.Up?
  {
    hide QuietQueueStep, GC.Append, GC.Apply, RecordEntries, Add;
  }
}
