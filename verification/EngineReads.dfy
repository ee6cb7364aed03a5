/** Reads that are not atomic. DB::Get and DB::NewIterator take the memtables, the version and
    a sequence number under the lock and read later, while the memtable they hold may grow
    and be rotated, flushed and dropped by others. */
module EngineReads {
  import opened ByteStrings
  import opened InternalKeys
  import opened Views
  import opened MergeSpec
  import opened MergingIterators
  import opened Scans
  import opened Compactions
  import opened Versions
  import opened Trees
  import GC = GroupCommit
  import opened MemTables
  import opened Disks
  import opened Engine
  import opened EngineInv
  import opened EngineRecovery
  import opened EngineTheorems
  import opened EngineSnapshots
  import opened EngineCleanup

  /** `M` is what the memtable that logs to `log` holds by now. */
  ghost predicate IsMemTable(c: Core, log: nat, M: seq<Entry>) {
    (c.log == log && M == c.mem) || (c.imm != [] && c.immLog == log && M == c.imm)
  }

  /** `M` has grown out of `A` by entries above `sn` alone. */
  ghost predicate GrownAbove(A: seq<Entry>, M: seq<Entry>, sn: nat) {
    SetOf(A) <= SetOf(M) && forall x :: x in SetOf(M) && x !in SetOf(A) ==> x.sn > sn
  }

  /** Where the memtable captured from `c0` has got to. */
  ghost predicate Tracks(c0: Core, c: Core, sn: nat) {
    && Settled(c.q, sn) && sn <= c.q.lastSeq && c0.log <= c.log && c0.applied <= c.applied
    && forall M :: IsMemTable(c, c0.log, M) ==> GrownAbove(c0.mem, M, sn)
  }

  /** What one step does to the memtables. */
  ghost predicate MemTableStep(s: State, s': State)
    requires s.mode.Up? && s'.mode.Up?
  {
    var c, c' := s.mode.core, s'.mode.core;
    || (c'.mem == c.mem && c'.log == c.log && (c'.imm == [] || (c'.imm == c.imm && c'.immLog == c.immLog)))
    || (exists q' :: ApplyOne(s, s', q')) || Rotate(s, s')
  }

  lemma MemTableSteps(s: State, s': State)
    requires Next(s, s') && s.mode.Up? && s'.mode.Up?
    ensures MemTableStep(s, s')
  {
    hide ForegroundStep, WorkerStep, RecoveryStep, MemTableStep;
    if ForegroundStep(s, s') {
      FrontMemTables(s, s');
    } else if WorkerStep(s, s') {
      BackMemTables(s, s');
    } else {
      NotRecovery(s, s');
    }
  }

  lemma FrontMemTables(s: State, s': State)
    requires ForegroundStep(s, s') && s.mode.Up? && s'.mode.Up?
    ensures MemTableStep(s, s')
  {
    hide QuietQueueStep, GC.Append, ApplyOne, RecordEntries;
  }

  lemma BackMemTables(s: State, s': State)
    requires WorkerStep(s, s') && s.mode.Up? && s'.mode.Up?
    ensures MemTableStep(s, s')
  {
    hide Install, AddNewest, AllSurvivors, IsCompaction, IsCut, DeadTable, Removed, Output, NoneEmpty, Floor, ApplyOne,
      Rotate;
  }

  lemma SettledStep(s: State, s': State, sn: nat)
    requires Next(s, s') && s.mode.Up? && s'.mode.Up? && Settled(s.mode.core.q, sn) && sn <= s.mode.core.q.lastSeq
    requires Ok(s)
    ensures Settled(s'.mode.core.q, sn) && sn <= s'.mode.core.q.lastSeq
  {
    hide Ok, Next, QuietQueueStep, GC.Append, GC.Inv, RecordEntries, GC.AllOps;
    UpSteps(s, s');
    QueueInv(s);
    var q, q' := s.mode.core.q, s'.mode.core.q;
    if QuietQueueStep(q, q') {
      SettledQuiet(q, q', sn);
    } else if GC.Append(q, q') {
      PendingAppend(q, q');
    } else if q' == q.(failed := true) {
      FailedSame(q, sn);
    }
  }

  lemma ApplyGrows(s: State, s': State, q': GC.Queue, c0: Core, sn: nat)
    requires ApplyOne(s, s', q') && s.mode.Up? && s'.mode.Up? && Tracks(c0, s.mode.core, sn)
    ensures forall M :: IsMemTable(s'.mode.core, c0.log, M) ==> GrownAbove(c0.mem, M, sn)
  {
    hide Add, RecordEntries, GC.AllOps;
    var c, e := s.mode.core, RecordEntries(LastRecord(s.mode.core.q))[s.mode.core.q.phase.done];
    EntryAbove(LastRecord(c.q), c.q.phase.done);
    AddContents(c.mem, e);
    if c.log == c0.log { assert IsMemTable(c, c0.log, c.mem); }
    assert c.imm != [] && c.immLog == c0.log ==> IsMemTable(c, c0.log, c.imm);
  }

  lemma AppliedGrows(s: State, s': State)
    requires Next(s, s') && s.mode.Up? && s'.mode.Up?
    ensures s.mode.core.applied <= s'.mode.core.applied
  {
    hide Next, QuietQueueStep, GC.Append, GC.Apply, RecordEntries;
    UpSteps(s, s');
  }

  lemma TracksStep(s: State, s': State, c0: Core, sn: nat)
    requires Next(s, s') && s.mode.Up? && s'.mode.Up? && Tracks(c0, s.mode.core, sn) && Ok(s)
    ensures Tracks(c0, s'.mode.core, sn)
  {
    hide Ok, Next, Settled, GrownAbove, ApplyOne;
    MemTableSteps(s, s');
    SettledStep(s, s', sn);
    LogNumbersFacts(s);
    AppliedGrows(s, s');
    var c, c' := s.mode.core, s'.mode.core;
    if q' :| ApplyOne(s, s', q') {
      ApplyGrows(s, s', q', c0, sn);
      AppliedLog(s, s', q');
    } else {
      assert c.log == c0.log ==> IsMemTable(c, c0.log, c.mem);
      assert c.imm != [] && c.immLog == c0.log ==> IsMemTable(c, c0.log, c.imm);
    }
  }

  lemma AppliedLog(s: State, s': State, q': GC.Queue)
    requires ApplyOne(s, s', q')
    ensures s.mode.Up? && s'.mode.Up? && s'.mode.core.log == s.mode.core.log
  {
    hide Add, RecordEntries;
  }

  /** Steps of one incarnation. */
  ghost predicate OpenPath(p: seq<State>) {
    p != [] && (forall i :: 0 <= i < |p| ==> p[i].mode.Up?) && forall i :: 0 < i < |p| ==> Next(p[i - 1], p[i])
  }

  lemma {:induction false} TracksPath(p: seq<State>, sn: nat, i: nat)
    requires OpenPath(p) && i < |p| && !GroupInFlight(p[0].mode.core.q) && sn <= p[0].mode.core.q.lastSeq && Ok(p[0])
    ensures Ok(p[i]) && Tracks(p[0].mode.core, p[i].mode.core, sn)
    decreases i
  {
    hide Ok, Next, Tracks, GroupInFlight, Sound;
    if i == 0 {
      QueueInv(p[0]);
      StartsTracked(p[0], sn);
    } else {
      TracksPath(p, sn, i - 1);
      UpIsSound(p[i - 1], p[i]);
      NextOk(p[i - 1], p[i]);
      TracksStep(p[i - 1], p[i], p[0].mode.core, sn);
    }
  }

  lemma StartsTracked(s: State, sn: nat)
    requires s.mode.Up? && !GroupInFlight(s.mode.core.q) && sn <= s.mode.core.q.lastSeq && Ok(s)
    ensures Tracks(s.mode.core, s.mode.core, sn)
  {
    hide Ok, GC.Inv, GC.AllOps;
    var c := s.mode.core;
    QueueInv(s);
    CountBelow(c.q);
    ImmElsewhere(s);
  }

  lemma ImmElsewhere(s: State)
    requires s.mode.Up? && Ok(s)
    ensures s.mode.core.imm != [] ==> s.mode.core.immLog < s.mode.core.log
  {
    hide GC.Inv, HistoryOk, AppliedOk, MemOk, TreeUp, ViewOk, NumbersOk, ShapeOk, WorkerOk, DiskOk, History,
      LogSet;
  }

  /** Entries above `sn` in the first source make no difference to a read at `sn`. */
  lemma SameFirstHit(A: set<Entry>, M: set<Entry>, imm: set<Entry>, v: Version, key: Bytes, sn: nat, r: Option<Entry>)
    requires |v| == NUM_LEVELS && A <= M && forall x :: x in M && x !in A ==> x.sn > sn
    requires IsFirstHit(Sources(M, imm, v), key, sn, r)
    ensures IsFirstHit(Sources(A, imm, v), key, sn, r)
  {
    hide LevelSet, FileSet;
    var now, was := Sources(M, imm, v), Sources(A, imm, v);
    assert now[0] == M && was[0] == A && forall i :: 1 <= i < |now| ==> now[i] == was[i];
    assert NoHit(M, key, sn) <==> NoHit(A, key, sn);
    hide Sources;
    if r.Some? {
      var i :| HitAt(now, key, sn, r.value, i);
      assert HitAt(was, key, sn, r.value, i);
    }
  }

  /** A read whose sources were captured while no group was in flight answers, whenever it
      gets round to reading them, as the history stood when they were captured. */
  lemma CapturedReadsMatch(p: seq<State>, i: nat, M: seq<Entry>, key: Bytes, sn: nat, r: Option<Entry>)
    requires OpenPath(p) && i < |p| && !GroupInFlight(p[0].mode.core.q) && Ok(p[0])
    requires Floor(p[0].mode.core) <= sn <= p[0].mode.core.q.lastSeq && |p[0].mode.core.v| == NUM_LEVELS
    requires IsMemTable(p[i].mode.core, p[0].mode.core.log, M)
    requires IsFirstHit(Sources(SetOf(M), SetOf(p[0].mode.core.imm), p[0].mode.core.v), key, sn, r)
    ensures Answer(r) == View(p[0].mode.core.applied, key, sn)
  {
    hide Ok, Next, GroupInFlight, View, Sources, IsFirstHit, Settled, VersionOk, OrderOk, Sorted, ViewOk, Held,
      SeqUnique, History;
    var c := p[0].mode.core;
    TracksPath(p, sn, i);
    assert GrownAbove(c.mem, M, sn);
    SameFirstHit(SetOf(c.mem), SetOf(M), SetOf(c.imm), c.v, key, sn, r);
    CoreParts(p[0]);
    ReadIsHistory(p[0], key, sn, r);
  }

  /** What a captured memtable holds by now, and the rest of what was captured with it, is part
      of what has been applied by now. */
  lemma CapturedHeld(c0: Core, s: State, sn: nat, M: seq<Entry>)
    requires s.mode.Up? && Ok(s) && Tracks(c0, s.mode.core, sn) && IsMemTable(s.mode.core, c0.log, M)
    requires Held(c0) <= c0.applied
    ensures Sorted(M) && SetOf(c0.mem) <= SetOf(M) && SeqUnique(Held(c0.(mem := M)))
    ensures forall x :: x in Held(c0.(mem := M)) && x !in Held(c0) ==> x.sn > sn
    ensures Held(c0) <= Held(c0.(mem := M))
  {
    hide Ok, Sorted, OrderOk, VersionOk, ViewOk, Floor, VersionSet, SeqUnique, History, Settled;
    CoreParts(s);
    assert GrownAbove(c0.mem, M, sn);
    UniqueWithin(Held(c0.(mem := M)), s.mode.core.applied);
  }

  lemma AboveUnseen(E: set<Entry>, F: set<Entry>, sn: nat)
    requires E <= F && SeqUnique(F) && forall x :: x in F && x !in E ==> x.sn > sn
    ensures forall key :: View(F, key, sn) == View(E, key, sn)
  {
    hide View;
    forall key ensures View(F, key, sn) == View(E, key, sn) { ViewSame(F, E, key, sn); }
  }

  /** The children of a captured iterator, whenever they are read, show the captured history. */
  lemma CapturedChildren(p: seq<State>, i: nat, M: seq<Entry>, sn: nat)
    requires OpenPath(p) && i < |p| && !GroupInFlight(p[0].mode.core.q) && Ok(p[0])
    requires Floor(p[0].mode.core) <= sn <= p[0].mode.core.q.lastSeq && |p[0].mode.core.v| == NUM_LEVELS
    requires IsMemTable(p[i].mode.core, p[0].mode.core.log, M)
    ensures var runs := IteratorRuns(p[0].mode.core.(mem := M));
      && RunsSorted(runs) && SeqUnique(UnionOf(runs))
      && forall key :: View(UnionOf(runs), key, sn) == View(p[0].mode.core.applied, key, sn)
  {
    hide Ok, Next, GroupInFlight, View, VersionOk, OrderOk, Sorted, Held, SeqUnique, History, IteratorRuns,
      RunsSorted, UnionOf, Tracks, IsMemTable, Floor;
    var c := p[0].mode.core;
    TracksPath(p, sn, i);
    CoreParts(p[0]);
    CapturedHeld(c, p[i], sn, M);
    AboveUnseen(Held(c), Held(c.(mem := M)), sn);
    IteratorRunsAre(c.(mem := M));
    IteratorUnion(c.(mem := M));
  }

  /** A scan whose sources were captured while no group was in flight shows, whenever it gets
      round to reading them, exactly what point reads found when they were captured; and so
      does one that starts at a key. */
  lemma CapturedScansMatch(p: seq<State>, i: nat, M: seq<Entry>, from: Bytes, sn: nat)
    requires OpenPath(p) && i < |p| && !GroupInFlight(p[0].mode.core.q) && Ok(p[0])
    requires Floor(p[0].mode.core) <= sn <= p[0].mode.core.q.lastSeq && |p[0].mode.core.v| == NUM_LEVELS
    requires IsMemTable(p[i].mode.core, p[0].mode.core.log, M)
    ensures var runs := IteratorRuns(p[0].mode.core.(mem := M));
      var rows := Collapse(Entries(Merge(runs)), sn);
      var tail := Collapse(Entries(Merge(SeekRuns(runs, LookupKey(from, sn)))), sn);
      && RowsAscend(rows) && RowsAscend(tail)
      && (forall key, value :: Row(key, value) in rows <==> View(p[0].mode.core.applied, key, sn) == Some(value))
      && (forall key, value :: Row(key, value) in tail <==>
        Leq(from, key) && View(p[0].mode.core.applied, key, sn) == Some(value))
  {
    hide Ok, Next, GroupInFlight, View, IteratorRuns, RunsSorted, Collapse, Merge, UnionOf, SeekRuns, Entries,
      IsMemTable, RowsAscend, SeqUnique, Floor;
    var runs := IteratorRuns(p[0].mode.core.(mem := M));
    CapturedChildren(p, i, M, sn);
    ScanIsView(runs, sn);
    SeekShows(runs, from, sn);
  }
}
