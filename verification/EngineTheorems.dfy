/** What the engine guarantees over every run whose recoveries are sound: point reads and scans
    are reads of the history, and the levels stay in order. */
module EngineTheorems {
  import opened ByteStrings
  import opened InternalKeys
  import opened Views
  import opened MergeSpec
  import opened Scans
  import opened Versions
  import opened Trees
  import GC = GroupCommit
  import opened Disks
  import opened Engine
  import opened EngineInv
  import opened EngineFront
  import opened EngineBack
  import opened EngineRecovery

  ghost predicate IsExecution(run: seq<State>) {
    run != [] && run[0] == Init() && forall i :: 0 < i < |run| ==> Next(run[i - 1], run[i])
  }

  /** An execution whose recoveries are sound. */
  ghost predicate SoundRun(run: seq<State>) {
    IsExecution(run) && forall i :: 0 < i < |run| ==> Sound(run[i - 1], run[i])
  }

  lemma {:induction false} RunOk(run: seq<State>, i: nat)
    requires SoundRun(run) && i < |run|
    ensures Ok(run[i])
    decreases i
  {
    hide Ok, Next, Init, Sound;
    if i == 0 {
      InitOk();
    } else {
      RunOk(run, i - 1);
      NextOk(run[i - 1], run[i]);
    }
  }

  /** The invariant holds all along a run exactly when its recoveries are sound. */
  lemma SoundIffOk(run: seq<State>)
    requires IsExecution(run)
    ensures SoundRun(run) <==> forall i :: 0 <= i < |run| ==> Ok(run[i])
  {
    hide Ok, Next, Init, Sound;
    if SoundRun(run) {
      forall i | 0 <= i < |run| ensures Ok(run[i]) { RunOk(run, i); }
    }
    if forall i :: 0 <= i < |run| ==> Ok(run[i]) {
      forall i | 0 < i < |run| ensures Sound(run[i - 1], run[i]) { NextOkIff(run[i - 1], run[i]); }
    }
  }

  // ------------------------------------------------------------------- reads

  lemma CoreParts(s: State)
    requires Ok(s) && s.mode.Up?
    ensures var c := s.mode.core;
      && VersionOk(c.v) && OrderOk(SetOf(c.mem), SetOf(c.imm), c.v) && Sorted(c.mem) && Sorted(c.imm)
      && ViewOk(Held(c), c.applied, Floor(c))
      && Held(c) <= c.applied <= History(s) && SeqUnique(Held(c)) && SeqUnique(c.applied) && SeqUnique(History(s))
  {
    hide GC.Inv, HistoryOk, AppliedOk, LogsMatch, ViewOk, NumbersOk, ShapeOk, WorkerOk, DiskOk, History,
      OrderOk, Sorted, VersionOk, SharedLow, TablesHold, VersionSet, Held, SeqUnique;
    HeldFacts(s.mode.core, s.disk, s.past, History(s));
  }

  lemma ReadIsHistory(s: State, key: Bytes, sn: nat, r: Option<Entry>)
    requires Ok(s) && s.mode.Up? && Floor(s.mode.core) <= sn
    requires VersionOk(s.mode.core.v)
    requires IsFirstHit(Sources(SetOf(s.mode.core.mem), SetOf(s.mode.core.imm), s.mode.core.v), key, sn, r)
    ensures Answer(r) == View(s.mode.core.applied, key, sn)
  {
    hide Ok, View, Sources, OrderOk, Sorted, VersionSet, VersionOk, IsFirstHit;
    var c := s.mode.core;
    CoreParts(s);
    ShapeOfVersion(c.v);
    GetIsView(SetOf(c.mem), SetOf(c.imm), c.v, key, sn, r);
  }

  /** In every reachable state of an open database, a point read at any live snapshot, or at
      any sequence at or above the smallest one, returns exactly the newest applied version,
      whatever flushes and compactions have done to the tree. */
  lemma ReadsMatchHistory(run: seq<State>, s: State, key: Bytes, sn: nat, r: Option<Entry>)
    requires SoundRun(run) && s in run && s.mode.Up? && |s.mode.core.v| == NUM_LEVELS
    requires sn >= Floor(s.mode.core) || sn in s.mode.core.snaps.Values
    requires IsFirstHit(Sources(SetOf(s.mode.core.mem), SetOf(s.mode.core.imm), s.mode.core.v), key, sn, r)
    ensures Answer(r) == View(s.mode.core.applied, key, sn)
  {
    hide Ok, Next, Init, View, IsFirstHit, Sources, VersionOk;
    var i :| 0 <= i < |run| && run[i] == s;
    RunOk(run, i);
    CoreParts(s);
    ReadIsHistory(s, key, sn, r);
  }

  /** Below L0, files of a level are always disjoint and in order; L0 is newest first. */
  lemma LevelsAlwaysDisjoint(run: seq<State>, s: State, l: nat)
    requires SoundRun(run) && s in run && s.mode.Up? && l < NUM_LEVELS
    ensures |s.mode.core.v| == NUM_LEVELS
    ensures if l == 0 then LevelZero(s.mode.core.v[0]) else LevelSorted(s.mode.core.v[l])
  {
    hide Ok, Next, Init, LevelZero, LevelSorted;
    var i :| 0 <= i < |run| && run[i] == s;
    RunOk(run, i);
    CoreParts(s);
  }

  /** The children NewIterator merges: memtables, each L0 file, each deeper level as one run. */
  function IteratorRuns(c: Core): seq<seq<Entry>>
    requires |c.v| == NUM_LEVELS
  {
    [c.mem, c.imm]
    + EntriesOf(c.v[0])
    + seq(NUM_LEVELS - 1, i requires 0 <= i < NUM_LEVELS - 1 => Concat(EntriesOf(c.v[i + 1])))
  }

  lemma IteratorRunsAre(c: Core)
    requires VersionOk(c.v) && Sorted(c.mem) && Sorted(c.imm)
    ensures RunsSorted(IteratorRuns(c))
  {
    hide Before, ById;
    var runs := IteratorRuns(c);
    forall i | 0 <= i < |runs| ensures Sorted(runs[i]) {
      if i >= 2 + |c.v[0]| {
        var l := i - 1 - |c.v[0]|;
        LevelIsRun(c.v[l]);
        assert runs[i] == Concat(EntriesOf(c.v[l]));
      } else if i >= 2 {
        assert FileOk(c.v[0][i - 2]);
      }
    }
  }

  lemma LevelConcatSet(files: seq<File>, x: Entry)
    ensures x in Concat(EntriesOf(files)) <==> x in LevelSet(files)
  {
    ConcatContains(EntriesOf(files), x);
    if x in LevelSet(files) {
      var f :| f in files && x in f.entries;
      var i :| 0 <= i < |files| && files[i] == f;
      assert x in EntriesOf(files)[i];
    }
  }

  lemma IteratorUnion(c: Core)
    requires |c.v| == NUM_LEVELS
    ensures UnionOf(IteratorRuns(c)) == Held(c)
  {
    var runs, n := IteratorRuns(c), |c.v[0]|;
    UnionIs(SetOf(c.mem), SetOf(c.imm), c.v);
    forall x ensures x in UnionOf(runs) <==> x in Held(c) {
      if x in UnionOf(runs) {
        var i: nat :| i < |runs| && x in runs[i];
        RunInHeld(c, i, x);
      }
      if x in Held(c) { HeldInRuns(c, x); }
    }
  }

  lemma RunInHeld(c: Core, i: nat, x: Entry)
    requires |c.v| == NUM_LEVELS && i < |IteratorRuns(c)| && x in IteratorRuns(c)[i]
    ensures x in Held(c)
  {
    hide LevelSet, VersionSet, FileSet;
    var n := |c.v[0]|;
    if i >= 2 + n {
      var l := i - 1 - n;
      assert IteratorRuns(c)[i] == Concat(EntriesOf(c.v[l]));
      LevelConcatSet(c.v[l], x);
      LevelInVersion(c.v, l);
    } else if i >= 2 {
      assert x in c.v[0][i - 2].entries;
      LevelInVersion(c.v, 0);
      assert c.v[0][i - 2] in c.v[0] && x in FileSet(c.v[0][i - 2]) by { InFileSet(c.v[0][i - 2], x); }
    }
  }

  lemma InFileSet(f: File, x: Entry)
    requires x in f.entries
    ensures x in FileSet(f)
  {
  }

  lemma HeldInRuns(c: Core, x: Entry)
    requires |c.v| == NUM_LEVELS && x in Held(c)
    ensures x in UnionOf(IteratorRuns(c))
  {
    var runs, n := IteratorRuns(c), |c.v[0]|;
    if x in c.mem {
      assert x in runs[0];
    } else if x in c.imm {
      assert x in runs[1];
    } else {
      var l: nat, f: File :| l < |c.v| && f in c.v[l] && x in f.entries;
      if l == 0 {
        var i :| 0 <= i < n && c.v[0][i] == f;
        assert runs[2 + i] == f.entries;
      } else {
        LevelConcatSet(c.v[l], x);
        assert runs[1 + n + l] == Concat(EntriesOf(c.v[l]));
      }
    }
  }

  /** A scan of the open database shows exactly what point reads at the same sequence find. */
  lemma ScansMatchHistory(run: seq<State>, s: State, sn: nat)
    requires SoundRun(run) && s in run && s.mode.Up? && |s.mode.core.v| == NUM_LEVELS && sn >= Floor(s.mode.core)
    ensures var rows := Collapse(Entries(Merge(IteratorRuns(s.mode.core))), sn);
      && RowsAscend(rows)
      && forall key, value :: Row(key, value) in rows <==> View(s.mode.core.applied, key, sn) == Some(value)
  {
    hide Ok, Next, Init, View, VersionOk, Sorted, IteratorRuns, Held, RunsSorted, Collapse, Merge, UnionOf, OrderOk;
    var i :| 0 <= i < |run| && run[i] == s;
    RunOk(run, i);
    CoreParts(s);
    IteratorRunsAre(s.mode.core);
    IteratorUnion(s.mode.core);
    ScanIsView(IteratorRuns(s.mode.core), sn);
  }
}
