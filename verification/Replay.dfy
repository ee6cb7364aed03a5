/** Replaying the logs, after DB::Recover in src/db.cpp: within a log sequence numbers
    ascend, so every replayed entry is new to the memtable it goes into. */
module Replays {
  import opened ByteStrings
  import opened InternalKeys
  import opened Views
  import opened Scans
  import opened Compactions
  import opened Trees
  import GC = GroupCommit
  import opened MemTables
  import opened Disks
  import opened Engine
  import opened EngineInv
  import opened EngineFront
  import opened EngineSnapshots
  import opened LogBytes
  import Wal

  ghost predicate Climbs(es: seq<Entry>) {
    forall i, j :: 0 <= i < j < |es| ==> es[i].sn < es[j].sn
  }

  ghost predicate LogsClimb(logs: map<nat, LogFile>) {
    forall n :: n in logs ==> Climbs(Concat(logs[n].groups))
  }

  // ------------------------------------------------------------- the invariant

  /** A step leaves a log alone, starts an empty one, or appends one group. */
  ghost predicate KeepsLogs(logs: map<nat, LogFile>, logs': map<nat, LogFile>) {
    forall n :: n in logs' ==> logs'[n].groups == [] || (n in logs && logs'[n].groups == logs[n].groups)
  }

  lemma FrontLogs(s: State, s': State)
    requires ForegroundStep(s, s')
    ensures KeepsLogs(s.disk.logs, s'.disk.logs) || exists q' :: LogGroup(s, s', q')
  {
    hide QuietQueueStep, GC.Append, GC.Apply, RecordEntries, Add;
  }

  lemma BackLogs(s: State, s': State)
    requires WorkerStep(s, s')
    ensures KeepsLogs(s.disk.logs, s'.disk.logs)
  {
    hide Install, AddNewest, AllSurvivors, IsCompaction, IsCut, DeadTable, Removed, Output, NoneEmpty;
  }

  lemma RecoveryLogs(s: State, s': State)
    requires RecoveryStep(s, s')
    ensures KeepsLogs(s.disk.logs, s'.disk.logs)
  {
    hide IsMaxSeq, Bumped, Sorted, AddNewest, AllSurvivors, DeadTable, History;
  }

  lemma LogInHistory(s: State, n: nat)
    requires Ok(s) && n in s.disk.logs
    ensures SetOf(Concat(s.disk.logs[n].groups)) <= History(s)
  {
    hide RecoveryOk, CoreOk, TreeOk, Covers, Counted, LogsOrdered, SeqUnique, History, Concat;
    LogConcat(s.disk.logs[n]);
    assert forall x :: x in LogSet(s.disk.logs[n]) ==> x in LogsSet(s.disk.logs, 0);
  }

  lemma LogConcat(l: LogFile)
    ensures SetOf(Concat(l.groups)) == LogSet(l)
  {
    hide Concat;
    forall x ensures x in Concat(l.groups) <==> x in LogSet(l) {
      ConcatContains(l.groups, x);
    }
  }

  lemma GroupClimbs(past: seq<seq<Entry>>, q: GC.Queue, q': GC.Queue, es: seq<Entry>)
    requires GC.Append(q, q') && HistoryOk(past, q) && q'.records != [] && Climbs(es)
    requires SetOf(es) <= HistSet(past, q.records) && GC.Inv(q)
    ensures Climbs(es + RecordEntries(LastRecord(q')))
  {
    hide GC.Inv, HistSet, HistoryOk, GC.AllOps, GC.TotalCount;
    NewGroup(past, q, q');
    var g := RecordEntries(LastRecord(q'));
    NumberSeqs(LastRecord(q').base, GC.AllOps(LastRecord(q').writers));
    assert forall i :: 0 <= i < |es| ==> es[i] in SetOf(es);
    assert forall i :: 0 <= i < |g| ==> g[i] in SetOf(g);
  }

  lemma LogGroupClimbs(s: State, s': State, q': GC.Queue)
    requires LogGroup(s, s', q') && LogsClimb(s.disk.logs) && Ok(s)
    ensures LogsClimb(s'.disk.logs)
  {
    hide Ok, RecordEntries, GC.Append, HistoryOk, HistSet, GC.Inv, Climbs, SetOf, History, Concat;
    var c := s.mode.core;
    var l := s.disk.logs[c.log];
    var g := RecordEntries(LastRecord(q'));
    assert Climbs(Concat(l.groups));
    LogInHistory(s, c.log);
    HistoryUp(s);
    QueueInv(s);
    HistoryFacts(s);
    GroupClimbs(s.past, c.q, q', Concat(l.groups));
    ConcatAppend(l.groups, g);
    forall n | n in s'.disk.logs ensures Climbs(Concat(s'.disk.logs[n].groups)) {
      if n != c.log { assert s'.disk.logs[n] == s.disk.logs[n]; }
    }
  }

  lemma HistoryFacts(s: State)
    requires s.mode.Up? && Ok(s)
    ensures HistoryOk(s.past, s.mode.core.q)
  {
    hide GC.Inv, HistoryOk, AppliedOk, LogsMatch, MemOk, TreeUp, ViewOk, NumbersOk, ShapeOk, WorkerOk,
      DiskOk, History;
  }

  lemma KeepsClimb(logs: map<nat, LogFile>, logs': map<nat, LogFile>)
    requires KeepsLogs(logs, logs') && LogsClimb(logs)
    ensures LogsClimb(logs')
  {
    hide Climbs;
    assert Climbs(Concat([])) by { NoneClimb(); }
  }

  lemma NoneClimb()
    ensures Climbs(Concat([]))
  {
  }

  /** In every log, sequence numbers ascend; every step keeps that. */
  lemma ClimbsStep(s: State, s': State)
    requires Next(s, s') && LogsClimb(s.disk.logs) && Ok(s)
    ensures LogsClimb(s'.disk.logs)
  {
    hide Ok, ForegroundStep, WorkerStep, RecoveryStep, LogsClimb, KeepsLogs, LogGroup, Groups;
    if ForegroundStep(s, s') {
      FrontLogs(s, s');
      if q' :| LogGroup(s, s', q') {
        LogGroupClimbs(s, s', q');
      } else {
        KeepsClimb(s.disk.logs, s'.disk.logs);
      }
    } else if WorkerStep(s, s') {
      BackLogs(s, s');
      KeepsClimb(s.disk.logs, s'.disk.logs);
    } else if RecoveryStep(s, s') {
      RecoveryLogs(s, s');
      KeepsClimb(s.disk.logs, s'.disk.logs);
    }
  }

  /** File numbers start at 1, and so does every counter on disk. */
  ghost predicate Counts(s: State) {
    s.disk.manifest.next > 0 && (s.mode.Up? && s.mode.core.bg.Committing? ==> s.mode.core.bg.next > 0)
  }

  lemma CounterPositive(s: State)
    requires Ok(s)
    ensures s.mode.Up? ==> s.mode.core.next > 0
    ensures s.mode.Built? || s.mode.Opened? ==> s.mode.next > 0
  {
    hide GC.Inv, HistoryOk, AppliedOk, LogsMatch, MemOk, TreeUp, ViewOk, ShapeOk, WorkerOk, DiskOk, History,
      TreeOk, FullyCovers, NewestLog, LogsSet;
  }

  lemma FrontCounts(s: State, s': State)
    requires ForegroundStep(s, s') && Counts(s)
    ensures Counts(s')
  {
    hide QuietQueueStep, GC.Append, GC.Apply, RecordEntries, Add;
  }

  lemma BackCounts(s: State, s': State)
    requires WorkerStep(s, s') && Counts(s) && (s.mode.Up? ==> s.mode.core.next > 0)
    ensures Counts(s')
  {
    hide Install, AddNewest, AllSurvivors, IsCompaction, IsCut, DeadTable, Removed, Output, NoneEmpty;
  }

  lemma RecoveryCounts(s: State, s': State)
    requires RecoveryStep(s, s') && Counts(s) && (s.mode.Built? || s.mode.Opened? ==> s.mode.next > 0)
    ensures Counts(s')
  {
    hide IsMaxSeq, Bumped, Sorted, AddNewest, AllSurvivors, DeadTable, History;
  }

  lemma CountsStep(s: State, s': State)
    requires Next(s, s') && Counts(s) && Ok(s)
    ensures Counts(s')
  {
    hide Ok, ForegroundStep, WorkerStep, RecoveryStep, Groups;
    CounterPositive(s);
    if ForegroundStep(s, s') {
      FrontCounts(s, s');
    } else if WorkerStep(s, s') {
      BackCounts(s, s');
    } else if RecoveryStep(s, s') {
      RecoveryCounts(s, s');
    }
  }

  // ------------------------------------------------------------------ the loop

  ghost predicate Rising(ns: seq<nat>) {
    forall i, j :: 0 <= i < j < |ns| ==> ns[i] < ns[j]
  }

  method SmallestOf(s: set<nat>) returns (n: nat)
    requires s != {}
    ensures n in s && forall m :: m in s ==> n <= m
  {
    n :| n in s;
    var rest := s - {n};
    while rest != {}
      invariant n in s && rest <= s && forall m :: m in s ==> n <= m || m in rest
      decreases |rest|
    {
      var m :| m in rest;
      if m < n { n := m; }
      rest := rest - {m};
    }
  }

  /** The logs to replay, oldest first. */
  method LogNumbers(logs: map<nat, LogFile>, from: nat) returns (ns: seq<nat>)
    ensures Rising(ns) && forall n :: n in ns <==> n in logs && n >= from
  {
    ns := [];
    var rest := set n | n in logs && n >= from;
    while rest != {}
      invariant Rising(ns) && (forall n :: n in rest ==> n in logs && n >= from)
      invariant forall n :: (n in ns || n in rest) <==> n in logs && n >= from
      invariant forall i, n :: 0 <= i < |ns| && n in rest ==> ns[i] < n
      decreases |rest|
    {
      var n := SmallestOf(rest);
      ns := ns + [n];
      rest := rest - {n};
    }
  }

  /** What the first `k` of the logs hold. */
  ghost function Upto(logs: map<nat, LogFile>, ns: seq<nat>, k: nat): set<Entry>
    requires k <= |ns|
  {
    set i, x | 0 <= i < k && ns[i] in logs && x in LogSet(logs[ns[i]]) :: x
  }

  lemma UptoNext(logs: map<nat, LogFile>, ns: seq<nat>, k: nat)
    requires k < |ns| && ns[k] in logs
    ensures Upto(logs, ns, k + 1) == Upto(logs, ns, k) + LogSet(logs[ns[k]])
  {
    hide LogSet;
  }

  lemma UptoAll(logs: map<nat, LogFile>, ns: seq<nat>, from: nat)
    requires forall n :: n in ns <==> n in logs && n >= from
    ensures Upto(logs, ns, |ns|) == LogsSet(logs, from)
  {
    hide LogSet;
    forall x | x in LogsSet(logs, from) ensures x in Upto(logs, ns, |ns|) {
      var n :| n in logs && n >= from && x in LogSet(logs[n]);
      assert n in ns;
      var i :| 0 <= i < |ns| && ns[i] == n;
    }
    forall x | x in Upto(logs, ns, |ns|) ensures x in LogsSet(logs, from) {
      var i :| 0 <= i < |ns| && ns[i] in logs && x in LogSet(logs[ns[i]]);
      assert ns[i] in ns;
    }
  }

  lemma UptoOlder(logs: map<nat, LogFile>, ns: seq<nat>, k: nat)
    requires LogsOrdered(logs) && Rising(ns) && k < |ns| && ns[k] in logs
    ensures forall x, y :: x in Upto(logs, ns, k) && y in LogSet(logs[ns[k]]) ==> x.sn < y.sn
  {
    hide LogSet;
    forall x, y | x in Upto(logs, ns, k) && y in LogSet(logs[ns[k]]) ensures x.sn < y.sn {
      var i :| 0 <= i < k && ns[i] in logs && x in LogSet(logs[ns[i]]);
      assert ns[i] < ns[k];
    }
  }

  lemma MaxGrows(recorded: nat, R: set<Entry>, m: nat, e: Entry)
    requires IsMaxSeq(recorded, R, m)
    ensures IsMaxSeq(recorded, R + {e}, if e.sn > m then e.sn else m)
  {
  }

  /** One log's records go into the memtable, entry by entry. */
  method ReplayOne(es: seq<Entry>, mem: seq<Entry>, recorded: nat, top: nat) returns (mem': seq<Entry>, top': nat)
    requires Sorted(mem) && Climbs(es) && IsMaxSeq(recorded, SetOf(mem), top)
    requires forall x, y :: x in SetOf(mem) && y in SetOf(es) ==> x.sn < y.sn
    ensures Sorted(mem') && SetOf(mem') == SetOf(mem) + SetOf(es) && IsMaxSeq(recorded, SetOf(mem'), top')
  {
    hide Before, Sorted, Add, IsMaxSeq;
    mem', top' := mem, top;
    for i := 0 to |es|
      invariant Sorted(mem') && SetOf(mem') == SetOf(mem) + SetOf(es[..i]) && IsMaxSeq(recorded, SetOf(mem'), top')
    {
      var e := es[i];
      forall k | 0 <= k < |mem'| ensures mem'[k].sn != e.sn {
        assert mem'[k] in SetOf(mem') && e in SetOf(es);
      }
      AddSorted(mem', e);
      AddContents(mem', e);
      MaxGrows(recorded, SetOf(mem'), top', e);
      assert SetOf(es[..i + 1]) == SetOf(es[..i]) + {e} by { assert es[..i + 1] == es[..i] + [e]; }
      mem' := Add(mem', e);
      if e.sn > top' { top' := e.sn; }
    }
    assert es[..|es|] == es;
  }

  lemma StartMax(recorded: nat)
    ensures IsMaxSeq(recorded, SetOf([]), recorded) && Sorted([])
  {
  }

  lemma StoredAt(files: map<nat, Bytes>, logs: map<nat, LogFile>, n: nat)
    requires FilesStore(files, logs) && n in logs
    ensures n in files && Wal.ReplayBytes(files[n]) == Wal.Replayed(logs[n].groups, logs[n].torn, None)
  {
    hide Stores;
    StoredReplays(files[n], logs[n]);
  }

  /** The replay loop of Recover, over the bytes of the log files, wherever a crash cut them:
      everything in the whole records of the logs from the manifest's on, in internal key
      order, and the largest sequence number among them and the recorded one. */
  method ReplayLogs(d: Disk, files: map<nat, Bytes>) returns (mem: seq<Entry>, top: nat)
    requires LogsOrdered(d.logs) && LogsClimb(d.logs) && FilesStore(files, d.logs)
    ensures Sorted(mem) && SetOf(mem) == Replay(d) && IsMaxSeq(d.manifest.lastSeq, Replay(d), top)
  {
    hide Sorted, IsMaxSeq, LogsOrdered, LogsSet, LogSet, Upto, Climbs, SetOf, Rising, FilesStore, Wal.ReplayBytes;
    var ns := LogNumbers(d.logs, d.manifest.log);
    mem, top := [], d.manifest.lastSeq;
    StartMax(d.manifest.lastSeq);
    UptoNone(d.logs, ns);
    for i := 0 to |ns|
      invariant Sorted(mem) && SetOf(mem) == Upto(d.logs, ns, i) && IsMaxSeq(d.manifest.lastSeq, SetOf(mem), top)
    {
      assert ns[i] in ns;
      ghost var l := d.logs[ns[i]];
      StoredAt(files, d.logs, ns[i]);
      var replayed := Wal.Replay(files[ns[i]]);
      LogConcat(l);
      UptoOlder(d.logs, ns, i);
      UptoNext(d.logs, ns, i);
      mem, top := ReplayOne(Concat(replayed.groups), mem, d.manifest.lastSeq, top);
    }
    UptoAll(d.logs, ns, d.manifest.log);
  }

  lemma UptoNone(logs: map<nat, LogFile>, ns: seq<nat>)
    ensures Upto(logs, ns, 0) == SetOf([])
  {
  }
}
