/** Repeatable reads. `last_sequence_` moves before a group's operations reach the memtable,
    so a snapshot taken meanwhile names sequence numbers that are still to be filled in. Reads
    through it repeat exactly when no prefix of the operations still pending changes a value,
    and in particular when no group is in flight. */
module EngineSnapshots {
  import opened ByteStrings
  import opened InternalKeys
  import opened Views
  import opened Scans
  import opened Versions
  import opened Trees
  import opened WriteBatches
  import GC = GroupCommit
  import opened MemTables
  import opened Updates
  import opened Disks
  import opened Engine
  import opened EngineInv
  import opened EngineFront
  import opened EngineRecovery
  import opened EngineTheorems

  /** Sequence numbers have been handed out whose operations are not yet in the memtable. */
  ghost predicate GroupInFlight(q: GC.Queue) {
    || q.phase.Reserved? || q.phase.Logged?
    || (q.phase.Applying? && q.records != [] && q.phase.done < GC.Count(LastRecord(q)))
  }

  /** Steps between states of one incarnation, all of which hold snapshot `id`. */
  ghost predicate LivePath(p: seq<State>, id: nat, sn: nat) {
    && p != []
    && (forall i :: 0 <= i < |p| ==> p[i].mode.Up? && id in p[i].mode.core.snaps && p[i].mode.core.snaps[id] == sn)
    && (forall i :: 0 < i < |p| ==> Next(p[i - 1], p[i]))
  }

  ghost predicate LiveFrom(s: State, p: seq<State>, id: nat, sn: nat) {
    LivePath(p, id, sn) && p[0] == s
  }

  /** The snapshot shows the same version of every key. */
  ghost predicate SameVersions(A: set<Entry>, B: set<Entry>, sn: nat) {
    forall x: Entry :: x.sn <= sn ==> (x in A <==> x in B)
  }

  /** Snapshot `id` has just been taken. */
  ghost predicate TakenNow(s: State, id: nat, sn: nat) {
    s.mode.Up? && id in s.mode.core.snaps && s.mode.core.snaps[id] == sn && sn == s.mode.core.q.lastSeq
  }

  /** The operations that have their sequence numbers and may still reach the memtable. */
  function PendingOps(q: GC.Queue): seq<Op> {
    match q.phase
    case Reserved(n, _, _) => if n <= |q.queue| then GC.AllOps(q.queue[..n]) else []
    case Logged(_, _) => if q.records != [] then GC.AllOps(LastRecord(q).writers) else []
    case Applying(_, done) =>
      if q.records != [] && done <= GC.Count(LastRecord(q)) then GC.AllOps(LastRecord(q).writers)[done..] else []
    case _ => []
  }

  /** However many of the pending operations get through, no key changes its value. */
  ghost predicate Steady(c: Core, sn: nat) {
    forall key, k :: 0 <= k <= |PendingOps(c.q)| ==>
      Updated(View(c.applied, key, sn), PendingOps(c.q)[..k], key) == View(c.applied, key, sn)
  }

  /** At the end of the path a read through the snapshot answers as it did at its start. */
  ghost predicate Repeats(p: seq<State>, key: Bytes, sn: nat) {
    && p != [] && p[0].mode.Up? && p[|p| - 1].mode.Up?
    && View(Held(p[|p| - 1].mode.core), key, sn) == View(Held(p[0].mode.core), key, sn)
  }

  // ------------------------------------------------------- steps of an open db

  /** How queue and memtable may change while the database stays open. */
  ghost predicate UpStep(c: Core, c': Core) {
    || (c'.applied == c.applied
      && (c'.q == c.q || c'.q == c.q.(failed := true) || QuietQueueStep(c.q, c'.q) || GC.Append(c.q, c'.q)))
    || (GC.Apply(c.q, c'.q) && c'.applied == c.applied + {RecordEntries(LastRecord(c.q))[c.q.phase.done]})
  }

  lemma UpSteps(s: State, s': State)
    requires Next(s, s') && s.mode.Up? && s'.mode.Up?
    ensures UpStep(s.mode.core, s'.mode.core) && s'.past == s.past
  {
    hide ForegroundStep, WorkerStep, RecoveryStep, UpStep;
    if ForegroundStep(s, s') {
      FrontSteps(s, s');
    } else if WorkerStep(s, s') {
      BackSteps(s, s');
    } else {
      NotRecovery(s, s');
    }
  }

  lemma FrontSteps(s: State, s': State)
    requires ForegroundStep(s, s') && s.mode.Up? && s'.mode.Up?
    ensures UpStep(s.mode.core, s'.mode.core) && s'.past == s.past
  {
    hide QuietQueueStep, GC.Append, GC.Apply, RecordEntries, Add;
  }

  lemma BackSteps(s: State, s': State)
    requires WorkerStep(s, s') && s.mode.Up? && s'.mode.Up?
    ensures s'.mode.core.applied == s.mode.core.applied
    ensures s'.mode.core.q == s.mode.core.q || s'.mode.core.q == s.mode.core.q.(failed := true)
    ensures UpStep(s.mode.core, s'.mode.core) && s'.past == s.past
  {
    hide Install, AddNewest, IsCompaction, DeadTable, Removed, Output, QuietQueueStep, GC.Append, GC.Apply,
      RecordEntries, NoneEmpty;
  }

  lemma NotRecovery(s: State, s': State)
    requires s.mode.Up?
    ensures !RecoveryStep(s, s')
  {
    hide IsMaxSeq, Bumped, Sorted, AddNewest, DeadTable;
  }

  lemma EntryAbove(r: GC.Record, i: nat)
    requires i < GC.Count(r)
    ensures RecordEntries(r)[i].sn == r.base + i
  {
    hide GC.AllOps;
  }

  lemma QueueInv(s: State)
    requires Ok(s) && s.mode.Up?
    ensures GC.Inv(s.mode.core.q)
  {
    hide GC.Inv, HistoryOk, AppliedOk, LogsMatch, MemOk, TreeUp, ViewOk, NumbersOk, ShapeOk, WorkerOk,
      DiskOk, History;
  }

  lemma {:induction false} PathOk(p: seq<State>, id: nat, sn: nat, i: nat)
    requires LivePath(p, id, sn) && Ok(p[0]) && i < |p|
    ensures Ok(p[i])
    decreases i
  {
    hide Ok, Next, Sound;
    if i > 0 {
      PathOk(p, id, sn, i - 1);
      UpIsSound(p[i - 1], p[i]);
      NextOk(p[i - 1], p[i]);
    }
  }

  lemma GroupNotEmpty(queue: seq<GC.Writer>, n: nat)
    requires GC.QueueOk(queue) && 1 <= n <= |queue|
    ensures |GC.AllOps(queue[..n])| >= 1
  {
    var g := queue[..n];
    assert g[|g| - 1] == queue[n - 1];
  }

  lemma InFlightFacts(q: GC.Queue)
    requires GC.Inv(q)
    ensures q.phase.Reserved? ==> 1 <= q.phase.n <= |q.queue| && |GC.AllOps(q.queue[..q.phase.n])| >= 1
    ensures q.phase.Reserved? ==> q.lastSeq + 1 == q.phase.base + |GC.AllOps(q.queue[..q.phase.n])|
    ensures q.phase.Logged? || q.phase.Applying? ==>
      q.records != [] && GC.Count(LastRecord(q)) >= 1 && LastRecord(q).base + GC.Count(LastRecord(q)) == q.lastSeq + 1
  {
    hide GC.OutcomeOk, GC.WritersOf, GC.ServedWriters, GC.LoggedWriters, GC.AllOps, GC.TotalCount;
    if q.phase.Reserved? {
      GroupNotEmpty(q.queue, q.phase.n);
    } else if q.phase.Logged? || q.phase.Applying? {
      GroupNotEmpty(q.queue, q.phase.n);
      var last := |q.records| - 1;
      assert q.records == q.records[..last] + [q.records[last]];
      GC.RecordsAppend(q.records[..last], q.records[last]);
    }
  }

  /** Pending operations end at the counter, and everything applied is numbered below them. */
  lemma PendingAbove(s: State)
    requires s.mode.Up? && Ok(s)
    ensures var q, ops := s.mode.core.q, PendingOps(s.mode.core.q);
      |ops| <= q.lastSeq + 1 && forall x :: x in s.mode.core.applied ==> x.sn + |ops| <= q.lastSeq
  {
    hide LogsMatch, MemOk, TreeUp, ViewOk, NumbersOk, ShapeOk, WorkerOk, DiskOk, History, HistSet, GC.Inv,
      GC.AllOps, GC.TotalCount, SeqUnique, GC.IsGroup, Number;
    var q := s.mode.core.q;
    InFlightFacts(q);
    CountBelow(q);
    if (q.phase.Logged? || q.phase.Applying?) && PendingOps(q) != [] {
      var es := RecordEntries(LastRecord(q));
      var done := if q.phase.Logged? then 0 else q.phase.done;
      EntryAbove(LastRecord(q), done);
      assert es[done..][0] == es[done] && es[done] in SetOf(es[done..]);
      assert q.phase.Logged? ==> es[0..] == es;
    }
  }

  lemma CountBelow(q: GC.Queue)
    requires GC.Inv(q)
    ensures q.start + GC.TotalCount(q.records) <= q.lastSeq
    ensures q.phase.Reserved? ==> q.phase.base == q.start + GC.TotalCount(q.records) + 1
    ensures q.phase.Applying? ==> q.records != [] && q.phase.done <= GC.Count(LastRecord(q))
  {
    hide GC.OutcomeOk, GC.WritersOf, GC.ServedWriters, GC.LoggedWriters, GC.AllOps, GC.TotalCount, GC.QueueOk,
      GC.InFlight, GC.WellNumbered;
  }

  /** A group is in flight exactly when operations are pending. */
  lemma InFlightIsPending(q: GC.Queue)
    requires GC.Inv(q)
    ensures GroupInFlight(q) <==> PendingOps(q) != []
  {
    hide GC.Inv, GC.AllOps;
    InFlightFacts(q);
    CountBelow(q);
  }

  // --------------------------------------------------- what a snapshot can see

  /** Nothing numbered at or below `sn` can still be added. */
  ghost predicate Settled(q: GC.Queue, sn: nat) {
    && (q.phase.Reserved? ==> sn < q.phase.base)
    && (q.phase.Logged? ==> q.records != [] && sn < LastRecord(q).base)
    && (q.phase.Applying? ==> q.records != [] && (sn < LastRecord(q).base || q.phase.done >= GC.Count(LastRecord(q))))
  }

  /** Since the snapshot was taken, over `A` and with `ops` pending, the first `k` of those
      operations have been applied; the rest is still pending or will never be applied. */
  ghost predicate Onward(q: GC.Queue, applied: set<Entry>, sn: nat, A: set<Entry>, ops: seq<Op>, k: nat) {
    && k <= |ops| <= sn + 1 && sn <= q.lastSeq
    && SameVersions(applied, A + SetOf(Number(sn + 1 - |ops|, ops)[..k]), sn)
    && (Settled(q, sn) || (PendingOps(q) == ops[k..] && q.lastSeq == sn))
  }

  lemma SettledQuiet(q: GC.Queue, q': GC.Queue, sn: nat)
    requires GC.Inv(q) && Settled(q, sn) && sn <= q.lastSeq && QuietQueueStep(q, q')
    ensures Settled(q', sn) && sn <= q'.lastSeq
  {
    hide GC.Inv, GC.IsGroup, GC.AllOps, GC.Outcomes, OpsFit;
  }

  lemma PendingQuiet(q: GC.Queue, q': GC.Queue)
    requires GC.Inv(q) && QuietQueueStep(q, q')
    ensures q.lastSeq <= q'.lastSeq
    ensures Settled(q', q.lastSeq) || (PendingOps(q') == PendingOps(q) && q'.lastSeq == q.lastSeq)
  {
    hide GC.Inv, GC.IsGroup, GC.AllOps, GC.Outcomes, OpsFit;
    InFlightFacts(q);
    if q'.phase.Reserved? && q.phase.Reserved? && q'.queue != q.queue {
      assert q.phase.n <= |q.queue| ==> q'.queue[..q.phase.n] == q.queue[..q.phase.n];
    }
  }

  lemma PendingAppend(q: GC.Queue, q': GC.Queue)
    requires GC.Append(q, q')
    ensures PendingOps(q') == PendingOps(q) && q'.lastSeq == q.lastSeq
    ensures forall sn :: Settled(q, sn) ==> Settled(q', sn)
  {
  }

  lemma OnwardQueue(q: GC.Queue, q': GC.Queue, applied: set<Entry>, sn: nat, A: set<Entry>, ops: seq<Op>, k: nat)
    requires GC.Inv(q) && Onward(q, applied, sn, A, ops, k)
    requires q' == q || q' == q.(failed := true) || QuietQueueStep(q, q') || GC.Append(q, q')
    ensures Onward(q', applied, sn, A, ops, k)
  {
    hide GC.Inv, GC.Append, QuietQueueStep, Settled, SameVersions, Number, SetOf, PendingOps;
    if QuietQueueStep(q, q') {
      PendingQuiet(q, q');
      if Settled(q, sn) { SettledQuiet(q, q', sn); }
    } else if GC.Append(q, q') {
      PendingAppend(q, q');
    } else {
      FailedSame(q, sn);
    }
  }

  lemma FailedSame(q: GC.Queue, sn: nat)
    ensures PendingOps(q.(failed := true)) == PendingOps(q) && Settled(q.(failed := true), sn) == Settled(q, sn)
  {
    hide GC.AllOps;
  }

  /** The operation that goes in is the next of those that were pending. */
  lemma AppliesNext(q: GC.Queue, ops: seq<Op>, k: nat)
    requires GC.Inv(q) && q.phase.Applying? && q.records != [] && q.phase.done < GC.Count(LastRecord(q))
    requires k <= |ops| <= q.lastSeq + 1 && PendingOps(q) == ops[k..]
    ensures k < |ops| && RecordEntries(LastRecord(q))[q.phase.done] == Number(q.lastSeq + 1 - |ops|, ops)[k]
  {
    hide GC.Inv, GC.AllOps;
    InFlightFacts(q);
    var all, done := GC.AllOps(LastRecord(q).writers), q.phase.done;
    assert all[done..][0] == all[done] && ops[k..][0] == ops[k];
  }

  lemma OnwardApply(q: GC.Queue, q': GC.Queue, applied: set<Entry>, sn: nat, A: set<Entry>, ops: seq<Op>, k: nat)
    returns (k': nat)
    requires GC.Inv(q) && Onward(q, applied, sn, A, ops, k) && GC.Apply(q, q')
    ensures Onward(q', applied + {RecordEntries(LastRecord(q))[q.phase.done]}, sn, A, ops, k')
  {
    hide GC.Inv, GC.AllOps, Number, RecordEntries;
    EntryAbove(LastRecord(q), q.phase.done);
    if Settled(q, sn) {
      k' := k;
    } else {
      AppliesNext(q, ops, k);
      k' := k + 1;
      var es := Number(sn + 1 - |ops|, ops);
      assert es[..k + 1] == es[..k] + [es[k]];
      assert ops[k..][1..] == ops[k + 1..];
      AppliedRest(q);
    }
  }

  lemma AppliedRest(q: GC.Queue)
    requires q.phase.Applying? && q.records != [] && q.phase.done < GC.Count(LastRecord(q))
    ensures PendingOps(q.(phase := q.phase.(done := q.phase.done + 1))) == PendingOps(q)[1..]
  {
    hide GC.AllOps;
  }

  lemma OnwardStep(s: State, s': State, sn: nat, A: set<Entry>, ops: seq<Op>, k: nat) returns (k': nat)
    requires Next(s, s') && s.mode.Up? && s'.mode.Up? && Ok(s)
    requires Onward(s.mode.core.q, s.mode.core.applied, sn, A, ops, k)
    ensures Onward(s'.mode.core.q, s'.mode.core.applied, sn, A, ops, k')
  {
    hide Ok, Next, QuietQueueStep, GC.Append, GC.Inv, GC.AllOps, Onward, RecordEntries;
    UpSteps(s, s');
    QueueInv(s);
    var c, c' := s.mode.core, s'.mode.core;
    if GC.Apply(c.q, c'.q) && c'.applied == c.applied + {RecordEntries(LastRecord(c.q))[c.q.phase.done]} {
      k' := OnwardApply(c.q, c'.q, c.applied, sn, A, ops, k);
    } else {
      k' := k;
      OnwardQueue(c.q, c'.q, c.applied, sn, A, ops, k);
    }
  }

  lemma {:induction false} OnwardPath(p: seq<State>, id: nat, sn: nat, A: set<Entry>, ops: seq<Op>, i: nat)
    returns (k: nat)
    requires LivePath(p, id, sn) && i < |p| && Onward(p[0].mode.core.q, p[0].mode.core.applied, sn, A, ops, 0)
    requires Ok(p[0])
    ensures Onward(p[i].mode.core.q, p[i].mode.core.applied, sn, A, ops, k)
    decreases i
  {
    hide Ok, Next, Onward;
    if i == 0 {
      k := 0;
    } else {
      k := OnwardPath(p, id, sn, A, ops, i - 1);
      PathOk(p, id, sn, i - 1);
      k := OnwardStep(p[i - 1], p[i], sn, A, ops, k);
    }
  }

  lemma StartsOnward(s: State, sn: nat)
    requires s.mode.Up? && sn == s.mode.core.q.lastSeq && Ok(s)
    ensures Onward(s.mode.core.q, s.mode.core.applied, sn, s.mode.core.applied, PendingOps(s.mode.core.q), 0)
  {
    hide Ok, Number, PendingOps, Settled;
    PendingAbove(s);
    var ops := PendingOps(s.mode.core.q);
    assert Number(sn + 1 - |ops|, ops)[..0] == [] && ops[0..] == ops;
  }

  lemma NumberPrefix(base: nat, ops: seq<Op>, k: nat)
    requires k <= |ops|
    ensures Number(base, ops)[..k] == Number(base, ops[..k])
  {
  }

  /** What the snapshot shows is the map it was taken over, updated by those operations. */
  lemma OnwardView(s: State, t: State, sn: nat, k: nat, key: Bytes)
    requires s.mode.Up? && t.mode.Up? && sn == s.mode.core.q.lastSeq && Ok(s) && Ok(t)
    requires Onward(t.mode.core.q, t.mode.core.applied, sn, s.mode.core.applied, PendingOps(s.mode.core.q), k)
    ensures View(t.mode.core.applied, key, sn)
      == Updated(View(s.mode.core.applied, key, sn), PendingOps(s.mode.core.q)[..k], key)
  {
    hide Ok, Number, PendingOps, Settled, View, Updated, SetOf, VersionOk, OrderOk, Sorted, ViewOk, Held, SeqUnique,
      History, SameVersions;
    var A, ops := s.mode.core.applied, PendingOps(s.mode.core.q);
    PendingAbove(s);
    CoreParts(s);
    CoreParts(t);
    UpdatedAt(A, t.mode.core.applied, sn, ops, k, key);
  }

  lemma UpdatedAt(A: set<Entry>, B: set<Entry>, sn: nat, ops: seq<Op>, k: nat, key: Bytes)
    requires k <= |ops| <= sn + 1 && SeqUnique(A) && SeqUnique(B) && forall x :: x in A ==> x.sn + |ops| <= sn
    requires SameVersions(B, A + SetOf(Number(sn + 1 - |ops|, ops)[..k]), sn)
    ensures View(B, key, sn) == Updated(View(A, key, sn), ops[..k], key)
  {
    hide Number, View, Updated, SetOf, SeqUnique;
    var base := sn + 1 - |ops|;
    NumberPrefix(base, ops, k);
    NumberBelow(base, ops[..k], A);
    ViewSame(B, A + SetOf(Number(base, ops[..k])), key, sn);
    GroupIsUpdate(A, base, ops[..k], key, sn);
  }

  /** A snapshot taken with no group in flight shows the same versions for as long as it
      lives, and every read through it returns the same answer. */
  lemma SnapshotRepeats(p: seq<State>, id: nat, sn: nat, i: nat)
    requires LivePath(p, id, sn) && i < |p|
    requires sn == p[0].mode.core.q.lastSeq && !GroupInFlight(p[0].mode.core.q) && Ok(p[0])
    ensures SameVersions(p[i].mode.core.applied, p[0].mode.core.applied, sn)
    ensures forall key :: View(p[i].mode.core.applied, key, sn) == View(p[0].mode.core.applied, key, sn)
    ensures forall key :: View(Held(p[i].mode.core), key, sn) == View(Held(p[0].mode.core), key, sn)
  {
    hide Ok, Next, View, GroupInFlight, PendingOps, Settled, Number;
    var A := p[0].mode.core.applied;
    QueueInv(p[0]);
    InFlightIsPending(p[0].mode.core.q);
    StartsOnward(p[0], sn);
    var k := OnwardPath(p, id, sn, A, [], i);
    assert SetOf(Number(sn + 1, [])[..0]) == {};
    PathOk(p, id, sn, i);
    CoreParts(p[i]);
    CoreParts(p[0]);
    forall key ensures View(p[i].mode.core.applied, key, sn) == View(A, key, sn) {
      ViewSame(p[i].mode.core.applied, A, key, sn);
    }
  }

  /** With no group in flight and no failed write, everything logged has been applied. */
  lemma QuietHistory(s: State)
    requires s.mode.Up? && !GroupInFlight(s.mode.core.q) && !s.mode.core.q.broken && Ok(s)
    ensures s.mode.core.applied == History(s)
  {
    hide HistoryOk, LogsMatch, MemOk, TreeUp, ViewOk, NumbersOk, ShapeOk, WorkerOk, DiskOk, GC.WellNumbered,
      GC.OutcomeOk, GC.WritersOf, GC.ServedWriters, GC.LoggedWriters, GC.TotalCount, GC.AllOps, GC.QueueOk, Number,
      GroupsSet;
    var c, H := s.mode.core, History(s);
    HistoryUp(s);
    if c.q.phase.Applying? {
      var es := RecordEntries(LastRecord(c.q));
      assert es[c.q.phase.done..] == [];
    }
    assert H - c.applied == {};
    assert forall x :: x in H ==> x in H - c.applied || x in c.applied;
  }

  /** A read through a snapshot that was taken with no group in flight returns, for as long as
      the snapshot lives, the newest version in the whole history as of when it was taken. */
  lemma SnapshotReadsHistory(p: seq<State>, id: nat, sn: nat, i: nat, key: Bytes)
    requires LivePath(p, id, sn) && i < |p|
    requires sn == p[0].mode.core.q.lastSeq && !GroupInFlight(p[0].mode.core.q) && !p[0].mode.core.q.broken && Ok(p[0])
    ensures View(Held(p[i].mode.core), key, sn) == View(History(p[0]), key, sn)
  {
    hide Ok, Next, View, Held, History, SameVersions, GroupInFlight;
    SnapshotRepeats(p, id, sn, i);
    QuietHistory(p[0]);
    PathOk(p, id, sn, i);
    CoreParts(p[i]);
    assert Floor(p[i].mode.core) <= sn;
  }

  // ----------------------------------------------------- carrying pending on

  /** One more pending operation is applied. */
  lemma ApplyStep(s: State) returns (s': State)
    requires s.mode.Up? && s.mode.core.q.phase.Applying? && s.mode.core.q.records != [] && Ok(s)
    requires s.mode.core.q.phase.done < GC.Count(LastRecord(s.mode.core.q))
    ensures s'.mode.Up? && ApplyOne(s, s', s'.mode.core.q) && Next(s, s') && Ok(s')
    ensures s'.mode.core.snaps == s.mode.core.snaps
  {
    hide Ok, GC.AllOps, Number, Add, RecordEntries, WorkerStep, RecoveryStep;
    var c := s.mode.core;
    var e := RecordEntries(LastRecord(c.q))[c.q.phase.done];
    var q' := c.q.(phase := c.q.phase.(done := c.q.phase.done + 1));
    s' := s.(mode := Up(c.(q := q', mem := Add(c.mem, e), applied := c.applied + {e})));
    assert ApplyOne(s, s', q');
    ForegroundOk(s, s');
  }

  ghost predicate HoldsSnapshot(s: State, id: nat, sn: nat) {
    s.mode.Up? && id in s.mode.core.snaps && s.mode.core.snaps[id] == sn
  }

  lemma PathFrom(s: State, t: State, p: seq<State>, id: nat, sn: nat)
    requires HoldsSnapshot(s, id, sn) && Next(s, t) && LivePath(p, id, sn) && p[0] == t
    ensures LivePath([s] + p, id, sn)
  {
    hide Next;
  }

  lemma {:induction false} ApplyingPath(s: State, id: nat, sn: nat, k: nat) returns (p: seq<State>)
    requires HoldsSnapshot(s, id, sn) && s.mode.core.q.phase.Applying? && s.mode.core.q.records != [] && Ok(s)
    requires s.mode.core.q.phase.done + k <= GC.Count(LastRecord(s.mode.core.q))
    ensures LivePath(p, id, sn) && p[0] == s && var done := s.mode.core.q.phase.done;
      p[|p| - 1].mode.core.applied
        == s.mode.core.applied + SetOf(RecordEntries(LastRecord(s.mode.core.q))[done..done + k])
    decreases k
  {
    hide Ok, RecordEntries, Next, Add;
    if k == 0 {
      p := [s];
    } else {
      var s' := ApplyStep(s);
      var rest := ApplyingPath(s', id, sn, k - 1);
      PathFrom(s, s', rest, id, sn);
      p := [s] + rest;
      var es, done := RecordEntries(LastRecord(s.mode.core.q)), s.mode.core.q.phase.done;
      assert es[done..done + k] == [es[done]] + es[done + 1..done + k];
    }
  }

  lemma LoggedPath(s: State, id: nat, sn: nat, k: nat) returns (p: seq<State>)
    requires HoldsSnapshot(s, id, sn) && s.mode.core.q.phase.Logged? && s.mode.core.q.records != [] && Ok(s)
    requires k <= GC.Count(LastRecord(s.mode.core.q))
    ensures LivePath(p, id, sn) && p[0] == s
    ensures p[|p| - 1].mode.core.applied == s.mode.core.applied + SetOf(RecordEntries(LastRecord(s.mode.core.q))[..k])
  {
    hide Ok, GC.AllOps, Number, Next, SetOf;
    var c := s.mode.core;
    var rs := if c.q.phase.sync then GC.MarkSynced(c.q.records) else c.q.records;
    var q1 := c.q.(phase := GC.Applying(c.q.phase.n, 0), records := rs);
    var s1 := s.(mode := Up(c.(q := q1)));
    assert GC.Sync(c.q, q1);
    QuietIsNext(s, s1, q1);
    var rest := ApplyingPath(s1, id, sn, k);
    PathFrom(s, s1, rest, id, sn);
    p := [s] + rest;
    assert RecordEntries(LastRecord(q1)) == RecordEntries(LastRecord(c.q));
    assert RecordEntries(LastRecord(c.q))[0..0 + k] == RecordEntries(LastRecord(c.q))[..k];
  }

  lemma QuietIsNext(s: State, s': State, q': GC.Queue)
    requires s.mode.Up? && QuietQueueStep(s.mode.core.q, q') && s' == s.(mode := Up(s.mode.core.(q := q'))) && Ok(s)
    ensures Next(s, s') && Ok(s')
  {
    hide Ok, QuietQueueStep, WorkerStep, RecoveryStep;
    assert QueueOnly(s, s', q');
    ForegroundOk(s, s');
  }

  /** The group in flight reaches the log. */
  lemma LogStep(s: State) returns (s': State)
    requires s.mode.Up? && s.mode.core.q.phase.Reserved? && s.mode.core.q.phase.n <= |s.mode.core.q.queue| && Ok(s)
    ensures s'.mode.Up? && LogGroup(s, s', s'.mode.core.q) && Next(s, s') && Ok(s')
  {
    hide Ok, RecordEntries, WorkerStep, RecoveryStep;
    var c, d := s.mode.core, s.disk;
    LogPresent(s);
    var q1 := c.q.(records := c.q.records + [GC.Record(c.q.phase.base, c.q.queue[..c.q.phase.n], false)],
                   phase := GC.Logged(c.q.phase.n, c.q.phase.sync));
    var l := LogFile(d.logs[c.log].groups + [RecordEntries(LastRecord(q1))], false);
    s' := s.(mode := Up(c.(q := q1)), disk := d.(logs := d.logs[c.log := l]));
    assert LogGroup(s, s', q1);
    ForegroundOk(s, s');
  }

  lemma LogPresent(s: State)
    requires Ok(s) && s.mode.Up?
    ensures s.mode.core.log in s.disk.logs
  {
    hide GC.Inv, HistoryOk, AppliedOk, MemOk, TreeUp, ViewOk, NumbersOk, ShapeOk, WorkerOk, DiskOk, History;
  }

  lemma ReservedPath(s: State, id: nat, sn: nat, k: nat) returns (p: seq<State>)
    requires HoldsSnapshot(s, id, sn) && s.mode.core.q.phase.Reserved? && s.mode.core.q.phase.n <= |s.mode.core.q.queue|
    requires Ok(s)
    requires k <= |PendingOps(s.mode.core.q)|
    ensures LivePath(p, id, sn) && p[0] == s
    ensures p[|p| - 1].mode.core.applied
      == s.mode.core.applied + SetOf(Number(s.mode.core.q.phase.base, PendingOps(s.mode.core.q))[..k])
  {
    hide Ok, GC.AllOps, Number, Next, SetOf;
    var s1 := LogStep(s);
    var rest := LoggedPath(s1, id, sn, k);
    PathFrom(s, s1, rest, id, sn);
    p := [s] + rest;
  }

  /** Any number of the pending operations may get through while the snapshot lives. */
  lemma PendingPath(s: State, id: nat, sn: nat, k: nat) returns (p: seq<State>)
    requires TakenNow(s, id, sn) && k <= |PendingOps(s.mode.core.q)| <= sn + 1 && Ok(s)
    ensures LivePath(p, id, sn) && p[0] == s && var ops := PendingOps(s.mode.core.q);
      p[|p| - 1].mode.core.applied == s.mode.core.applied + SetOf(Number(sn + 1 - |ops|, ops)[..k])
  {
    hide Ok, GC.AllOps, SetOf, GC.Inv, Next;
    var q, ops := s.mode.core.q, PendingOps(s.mode.core.q);
    QueueInv(s);
    InFlightFacts(q);
    CountBelow(q);
    if q.phase.Reserved? {
      p := ReservedPath(s, id, sn, k);
    } else if q.phase.Logged? {
      p := LoggedPath(s, id, sn, k);
    } else if q.phase.Applying? {
      p := ApplyingPath(s, id, sn, k);
      assert RecordEntries(LastRecord(q))[q.phase.done..q.phase.done + k] == Number(sn + 1 - |ops|, ops)[..k];
    } else {
      p := [s];
      assert SetOf(Number(sn + 1, [])[..0]) == {} by { assert Number(sn + 1, [])[..0] == []; NothingIn(); }
    }
  }

  lemma NothingIn()
    ensures SetOf([]) == {}
  {
  }

  /** Reads at a live snapshot are reads of what has been applied. */
  lemma LiveView(p: seq<State>, id: nat, sn: nat, i: nat, key: Bytes)
    requires LivePath(p, id, sn) && i < |p| && Ok(p[0])
    ensures Ok(p[i]) && View(Held(p[i].mode.core), key, sn) == View(p[i].mode.core.applied, key, sn)
  {
    hide Ok, Next, View, Held;
    PathOk(p, id, sn, i);
    CoreParts(p[i]);
    assert Floor(p[i].mode.core) <= sn;
  }

  lemma SteadyRepeats(s: State, id: nat, sn: nat, p: seq<State>, key: Bytes)
    requires TakenNow(s, id, sn) && LiveFrom(s, p, id, sn) && Steady(s.mode.core, sn) && Ok(s)
    ensures Repeats(p, key, sn)
  {
    hide Ok, Next, View, Held, Onward, PendingOps, Updated;
    StartsOnward(s, sn);
    var k := OnwardPath(p, id, sn, s.mode.core.applied, PendingOps(s.mode.core.q), |p| - 1);
    LiveView(p, id, sn, |p| - 1, key);
    LiveView(p, id, sn, 0, key);
    OnwardBound(p[|p| - 1].mode.core, sn, s.mode.core.applied, PendingOps(s.mode.core.q), k);
    OnwardView(s, p[|p| - 1], sn, k, key);
  }

  lemma OnwardBound(c: Core, sn: nat, A: set<Entry>, ops: seq<Op>, k: nat)
    requires Onward(c.q, c.applied, sn, A, ops, k)
    ensures k <= |ops|
  {
  }

  lemma UnsteadyChanges(s: State, id: nat, sn: nat, key: Bytes, k: nat) returns (p: seq<State>)
    requires TakenNow(s, id, sn) && k <= |PendingOps(s.mode.core.q)| && Ok(s)
    requires Updated(View(s.mode.core.applied, key, sn), PendingOps(s.mode.core.q)[..k], key)
      != View(s.mode.core.applied, key, sn)
    ensures LiveFrom(s, p, id, sn) && !Repeats(p, key, sn)
  {
    hide Ok, Next, View, Held, PendingOps, Updated, SetOf, Number;
    PendingAbove(s);
    p := PendingPath(s, id, sn, k);
    LiveView(p, id, sn, |p| - 1, key);
    LiveView(p, id, sn, 0, key);
    CoreParts(s);
    CoreParts(p[|p| - 1]);
    UpdatedAt(s.mode.core.applied, p[|p| - 1].mode.core.applied, sn, PendingOps(s.mode.core.q), k, key);
  }

  /** Reads through a snapshot repeat exactly when no prefix of the operations pending as it
      was taken changes the value of any key. */
  lemma SnapshotRepeatsIff(s: State, id: nat, sn: nat)
    requires TakenNow(s, id, sn) && Ok(s)
    ensures Steady(s.mode.core, sn) <==> forall p, key :: LiveFrom(s, p, id, sn) ==> Repeats(p, key, sn)
  {
    hide Ok, LiveFrom, Repeats, View, PendingOps, Updated;
    if Steady(s.mode.core, sn) {
      forall p, key | LiveFrom(s, p, id, sn) ensures Repeats(p, key, sn) {
        SteadyRepeats(s, id, sn, p, key);
      }
    } else {
      var key, k :| 0 <= k <= |PendingOps(s.mode.core.q)|
        && Updated(View(s.mode.core.applied, key, sn), PendingOps(s.mode.core.q)[..k], key)
          != View(s.mode.core.applied, key, sn);
      var p := UnsteadyChanges(s, id, sn, key, k);
    }
  }
}
