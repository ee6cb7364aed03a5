/** The writer queue, after DB::Write and DB::BuildBatchGroup in src/db.cpp.

    One caller at a time is the leader. It reserves a contiguous run of sequence numbers for
    itself and the writers behind it, appends their batches as one record, syncs if need be,
    applies the operations one by one, and retires everyone it covered. Each of those is a
    step of its own here, because other threads run in between. */
module GroupCommit {
  import opened ByteStrings
  import opened WriteBatches

  datatype Writer = Writer(id: nat, ops: seq<Op>, sync: bool)

  // ------------------------------------------------------------- the group

  /** WriteBatch::ApproximateSize. */
  function Size(w: Writer): nat {
    |EncodeOps(w.ops)|
  }

  function TotalSize(ws: seq<Writer>): nat {
    if ws == [] then 0 else TotalSize(ws[..|ws| - 1]) + Size(ws[|ws| - 1])
  }

  const LARGE: nat := 0x100000
  const SMALL: nat := 0x20000

  function Budget(first: Writer): nat {
    if Size(first) <= SMALL then Size(first) + SMALL else LARGE
  }

  /** The first `n` queued writers may share one record: no writer that demands a sync rides
      behind a leader that does not, and every follower keeps the group within budget. */
  ghost predicate MayGroup(queue: seq<Writer>, n: nat) {
    && 1 <= n <= |queue|
    && forall j :: 1 <= j < n ==> MayFollow(queue, j)
  }

  predicate MayFollow(queue: seq<Writer>, j: nat)
    requires 1 <= j < |queue|
  {
    (queue[j].sync ==> queue[0].sync) && TotalSize(queue[..j]) + Size(queue[j]) <= Budget(queue[0])
  }

  /** The group the leader forms: the longest prefix that may share a record. */
  ghost predicate IsGroup(queue: seq<Writer>, n: nat) {
    MayGroup(queue, n) && (n == |queue| || !MayFollow(queue, n))
  }

  lemma GroupUnique(queue: seq<Writer>, m: nat, n: nat)
    requires IsGroup(queue, m) && IsGroup(queue, n)
    ensures m == n
  {
    hide MayFollow;
  }

  lemma {:induction false} TotalNext(ws: seq<Writer>, n: nat)
    requires n < |ws|
    ensures TotalSize(ws[..n + 1]) == TotalSize(ws[..n]) + Size(ws[n])
  {
    assert ws[..n + 1][..n] == ws[..n];
  }

  /** A leader of up to 128 KiB takes at most another 128 KiB along, so that it is not held up;
      a larger one fills its record up to 1 MiB. The group stops only at the end of the queue,
      at a writer that demands a sync its leader does not, or where the next batch would not
      fit. */
  lemma GroupSizeIs(queue: seq<Writer>, n: nat)
    requires IsGroup(queue, n)
    ensures var lead, total := Size(queue[0]), TotalSize(queue[..n]);
      && (n > 1 ==> total <= if lead <= 131072 then lead + 131072 else 1048576)
      && (n < |queue| && (queue[n].sync ==> queue[0].sync) ==>
          total + Size(queue[n]) > if lead <= 131072 then lead + 131072 else 1048576)
  {
    if n > 1 {
      assert MayFollow(queue, n - 1);
      TotalNext(queue, n - 1);
    }
  }

  function AllOps(ws: seq<Writer>): seq<Op> {
    if ws == [] then [] else AllOps(ws[..|ws| - 1]) + ws[|ws| - 1].ops
  }

  method BuildBatchGroup(queue: seq<Writer>) returns (n: nat, merged: seq<Op>)
    requires queue != []
    ensures IsGroup(queue, n) && merged == AllOps(queue[..n])
  {
    n, merged := 1, queue[0].ops;
    var size := Size(queue[0]);
    var budget := LARGE;
    if size <= SMALL { budget := size + SMALL; }
    assert queue[..1] == [queue[0]];
    assert TotalSize([queue[0]]) == TotalSize([]) + size && AllOps([queue[0]]) == AllOps([]) + merged;
    while n < |queue|
      invariant MayGroup(queue, n) && budget == Budget(queue[0])
      invariant size == TotalSize(queue[..n]) && merged == AllOps(queue[..n])
      decreases |queue| - n
    {
      var w := queue[n];
      if w.sync && !queue[0].sync { break; }
      if size + Size(w) > budget { break; }
      assert queue[..n + 1][..n] == queue[..n];
      merged := merged + w.ops;
      size := size + Size(w);
      n := n + 1;
    }
  }

  // ------------------------------------------------------------ the machine

  datatype Status = Ok | Error

  /** One log record: the writers whose batches it holds and its first sequence number. */
  datatype Record = Record(base: nat, writers: seq<Writer>, synced: bool)

  function Count(r: Record): nat {
    |AllOps(r.writers)|
  }

  datatype Phase =
    | Idle
    | Reserved(n: nat, base: nat, sync: bool)   // sequence numbers taken, nothing written
    | Logged(n: nat, sync: bool)                // record appended, not yet synced
    | Applying(n: nat, done: nat)               // operations going into the memtable
    | Finished(n: nat, status: Status, logged: bool)

  datatype Outcome = Outcome(writer: Writer, status: Status, record: Option<nat>)

  datatype Queue = Queue(
    start: nat,              // last sequence number when the database was opened
    arrived: seq<Writer>,    // every writer that ever joined, in order
    served: seq<Outcome>,    // those that have returned, in order
    queue: seq<Writer>,
    phase: Phase,
    records: seq<Record>,    // what is in the log, in order
    lastSeq: nat,
    failed: bool,            // bg_error_
    broken: bool)            // an append or a sync has failed

  function Open(lastSeq: nat): Queue {
    Queue(lastSeq, [], [], [], Idle, [], lastSeq, false, false)
  }

  function TotalCount(rs: seq<Record>): nat {
    if rs == [] then 0 else TotalCount(rs[..|rs| - 1]) + Count(rs[|rs| - 1])
  }

  function WritersOf(rs: seq<Record>): seq<Writer> {
    if rs == [] then [] else WritersOf(rs[..|rs| - 1]) + rs[|rs| - 1].writers
  }

  function ServedWriters(os: seq<Outcome>): seq<Writer> {
    if os == [] then [] else ServedWriters(os[..|os| - 1]) + [os[|os| - 1].writer]
  }

  /** The served writers whose batches reached the log. */
  function LoggedWriters(os: seq<Outcome>): seq<Writer> {
    if os == [] then []
    else LoggedWriters(os[..|os| - 1]) + (if os[|os| - 1].record.Some? then [os[|os| - 1].writer] else [])
  }

  function Outcomes(ws: seq<Writer>, status: Status, record: Option<nat>): (r: seq<Outcome>)
    ensures |r| == |ws|
  {
    seq(|ws|, i requires 0 <= i < |ws| => Outcome(ws[i], status, record))
  }

  // steps

  ghost predicate Enqueue(q: Queue, q': Queue, w: Writer) {
    w.ops != [] && OpsFit(w.ops) && q' == q.(arrived := q.arrived + [w], queue := q.queue + [w])
  }

  ghost predicate Reserve(q: Queue, q': Queue, n: nat, sync: bool) {
    && q.phase.Idle? && !q.failed && IsGroup(q.queue, n) && (q.queue[0].sync ==> sync)
    && q' == q.(phase := Reserved(n, q.lastSeq + 1, sync), lastSeq := q.lastSeq + |AllOps(q.queue[..n])|)
  }

  ghost predicate Append(q: Queue, q': Queue) {
    && q.phase.Reserved? && q.phase.n <= |q.queue|
    && q' == q.(records := q.records + [Record(q.phase.base, q.queue[..q.phase.n], false)],
                phase := Logged(q.phase.n, q.phase.sync))
  }

  ghost predicate AppendFails(q: Queue, q': Queue) {
    q.phase.Reserved? && q' == q.(phase := Finished(q.phase.n, Error, false), broken := true)
  }

  ghost predicate Sync(q: Queue, q': Queue) {
    && q.phase.Logged? && q.records != []
    && q' == q.(phase := Applying(q.phase.n, 0),
                records := if q.phase.sync then MarkSynced(q.records) else q.records)
  }

  function MarkSynced(rs: seq<Record>): seq<Record>
    requires rs != []
  {
    rs[|rs| - 1 := rs[|rs| - 1].(synced := true)]
  }

  ghost predicate SyncFails(q: Queue, q': Queue) {
    q.phase.Logged? && q.phase.sync && q' == q.(phase := Finished(q.phase.n, Error, true), broken := true)
  }

  /** Operation number `done` of the last record goes into the memtable. */
  ghost predicate Apply(q: Queue, q': Queue) {
    && q.phase.Applying? && q.records != [] && q.phase.done < Count(q.records[|q.records| - 1])
    && q' == q.(phase := q.phase.(done := q.phase.done + 1))
  }

  ghost predicate Finish(q: Queue, q': Queue) {
    && q.phase.Applying? && q.records != [] && q.phase.done == Count(q.records[|q.records| - 1])
    && q' == q.(phase := Finished(q.phase.n, Ok, true))
  }

  ghost predicate Retire(q: Queue, q': Queue) {
    && q.phase.Finished? && q.phase.n <= |q.queue| && (q.phase.logged ==> q.records != [])
    && var record := if q.phase.logged then Some(|q.records| - 1) else None;
       q' == q.(served := q.served + Outcomes(q.queue[..q.phase.n], q.phase.status, record),
                queue := q.queue[q.phase.n..],
                phase := Idle,
                failed := q.failed || q.phase.status.Error?)
  }

  /** The leader is turned away before forming a group: an earlier error, or no room. */
  ghost predicate Reject(q: Queue, q': Queue) {
    && q.phase.Idle? && q.queue != []
    && q' == q.(served := q.served + [Outcome(q.queue[0], Error, None)], queue := q.queue[1..])
  }

  /** A flush or compaction failed. */
  ghost predicate BackgroundError(q: Queue, q': Queue) {
    q' == q.(failed := true)
  }

  ghost predicate Step(q: Queue, q': Queue) {
    || (exists w :: Enqueue(q, q', w))
    || (exists n, sync :: Reserve(q, q', n, sync))
    || Append(q, q') || AppendFails(q, q') || Sync(q, q') || SyncFails(q, q')
    || Apply(q, q') || Finish(q, q') || Retire(q, q') || Reject(q, q') || BackgroundError(q, q')
  }

  // --------------------------------------------------------------- invariant

  /** The writers of the group in flight, once their record is in the log. */
  ghost function InFlight(q: Queue): seq<Writer> {
    if (q.phase.Logged? || q.phase.Applying? || (q.phase.Finished? && q.phase.logged)) && q.phase.n <= |q.queue|
    then q.queue[..q.phase.n] else []
  }

  ghost predicate WellNumbered(start: nat, rs: seq<Record>) {
    forall i :: 0 <= i < |rs| ==> rs[i].base == start + TotalCount(rs[..i]) + 1
  }

  ghost predicate QueueOk(ws: seq<Writer>) {
    forall i :: 0 <= i < |ws| ==> ws[i].ops != [] && OpsFit(ws[i].ops)
  }

  ghost predicate OutcomeOk(o: Outcome, rs: seq<Record>) {
    && (o.status.Ok? ==> o.record.Some?)
    && (o.record.Some? ==> o.record.value < |rs| && o.writer in rs[o.record.value].writers)
    && (o.status.Ok? && o.writer.sync ==> rs[o.record.value].synced)
  }

  ghost predicate PhaseOk(q: Queue) {
    match q.phase
    case Idle => !q.failed ==> q.lastSeq == q.start + TotalCount(q.records)
    case Reserved(n, base, sync) =>
      && IsGroupSync(q.queue, n, sync)
      && base == q.start + TotalCount(q.records) + 1 && q.lastSeq + 1 == base + |AllOps(q.queue[..n])|
    case Logged(n, sync) => IsGroupSync(q.queue, n, sync) && LastRecordIs(q, n) && !q.records[|q.records| - 1].synced
    case Applying(n, done) =>
      && 1 <= n <= |q.queue| && LastRecordIs(q, n) && done <= Count(q.records[|q.records| - 1])
      && SyncKept(q, n)
    case Finished(n, status, logged) =>
      && 1 <= n <= |q.queue|
      && (status.Ok? ==> logged && LastRecordIs(q, n) && SyncKept(q, n))
      && (logged ==> q.records != [] && q.records[|q.records| - 1].writers == q.queue[..n])
  }

  /** A member of the group that demands a sync forces one. */
  ghost predicate IsGroupSync(queue: seq<Writer>, n: nat, sync: bool) {
    1 <= n <= |queue| && forall j :: 0 <= j < n && queue[j].sync ==> sync
  }

  ghost predicate LastRecordIs(q: Queue, n: nat) {
    && q.records != [] && n <= |q.queue| && q.records[|q.records| - 1].writers == q.queue[..n]
    && q.lastSeq == q.start + TotalCount(q.records)
  }

  ghost predicate SyncKept(q: Queue, n: nat)
    requires n <= |q.queue| && q.records != []
  {
    forall j :: 0 <= j < n && q.queue[j].sync ==> q.records[|q.records| - 1].synced
  }

  ghost predicate Inv(q: Queue) {
    && QueueOk(q.queue)
    && q.arrived == ServedWriters(q.served) + q.queue
    && WritersOf(q.records) == LoggedWriters(q.served) + InFlight(q)
    && WellNumbered(q.start, q.records)
    && q.start + TotalCount(q.records) <= q.lastSeq
    && PhaseOk(q)
    && (forall i :: 0 <= i < |q.served| ==> OutcomeOk(q.served[i], q.records))
    && (q.phase.Finished? && q.phase.status.Error? ==> q.broken)
    && (q.broken ==> (q.phase.Idle? && q.failed) || (q.phase.Finished? && q.phase.status.Error?))
  }

  lemma OpenOk(lastSeq: nat)
    ensures Inv(Open(lastSeq))
  {
  }

  lemma ServedOne(os: seq<Outcome>, o: Outcome)
    ensures ServedWriters(os + [o]) == ServedWriters(os) + [o.writer]
    ensures LoggedWriters(os + [o]) == LoggedWriters(os) + (if o.record.Some? then [o.writer] else [])
  {
    assert (os + [o])[..|os|] == os;
  }

  lemma {:induction false} ServedAppend(os: seq<Outcome>, ws: seq<Writer>, status: Status, record: Option<nat>)
    ensures ServedWriters(os + Outcomes(ws, status, record)) == ServedWriters(os) + ws
    ensures LoggedWriters(os + Outcomes(ws, status, record)) == LoggedWriters(os) + (if record.Some? then ws else [])
    decreases |ws|
  {
    hide ServedWriters, LoggedWriters;
    if ws == [] {
      assert os + Outcomes(ws, status, record) == os;
    } else {
      var front, last := ws[..|ws| - 1], Outcome(ws[|ws| - 1], status, record);
      ServedAppend(os, front, status, record);
      ServedOne(os + Outcomes(front, status, record), last);
      assert os + Outcomes(ws, status, record) == os + Outcomes(front, status, record) + [last];
      assert ws == front + [last.writer];
    }
  }

  lemma RecordsAppend(rs: seq<Record>, r: Record)
    ensures TotalCount(rs + [r]) == TotalCount(rs) + Count(r)
    ensures WritersOf(rs + [r]) == WritersOf(rs) + r.writers
  {
    assert (rs + [r])[..|rs|] == rs;
  }

  lemma MarkKeeps(rs: seq<Record>)
    requires rs != []
    ensures TotalCount(MarkSynced(rs)) == TotalCount(rs) && WritersOf(MarkSynced(rs)) == WritersOf(rs)
    ensures forall i :: 0 <= i < |rs| ==> TotalCount(MarkSynced(rs)[..i]) == TotalCount(rs[..i])
  {
    hide AllOps;
    var m := MarkSynced(rs);
    assert m[..|m| - 1] == rs[..|rs| - 1];
    forall i | 0 <= i < |rs| ensures TotalCount(m[..i]) == TotalCount(rs[..i]) { assert m[..i] == rs[..i]; }
  }

  lemma EnqueueOk(q: Queue, q': Queue, w: Writer)
    requires Inv(q) && Enqueue(q, q', w)
    ensures Inv(q')
  {
    hide ServedWriters, LoggedWriters, WritersOf, TotalCount, AllOps, OpsFit, OutcomeOk;
    assert forall n :: 0 <= n <= |q.queue| ==> q'.queue[..n] == q.queue[..n];
  }

  lemma ReserveOk(q: Queue, q': Queue, n: nat, sync: bool)
    requires Inv(q) && Reserve(q, q', n, sync)
    ensures Inv(q')
  {
    hide ServedWriters, LoggedWriters, WritersOf, TotalCount, AllOps, OpsFit, OutcomeOk, WellNumbered, TotalSize,
      Budget;
    GroupSyncs(q.queue, n, sync);
  }

  lemma GroupSyncs(queue: seq<Writer>, n: nat, sync: bool)
    requires MayGroup(queue, n) && (queue[0].sync ==> sync)
    ensures IsGroupSync(queue, n, sync)
  {
    hide TotalSize, Budget, Size;
    forall j | 0 <= j < n && queue[j].sync ensures sync { assert j > 0 ==> MayFollow(queue, j); }
  }

  lemma NumberedAppend(start: nat, rs: seq<Record>, r: Record)
    requires WellNumbered(start, rs) && r.base == start + TotalCount(rs) + 1
    ensures WellNumbered(start, rs + [r])
  {
    forall i | 0 <= i < |rs + [r]| ensures (rs + [r])[i].base == start + TotalCount((rs + [r])[..i]) + 1 {
      assert (rs + [r])[..i] == rs[..i];
      assert i == |rs| ==> rs[..i] == rs;
    }
  }

  lemma AppendOk(q: Queue, q': Queue)
    requires Inv(q) && Append(q, q')
    ensures Inv(q')
  {
    hide ServedWriters, LoggedWriters, WritersOf, TotalCount, AllOps, OpsFit, WellNumbered;
    var r := Record(q.phase.base, q.queue[..q.phase.n], false);
    NumberedAppend(q.start, q.records, r);
    RecordsAppend(q.records, r);
  }

  lemma SyncOk(q: Queue, q': Queue)
    requires Inv(q) && Sync(q, q')
    ensures Inv(q')
  {
    hide ServedWriters, LoggedWriters, WritersOf, TotalCount, AllOps, OpsFit;
    MarkKeeps(q.records);
  }

  lemma OutcomesKept(q: Queue, more: seq<Outcome>)
    requires forall i :: 0 <= i < |q.served| ==> OutcomeOk(q.served[i], q.records)
    requires forall i :: 0 <= i < |more| ==> OutcomeOk(more[i], q.records)
    ensures forall i :: 0 <= i < |q.served + more| ==> OutcomeOk((q.served + more)[i], q.records)
  {
    hide OutcomeOk;
  }

  lemma RetireOk(q: Queue, q': Queue)
    requires Inv(q) && Retire(q, q')
    ensures Inv(q')
  {
    hide ServedWriters, LoggedWriters, WritersOf, TotalCount, AllOps, OpsFit, WellNumbered;
    var n, status := q.phase.n, q.phase.status;
    var record := if q.phase.logged then Some(|q.records| - 1) else None;
    var more := Outcomes(q.queue[..n], status, record);
    ServedAppend(q.served, q.queue[..n], status, record);
    forall i | 0 <= i < |more| ensures OutcomeOk(more[i], q.records) { assert more[i].writer == q.queue[i]; }
    OutcomesKept(q, more);
    assert q.queue == q.queue[..n] + q.queue[n..];
  }

  lemma RejectOk(q: Queue, q': Queue)
    requires Inv(q) && Reject(q, q')
    ensures Inv(q')
  {
    hide ServedWriters, LoggedWriters, WritersOf, TotalCount, AllOps, OpsFit, WellNumbered;
    var w := q.queue[0];
    ServedAppend(q.served, [w], Error, None);
    assert Outcomes([w], Error, None) == [Outcome(w, Error, None)];
    OutcomesKept(q, [Outcome(w, Error, None)]);
    assert q.queue == [w] + q.queue[1..];
  }

  lemma QuietStepOk(q: Queue, q': Queue)
    requires Inv(q)
    requires AppendFails(q, q') || SyncFails(q, q') || Apply(q, q') || Finish(q, q') || BackgroundError(q, q')
    ensures Inv(q')
  {
    hide ServedWriters, LoggedWriters, WritersOf, TotalCount, AllOps, OpsFit, WellNumbered, OutcomeOk, QueueOk;
  }

  lemma StepOk(q: Queue, q': Queue)
    requires Inv(q) && Step(q, q')
    ensures Inv(q')
  {
    hide Inv, Enqueue, Reserve, Append, AppendFails, Sync, SyncFails, Apply, Finish, Retire, Reject, BackgroundError;
    if w :| Enqueue(q, q', w) { EnqueueOk(q, q', w); }
    else if n, sync :| Reserve(q, q', n, sync) { ReserveOk(q, q', n, sync); }
    else if Append(q, q') { AppendOk(q, q'); }
    else if Sync(q, q') { SyncOk(q, q'); }
    else if Retire(q, q') { RetireOk(q, q'); }
    else if Reject(q, q') { RejectOk(q, q'); }
    else { QuietStepOk(q, q'); }
  }

  // ---------------------------------------------------------------- theorems

  ghost predicate IsRun(run: seq<Queue>, lastSeq: nat) {
    run != [] && run[0] == Open(lastSeq) && forall i :: 0 < i < |run| ==> Step(run[i - 1], run[i])
  }

  lemma {:induction false} RunOk(run: seq<Queue>, lastSeq: nat, i: nat)
    requires IsRun(run, lastSeq) && i < |run|
    ensures Inv(run[i])
    decreases i
  {
    hide Inv, Step;
    if i == 0 {
      OpenOk(lastSeq);
    } else {
      RunOk(run, lastSeq, i - 1);
      StepOk(run[i - 1], run[i]);
    }
  }

  /** Group commit, at every moment of every run. */
  lemma GroupCommitHolds(run: seq<Queue>, lastSeq: nat, q: Queue)
    requires IsRun(run, lastSeq) && q in run
    // every writer leaves the queue exactly once, in arrival order
    ensures q.arrived == ServedWriters(q.served) + q.queue
    // the log is the logged callers' batches, in that same order
    ensures WritersOf(q.records) == LoggedWriters(q.served) + InFlight(q)
    // records are numbered contiguously from where the database was opened
    ensures WellNumbered(q.start, q.records)
    // whoever is told Ok is in the log, and on disk if that is what it asked for
    ensures forall i :: 0 <= i < |q.served| ==> OutcomeOk(q.served[i], q.records)
  {
    hide Step;
    var i :| 0 <= i < |run| && run[i] == q;
    RunOk(run, lastSeq, i);
  }

  lemma BrokenStays(q: Queue, q': Queue)
    requires Inv(q) && q.broken && Step(q, q')
    ensures q'.broken && q'.records == q.records
  {
    hide IsGroup, WellNumbered, OutcomeOk, ServedWriters, LoggedWriters, WritersOf, TotalCount, AllOps, OpsFit;
  }

  /** Once an append or a sync has failed, the log never changes again. */
  lemma {:induction false} NothingAfterFailure(run: seq<Queue>, lastSeq: nat, i: nat, j: nat)
    requires IsRun(run, lastSeq) && i <= j < |run| && run[i].broken
    ensures run[j].broken && run[j].records == run[i].records
    decreases j - i
  {
    hide Step, Inv;
    if i < j {
      NothingAfterFailure(run, lastSeq, i, j - 1);
      RunOk(run, lastSeq, j - 1);
      BrokenStays(run[j - 1], run[j]);
    }
  }

  /** The log only ever grows at its end; at most a record is marked as synced. */
  lemma LogGrows(q: Queue, q': Queue)
    requires Step(q, q')
    ensures |q.records| <= |q'.records| <= |q.records| + 1
    ensures forall i :: 0 <= i < |q.records| ==>
      q'.records[i].base == q.records[i].base && q'.records[i].writers == q.records[i].writers
      && (q.records[i].synced ==> q'.records[i].synced)
  {
    hide Inv, IsGroup, OpsFit, AllOps, Outcomes;
  }
}
