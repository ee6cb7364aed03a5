/** The engine's invariant, part by part. */
module EngineInv {
  import opened ByteStrings
  import opened InternalKeys
  import opened Views
  import opened Scans
  import opened Compactions
  import opened Versions
  import opened Trees
  import GC = GroupCommit
  import opened Disks
  import opened Engine

  ghost function HistSet(past: seq<seq<Entry>>, rs: seq<GC.Record>): set<Entry> {
    GroupsSet(past + RecordGroups(rs))
  }

  // ------------------------------------------------------------ an open db

  /** Sequence numbers are unique and never exceed what has been logged. */
  ghost predicate HistoryOk(past: seq<seq<Entry>>, q: GC.Queue) {
    SeqUnique(HistSet(past, q.records)) && SeqLe(HistSet(past, q.records), q.start + GC.TotalCount(q.records))
  }

  /** Which logged entries have not reached a memtable. */
  ghost predicate AppliedOk(q: GC.Queue, applied: set<Entry>, H: set<Entry>) {
    && applied <= H
    && (forall x, y :: x in H && x !in applied && y in applied ==> y.sn < x.sn)
    && PendingIs(q, H - applied)
  }

  ghost predicate PendingIs(q: GC.Queue, pending: set<Entry>) {
    match q.phase
    case Idle => !q.broken ==> pending == {}
    case Reserved(_, _, _) => pending == {}
    case Logged(_, _) => q.records != [] && pending == SetOf(RecordEntries(LastRecord(q)))
    case Applying(_, done) =>
      q.records != [] && done <= GC.Count(LastRecord(q)) && pending == SetOf(RecordEntries(LastRecord(q))[done..])
    case Finished(_, status, logged) => status.Ok? || !logged ==> pending == {}
  }

  /** The active log holds the active memtable (and what is still to be applied), the other
      live log the immutable one. Logs above the active one are left from failed rotations. */
  ghost predicate LogsMatch(mem: seq<Entry>, imm: seq<Entry>, immLog: nat, log: nat, pending: set<Entry>,
          logs: map<nat, LogFile>)
  {
    && log in logs && LogSet(logs[log]) == SetOf(mem) + pending
    && (imm != [] ==> immLog in logs && immLog < log && LogSet(logs[immLog]) == SetOf(imm))
    && (forall n :: n in logs && n > log ==> LogSet(logs[n]) == {})
  }

  ghost predicate MemOk(mem: seq<Entry>, imm: seq<Entry>, v: Version, applied: set<Entry>) {
    && Sorted(mem) && Sorted(imm)
    && SetOf(mem) <= applied && SetOf(imm) <= applied && VersionSet(v) <= applied
    && SetOf(mem) !! SetOf(imm) && SetOf(mem) !! VersionSet(v) && SetOf(imm) !! VersionSet(v)
    && OrderOk(SetOf(mem), SetOf(imm), v)
  }

  ghost predicate TreeUp(v: Version, floor: nat, tables: map<nat, seq<Entry>>) {
    VersionOk(v) && SharedLow(v, floor) && TablesHold(v, tables)
  }

  /** Reads at or above the smallest snapshot see exactly the applied history. */
  ghost predicate ViewOk(held: set<Entry>, applied: set<Entry>, floor: nat) {
    forall key, sn :: sn >= floor ==> View(held, key, sn) == View(applied, key, sn)
  }

  ghost predicate NumbersOk(d: Disk, next: nat) {
    next > 0 && (forall n :: n in d.tables ==> n < next) && (forall n :: n in d.logs ==> n < next)
  }

  /** From the manifest's log on, groups are in the live logs and, until the commit of a flush
      is written, in the log of the memtable it flushed. */
  ghost predicate ShapeOk(bg: Worker, imm: seq<Entry>, immLog: nat, log: nat, logs: map<nat, LogFile>, from: nat) {
    match bg
    case Halted =>
      exists more: nat :: (more == log || (more < log && (imm != [] ==> more < immLog)))
                     && LiveBut(imm, immLog, log, logs, from, more)
    case Committing(keep, _, _, false) =>
      exists more: nat :: (more < keep || more == log) && LiveBut(imm, immLog, log, logs, from, more)
    case _ => LiveBut(imm, immLog, log, logs, from, log)
  }

  /** No log from `from` on holds a group but the live ones and `more`. */
  ghost predicate LiveBut(imm: seq<Entry>, immLog: nat, log: nat, logs: map<nat, LogFile>, from: nat, more: nat) {
    forall n :: n in logs && n >= from && logs[n].groups != [] ==> n == log || (imm != [] && n == immLog) || n == more
  }

  ghost predicate IsTable(f: File, v: Version, d: Disk, next: nat) {
    && f.size > 0 && f.number < next && IsNewNumber(v, f.number) && NotNamed(d.manifest.version, f.number)
    && f.number in d.tables && d.tables[f.number] == f.entries
  }

  ghost predicate FlushOk(number: nat, floor: nat, built: Option<File>, v: Version, imm: seq<Entry>, next: nat,
          now: nat, d: Disk)
  {
    && imm != [] && floor <= now && number < next && IsNewNumber(v, number) && NotNamed(d.manifest.version, number)
    && (built.Some? ==>
      built.value.number == number && built.value.entries == AllSurvivors(imm, floor, false)
        && IsTable(built.value, v, d, next))
  }

  ghost predicate CompactOk(job: Compaction, pieces: seq<seq<Entry>>, outputs: seq<File>, v: Version, next: nat,
          now: nat, d: Disk)
  {
    && IsCompaction(v, job) && job.floor <= now && SharedLow(v, job.floor)
    && IsCut(pieces, Output(job)) && |outputs| <= |pieces|
    && (forall i :: 0 <= i < |outputs| ==> outputs[i].entries == pieces[i] && IsTable(outputs[i], v, d, next))
    && (forall i, j :: 0 <= i < j < |outputs| ==> outputs[i].number < outputs[j].number)
  }

  ghost predicate CommitOk(keep: nat, lastSeq: nat, written: bool, v: Version, imm: seq<Entry>, immLog: nat, log: nat,
          d: Disk, H: set<Entry>)
  {
    && d.manifest.log <= keep <= log && (imm != [] ==> keep <= immLog)
    && Counted(LogsSet(d.logs, keep), H, lastSeq)
    && (written ==> d.manifest.version == v && d.manifest.log == keep)
  }

  ghost predicate WorkerOk(c: Core, d: Disk, H: set<Entry>, now: nat) {
    match c.bg
    case AtRest => true
    case Halted => true
    case Flushing(number, floor, built) => FlushOk(number, floor, built, c.v, c.imm, c.next, now, d)
    case Compacting(job, pieces, outputs) => CompactOk(job, pieces, outputs, c.v, c.next, now, d)
    case Committing(keep, _, lastSeq, written) => CommitOk(keep, lastSeq, written, c.v, c.imm, c.immLog, c.log, d, H)
  }

  ghost predicate CoreOk(c: Core, d: Disk, past: seq<seq<Entry>>, H: set<Entry>) {
    && GC.Inv(c.q)
    && HistoryOk(past, c.q)
    && H == HistSet(past, c.q.records)
    && AppliedOk(c.q, c.applied, H)
    && LogsMatch(c.mem, c.imm, c.immLog, c.log, H - c.applied, d.logs)
    && MemOk(c.mem, c.imm, c.v, c.applied)
    && TreeUp(c.v, Floor(c), d.tables)
    && ViewOk(Held(c), c.applied, Floor(c))
    && NumbersOk(d, c.next)
    && ShapeOk(c.bg, c.imm, c.immLog, c.log, d.logs, d.manifest.log)
    && WorkerOk(c, d, H, Floor(c))
    && DiskOk(d, H)
    && d.manifest.log <= OldestLiveLog(c)
  }

  // -------------------------------------------------------------- recovering

  /** The tables alone show the latest state. */
  ghost predicate FullyCovers(v: Version, H: set<Entry>) {
    Covers(v, {}, H)
  }

  ghost predicate RecoveryOk(m: Mode, d: Disk, H: set<Entry>) {
    match m
    case Down => true
    case Replayed(v, mem, next, lastSeq) =>
      && v == d.manifest.version && Sorted(mem) && SetOf(mem) == Replay(d)
      && NumbersOk(d, next) && SeqLe(H, lastSeq)
    case Built(v, next, lastSeq) =>
      && TreeOk(v, H, d.tables) && FullyCovers(v, H)
      && NumbersOk(d, next) && SeqLe(H, lastSeq)
    case Flushed(v, next, lastSeq) =>
      && d.manifest.version == v && d.manifest.log == 0 && FullyCovers(v, H)
      && NumbersOk(d, next) && SeqLe(H, lastSeq)
    case Opened(v, log, next, lastSeq) =>
      && d.manifest.version == v && FullyCovers(v, H) && NewestLog(log, d.logs)
      && NumbersOk(d, next) && SeqLe(H, lastSeq)
    case Committed(v, log, next, lastSeq) =>
      && d.manifest.version == v && d.manifest.log == log && FullyCovers(v, H) && NewestLog(log, d.logs)
      && NumbersOk(d, next) && SeqLe(H, lastSeq)
    case Up(_) => true
  }

  /** The newest log exists and is still empty. */
  ghost predicate NewestLog(log: nat, logs: map<nat, LogFile>) {
    log in logs && LogSet(logs[log]) == {} && forall n :: n in logs ==> n <= log
  }

  /** The invariant of every state of a run whose recoveries are sound. */
  ghost predicate Ok(s: State) {
    && DiskOk(s.disk, History(s))
    && RecoveryOk(s.mode, s.disk, History(s))
    && (s.mode.Up? ==> CoreOk(s.mode.core, s.disk, s.past, History(s)))
  }

  // ---------------------------------------------------------------- the floor

  lemma FloorIs(c: Core, s: nat)
    requires MinSnapshot(c.snaps, c.q.lastSeq, s)
    ensures Floor(c) == s
  {
    MinSnapshotUnique(c.snaps, c.q.lastSeq, s, Floor(c));
  }

  /** The smallest snapshot never moves down. */
  lemma FloorRises(c: Core, c': Core)
    requires c.q.lastSeq <= c'.q.lastSeq
    requires forall id :: id in c'.snaps ==>
      (id in c.snaps && c'.snaps[id] == c.snaps[id]) || c'.snaps[id] >= c.q.lastSeq
    ensures Floor(c) <= Floor(c') <= c'.q.lastSeq
  {
  }

  lemma FloorSame(c: Core, c': Core)
    requires c.q.lastSeq == c'.q.lastSeq && c.snaps == c'.snaps
    ensures Floor(c) == Floor(c')
  {
    FloorIs(c', Floor(c));
  }

  lemma ViewOkRises(held: set<Entry>, applied: set<Entry>, a: nat, b: nat)
    requires ViewOk(held, applied, a) && a <= b
    ensures ViewOk(held, applied, b)
  {
    hide View;
  }

  lemma TreeUpRises(v: Version, a: nat, b: nat, tables: map<nat, seq<Entry>>)
    requires TreeUp(v, a, tables) && a <= b
    ensures TreeUp(v, b, tables)
  {
    hide VersionOk, TablesHold;
  }

  lemma WorkerRises(c: Core, d: Disk, H: set<Entry>, a: nat, b: nat)
    requires WorkerOk(c, d, H, a) && a <= b
    ensures WorkerOk(c, d, H, b)
  {
    hide IsCompaction, IsCut, IsTable, SharedLow, Counted, IsNewNumber, NotNamed;
  }
}
