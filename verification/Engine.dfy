/** The engine as a state machine, after src/db.cpp.

    Each step is what one thread does while it holds the mutex, or one file operation it
    performs while it does not; between steps anything else may run. A crash keeps the disk
    and loses the rest, and recovery is itself a sequence of steps that may crash.

    Assumptions, all from the source: one background worker; a rotation only while no group
    is in flight; a non-empty memtable whenever one is rotated; completed writes to files
    survive a crash and only the tail of the active log can be torn. */
module Engine {
  import opened ByteStrings
  import opened InternalKeys
  import opened Scans
  import opened Compactions
  import opened Versions
  import opened Trees
  import opened GroupCommit
  import opened MemTables
  import opened Disks

  // ------------------------------------------------------------------- state

  datatype Worker =
    | AtRest
    | Flushing(number: nat, floor: nat, built: Option<File>)
    | Compacting(job: Compaction, pieces: seq<seq<Entry>>, outputs: seq<File>)
    | Committing(log: nat, next: nat, lastSeq: nat, written: bool)
    | Halted

  /** The fields of an open DB. `imm == []` stands for a null imm_. `applied` is history: the
      entries that have gone into a memtable. */
  datatype Core = Core(
    q: Queue,
    mem: seq<Entry>,
    imm: seq<Entry>,
    immLog: nat,
    log: nat,
    v: Version,
    next: nat,
    snaps: map<nat, nat>,
    bg: Worker,
    applied: set<Entry>)

  datatype Mode =
    | Down
    | Replayed(v: Version, mem: seq<Entry>, next: nat, lastSeq: nat)     // manifest loaded, logs replayed
    | Built(v: Version, next: nat, lastSeq: nat)                        // replayed data in a table
    | Flushed(v: Version, next: nat, lastSeq: nat)                      // manifest naming log 0 renamed in
    | Opened(v: Version, log: nat, next: nat, lastSeq: nat)             // new log created
    | Committed(v: Version, log: nat, next: nat, lastSeq: nat)          // manifest naming it renamed in
    | Up(core: Core)

  /** `past` holds every whole group logged by earlier incarnations. */
  datatype State = State(disk: Disk, past: seq<seq<Entry>>, mode: Mode)

  // ----------------------------------------------------------------- history

  function RecordEntries(r: Record): (es: seq<Entry>)
    ensures |es| == Count(r)
  {
    Number(r.base, AllOps(r.writers))
  }

  function RecordGroups(rs: seq<Record>): (gs: seq<seq<Entry>>)
    ensures |gs| == |rs|
  {
    seq(|rs|, i requires 0 <= i < |rs| => RecordEntries(rs[i]))
  }

  /** Every whole group that ever reached a log, in order. */
  function Groups(s: State): seq<seq<Entry>> {
    if s.mode.Up? then s.past + RecordGroups(s.mode.core.q.records) else s.past
  }

  ghost function History(s: State): set<Entry> {
    GroupsSet(Groups(s))
  }

  // ---------------------------------------------------------- derived values

  ghost predicate MinSnapshot(snaps: map<nat, nat>, cap: nat, s: nat) {
    s <= cap && (forall id :: id in snaps ==> s <= snaps[id])
      && (s == cap || exists id :: id in snaps && snaps[id] == s)
  }

  lemma {:induction false} MinSnapshotExists(snaps: map<nat, nat>, cap: nat) returns (s: nat)
    ensures MinSnapshot(snaps, cap, s)
    decreases |snaps|
  {
    if snaps == map[] {
      s := cap;
    } else {
      var id :| id in snaps;
      var rest := snaps - {id};
      assert snaps.Keys == rest.Keys + {id};
      s := MinSnapshotExists(rest, cap);
      if snaps[id] < s {
        s := snaps[id];
      } else if s != cap {
        var other :| other in rest && rest[other] == s;
        assert other in snaps && snaps[other] == s;
      }
      forall k | k in snaps ensures s <= snaps[k] { assert k != id ==> k in rest && rest[k] == snaps[k]; }
    }
  }

  lemma MinSnapshotUnique(snaps: map<nat, nat>, cap: nat, s: nat, t: nat)
    requires MinSnapshot(snaps, cap, s) && MinSnapshot(snaps, cap, t)
    ensures s == t
  {
  }

  lemma MinSnapshotTotal(snaps: map<nat, nat>, cap: nat)
    ensures exists s: nat :: MinSnapshot(snaps, cap, s)
  {
    var s := MinSnapshotExists(snaps, cap);
  }

  /** SmallestSnapshot: below it no live reader looks. */
  ghost function Floor(c: Core): (s: nat)
    ensures MinSnapshot(c.snaps, c.q.lastSeq, s)
  {
    MinSnapshotTotal(c.snaps, c.q.lastSeq);
    var s: nat :| MinSnapshot(c.snaps, c.q.lastSeq, s);
    s
  }

  /** OldestLiveLog: the log of the outstanding flush, otherwise the active one. */
  function OldestLiveLog(c: Core): nat {
    if c.imm != [] then c.immLog else c.log
  }

  /** All entries a reader of the open database can reach. */
  ghost function Held(c: Core): set<Entry> {
    SetOf(c.mem) + SetOf(c.imm) + VersionSet(c.v)
  }

  function LastRecord(q: Queue): Record
    requires q.records != []
  {
    q.records[|q.records| - 1]
  }

  // -------------------------------------------------------- steps of an open db

  ghost predicate Stays(s: State, s': State, c: Core) {
    s.mode.Up? && s' == s.(mode := Up(c))
  }

  /** Queue steps that touch neither disk nor memtable. */
  ghost predicate QueueOnly(s: State, s': State, q': Queue) {
    s.mode.Up? && Stays(s, s', s.mode.core.(q := q')) && QuietQueueStep(s.mode.core.q, q')
  }

  ghost predicate QuietQueueStep(q: Queue, q': Queue) {
    || (exists w :: Enqueue(q, q', w)) || (exists n, sync :: Reserve(q, q', n, sync))
    || AppendFails(q, q') || Sync(q, q') || SyncFails(q, q') || Finish(q, q') || Retire(q, q') || Reject(q, q')
  }

  /** write() is under way: part of the record is in the file. */
  ghost predicate TearLog(s: State, s': State) {
    s.mode.Up? && var c := s.mode.core;
    && c.q.phase.Reserved? && c.log in s.disk.logs
    && s' == s.(disk := s.disk.(logs := s.disk.logs[c.log := s.disk.logs[c.log].(torn := true)]))
  }

  /** The whole record is in the file. */
  ghost predicate LogGroup(s: State, s': State, q': Queue) {
    s.mode.Up? && var c := s.mode.core;
    && c.log in s.disk.logs && Append(c.q, q') && q'.records != []
    && var l := LogFile(s.disk.logs[c.log].groups + [RecordEntries(LastRecord(q'))], false);
       s' == s.(mode := Up(c.(q := q')), disk := s.disk.(logs := s.disk.logs[c.log := l]))
  }

  /** One operation of the logged group goes into the memtable. */
  ghost predicate ApplyOne(s: State, s': State, q': Queue) {
    s.mode.Up? && var c := s.mode.core;
    && GroupCommit.Apply(c.q, q')
    && var e := RecordEntries(LastRecord(c.q))[c.q.phase.done];
       Stays(s, s', c.(q := q', mem := Add(c.mem, e), applied := c.applied + {e}))
  }

  /** Opening a log creates it; one that is there already is appended to. */
  function WithLog(logs: map<nat, LogFile>, n: nat): map<nat, LogFile> {
    if n in logs then logs else logs[n := LogFile([], false)]
  }

  /** The full memtable becomes immutable and a fresh log takes over. */
  ghost predicate Rotate(s: State, s': State) {
    s.mode.Up? && var c := s.mode.core;
    && c.q.phase.Idle? && !c.q.failed && c.mem != [] && c.imm == []
    && s' == s.(disk := s.disk.(logs := WithLog(s.disk.logs, c.next)),
                mode := Up(c.(mem := [], imm := c.mem, immLog := c.log, log := c.next, next := c.next + 1)))
  }

  /** The rotation fails: the new log was created, but its header did not get out whole. */
  ghost predicate StrayLog(s: State, s': State, torn: bool) {
    s.mode.Up? && var c := s.mode.core;
    && c.q.phase.Idle? && !c.q.failed && c.mem != [] && c.imm == [] && c.next !in s.disk.logs
    && s' == s.(disk := s.disk.(logs := s.disk.logs[c.next := LogFile([], torn)]), mode := Up(c.(next := c.next + 1)))
  }

  ghost predicate TakeSnapshot(s: State, s': State, id: nat) {
    s.mode.Up? && var c := s.mode.core;
    id !in c.snaps && Stays(s, s', c.(snaps := c.snaps[id := c.q.lastSeq]))
  }

  ghost predicate ReleaseSnapshot(s: State, s': State, id: nat) {
    s.mode.Up? && var c := s.mode.core;
    Stays(s, s', c.(snaps := c.snaps - {id}))
  }

  ghost predicate StartFlush(s: State, s': State) {
    s.mode.Up? && var c := s.mode.core;
    && c.bg.AtRest? && !c.q.failed && c.imm != []
    && Stays(s, s', c.(next := c.next + 1, bg := Flushing(c.next, Floor(c), None)))
  }

  /** The collapsed memtable is on disk as a table. */
  ghost predicate BuildFlush(s: State, s': State, size: nat) {
    s.mode.Up? && var c := s.mode.core;
    && c.bg.Flushing? && c.bg.built.None? && size > 0
    && var f := File(c.bg.number, size, AllSurvivors(c.imm, c.bg.floor, false));
       s' == s.(disk := s.disk.(tables := s.disk.tables[f.number := f.entries]),
                mode := Up(c.(bg := c.bg.(built := Some(f)))))
  }

  ghost predicate InstallFlush(s: State, s': State) {
    s.mode.Up? && var c := s.mode.core;
    && c.bg.Flushing? && c.bg.built.Some? && |c.v| == NUM_LEVELS
    && Stays(s, s', c.(v := AddNewest(c.v, c.bg.built.value), imm := [], immLog := 0,
                       bg := Committing(c.log, c.next, c.q.lastSeq, false)))
  }

  ghost predicate StartCompaction(s: State, s': State, job: Compaction, pieces: seq<seq<Entry>>) {
    s.mode.Up? && var c := s.mode.core;
    && c.bg.AtRest? && !c.q.failed && c.imm == []
    && IsCompaction(c.v, job) && job.floor == Floor(c) && IsCut(pieces, Output(job))
    && Stays(s, s', c.(bg := Compacting(job, pieces, [])))
  }

  /** One output table is finished. */
  ghost predicate EmitTable(s: State, s': State, size: nat) {
    s.mode.Up? && var c := s.mode.core;
    && c.bg.Compacting? && |c.bg.outputs| < |c.bg.pieces| && size > 0
    && var f := File(c.next, size, c.bg.pieces[|c.bg.outputs|]);
       s' == s.(disk := s.disk.(tables := s.disk.tables[f.number := f.entries]),
                mode := Up(c.(next := c.next + 1, bg := c.bg.(outputs := c.bg.outputs + [f]))))
  }

  ghost predicate InstallCompaction(s: State, s': State) {
    s.mode.Up? && var c := s.mode.core;
    && c.bg.Compacting? && |c.bg.outputs| == |c.bg.pieces|
    && |c.v| == NUM_LEVELS && c.bg.job.level < NUM_LEVELS - 1
    && NoneEmpty(c.v[c.bg.job.level + 1]) && NoneEmpty(c.bg.outputs)
    && Stays(s, s', c.(v := Install(c.v, c.bg.job.level, Removed(c.bg.job), c.bg.outputs),
                       bg := Committing(OldestLiveLog(c), c.next, c.q.lastSeq, false)))
  }

  /** A table abandoned half written, under a fresh number. */
  ghost predicate StrayTable(s: State, s': State, junk: seq<Entry>) {
    s.mode.Up? && var c := s.mode.core;
    s' == s.(disk := s.disk.(tables := s.disk.tables[c.next := junk]), mode := Up(c.(next := c.next + 1)))
  }

  /** A file could not be created; its number is not used again. */
  ghost predicate SkipNumber(s: State, s': State) {
    s.mode.Up? && Stays(s, s', s.mode.core.(next := s.mode.core.next + 1))
  }

  /** The new manifest is renamed into place: the commit point. */
  ghost predicate WriteManifest(s: State, s': State) {
    s.mode.Up? && var c := s.mode.core;
    && c.bg.Committing? && !c.bg.written
    && s' == s.(disk := s.disk.(manifest := Manifest(c.v, c.bg.log, c.bg.next, c.bg.lastSeq)),
                mode := Up(c.(bg := c.bg.(written := true))))
  }

  ghost predicate DeadTable(v: Version, d: Disk, n: nat) {
    n in d.tables && NotNamed(v, n)
  }

  ghost predicate DropTable(s: State, s': State, n: nat) {
    s.mode.Up? && var c := s.mode.core;
    && c.bg.Committing? && c.bg.written && DeadTable(c.v, s.disk, n)
    && s' == s.(disk := s.disk.(tables := s.disk.tables - {n}))
  }

  ghost predicate DropLog(s: State, s': State, n: nat) {
    s.mode.Up? && var c := s.mode.core;
    && c.bg.Committing? && c.bg.written && n in s.disk.logs && n < c.bg.log
    && s' == s.(disk := s.disk.(logs := s.disk.logs - {n}))
  }

  /** The unlinks are not checked, so obsolete files may be left behind. */
  ghost predicate FinishCommit(s: State, s': State) {
    s.mode.Up? && var c := s.mode.core;
    && c.bg.Committing? && c.bg.written
    && Stays(s, s', c.(bg := AtRest))
  }

  /** A flush, a compaction or a commit fails: bg_error_ is set and the worker stops. */
  ghost predicate WorkerFails(s: State, s': State) {
    s.mode.Up? && var c := s.mode.core;
    !c.bg.AtRest? && Stays(s, s', c.(bg := Halted, q := c.q.(failed := true)))
  }

  // ------------------------------------------------------ crash and recovery

  ghost predicate Crash(s: State, s': State) {
    s' == State(s.disk, Groups(s), Down)
  }

  /** Numbers above everything found on disk. */
  ghost predicate Bumped(d: Disk, next: nat) {
    && next >= d.manifest.next && next > 0
    && (forall n :: n in d.tables ==> n < next) && (forall n :: n in d.logs ==> n < next)
  }

  /** The counter is the larger of the recorded one and every replayed one. */
  ghost predicate IsMaxSeq(recorded: nat, R: set<Entry>, m: nat) {
    m >= recorded && SeqLe(R, m) && (m == recorded || exists x :: x in R && x.sn == m)
  }

  /** LoadManifest, then replay of every log from the manifest's on. */
  ghost predicate Load(s: State, s': State, mem: seq<Entry>, next: nat, lastSeq: nat) {
    && s.mode.Down? && Sorted(mem) && SetOf(mem) == Replay(s.disk)
    && Bumped(s.disk, next) && IsMaxSeq(s.disk.manifest.lastSeq, Replay(s.disk), lastSeq)
    && s' == s.(mode := Replayed(s.disk.manifest.version, mem, next, lastSeq))
  }

  /** The directory cannot be listed, which goes unnoticed: no log is found and no number
      raised. */
  ghost predicate BlindLoad(s: State, s': State) {
    && s.mode.Down?
    && s' == s.(mode := Replayed(s.disk.manifest.version, [], s.disk.manifest.next, s.disk.manifest.lastSeq))
  }

  /** The replayed data lands in a table; no snapshot is live, so the floor is the counter. */
  ghost predicate BuildReplayed(s: State, s': State, size: nat) {
    && s.mode.Replayed? && s.mode.mem != [] && size > 0 && |s.mode.v| == NUM_LEVELS
    && var f := File(s.mode.next, size, AllSurvivors(s.mode.mem, s.mode.lastSeq, false));
       s' == s.(disk := s.disk.(tables := s.disk.tables[f.number := f.entries]),
                mode := Built(AddNewest(s.mode.v, f), s.mode.next + 1, s.mode.lastSeq))
  }

  ghost predicate StrayReplayTable(s: State, s': State, junk: seq<Entry>) {
    && s.mode.Replayed?
    && s' == s.(disk := s.disk.(tables := s.disk.tables[s.mode.next := junk]),
                mode := Replayed(s.mode.v, s.mode.mem, s.mode.next + 1, s.mode.lastSeq))
  }

  /** The flush inside recovery commits while log_number_ is still 0. */
  ghost predicate CommitReplayed(s: State, s': State) {
    && s.mode.Built?
    && s' == s.(disk := s.disk.(manifest := Manifest(s.mode.v, 0, s.mode.next, s.mode.lastSeq)),
                mode := Flushed(s.mode.v, s.mode.next, s.mode.lastSeq))
  }

  ghost predicate OpenLog(s: State, s': State) {
    && (s.mode.Flushed? || (s.mode.Replayed? && s.mode.mem == []))
    && s' == s.(disk := s.disk.(logs := WithLog(s.disk.logs, s.mode.next)),
                mode := Opened(s.mode.v, s.mode.next, s.mode.next + 1, s.mode.lastSeq))
  }

  /** The new log was created, but its header did not get out whole, and opening fails. */
  ghost predicate StrayOpenLog(s: State, s': State, torn: bool) {
    && (s.mode.Flushed? || (s.mode.Replayed? && s.mode.mem == [])) && s.mode.next !in s.disk.logs
    && s' == s.(disk := s.disk.(logs := s.disk.logs[s.mode.next := LogFile([], torn)]), mode := Down)
  }

  ghost predicate CommitOpened(s: State, s': State) {
    && s.mode.Opened?
    && s' == s.(disk := s.disk.(manifest := Manifest(s.mode.v, s.mode.log, s.mode.next, s.mode.lastSeq)),
                mode := Committed(s.mode.v, s.mode.log, s.mode.next, s.mode.lastSeq))
  }

  /** RemoveObsoleteFiles during recovery, one unlink at a time. */
  ghost predicate RecoveryDropTable(s: State, s': State, n: nat) {
    && (s.mode.Flushed? || s.mode.Committed?) && DeadTable(s.mode.v, s.disk, n)
    && s' == s.(disk := s.disk.(tables := s.disk.tables - {n}))
  }

  ghost predicate RecoveryDropLog(s: State, s': State, n: nat) {
    && s.mode.Committed? && n in s.disk.logs && n < s.mode.log
    && s' == s.(disk := s.disk.(logs := s.disk.logs - {n}))
  }

  /** Logs that could not be unlinked may still be there. */
  ghost predicate GoUp(s: State, s': State) {
    && s.mode.Committed?
    && s' == s.(mode := Up(Core(GroupCommit.Open(s.mode.lastSeq), [], [], 0, s.mode.log, s.mode.v, s.mode.next,
                                map[], AtRest, History(s))))
  }

  ghost predicate ForegroundStep(s: State, s': State) {
    || (exists q' :: QueueOnly(s, s', q')) || TearLog(s, s') || (exists q' :: LogGroup(s, s', q'))
    || (exists q' :: ApplyOne(s, s', q')) || Rotate(s, s') || (exists torn :: StrayLog(s, s', torn))
    || (exists id :: TakeSnapshot(s, s', id)) || (exists id :: ReleaseSnapshot(s, s', id))
  }

  ghost predicate WorkerStep(s: State, s': State) {
    || StartFlush(s, s') || (exists size :: BuildFlush(s, s', size)) || InstallFlush(s, s')
    || (exists job, pieces :: StartCompaction(s, s', job, pieces)) || (exists size :: EmitTable(s, s', size))
    || InstallCompaction(s, s') || (exists junk :: StrayTable(s, s', junk)) || SkipNumber(s, s') || WriteManifest(s, s')
    || (exists n :: DropTable(s, s', n)) || (exists n :: DropLog(s, s', n)) || FinishCommit(s, s') || WorkerFails(s, s')
  }

  ghost predicate RecoveryStep(s: State, s': State) {
    || (exists mem, next, lastSeq :: Load(s, s', mem, next, lastSeq)) || BlindLoad(s, s')
    || (exists size :: BuildReplayed(s, s', size)) || (exists torn :: StrayOpenLog(s, s', torn))
    || (exists junk :: StrayReplayTable(s, s', junk)) || CommitReplayed(s, s') || OpenLog(s, s') || CommitOpened(s, s')
    || (exists n :: RecoveryDropTable(s, s', n)) || (exists n :: RecoveryDropLog(s, s', n)) || GoUp(s, s')
  }

  ghost predicate Next(s: State, s': State) {
    ForegroundStep(s, s') || WorkerStep(s, s') || RecoveryStep(s, s') || Crash(s, s')
  }

  /** A fresh directory: no manifest, which reads as an empty one. */
  function Init(): State {
    State(Disk(Manifest(seq(NUM_LEVELS, i => []), 0, 1, 0), map[], map[]), [], Down)
  }
}
