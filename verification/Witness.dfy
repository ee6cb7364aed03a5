/** Runs from a fresh directory that show which of the tempting claims are false: a snapshot
    taken while a group is in flight is not repeatable, a log that could not be unlinked
    brings an overwritten value back, a directory that could not be listed loses
    acknowledged writes, and more than two logs may have to be replayed. */
module Witnesses {
  import opened ByteStrings
  import opened InternalKeys
  import opened Views
  import opened Scans
  import opened Compactions
  import opened Versions
  import opened Trees
  import opened WriteBatches
  import GC = GroupCommit
  import opened MemTables
  import opened Disks
  import opened Engine
  import opened EngineTheorems
  import opened EngineSnapshots
  import opened EngineReplay
  import opened EngineCleanup
  import opened Reachability

  ghost predicate EndsIn(run: seq<State>, s: State) {
    IsExecution(run) && run[|run| - 1] == s
  }

  lemma Then(run: seq<State>, s: State, t: State)
    requires EndsIn(run, s) && Next(s, t)
    ensures EndsIn(run + [t], t)
  {
    hide Next;
  }

  lemma ThenFront(run: seq<State>, s: State, t: State, step: FrontStep)
    requires EndsIn(run, s) && DoesFront(s, t, step)
    ensures EndsIn(run + [t], t)
  {
    hide EndsIn, DoesFront, Next, ForegroundStep;
    FrontIsNext(s, t, step);
    Then(run, s, t);
  }

  lemma ThenFlush(run: seq<State>, s: State, t: State, step: FlushStep)
    requires EndsIn(run, s) && DoesFlush(s, t, step)
    ensures EndsIn(run + [t], t)
  {
    hide EndsIn, StartFlush, BuildFlush, InstallFlush, ForegroundStep, RecoveryStep;
    Then(run, s, t);
  }

  lemma ThenCommit(run: seq<State>, s: State, t: State, step: CommitStep)
    requires EndsIn(run, s) && DoesCommit(s, t, step)
    ensures EndsIn(run + [t], t)
  {
    hide EndsIn, WriteManifest, DropTable, DropLog, FinishCommit, WorkerFails, SkipNumber, ForegroundStep, RecoveryStep;
    Then(run, s, t);
  }

  lemma ThenRecover(run: seq<State>, s: State, t: State, step: RecoverStep)
    requires EndsIn(run, s) && DoesRecover(s, t, step)
    ensures EndsIn(run + [t], t)
  {
    hide EndsIn, DoesRecover, Next;
    RecoverIsNext(s, t, step);
    Then(run, s, t);
  }

  // --------------------------------------------------------------- one write

  const A: Bytes := [0]
  const B: Bytes := [1]

  function PutOf(key: Bytes, value: Bytes): GC.Writer {
    GC.Writer(0, [Op(Value, key, value)], false)
  }

  /** Nobody is writing and nothing has failed. */
  ghost predicate Resting(s: State) {
    s.mode.Up? && s.mode.core.log in s.disk.logs && s.mode.core.q.phase.Idle? && s.mode.core.q.queue == []
      && !s.mode.core.q.failed
  }

  function ReservedFor(q: GC.Queue, w: GC.Writer): GC.Queue {
    q.(arrived := q.arrived + [w], queue := [w], phase := GC.Reserved(1, q.lastSeq + 1, false),
       lastSeq := q.lastSeq + 1)
  }

  lemma OneOp(w: GC.Writer, base: nat)
    requires |w.ops| == 1
    ensures GC.AllOps([w]) == w.ops && [w][..1] == [w]
    ensures RecordEntries(GC.Record(base, [w], false)) == [Entry(w.ops[0].key, base, w.ops[0].kind, w.ops[0].value)]
  {
    assert [w][..0] == [] && [w][..1] == [w];
  }

  /** A writer joins the queue and takes its sequence number. */
  lemma Reserving(run: seq<State>, s: State, w: GC.Writer) returns (r: seq<State>, t: State)
    requires EndsIn(run, s) && Resting(s) && |w.ops| == 1 && OpsFit(w.ops) && !w.sync
    ensures EndsIn(r, t) && t == s.(mode := Up(s.mode.core.(q := ReservedFor(s.mode.core.q, w))))
  {
    hide EndsIn, OpsFit, RecordEntries, GC.AllOps;
    var c := s.mode.core;
    OneOp(w, 0);
    var q1 := c.q.(arrived := c.q.arrived + [w], queue := [w]);
    assert GC.Enqueue(c.q, q1, w);
    var s1 := s.(mode := Up(c.(q := q1)));
    ThenFront(run, s, s1, FrontStep.MoveQueue(q1));
    var q2 := ReservedFor(c.q, w);
    assert GC.Reserve(q1, q2, 1, false);
    t := s.(mode := Up(c.(q := q2)));
    ThenFront(run + [s1], s1, t, FrontStep.MoveQueue(q2));
    r := run + [s1] + [t];
  }

  function AppliedFor(q: GC.Queue, w: GC.Writer): GC.Queue
    requires q.phase.Reserved?
  {
    q.(records := q.records + [GC.Record(q.phase.base, [w], false)], phase := GC.Applying(1, 1))
  }

  /** The reserved operation reaches the log and the memtable. */
  lemma Applied(run: seq<State>, s: State, w: GC.Writer) returns (r: seq<State>, t: State)
    requires EndsIn(run, s) && s.mode.Up? && s.mode.core.log in s.disk.logs && |w.ops| == 1
    requires s.mode.core.q.queue == [w] && s.mode.core.q.phase == GC.Reserved(1, s.mode.core.q.lastSeq, false)
    ensures var c, e := s.mode.core, Entry(w.ops[0].key, s.mode.core.q.lastSeq, w.ops[0].kind, w.ops[0].value);
      EndsIn(r, t) && t == State(
        s.disk.(logs := s.disk.logs[c.log := LogFile(s.disk.logs[c.log].groups + [[e]], false)]), s.past,
        Up(c.(q := AppliedFor(c.q, w), mem := Add(c.mem, e), applied := c.applied + {e})))
    ensures run <= r && forall k :: |run| <= k < |r| ==> r[k].mode.Up? && r[k].mode.core.snaps == s.mode.core.snaps
  {
    hide EndsIn, RecordEntries, Add, GC.AllOps;
    var c, d := s.mode.core, s.disk;
    var base := c.q.lastSeq;
    var e := Entry(w.ops[0].key, base, w.ops[0].kind, w.ops[0].value);
    OneOp(w, base);
    var q1 := c.q.(records := c.q.records + [GC.Record(base, [w], false)], phase := GC.Logged(1, false));
    var s1 := s.(mode := Up(c.(q := q1)),
      disk := d.(logs := d.logs[c.log := LogFile(d.logs[c.log].groups + [[e]], false)]));
    assert LogGroup(s, s1, q1);
    ThenFront(run, s, s1, Log(q1));
    var q2 := q1.(phase := GC.Applying(1, 0));
    var s2 := s1.(mode := Up(c.(q := q2)));
    assert GC.Sync(q1, q2);
    ThenFront(run + [s1], s1, s2, FrontStep.MoveQueue(q2));
    var q3 := q2.(phase := GC.Applying(1, 1));
    t := s2.(mode := Up(c.(q := q3, mem := Add(c.mem, e), applied := c.applied + {e})));
    assert ApplyOne(s2, t, q3);
    ThenFront(run + [s1] + [s2], s2, t, ApplyOp(q3));
    r := run + [s1] + [s2] + [t];
  }

  /** The writer returns. */
  lemma Returned(run: seq<State>, s: State, w: GC.Writer) returns (r: seq<State>, t: State)
    requires EndsIn(run, s) && s.mode.Up? && s.mode.core.log in s.disk.logs && !s.mode.core.q.failed
    requires s.mode.core.q.queue == [w] && s.mode.core.q.phase == GC.Applying(1, 1)
    requires s.mode.core.q.records != [] && LastRecord(s.mode.core.q).writers == [w] && |w.ops| == 1
    ensures EndsIn(r, t) && Resting(t) && Groups(t) == Groups(s) && t.disk == s.disk && t.past == s.past
    ensures t == s.(mode := Up(s.mode.core.(q := t.mode.core.q)))
    ensures t.mode.core.q.lastSeq == s.mode.core.q.lastSeq && t.mode.core.q.records == s.mode.core.q.records
  {
    hide EndsIn, GC.AllOps;
    var c := s.mode.core;
    OneOp(w, 0);
    var q1 := c.q.(phase := GC.Finished(1, GC.Ok, true));
    var s1 := s.(mode := Up(c.(q := q1)));
    assert GC.Finish(c.q, q1);
    ThenFront(run, s, s1, FrontStep.MoveQueue(q1));
    var q2 := q1.(served := q1.served + GC.Outcomes([w], GC.Ok, Some(|q1.records| - 1)), queue := [], phase := GC.Idle);
    assert [w][..1] == [w] && [w][1..] == [];
    assert GC.Retire(q1, q2);
    t := s.(mode := Up(c.(q := q2)));
    ThenFront(run + [s1], s1, t, FrontStep.MoveQueue(q2));
    r := run + [s1] + [t];
  }

  /** A whole Put, from its call to its return. */
  lemma Putting(run: seq<State>, s: State, w: GC.Writer) returns (r: seq<State>, t: State)
    requires EndsIn(run, s) && Resting(s) && |w.ops| == 1 && OpsFit(w.ops) && !w.sync
    ensures EndsIn(r, t) && Resting(t) && t.past == s.past
    ensures var c, e := s.mode.core, Entry(w.ops[0].key, s.mode.core.q.lastSeq + 1, w.ops[0].kind, w.ops[0].value);
      && t.disk == s.disk.(logs := s.disk.logs[c.log := LogFile(s.disk.logs[c.log].groups + [[e]], false)])
      && Groups(t) == Groups(s) + [[e]] && t.mode.core.q.lastSeq == c.q.lastSeq + 1
      && t.mode.core == c.(q := t.mode.core.q, mem := Add(c.mem, e), applied := c.applied + {e})
  {
    hide EndsIn, OpsFit, Add;
    var s1, s2;
    r, s1 := Reserving(run, s, w);
    r, s2 := Applied(r, s1, w);
    var c, e := s.mode.core, Entry(w.ops[0].key, s.mode.core.q.lastSeq + 1, w.ops[0].kind, w.ops[0].value);
    LoggedGroup(s, s2, w, e);
    r, t := Returned(r, s2, w);
  }

  lemma LoggedGroup(s: State, t: State, w: GC.Writer, e: Entry)
    requires s.mode.Up? && t.mode.Up? && t.past == s.past && |w.ops| == 1
    requires e == Entry(w.ops[0].key, s.mode.core.q.lastSeq + 1, w.ops[0].kind, w.ops[0].value)
    requires t.mode.core.q.records == s.mode.core.q.records + [GC.Record(e.sn, [w], false)]
    ensures Groups(t) == Groups(s) + [[e]]
  {
    OneOp(w, e.sn);
    hide RecordEntries;
    assert RecordGroups(t.mode.core.q.records) == RecordGroups(s.mode.core.q.records) + [[e]];
  }

  // ----------------------------------------------------------------- opening

  function NoTables(): Version {
    seq(NUM_LEVELS, i => [])
  }

  /** A fresh directory is opened. */
  lemma Opening() returns (r: seq<State>, t: State)
    ensures EndsIn(r, t) && Resting(t) && Groups(t) == []
    ensures t == State(Disk(Manifest(NoTables(), 1, 2, 0), map[], map[1 := LogFile([], false)]), [],
                       Up(Core(GC.Open(0), [], [], 0, 1, NoTables(), 2, map[], AtRest, {})))
  {
    hide EndsIn, LogsSet;
    var s := Init();
    var d := s.disk;
    assert EndsIn([s], s) by { StartsRun(); }
    assert LogsSet(d.logs, 0) == {} by { NoLogs(); }
    assert SetOf([]) == {};
    var s1 := s.(mode := Replayed(NoTables(), [], 1, 0));
    assert Load(s, s1, [], 1, 0);
    ThenRecover([s], s, s1, Loaded([], 1, 0));
    var s2 := s.(disk := d.(logs := map[1 := LogFile([], false)]), mode := Opened(NoTables(), 1, 2, 0));
    assert [s] + [s1] == [s, s1];
    ThenRecover([s, s1], s1, s2, LogOpened);
    var s3 := s2.(disk := s2.disk.(manifest := Manifest(NoTables(), 1, 2, 0)), mode := Committed(NoTables(), 1, 2, 0));
    assert [s, s1] + [s2] == [s, s1, s2];
    ThenRecover([s, s1, s2], s2, s3, OpenedCommitted);
    t := s3.(mode := Up(Core(GC.Open(0), [], [], 0, 1, NoTables(), 2, map[], AtRest, {})));
    assert History(s3) == {};
    assert [s, s1, s2] + [s3] == [s, s1, s2, s3];
    ThenRecover([s, s1, s2, s3], s3, t, WentUp);
    r := [s, s1, s2, s3] + [t];
    assert RecordGroups([]) == [];
  }

  lemma StartsRun()
    ensures EndsIn([Init()], Init())
  {
    hide Next;
  }

  lemma NoLogs()
    ensures LogsSet(map[], 0) == {}
  {
  }

  // --------------------------------------------------- a snapshot that changes

  /** What a point read of the open database finds. */
  ghost predicate Finds(s: State, key: Bytes, sn: nat, e: Option<Entry>) {
    && s.mode.Up? && |s.mode.core.v| == NUM_LEVELS
    && IsFirstHit(Sources(SetOf(s.mode.core.mem), SetOf(s.mode.core.imm), s.mode.core.v), key, sn, e)
  }

  ghost predicate Reads(s: State, key: Bytes, sn: nat, answer: Option<Bytes>) {
    (exists e :: Finds(s, key, sn, e)) && forall e :: Finds(s, key, sn, e) ==> Answer(e) == answer
  }

  lemma NothingRead(s: State, key: Bytes, sn: nat)
    requires s.mode.Up? && s.mode.core.mem == [] && s.mode.core.imm == [] && s.mode.core.v == NoTables()
    ensures Reads(s, key, sn, None)
  {
    var src := Sources({}, {}, NoTables());
    assert SetOf([]) == {};
    assert forall i :: 0 <= i < |src| ==> src[i] == {};
    assert Finds(s, key, sn, None);
  }

  lemma MemTableRead(s: State, e: Entry, sn: nat)
    requires s.mode.Up? && s.mode.core.mem == [e] && |s.mode.core.v| == NUM_LEVELS && e.sn <= sn
    ensures Reads(s, e.key, sn, Result(e))
  {
    hide LevelSet, FileSet;
    var src := Sources(SetOf(s.mode.core.mem), SetOf(s.mode.core.imm), s.mode.core.v);
    assert src[0] == {e};
    assert HitAt(src, e.key, sn, e, 0);
    assert Finds(s, e.key, sn, Some(e));
    forall r | Finds(s, e.key, sn, r) ensures r == Some(e) {
      assert !NoHit(src[0], e.key, sn);
      if r.Some? {
        var i :| HitAt(src, e.key, sn, r.value, i);
        assert i == 0;
      }
    }
  }

  /** The newest table answers for the keys in it. */
  lemma NewTableRead(s: State, v: Version, f: File, e: Entry, sn: nat)
    requires s.mode.Up? && s.mode.core.mem == [] && s.mode.core.imm == [] && |v| == NUM_LEVELS
    requires s.mode.core.v == AddNewest(v, f) && |AddNewest(v, f)| == NUM_LEVELS
    requires e in f.entries && e.sn <= sn && forall x :: x in f.entries && x.key == e.key ==> x == e
    ensures Reads(s, e.key, sn, Result(e))
  {
    hide Sources, AddNewest, IsFirstHit;
    assert SetOf([]) == {};
    assert IsNewest(e, FileSet(f), e.key, sn);
    NewestAnswers(v, f, e.key, sn, e, None);
    assert Finds(s, e.key, sn, Some(e));
    forall r | Finds(s, e.key, sn, r) ensures r == Some(e) {
      NewestAnswers(v, f, e.key, sn, e, r);
    }
  }

  /** A snapshot is taken between the reservation of a Put and its arrival in the memtable:
      the same read through it first finds nothing and then the value. */
  lemma SnapshotChanges(value: Bytes) returns (run: seq<State>, i: nat)
    requires |value| < TWO32
    ensures IsExecution(run) && i < |run| && TakenNow(run[i], 0, 1) && GroupInFlight(run[i].mode.core.q)
    ensures forall k :: i <= k < |run| ==> HoldsSnapshot(run[k], 0, 1)
    ensures Reads(run[i], A, 1, None) && Reads(run[|run| - 1], A, 1, Some(value))
  {
    hide EndsIn, OpsFit, Next, Reads, Add, Init;
    var w := PutOf(A, value);
    assert OpsFit(w.ops) by { FitsOne(w); }
    var s, s1, t;
    run, s := Opening();
    run, s1 := Reserving(run, s, w);
    var s2 := s1.(mode := Up(s1.mode.core.(snaps := map[0 := 1])));
    ThenFront(run, s1, s2, Take(0));
    i, run := |run|, run + [s2];
    NothingRead(s2, A, 1);
    run, t := Applied(run, s2, w);
    var e := Entry(A, 1, Value, value);
    FirstEntry(e);
    MemTableRead(t, e, 1);
    LastOf(run, t);
  }

  lemma LastOf(run: seq<State>, s: State)
    requires EndsIn(run, s)
    ensures IsExecution(run) && run[|run| - 1] == s
  {
    hide Next;
  }

  lemma FitsOne(w: GC.Writer)
    requires |w.ops| == 1 && |w.ops[0].key| < TWO32 && |w.ops[0].value| < TWO32
    requires (w.ops[0].kind.Deletion? ==> w.ops[0].value == [])
    ensures OpsFit(w.ops)
  {
  }

  // --------------------------------------------------------- a log left behind

  lemma Crashing(run: seq<State>, s: State) returns (r: seq<State>, t: State)
    requires EndsIn(run, s)
    ensures EndsIn(r, t) && t == State(s.disk, Groups(s), Down)
  {
    hide EndsIn, Groups;
    t := State(s.disk, Groups(s), Down);
    ThenRecover(run, s, t, Crashed);
    r := run + [t];
  }

  /** The manifest is loaded and the replayed logs land in a table of their own. */
  lemma Replaying(run: seq<State>, s: State, mem: seq<Entry>, next: nat, last: nat) returns (r: seq<State>, t: State)
    requires EndsIn(run, s) && s.mode.Down? && mem != [] && Sorted(mem) && SetOf(mem) == Replay(s.disk)
    requires Bumped(s.disk, next) && IsMaxSeq(s.disk.manifest.lastSeq, Replay(s.disk), last)
    requires |s.disk.manifest.version| == NUM_LEVELS && AllSurvivors(mem, last, false) == mem
    ensures var d, v := s.disk, AddNewest(s.disk.manifest.version, File(next, 1, mem));
      EndsIn(r, t) && |v| == NUM_LEVELS
      && t == State(Disk(Manifest(v, 0, next + 1, last), d.tables[next := mem], d.logs), s.past,
        Flushed(v, next + 1, last))
  {
    hide EndsIn, Replay, Sorted, SetOf, Bumped, IsMaxSeq, AllSurvivors;
    var d := s.disk;
    var v := AddNewest(d.manifest.version, File(next, 1, mem));
    var s1 := s.(mode := Replayed(d.manifest.version, mem, next, last));
    ThenRecover(run, s, s1, Loaded(mem, next, last));
    var s2 := s1.(disk := d.(tables := d.tables[next := mem]), mode := Built(v, next + 1, last));
    ThenRecover(run + [s1], s1, s2, ReplayBuilt(1));
    t := s2.(disk := s2.disk.(manifest := Manifest(v, 0, next + 1, last)), mode := Flushed(v, next + 1, last));
    ThenRecover(run + [s1] + [s2], s2, t, ReplayCommitted);
    r := run + [s1] + [s2] + [t];
  }

  /** A new log is opened and committed. */
  lemma OpeningLog(run: seq<State>, s: State, v: Version, next: nat, last: nat) returns (r: seq<State>, t: State)
    requires EndsIn(run, s) && (s.mode == Flushed(v, next, last) || s.mode == Replayed(v, [], next, last))
    requires next !in s.disk.logs
    ensures EndsIn(r, t) && t == State(
      Disk(Manifest(v, next, next + 1, last), s.disk.tables, s.disk.logs[next := LogFile([], false)]), s.past,
      Committed(v, next, next + 1, last))
  {
    hide EndsIn;
    var d := s.disk;
    var s1 := s.(disk := d.(logs := d.logs[next := LogFile([], false)]), mode := Opened(v, next, next + 1, last));
    ThenRecover(run, s, s1, LogOpened);
    t := s1.(disk := s1.disk.(manifest := Manifest(v, next, next + 1, last)),
             mode := Committed(v, next, next + 1, last));
    ThenRecover(run + [s1], s1, t, OpenedCommitted);
    r := run + [s1] + [t];
  }

  lemma Unlinking(run: seq<State>, s: State, n: nat) returns (r: seq<State>, t: State)
    requires EndsIn(run, s) && s.mode.Committed? && n in s.disk.logs && n < s.mode.log
    ensures EndsIn(r, t) && t == s.(disk := s.disk.(logs := s.disk.logs - {n}))
  {
    hide EndsIn;
    t := s.(disk := s.disk.(logs := s.disk.logs - {n}));
    ThenRecover(run, s, t, OldLogDropped(n));
    r := run + [t];
  }

  lemma GoingUp(run: seq<State>, s: State) returns (r: seq<State>, t: State)
    requires EndsIn(run, s) && s.mode.Committed? && s.mode.log in s.disk.logs
    ensures EndsIn(r, t) && t == s.(mode := Up(Core(GC.Open(s.mode.lastSeq), [], [], 0, s.mode.log, s.mode.v,
                                                    s.mode.next, map[], AtRest, GroupsSet(s.past))))
    ensures Resting(t) && Groups(t) == s.past
  {
    hide EndsIn, GroupsSet;
    t := s.(mode := Up(Core(GC.Open(s.mode.lastSeq), [], [], 0, s.mode.log, s.mode.v, s.mode.next, map[], AtRest,
                            GroupsSet(s.past))));
    assert History(s) == GroupsSet(s.past);
    ThenRecover(run, s, t, WentUp);
    r := run + [t];
    assert RecordGroups([]) == [];
  }

  lemma Rotating(run: seq<State>, s: State) returns (r: seq<State>, t: State)
    requires EndsIn(run, s) && Resting(s) && s.mode.core.mem != [] && s.mode.core.imm == []
    requires s.mode.core.next !in s.disk.logs
    ensures EndsIn(r, t) && Resting(t) && var c := s.mode.core;
      t == State(s.disk.(logs := s.disk.logs[c.next := LogFile([], false)]), s.past,
                 Up(c.(mem := [], imm := c.mem, immLog := c.log, log := c.next, next := c.next + 1)))
  {
    hide EndsIn;
    var c := s.mode.core;
    t := State(s.disk.(logs := s.disk.logs[c.next := LogFile([], false)]), s.past,
               Up(c.(mem := [], imm := c.mem, immLog := c.log, log := c.next, next := c.next + 1)));
    ThenFront(run, s, t, RotateLog);
    r := run + [t];
  }

  lemma OneSurvives(e: Entry, floor: nat)
    ensures AllSurvivors([e], floor, false) == [e]
  {
    assert Survivors([e], 1, floor, false) == Survivors([e], 0, floor, false) + [e];
  }

  /** A memtable of one entry becomes a table; its commit is still to come. */
  lemma FlushingUncommitted(run: seq<State>, s: State, e: Entry) returns (r: seq<State>, t: State)
    requires EndsIn(run, s) && Resting(s) && s.mode.core.imm == [e] && s.mode.core.bg.AtRest?
    requires |s.mode.core.v| == NUM_LEVELS
    ensures EndsIn(r, t) && Resting(t) && var c := s.mode.core;
      t == State(s.disk.(tables := s.disk.tables[c.next := [e]]), s.past,
                 Up(c.(v := AddNewest(c.v, File(c.next, 1, [e])), imm := [], immLog := 0, next := c.next + 1,
                       bg := Committing(c.log, c.next + 1, c.q.lastSeq, false))))
  {
    hide EndsIn, AllSurvivors, AddNewest, Floor;
    var c := s.mode.core;
    OneSurvives(e, Floor(c));
    var s1 := s.(mode := Up(c.(next := c.next + 1, bg := Flushing(c.next, Floor(c), None))));
    ThenFlush(run, s, s1, FlushStarts);
    var f := File(c.next, 1, [e]);
    var s2 := s1.(disk := s1.disk.(tables := s1.disk.tables[f.number := f.entries]),
                  mode := Up(s1.mode.core.(bg := Flushing(c.next, Floor(c), Some(f)))));
    ThenFlush(run + [s1], s1, s2, FlushBuilt(1));
    var c2 := s2.mode.core;
    t := s2.(mode := Up(c2.(v := AddNewest(c2.v, f), imm := [], immLog := 0,
      bg := Committing(c2.log, c2.next, c2.q.lastSeq, false))));
    ThenFlush(run + [s1] + [s2], s2, t, FlushInstalled);
    r := run + [s1] + [s2] + [t];
  }

  /** The commit of a flush; of the logs it makes obsolete at most `gone` is unlinked. */
  lemma CommittingFlush(run: seq<State>, s: State, gone: Option<nat>) returns (r: seq<State>, t: State)
    requires EndsIn(run, s) && Resting(s) && s.mode.core.bg.Committing? && !s.mode.core.bg.written
    requires gone.Some? ==> gone.value in s.disk.logs && gone.value < s.mode.core.bg.log <= s.mode.core.log
    ensures EndsIn(r, t) && Resting(t) && var c := s.mode.core;
      t == State(Disk(Manifest(c.v, c.bg.log, c.bg.next, c.bg.lastSeq), s.disk.tables,
                      if gone.Some? then s.disk.logs - {gone.value} else s.disk.logs), s.past,
                 Up(c.(bg := AtRest)))
  {
    hide EndsIn;
    var c := s.mode.core;
    var s1 := s.(disk := s.disk.(manifest := Manifest(c.v, c.bg.log, c.bg.next, c.bg.lastSeq)),
                 mode := Up(c.(bg := c.bg.(written := true))));
    ThenCommit(run, s, s1, ManifestWritten);
    var s2, r2 := s1, run + [s1];
    if gone.Some? {
      s2 := s1.(disk := s1.disk.(logs := s1.disk.logs - {gone.value}));
      ThenCommit(r2, s1, s2, CommitStep.LogDropped(gone.value));
      r2 := r2 + [s2];
    }
    t := s2.(mode := Up(c.(bg := AtRest)));
    ThenCommit(r2, s2, t, CommitFinished);
    r := r2 + [t];
  }

  lemma SingleGroup(e: Entry)
    ensures GroupsSet([[e]]) == {e}
  {
    assert e in [[e]][0];
  }

  /** What a Put leaves in a log that was empty. */
  lemma OneGroup(logs: map<nat, LogFile>, from: nat, n: nat, e: Entry)
    requires n in logs && logs[n].groups == [[e]] && n >= from && forall m :: m in logs && m >= from ==> m == n
    ensures LogsSet(logs, from) == {e} && SetOf([e]) == {e} && Sorted([e]) && AllSurvivors([e], e.sn, false) == [e]
  {
    SingleGroup(e);
    assert LogSet(logs[n]) == {e};
    assert Survivors([e], 1, e.sn, false) == Survivors([e], 0, e.sn, false) + [e];
  }

  lemma TwoGroups(logs: map<nat, LogFile>, m: nat, n: nat, a: Entry, b: Entry)
    requires m in logs && n in logs && m != n && logs[m].groups == [[a]] && logs[n].groups == [[b]]
    requires forall k :: k in logs ==> k == m || k == n
    requires a.key == B && b.key == A
    ensures LogsSet(logs, 0) == {a, b} == SetOf([b, a]) && Sorted([b, a])
    ensures forall last :: AllSurvivors([b, a], last, false) == [b, a]
  {
    SingleGroup(a);
    SingleGroup(b);
    assert LogSet(logs[m]) == {a} && LogSet(logs[n]) == {b};
    forall last ensures AllSurvivors([b, a], last, false) == [b, a] {
      assert Survivors([b, a], 1, last, false) == [b];
      assert Survivors([b, a], 2, last, false) == [b] + [a];
    }
  }

  /** B is written and flushed, and unlinking its log 1 fails. */
  lemma FirstFlush(x: Bytes) returns (r: seq<State>, t: State)
    requires |x| < TWO32
    ensures var e := Entry(B, 1, Value, x);
      && EndsIn(r, t) && Resting(t) && Groups(t) == [[e]] && |t.mode.core.v| == NUM_LEVELS && t.disk.tables.Keys == {3}
      && t.disk.logs == map[1 := LogFile([[e]], false), 2 := LogFile([], false)]
      && t.mode.core.mem == [] && t.mode.core.imm == [] && t.mode.core.log == 2 && t.mode.core.next == 4
      && t.mode.core.bg.AtRest? && t.mode.core.q.lastSeq == 1
  {
    hide EndsIn, AllSurvivors, Add;
    var w, e := PutOf(B, x), Entry(B, 1, Value, x);
    assert OpsFit(w.ops) by { FitsOne(w); }
    r, t := Opening();
    r, t := Putting(r, t, w);
    FirstEntry(e);
    r, t := Rotating(r, t);
    r, t := FlushingUncommitted(r, t, e);
    r, t := CommittingFlush(r, t, None);
    assert t.disk.logs == map[1 := LogFile([[e]], false), 2 := LogFile([], false)];
  }

  lemma FirstEntry(e: Entry)
    ensures Add([], e) == [e] && [] + [[e]] == [[e]]
  {
  }

  /** B is overwritten and flushed, which unlinks log 2; then A is written, and the process
      dies. */
  lemma SecondFlush(x: Bytes, y: Bytes, z: Bytes) returns (r: seq<State>, t: State)
    requires |x| < TWO32 && |y| < TWO32 && |z| < TWO32
    ensures var e, g, h := Entry(B, 1, Value, x), Entry(B, 2, Value, y), Entry(A, 3, Value, z);
      && EndsIn(r, t) && t.mode.Down? && t.past == [[e], [g], [h]]
      && t.disk.logs == map[1 := LogFile([[e]], false), 4 := LogFile([[h]], false)]
      && t.disk.manifest.log == 4 && t.disk.manifest.next == 6 && t.disk.manifest.lastSeq == 2
      && |t.disk.manifest.version| == NUM_LEVELS && t.disk.tables.Keys == {3, 5}
  {
    hide EndsIn, AllSurvivors, Add, Groups;
    var e, g, h := Entry(B, 1, Value, x), Entry(B, 2, Value, y), Entry(A, 3, Value, z);
    var w, u := PutOf(B, y), PutOf(A, z);
    assert OpsFit(w.ops) && OpsFit(u.ops) by { FitsOne(w); FitsOne(u); }
    r, t := FirstFlush(x);
    r, t := Putting(r, t, w);
    FirstEntry(g);
    r, t := RotateAndFlush(r, t, g, 2);
    r, t := Putting(r, t, u);
    FirstEntry(h);
    r, t := Crashing(r, t);
    assert t.disk.logs == map[1 := LogFile([[e]], false), 4 := LogFile([[h]], false)];
    assert [[e]] + [[g]] + [[h]] == [[e], [g], [h]];
  }

  lemma RotateAndFlush(run: seq<State>, s: State, e: Entry, gone: nat) returns (r: seq<State>, t: State)
    requires EndsIn(run, s) && Resting(s) && s.mode.core.mem == [e] && s.mode.core.imm == [] && s.mode.core.bg.AtRest?
    requires |s.mode.core.v| == NUM_LEVELS && gone in s.disk.logs && gone < s.mode.core.next
    requires s.mode.core.next !in s.disk.logs
    ensures EndsIn(r, t) && Resting(t) && Groups(t) == Groups(s)
    ensures var c, v := s.mode.core, AddNewest(s.mode.core.v, File(s.mode.core.next + 1, 1, [e]));
      t == State(Disk(Manifest(v, c.next, c.next + 2, c.q.lastSeq), s.disk.tables[c.next + 1 := [e]],
                      s.disk.logs[c.next := LogFile([], false)] - {gone}), s.past,
                 Up(c.(mem := [], imm := [], immLog := 0, log := c.next, v := v, next := c.next + 2, bg := AtRest)))
  {
    hide EndsIn, AddNewest, RecordGroups;
    r, t := Rotating(run, s);
    r, t := FlushingUncommitted(r, t, e);
    r, t := CommittingFlush(r, t, Some(gone));
  }

  /** Unlinking log 1 fails once, which nobody notices, and the process dies twice, the second
      time in a recovery that has just committed a manifest naming log 0: in the end the
      database is open, at rest and without any error, no obsolete log is left, every write
      was acknowledged, and B reads as its old value `x` although the log order says `y`. */
  lemma StaleAfterFailedUnlink(x: Bytes, y: Bytes, z: Bytes) returns (run: seq<State>, t: State)
    requires |x| < TWO32 && |y| < TWO32 && |z| < TWO32
    ensures EndsIn(run, t) && Resting(t) && t.mode.core.q.lastSeq == 3 && Floor(t.mode.core) <= 3
    ensures t.disk.logs.Keys == {t.mode.core.log}
    ensures GroupsSet(Groups(t)) == {Entry(B, 1, Value, x), Entry(B, 2, Value, y), Entry(A, 3, Value, z)}
    ensures Reads(t, B, 3, Some(x)) && View(GroupsSet(Groups(t)), B, 3) == Some(y)
  {
    hide EndsIn, AllSurvivors, LogsSet, Sorted, Floor, View, Reads, AddNewest, GroupsSet;
    var e, g, h := Entry(B, 1, Value, x), Entry(B, 2, Value, y), Entry(A, 3, Value, z);
    run, t := SecondFlush(x, y, z);
    OneGroup(t.disk.logs, 4, 4, h);
    run, t := Replaying(run, t, [h], 6, 3);
    run, t := Crashing(run, t);
    TwoGroups(t.disk.logs, 1, 4, e, h);
    var v := t.disk.manifest.version;
    run, t := Replaying(run, t, [h, e], 7, 3);
    var f := File(7, 1, [h, e]);
    run, t := OpeningLog(run, t, t.mode.v, 8, 3);
    run, t := Unlinking(run, t, 1);
    run, t := Unlinking(run, t, 4);
    assert t.disk.logs.Keys == {8};
    run, t := GoingUp(run, t);
    NewTableRead(t, v, f, e, 3);
    OverwrittenView(e, g, h);
  }

  lemma OverwrittenView(e: Entry, g: Entry, h: Entry)
    requires e.key == g.key == B && h.key == A && e.sn == 1 && g.sn == 2 && h.sn == 3
    ensures GroupsSet([[e], [g], [h]]) == {e, g, h} && View({e, g, h}, B, 3) == Result(g)
  {
    hide View;
    ThreeGroups(e, g, h);
    var H := {e, g, h};
    assert SeqUnique(H);
    assert IsNewest(g, H, B, 3);
    ViewIs(H, B, 3, g);
  }

  lemma ThreeGroups(e: Entry, g: Entry, h: Entry)
    ensures GroupsSet([[e], [g], [h]]) == {e, g, h}
  {
    var gs := [[e], [g], [h]];
    assert e in gs[0] && g in gs[1] && h in gs[2];
  }

  // ------------------------------------------------- a directory not listed

  /** A Put is acknowledged and the process dies; the next one cannot list the directory,
      replays nothing, and unlinks the log: the database is open, at rest and without any
      error, and the write is gone. */
  lemma LostAfterFailedListing(x: Bytes) returns (run: seq<State>, t: State)
    requires |x| < TWO32
    ensures EndsIn(run, t) && Resting(t) && t.disk.logs.Keys == {t.mode.core.log} && Floor(t.mode.core) <= 1
    ensures GroupsSet(Groups(t)) == {Entry(B, 1, Value, x)}
    ensures Reads(t, B, 1, None) && View(GroupsSet(Groups(t)), B, 1) == Some(x)
  {
    hide EndsIn, LogsSet, View, Reads, GroupsSet;
    var w, e := PutOf(B, x), Entry(B, 1, Value, x);
    assert OpsFit(w.ops) by { FitsOne(w); }
    run, t := Opening();
    run, t := Putting(run, t, w);
    FirstEntry(e);
    run, t := Crashing(run, t);
    var s := t;
    t := s.(mode := Replayed(NoTables(), [], 2, 0));
    ThenRecover(run, s, t, LoadedBlind);
    run, t := OpeningLog(run + [t], t, NoTables(), 2, 0);
    run, t := Unlinking(run, t, 1);
    assert t.disk.logs.Keys == {2};
    run, t := GoingUp(run, t);
    NothingRead(t, B, 1);
    SingleGroup(e);
    assert IsNewest(e, {e}, B, 1);
    ViewIs({e}, B, 1, e);
  }

  // ------------------------------------------------------------- three logs

  /** A flush is installed but not yet committed while its successor fills up and is rotated
      out too: a crash now has three non-empty logs to replay, and no recovery crashed. */
  lemma ThreeLogsToReplay(x: Bytes) returns (run: seq<State>, t: State)
    requires |x| < TWO32
    ensures EndsIn(run, t) && t.mode.Up? && t.disk.manifest.log == 1 && ReplayedLogs(t.disk) == {1, 2, 4}
  {
    hide EndsIn, OpsFit, AllSurvivors, AddNewest, Add;
    var w := PutOf(A, x);
    assert OpsFit(w.ops) by { FitsOne(w); }
    var s;
    run, s := Opening();
    run, s := Putting(run, s, w);
    FirstEntry(Entry(A, 1, Value, x));
    run, s := Rotating(run, s);
    run, s := FlushingUncommitted(run, s, Entry(A, 1, Value, x));
    run, s := Putting(run, s, w);
    FirstEntry(Entry(A, 2, Value, x));
    run, s := Rotating(run, s);
    run, t := Putting(run, s, w);
    assert t.disk.logs.Keys == {1, 2, 4};
  }
}
