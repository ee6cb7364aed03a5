/** Sequences of engine steps, for methods that perform several of them. */
module Reachability {
  import opened InternalKeys
  import opened Compactions
  import opened Trees
  import GC = GroupCommit
  import opened Disks
  import opened Engine
  import opened EngineInv
  import opened EngineFront
  import opened EngineBack
  import opened EngineRecovery
  import opened Replays

  ghost predicate Path(p: seq<State>, s: State, t: State) {
    p != [] && p[0] == s && p[|p| - 1] == t && forall i :: 0 < i < |p| ==> SoundNext(p[i - 1], p[i])
  }

  /** Some sequence of steps leads from `s` to `t`, each of them sound. */
  ghost predicate Reaches(s: State, t: State) {
    exists p :: Path(p, s, t)
  }

  /** What holds of every reachable state. */
  ghost predicate Good(s: State) {
    Ok(s) && LogsClimb(s.disk.logs) && Counts(s)
  }

  lemma ReachSelf(s: State)
    ensures Reaches(s, s)
  {
    hide SoundNext;
    assert Path([s], s, s);
  }

  lemma ReachNext(s: State, t: State, u: State)
    requires Reaches(s, t) && SoundNext(t, u)
    ensures Reaches(s, u)
  {
    hide SoundNext;
    var p :| Path(p, s, t);
    assert Path(p + [u], s, u);
  }

  lemma ReachTrans(s: State, t: State, u: State)
    requires Reaches(s, t) && Reaches(t, u)
    ensures Reaches(s, u)
  {
    hide SoundNext;
    var p :| Path(p, s, t);
    var r :| Path(r, t, u);
    assert Path(p + r[1..], s, u);
  }

  lemma GoodNext(s: State, t: State)
    requires Good(s) && SoundNext(s, t)
    ensures Good(t)
  {
    hide Ok, Next, LogsClimb, Counts, Sound;
    NextOk(s, t);
    ClimbsStep(s, t);
    CountsStep(s, t);
  }

  lemma {:induction false} GoodPath(p: seq<State>, s: State, t: State, i: nat)
    requires Path(p, s, t) && i < |p| && Good(s)
    ensures Good(p[i])
    decreases i
  {
    hide Good, SoundNext;
    if i > 0 {
      GoodPath(p, s, t, i - 1);
      GoodNext(p[i - 1], p[i]);
    }
  }

  /** Every state reachable from a fresh directory by sound steps is good. */
  lemma ReachedIsGood(t: State)
    requires Reaches(Init(), t)
    ensures Good(t)
  {
    hide Ok, Path;
    InitOk();
    var p :| Path(p, Init(), t);
    ReachedAtEnd(p, Init(), t);
    GoodPath(p, Init(), t, |p| - 1);
  }

  lemma ReachedAtEnd(p: seq<State>, s: State, t: State)
    requires Path(p, s, t)
    ensures p != [] && p[|p| - 1] == t
  {
    hide SoundNext;
  }

  /** One more step. */
  lemma TookStep(s: State, t: State, u: State)
    requires Reaches(s, t) && Good(t) && Next(t, u) && Sound(t, u)
    ensures Reaches(s, u) && Good(u)
  {
    hide Reaches, Next, Sound, Good;
    ReachNext(s, t, u);
    GoodNext(t, u);
  }

  lemma TookUp(s: State, t: State, u: State)
    requires Reaches(s, t) && Good(t) && Next(t, u) && t.mode.Up?
    ensures Reaches(s, u) && Good(u)
  {
    hide Reaches, Next, Sound, Good;
    UpIsSound(t, u);
    TookStep(s, t, u);
  }

  // ------------------------------------------------- naming the steps, by kind

  datatype FrontStep =
    | MoveQueue(q: GC.Queue)
    | Tear
    | Log(q: GC.Queue)
    | ApplyOp(q: GC.Queue)
    | RotateLog
    | StrayRotation(torn: bool)
    | Take(id: nat)
    | Release(id: nat)

  ghost predicate DoesFront(s: State, t: State, step: FrontStep) {
    match step
    case MoveQueue(q) => QueueOnly(s, t, q)
    case Tear => TearLog(s, t)
    case Log(q) => LogGroup(s, t, q)
    case ApplyOp(q) => ApplyOne(s, t, q)
    case RotateLog => Rotate(s, t)
    case StrayRotation(torn) => StrayLog(s, t, torn)
    case Take(id) => TakeSnapshot(s, t, id)
    case Release(id) => ReleaseSnapshot(s, t, id)
  }

  lemma FrontIsNext(s: State, t: State, step: FrontStep)
    requires DoesFront(s, t, step)
    ensures ForegroundStep(s, t) && Next(s, t)
  {
    hide QueueOnly, TearLog, LogGroup, ApplyOne, Rotate, StrayLog, TakeSnapshot, ReleaseSnapshot, WorkerStep,
      RecoveryStep;
  }

  lemma TookFront(s: State, t: State, u: State, step: FrontStep)
    requires Reaches(s, t) && Good(t) && DoesFront(t, u, step)
    ensures Reaches(s, u) && Good(u)
  {
    hide Reaches, Good, DoesFront, ForegroundStep, Next;
    FrontIsNext(t, u, step);
    FrontIsUp(t, u);
    TookUp(s, t, u);
  }

  datatype FlushStep = FlushStarts | FlushBuilt(size: nat) | FlushInstalled

  ghost predicate DoesFlush(s: State, t: State, step: FlushStep) {
    match step
    case FlushStarts => StartFlush(s, t)
    case FlushBuilt(size) => BuildFlush(s, t, size)
    case FlushInstalled => InstallFlush(s, t)
  }

  datatype CompactStep =
    | CompactionStarts(job: Compaction, pieces: seq<seq<Entry>>)
    | TableEmitted(size: nat)
    | CompactionInstalled

  ghost predicate DoesCompact(s: State, t: State, step: CompactStep) {
    match step
    case CompactionStarts(job, pieces) => StartCompaction(s, t, job, pieces)
    case TableEmitted(size) => EmitTable(s, t, size)
    case CompactionInstalled => InstallCompaction(s, t)
  }

  datatype CommitStep =
    | ManifestWritten
    | TableDropped(n: nat)
    | LogDropped(n: nat)
    | CommitFinished
    | WorkerFailed
    | NumberSkipped

  ghost predicate DoesCommit(s: State, t: State, step: CommitStep) {
    match step
    case ManifestWritten => WriteManifest(s, t)
    case TableDropped(n) => DropTable(s, t, n)
    case LogDropped(n) => DropLog(s, t, n)
    case CommitFinished => FinishCommit(s, t)
    case WorkerFailed => WorkerFails(s, t)
    case NumberSkipped => SkipNumber(s, t)
  }

  lemma TookBack(s: State, t: State, u: State)
    requires Reaches(s, t) && Good(t) && WorkerStep(t, u)
    ensures Reaches(s, u) && Good(u)
  {
    hide Reaches, Good, WorkerStep, ForegroundStep, RecoveryStep;
    WorkerIsUp(t, u);
    TookUp(s, t, u);
  }

  lemma TookFlush(s: State, t: State, u: State, step: FlushStep)
    requires Reaches(s, t) && Good(t) && DoesFlush(t, u, step)
    ensures Reaches(s, u) && Good(u)
  {
    hide Reaches, Good, StartFlush, BuildFlush, InstallFlush;
    TookBack(s, t, u);
  }

  lemma TookCompact(s: State, t: State, u: State, step: CompactStep)
    requires Reaches(s, t) && Good(t) && DoesCompact(t, u, step)
    ensures Reaches(s, u) && Good(u)
  {
    hide Reaches, Good, StartCompaction, EmitTable, InstallCompaction;
    TookBack(s, t, u);
  }

  lemma TookCommit(s: State, t: State, u: State, step: CommitStep)
    requires Reaches(s, t) && Good(t) && DoesCommit(t, u, step)
    ensures Reaches(s, u) && Good(u)
  {
    hide Reaches, Good, WriteManifest, DropTable, DropLog, FinishCommit, WorkerFails, SkipNumber;
    TookBack(s, t, u);
  }

  datatype RecoverStep =
    | Loaded(mem: seq<Entry>, next: nat, lastSeq: nat)
    | LoadedBlind
    | ReplayBuilt(size: nat)
    | ReplayCommitted
    | LogOpened
    | LogStrayed(torn: bool)
    | OpenedCommitted
    | OldTableDropped(n: nat)
    | OldLogDropped(n: nat)
    | WentUp
    | Crashed

  ghost predicate DoesRecover(s: State, t: State, step: RecoverStep) {
    match step
    case Loaded(mem, next, lastSeq) => Load(s, t, mem, next, lastSeq)
    case LoadedBlind => BlindLoad(s, t)
    case ReplayBuilt(size) => BuildReplayed(s, t, size)
    case ReplayCommitted => CommitReplayed(s, t)
    case LogOpened => OpenLog(s, t)
    case LogStrayed(torn) => StrayOpenLog(s, t, torn)
    case OpenedCommitted => CommitOpened(s, t)
    case OldTableDropped(n) => RecoveryDropTable(s, t, n)
    case OldLogDropped(n) => RecoveryDropLog(s, t, n)
    case WentUp => GoUp(s, t)
    case Crashed => Crash(s, t)
  }

  lemma RecoverIsNext(s: State, t: State, step: RecoverStep)
    requires DoesRecover(s, t, step)
    ensures Next(s, t)
  {
    hide Load, BlindLoad, BuildReplayed, CommitReplayed, OpenLog, StrayOpenLog, CommitOpened, RecoveryDropTable,
      RecoveryDropLog, GoUp, Crash, ForegroundStep, WorkerStep;
  }

  /** Only two kinds of step can fail to be sound; a load that lists the directory cannot. */
  lemma RecoverSound(s: State, t: State, step: RecoverStep)
    requires DoesRecover(s, t, step)
    requires step.ReplayBuilt? ==> GoodReplay(s.disk, History(s), s.mode.lastSeq)
    requires step.LoadedBlind? ==> NothingHidden(s.disk)
    ensures Sound(s, t)
  {
    hide GoodReplay, History, IsMaxSeq, Sorted, DeadTable, LogsSet, AddNewest, AllSurvivors;
    if step.Loaded? && BlindLoad(s, t) { NothingReplayed(); }
  }

  lemma TookRecover(s: State, t: State, u: State, step: RecoverStep)
    requires Reaches(s, t) && Good(t) && DoesRecover(t, u, step)
    requires step.ReplayBuilt? ==> GoodReplay(t.disk, History(t), t.mode.lastSeq)
    requires step.LoadedBlind? ==> NothingHidden(t.disk)
    ensures Reaches(s, u) && Good(u)
  {
    hide Reaches, Good, Next, Sound, GoodReplay, NothingHidden, History;
    RecoverIsNext(t, u, step);
    RecoverSound(t, u, step);
    hide DoesRecover;
    TookStep(s, t, u);
  }
}
