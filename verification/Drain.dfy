/** When background work is due and why it runs out, after PickCompactionLevel and
    DrainBackgroundWork in src/db.cpp. */
module Drains {
  import opened ByteStrings
  import opened InternalKeys
  import opened Views
  import opened MergeSpec
  import opened Scans
  import opened Compactions
  import opened Versions
  import opened Trees

  /** When the log is synced, unless a write asks for it itself. */
  datatype SyncPolicy = EveryWrite | Interval | Never

  datatype Options = Options(trigger: nat, levelBase: nat, policy: SyncPolicy)

  /** At least one L0 file triggers. With a trigger of 0 there is always work pending. */
  ghost predicate OptionsOk(o: Options) {
    o.trigger >= 1
  }

  // ------------------------------------------------------------ picking a level

  /** Version::LevelBytes, in 64 bits. */
  function LevelBytes(files: seq<File>): (n: nat)
    ensures n < TWO64
  {
    if files == [] then 0 else (files[0].size + LevelBytes(files[1..])) % TWO64
  }

  /** The budget grows tenfold per level below L1, in 64 bits. */
  function MaxBytes(o: Options, level: nat): nat {
    if level <= 1 then o.levelBase % TWO64 else (10 * MaxBytes(o, level - 1)) % TWO64
  }

  /** What dividing two non-negative doubles can give. */
  datatype Ratio = NotANumber | Infinite | Finite(value: real)

  function Divide(a: nat, b: nat): Ratio {
    if b > 0 then Finite(a as real / b as real) else if a > 0 then Infinite else NotANumber
  }

  /** `a > b` on doubles. */
  predicate Exceeds(a: Ratio, b: Ratio) {
    match (a, b)
    case (Finite(x), Finite(y)) => x > y
    case (Infinite, Finite(_)) => true
    case _ => false
  }

  function Score(v: Version, o: Options, level: nat): Ratio
    requires level < |v|
  {
    Divide(LevelBytes(v[level]), MaxBytes(o, level))
  }

  /** The level to compact: L0 by file count, otherwise the shallowest of the levels that
      exceed their budget the most; -1 if there is none. The bottom level is never picked. */
  ghost predicate IsPick(v: Version, o: Options, level: int)
    requires |v| == NUM_LEVELS
  {
    if |v[0]| >= o.trigger then level == 0
    else if forall l :: 1 <= l < NUM_LEVELS - 1 ==> !Exceeds(Score(v, o, l), Finite(1.0)) then level == -1
    else
      && 1 <= level < NUM_LEVELS - 1 && Exceeds(Score(v, o, level), Finite(1.0))
      && (forall l :: 1 <= l < level ==> Score(v, o, l).NotANumber? || Exceeds(Score(v, o, level), Score(v, o, l)))
      && (forall l :: level <= l < NUM_LEVELS - 1 ==> !Exceeds(Score(v, o, l), Score(v, o, level)))
  }

  method BytesOf(files: seq<File>) returns (total: nat)
    ensures total == LevelBytes(files)
  {
    total := 0;
    for i := 0 to |files|
      invariant total < TWO64 && (total + LevelBytes(files[i..])) % TWO64 == LevelBytes(files)
    {
      var more := files[i].size;
      assert files[i..][1..] == files[i + 1..];
      Wraps(total, more, LevelBytes(files[i + 1..]));
      total := (total + more) % TWO64;
    }
  }

  lemma Wraps(a: nat, b: nat, c: nat)
    ensures ((a + b) % TWO64 + c) % TWO64 == (a + (b + c) % TWO64) % TWO64
  {
    ModSum(a + b, c);
    ModSum(b + c, a);
  }

  lemma ModSum(a: nat, b: nat)
    ensures (a % TWO64 + b) % TWO64 == (a + b) % TWO64
  {
    var k := a / TWO64;
    assert a == k * TWO64 + a % TWO64;
    ModShift(a % TWO64 + b, k);
  }

  lemma {:induction false} ModShift(a: nat, k: nat)
    ensures (a + k * TWO64) % TWO64 == a % TWO64
    decreases k
  {
    if k > 0 {
      ModShift(a, k - 1);
      assert a + k * TWO64 == (a + (k - 1) * TWO64) + TWO64;
    }
  }

  method BudgetOf(o: Options, level: nat) returns (n: nat)
    ensures n == MaxBytes(o, level)
  {
    n := o.levelBase % TWO64;
    if level <= 1 { return; }
    for i := 1 to level
      invariant n == MaxBytes(o, i)
    {
      n := (n * 10) % TWO64;
    }
  }

  function Pow10(n: nat): nat {
    if n == 0 then 1 else 10 * Pow10(n - 1)
  }

  lemma TimesTen(x: nat)
    ensures 10 * (x % TWO64) % TWO64 == 10 * x % TWO64
  {
    assert x == x / TWO64 * TWO64 + x % TWO64;
    ModShift(10 * (x % TWO64), 10 * (x / TWO64));
  }

  lemma NextPower(x: nat, n: nat)
    ensures x * Pow10(n + 1) == 10 * (x * Pow10(n)) && x * Pow10(0) == x
  {
  }

  /** Level `n` may hold the base budget times ten to the power of `n - 1`, modulo 2^64. */
  lemma {:induction false} MaxBytesIs(o: Options, level: nat)
    requires level >= 1
    ensures MaxBytes(o, level) == o.levelBase * Pow10(level - 1) % TWO64
    ensures o.levelBase * Pow10(level - 1) < TWO64 ==> MaxBytes(o, level) == o.levelBase * Pow10(level - 1)
    decreases level
  {
    if level > 1 {
      MaxBytesIs(o, level - 1);
      NextPower(o.levelBase, level - 2);
      hide Pow10;
      TimesTen(o.levelBase * Pow10(level - 2));
    }
  }

  /** The bytes of all files, counted from the back and without a limit. */
  function TotalBytes(files: seq<File>): nat {
    if files == [] then 0 else TotalBytes(files[..|files| - 1]) + files[|files| - 1].size
  }

  lemma {:induction false} TotalFront(files: seq<File>)
    requires files != []
    ensures TotalBytes(files) == files[0].size + TotalBytes(files[1..])
    decreases |files|
  {
    if |files| > 1 {
      var front := files[..|files| - 1];
      TotalFront(front);
      assert front[1..] == files[1..][..|files| - 2] && files[1..][|files| - 2] == files[|files| - 1];
    } else {
      assert files[..0] == [] && files[1..] == [];
    }
  }

  /** What a level holds is the sum of its files' sizes, modulo 2^64. */
  lemma {:induction false} LevelBytesIs(files: seq<File>)
    ensures LevelBytes(files) == TotalBytes(files) % TWO64
    decreases |files|
  {
    if files != [] {
      LevelBytesIs(files[1..]);
      TotalFront(files);
      ModSum(TotalBytes(files[1..]), files[0].size);
    }
  }

  method PickCompactionLevel(v: Version, o: Options) returns (level: int)
    requires |v| == NUM_LEVELS
    ensures IsPick(v, o, level)
  {
    hide LevelBytes, MaxBytes, Divide;
    if |v[0]| >= o.trigger { return 0; }
    level := -1;
    var best := Finite(1.0);
    for l := 1 to NUM_LEVELS - 1
      invariant level == -1 || (1 <= level < l && best == Score(v, o, level) && Exceeds(best, Finite(1.0)))
      invariant level == -1 ==> best == Finite(1.0)
      invariant forall m :: 1 <= m < l ==> !Exceeds(Score(v, o, m), best)
      invariant level != -1 ==> forall m :: 1 <= m < level ==>
        Score(v, o, m).NotANumber? || Exceeds(best, Score(v, o, m))
    {
      var bytes := BytesOf(v[l]);
      var budget := BudgetOf(o, l);
      var score := Divide(bytes, budget);
      if Exceeds(score, best) { best, level := score, l; }
    }
  }

  /** A picked level is never the bottom one and always has something to compact. */
  lemma PickHasFiles(v: Version, o: Options, level: nat)
    requires |v| == NUM_LEVELS && OptionsOk(o) && IsPick(v, o, level)
    ensures level < NUM_LEVELS - 1 && v[level] != []
  {
    hide MaxBytes;
    if level > 0 {
      assert Exceeds(Score(v, o, level), Finite(1.0));
      assert !Exceeds(Divide(LevelBytes([]), MaxBytes(o, level)), Finite(1.0));
    }
  }

  /** A level without a budget is compacted as soon as it holds a byte, and before any other. */
  lemma NoBudgetFirst(v: Version, o: Options, level: nat, l: nat)
    requires |v| == NUM_LEVELS && |v[0]| < o.trigger && 1 <= l < NUM_LEVELS - 1 && MaxBytes(o, l) == 0
    requires LevelBytes(v[l]) > 0
    requires IsPick(v, o, level)
    ensures 1 <= level <= l && MaxBytes(o, level) == 0 && LevelBytes(v[level]) > 0
  {
    hide MaxBytes, LevelBytes;
    assert Score(v, o, l) == Infinite && Exceeds(Score(v, o, l), Finite(1.0));
    assert !Exceeds(Score(v, o, l), Score(v, o, level)) || level > l;
  }

  // --------------------------------------------------------------- the measure

  function Count(files: seq<File>): nat {
    if files == [] then 0 else |files[0].entries| + Count(files[1..])
  }

  /** Every stored entry counts once for each level it can still move down. */
  function Work(imm: seq<Entry>, v: Version): nat
    requires |v| == NUM_LEVELS
  {
    7 * |imm| + 6 * Count(v[0]) + 5 * Count(v[1]) + 4 * Count(v[2]) + 3 * Count(v[3]) + 2 * Count(v[4]) + Count(v[5])
  }

  lemma {:induction false} CountConcat(a: seq<File>, b: seq<File>)
    ensures Count(a + b) == Count(a) + Count(b)
    decreases |a|
  {
    if a == [] {
      assert a + b == b;
    } else {
      CountConcat(a[1..], b);
      assert (a + b)[1..] == a[1..] + b;
    }
  }

  lemma {:induction false} CountInsert(f: File, files: seq<File>)
    requires f.entries != [] && NoneEmpty(files)
    ensures Count(Insert(f, files)) == |f.entries| + Count(files)
    decreases |files|
  {
    hide Before;
    if files != [] && !Before(f.entries[0], files[0].entries[0]) {
      CountInsert(f, files[1..]);
      assert Insert(f, files)[1..] == Insert(f, files[1..]);
    } else {
      assert ([f] + files)[1..] == files;
    }
  }

  lemma {:induction false} CountSorted(files: seq<File>)
    requires NoneEmpty(files)
    ensures Count(SortFiles(files)) == Count(files)
    decreases |files|
  {
    hide Insert;
    if files != [] {
      CountSorted(files[1..]);
      var rest := SortFiles(files[1..]);
      assert forall i :: 0 <= i < |rest| ==> rest[i] in files[1..];
      CountInsert(files[0], rest);
    }
  }

  lemma {:induction false} CountWithout(files: seq<File>, removed: set<nat>)
    ensures Count(Without(files, removed)) <= Count(files)
    decreases |files|
  {
    if files != [] {
      CountWithout(files[1..], removed);
      CountConcat(if files[0].number in removed then [] else [files[0]], Without(files[1..], removed));
    }
  }

  /** Erasing one file at least takes its entries away. */
  lemma {:induction false} CountWithoutOne(files: seq<File>, removed: set<nat>, f: File)
    requires f in files && f.number in removed
    ensures Count(Without(files, removed)) + |f.entries| <= Count(files)
    decreases |files|
  {
    CountConcat(if files[0].number in removed then [] else [files[0]], Without(files[1..], removed));
    if files[0] == f {
      CountWithout(files[1..], removed);
    } else {
      CountWithoutOne(files[1..], removed, f);
    }
  }

  lemma {:induction false} CountOverlapping(files: seq<File>, removed: set<nat>, lo: Bytes, hi: Bytes)
    requires NoneEmpty(files) && forall f :: f in Overlapping(files, lo, hi) ==> f.number in removed
    ensures Count(Without(files, removed)) + Count(Overlapping(files, lo, hi)) <= Count(files)
    decreases |files|
  {
    hide RangesOverlap;
    if files != [] {
      var head := if RangesOverlap(files[0], lo, hi) then [files[0]] else [];
      assert Overlapping(files, lo, hi) == head + Overlapping(files[1..], lo, hi);
      CountConcat(head, Overlapping(files[1..], lo, hi));
      CountConcat(if files[0].number in removed then [] else [files[0]], Without(files[1..], removed));
      CountOverlapping(files[1..], removed, lo, hi);
      if RangesOverlap(files[0], lo, hi) { assert files[0] in Overlapping(files, lo, hi); }
    }
  }

  lemma {:induction false} CountIsTotal(files: seq<File>)
    ensures Count(files) == Total(EntriesOf(files)) == |Concat(EntriesOf(files))|
    decreases |files|
  {
    if files != [] {
      CountIsTotal(files[1..]);
      assert EntriesOf(files)[1..] == EntriesOf(files[1..]);
    }
  }

  lemma {:induction false} SurvivorsShrink(es: seq<Entry>, n: nat, floor: nat, bottom: bool)
    requires n <= |es|
    ensures |Survivors(es, n, floor, bottom)| <= n
    decreases n
  {
    hide Kept;
    if n > 0 { SurvivorsShrink(es, n - 1, floor, bottom); }
  }

  /** A compaction writes at most as many entries as it read. */
  lemma OutputShrinks(c: Compaction, outputs: seq<File>)
    requires IsCut(EntriesOf(outputs), Output(c))
    ensures Count(outputs) <= Count(c.in0) + Count(c.in1)
  {
    hide Merge, Total, Survivors, Concat;
    CountIsTotal(outputs);
    CountIsTotal(Inputs(c));
    CountConcat(c.in0, c.in1);
    MergeLength(Runs(c));
    SurvivorsShrink(Stream(c), |Stream(c)|, c.floor, c.bottom);
  }

  lemma InputsLeave(v: Version, c: Compaction)
    requires VersionOk(v) && IsCompaction(v, c)
    ensures Count(Without(v[c.level], Removed(c))) + Count(c.in0) <= Count(v[c.level])
    ensures Count(Without(v[c.level + 1], Removed(c))) + Count(c.in1) <= Count(v[c.level + 1])
    ensures Count(c.in0) >= 1
  {
    hide VersionOk, Overlapping, Without, IsHull;
    var lo, hi :| PicksBelow(v, c, lo, hi);
    BelowOk(v, c);
    forall f | f in c.in1 ensures f.number in Removed(c) { assert f in Inputs(c); }
    CountOverlapping(v[c.level + 1], Removed(c), lo, hi);
    assert FileOk(c.in0[0]) && c.in0[0].entries != [];
    if c.level == 0 {
      LevelZeroEmptied(v, c);
    } else {
      var f := c.in0[0];
      assert f in Inputs(c);
      CountWithoutOne(v[c.level], Removed(c), f);
      assert c.in0 == [f] && c.in0[1..] == [];
    }
  }

  /** Every compaction strictly lowers the remaining work. */
  lemma CompactionProgress(imm: seq<Entry>, v: Version, c: Compaction, outputs: seq<File>)
    requires Ready(v, c, outputs)
    ensures |After(v, c, outputs)| == NUM_LEVELS && Work(imm, After(v, c, outputs)) < Work(imm, v)
  {
    hide VersionOk, IsCompaction, SharedLow, SeqUnique, VersionSet, After, Without, SortFiles, Count, IsCut, Output,
      Removed;
    LevelBound(v, c);
    AfterShape(v, c, outputs);
    InputsLeave(v, c);
    OutputShrinks(c, outputs);
    CountSorted(Without(v[c.level + 1], Removed(c)) + outputs);
    CountConcat(Without(v[c.level + 1], Removed(c)), outputs);
  }

  /** Every flush strictly lowers the remaining work. */
  lemma FlushProgress(imm: seq<Entry>, v: Version, f: File, floor: nat)
    requires |v| == NUM_LEVELS && imm != [] && f.entries == AllSurvivors(imm, floor, false)
    ensures Work([], AddNewest(v, f)) < Work(imm, v)
  {
    hide Survivors;
    SurvivorsShrink(imm, |imm|, floor, false);
    CountConcat([f], v[0]);
    assert Count([f]) == |f.entries| + Count([]) by { assert [f][1..] == []; }
  }
}
