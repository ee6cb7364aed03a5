/** Opening a database, after DB::Recover in src/db.cpp. */
module Recovering {
  import opened ByteStrings
  import opened InternalKeys
  import opened Views
  import opened Scans
  import opened Compactions
  import opened Versions
  import opened Trees
  import GC = GroupCommit
  import opened Disks
  import opened Engine
  import opened EngineInv
  import opened EngineFront
  import opened EngineBack
  import opened EngineRecovery
  import opened EngineTheorems
  import opened EngineReplay
  import opened Drains
  import opened LogBytes
  import opened Replays
  import opened Reachability
  import opened Databases

  lemma DownFacts(s: State)
    requires Good(s)
    ensures LogsOrdered(s.disk.logs) && LogsClimb(s.disk.logs) && VersionOk(s.disk.manifest.version)
    ensures LogsSet(s.disk.logs, 0) <= History(s)
  {
    hide RecoveryOk, CoreOk, LogsClimb, LevelsOrdered, VersionSet, TablesHold, Covers, Counted, SeqUnique,
      VersionOk, LogsOrdered, LogsSet, History;
  }

  lemma DownHistory(s: State)
    requires !s.mode.Up?
    ensures History(s) == GroupsSet(s.past) && Groups(s) == s.past
  {
  }

  /** The first number above every file found and every number handed out before. */
  method NextNumber(d: Disk) returns (next: nat)
    requires d.manifest.next > 0
    ensures Bumped(d, next)
    ensures next == d.manifest.next || exists n :: (n in d.tables || n in d.logs) && next == n + 1
  {
    next := d.manifest.next;
    ghost var top := 0;
    var rest := d.tables.Keys + d.logs.Keys;
    while rest != {}
      invariant next >= d.manifest.next && rest <= d.tables.Keys + d.logs.Keys
      invariant forall n :: (n in d.tables || n in d.logs) && n !in rest ==> n < next
      invariant next == d.manifest.next || ((top in d.tables || top in d.logs) && next == top + 1)
      decreases |rest|
    {
      var n :| n in rest;
      if n >= next { top, next := n, n + 1; }
      rest := rest - {n};
    }
  }

  /** The largest replayed sequence number stays below the limit. */
  lemma TopBelow(s: State, top: nat)
    requires !s.mode.Up? && IsMaxSeq(s.disk.manifest.lastSeq, Replay(s.disk), top) && Good(s)
    requires s.disk.manifest.lastSeq < MAX_SEQUENCE && SeqLe(GroupsSet(s.past), MAX_SEQUENCE - 1)
    ensures top < MAX_SEQUENCE
  {
    hide Good, LogsClimb, LogsOrdered, GroupsSet, VersionOk;
    DownFacts(s);
    DownHistory(s);
    LogsFrom(s.disk.logs, s.disk.manifest.log);
  }

  // What goes on from a replay that should not have gone in front, or past logs that were not
  // found, is still done; `sound` says that it was not so.

  /** RemoveObsoleteFiles during recovery: tables, in any order; those in `stuck` stay. */
  method DropTables(d: Disk, v: Version, stuck: set<nat>, ghost s: State, ghost sound: bool)
    returns (d': Disk, ghost s': State)
    requires s.disk == d && (s.mode.Flushed? || s.mode.Committed?) && s.mode.v == v && (sound ==> Good(s))
    ensures s' == s.(disk := d') && d' == d.(tables := d'.tables)
    ensures sound ==> Good(s') && Reaches(s, s')
    ensures forall n :: n in d'.tables <==> n in d.tables && (n in stuck || !NotNamed(v, n))
    ensures forall n :: n in d'.tables ==> d'.tables[n] == d.tables[n]
  {
    hide Good, SoundNext, Reaches, NotNamed;
    d', s' := d, s;
    ReachSelf(s);
    var live := set l, f | 0 <= l < |v| && f in v[l] :: f.number;
    forall n ensures n !in live <==> NotNamed(v, n) { NotLive(v, live, n); }
    var rest := d.tables.Keys;
    while rest != {}
      invariant s' == s.(disk := d') && d' == d.(tables := d'.tables) && (sound ==> Good(s') && Reaches(s, s'))
      invariant rest <= d.tables.Keys
      invariant forall n :: n in d'.tables <==> n in d.tables && (n in rest || n in stuck || n in live)
      invariant forall n :: n in d'.tables ==> d'.tables[n] == d.tables[n]
      decreases |rest|
    {
      var n :| n in rest;
      if n !in live && n !in stuck {
        d' := d'.(tables := d'.tables - {n});
        ghost var s1 := s'.(disk := d');
        if sound { TookRecover(s, s', s1, OldTableDropped(n)); }
        s' := s1;
      }
      rest := rest - {n};
    }
  }

  /** RemoveObsoleteFiles during recovery: logs, in any order; those in `stuck` stay. */
  method DropLogs(d: Disk, log: nat, stuck: set<nat>, ghost s: State, ghost sound: bool)
    returns (d': Disk, ghost s': State)
    requires s.disk == d && s.mode.Committed? && s.mode.log == log && (sound ==> Good(s))
    ensures s' == s.(disk := d') && d' == d.(logs := d'.logs)
    ensures sound ==> Good(s') && Reaches(s, s')
    ensures forall n :: n in d'.logs <==> n in d.logs && (n >= log || n in stuck)
    ensures forall n :: n in d'.logs ==> d'.logs[n] == d.logs[n]
  {
    hide Good, SoundNext, Reaches;
    d', s' := d, s;
    ReachSelf(s);
    var rest := d.logs.Keys;
    while rest != {}
      invariant s' == s.(disk := d') && d' == d.(logs := d'.logs) && (sound ==> Good(s') && Reaches(s, s'))
      invariant rest <= d.logs.Keys
      invariant forall n :: n in d'.logs <==> n in d.logs && (n >= log || n in stuck || n in rest)
      invariant forall n :: n in d'.logs ==> d'.logs[n] == d.logs[n]
      decreases |rest|
    {
      var n :| n in rest;
      if n < log && n !in stuck {
        d' := d'.(logs := d'.logs - {n});
        ghost var s1 := s'.(disk := d');
        if sound { TookRecover(s, s', s1, OldLogDropped(n)); }
        s' := s1;
      }
      rest := rest - {n};
    }
  }

  /** The version with the replayed entries in front. */
  ghost predicate InFront(v': Version, v: Version, mem: seq<Entry>, top: nat, z: Sizes) {
    |v| == NUM_LEVELS && exists f: File ::
      f.entries == AllSurvivors(mem, top, false) && f.size == z.bytes(f.entries) && v' == AddNewest(v, f)
  }

  /** The version a recovery that listed the directory comes up with. */
  ghost predicate BroughtUp(v': Version, d: Disk, top: nat, z: Sizes) {
    exists mem :: Sorted(mem) && SetOf(mem) == Replay(d) && UpWith(v', d, mem, top, z)
  }

  ghost predicate UpWith(v': Version, d: Disk, mem: seq<Entry>, top: nat, z: Sizes) {
    if mem == [] then v' == d.manifest.version else InFront(v', d.manifest.version, mem, top, z)
  }

  /** Lands the replayed entries in a table, under a manifest that still names every log. */
  method FlushReplayed(d: Disk, v: Version, mem: seq<Entry>, next: nat, top: nat, sizes: Sizes, healthy: bool,
          stuck: set<nat>, ghost s: State, ghost sound: bool)
    returns (ok: bool, d': Disk, v': Version, ghost s': State)
    requires s.disk == d && s.mode == Replayed(v, mem, next, top) && mem != [] && |v| == NUM_LEVELS
    requires top < MAX_SEQUENCE && SizesOk(sizes) && (sound ==> Good(s) && GoodReplay(d, History(s), top))
    ensures s'.disk == d' && s'.past == s.past && !s'.mode.Up? && (healthy ==> ok)
    ensures sound ==> Good(s') && Reaches(s, s')
    ensures ok ==> s'.mode == Flushed(v', next + 1, top) && d'.logs == d.logs && InFront(v', v, mem, top, sizes)
  {
    hide Good, SoundNext, Reaches, SizesOk, AllSurvivors, AddNewest, GoodReplay, History;
    d', v', s' := d, v, s;
    ReachSelf(s);
    var fails: bool := *;
    if !healthy && fails { return false, d', v', s'; }
    var es, dropped := CollapseMemTable(mem, top);
    BytesPositive(sizes, es);
    var f := File(next, sizes.bytes(es), es);
    d' := d.(tables := d.tables[next := es]);
    v' := AddNewest(v, f);
    s' := s.(disk := d', mode := Built(v', next + 1, top));
    if sound { TookRecover(s, s, s', ReplayBuilt(f.size)); }
    fails := *;
    if !healthy && fails { return false, d', v', s'; }
    ghost var s1 := s';
    d' := d'.(manifest := Manifest(v', 0, next + 1, top));
    s' := s1.(disk := d', mode := Flushed(v', next + 1, top));
    if sound { TookRecover(s, s1, s', ReplayCommitted); }
    s1 := s';
    d', s' := DropTables(d', v', stuck, s1, sound);
    if sound { ReachTrans(s, s1, s'); }
    ok := true;
  }

  /** Creates the new log and commits a manifest that names it. If the log's header cannot be
      written whole, a stray one is left. */
  method OpenNewLog(d: Disk, v: Version, next: nat, top: nat, healthy: bool, stuck: set<nat>, ghost s: State,
          ghost sound: bool)
    returns (ok: bool, d': Disk, ghost s': State)
    requires s.disk == d && (s.mode == Flushed(v, next, top) || s.mode == Replayed(v, [], next, top))
    requires sound ==> Good(s)
    ensures s'.disk == d' && s'.past == s.past && !s'.mode.Up? && (healthy ==> ok)
    ensures sound ==> Good(s') && Reaches(s, s')
    ensures ok ==> s'.mode == Committed(v, next, next + 1, top) && d'.manifest == Manifest(v, next, next + 1, top)
    ensures ok ==> forall n :: n in d'.logs <==> n == next || (n in d.logs && (n > next || n in stuck))
    ensures ok ==> forall n :: n in d'.logs && n in d.logs ==> d'.logs[n] == d.logs[n]
    ensures ok && next !in d.logs ==> d'.logs[next] == LogFile([], false)
    ensures ok ==> forall n :: n in d'.tables ==> n in stuck || !NotNamed(v, n)
  {
    hide Good, SoundNext, Reaches;
    d', s' := d, s;
    ReachSelf(s);
    var fails: bool, stray: bool, torn: bool := *, *, *;
    if !healthy && fails {
      if stray && next !in d.logs {
        d' := d.(logs := d.logs[next := LogFile([], torn)]);
        s' := s.(disk := d', mode := Down);
        if sound { TookRecover(s, s, s', LogStrayed(torn)); }
      }
      return false, d', s';
    }
    d' := d.(logs := WithLog(d.logs, next));
    s' := s.(disk := d', mode := Opened(v, next, next + 1, top));
    if sound { TookRecover(s, s, s', LogOpened); }
    fails := *;
    if !healthy && fails { return false, d', s'; }
    ghost var s1 := s';
    d' := d'.(manifest := Manifest(v, next, next + 1, top));
    s' := s1.(disk := d', mode := Committed(v, next, next + 1, top));
    if sound { TookRecover(s, s1, s', OpenedCommitted); }
    s1 := s';
    d', s' := DropTables(d', v, stuck, s1, sound);
    if sound { ReachTrans(s, s1, s'); }
    s1 := s';
    d', s' := DropLogs(d', next, stuck, s1, sound);
    if sound { ReachTrans(s, s1, s'); }
    ok := true;
  }

  lemma LoadedVersion(s: State)
    requires Good(s)
    ensures |s.disk.manifest.version| == NUM_LEVELS && s.disk.manifest.next > 0
  {
    hide Ok, LogsClimb, LogsOrdered, LogsSet, History;
    DownFacts(s);
  }

  /** When opening is sound: what is replayed may go in front or, if the directory could not be
      listed, nothing was missed. */
  ghost predicate OpensSoundly(d: Disk, H: set<Entry>, listed: bool) {
    if listed then forall sn :: SeqLe(H, sn) ==> GoodReplay(d, H, sn) else NothingHidden(d)
  }

  /** Which counter reads are made at does not matter, as long as it is above everything. */
  lemma AnyTop(d: Disk, H: set<Entry>, top: nat)
    requires DiskOk(d, H) && SeqLe(H, top) && GoodReplay(d, H, top)
    ensures OpensSoundly(d, H, true)
  {
    hide DiskOk, View, ReplayNewest, LogsSet, SeqUnique;
    ReplayInHistory(d, H);
    forall sn | SeqLe(H, sn) ensures GoodReplay(d, H, sn) {
      forall x | x in Replay(d) ensures View(Replay(d), x.key, sn) == View(H, x.key, sn) {
        ViewTop(Replay(d), x.key, sn, top);
        ViewTop(H, x.key, sn, top);
      }
    }
  }

  lemma NothingToReplay(d: Disk, H: set<Entry>)
    requires Replay(d) == {}
    ensures OpensSoundly(d, H, true)
  {
  }

  lemma OrderedLevels(s: State)
    requires s.mode.Up? && Ok(s)
    ensures LevelsOrdered(s.mode.core.v)
  {
    hide VersionOk, OrderOk, Sorted, ViewOk, Held, SeqUnique, History, Ok;
    CoreParts(s);
    OrderedTables(SetOf(s.mode.core.mem), SetOf(s.mode.core.imm), s.mode.core.v);
  }

  lemma OrderedTables(A: set<Entry>, B: set<Entry>, v: Version)
    requires OrderOk(A, B, v)
    ensures LevelsOrdered(v)
  {
  }

  /** A database that came up with the replayed entries in front is in order, and shows the
      history, only if they belonged there. */
  lemma ComeUpNeeds(d: Disk, past: seq<seq<Entry>>, mem: seq<Entry>, top: nat, up: State, z: Sizes)
    requires Ok(State(d, past, Down)) && Sorted(mem) && SetOf(mem) == Replay(d) && SeqLe(GroupsSet(past), top)
    requires up.mode.Up? && InFront(up.mode.core.v, d.manifest.version, mem, top, z) && Ok(up)
    requires var c := up.mode.core;
      c.mem == [] && c.imm == [] && c.q.lastSeq == top && c.snaps == map[] && c.applied == GroupsSet(past)
    ensures GoodReplay(d, GroupsSet(past), top)
  {
    hide Ok, Sorted, GoodReplay, LevelsOrdered, View, AddNewest, AllSurvivors, DiskOk, GroupsSet, VersionSet, SetOf,
      SeqLe, LogsSet, OrderOk, VersionOk, SeqUnique;
    var c := up.mode.core;
    var f: File :| f.entries == AllSurvivors(mem, top, false) && f.size == z.bytes(f.entries)
                   && c.v == AddNewest(d.manifest.version, f);
    CoreParts(up);
    OrderedLevels(up);
    FloorIs(c, top);
    HeldNothing(c);
    DownDisk(State(d, past, Down));
    GoodReplayNeeded(d, GroupsSet(past), mem, f, top);
  }

  lemma DownDisk(s: State)
    requires Ok(s) && s.mode.Down?
    ensures DiskOk(s.disk, GroupsSet(s.past))
  {
    hide DiskOk;
  }

  lemma LoadedFacts(s: State)
    requires Good(s) && s.mode.Replayed?
    ensures SeqLe(GroupsSet(s.past), s.mode.lastSeq)
  {
    hide DiskOk, LogsClimb, NumbersOk, LogsSet, SetOf, Sorted;
  }

  lemma NoneReplayed(mem: seq<Entry>, R: set<Entry>)
    requires SetOf(mem) == R
    ensures mem == [] <==> R == {}
  {
    if mem != [] { assert mem[0] in SetOf(mem); }
  }

  /** From the loaded manifest and the replayed entries to a running database. */
  method ComeUp(d: Disk, v: Version, mem: seq<Entry>, next: nat, top: nat, options: Options, sizes: Sizes,
          healthy: bool, stuck: set<nat>, ghost s0: State, ghost s: State, ghost sound: bool)
    returns (db: Db?, d': Disk)
    requires s.disk == d && s.mode == Replayed(v, mem, next, top) && |v| == NUM_LEVELS
    requires OptionsOk(options) && SizesOk(sizes) && top < MAX_SEQUENCE && (sound ==> Good(s) && Reaches(s0, s))
    requires sound && mem != [] ==> GoodReplay(d, History(s), top)
    ensures healthy ==> db != null
    ensures db != null ==> fresh(db) && db.bg.AtRest? && db.mem == [] && db.imm == [] && db.snaps == map[]
    ensures db != null ==> if mem == [] then db.v == v else InFront(db.v, v, mem, top, sizes)
    ensures db != null ==> db.applied == GroupsSet(s.past) && db.past == s.past && db.q == GC.Open(top)
    ensures db != null ==> db.options == options && db.sizes == sizes
    ensures db != null ==> forall n :: n in db.logs ==> n >= db.log || n in stuck
    ensures db != null ==> forall n :: n in db.tables ==> n in stuck || !NotNamed(db.v, n)
    ensures db != null && sound ==> db.Valid() && Reaches(s0, db.Abs())
    ensures db == null && sound ==> Good(State(d', s.past, Down)) && Reaches(s0, State(d', s.past, Down))
  {
    hide Good, SoundNext, Reaches, SizesOk, History, GroupsSet, GoodReplay, InFront;
    d' := d;
    var ok, w, number := true, v, next;
    ghost var t := s;
    if mem != [] {
      ok, d', w, t := FlushReplayed(d, v, mem, next, top, sizes, healthy, stuck, s, sound);
      if sound { ReachTrans(s0, s, t); }
      number := next + 1;
    }
    if ok {
      ghost var s1 := t;
      ok, d', t := OpenNewLog(d', w, number, top, healthy, stuck, s1, sound);
      if sound { ReachTrans(s0, s1, t); }
    }
    if !ok {
      if sound { TookRecover(s0, t, State(d', s.past, Down), Crashed); }
      return null, d';
    }
    db := StartUp(d', w, number, top, options, sizes, s0, t, sound);
  }

  /** The engine comes up on the committed manifest. */
  method StartUp(d: Disk, v: Version, log: nat, top: nat, options: Options, sizes: Sizes, ghost s0: State,
          ghost s: State, ghost sound: bool)
    returns (db: Db)
    requires s.disk == d && s.mode == Committed(v, log, log + 1, top) && (sound ==> Good(s) && Reaches(s0, s))
    requires OptionsOk(options) && SizesOk(sizes) && top < MAX_SEQUENCE && d.manifest.lastSeq == top
    ensures fresh(db) && db.bg.AtRest? && db.mem == [] && db.imm == [] && db.snaps == map[] && db.v == v
    ensures db.log == log && db.logs == d.logs && db.tables == d.tables && db.options == options && db.sizes == sizes
    ensures sound ==> db.Valid() && Reaches(s0, db.Abs())
    ensures db.applied == GroupsSet(s.past) && db.past == s.past && db.q == GC.Open(top)
  {
    hide Good, SoundNext, Reaches, SizesOk, GroupsSet, History;
    db := new Db(options, sizes, d, v, log, log + 1, top, s.past);
    DownHistory(s);
    assert GoUp(s, db.Abs());
    if sound { TookRecover(s0, s, db.Abs(), WentUp); }
  }

  lemma ValidIsOk(db: Db)
    requires db.Valid()
    ensures Ok(db.Abs())
  {
    hide Ok, LogsClimb, Counts, SizesOk, OptionsOk;
  }

  lemma MissedShows(s: State)
    requires Ok(s) && s.mode.Down?
    ensures |s.disk.manifest.version| == NUM_LEVELS
    ensures forall sn :: SeqLe(GroupsSet(s.past), sn) ==>
      (TablesCurrent(s.disk.manifest.version, GroupsSet(s.past), sn) <==>
       AlsoInTables(s.disk.manifest.version, Replay(s.disk), GroupsSet(s.past), sn))
  {
    hide DiskOk, SeqLe, TablesCurrent, AlsoInTables, LogsSet, Ok, GroupsSet;
    DownDisk(s);
    ReplayInHistory(s.disk, GroupsSet(s.past));
    forall sn | SeqLe(GroupsSet(s.past), sn)
      ensures TablesCurrent(s.disk.manifest.version, GroupsSet(s.past), sn) <==>
              AlsoInTables(s.disk.manifest.version, Replay(s.disk), GroupsSet(s.past), sn)
    {
      TablesShow(s.disk, GroupsSet(s.past), sn);
    }
  }

  /** LoadManifest and the replay of the logs it does not cover, if they can be found. */
  method LoadAndReplay(d: Disk, files: map<nat, Bytes>, listed: bool, ghost s0: State)
    returns (mem: seq<Entry>, next: nat, top: nat)
    requires s0.disk == d && s0.mode.Down? && FilesStore(files, d.logs) && Good(s0)
    requires d.manifest.lastSeq < MAX_SEQUENCE && SeqLe(GroupsSet(s0.past), MAX_SEQUENCE - 1)
    ensures top < MAX_SEQUENCE && Sorted(mem) && (!listed ==> mem == [])
    ensures if listed then IsMaxSeq(d.manifest.lastSeq, Replay(d), top) && Bumped(d, next)
      else top == d.manifest.lastSeq && next == d.manifest.next
    ensures var s := s0.(mode := Replayed(d.manifest.version, mem, next, top));
      && (listed || NothingHidden(d) ==> Good(s) && Reaches(s0, s))
      && (listed ==> SetOf(mem) == Replay(d) && SeqLe(GroupsSet(s0.past), top))
  {
    hide Good, SoundNext, Reaches, IsMaxSeq, Sorted, VersionOk, LogsOrdered, LogsClimb, LogsSet, History, GroupsSet,
      SeqLe, FilesStore, NothingHidden, SetOf;
    ReachSelf(s0);
    DownFacts(s0);
    LoadedVersion(s0);
    mem, next, top := [], d.manifest.next, d.manifest.lastSeq;
    StartMax(top);
    if listed {
      next := NextNumber(d);
      mem, top := ReplayLogs(d, files);
      TopBelow(s0, top);
      ghost var s := s0.(mode := Replayed(d.manifest.version, mem, next, top));
      TookRecover(s0, s0, s, Loaded(mem, next, top));
      LoadedFacts(s);
    } else {
      ghost var s := s0.(mode := Replayed(d.manifest.version, mem, next, top));
      if NothingHidden(d) { TookRecover(s0, s0, s, LoadedBlind); }
    }
  }

  /** Opens the database in directory `d`, whose logs are the given bytes. Without file errors
      it never fails. The directory may fail to be listed, and files in `stuck` to be unlinked,
      and both go unnoticed. If it was listed, the database that comes up is sound exactly when
      the replayed logs may go in front of the tables; if it was not, nothing is replayed, and
      reads are right exactly when every key in the logs that were missed can be read from the
      tables too. After a failure opening can be tried again. */
  method Recover(d: Disk, files: map<nat, Bytes>, options: Options, sizes: Sizes, healthy: bool, listed: bool,
          stuck: set<nat>, ghost past: seq<seq<Entry>>)
    returns (db: Db?, d': Disk)
    requires OptionsOk(options) && SizesOk(sizes) && FilesStore(files, d.logs) && Good(State(d, past, Down))
    requires d.manifest.lastSeq < MAX_SEQUENCE && SeqLe(GroupsSet(past), MAX_SEQUENCE - 1)
    ensures healthy ==> db != null
    ensures db != null ==> fresh(db) && db.Quiet()
    ensures db != null && OpensSoundly(d, GroupsSet(past), listed) ==>
      db.Valid() && Reaches(State(d, past, Down), db.Abs())
    ensures db != null && listed ==> (db.Valid() <==> OpensSoundly(d, GroupsSet(past), true))
    ensures db != null ==> db.mem == [] && db.imm == [] && db.snaps == map[]
    ensures db != null && listed ==> BroughtUp(db.v, d, db.q.lastSeq, sizes)
    ensures db != null && !listed ==> db.v == d.manifest.version && |db.v| == NUM_LEVELS
    ensures db != null && !listed ==> forall sn :: SeqLe(GroupsSet(past), sn) ==>
      (TablesCurrent(db.v, GroupsSet(past), sn) <==> AlsoInTables(db.v, Replay(d), GroupsSet(past), sn))
    ensures db != null ==> db.applied == GroupsSet(past) && db.past == past && db.q == GC.Open(db.q.lastSeq)
    ensures db != null ==>
      if listed then IsMaxSeq(d.manifest.lastSeq, Replay(d), db.q.lastSeq) else db.q.lastSeq == d.manifest.lastSeq
    ensures db != null ==> db.options == options && db.sizes == sizes
    ensures db != null ==> forall n :: n in db.logs ==> n >= db.log || n in stuck
    ensures db != null ==> forall n :: n in db.tables ==> n in stuck || !NotNamed(db.v, n)
    ensures db == null && OpensSoundly(d, GroupsSet(past), listed) ==>
      Good(State(d', past, Down)) && Reaches(State(d, past, Down), State(d', past, Down))
  {
    hide Good, SoundNext, Reaches, SizesOk, Sorted, LogsSet, History, GroupsSet, SeqLe, FilesStore, GoodReplay,
      NothingHidden, SetOf, InFront, TablesCurrent, AlsoInTables, Ok, IsMaxSeq, Bumped, NotNamed;
    ghost var s0 := State(d, past, Down);
    LoadedVersion(s0);
    DownHistory(s0);
    var mem, next, top := LoadAndReplay(d, files, listed, s0);
    ghost var s := s0.(mode := Replayed(d.manifest.version, mem, next, top));
    ghost var sound := OpensSoundly(d, GroupsSet(past), listed);
    DownHistory(s);
    db, d' := ComeUp(d, d.manifest.version, mem, next, top, options, sizes, healthy, stuck, s0, s, sound);
    GoodIsOk(s0);
    MissedShows(s0);
    if db != null && listed { assert UpWith(db.v, d, mem, top, sizes); }
    if listed && db != null && db.Valid() {
      ValidIsOk(db);
      ListedNeeds(d, past, mem, top, db.Abs(), sizes);
    }
  }

  lemma GoodIsOk(s: State)
    requires Good(s)
    ensures Ok(s)
  {
    hide Ok;
  }

  lemma ListedNeeds(d: Disk, past: seq<seq<Entry>>, mem: seq<Entry>, top: nat, up: State, z: Sizes)
    requires Ok(State(d, past, Down)) && Sorted(mem) && SetOf(mem) == Replay(d) && SeqLe(GroupsSet(past), top)
    requires up.mode.Up? && (mem != [] ==> InFront(up.mode.core.v, d.manifest.version, mem, top, z)) && Ok(up)
    requires var c := up.mode.core;
      c.mem == [] && c.imm == [] && c.q.lastSeq == top && c.snaps == map[] && c.applied == GroupsSet(past)
    ensures OpensSoundly(d, GroupsSet(past), true)
  {
    hide Ok, Sorted, GoodReplay, GroupsSet, SetOf, SeqLe, LogsSet, OpensSoundly, InFront, DiskOk;
    NoneReplayed(mem, Replay(d));
    if mem == [] {
      NothingToReplay(d, GroupsSet(past));
    } else {
      ComeUpNeeds(d, past, mem, top, up, z);
      DownDisk(State(d, past, Down));
      AnyTop(d, GroupsSet(past), top);
    }
  }

  /** Everything logged is numbered at or below the counter. */
  lemma HistoryBelow(s: State)
    requires s.mode.Up? && Good(s)
    ensures SeqLe(History(s), s.mode.core.q.lastSeq)
  {
    hide LogsClimb, AppliedOk, LogsMatch, MemOk, TreeUp, ViewOk, NumbersOk, ShapeOk, WorkerOk, DiskOk, HistSet,
      GC.PhaseOk, GC.WellNumbered, GC.OutcomeOk, GC.WritersOf, GC.ServedWriters, GC.LoggedWriters, GC.TotalCount,
      GC.QueueOk, GC.InFlight;
    HistoryUp(s);
  }

  /** The process dies, whatever it was doing, and the database is opened again: every group
      that reached the log whole is there, and nothing else. */
  method Reopen(db: Db, files: map<nat, Bytes>, healthy: bool, listed: bool, stuck: set<nat>)
    returns (db': Db?, d': Disk)
    requires db.Valid() && FilesStore(files, db.logs)
    ensures healthy ==> db' != null
    ensures db' != null ==> fresh(db') && db'.Quiet()
    ensures db' != null && OpensSoundly(db.Abs().disk, History(db.Abs()), listed) ==>
      db'.Valid() && Reaches(db.Abs(), db'.Abs())
    ensures db' != null && listed ==> (db'.Valid() <==> OpensSoundly(db.Abs().disk, History(db.Abs()), true))
    ensures db' != null ==> db'.past == Groups(db.Abs()) && db'.applied == History(db.Abs())
    ensures db' != null ==> db'.options == db.options && db'.sizes == db.sizes
  {
    hide Good, SoundNext, Reaches, SizesOk, GroupsSet, Groups, SeqLe, OpensSoundly, FilesStore, TablesCurrent,
      AlsoInTables, Replay;
    var d := Disk(db.manifest, db.tables, db.logs);
    ghost var s := db.Abs();
    ghost var down := State(d, Groups(s), Down);
    ReachSelf(s);
    TookRecover(s, s, down, Crashed);
    assert SeqLe(GroupsSet(Groups(s)), MAX_SEQUENCE - 1) by { BelowLimit(s); }
    db', d' := Recover(d, files, db.options, db.sizes, healthy, listed, stuck, Groups(s));
    if db' != null && OpensSoundly(d, History(s), listed) { ReachTrans(s, down, db'.Abs()); }
  }

  lemma BelowLimit(s: State)
    requires s.mode.Up? && s.mode.core.q.lastSeq < MAX_SEQUENCE && Good(s)
    ensures SeqLe(GroupsSet(Groups(s)), MAX_SEQUENCE - 1)
  {
    hide Good, Groups, GroupsSet;
    HistoryBelow(s);
  }
}
