/** What a recovery brings back. The replayed logs land in a table in front of all others, so
    what a reader finds afterwards depends on which logs were there: one that was left behind
    by a failed unlink may hold overwritten values, and one that was not found is missing. */
module EngineReplay {
  import opened ByteStrings
  import opened InternalKeys
  import opened Views
  import opened Scans
  import opened Compactions
  import opened Versions
  import opened Trees
  import opened Disks
  import opened Engine
  import opened EngineInv
  import opened EngineBack
  import opened EngineRecovery
  import opened EngineTheorems

  /** Point reads of the tables answer as the history does. */
  ghost predicate TablesCurrent(v: Version, H: set<Entry>, sn: nat)
    requires |v| == NUM_LEVELS
  {
    forall key, r :: IsFirstHit(Sources({}, {}, v), key, sn, r) ==> Answer(r) == View(H, key, sn)
  }

  /** The tables alone show every key that occurs in `R` as the history does. */
  ghost predicate AlsoInTables(v: Version, R: set<Entry>, H: set<Entry>, sn: nat) {
    forall x :: x in R ==> View(VersionSet(v), x.key, sn) == View(H, x.key, sn)
  }

  /** The new table comes between the memtables and the older tables. */
  lemma NewestFirst(v: Version, f: File)
    requires |v| == NUM_LEVELS && |AddNewest(v, f)| == NUM_LEVELS
    ensures var was := Sources({}, {}, v); Sources({}, {}, AddNewest(v, f)) == was[..2] + [FileSet(f)] + was[2..]
  {
    hide FileSet, LevelSet;
    var w := AddNewest(v, f);
    var src, was := Sources({}, {}, w), Sources({}, {}, v);
    SourceAt({}, {}, v);
    SourceAt({}, {}, w);
    assert w[0] == [f] + v[0];
    var all := was[..2] + [FileSet(f)] + was[2..];
    forall i | 0 <= i < |src| ensures src[i] == all[i] {
      if i >= 2 + |w[0]| {
        var l := i - 1 - |w[0]|;
        assert w[l] == v[l] && src[1 + |w[0]| + l] == LevelSet(w[l]) && was[1 + |v[0]| + l] == LevelSet(v[l]);
      } else if i >= 3 {
        assert src[2 + (i - 2)] == FileSet(w[0][i - 2]) && was[2 + (i - 3)] == FileSet(v[0][i - 3]);
      } else if i == 2 {
        assert src[2 + 0] == FileSet(w[0][0]);
      }
    }
  }

  /** A key of the new table is answered by it. */
  lemma NewestAnswers(v: Version, f: File, key: Bytes, sn: nat, e: Entry, r: Option<Entry>)
    requires |v| == NUM_LEVELS && |AddNewest(v, f)| == NUM_LEVELS && IsNewest(e, FileSet(f), key, sn)
    ensures IsFirstHit(Sources({}, {}, AddNewest(v, f)), key, sn, Some(e))
    ensures IsFirstHit(Sources({}, {}, AddNewest(v, f)), key, sn, r) ==> r.Some?
    ensures IsFirstHit(Sources({}, {}, AddNewest(v, f)), key, sn, r) ==> IsNewest(r.value, FileSet(f), key, sn)
  {
    hide FileSet, Sources;
    NewestFirst(v, f);
    SourceAt({}, {}, v);
    var src := Sources({}, {}, AddNewest(v, f));
    assert src[2] == FileSet(f) && src[0] == {} && src[1] == {};
    assert !NoHit(src[2], key, sn);
    assert HitAt(src, key, sn, e, 2);
    if IsFirstHit(src, key, sn, r) && r.Some? {
      var i :| HitAt(src, key, sn, r.value, i);
      assert i == 2;
    }
  }

  /** Any other key is answered as before. */
  lemma OlderAnswer(v: Version, f: File, key: Bytes, sn: nat, r: Option<Entry>)
    requires |v| == NUM_LEVELS && |AddNewest(v, f)| == NUM_LEVELS && NoHit(FileSet(f), key, sn)
    requires IsFirstHit(Sources({}, {}, AddNewest(v, f)), key, sn, r)
    ensures IsFirstHit(Sources({}, {}, v), key, sn, r)
  {
    hide FileSet, Sources, IsNewest, NoHit;
    NewestFirst(v, f);
    SourceAt({}, {}, v);
    var src, was := Sources({}, {}, AddNewest(v, f)), Sources({}, {}, v);
    if r.Some? {
      var i :| HitAt(src, key, sn, r.value, i);
      assert i != 2 by { if i == 2 { HitIsNoMiss(src[2], key, sn, r.value); } }
      var j := if i < 2 then i else i - 1;
      assert was[j] == src[i];
      forall k | 0 <= k < j ensures NoHit(was[k], key, sn) { assert was[k] == src[if k < 2 then k else k + 1]; }
      assert HitAt(was, key, sn, r.value, j);
    } else {
      forall k | 0 <= k < |was| ensures NoHit(was[k], key, sn) { assert was[k] == src[if k < 2 then k else k + 1]; }
    }
  }

  lemma HitIsNoMiss(E: set<Entry>, key: Bytes, sn: nat, e: Entry)
    requires IsNewest(e, E, key, sn)
    ensures !NoHit(E, key, sn)
  {
  }

  /** Point reads of the tables are reads of everything in them. */
  lemma TablesAnswer(v: Version, H: set<Entry>, key: Bytes, sn: nat, r: Option<Entry>)
    requires VersionOk(v) && LevelsOrdered(v) && VersionSet(v) <= H && SeqUnique(H) && |v| == NUM_LEVELS
    requires IsFirstHit(Sources({}, {}, v), key, sn, r)
    ensures Answer(r) == View(VersionSet(v), key, sn)
  {
    hide View, VersionSet, IsFirstHit, Sources, VersionOk;
    assert OrderOk({}, {}, v);
    assert {} + {} + VersionSet(v) == VersionSet(v);
    ShapeOfVersion(v);
    GetIsView({}, {}, v, key, sn, r);
  }

  lemma SomeAnswer(src: seq<set<Entry>>, key: Bytes, sn: nat) returns (r: Option<Entry>)
    ensures IsFirstHit(src, key, sn, r)
  {
    hide IsNewest, NoHit;
    for i := 0 to |src|
      invariant forall j :: 0 <= j < i ==> NoHit(src[j], key, sn)
    {
      if !NoHit(src[i], key, sn) {
        NewestExists(src[i], key, sn);
        var e :| IsNewest(e, src[i], key, sn);
        assert HitAt(src, key, sn, e, i);
        return Some(e);
      }
    }
    r := None;
  }

  /** A recovery that replays nothing brings up the manifest's tables alone. Point reads of
      them are right exactly when every key in the logs that ought to have been replayed can
      be read from the tables as well; so they are when there are no such logs. */
  lemma TablesShow(d: Disk, H: set<Entry>, sn: nat)
    requires DiskOk(d, H) && |d.manifest.version| == NUM_LEVELS && SeqLe(H, sn)
    ensures TablesCurrent(d.manifest.version, H, sn) <==> AlsoInTables(d.manifest.version, Replay(d), H, sn)
  {
    hide View, Sources, IsFirstHit, DiskOk, LogsSet, VersionOk, LevelsOrdered, VersionSet, Covers, SeqUnique;
    var v, R := d.manifest.version, Replay(d);
    DiskParts(d, H);
    if AlsoInTables(v, R, H, sn) {
      forall key, r | IsFirstHit(Sources({}, {}, v), key, sn, r) ensures Answer(r) == View(H, key, sn) {
        TablesAnswer(v, H, key, sn, r);
        if NoKey(R, key) { CoversAt(v, R, H, key, sn); }
      }
    }
    if TablesCurrent(v, H, sn) {
      forall x | x in R ensures View(VersionSet(v), x.key, sn) == View(H, x.key, sn) {
        var r := SomeAnswer(Sources({}, {}, v), x.key, sn);
        TablesAnswer(v, H, x.key, sn, r);
      }
    }
  }

  lemma ReplayedKeyAnswer(mem: seq<Entry>, lastSeq: nat, v: Version, f: File, x: Entry, r: Option<Entry>)
    requires |v| == NUM_LEVELS && |AddNewest(v, f)| == NUM_LEVELS && Sorted(mem) && SeqUnique(SetOf(mem))
    requires f.entries == AllSurvivors(mem, lastSeq, false) && x in mem && SeqLe(SetOf(mem), lastSeq)
    ensures exists e :: IsFirstHit(Sources({}, {}, AddNewest(v, f)), x.key, lastSeq, Some(e))
    ensures IsFirstHit(Sources({}, {}, AddNewest(v, f)), x.key, lastSeq, r) ==>
      Answer(r) == View(SetOf(mem), x.key, lastSeq)
  {
    hide View, AllSurvivors, Sorted, Sources, IsFirstHit, AddNewest;
    var i :| 0 <= i < |mem| && mem[i] == x;
    var y := FirstVersionKept(mem, i, lastSeq);
    SurvivorsSubset(mem, lastSeq, false, y);
    assert y in SetOf(mem) && y in FileSet(f) && Hit(y, x.key, lastSeq);
    NewestExists(FileSet(f), x.key, lastSeq);
    var e :| IsNewest(e, FileSet(f), x.key, lastSeq);
    NewestAnswers(v, f, x.key, lastSeq, e, r);
    SortedAscends(mem);
    assert {} + SetOf(mem) == SetOf(mem) && {} + SetOf(f.entries) == FileSet(f);
    CollapseKeepsView(mem, lastSeq, false, {}, x.key, lastSeq);
    forall z | z in FileSet(f) ensures z in SetOf(mem) { SurvivorsSubset(mem, lastSeq, false, z); }
    if IsFirstHit(Sources({}, {}, AddNewest(v, f)), x.key, lastSeq, r) {
      ViewIs(FileSet(f), x.key, lastSeq, r.value);
    }
  }

  lemma OtherKeyAnswer(d: Disk, H: set<Entry>, mem: seq<Entry>, lastSeq: nat, f: File, key: Bytes, r: Option<Entry>)
    requires DiskOk(d, H) && |d.manifest.version| == NUM_LEVELS && |AddNewest(d.manifest.version, f)| == NUM_LEVELS
    requires SetOf(mem) == Replay(d) && SeqLe(H, lastSeq) && f.entries == AllSurvivors(mem, lastSeq, false)
    requires NoKey(Replay(d), key) && IsFirstHit(Sources({}, {}, AddNewest(d.manifest.version, f)), key, lastSeq, r)
    ensures Answer(r) == View(H, key, lastSeq)
  {
    hide View, AllSurvivors, Sources, IsFirstHit, AddNewest, DiskOk, LogsSet;
    forall z | z in FileSet(f) ensures !Hit(z, key, lastSeq) {
      SurvivorsSubset(mem, lastSeq, false, z);
      assert z in SetOf(mem);
    }
    OlderAnswer(d.manifest.version, f, key, lastSeq, r);
    DiskParts(d, H);
    TablesAnswer(d.manifest.version, H, key, lastSeq, r);
    CoversAt(d.manifest.version, Replay(d), H, key, lastSeq);
  }

  lemma ReplayShows(d: Disk, H: set<Entry>, mem: seq<Entry>, f: File, sn: nat)
    requires DiskOk(d, H) && |d.manifest.version| == NUM_LEVELS && |AddNewest(d.manifest.version, f)| == NUM_LEVELS
    requires SetOf(mem) == Replay(d) && Sorted(mem) && SeqLe(H, sn) && f.entries == AllSurvivors(mem, sn, false)
    ensures TablesCurrent(AddNewest(d.manifest.version, f), H, sn) <==> ReplayCurrent(Replay(d), H, sn)
  {
    hide View, AllSurvivors, Sources, IsFirstHit, DiskOk, Sorted, LogsSet, SetOf, AddNewest;
    var v := d.manifest.version;
    var w := AddNewest(v, f);
    ReplayInHistory(d, H);
    if ReplayCurrent(Replay(d), H, sn) {
      forall key, r | IsFirstHit(Sources({}, {}, w), key, sn, r) ensures Answer(r) == View(H, key, sn) {
        if NoKey(Replay(d), key) {
          OtherKeyAnswer(d, H, mem, sn, f, key, r);
        } else {
          var x :| x in Replay(d) && x.key == key;
          MemHolds(mem, x);
          ReplayedKeyAnswer(mem, sn, v, f, x, r);
        }
      }
    }
    if TablesCurrent(w, H, sn) {
      forall x | x in Replay(d) ensures View(Replay(d), x.key, sn) == View(H, x.key, sn) {
        MemHolds(mem, x);
        var r := SomeAnswer(Sources({}, {}, w), x.key, sn);
        ReplayedKeyAnswer(mem, sn, v, f, x, r);
      }
    }
  }

  lemma MemHolds(mem: seq<Entry>, x: Entry)
    requires x in SetOf(mem)
    ensures x in mem
  {
  }

  /** Recovery from any disk whose tables and logs cover the history, whatever logs were left
      behind and whether or not they were found. With the replayed logs in a table, point reads
      are right exactly when the replay was current. With nothing replayed they are right
      exactly when every key that should have been can be read from the tables, and so
      whenever there was nothing to replay. */
  lemma RecoveryShows(s: State, s': State, size: nat, sn: nat)
    requires s.mode.Replayed? && s.mode.v == s.disk.manifest.version
    requires SeqLe(History(s), sn) && DiskOk(s.disk, History(s))
    requires s.mode.mem != [] ==> Sorted(s.mode.mem) && SetOf(s.mode.mem) == Replay(s.disk) && sn == s.mode.lastSeq
    requires BuildReplayed(s, s', size) || OpenLog(s, s')
    ensures |s'.mode.v| == NUM_LEVELS
    ensures s.mode.mem != [] ==>
      (TablesCurrent(s'.mode.v, History(s), sn) <==> ReplayCurrent(Replay(s.disk), History(s), sn))
    ensures s.mode.mem == [] ==>
      (TablesCurrent(s'.mode.v, History(s), sn) <==> AlsoInTables(s.mode.v, Replay(s.disk), History(s), sn))
    ensures Replay(s.disk) == {} ==> AlsoInTables(s.mode.v, Replay(s.disk), History(s), sn)
  {
    hide View, AllSurvivors, Sorted, DiskOk, History, LogsSet, SetOf, TablesCurrent, ReplayCurrent, SeqLe;
    var d, H := s.disk, History(s);
    ReplayInHistory(d, H);
    if s.mode.mem == [] {
      TablesShow(d, H, sn);
    } else {
      ReplayShows(d, H, s.mode.mem, File(s.mode.next, size, AllSurvivors(s.mode.mem, sn, false)), sn);
    }
  }

  // ----------------------------------------------------------------- over runs

  /** In a run all of whose earlier recoveries were sound, the next one is right exactly when
      what it replays is current. */
  lemma NextReplayIff(run: seq<State>, i: nat, size: nat)
    requires 0 < i < |run| && SoundRun(run[..i]) && BuildReplayed(run[i - 1], run[i], size)
    ensures |run[i].mode.v| == NUM_LEVELS
    ensures TablesCurrent(run[i].mode.v, History(run[i - 1]), run[i].mode.lastSeq)
       <==> ReplayCurrent(Replay(run[i - 1].disk), History(run[i - 1]), run[i].mode.lastSeq)
  {
    hide Next, Init, Sound, TablesCurrent, ReplayCurrent, AllSurvivors, AddNewest, History, DiskOk, LogsSet, Sorted,
      SetOf, NumbersOk, SeqLe, AlsoInTables;
    RunOk(run[..i], i - 1);
    assert run[..i][i - 1] == run[i - 1];
    RecoveryShows(run[i - 1], run[i], size, run[i].mode.lastSeq);
  }

  /** And a recovery that could not list the directory is right exactly when every key in the
      logs it did not find can be read from the tables. */
  lemma NextBlindIff(run: seq<State>, i: nat, sn: nat)
    requires 0 < i < |run| && SoundRun(run[..i]) && BlindLoad(run[i - 1], run[i]) && SeqLe(History(run[i - 1]), sn)
    ensures |run[i].mode.v| == NUM_LEVELS
    ensures TablesCurrent(run[i].mode.v, History(run[i - 1]), sn)
       <==> AlsoInTables(run[i].mode.v, Replay(run[i - 1].disk), History(run[i - 1]), sn)
  {
    hide Next, Init, Sound, TablesCurrent, History, DiskOk, LogsSet, SeqLe, AlsoInTables;
    RunOk(run[..i], i - 1);
    assert run[..i][i - 1] == run[i - 1];
    ReplayInHistory(run[i - 1].disk, History(run[i - 1]));
    TablesShow(run[i - 1].disk, History(run[i - 1]), sn);
  }
}
