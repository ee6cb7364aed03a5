/** What survives a crash: the manifest, the tables and the logs, and the invariant that
    makes recovery exact. After WriteManifest, OldestLiveLog, Recover and
    RemoveObsoleteFiles in src/db.cpp. */
module Disks {
  import opened ByteStrings
  import opened InternalKeys
  import opened Views
  import opened Scans
  import opened Versions
  import opened Trees

  /** A log: the whole records in it, and whether a torn fragment follows them. */
  datatype LogFile = LogFile(groups: seq<seq<Entry>>, torn: bool)

  /** The manifest names the live tables, the oldest log recovery needs, and counters. */
  datatype Manifest = Manifest(version: Version, log: nat, next: nat, lastSeq: nat)

  datatype Disk = Disk(manifest: Manifest, tables: map<nat, seq<Entry>>, logs: map<nat, LogFile>)

  ghost function GroupsSet(groups: seq<seq<Entry>>): set<Entry> {
    set g, x | g in groups && x in g :: x
  }

  ghost function LogSet(l: LogFile): set<Entry> {
    GroupsSet(l.groups)
  }

  /** Everything in the logs numbered `from` or higher. */
  ghost function LogsSet(logs: map<nat, LogFile>, from: nat): set<Entry> {
    set n, x | n in logs && n >= from && x in LogSet(logs[n]) :: x
  }

  /** What recovery would replay. */
  ghost function Replay(d: Disk): set<Entry> {
    LogsSet(d.logs, d.manifest.log)
  }

  ghost predicate SeqLe(E: set<Entry>, n: nat) {
    forall x :: x in E ==> x.sn <= n
  }

  ghost predicate NoKey(E: set<Entry>, key: Bytes) {
    forall x :: x in E ==> x.key != key
  }

  /** `y` is the newest version of its key. */
  ghost predicate Latest(y: Entry, H: set<Entry>) {
    y in H && forall z :: z in H && z.key == y.key ==> z.sn <= y.sn
  }

  /** Of every key that occurs in `R`, the newest version in `H` is in `R` too. */
  ghost predicate Fresh(R: set<Entry>, H: set<Entry>) {
    forall x, y :: x in R && Latest(y, H) && y.key == x.key ==> y in R
  }

  /** Higher-numbered logs hold strictly newer entries. */
  ghost predicate LogsOrdered(logs: map<nat, LogFile>) {
    forall m, n, x, y :: m in logs && n in logs && m < n && x in LogSet(logs[m]) && y in LogSet(logs[n]) ==> x.sn < y.sn
  }

  ghost predicate TablesHold(v: Version, tables: map<nat, seq<Entry>>) {
    forall f :: f in Files(v) ==> f.number in tables && tables[f.number] == f.entries
  }

  /** For keys outside `R`, the tables alone show the latest state of the history. */
  ghost predicate Covers(v: Version, R: set<Entry>, H: set<Entry>) {
    forall key, sn :: SeqLe(H, sn) && NoKey(R, key) ==> View(VersionSet(v), key, sn) == View(H, key, sn)
  }

  /** Entries recovery does not replay are accounted for by the recorded counter. */
  ghost predicate Counted(R: set<Entry>, H: set<Entry>, lastSeq: nat) {
    forall x :: x in H && x !in R ==> x.sn <= lastSeq
  }

  ghost predicate TreeOk(v: Version, H: set<Entry>, tables: map<nat, seq<Entry>>) {
    VersionOk(v) && LevelsOrdered(v) && VersionSet(v) <= H && TablesHold(v, tables)
  }

  ghost predicate LogsOk(logs: map<nat, LogFile>, H: set<Entry>) {
    LogsSet(logs, 0) <= H && LogsOrdered(logs)
  }

  /** Manifest tables plus the logs from the manifest's log on cover the history. */
  ghost predicate DiskOk(d: Disk, H: set<Entry>) {
    && SeqUnique(H)
    && TreeOk(d.manifest.version, H, d.tables)
    && LogsOk(d.logs, H)
    && Covers(d.manifest.version, Replay(d), H)
    && Counted(Replay(d), H, d.manifest.lastSeq)
  }

  /** Every replayed key reads, from the replayed logs alone, as it does in the history. */
  ghost predicate ReplayCurrent(R: set<Entry>, H: set<Entry>, sn: nat) {
    forall x :: x in R ==> View(R, x.key, sn) == View(H, x.key, sn)
  }

  /** No table holds a newer version of a replayed key than the replayed logs do. */
  ghost predicate ReplayNewest(R: set<Entry>, V: set<Entry>) {
    forall x, y :: x in R && y in V && y.key == x.key ==> HasFrom(R, x.key, y.sn)
  }

  ghost predicate HasFrom(R: set<Entry>, key: Bytes, sn: nat) {
    exists z :: z in R && z.key == key && z.sn >= sn
  }

  /** The replayed logs may go in front of the tables. They must not when a log was left
      behind that holds overwritten values. */
  ghost predicate GoodReplay(d: Disk, H: set<Entry>, sn: nat) {
    ReplayCurrent(Replay(d), H, sn) && ReplayNewest(Replay(d), VersionSet(d.manifest.version))
  }

  /** A recovery that cannot list the directory misses nothing: there is nothing to replay, and
      the recorded counter is above every file. */
  ghost predicate NothingHidden(d: Disk) {
    && Replay(d) == {} && d.manifest.next > 0
    && (forall n :: n in d.tables ==> n < d.manifest.next) && (forall n :: n in d.logs ==> n < d.manifest.next)
  }

  // ------------------------------------------------------------- log algebra

  lemma LogsFrom(logs: map<nat, LogFile>, from: nat)
    ensures LogsSet(logs, from) <= LogsSet(logs, 0)
  {
  }

  lemma NewerIsHigher(logs: map<nat, LogFile>, m: nat, n: nat, x: Entry, y: Entry)
    requires LogsOrdered(logs) && m in logs && n in logs && x in LogSet(logs[n]) && y in LogSet(logs[m]) && x.sn <= y.sn
    ensures n <= m
  {
  }

  /** Later logs hold the newest version of every key in them if all logs together do. */
  lemma SuffixFresh(logs: map<nat, LogFile>, from: nat, H: set<Entry>)
    requires LogsOrdered(logs) && LogsSet(logs, 0) <= H && Fresh(LogsSet(logs, 0), H)
    ensures Fresh(LogsSet(logs, from), H)
  {
    hide LogSet, LogsOrdered;
    LogsFrom(logs, from);
    forall x, y | x in LogsSet(logs, from) && Latest(y, H) && y.key == x.key ensures y in LogsSet(logs, from) {
      var n: nat :| n in logs && n >= from && x in LogSet(logs[n]);
      assert y in LogsSet(logs, 0);
      var m: nat :| m in logs && m >= 0 && y in LogSet(logs[m]);
      NewerIsHigher(logs, m, n, x, y);
    }
  }

  lemma AppendSets(logs: map<nat, LogFile>, log: nat, g: seq<Entry>, torn: bool, from: nat)
    requires log in logs && from <= log
    ensures var logs' := logs[log := LogFile(logs[log].groups + [g], torn)];
      && LogsSet(logs', from) == LogsSet(logs, from) + SetOf(g)
      && LogSet(logs'[log]) == LogSet(logs[log]) + SetOf(g)
  {
    var logs' := logs[log := LogFile(logs[log].groups + [g], torn)];
    GroupsAppend(logs[log].groups, g);
    forall x ensures x in LogsSet(logs', from) <==> x in LogsSet(logs, from) + SetOf(g) {
      if x in LogsSet(logs', from) {
        var n :| n in logs' && n >= from && x in LogSet(logs'[n]);
        assert n != log ==> x in LogSet(logs[n]);
        assert x in LogSet(logs[n]) || x in SetOf(g);
      }
      if x in LogsSet(logs, from) {
        var n :| n in logs && n >= from && x in LogSet(logs[n]);
        assert x in LogSet(logs'[n]);
      }
      if x in SetOf(g) { assert x in LogSet(logs'[log]); }
    }
  }

  lemma GroupsAppend(groups: seq<seq<Entry>>, g: seq<Entry>)
    ensures GroupsSet(groups + [g]) == GroupsSet(groups) + SetOf(g)
  {
    forall x ensures x in GroupsSet(groups + [g]) <==> x in GroupsSet(groups) + SetOf(g) {
      if x in GroupsSet(groups) {
        var h :| h in groups && x in h;
        assert h in groups + [g];
      }
      if x in SetOf(g) { assert g in groups + [g]; }
    }
  }

  lemma GroupsConcat(a: seq<seq<Entry>>, b: seq<seq<Entry>>)
    ensures GroupsSet(a + b) == GroupsSet(a) + GroupsSet(b)
  {
    forall x ensures x in GroupsSet(a + b) <==> x in GroupsSet(a) + GroupsSet(b) {
      if x in GroupsSet(a) { var h :| h in a && x in h; assert h in a + b; }
      if x in GroupsSet(b) { var h :| h in b && x in h; assert h in a + b; }
    }
  }

  /** The logs as a whole: empty logs and torn tails contribute nothing. */
  lemma NewLogSets(logs: map<nat, LogFile>, n: nat, torn: bool, from: nat)
    requires n !in logs
    ensures LogsSet(logs[n := LogFile([], torn)], from) == LogsSet(logs, from)
    ensures LogsOrdered(logs) ==> LogsOrdered(logs[n := LogFile([], torn)])
  {
    var logs' := logs[n := LogFile([], torn)];
    assert LogSet(logs'[n]) == {};
    forall x ensures x in LogsSet(logs', from) <==> x in LogsSet(logs, from) {
      if x in LogsSet(logs, from) {
        var m :| m in logs && m >= from && x in LogSet(logs[m]);
        assert x in LogSet(logs'[m]);
      }
    }
  }

  lemma TornSets(logs: map<nat, LogFile>, n: nat, torn: bool, from: nat)
    requires n in logs
    ensures LogsSet(logs[n := logs[n].(torn := torn)], from) == LogsSet(logs, from)
    ensures LogsOrdered(logs) ==> LogsOrdered(logs[n := logs[n].(torn := torn)])
  {
    var logs' := logs[n := logs[n].(torn := torn)];
    assert forall m :: m in logs ==> LogSet(logs'[m]) == LogSet(logs[m]);
    forall x ensures x in LogsSet(logs', from) <==> x in LogsSet(logs, from) {
      if x in LogsSet(logs, from) {
        var m :| m in logs && m >= from && x in LogSet(logs[m]);
        assert x in LogSet(logs'[m]);
      }
    }
  }

  lemma DeletedLogSets(logs: map<nat, LogFile>, n: nat, from: nat)
    requires n < from
    ensures LogsSet(logs - {n}, from) == LogsSet(logs, from)
    ensures LogsSet(logs - {n}, 0) <= LogsSet(logs, 0)
    ensures LogsOrdered(logs) ==> LogsOrdered(logs - {n})
  {
    var logs' := logs - {n};
    forall x | x in LogsSet(logs, from) ensures x in LogsSet(logs', from) {
      var m :| m in logs && m >= from && x in LogSet(logs[m]);
      assert m in logs' && logs'[m] == logs[m];
    }
  }

  lemma DeletedSubset(logs: map<nat, LogFile>, n: nat)
    ensures LogsSet(logs - {n}, 0) <= LogsSet(logs, 0) && (LogsOrdered(logs) ==> LogsOrdered(logs - {n}))
  {
    forall x | x in LogsSet(logs - {n}, 0) ensures x in LogsSet(logs, 0) {
      var m: nat :| m in logs - {n} && m >= 0 && x in LogSet((logs - {n})[m]);
      assert m in logs && logs[m] == (logs - {n})[m];
    }
  }

  /** A newer group becomes the newest version of its keys, in the log and in the history. */
  lemma FreshGrows(R: set<Entry>, H: set<Entry>, g: set<Entry>)
    requires Fresh(R, H) && R <= H && SeqUnique(g) && forall x, y :: x in g && y in H ==> y.sn < x.sn
    ensures Fresh(R + g, H + g)
  {
    forall x, y | x in R + g && Latest(y, H + g) && y.key == x.key ensures y in R + g {
      if y !in g {
        assert forall z :: z in H + g && z.key == y.key ==> z in H;
        assert Latest(y, H);
      }
    }
  }

  // --------------------------------------------------------------- disk steps

  lemma ViewGrows(H: set<Entry>, g: set<Entry>, key: Bytes, sn: nat)
    requires SeqUnique(H + g) && NoKey(g, key)
    ensures View(H + g, key, sn) == View(H, key, sn)
  {
    ViewSame(H + g, H, key, sn);
  }

  lemma UniqueGrows(H: set<Entry>, g: set<Entry>)
    requires SeqUnique(H) && SeqUnique(g) && forall x, y :: x in g && y in H ==> y.sn < x.sn
    ensures SeqUnique(H + g)
  {
  }

  lemma CoversGrows(v: Version, R: set<Entry>, H: set<Entry>, g: set<Entry>)
    requires Covers(v, R, H) && SeqUnique(H + g)
    ensures Covers(v, R + g, H + g)
  {
    hide View;
    forall key, sn | SeqLe(H + g, sn) && NoKey(R + g, key)
      ensures View(VersionSet(v), key, sn) == View(H + g, key, sn)
    {
      assert SeqLe(H, sn) && NoKey(R, key) && NoKey(g, key);
      ViewGrows(H, g, key, sn);
    }
  }

  lemma OrderedAppend(logs: map<nat, LogFile>, H: set<Entry>, log: nat, g: seq<Entry>, torn: bool)
    requires LogsOk(logs, H) && log in logs && (forall n :: n in logs && n > log ==> LogSet(logs[n]) == {})
    requires forall x, y :: x in SetOf(g) && y in H ==> y.sn < x.sn
    ensures LogsOrdered(logs[log := LogFile(logs[log].groups + [g], torn)])
  {
    var logs' := logs[log := LogFile(logs[log].groups + [g], torn)];
    AppendSets(logs, log, g, torn, 0);
    assert forall m, x :: m in logs && x in LogSet(logs[m]) ==> x in LogsSet(logs, 0);
  }

  /** A group appended to the newest log that holds any extends the history. */
  lemma DiskAppend(d: Disk, H: set<Entry>, log: nat, g: seq<Entry>, torn: bool)
    requires DiskOk(d, H) && log in d.logs && d.manifest.log <= log
    requires forall n :: n in d.logs && n > log ==> LogSet(d.logs[n]) == {}
    requires SeqUnique(SetOf(g)) && forall x, y :: x in SetOf(g) && y in H ==> y.sn < x.sn
    ensures var d' := d.(logs := d.logs[log := LogFile(d.logs[log].groups + [g], torn)]);
      DiskOk(d', H + SetOf(g))
  {
    hide Covers, VersionSet, TablesHold, LogsSet, LogsOrdered, LogSet;
    AppendSets(d.logs, log, g, torn, 0);
    AppendSets(d.logs, log, g, torn, d.manifest.log);
    OrderedAppend(d.logs, H, log, g, torn);
    UniqueGrows(H, SetOf(g));
    CoversGrows(d.manifest.version, Replay(d), H, SetOf(g));
  }

  lemma DiskNewLog(d: Disk, H: set<Entry>, n: nat, torn: bool)
    requires DiskOk(d, H) && n !in d.logs
    ensures var d' := d.(logs := d.logs[n := LogFile([], torn)]);
      DiskOk(d', H) && LogsSet(d'.logs, 0) == LogsSet(d.logs, 0) && Replay(d') == Replay(d)
  {
    hide Covers, LogsSet, LogsOrdered, TreeOk;
    NewLogSets(d.logs, n, torn, 0);
    NewLogSets(d.logs, n, torn, d.manifest.log);
  }

  lemma DiskTorn(d: Disk, H: set<Entry>, n: nat, torn: bool)
    requires DiskOk(d, H) && n in d.logs
    ensures var d' := d.(logs := d.logs[n := d.logs[n].(torn := torn)]);
      DiskOk(d', H) && LogsSet(d'.logs, 0) == LogsSet(d.logs, 0)
  {
    hide Covers, LogsSet, LogsOrdered, TreeOk;
    TornSets(d.logs, n, torn, 0);
    TornSets(d.logs, n, torn, d.manifest.log);
  }

  ghost predicate NotNamed(v: Version, n: nat) {
    forall f :: f in Files(v) ==> f.number != n
  }

  lemma HoldPut(v: Version, tables: map<nat, seq<Entry>>, n: nat, es: seq<Entry>)
    requires TablesHold(v, tables) && NotNamed(v, n)
    ensures TablesHold(v, tables[n := es]) && TablesHold(v, tables - {n})
  {
  }

  /** Writing or deleting a table the manifest does not name is harmless. */
  lemma DiskTable(d: Disk, H: set<Entry>, n: nat, es: seq<Entry>)
    requires DiskOk(d, H) && NotNamed(d.manifest.version, n)
    ensures DiskOk(d.(tables := d.tables[n := es]), H) && DiskOk(d.(tables := d.tables - {n}), H)
  {
    hide Covers, LogsSet, LogsOk, VersionOk, LevelsOrdered, TablesHold, NotNamed;
    HoldPut(d.manifest.version, d.tables, n, es);
  }

  /** Deleting the oldest log that holds anything leaves the newest version of every key still
      in the logs. */
  lemma FreshAfterDelete(logs: map<nat, LogFile>, H: set<Entry>, n: nat)
    requires LogsOrdered(logs) && LogsSet(logs, 0) <= H && Fresh(LogsSet(logs, 0), H)
    requires n in logs && forall m :: m in logs && m < n ==> logs[m].groups == [] || logs[n].groups == []
    ensures Fresh(LogsSet(logs - {n}, 0), H)
  {
    hide Fresh, LogsOrdered;
    var from := if logs[n].groups == [] then 0 else n + 1;
    SuffixFresh(logs, from, H);
    var logs' := logs - {n};
    forall x ensures x in LogsSet(logs', 0) <==> x in LogsSet(logs, from) {
      if x in LogsSet(logs, from) {
        var m: nat :| m in logs && m >= from && x in LogSet(logs[m]);
        assert m in logs' && logs'[m] == logs[m];
      }
    }
    assert LogsSet(logs', 0) == LogsSet(logs, from);
  }

  /** Deleting an obsolete log leaves what will be replayed as it is. */
  lemma DiskDeleteLog(d: Disk, H: set<Entry>, n: nat)
    requires DiskOk(d, H) && n in d.logs && n < d.manifest.log
    ensures var d' := d.(logs := d.logs - {n}); DiskOk(d', H) && Replay(d') == Replay(d)
  {
    hide Covers, LogsSet, LogsOrdered, TreeOk;
    DeletedLogSets(d.logs, n, d.manifest.log);
    DeletedSubset(d.logs, n);
  }

  /** A new manifest, if its tables and the logs it names cover the history. */
  lemma DiskManifest(d: Disk, H: set<Entry>, m: Manifest)
    requires DiskOk(d, H) && TreeOk(m.version, H, d.tables)
    requires Covers(m.version, LogsSet(d.logs, m.log), H) && Counted(LogsSet(d.logs, m.log), H, m.lastSeq)
    ensures DiskOk(d.(manifest := m), H)
  {
    hide Covers, LogsSet, LogsOk, TreeOk;
  }
}
