/** Log files as bytes. What a crash can leave of a log is a cut of its encoding; the engine
    speaks of the whole groups before the cut and of whether a fragment follows. Both sides
    of that are here: the writer's appends and the reader's replay. */
module LogBytes {
  import opened ByteStrings
  import opened MemTables
  import opened Disks
  import Wal

  ghost predicate StoresCut(buf: Bytes, l: LogFile, rs: seq<Wal.Batch>, n: nat) {
    && Wal.AllFit(rs) && n <= |Wal.EncodeLog(rs)| && buf == Wal.EncodeLog(rs)[..n]
    && var k := if n < 8 then 0 else Wal.Whole(rs, n - 8);
       l == LogFile(Wal.Groups(rs[..k]), n != 0 && n != 8 + |Wal.EncodeRecords(rs[..k])|)
  }

  /** `buf` is a log cut anywhere, and `l` is what is whole in it. */
  ghost predicate Stores(buf: Bytes, l: LogFile) {
    exists rs, n :: StoresCut(buf, l, rs, n)
  }

  /** `buf` ends with a whole record, or with the file header. */
  ghost predicate StoresWhole(buf: Bytes, l: LogFile) {
    exists rs :: Wal.AllFit(rs) && buf == Wal.EncodeLog(rs) && l == LogFile(Wal.Groups(rs), false)
  }

  /** Replay delivers the engine's view of a log, and never an error. */
  lemma StoredReplays(buf: Bytes, l: LogFile)
    requires Stores(buf, l)
    ensures Wal.ReplayBytes(buf) == Wal.Replayed(l.groups, l.torn, None)
  {
    hide Wal.ReplayBytes, Wal.EncodeLog, Wal.EncodeRecords, Wal.Whole, Wal.Groups, Wal.AllFit;
    var rs, n :| StoresCut(buf, l, rs, n);
    Wal.ReplayEveryCut(rs, n);
  }

  lemma {:induction false} WholeAppend(rs: seq<Wal.Batch>, r: Wal.Batch, n: nat)
    requires n <= |Wal.EncodeRecord(r)|
    ensures Wal.Whole(rs + [r], |Wal.EncodeRecords(rs)| + n) == if n == |Wal.EncodeRecord(r)| then |rs| + 1 else |rs|
    decreases |rs|
  {
    hide Wal.EncodeRecord;
    if rs == [] {
      assert rs + [r] == [r] && [r][1..] == [];
    } else {
      assert (rs + [r])[1..] == rs[1..] + [r] && (rs + [r])[0] == rs[0];
      WholeAppend(rs[1..], r, n);
    }
  }

  lemma {:induction false} GroupsAppend(rs: seq<Wal.Batch>, r: Wal.Batch)
    ensures Wal.Groups(rs + [r]) == Wal.Groups(rs) + [Number(r.base, r.ops)]
    decreases |rs|
  {
    hide Number;
    if rs == [] {
      assert rs + [r] == [r] && [r][1..] == [];
    } else {
      assert (rs + [r])[1..] == rs[1..] + [r];
      GroupsAppend(rs[1..], r);
    }
  }

  /** Appending to a whole log: all of the record makes it one group longer, part of it leaves
      a torn tail and nothing more. */
  lemma AppendStores(buf: Bytes, l: LogFile, r: Wal.Batch, n: nat)
    requires StoresWhole(buf, l) && Wal.Fits(r) && n <= |Wal.EncodeRecord(r)|
    ensures var buf' := buf + Wal.EncodeRecord(r)[..n];
      && (n == |Wal.EncodeRecord(r)| ==> StoresWhole(buf', LogFile(l.groups + [Number(r.base, r.ops)], false)))
      && (n < |Wal.EncodeRecord(r)| ==> Stores(buf', l.(torn := n != 0)))
  {
    hide Wal.EncodeRecord, Wal.EncodeRecords, Wal.Whole, Wal.Groups, Wal.Fits, Number;
    var rs :| Wal.AllFit(rs) && buf == Wal.EncodeLog(rs) && l == LogFile(Wal.Groups(rs), false);
    var e, all := Wal.EncodeRecord(r), rs + [r];
    Wal.RecordsAppend(rs, r);
    GroupsAppend(rs, r);
    WholeAppend(rs, r, n);
    var buf' := buf + e[..n];
    assert Wal.EncodeLog(all) == buf + e;
    if n == |e| {
      assert e[..n] == e;
    } else {
      assert buf' == Wal.EncodeLog(all)[..|buf| + n];
      assert all[..|rs|] == rs;
      assert StoresCut(buf', l.(torn := n != 0), all, |buf| + n);
    }
  }

  /** A log of whole records is a log cut nowhere. */
  lemma WholeIsStored(buf: Bytes, l: LogFile)
    requires StoresWhole(buf, l)
    ensures Stores(buf, l)
  {
    hide Wal.EncodeRecord, Wal.Fits;
    var rs :| Wal.AllFit(rs) && buf == Wal.EncodeLog(rs) && l == LogFile(Wal.Groups(rs), false);
    AllWhole(rs);
    assert buf == Wal.EncodeLog(rs)[..|buf|] && rs[..|rs|] == rs;
    assert StoresCut(buf, l, rs, |buf|);
  }

  lemma {:induction false} AllWhole(rs: seq<Wal.Batch>)
    ensures Wal.Whole(rs, |Wal.EncodeRecords(rs)|) == |rs|
    decreases |rs|
  {
    hide Wal.EncodeRecord;
    if rs != [] { AllWhole(rs[1..]); }
  }

  /** A fresh log holds nothing, whether its header was written or not. */
  lemma FreshStores(n: nat)
    requires n <= |Wal.HEADER|
    ensures Stores(Wal.HEADER[..n], LogFile([], 0 < n < |Wal.HEADER|))
    ensures StoresWhole(Wal.HEADER, LogFile([], false))
  {
    var none: seq<Wal.Batch> := [];
    Wal.EmptyLog();
    assert Wal.Groups(none) == [] && Wal.AllFit(none) && none[..0] == none;
    assert StoresCut(Wal.HEADER[..n], LogFile([], 0 < n < |Wal.HEADER|), none, n);
  }

  /** Every log file of a directory. */
  ghost predicate FilesStore(files: map<nat, Bytes>, logs: map<nat, LogFile>) {
    files.Keys == logs.Keys && forall n :: n in logs ==> Stores(files[n], logs[n])
  }
}
