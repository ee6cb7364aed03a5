/** The write-ahead log on disk, after src/wal.cpp.

    A log is an 8-byte file header followed by records, each a checksum, a length and a
    payload holding one whole batch. A crash can only cut the file short. The main result is
    about every cut: exactly the whole records before it are delivered, and a torn tail is
    reported exactly when the cut falls inside something. */
module Wal {
  import opened ByteStrings
  import opened Coding
  import opened InternalKeys
  import opened WriteBatches
  import opened MemTables
  import opened Checksums

  // ------------------------------------------------------------------ records

  datatype Batch = Batch(base: nat, ops: seq<Op>)

  const HEADER: Bytes := [76, 83, 77, 87, 65, 76, 0, 2]   // "LSMWAL\0", format version 2

  function Payload(r: Batch): Bytes {
    Fixed64(r.base) + Fixed32(|r.ops|) + EncodeOps(r.ops)
  }

  lemma NextByte(v: nat, n: nat)
    ensures PutLE(v, n + 1) == [v % 256] + PutLE(v / 256, n)
  {
  }

  lemma {:induction false} ZeroBytes(n: nat)
    ensures PutLE(0, n) == seq(n, i => 0)
    decreases n
  {
    if n > 0 { ZeroBytes(n - 1); }
  }

  lemma FixedVectors()
    ensures Fixed64(258) == [2, 1, 0, 0, 0, 0, 0, 0] && Fixed32(2) == [2, 0, 0, 0]
  {
    hide PutLE;
    NextByte(258, 7);
    NextByte(1, 6);
    ZeroBytes(6);
    NextByte(2, 3);
    ZeroBytes(3);
  }

  lemma TwoOps(a: Op, b: Op)
    ensures EncodeOps([a, b]) == EncodeOp(a) + EncodeOp(b)
  {
    hide EncodeOp;
    assert [a, b][1..] == [b] && [b][1..] == [];
    assert EncodeOps([b]) == EncodeOp(b) + EncodeOps([]);
  }

  lemma OpVectors()
    ensures EncodeOp(Op(Value, [107], [118, 119])) == [1, 1, 107, 2, 118, 119]
    ensures EncodeOp(Op(Deletion, [108], [])) == [0, 1, 108, 0]
  {
  }

  /** What a record holds, byte by byte: sequence number, count, and for each operation its type,
      its key and its value. */
  lemma PayloadVector()
    ensures Payload(Batch(258, [Op(Value, [107], [118, 119]), Op(Deletion, [108], [])]))
         == [2, 1, 0, 0, 0, 0, 0, 0, 2, 0, 0, 0, 1, 1, 107, 2, 118, 119, 0, 1, 108, 0]
  {
    hide Fixed64, Fixed32, EncodeOps, EncodeOp;
    FixedVectors();
    var a, b := Op(Value, [107], [118, 119]), Op(Deletion, [108], []);
    TwoOps(a, b);
    OpVectors();
  }

  /** Counts and lengths fit their fields; empty batches are never logged. */
  predicate Fits(r: Batch) {
    r.ops != [] && OpsFit(r.ops) && r.base < TWO64 && |r.ops| < TWO32 && |Payload(r)| < TWO32
  }

  predicate AllFit(rs: seq<Batch>) {
    forall i :: 0 <= i < |rs| ==> Fits(rs[i])
  }

  function EncodeRecord(r: Batch): (s: Bytes)
    ensures |s| == 8 + |Payload(r)|
  {
    Fixed32(Checksum(Payload(r))) + Fixed32(|Payload(r)|) + Payload(r)
  }

  function EncodeRecords(rs: seq<Batch>): Bytes {
    if rs == [] then [] else EncodeRecord(rs[0]) + EncodeRecords(rs[1..])
  }

  function EncodeLog(rs: seq<Batch>): Bytes {
    HEADER + EncodeRecords(rs)
  }

  function Groups(rs: seq<Batch>): seq<seq<Entry>> {
    if rs == [] then [] else [Number(rs[0].base, rs[0].ops)] + Groups(rs[1..])
  }

  lemma {:induction false} RecordsAppend(rs: seq<Batch>, r: Batch)
    ensures EncodeRecords(rs + [r]) == EncodeRecords(rs) + EncodeRecord(r)
    decreases |rs|
  {
    hide EncodeRecord;
    if rs == [] {
      assert rs + [r] == [r] && [r][1..] == [];
    } else {
      assert (rs + [r])[1..] == rs[1..] + [r];
      RecordsAppend(rs[1..], r);
    }
  }

  // -------------------------------------------------------------------- replay

  datatype WalError = NotALog | BadVersion | RecordTooShort | BadBatch(error: DecodeError)

  /** What Replay hands to its handler, group by group; whether it saw a torn tail; and the
      error it stopped with, if any. */
  datatype Replayed = Replayed(groups: seq<seq<Entry>>, torn: bool, error: Option<WalError>)

  function ReplayFrom(buf: Bytes, p: nat): Replayed
    requires p <= |buf|
    decreases |buf| - p
  {
    if p == |buf| then Replayed([], false, None)
    else if |buf| - p < 8 then Replayed([], true, None)
    else
      var crc, length := DecodeFixed32(buf, p), DecodeFixed32(buf, p + 4);
      if |buf| - p - 8 < length then Replayed([], true, None)
      else
        var payload := buf[p + 8..p + 8 + length];
        if Checksum(payload) != crc then Replayed([], true, None)
        else if length < 12 then Replayed([], false, Some(RecordTooShort))
        else
          var base, count := DecodeFixed64(payload, 0), DecodeFixed32(payload, 8);
          var batch := Decode(payload[12..], count);
          if batch.error.Some? then Replayed([Number(base, batch.ops)], false, Some(BadBatch(batch.error.value)))
          else
            var rest := ReplayFrom(buf, p + 8 + length);
            Replayed([Number(base, batch.ops)] + rest.groups, rest.torn, rest.error)
  }

  function ReplayBytes(buf: Bytes): Replayed {
    if buf == [] then Replayed([], false, None)
    else if |buf| < 8 then Replayed([], true, None)
    else if buf[..7] != HEADER[..7] then Replayed([], false, Some(NotALog))
    else if buf[7] != HEADER[7] then Replayed([], false, Some(BadVersion))
    else ReplayFrom(buf, 8)
  }

  ghost function Onto(groups: seq<seq<Entry>>, rest: Replayed): Replayed {
    Replayed(groups + rest.groups, rest.torn, rest.error)
  }

  lemma OntoAgain(groups: seq<seq<Entry>>, g: seq<Entry>, rest: Replayed)
    ensures Onto(groups + [g], rest) == Onto(groups, Replayed([g] + rest.groups, rest.torn, rest.error))
  {
    assert groups + ([g] + rest.groups) == (groups + [g]) + rest.groups;
  }

  /** WalReader::Replay over the bytes of a log file. */
  method Replay(buf: Bytes) returns (r: Replayed)
    ensures r == ReplayBytes(buf)
  {
    hide Checksum, Number, DecodeFixed32, DecodeFixed64, Decode;
    if buf == [] { return Replayed([], false, None); }
    if |buf| < 8 { return Replayed([], true, None); }
    if buf[..7] != HEADER[..7] { return Replayed([], false, Some(NotALog)); }
    if buf[7] != HEADER[7] { return Replayed([], false, Some(BadVersion)); }
    ghost var all := ReplayBytes(buf);
    assert all == ReplayFrom(buf, 8);
    hide ReplayBytes;
    var p: nat, groups: seq<seq<Entry>> := 8, [];
    while p < |buf|
      invariant 8 <= p <= |buf|
      invariant all == Onto(groups, ReplayFrom(buf, p))
      decreases |buf| - p
    {
      if |buf| - p < 8 { return Replayed(groups, true, None); }
      var crc, length := DecodeFixed32(buf, p), DecodeFixed32(buf, p + 4);
      if |buf| - p - 8 < length { return Replayed(groups, true, None); }
      var payload := buf[p + 8..p + 8 + length];
      if Checksum(payload) != crc { return Replayed(groups, true, None); }
      if length < 12 { return Replayed(groups, false, Some(RecordTooShort)); }
      var base, count := DecodeFixed64(payload, 0), DecodeFixed32(payload, 8);
      var batch := DecodeBatch(payload[12..], count);
      OntoAgain(groups, Number(base, batch.ops), ReplayFrom(buf, p + 8 + length));
      groups := groups + [Number(base, batch.ops)];
      if batch.error.Some? { return Replayed(groups, false, Some(BadBatch(batch.error.value))); }
      p := p + 8 + length;
    }
    r := Replayed(groups, false, None);
  }

  // ---------------------------------------------------------------- every cut

  /** How many whole records lie within the first `m` bytes. */
  function Whole(rs: seq<Batch>, m: nat): (k: nat)
    ensures k <= |rs|
  {
    if rs == [] || m < |EncodeRecord(rs[0])| then 0 else 1 + Whole(rs[1..], m - |EncodeRecord(rs[0])|)
  }

  /** That many, and not one more. */
  lemma {:induction false} WholeIs(rs: seq<Batch>, m: nat)
    ensures |EncodeRecords(rs[..Whole(rs, m)])| <= m
    ensures Whole(rs, m) < |rs| ==> m < |EncodeRecords(rs[..Whole(rs, m) + 1])|
    decreases |rs|
  {
    hide EncodeRecord, Payload;
    if rs == [] || m < |EncodeRecord(rs[0])| {
      if rs != [] {
        assert rs[..1] == [rs[0]] && [rs[0]][1..] == [];
      }
    } else {
      var n, k := |EncodeRecord(rs[0])|, Whole(rs, m);
      WholeIs(rs[1..], m - n);
      assert rs[..k][1..] == rs[1..][..k - 1];
      if k < |rs| { assert rs[..k + 1][1..] == rs[1..][..k]; }
    }
  }

  lemma RecordFields(buf: Bytes, p: nat, r: Batch, m: nat)
    requires p + m <= |buf| && 8 <= m <= |EncodeRecord(r)| && buf[p..p + m] == EncodeRecord(r)[..m] && Fits(r)
    ensures DecodeFixed32(buf, p) == Checksum(Payload(r)) && DecodeFixed32(buf, p + 4) == |Payload(r)|
    ensures m == |EncodeRecord(r)| ==> buf[p + 8..p + 8 + |Payload(r)|] == Payload(r)
  {
    hide Checksum, Payload, Fixed32, DecodeFixed32;
    var crc, len := Fixed32(Checksum(Payload(r))), Fixed32(|Payload(r)|);
    assert buf[p..p + 8] == buf[p..p + m][..8] == EncodeRecord(r)[..8] == crc + len;
    HoldsConcat(buf, p, crc, len);
    Fixed32RoundTrip(buf, p, Checksum(Payload(r)));
    Fixed32RoundTrip(buf, p + 4, |Payload(r)|);
    if m == |EncodeRecord(r)| {
      assert buf[p + 8..p + 8 + |Payload(r)|] == buf[p..p + m][8..];
    }
  }

  lemma PayloadFields(r: Batch)
    requires Fits(r)
    ensures var s := Payload(r);
      |s| >= 12 && DecodeFixed64(s, 0) == r.base && DecodeFixed32(s, 8) == |r.ops|
        && Decode(s[12..], |r.ops|) == Decoded(r.ops, None)
  {
    hide Fixed32, Fixed64, DecodeFixed32, DecodeFixed64, Decode, EncodeOps;
    var s := Payload(r);
    var head, body := Fixed64(r.base) + Fixed32(|r.ops|), EncodeOps(r.ops);
    assert s[0..|s|] == s;
    HoldsConcat(s, 0, head, body);
    HoldsConcat(s, 0, Fixed64(r.base), Fixed32(|r.ops|));
    Fixed64RoundTrip(s, 0, r.base);
    Fixed32RoundTrip(s, 8, |r.ops|);
    assert s[12..] == body;
    BatchRoundTrip(r.ops);
  }

  /** A whole record is delivered whole. */
  lemma ReplayRecord(buf: Bytes, p: nat, r: Batch)
    requires Fits(r) && Holds(buf, p, EncodeRecord(r))
    ensures p + |EncodeRecord(r)| <= |buf|
    ensures var rest := ReplayFrom(buf, p + |EncodeRecord(r)|);
      ReplayFrom(buf, p) == Replayed([Number(r.base, r.ops)] + rest.groups, rest.torn, rest.error)
  {
    hide Checksum, Payload, DecodeFixed32, DecodeFixed64, Decode, Number;
    RecordFields(buf, p, r, |EncodeRecord(r)|);
    PayloadFields(r);
  }

  /** Part of a record is a torn tail. */
  lemma ReplayFragment(buf: Bytes, p: nat, r: Batch)
    requires Fits(r) && p < |buf| && |buf| - p < |EncodeRecord(r)| && buf[p..] == EncodeRecord(r)[..|buf| - p]
    ensures ReplayFrom(buf, p) == Replayed([], true, None)
  {
    hide Checksum, Payload, DecodeFixed32, DecodeFixed64, Decode, Number;
    if |buf| - p >= 8 {
      assert buf[p..|buf|] == buf[p..];
      RecordFields(buf, p, r, |buf| - p);
    }
  }

  lemma {:induction false} ReplayCut(buf: Bytes, p: nat, rs: seq<Batch>)
    requires AllFit(rs) && p <= |buf| && |buf| - p <= |EncodeRecords(rs)| && buf[p..] == EncodeRecords(rs)[..|buf| - p]
    ensures var m := |buf| - p;
      var k := Whole(rs, m);
      ReplayFrom(buf, p) == Replayed(Groups(rs[..k]), m != |EncodeRecords(rs[..k])|, None)
    decreases |rs|
  {
    hide EncodeRecord, ReplayFrom, Number, Fits, Payload;
    var m := |buf| - p;
    var k := Whole(rs, m);
    if m == 0 {
      ReplayEnd(buf);
      assert k == 0 && rs[..0] == [];
    } else {
      var r := rs[0];
      var e := EncodeRecord(r);
      if m < |e| {
        assert EncodeRecords(rs)[..m] == e[..m];
        ReplayFragment(buf, p, r);
        assert rs[..0] == [];
      } else {
        assert buf[p..p + |e|] == buf[p..][..|e|] == e;
        ReplayRecord(buf, p, r);
        assert buf[p + |e|..] == buf[p..][|e|..] == EncodeRecords(rs[1..])[..m - |e|];
        ReplayCut(buf, p + |e|, rs[1..]);
        assert rs[..k][1..] == rs[1..][..k - 1] && rs[..k][0] == r;
      }
    }
  }

  lemma ReplayEnd(buf: Bytes)
    ensures ReplayFrom(buf, |buf|) == Replayed([], false, None)
  {
  }

  /** For every list of batches and every cut of the log they make, Replay succeeds, delivers
      exactly the entries of the whole records before the cut, and reports a torn tail exactly
      when the cut is not at byte 0, at the end of the file header or between two records. */
  lemma ReplayEveryCut(rs: seq<Batch>, n: nat)
    requires AllFit(rs) && n <= |EncodeLog(rs)|
    ensures var k := if n < 8 then 0 else Whole(rs, n - 8);
      ReplayBytes(EncodeLog(rs)[..n]) == Replayed(Groups(rs[..k]), n != 0 && n != 8 + |EncodeRecords(rs[..k])|, None)
  {
    hide EncodeRecords, ReplayFrom, AllFit, Whole, Groups;
    var buf := EncodeLog(rs)[..n];
    if n < 8 {
      assert Groups(rs[..0]) == [] by { NoGroups(rs); }
    } else {
      assert buf[..8] == HEADER;
      assert buf[..7] == buf[..8][..7] && buf[7] == buf[..8][7];
      assert buf[8..] == EncodeRecords(rs)[..n - 8];
      ReplayCut(buf, 8, rs);
    }
  }

  lemma NoGroups(rs: seq<Batch>)
    ensures Groups(rs[..0]) == []
  {
  }

  /** A record whose payload was damaged within four consecutive bytes is never delivered. */
  lemma DamagedRecordRejected(buf: Bytes, p: nat, r: Batch, before: Bytes, w: Bytes, w': Bytes, after: Bytes)
    requires Fits(r) && Payload(r) == before + w + after && |w| == |w'| <= 4 && w != w'
    requires Holds(buf, p, Fixed32(Checksum(Payload(r))) + Fixed32(|Payload(r)|) + (before + w' + after))
    ensures ReplayFrom(buf, p) == Replayed([], true, None)
  {
    hide Checksum, Payload, DecodeFixed32, DecodeFixed64, Decode, Number, Fixed32;
    var bad := before + w' + after;
    var crc, len := Fixed32(Checksum(Payload(r))), Fixed32(|Payload(r)|);
    HoldsConcat(buf, p, crc + len, bad);
    HoldsConcat(buf, p, crc, len);
    Fixed32RoundTrip(buf, p, Checksum(Payload(r)));
    Fixed32RoundTrip(buf, p + 4, |Payload(r)|);
    ChecksumDetects(before, w, w', after);
  }

  // ------------------------------------------------------------------- writing

  class WalWriter {
    var file: Bytes      // what the path holds
    var isOpen: bool
    ghost var records: seq<Batch>

    /** The file is a log of whole records. */
    ghost predicate IsLog()
      reads this
    {
      AllFit(records) && file == EncodeLog(records)
    }

    constructor (existing: Bytes, ghost whole: seq<Batch>)
      ensures file == existing && !isOpen && records == whole
    {
      file, isOpen, records := existing, false, whole;
    }

    /** `opens` and `written` are what becomes of open() and of writing the file header. A file
        that already holds something is left as it is, torn or not. When the header cannot be
        written the call fails, the descriptor stays open, and part of the header is there. */
    method Open(opens: bool, written: nat) returns (ok: bool)
      requires written <= |HEADER|
      modifies this
      ensures old(isOpen) || !opens ==> !ok && file == old(file) && isOpen == old(isOpen) && records == old(records)
      ensures !old(isOpen) && opens ==> isOpen && ok == (old(file) != [] || written == |HEADER|)
      ensures !old(isOpen) && opens && old(file) != [] ==> file == old(file) && records == old(records)
      ensures !old(isOpen) && opens && old(file) == [] ==> file == EncodeLog([])[..written] && records == []
      ensures ok && (old(IsLog()) || old(file) == []) ==> IsLog()
    {
      if isOpen || !opens { return false; }
      isOpen := true;
      if |file| == 0 {
        assert EncodeLog([]) == HEADER by { EmptyLog(); }
        records := [];
        file := file + HEADER[..written];
        if written < |HEADER| { return false; }
        assert HEADER[..written] == HEADER;
      }
      ok := true;
    }

    /** Appends a batch as one record. Only the first `written` bytes reach the file before
        a crash or an error; the call succeeds when all of them do. */
    method AddRecord(base: nat, batch: WriteBatch, written: nat) returns (ok: bool)
      requires batch.Valid() && (batch.ops != [] ==> Fits(Batch(base, batch.ops)))
      requires batch.ops != [] ==> written <= |EncodeRecord(Batch(base, batch.ops))|
      modifies this
      ensures isOpen == old(isOpen)
      ensures !isOpen || batch.ops == [] ==> ok == isOpen && file == old(file) && records == old(records)
      ensures isOpen && batch.ops != [] ==> ok == (written == |EncodeRecord(Batch(base, batch.ops))|)
      ensures isOpen && batch.ops != [] ==> file == old(file) + EncodeRecord(Batch(base, batch.ops))[..written]
      ensures old(IsLog()) && ok && batch.ops != [] ==> IsLog() && records == old(records) + [Batch(base, batch.ops)]
      ensures old(IsLog()) && isOpen && !ok ==> records == old(records) && |file| == |old(file)| + written
      ensures old(IsLog()) && isOpen && !ok ==> file <= EncodeLog(records + [Batch(base, batch.ops)])
    {
      hide EncodeOps, Checksum, Fixed32, Fixed64, EncodeRecords, OpsFit;
      if !isOpen { return false; }
      if batch.count == 0 { return true; }
      ghost var r := Batch(base, batch.ops);
      var payload := Fixed64(base) + Fixed32(batch.count) + batch.rep;
      var scratch := Fixed32(Checksum(payload)) + Fixed32(|payload|) + payload;
      assert scratch == EncodeRecord(r);
      RecordsAppend(records, r);
      assert IsLog() ==> EncodeLog(records + [r]) == file + scratch;
      file := file + scratch[..written];
      ok := written == |scratch|;
      if ok {
        assert scratch[..written] == scratch;
        records := records + [r];
      }
    }
  }

  lemma EmptyLog()
    ensures EncodeLog([]) == HEADER
  {
  }
}
