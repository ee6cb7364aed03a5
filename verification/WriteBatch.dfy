/** Write batches, after src/write_batch.cpp: a byte string of encoded operations and a
    count, which the log embeds in one record. */
module WriteBatches {
  import opened ByteStrings
  import opened Coding
  import opened InternalKeys

  datatype Op = Op(kind: Kind, key: Bytes, value: Bytes)

  /** Lengths are stored as 32-bit varints. */
  predicate OpFits(op: Op) {
    |op.key| < TWO32 && |op.value| < TWO32
  }

  predicate OpsFit(ops: seq<Op>) {
    forall i :: 0 <= i < |ops| ==> OpFits(ops[i])
  }

  function EncodeOp(op: Op): (r: Bytes)
    ensures |r| >= 1
  {
    [KindByte(op.kind)] + Varint(|op.key|) + op.key + Varint(|op.value|) + op.value
  }

  function EncodeOps(ops: seq<Op>): Bytes {
    if ops == [] then [] else EncodeOp(ops[0]) + EncodeOps(ops[1..])
  }

  lemma {:induction false} EncodeAppend(a: seq<Op>, b: seq<Op>)
    ensures EncodeOps(a + b) == EncodeOps(a) + EncodeOps(b)
    decreases |a|
  {
    if a == [] {
      assert a + b == b;
    } else {
      assert (a + b)[1..] == a[1..] + b;
      EncodeAppend(a[1..], b);
    }
  }

  lemma FitsMore(ops: seq<Op>, op: Op)
    requires OpsFit(ops) && |op.key| < TWO32 && |op.value| < TWO32
    ensures OpsFit(ops + [op])
  {
  }

  // ---------------------------------------------------------------- decoding

  datatype DecodeError = EndedEarly | UnknownType | TruncatedKey | TruncatedValue | TrailingBytes

  /** One operation at `p` and the offset after it, or what is wrong with it. */
  datatype Parsed = Parsed(op: Op, next: nat) | Bad(error: DecodeError)

  function ParseOp(s: Bytes, p: nat): (r: Parsed)
    requires p <= |s|
    ensures r.Parsed? ==> p < r.next <= |s|
  {
    if p >= |s| then Bad(EndedEarly)
    else if s[p] != 0 && s[p] != 1 then Bad(UnknownType)
    else
      var kind := if s[p] == 1 then Value else Deletion;
      match GetVarint(s, p + 1, |s|)
      case None => Bad(TruncatedKey)
      case Some((keyLen, q)) =>
        GetVarintBounds(s, p + 1, |s|);
        if |s| - q < keyLen then Bad(TruncatedKey)
        else
          match GetVarint(s, q + keyLen, |s|)
          case None => Bad(TruncatedValue)
          case Some((valueLen, r)) =>
            GetVarintBounds(s, q + keyLen, |s|);
            if |s| - r < valueLen then Bad(TruncatedValue)
            else Parsed(Op(kind, s[q..q + keyLen], s[r..r + valueLen]), r + valueLen)
  }

  lemma {:induction false} GetVarintFromBounds(s: Bytes, p: nat, limit: nat, i: nat, acc: nat)
    requires limit <= |s|
    ensures GetVarintFrom(s, p, limit, i, acc).Some? ==> p < GetVarintFrom(s, p, limit, i, acc).value.1 <= limit
    decreases 5 - i
  {
    if i < 5 && p < limit { GetVarintFromBounds(s, p + 1, limit, i + 1, acc + Shifted(s[p], i)); }
  }

  lemma GetVarintBounds(s: Bytes, p: nat, limit: nat)
    requires limit <= |s|
    ensures GetVarint(s, p, limit).Some? ==> p < GetVarint(s, p, limit).value.1 <= limit
  {
    GetVarintFromBounds(s, p, limit, 0, 0);
  }

  /** What a decoder hands over, and how it ended. */
  datatype Decoded = Decoded(ops: seq<Op>, error: Option<DecodeError>)

  function DecodeFrom(s: Bytes, p: nat, count: nat): Decoded
    requires p <= |s|
    decreases count
  {
    if count == 0 then Decoded([], if p != |s| then Some(TrailingBytes) else None)
    else
      match ParseOp(s, p)
      case Bad(error) => Decoded([], Some(error))
      case Parsed(op, next) =>
        var rest := DecodeFrom(s, next, count - 1);
        Decoded([op] + rest.ops, rest.error)
  }

  function Decode(s: Bytes, count: nat): Decoded {
    DecodeFrom(s, 0, count)
  }

  /** WriteBatch::Decode: operations are handed over one at a time as they parse. */
  method DecodeBatch(s: Bytes, count: nat) returns (r: Decoded)
    ensures r == Decode(s, count)
  {
    hide ParseOp;
    var p, ops := 0, [];
    for i := 0 to count
      invariant p <= |s|
      invariant var rest := DecodeFrom(s, p, count - i);
        Decode(s, count) == Decoded(ops + rest.ops, rest.error)
    {
      match ParseOp(s, p) {
        case Bad(error) =>
          return Decoded(ops, Some(error));
        case Parsed(op, next) =>
          assert ops + ([op] + DecodeFrom(s, next, count - i - 1).ops)
            == (ops + [op]) + DecodeFrom(s, next, count - i - 1).ops;
          p, ops := next, ops + [op];
      }
    }
    if p != |s| { return Decoded(ops, Some(TrailingBytes)); }
    return Decoded(ops, None);
  }

  /** An encoded operation parses back, wherever it stands. */
  lemma ParseRoundTrip(s: Bytes, p: nat, op: Op)
    requires OpFits(op) && Holds(s, p, EncodeOp(op))
    ensures ParseOp(s, p) == Parsed(op, p + |EncodeOp(op)|)
  {
    hide GetVarint, Varint;
    var tag, k, v := [KindByte(op.kind)], Varint(|op.key|), Varint(|op.value|);
    HoldsFive(s, p, tag, k, op.key, v, op.value);
    assert |EncodeOp(op)| == 1 + |k| + |op.key| + |v| + |op.value|;
    hide EncodeOp;
    assert s[p] == s[p..p + 1][0] == KindByte(op.kind);
    VarintRoundTrip(s, p + 1, |s|, |op.key|);
    VarintRoundTrip(s, p + 1 + |k| + |op.key|, |s|, |op.value|);
  }

  lemma {:induction false} DecodeFromRoundTrip(s: Bytes, p: nat, ops: seq<Op>)
    requires OpsFit(ops) && p <= |s| && s[p..] == EncodeOps(ops)
    ensures DecodeFrom(s, p, |ops|) == Decoded(ops, None)
    decreases |ops|
  {
    hide ParseOp, EncodeOp;
    if ops != [] {
      var n := |EncodeOp(ops[0])|;
      assert s[p..p + n] == s[p..][..n];
      assert s[p + n..] == s[p..][n..];
      ParseRoundTrip(s, p, ops[0]);
      DecodeFromRoundTrip(s, p + n, ops[1..]);
    }
  }

  /** Decoding an encoded batch delivers exactly its operations, in order. */
  lemma BatchRoundTrip(ops: seq<Op>)
    requires OpsFit(ops)
    ensures Decode(EncodeOps(ops), |ops|) == Decoded(ops, None)
  {
    var s := EncodeOps(ops);
    assert s[0..] == s;
    DecodeFromRoundTrip(s, 0, ops);
  }

  // ------------------------------------------------------------------ batches

  class WriteBatch {
    var rep: Bytes
    var count: nat
    ghost var ops: seq<Op>

    ghost predicate Valid()
      reads this
    {
      rep == EncodeOps(ops) && count == |ops| && OpsFit(ops)
    }

    constructor ()
      ensures Valid() && ops == []
    {
      rep, count, ops := [], 0, [];
    }

    method Add(kind: Kind, key: Bytes, value: Bytes)
      requires Valid() && |key| < TWO32 && |value| < TWO32
      modifies this
      ensures Valid() && ops == old(ops) + [Op(kind, key, value)]
    {
      hide Varint, OpFits;
      ghost var op := Op(kind, key, value);
      FitsMore(ops, op);
      EncodeAppend(ops, [op]);
      assert EncodeOps([op]) == EncodeOp(op) + EncodeOps([]);
      var dst := rep + [KindByte(kind)];
      dst := PutVarint32(dst, |key|);
      dst := dst + key;
      dst := PutVarint32(dst, |value|);
      dst := dst + value;
      assert dst == rep + EncodeOp(op);
      rep, count, ops := dst, count + 1, ops + [op];
    }

    method Put(key: Bytes, value: Bytes)
      requires Valid() && |key| < TWO32 && |value| < TWO32
      modifies this
      ensures Valid() && ops == old(ops) + [Op(Kind.Value, key, value)]
    {
      Add(Kind.Value, key, value);
    }

    method Delete(key: Bytes)
      requires Valid() && |key| < TWO32
      modifies this
      ensures Valid() && ops == old(ops) + [Op(Deletion, key, [])]
    {
      Add(Deletion, key, []);
    }

    /** Folding another caller's batch in keeps both orders. */
    method Append(other: WriteBatch)
      requires Valid() && other.Valid()
      modifies this
      ensures Valid() && ops == old(ops) + old(other.ops)
    {
      EncodeAppend(ops, other.ops);
      rep, count, ops := rep + other.rep, count + other.count, ops + other.ops;
    }

    method ForEach() returns (r: Decoded)
      requires Valid()
      ensures r == Decoded(ops, None)
    {
      BatchRoundTrip(ops);
      r := DecodeBatch(rep, count);
    }
  }
}
