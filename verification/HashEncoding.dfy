/**
 * The byte stream behind every hash of the ledger: each field preceded by its length as four
 * big-endian bytes, the length truncated to 32 bits as Go's conversion truncates it.
 */
module HashEncoding {
  import opened Wrappers

  type Byte = b: int | 0 <= b < 256
  type Bytes = seq<Byte>

  const WORD := 0x1_0000_0000
  const PREFIX := 4

  /** The `k` low bytes of a number, most significant first. */
  function BigEndian(w: nat, k: nat): (r: Bytes)
    ensures |r| == k
  {
    if k == 0 then [] else BigEndian(w / 256, k - 1) + [w % 256]
  }

  function Value(bs: Bytes): nat {
    if bs == [] then 0 else Value(bs[..|bs| - 1]) * 256 + bs[|bs| - 1]
  }

  function Power(k: nat): (p: nat)
    ensures p > 0
  {
    if k == 0 then 1 else 256 * Power(k - 1)
  }

  lemma {:induction false} ValueBound(bs: Bytes)
    ensures Value(bs) < Power(|bs|)
  {
    if bs != [] {
      ValueBound(bs[..|bs| - 1]);
    }
  }

  lemma {:induction false} ValueOfBigEndian(w: nat, k: nat)
    requires w < Power(k)
    ensures Value(BigEndian(w, k)) == w
  {
    if k > 0 {
      ValueOfBigEndian(w / 256, k - 1);
      var bs := BigEndian(w, k);
      assert bs[..k - 1] == BigEndian(w / 256, k - 1) && bs[k - 1] == w % 256;
    }
  }

  lemma {:induction false} BigEndianOfValue(bs: Bytes)
    ensures BigEndian(Value(bs), |bs|) == bs
  {
    if bs != [] {
      var n := |bs| - 1;
      BigEndianOfValue(bs[..n]);
      var q: nat, r: int := Value(bs[..n]), bs[n];
      assert (q * 256 + r) / 256 == q && (q * 256 + r) % 256 == r;
      assert bs == bs[..n] + [bs[n]];
    }
  }

  lemma {:induction false} WordIsFourBytes()
    ensures Power(PREFIX) == WORD
  {
  }

  function Field(data: Bytes): Bytes { BigEndian(|data| % WORD, PREFIX) + data }

  function Encode(fields: seq<Bytes>): Bytes {
    if fields == [] then [] else Field(fields[0]) + Encode(fields[1..])
  }

  /** Reads length-prefixed fields until the stream ends; None when it ends inside one. */
  function Decode(stream: Bytes): Option<seq<Bytes>>
    decreases |stream|
  {
    if stream == [] then Some([])
    else if |stream| < PREFIX then None
    else
      var n := Value(stream[..PREFIX]);
      if |stream| < PREFIX + n then None
      else match Decode(stream[PREFIX + n..])
        case None => None
        case Some(rest) => Some([stream[PREFIX..PREFIX + n]] + rest)
  }

  predicate Short(fields: seq<Bytes>) { forall i :: 0 <= i < |fields| ==> |fields[i]| < WORD }

  lemma {:induction false} DecodeStep(head: Bytes, data: Bytes, rest: Bytes)
    requires |head| == PREFIX && Value(head) == |data|
    ensures Decode(rest).Some? ==> Decode(head + data + rest) == Some([data] + Decode(rest).value)
  {
    var stream := head + data + rest;
    assert stream[..PREFIX] == head;
    assert stream[PREFIX..PREFIX + |data|] == data;
    assert stream[PREFIX + |data|..] == rest;
  }

  lemma {:induction false} DecodeField(data: Bytes, rest: Bytes)
    requires |data| < WORD && Decode(rest).Some?
    ensures Decode(Field(data) + rest) == Some([data] + Decode(rest).value)
  {
    WordIsFourBytes();
    assert |data| % WORD == |data|;
    ValueOfBigEndian(|data|, PREFIX);
    DecodeStep(BigEndian(|data|, PREFIX), data, rest);
  }

  /** Decoding what was written gives the fields back. */
  lemma {:induction false} DecodeEncode(fields: seq<Bytes>)
    requires Short(fields)
    ensures Decode(Encode(fields)) == Some(fields)
  {
    if fields != [] {
      var rest := Encode(fields[1..]);
      DecodeEncode(fields[1..]);
      DecodeField(fields[0], rest);
      assert [fields[0]] + fields[1..] == fields;
    }
  }

  /** A header and that many bytes are the field they came from. */
  lemma {:induction false} FieldOfSlices(head: Bytes, data: Bytes)
    requires |head| == PREFIX && Value(head) == |data|
    ensures |data| < WORD && Field(data) == head + data
  {
    WordIsFourBytes();
    ValueBound(head);
    BigEndianOfValue(head);
    assert |data| % WORD == |data|;
  }

  lemma {:induction false} EncodeOneMore(head: Bytes, data: Bytes, rest: Bytes, fields: seq<Bytes>)
    requires |head| == PREFIX && Value(head) == |data| && Short(fields) && Encode(fields) == rest
    ensures Short([data] + fields) && Encode([data] + fields) == head + data + rest
  {
    FieldOfSlices(head, data);
    assert ([data] + fields)[1..] == fields;
  }

  /** A non-empty stream that decodes is a header, that many bytes, and a stream that decodes. */
  lemma {:induction false} DecodeSplits(stream: Bytes) returns (head: Bytes, data: Bytes, rest: Bytes)
    requires stream != [] && Decode(stream).Some?
    ensures |head| == PREFIX && Value(head) == |data| && stream == head + data + rest && |rest| < |stream|
    ensures Decode(rest).Some? && Decode(stream).value == [data] + Decode(rest).value
  {
    var n := Value(stream[..PREFIX]);
    head, data, rest := stream[..PREFIX], stream[PREFIX..PREFIX + n], stream[PREFIX + n..];
  }

  /** Every stream that decodes is the encoding of exactly what it decodes to. */
  lemma {:induction false} EncodeDecode(stream: Bytes)
    requires Decode(stream).Some?
    ensures Short(Decode(stream).value) && Encode(Decode(stream).value) == stream
    decreases |stream|
  {
    if stream != [] {
      var head, data, rest := DecodeSplits(stream);
      EncodeDecode(rest);
      EncodeOneMore(head, data, rest, Decode(rest).value);
    }
  }

  /** Two short field lists have the same stream exactly when they are the same list. */
  lemma {:induction false} SameStreamIff(xs: seq<Bytes>, ys: seq<Bytes>)
    requires Short(xs) && Short(ys)
    ensures Encode(xs) == Encode(ys) <==> xs == ys
  {
    DecodeEncode(xs);
    DecodeEncode(ys);
  }

  function Zeros(n: nat): (z: Bytes)
    ensures |z| == n && forall i :: 0 <= i < n ==> z[i] == 0
  {
    seq(n, i => 0)
  }

  function Empties(n: nat): (fields: seq<Bytes>)
    ensures |fields| == n && forall i :: 0 <= i < n ==> fields[i] == []
  {
    seq(n, i => [])
  }

  lemma {:induction false} ZeroBytes(k: nat)
    ensures BigEndian(0, k) == Zeros(k)
  {
    if k > 0 {
      ZeroBytes(k - 1);
    }
  }

  lemma {:induction false} EmptiesEncode(n: nat)
    ensures Encode(Empties(n)) == Zeros(4 * n)
  {
    if n > 0 {
      EmptiesEncode(n - 1);
      assert Empties(n)[1..] == Empties(n - 1);
      ZeroBytes(PREFIX);
      assert Field([]) == Zeros(4);
    }
  }

  /** The bound is needed: a field of 2^32 zero bytes has the stream of 2^30 + 1 empty fields. */
  lemma {:induction false} LongFieldsCollide()
    ensures Encode([Zeros(WORD)]) == Encode(Empties(0x4000_0001))
  {
    EmptiesEncode(0x4000_0001);
    ZeroBytes(PREFIX);
    assert [Zeros(WORD)][1..] == [] && Encode([Zeros(WORD)]) == Zeros(4) + Zeros(WORD);
  }

  // ----- writing to a hash -----

  lemma {:induction false} FourBytes(w: nat)
    ensures BigEndian(w, PREFIX) == [w / 256 / 256 / 256 % 256, w / 256 / 256 % 256, w / 256 % 256, w % 256]
  {
    var w1 := w / 256;
    var w2 := w1 / 256;
    var w3 := w2 / 256;
    assert BigEndian(w3, 1) == [] + [w3 % 256];
    assert BigEndian(w2, 2) == BigEndian(w3, 1) + [w2 % 256];
    assert BigEndian(w1, 3) == BigEndian(w2, 2) + [w1 % 256];
  }

  /** The stream a hash object has been given. */
  class HashWriter {
    var written: Bytes

    constructor ()
      ensures written == []
    {
      written := [];
    }

    method Write(data: Bytes)
      modifies this
      ensures written == old(written) + data
    {
      written := written + data;
    }

    method WriteField(data: Bytes)
      modifies this
      ensures written == old(written) + Field(data)
    {
      var w := |data| % WORD;
      FourBytes(w);
      Write([w / 256 / 256 / 256 % 256, w / 256 / 256 % 256, w / 256 % 256, w % 256]);
      Write(data);
    }
  }

  lemma {:induction false} EncodeConcat(xs: seq<Bytes>, ys: seq<Bytes>)
    ensures Encode(xs + ys) == Encode(xs) + Encode(ys)
  {
    if xs == [] {
      assert xs + ys == ys;
    } else {
      assert (xs + ys)[1..] == xs[1..] + ys;
      EncodeConcat(xs[1..], ys);
    }
  }

  lemma {:induction false} EncodeLast(xs: seq<Bytes>, x: Bytes)
    ensures Encode(xs + [x]) == Encode(xs) + Field(x)
  {
    EncodeConcat(xs, [x]);
    assert [x][1..] == [] && Encode([x]) == Field(x);
  }

  method GenericIdempotencyStream(fields: seq<Bytes>) returns (stream: Bytes)
    ensures stream == Encode(fields)
  {
    var h := new HashWriter();
    for i := 0 to |fields|
      invariant h.written == Encode(fields[..i])
    {
      assert fields[..i + 1] == fields[..i] + [fields[i]];
      EncodeLast(fields[..i], fields[i]);
      h.WriteField(fields[i]);
    }
    assert fields[..|fields|] == fields;
    return h.written;
  }
}
