/**
 * The bytes behind a root: what is hashed for a leaf and for an inner node, and the root by its
 * levels, without the functions the other theorems are stated in.
 */
module MerkleBytes {
  import opened Wrappers
  import opened HashEncoding
  import opened Merkle

  /** The four bytes of a length, most significant first. */
  predicate LengthBytes(bs: Bytes, n: nat) {
    bs == [n / 0x100_0000 % 0x100, n / 0x1_0000 % 0x100, n / 0x100 % 0x100, n % 0x100]
  }

  lemma {:induction false} QuotientsOfWord(n: nat)
    ensures n / 256 / 256 == n / 0x1_0000 && n / 256 / 256 / 256 == n / 0x100_0000
  {
  }

  /** A field is its length in four bytes, then its data. */
  lemma {:induction false} FieldBytes(data: Bytes, length: Bytes)
    requires |data| < 0x1_0000_0000 && LengthBytes(length, |data|)
    ensures Field(data) == length + data
  {
    FourBytes(|data|);
    QuotientsOfWord(|data|);
  }

  lemma {:induction false} EncodeOfFour(a: Bytes, b: Bytes, c: Bytes, d: Bytes)
    ensures Encode([a, b, c, d]) == Field(a) + Field(b) + Field(c) + Field(d)
  {
    assert [a, b, c, d][1..] == [b, c, d] && [b, c, d][1..] == [c, d] && [c, d][1..] == [d] && [d][1..] == [];
    assert Encode([d]) == Field(d) + [];
    assert Encode([c, d]) == Field(c) + Field(d);
  }

  lemma {:induction false} TwoBytes(w: nat)
    ensures BigEndian(w, 2) == [w / 256 % 256, w % 256]
  {
    assert BigEndian(w / 256, 1) == [] + [w / 256 % 256];
  }

  lemma {:induction false} CodeModulo(kind: Int16, w: nat)
    requires w == if kind < 0 then kind + 0x1_0000 else kind
    ensures kind % 0x1_0000 == w && w / 256 % 256 == w / 256
  {
    assert w / 256 < 256;
  }

  /** The type code modulo 2^16, high byte first. */
  lemma {:induction false} TypeIs(kind: Int16)
    ensures TypeBytes(kind) == [kind % 0x1_0000 / 256, kind % 0x1_0000 % 256]
  {
    var w := if kind < 0 then kind + 0x1_0000 else kind;
    CodeModulo(kind, w);
    TwoBytes(w);
  }

  lemma {:induction false} LeafInFields(e: Event)
    ensures LeafInput(e) == [0] + (Field(e.id) + Field(e.time) + Field(TypeBytes(e.kind)) + Field(e.payload))
  {
    EncodeOfFour(e.id, e.time, TypeBytes(e.kind), e.payload);
  }

  /** A leaf hashes a zero byte, then ID, time, the two bytes of the type code and the payload, each after its length. */
  lemma {:induction false} LeafBytes(e: Event, idLength: Bytes, timeLength: Bytes, payloadLength: Bytes)
    requires e.Valid() && LengthBytes(idLength, |e.id|) && LengthBytes(timeLength, |e.time|) && LengthBytes(payloadLength, |e.payload|)
    ensures var kind := [e.kind % 0x1_0000 / 256, e.kind % 0x1_0000 % 256];
      LeafInput(e) == [0] + ((idLength + e.id) + (timeLength + e.time) + ([0, 0, 0, 2] + kind) + (payloadLength + e.payload))
  {
    FieldBytes(e.id, idLength);
    FieldBytes(e.time, timeLength);
    FieldBytes(TypeBytes(e.kind), [0, 0, 0, 2]);
    FieldBytes(e.payload, payloadLength);
    LeafInFields(e);
    TypeIs(e.kind);
  }

  /** The root of an empty list, and of one leaf. */
  lemma {:induction false} RootOfFew(h: HashFunction, a: Digest)
    ensures Root(h, []) == None && Root(h, [a]) == Some(a)
  {
  }

  lemma {:induction false} HalfIs(n: nat)
    ensures Half(n) == (n + 1) / 2
  {
  }

  /** The nodes above a level: each hashes a one byte, the left child and the right one, which at an odd end is the left one again. */
  ghost predicate Above(h: HashFunction, level: seq<Digest>, above: seq<Digest>) {
    |above| == (|level| + 1) / 2
    && forall i :: 0 <= i < |above| ==>
      above[i] == h([1] + level[2 * i].bytes + (if 2 * i + 1 < |level| then level[2 * i + 1] else level[2 * i]).bytes)
  }

  /** Of two or more nodes the root is that of the nodes above them. */
  lemma {:induction false} RootByLevels(h: HashFunction, level: seq<Digest>, above: seq<Digest>)
    requires |level| >= 2 && Above(h, level, above)
    ensures Root(h, level) == Root(h, above)
  {
    HalfIs(|level|);
    forall i | 0 <= i < |above|
      ensures above[i] == NextLevel(h, level)[i]
    {
      assert 2 * i + 1 < |level| || 2 * i == |level| - 1;
    }
    assert above == NextLevel(h, level);
  }

  /** So of two leaves it is one hash, left leaf first. */
  lemma {:induction false} RootOfTwo(h: HashFunction, a: Digest, b: Digest)
    ensures Root(h, [a, b]) == Some(h([1] + a.bytes + b.bytes))
  {
    var top := h([1] + a.bytes + b.bytes);
    assert Above(h, [a, b], [top]);
    RootByLevels(h, [a, b], [top]);
    RootOfFew(h, top);
  }

  /** And of three the third is doubled. */
  lemma {:induction false} RootOfThree(h: HashFunction, a: Digest, b: Digest, c: Digest)
    ensures Root(h, [a, b, c]) == Some(h([1] + h([1] + a.bytes + b.bytes).bytes + h([1] + c.bytes + c.bytes).bytes))
  {
    var p, q := h([1] + a.bytes + b.bytes), h([1] + c.bytes + c.bytes);
    assert Above(h, [a, b, c], [p, q]);
    RootByLevels(h, [a, b, c], [p, q]);
    RootOfTwo(h, p, q);
  }
}
