/**
 * The Merkle root of a batch: leaves under prefix 0x00, inner nodes under 0x01, levels paired
 * from the left with the last node of an odd level doubled. The hash is any function to 32 bytes;
 * the binding theorem asks only that it has no collision among the strings actually hashed.
 */
module Merkle {
  import opened Wrappers
  import opened HashEncoding

  type Bytes32 = d: Bytes | |d| == 32 witness seq(32, i => 0)
  datatype Digest = Digest(bytes: Bytes32)
  type HashFunction = Bytes -> Digest

  const LEAF: Bytes := [0]
  const NODE: Bytes := [1]

  type Int16 = k: int | -0x8000 <= k < 0x8000

  /** An event of the log: its identifier, formatted time and payload as bytes, and its type code. */
  datatype Event = Event(id: Bytes, time: Bytes, kind: Int16, payload: Bytes)
  {
    predicate Valid() { |id| < WORD && |time| < WORD && |payload| < WORD }
  }

  /** The code converted to an unsigned 16-bit integer, big-endian. */
  function TypeBytes(kind: Int16): Bytes { BigEndian(if kind < 0 then kind + 0x1_0000 else kind, 2) }

  function LeafInput(e: Event): Bytes { LEAF + Encode([e.id, e.time, TypeBytes(e.kind), e.payload]) }

  function Leaves(h: HashFunction, es: seq<Event>): (r: seq<Digest>)
    ensures |r| == |es| && forall i :: 0 <= i < |es| ==> r[i] == h(LeafInput(es[i]))
  {
    seq(|es|, i requires 0 <= i < |es| => h(LeafInput(es[i])))
  }

  function NodeInput(left: Digest, right: Digest): Bytes { NODE + left.bytes + right.bytes }

  // ----- levels -----

  /** The node at `i`, or the last node where an odd level ends. */
  function Right(level: seq<Digest>, i: nat): Digest
    requires level != []
  {
    if i < |level| then level[i] else level[|level| - 1]
  }

  function PairInput(level: seq<Digest>, i: nat): Bytes
    requires 2 * i < |level|
  {
    NodeInput(level[2 * i], Right(level, 2 * i + 1))
  }

  /** Half of `n`, rounded up. */
  function Half(n: nat): (m: nat)
    ensures n <= 2 * m <= n + 1
  {
    if n < 2 then n else 1 + Half(n - 2)
  }

  function NextLevel(h: HashFunction, level: seq<Digest>): (r: seq<Digest>)
    ensures |r| == Half(|level|) && forall i :: 0 <= i < |r| ==> r[i] == h(PairInput(level, i))
  {
    seq(Half(|level|), i requires 0 <= i < Half(|level|) => h(PairInput(level, i)))
  }

  /** `k` levels up. */
  function Up(h: HashFunction, level: seq<Digest>, k: nat): (r: seq<Digest>)
    ensures level != [] ==> r != []
  {
    if k == 0 then level else NextLevel(h, Up(h, level, k - 1))
  }

  /** How many levels there are above one of `n` nodes. */
  function Height(n: nat): nat { if n <= 1 then 0 else 1 + Height(Half(n)) }

  /** The node left when a level has been halved down to one. */
  function Top(h: HashFunction, level: seq<Digest>): Digest
    requires level != []
    decreases |level|
  {
    if |level| == 1 then level[0] else Top(h, NextLevel(h, level))
  }

  /** The root: none for no leaves, a single leaf itself, else the top. */
  function Root(h: HashFunction, leaves: seq<Digest>): Option<Digest> {
    if leaves == [] then None else Some(Top(h, leaves))
  }

  lemma {:induction false} UpFromNext(h: HashFunction, level: seq<Digest>, k: nat)
    ensures Up(h, NextLevel(h, level), k) == Up(h, level, k + 1)
  {
    if k > 0 {
      UpFromNext(h, level, k - 1);
    }
  }

  /** The top is the one node at the height of the level. */
  lemma {:induction false} TopAtHeight(h: HashFunction, level: seq<Digest>)
    requires level != []
    ensures Up(h, level, Height(|level|)) == [Top(h, level)]
    decreases |level|
  {
    if |level| > 1 {
      TopAtHeight(h, NextLevel(h, level));
      UpFromNext(h, level, Height(|NextLevel(h, level)|));
    }
  }

  method ComputeRoot(h: HashFunction, leaves: seq<Digest>) returns (root: Option<Digest>)
    ensures root == Root(h, leaves)
  {
    if |leaves| == 0 { return None; }
    if |leaves| == 1 { return Some(leaves[0]); }
    var level := leaves;
    while |level| > 1
      invariant level != [] && Top(h, level) == Top(h, leaves)
      decreases |level|
    {
      ghost var above := NextLevel(h, level);
      var next: seq<Digest> := [];
      var i := 0;
      while i < |level|
        invariant i == 2 * |next| && |next| <= |above| && next == above[..|next|]
      {
        var left := level[i];
        var right := left;
        if i + 1 < |level| {
          right := level[i + 1];
        }
        assert right == Right(level, i + 1) && above[|next|] == h(PairInput(level, |next|));
        next := next + [h(NodeInput(left, right))];
        i := i + 2;
      }
      assert next == above;
      level := next;
    }
    return Some(level[0]);
  }

  method Verify(h: HashFunction, leaves: seq<Digest>, expected: Option<Digest>) returns (ok: bool)
    ensures ok <==> leaves != [] && Root(h, leaves) == expected
  {
    var computed := ComputeRoot(h, leaves);
    if computed.None? || expected.None? { return false; }
    return computed.value == expected.value;
  }

  // ----- the tree over a padded list -----

  function Pow2(k: nat): (p: nat)
    ensures p > 0
  {
    if k == 0 then 1 else 2 * Pow2(k - 1)
  }

  /** Where element `j` of a list of `n` padded to 2^k comes from: a half that is not full repeats itself. */
  function PadIndex(n: nat, k: nat, j: nat): (i: nat)
    requires n > 0
    ensures i < n
  {
    if k == 0 then 0
    else
      var half := Pow2(k - 1);
      if j < half then if n <= half then PadIndex(n, k - 1, j) else j
      else if n <= half then PadIndex(n, k - 1, j - half)
      else half + PadIndex(n - half, k - 1, j - half)
  }

  lemma {:induction false} PadIndexSame(n: nat, k: nat, j: nat)
    requires j < n <= Pow2(k)
    ensures PadIndex(n, k, j) == j
  {
    if k > 0 {
      var half := Pow2(k - 1);
      if n <= half {
        PadIndexSame(n, k - 1, j);
      } else if j >= half {
        PadIndexSame(n - half, k - 1, j - half);
      }
    }
  }

  /** A list padded to 2^k elements. */
  function Pad<T>(xs: seq<T>, k: nat): (r: seq<T>)
    requires xs != []
    ensures |r| == Pow2(k)
  {
    seq(Pow2(k), j requires 0 <= j < Pow2(k) => xs[PadIndex(|xs|, k, j)])
  }

  lemma {:induction false} PadIndexZero(n: nat, k: nat)
    requires n > 0
    ensures PadIndex(n, k, 0) == 0
  {
    if k > 0 && n <= Pow2(k - 1) {
      PadIndexZero(n, k - 1);
    }
  }

  lemma {:induction false} PadKeeps<T>(xs: seq<T>, k: nat)
    requires 0 < |xs| <= Pow2(k)
    ensures xs <= Pad(xs, k)
  {
    forall j | 0 <= j < |xs|
      ensures Pad(xs, k)[j] == xs[j]
    {
      PadIndexSame(|xs|, k, j);
    }
  }

  /** The root of the perfect tree over 2^k leaves, by halves. */
  function Perfect(h: HashFunction, ys: seq<Digest>, k: nat): Digest
    requires |ys| == Pow2(k)
  {
    if k == 0 then ys[0]
    else h(NodeInput(Perfect(h, ys[..Pow2(k - 1)], k - 1), Perfect(h, ys[Pow2(k - 1)..], k - 1)))
  }

  lemma {:induction false} NextConcat(h: HashFunction, a: seq<Digest>, b: seq<Digest>, p: nat)
    requires |a| == 2 * p
    ensures NextLevel(h, a + b) == NextLevel(h, a) + NextLevel(h, b) && |NextLevel(h, a)| == p
  {
    var all := a + b;
    assert Half(|a|) == p && Half(|all|) == p + Half(|b|);
    forall i | 0 <= i < Half(|all|)
      ensures NextLevel(h, all)[i] == (NextLevel(h, a) + NextLevel(h, b))[i]
    {
      if i < p {
        assert PairInput(all, i) == PairInput(a, i);
      } else {
        assert PairInput(all, i) == PairInput(b, i - p);
      }
    }
  }

  lemma {:induction false} UpConcat(h: HashFunction, a: seq<Digest>, b: seq<Digest>, m: nat, j: nat)
    requires |a| == Pow2(m) && j <= m
    ensures Up(h, a + b, j) == Up(h, a, j) + Up(h, b, j) && |Up(h, a, j)| == Pow2(m - j)
  {
    if j > 0 {
      UpConcat(h, a, b, m, j - 1);
      assert Pow2(m - (j - 1)) == 2 * Pow2(m - j);
      NextConcat(h, Up(h, a, j - 1), Up(h, b, j - 1), Pow2(m - j));
    }
  }

  lemma {:induction false} NextOfTwo(h: HashFunction, p: Digest, q: Digest)
    ensures NextLevel(h, [p, q]) == [h(NodeInput(p, q))]
  {
    assert PairInput([p, q], 0) == NodeInput(p, q);
  }

  lemma {:induction false} UpOfHalves(h: HashFunction, a: seq<Digest>, b: seq<Digest>, k: nat, p: Digest, q: Digest)
    requires |a| == Pow2(k) && Up(h, a, k) == [p] && Up(h, b, k) == [q]
    ensures Up(h, a + b, k + 1) == [h(NodeInput(p, q))]
  {
    UpConcat(h, a, b, k, k);
    assert [p] + [q] == [p, q];
    NextOfTwo(h, p, q);
  }

  /** Over a full list, building levels from the left is the perfect tree by halves. */
  lemma {:induction false} UpIsPerfect(h: HashFunction, ys: seq<Digest>, k: nat)
    requires |ys| == Pow2(k)
    ensures Up(h, ys, k) == [Perfect(h, ys, k)]
  {
    if k > 0 {
      var a, b := ys[..Pow2(k - 1)], ys[Pow2(k - 1)..];
      assert ys == a + b;
      UpIsPerfect(h, a, k - 1);
      UpIsPerfect(h, b, k - 1);
      UpOfHalves(h, a, b, k - 1, Perfect(h, a, k - 1), Perfect(h, b, k - 1));
    }
  }

  lemma {:induction false} HalfBound(n: nat, m: nat)
    requires 0 < n <= 2 * m
    ensures 0 < Half(n) <= m
  {
  }

  /** An index, the last one in place of one past it. */
  function LastDoubled(n: nat, i: nat): nat
    requires n > 0
  {
    if i < n then i else n - 1
  }

  /** The pair of the list that pair `j` of the padded list repeats. */
  ghost predicate PairFrom(n: nat, m: nat, k: nat, j: nat)
    requires n > 0 && m > 0
  {
    var i := PadIndex(m, k, j);
    && PadIndex(n, k + 1, 2 * j) == 2 * i
    && PadIndex(n, k + 1, 2 * j + 1) == LastDoubled(n, 2 * i + 1)
  }

  lemma {:induction false} PairInShortHalf(n: nat, m: nat, k: nat, p: nat, j: nat)
    requires p == Pow2(k) && Pow2(k + 1) == 2 * p && 0 < n <= 2 * p && 0 < m <= p && n <= 2 * m <= n + 1 && j < 2 * p
    requires PairFrom(n, m, k, if j < p then j else j - p)
    ensures PairFrom(n, m, k + 1, j)
  {
    var j' := if j < p then j else j - p;
    assert PadIndex(m, k + 1, j) == PadIndex(m, k, j');
    assert PadIndex(n, k + 2, 2 * j) == PadIndex(n, k + 1, 2 * j');
    assert PadIndex(n, k + 2, 2 * j + 1) == PadIndex(n, k + 1, 2 * j' + 1);
  }

  lemma {:induction false} IndexInRightHalf(n: nat, k: nat, half: nat, j: nat)
    requires half == Pow2(k) && half < n && half <= j
    ensures PadIndex(n, k + 1, j) == half + PadIndex(n - half, k, j - half)
  {
  }

  lemma {:induction false} PairInRightHalf(n: nat, m: nat, k: nat, p: nat, j: nat)
    requires p == Pow2(k) && Pow2(k + 1) == 2 * p && 2 * p < n <= 4 * p && p < m && n <= 2 * m <= n + 1 && p <= j < 2 * p
    requires PairFrom(n - 2 * p, m - p, k, j - p)
    ensures PairFrom(n, m, k + 1, j)
  {
    IndexInRightHalf(m, k, p, j);
    IndexInRightHalf(n, k + 1, 2 * p, 2 * j);
    IndexInRightHalf(n, k + 1, 2 * p, 2 * j + 1);
  }

  lemma {:induction false} PairBelowHalf(n: nat, m: nat, k: nat, p: nat, j: nat)
    requires p == Pow2(k) && Pow2(k + 1) == 2 * p && 2 * p < n && p < m && j < p
    ensures PairFrom(n, m, k + 1, j)
  {
    assert PadIndex(m, k + 1, j) == j;
    assert PadIndex(n, k + 2, 2 * j) == 2 * j;
    assert PadIndex(n, k + 2, 2 * j + 1) == 2 * j + 1;
  }

  lemma {:induction false} PairOfOne(n: nat, m: nat)
    requires 0 < n <= 2 && m == 1
    ensures PairFrom(n, m, 0, 0)
  {
    assert Pow2(0) == 1;
  }

  /** The two elements of a padded pair are those of a pair of the list, its last one doubled. */
  lemma {:induction false} PadPairIndex(n: nat, m: nat, k: nat, j: nat)
    requires 0 < n <= Pow2(k + 1) && m > 0 && n <= 2 * m <= n + 1 && j < Pow2(k)
    ensures PairFrom(n, m, k, j)
  {
    if k == 0 {
      PairOfOne(n, m);
    } else {
      var p := Pow2(k - 1);
      if n <= 2 * p {
        PadPairIndex(n, m, k - 1, if j < p then j else j - p);
        PairInShortHalf(n, m, k - 1, p, j);
      } else if j < p {
        PairBelowHalf(n, m, k - 1, p, j);
      } else {
        PadPairIndex(n - 2 * p, m - p, k - 1, j - p);
        PairInRightHalf(n, m, k - 1, p, j);
      }
    }
  }

  /** Padding adds no new pair. */
  lemma {:induction false} PadPair(a: seq<Digest>, k: nat, j: nat)
    requires 0 < |a| <= Pow2(k + 1) && j < Pow2(k)
    ensures 0 < Half(|a|) <= Pow2(k)
    ensures PairInput(Pad(a, k + 1), j) == PairInput(a, PadIndex(Half(|a|), k, j))
  {
    HalfBound(|a|, Pow2(k));
    PadPairIndex(|a|, Half(|a|), k, j);
  }

  /** The level above a padded one is the padded level above. */
  lemma {:induction false} PadNext(h: HashFunction, a: seq<Digest>, k: nat)
    requires 0 < |a| <= Pow2(k + 1)
    ensures 0 < Half(|a|) <= Pow2(k) && NextLevel(h, Pad(a, k + 1)) == Pad(NextLevel(h, a), k)
  {
    HalfBound(|a|, Pow2(k));
    assert Half(Pow2(k + 1)) == Pow2(k);
    forall j | 0 <= j < Pow2(k)
      ensures NextLevel(h, Pad(a, k + 1))[j] == Pad(NextLevel(h, a), k)[j]
    {
      PadPair(a, k, j);
    }
  }

  lemma {:induction false} PadKeepsUp(h: HashFunction, a: seq<Digest>, k: nat)
    requires 0 < |a| <= Pow2(k)
    ensures Up(h, Pad(a, k), k) == Up(h, a, k)
    decreases k
  {
    if k > 0 {
      PadNext(h, a, k - 1);
      PadKeepsUp(h, NextLevel(h, a), k - 1);
      UpFromNext(h, Pad(a, k), k - 1);
      UpFromNext(h, a, k - 1);
    }
  }

  lemma {:induction false} HeightIsLeast(n: nat)
    requires n > 0
    ensures n <= Pow2(Height(n))
    ensures Height(n) > 0 ==> Pow2(Height(n) - 1) < n
  {
    if n > 1 {
      HeightIsLeast(Half(n));
    }
  }

  /** A list padded to the next power of two. */
  function Padded<T>(xs: seq<T>): (r: seq<T>)
    requires xs != []
    ensures |r| == Pow2(Height(|xs|)) && xs <= r
  {
    HeightIsLeast(|xs|);
    PadKeeps(xs, Height(|xs|));
    Pad(xs, Height(|xs|))
  }

  /** The root is that of the perfect tree over the padded leaves. */
  lemma {:induction false} RootIsPerfectTree(h: HashFunction, xs: seq<Digest>)
    requires xs != []
    ensures Root(h, xs) == Some(Perfect(h, Padded(xs), Height(|xs|)))
  {
    HeightIsLeast(|xs|);
    TopAtHeight(h, xs);
    PadKeepsUp(h, xs, Height(|xs|));
    UpIsPerfect(h, Padded(xs), Height(|xs|));
  }

  // ----- binding -----

  ghost predicate DistinctIds(es: seq<Event>) { forall i, j :: 0 <= i < j < |es| ==> es[i].id != es[j].id }

  ghost predicate AllValid(es: seq<Event>) { forall i :: 0 <= i < |es| ==> es[i].Valid() }

  /** The strings hashed on the way to the root of a batch. */
  ghost predicate Hashed(h: HashFunction, es: seq<Event>, x: Bytes) {
    || (exists i :: 0 <= i < |es| && x == LeafInput(es[i]))
    || (exists k, i :: 0 <= k < Height(|es|) && 0 <= i < Half(|Up(h, Leaves(h, es), k)|)
          && x == PairInput(Up(h, Leaves(h, es), k), i))
  }

  ghost function HashedStrings(h: HashFunction, es: seq<Event>): iset<Bytes> { iset x: Bytes | Hashed(h, es, x) }

  ghost predicate NoCollision(h: HashFunction, s: iset<Bytes>) { forall x, y :: x in s && y in s && h(x) == h(y) ==> x == y }

  lemma {:induction false} TypeBytesDetermine(k: Int16, l: Int16)
    requires TypeBytes(k) == TypeBytes(l)
    ensures k == l
  {
    assert Power(2) == 256 * Power(1) && Power(1) == 256 * Power(0);
    ValueOfBigEndian(if k < 0 then k + 0x1_0000 else k, 2);
    ValueOfBigEndian(if l < 0 then l + 0x1_0000 else l, 2);
  }

  /** Leaf strings determine the event. */
  lemma {:induction false} LeafDetermines(e: Event, f: Event)
    requires e.Valid() && f.Valid() && LeafInput(e) == LeafInput(f)
    ensures e == f
  {
    var xs, ys := [e.id, e.time, TypeBytes(e.kind), e.payload], [f.id, f.time, TypeBytes(f.kind), f.payload];
    assert Encode(xs) == LeafInput(e)[1..] && Encode(ys) == LeafInput(f)[1..];
    SameStreamIff(xs, ys);
    assert xs[0] == ys[0] && xs[1] == ys[1] && xs[2] == ys[2] && xs[3] == ys[3];
    TypeBytesDetermine(e.kind, f.kind);
  }

  lemma {:induction false} NodeDetermines(l: Digest, r: Digest, l': Digest, r': Digest)
    requires NodeInput(l, r) == NodeInput(l', r')
    ensures l == l' && r == r'
  {
    var x, y := NodeInput(l, r), NodeInput(l', r');
    assert l.bytes == x[1..33] && r.bytes == x[33..] && l'.bytes == y[1..33] && r'.bytes == y[33..];
  }

  /** Domain separation. */
  lemma {:induction false} LeafIsNoNode(e: Event, l: Digest, r: Digest)
    ensures LeafInput(e) != NodeInput(l, r)
  {
    assert LeafInput(e)[0] == 0 && NodeInput(l, r)[0] == 1;
  }

  lemma {:induction false} PadOfLeaves(h: HashFunction, es: seq<Event>, k: nat)
    requires 0 < |es| <= Pow2(k)
    ensures Pad(Leaves(h, es), k) == Leaves(h, Pad(es, k))
  {
  }

  lemma {:induction false} PairsAreHashed(h: HashFunction, es: seq<Event>, k: nat)
    requires k < Height(|es|)
    ensures forall i :: 0 <= i < Half(|Up(h, Leaves(h, es), k)|) ==>
              PairInput(Up(h, Leaves(h, es), k), i) in HashedStrings(h, es)
  {
    var level := Up(h, Leaves(h, es), k);
    forall i | 0 <= i < Half(|level|)
      ensures Hashed(h, es, PairInput(level, i))
    {
    }
  }

  /** Full levels with equal levels above are equal, when no pair collides. */
  lemma {:induction false} BelowIsSame(h: HashFunction, a: seq<Digest>, b: seq<Digest>, p: nat, s: iset<Bytes>)
    requires |a| == |b| == 2 * p && NoCollision(h, s)
    requires forall i :: 0 <= i < p ==> PairInput(a, i) in s && PairInput(b, i) in s
    requires NextLevel(h, a) == NextLevel(h, b)
    ensures a == b
  {
    assert Half(|a|) == p;
    forall i | 0 <= i < p
      ensures a[2 * i] == b[2 * i] && a[2 * i + 1] == b[2 * i + 1]
    {
      assert NextLevel(h, a)[i] == NextLevel(h, b)[i];
      NodeDetermines(a[2 * i], a[2 * i + 1], b[2 * i], b[2 * i + 1]);
    }
    forall i | 0 <= i < |a|
      ensures a[i] == b[i]
    {
      assert i == 2 * (i / 2) || i == 2 * (i / 2) + 1;
    }
  }

  lemma {:induction false} UpSize(h: HashFunction, level: seq<Digest>, k: nat, i: nat)
    requires 0 < |level| <= Pow2(k) && i <= k
    ensures 0 < |Up(h, level, i)| <= Pow2(k - i)
  {
    if i > 0 {
      UpSize(h, level, k, i - 1);
      HalfBound(|Up(h, level, i - 1)|, Pow2(k - i));
    }
  }

  /** Level `i` over a batch, padded as the batch is. */
  ghost function PaddedLevel(h: HashFunction, es: seq<Event>, i: nat): (r: seq<Digest>)
    requires es != [] && i <= Height(|es|)
    ensures |r| == Pow2(Height(|es|) - i)
  {
    Pad(Up(h, Leaves(h, es), i), Height(|es|) - i)
  }

  lemma {:induction false} LevelSize(h: HashFunction, es: seq<Event>, i: nat, k: nat)
    requires es != [] && Height(|es|) == i + k
    ensures 0 < |Up(h, Leaves(h, es), i)| <= Pow2(k)
  {
    HeightIsLeast(|es|);
    UpSize(h, Leaves(h, es), Height(|es|), i);
  }

  lemma {:induction false} NextPaddedLevel(h: HashFunction, es: seq<Event>, i: nat, k: nat)
    requires es != [] && Height(|es|) == i + k + 1
    ensures NextLevel(h, PaddedLevel(h, es, i)) == PaddedLevel(h, es, i + 1)
  {
    LevelSize(h, es, i, k + 1);
    PadNext(h, Up(h, Leaves(h, es), i), k);
  }

  lemma {:induction false} PaddedPairsAreHashed(h: HashFunction, es: seq<Event>, i: nat, k: nat)
    requires es != [] && Height(|es|) == i + k + 1
    ensures |PaddedLevel(h, es, i)| == 2 * Pow2(k)
    ensures forall j :: 0 <= j < Pow2(k) ==> PairInput(PaddedLevel(h, es, i), j) in HashedStrings(h, es)
  {
    var level := Up(h, Leaves(h, es), i);
    LevelSize(h, es, i, k + 1);
    PairsAreHashed(h, es, i);
    forall j | 0 <= j < Pow2(k)
      ensures PairInput(PaddedLevel(h, es, i), j) in HashedStrings(h, es)
    {
      PadPair(level, k, j);
    }
  }

  lemma {:induction false} SameLeavesSameEvents(h: HashFunction, xs: seq<Event>, ys: seq<Event>, s: iset<Bytes>)
    requires AllValid(xs) && AllValid(ys) && Leaves(h, xs) == Leaves(h, ys) && NoCollision(h, s)
    requires forall i :: 0 <= i < |xs| ==> LeafInput(xs[i]) in s
    requires forall i :: 0 <= i < |ys| ==> LeafInput(ys[i]) in s
    ensures xs == ys
  {
    assert |xs| == |Leaves(h, xs)| == |Leaves(h, ys)| == |ys|;
    forall t | 0 <= t < |xs|
      ensures xs[t] == ys[t]
    {
      assert Leaves(h, xs)[t] == Leaves(h, ys)[t];
      LeafDetermines(xs[t], ys[t]);
    }
  }

  lemma {:induction false} PaddedLeaves(h: HashFunction, es: seq<Event>)
    requires es != [] && AllValid(es)
    ensures PaddedLevel(h, es, 0) == Leaves(h, Padded(es)) && AllValid(Padded(es))
    ensures forall i :: 0 <= i < |Padded(es)| ==> LeafInput(Padded(es)[i]) in HashedStrings(h, es)
  {
    HeightIsLeast(|es|);
    PadOfLeaves(h, es, Height(|es|));
    forall i | 0 <= i < |Padded(es)|
      ensures LeafInput(Padded(es)[i]) in HashedStrings(h, es) && Padded(es)[i].Valid()
    {
    }
  }

  lemma {:induction false} SamePaddedLeaves(h: HashFunction, xs: seq<Event>, ys: seq<Event>, s: iset<Bytes>)
    requires xs != [] && ys != [] && AllValid(xs) && AllValid(ys)
    requires HashedStrings(h, xs) <= s && HashedStrings(h, ys) <= s && NoCollision(h, s)
    requires PaddedLevel(h, xs, 0) == PaddedLevel(h, ys, 0)
    ensures Padded(xs) == Padded(ys)
  {
    PaddedLeaves(h, xs);
    PaddedLeaves(h, ys);
    SameLeavesSameEvents(h, Padded(xs), Padded(ys), s);
  }

  lemma {:induction false} SameLevelBelow(
    h: HashFunction, xs: seq<Event>, ys: seq<Event>, s: iset<Bytes>, i: nat, j: nat, k: nat)
    requires xs != [] && ys != [] && Height(|xs|) == i + k + 1 && Height(|ys|) == j + k + 1
    requires HashedStrings(h, xs) <= s && HashedStrings(h, ys) <= s && NoCollision(h, s)
    requires PaddedLevel(h, xs, i + 1) == PaddedLevel(h, ys, j + 1)
    ensures PaddedLevel(h, xs, i) == PaddedLevel(h, ys, j)
  {
    NextPaddedLevel(h, xs, i, k);
    NextPaddedLevel(h, ys, j, k);
    PaddedPairsAreHashed(h, xs, i, k);
    PaddedPairsAreHashed(h, ys, j, k);
    BelowIsSame(h, PaddedLevel(h, xs, i), PaddedLevel(h, ys, j), Pow2(k), s);
  }

  /** From equal tops the padded levels are equal all the way down. */
  lemma {:induction false} SameLevelsDown(
    h: HashFunction, xs: seq<Event>, ys: seq<Event>, s: iset<Bytes>, i: nat, j: nat, t: nat)
    requires xs != [] && ys != [] && Height(|xs|) == i + t && Height(|ys|) == j + t
    requires HashedStrings(h, xs) <= s && HashedStrings(h, ys) <= s && NoCollision(h, s)
    requires PaddedLevel(h, xs, i + t) == PaddedLevel(h, ys, j + t)
    ensures PaddedLevel(h, xs, i) == PaddedLevel(h, ys, j)
    decreases t
  {
    if t > 0 {
      SameLevelsDown(h, xs, ys, s, i + 1, j + 1, t - 1);
      SameLevelBelow(h, xs, ys, s, i, j, t - 1);
    }
  }

  /** Trees of different heights have different tops: going down, leaves would meet nodes. */
  lemma {:induction false} LowerDiffers(
    h: HashFunction, xs: seq<Event>, ys: seq<Event>, s: iset<Bytes>, k: nat, e: nat)
    requires xs != [] && ys != [] && Height(|xs|) == k && Height(|ys|) == k + e + 1
    requires HashedStrings(h, xs) <= s && HashedStrings(h, ys) <= s && NoCollision(h, s)
    ensures PaddedLevel(h, xs, k) != PaddedLevel(h, ys, k + e + 1)
  {
    if PaddedLevel(h, xs, k) == PaddedLevel(h, ys, k + e + 1) {
      SameLevelsDown(h, xs, ys, s, 0, e + 1, k);
      LeavesAreNoNodes(h, xs, ys, s, e);
    }
  }

  /** Equal tops come from trees of one height over the same padded events. */
  lemma {:induction false} SameTopSamePadded(h: HashFunction, xs: seq<Event>, ys: seq<Event>, s: iset<Bytes>, k: nat, m: nat)
    requires xs != [] && ys != [] && AllValid(xs) && AllValid(ys) && Height(|xs|) == k && Height(|ys|) == m
    requires HashedStrings(h, xs) <= s && HashedStrings(h, ys) <= s && NoCollision(h, s)
    requires PaddedLevel(h, xs, k) == PaddedLevel(h, ys, m)
    ensures Padded(xs) == Padded(ys)
  {
    if k < m {
      LowerDiffers(h, xs, ys, s, k, m - k - 1);
    } else if m < k {
      LowerDiffers(h, ys, xs, s, m, k - m - 1);
    } else {
      SameLevelsDown(h, xs, ys, s, 0, 0, k);
      SamePaddedLeaves(h, xs, ys, s);
    }
  }

  lemma {:induction false} Pow2Determines(k: nat, m: nat)
    ensures Pow2(k) == Pow2(m) ==> k == m
  {
    if k > 0 && m > 0 {
      Pow2Determines(k - 1, m - 1);
    }
  }

  lemma {:induction false} FirstLeafHashed(h: HashFunction, es: seq<Event>, s: iset<Bytes>)
    requires es != [] && HashedStrings(h, es) <= s
    ensures LeafInput(es[0]) in s
  {
    assert LeafInput(es[0]) in HashedStrings(h, es);
  }

  lemma {:induction false} FirstPairHashed(h: HashFunction, es: seq<Event>, s: iset<Bytes>, k: nat)
    requires k < Height(|es|) && HashedStrings(h, es) <= s
    ensures Up(h, Leaves(h, es), k) != [] && PairInput(Up(h, Leaves(h, es), k), 0) in s
  {
    PairsAreHashed(h, es, k);
    assert PairInput(Up(h, Leaves(h, es), k), 0) in HashedStrings(h, es);
  }

  lemma {:induction false} HeadsDiffer(h: HashFunction, e: Event, level: seq<Digest>, s: iset<Bytes>)
    requires level != [] && LeafInput(e) in s && PairInput(level, 0) in s && NoCollision(h, s)
    ensures h(LeafInput(e)) != h(PairInput(level, 0))
  {
    LeafIsNoNode(e, level[0], Right(level, 1));
  }

  lemma {:induction false} LeavesAreNoNodes(h: HashFunction, xs: seq<Event>, ys: seq<Event>, s: iset<Bytes>, e: nat)
    requires xs != [] && ys != [] && e < Height(|ys|)
    requires HashedStrings(h, xs) <= s && HashedStrings(h, ys) <= s && NoCollision(h, s)
    ensures PaddedLevel(h, xs, 0) != PaddedLevel(h, ys, e + 1)
  {
    FirstLeafHashed(h, xs, s);
    FirstPairHashed(h, ys, s, e);
    HeadsDiffer(h, xs[0], Up(h, Leaves(h, ys), e), s);
    PaddedHead(h, xs, 0);
    PaddedHead(h, ys, e + 1);
  }

  lemma {:induction false} PaddedHead(h: HashFunction, es: seq<Event>, i: nat)
    requires es != [] && i <= Height(|es|)
    ensures PaddedLevel(h, es, i)[0]
            == if i == 0 then h(LeafInput(es[0])) else h(PairInput(Up(h, Leaves(h, es), i - 1), 0))
  {
    PadIndexZero(|Up(h, Leaves(h, es), i)|, Height(|es|) - i);
  }

  lemma {:induction false} PaddedTop(h: HashFunction, es: seq<Event>)
    requires es != []
    ensures Root(h, Leaves(h, es)) == Some(PaddedLevel(h, es, Height(|es|))[0])
  {
    TopAtHeight(h, Leaves(h, es));
  }

  /**
   * Two batches have the same root exactly when padding makes them the same list, of whatever
   * lengths, unless the hash collides on strings hashed for them.
   */
  lemma {:induction false} SameRootIff(h: HashFunction, xs: seq<Event>, ys: seq<Event>)
    requires xs != [] && ys != [] && AllValid(xs) && AllValid(ys)
    requires NoCollision(h, HashedStrings(h, xs) + HashedStrings(h, ys))
    ensures Root(h, Leaves(h, xs)) == Root(h, Leaves(h, ys)) <==> Padded(xs) == Padded(ys)
  {
    if Root(h, Leaves(h, xs)) == Root(h, Leaves(h, ys)) {
      PaddedTop(h, xs);
      PaddedTop(h, ys);
      SameTopSamePadded(h, xs, ys, HashedStrings(h, xs) + HashedStrings(h, ys), Height(|xs|), Height(|ys|));
    }
    if Padded(xs) == Padded(ys) {
      Pow2Determines(Height(|xs|), Height(|ys|));
      PaddedRoot(h, xs);
      PaddedRoot(h, ys);
    }
  }

  lemma {:induction false} PaddedRoot(h: HashFunction, es: seq<Event>)
    requires es != []
    ensures Root(h, Leaves(h, es)) == Some(Perfect(h, Leaves(h, Padded(es)), Height(|es|)))
  {
    HeightIsLeast(|es|);
    RootIsPerfectTree(h, Leaves(h, es));
    PadOfLeaves(h, es, Height(|es|));
  }

  /** What padding adds has occurred before. */
  lemma {:induction false} PaddingRepeats(es: seq<Event>, n: nat) returns (t: nat)
    requires es != [] && |es| <= n < |Padded(es)|
    ensures t < |es| && Padded(es)[n] == Padded(es)[t]
  {
    HeightIsLeast(|es|);
    t := PadIndex(|es|, Height(|es|), n);
    assert es <= Padded(es);
  }

  lemma {:induction false} DistinctPadded(xs: seq<Event>, ys: seq<Event>)
    requires xs != [] && ys != [] && DistinctIds(ys) && Padded(xs) == Padded(ys)
    ensures |ys| <= |xs|
  {
    HeightIsLeast(|ys|);
    assert ys <= Padded(ys);
    if |xs| < |ys| {
      var t := PaddingRepeats(xs, |xs|);
    }
  }

  /** Two batches of distinct events have the same root exactly when they are the same batch. */
  lemma {:induction false} RootBinds(h: HashFunction, xs: seq<Event>, ys: seq<Event>)
    requires xs != [] && ys != [] && AllValid(xs) && AllValid(ys) && DistinctIds(xs) && DistinctIds(ys)
    requires NoCollision(h, HashedStrings(h, xs) + HashedStrings(h, ys))
    ensures Root(h, Leaves(h, xs)) == Root(h, Leaves(h, ys)) <==> xs == ys
  {
    SameRootIff(h, xs, ys);
    if Padded(xs) == Padded(ys) {
      DistinctPadded(xs, ys);
      DistinctPadded(ys, xs);
      HeightIsLeast(|xs|);
      assert xs <= Padded(xs) && ys <= Padded(ys);
      assert xs == Padded(xs)[..|xs|] && ys == Padded(ys)[..|ys|];
    }
  }

  /** Distinctness is needed: repeating the last of an odd number of leaves keeps the root. */
  lemma {:induction false} RepeatedLeafKeepsRoot(h: HashFunction, leaves: seq<Digest>)
    requires |leaves| > 1 && |leaves| % 2 == 1
    ensures Root(h, leaves + [leaves[|leaves| - 1]]) == Root(h, leaves)
  {
    var more := leaves + [leaves[|leaves| - 1]];
    assert Half(|more|) == Half(|leaves|);
    assert forall i :: 0 <= i < Half(|leaves|) ==> PairInput(more, i) == PairInput(leaves, i);
    assert NextLevel(h, more) == NextLevel(h, leaves);
  }
}
