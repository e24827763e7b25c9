/**
 * The field lists behind the idempotency hashes: that of a submission, whose postings and metadata
 * are written as one flat list, and those of the other keyed operations.
 */
module SubmissionHashes {
  import opened HashEncoding
  import opened Wrappers

  /** A posting with its amount in decimal. */
  datatype PostingText = PostingText(source: Bytes, destination: Bytes, amount: Bytes, asset: Bytes)

  datatype Entry = Entry(key: Bytes, value: Bytes)

  /** What a submission hashes; the values of `metadata` as text. */
  datatype Submission = Submission(
    ledgerId: Bytes, reference: Bytes, postings: seq<PostingText>, metadata: map<Bytes, Bytes>, validTime: Option<Bytes>)

  // ----- keys in ascending order -----

  /** The order of Go strings: byte by byte, a proper prefix first. */
  predicate Less(a: Bytes, b: Bytes) {
    b != [] && (a == [] || a[0] < b[0] || (a[0] == b[0] && Less(a[1..], b[1..])))
  }

  predicate Ascending(keys: seq<Bytes>) {
    forall i, j :: 0 <= i < j < |keys| ==> Less(keys[i], keys[j])
  }

  lemma {:induction false} LessIsTotal(a: Bytes, b: Bytes)
    ensures a != b ==> Less(a, b) || Less(b, a)
  {
    if a != [] && b != [] && a[0] == b[0] {
      LessIsTotal(a[1..], b[1..]);
      assert a == [a[0]] + a[1..] && b == [b[0]] + b[1..];
    }
  }

  lemma {:induction false} LessIsStrict(a: Bytes, b: Bytes)
    ensures !(Less(a, b) && Less(b, a))
  {
    if a != [] && b != [] && a[0] == b[0] {
      LessIsStrict(a[1..], b[1..]);
    }
  }

  lemma {:induction false} LessIsTransitive(a: Bytes, b: Bytes, c: Bytes)
    requires Less(a, b) && Less(b, c)
    ensures Less(a, c)
  {
    if a != [] && a[0] == b[0] == c[0] {
      LessIsTransitive(a[1..], b[1..], c[1..]);
    }
  }

  /** Puts a new key in its place among ascending ones. */
  function Insert(keys: seq<Bytes>, k: Bytes): (r: seq<Bytes>)
    requires Ascending(keys) && k !in keys
    ensures Ascending(r) && forall x :: x in r <==> x in keys || x == k
  {
    if keys == [] then [k]
    else if Less(k, keys[0]) then
      assert forall j {:trigger keys[j]} :: 0 <= j < |keys| ==> Less(k, keys[j]) by { BelowAll(k, keys); }
      [k] + keys
    else
      assert Less(keys[0], k) by { LessIsTotal(k, keys[0]); }
      var rest := Insert(keys[1..], k);
      assert forall x :: x in rest ==> Less(keys[0], x);
      [keys[0]] + rest
  }

  lemma {:induction false} BelowAll(k: Bytes, keys: seq<Bytes>)
    requires Ascending(keys) && keys != [] && Less(k, keys[0])
    ensures forall j :: 0 <= j < |keys| ==> Less(k, keys[j])
  {
    forall j | 0 <= j < |keys| ensures Less(k, keys[j]) {
      if j > 0 {
        LessIsTransitive(k, keys[0], keys[j]);
      }
    }
  }

  /** Sorting the keys of a map, in whatever order they come. */
  function Sorted(keys: seq<Bytes>): (r: seq<Bytes>)
    requires forall i, j :: 0 <= i < j < |keys| ==> keys[i] != keys[j]
    ensures Ascending(r) && forall x :: x in r <==> x in keys
  {
    if keys == [] then [] else Insert(Sorted(keys[1..]), keys[0])
  }

  /** The members of a set in ascending order. */
  ghost function InOrder(s: set<Bytes>): (keys: seq<Bytes>)
    ensures Ascending(keys) && forall x :: x in keys <==> x in s
    decreases |s|
  {
    if s == {} then []
    else
      var k :| k in s;
      Insert(InOrder(s - {k}), k)
  }

  lemma {:induction false} HeadIsLeast(xs: seq<Bytes>, ys: seq<Bytes>)
    requires Ascending(xs) && Ascending(ys) && xs != [] && ys != [] && xs[0] in ys && ys[0] in xs
    ensures xs[0] == ys[0]
  {
    LessIsStrict(xs[0], ys[0]);
  }

  lemma {:induction false} TailMembers(keys: seq<Bytes>, x: Bytes)
    requires Ascending(keys) && keys != []
    ensures x in keys[1..] <==> x in keys && x != keys[0]
  {
    assert keys == [keys[0]] + keys[1..];
    LessIsStrict(x, x);
  }

  /** A set has one ascending list. */
  lemma {:induction false} OneOrder(xs: seq<Bytes>, ys: seq<Bytes>)
    requires Ascending(xs) && Ascending(ys) && forall x :: x in xs <==> x in ys
    ensures xs == ys
  {
    assert ys != [] ==> ys[0] in ys;
    if xs != [] {
      assert xs[0] in ys;
      assert ys[0] in xs;
      HeadIsLeast(xs, ys);
      forall x ensures x in xs[1..] <==> x in ys[1..] {
        TailMembers(xs, x);
        TailMembers(ys, x);
      }
      OneOrder(xs[1..], ys[1..]);
      assert xs == [xs[0]] + xs[1..] && ys == [ys[0]] + ys[1..];
    }
  }

  ghost function EntriesOf(m: map<Bytes, Bytes>): (es: seq<Entry>)
  {
    var keys := InOrder(m.Keys);
    seq(|keys|, i requires 0 <= i < |keys| => Entry(keys[i], m[keys[i]]))
  }

  lemma {:induction false} EntriesDetermine(m: map<Bytes, Bytes>, n: map<Bytes, Bytes>)
    requires EntriesOf(m) == EntriesOf(n)
    ensures m == n
  {
    var ks, ls := InOrder(m.Keys), InOrder(n.Keys);
    assert |ks| == |EntriesOf(m)| == |ls|;
    forall i | 0 <= i < |ks| ensures ks[i] == ls[i] && m[ks[i]] == n[ls[i]] {
      assert EntriesOf(m)[i] == Entry(ks[i], m[ks[i]]) && EntriesOf(n)[i] == Entry(ls[i], n[ls[i]]);
    }
    assert ks == ls;
    forall k ensures k in m <==> k in n {
      assert k in ks <==> k in m.Keys;
      assert k in ls <==> k in n.Keys;
    }
    forall k | k in m ensures m[k] == n[k] {
      assert k in ks;
    }
  }

  function PostingFields(ps: seq<PostingText>): (f: seq<Bytes>)
    ensures |f| == 4 * |ps|
  {
    if ps == [] then []
    else
      var p := ps[|ps| - 1];
      PostingFields(ps[..|ps| - 1]) + [p.source, p.destination, p.amount, p.asset]
  }

  function EntryFields(es: seq<Entry>): (f: seq<Bytes>)
    ensures |f| == 2 * |es|
  {
    if es == [] then [] else EntryFields(es[..|es| - 1]) + [es[|es| - 1].key, es[|es| - 1].value]
  }

  function TimeField(t: Option<Bytes>): seq<Bytes> { if t.Some? then [t.value] else [] }

  ghost function FieldsOf(s: Submission): seq<Bytes> {
    [s.ledgerId, s.reference] + PostingFields(s.postings) + EntryFields(EntriesOf(s.metadata)) + TimeField(s.validTime)
  }

  lemma {:induction false} PostingFieldsDetermine(xs: seq<PostingText>, ys: seq<PostingText>)
    requires PostingFields(xs) == PostingFields(ys)
    ensures xs == ys
  {
    if xs != [] {
      var n := |xs| - 1;
      var f, g := PostingFields(xs), PostingFields(ys);
      assert |ys| == |xs|;
      assert f[..4 * n] == PostingFields(xs[..n]) && g[..4 * n] == PostingFields(ys[..n]);
      PostingFieldsDetermine(xs[..n], ys[..n]);
      assert f[4 * n..] == [xs[n].source, xs[n].destination, xs[n].amount, xs[n].asset];
      assert g[4 * n..] == [ys[n].source, ys[n].destination, ys[n].amount, ys[n].asset];
      assert xs == xs[..n] + [xs[n]] && ys == ys[..n] + [ys[n]];
    }
  }

  lemma {:induction false} EntryFieldsDetermine(xs: seq<Entry>, ys: seq<Entry>)
    requires EntryFields(xs) == EntryFields(ys)
    ensures xs == ys
  {
    if xs != [] {
      var n := |xs| - 1;
      var f, g := EntryFields(xs), EntryFields(ys);
      assert |ys| == |xs|;
      assert f[..2 * n] == EntryFields(xs[..n]) && g[..2 * n] == EntryFields(ys[..n]);
      EntryFieldsDetermine(xs[..n], ys[..n]);
      assert f[2 * n..] == [xs[n].key, xs[n].value] && g[2 * n..] == [ys[n].key, ys[n].value];
      assert xs == xs[..n] + [xs[n]] && ys == ys[..n] + [ys[n]];
    }
  }

  lemma {:induction false} SameParts(a: seq<Bytes>, b: seq<Bytes>, a': seq<Bytes>, b': seq<Bytes>)
    requires |a| == |a'| && a + b == a' + b'
    ensures a == a' && b == b'
  {
    var f, g := a + b, a' + b';
    assert f[..|a|] == a && g[..|a|] == a';
    assert f[|a|..] == b && g[|a|..] == b';
  }

  function Rest(es: seq<Entry>, t: Option<Bytes>): seq<Bytes> { EntryFields(es) + TimeField(t) }

  /** Parity tells whether a time was given. */
  lemma {:induction false} RestDetermines(xs: seq<Entry>, t: Option<Bytes>, ys: seq<Entry>, u: Option<Bytes>)
    requires Rest(xs, t) == Rest(ys, u)
    ensures xs == ys && t == u
  {
    assert |Rest(xs, t)| % 2 == |TimeField(t)| && |Rest(ys, u)| % 2 == |TimeField(u)|;
    SameParts(EntryFields(xs), TimeField(t), EntryFields(ys), TimeField(u));
    assert t.Some? ==> t.value == TimeField(t)[0];
    EntryFieldsDetermine(xs, ys);
  }

  lemma {:induction false} FieldsInParts(s: Submission)
    ensures FieldsOf(s) == [s.ledgerId, s.reference] + (PostingFields(s.postings) + Rest(EntriesOf(s.metadata), s.validTime))
  {
  }

  /** With equally many postings, equal field lists mean equal submissions. */
  lemma {:induction false} FieldsDetermine(s: Submission, t: Submission)
    requires |s.postings| == |t.postings|
    ensures FieldsOf(s) == FieldsOf(t) <==> s == t
  {
    if FieldsOf(s) == FieldsOf(t) {
      var head, head' := [s.ledgerId, s.reference], [t.ledgerId, t.reference];
      var ps, ps' := PostingFields(s.postings), PostingFields(t.postings);
      var rest, rest' := Rest(EntriesOf(s.metadata), s.validTime), Rest(EntriesOf(t.metadata), t.validTime);
      FieldsInParts(s);
      FieldsInParts(t);
      SameParts(head, ps + rest, head', ps' + rest');
      SameParts(ps, rest, ps', rest');
      assert s.ledgerId == head[0] && s.reference == head[1];
      PostingFieldsDetermine(s.postings, t.postings);
      RestDetermines(EntriesOf(s.metadata), s.validTime, EntriesOf(t.metadata), t.validTime);
      EntriesDetermine(s.metadata, t.metadata);
    }
  }

  // ----- different numbers of postings -----

  /** A posting read as two metadata entries. */
  function AsEntries(ps: seq<PostingText>): (es: seq<Entry>)
    ensures |es| == 2 * |ps|
  {
    if ps == [] then []
    else
      var p := ps[|ps| - 1];
      AsEntries(ps[..|ps| - 1]) + [Entry(p.source, p.destination), Entry(p.amount, p.asset)]
  }

  lemma {:induction false} EntryFieldsOfTwo(es: seq<Entry>, a: Entry, b: Entry)
    ensures EntryFields(es + [a, b]) == EntryFields(es) + [a.key, a.value, b.key, b.value]
  {
    assert (es + [a, b])[..|es| + 1] == es + [a] && (es + [a])[..|es|] == es;
    assert EntryFields(es + [a]) == EntryFields(es) + [a.key, a.value];
  }

  lemma {:induction false} PostingsAsEntries(ps: seq<PostingText>)
    ensures EntryFields(AsEntries(ps)) == PostingFields(ps)
  {
    if ps != [] {
      var n := |ps| - 1;
      PostingsAsEntries(ps[..n]);
      EntryFieldsOfTwo(AsEntries(ps[..n]), Entry(ps[n].source, ps[n].destination), Entry(ps[n].amount, ps[n].asset));
    }
  }

  lemma {:induction false} EntryFieldsConcat(xs: seq<Entry>, ys: seq<Entry>)
    ensures EntryFields(xs + ys) == EntryFields(xs) + EntryFields(ys)
  {
    if ys == [] {
      assert xs + ys == xs;
    } else {
      assert (xs + ys)[..|xs + ys| - 1] == xs + ys[..|ys| - 1];
      EntryFieldsConcat(xs, ys[..|ys| - 1]);
    }
  }

  lemma {:induction false} PostingFieldsSplit(ps: seq<PostingText>, n: nat)
    requires n <= |ps|
    ensures PostingFields(ps) == PostingFields(ps[..n]) + PostingFields(ps[n..])
  {
    if n == |ps| {
      assert ps[..n] == ps;
    } else {
      var m := |ps| - 1;
      PostingFieldsSplit(ps[..m], n);
      assert ps[..m][..n] == ps[..n] && ps[..m][n..] == ps[n..][..m - n] && ps[n..][m - n] == ps[m];
    }
  }

  /** A submission's fields with only the first `n` postings read as such. */
  lemma {:induction false} FieldsFromPosting(s: Submission, n: nat)
    requires n <= |s.postings|
    ensures FieldsOf(s)
            == [s.ledgerId, s.reference]
               + (PostingFields(s.postings[..n]) + Rest(AsEntries(s.postings[n..]) + EntriesOf(s.metadata), s.validTime))
  {
    PostingFieldsSplit(s.postings, n);
    PostingsAsEntries(s.postings[n..]);
    EntryFieldsConcat(AsEntries(s.postings[n..]), EntriesOf(s.metadata));
  }

  /**
   * Two submissions share a field list exactly when they agree but for the further postings of one,
   * which are the first metadata entries of the other.
   */
  lemma {:induction false} SharedFieldsIff(s: Submission, t: Submission)
    requires |t.postings| <= |s.postings|
    ensures FieldsOf(s) == FieldsOf(t) <==>
      && s.ledgerId == t.ledgerId && s.reference == t.reference && s.validTime == t.validTime
      && s.postings[..|t.postings|] == t.postings
      && EntriesOf(t.metadata) == AsEntries(s.postings[|t.postings|..]) + EntriesOf(s.metadata)
  {
    var n := |t.postings|;
    var head, head' := [s.ledgerId, s.reference], [t.ledgerId, t.reference];
    var es := AsEntries(s.postings[n..]) + EntriesOf(s.metadata);
    FieldsFromPosting(s, n);
    FieldsInParts(t);
    if FieldsOf(s) == FieldsOf(t) {
      var ps, ps' := PostingFields(s.postings[..n]), PostingFields(t.postings);
      SameParts(head, ps + Rest(es, s.validTime), head', ps' + Rest(EntriesOf(t.metadata), t.validTime));
      SameParts(ps, Rest(es, s.validTime), ps', Rest(EntriesOf(t.metadata), t.validTime));
      assert s.ledgerId == head[0] && s.reference == head[1];
      PostingFieldsDetermine(s.postings[..n], t.postings);
      RestDetermines(es, s.validTime, EntriesOf(t.metadata), t.validTime);
    }
  }

  function KeysIn(es: seq<Entry>): (keys: seq<Bytes>)
    ensures |keys| == |es| && forall i :: 0 <= i < |es| ==> keys[i] == es[i].key
  {
    seq(|es|, i requires 0 <= i < |es| => es[i].key)
  }

  function MapOf(es: seq<Entry>): map<Bytes, Bytes> {
    if es == [] then map[] else MapOf(es[..|es| - 1])[es[|es| - 1].key := es[|es| - 1].value]
  }

  lemma {:induction false} MapOfHas(es: seq<Entry>, i: nat)
    requires Ascending(KeysIn(es)) && i < |es|
    ensures es[i].key in MapOf(es) && MapOf(es)[es[i].key] == es[i].value
  {
    var n := |es| - 1;
    if i < n {
      assert forall j :: 0 <= j < n ==> KeysIn(es[..n])[j] == KeysIn(es)[j];
      MapOfHas(es[..n], i);
      assert Less(KeysIn(es)[i], KeysIn(es)[n]);
      LessIsStrict(es[i].key, es[n].key);
    }
  }

  lemma {:induction false} MapOfKeys(es: seq<Entry>, k: Bytes)
    ensures k in MapOf(es) <==> k in KeysIn(es)
  {
    if es != [] {
      var n := |es| - 1;
      MapOfKeys(es[..n], k);
      assert KeysIn(es) == KeysIn(es[..n]) + [es[n].key];
    }
  }

  /** Ascending entries are those of their map. */
  lemma {:induction false} EntriesOfMapOf(es: seq<Entry>)
    requires Ascending(KeysIn(es))
    ensures EntriesOf(MapOf(es)) == es
  {
    forall k ensures k in KeysIn(es) <==> k in InOrder(MapOf(es).Keys) {
      MapOfKeys(es, k);
    }
    OneOrder(KeysIn(es), InOrder(MapOf(es).Keys));
    forall i | 0 <= i < |es|
      ensures EntriesOf(MapOf(es))[i] == es[i]
    {
      MapOfHas(es, i);
    }
  }

  /**
   * A submission shares its field list with one of only `n` postings exactly when the sources and
   * amounts of its further postings, then its own metadata keys, ascend.
   */
  lemma {:induction false} TwinIff(s: Submission, n: nat)
    requires n <= |s.postings|
    ensures (exists t: Submission :: |t.postings| == n && FieldsOf(s) == FieldsOf(t))
            <==> Ascending(KeysIn(AsEntries(s.postings[n..]) + EntriesOf(s.metadata)))
  {
    var es := AsEntries(s.postings[n..]) + EntriesOf(s.metadata);
    if t: Submission :| |t.postings| == n && FieldsOf(s) == FieldsOf(t) {
      SharedFieldsIff(s, t);
      assert KeysIn(es) == InOrder(t.metadata.Keys);
    }
    if Ascending(KeysIn(es)) {
      EntriesOfMapOf(es);
      var t := Submission(s.ledgerId, s.reference, s.postings[..n], MapOf(es), s.validTime);
      SharedFieldsIff(s, t);
      assert |t.postings| == n && FieldsOf(s) == FieldsOf(t);
    }
  }

  lemma {:induction false} TwoEntries(a: Entry, b: Entry)
    requires a.key != b.key
    ensures EntriesOf(map[a.key := a.value, b.key := b.value]) == if Less(a.key, b.key) then [a, b] else [b, a]
  {
    var m := map[a.key := a.value, b.key := b.value];
    LessIsTotal(a.key, b.key);
    var keys := if Less(a.key, b.key) then [a.key, b.key] else [b.key, a.key];
    OneOrder(keys, InOrder(m.Keys));
  }

  lemma {:induction false} PostingFieldsOfTwo(p: PostingText, q: PostingText)
    ensures PostingFields([p]) == [p.source, p.destination, p.amount, p.asset]
    ensures PostingFields([p, q]) == PostingFields([p]) + [q.source, q.destination, q.amount, q.asset]
  {
    assert [p, q][..1] == [p] && [p][..0] == [];
  }

  lemma {:induction false} EntriesOfNone()
    ensures EntriesOf(map[]) == []
  {
    OneOrder([], InOrder({}));
  }

  /**
   * Without that, nothing marks where postings end: a posting reads as two metadata entries,
   * exactly when its source is below its amount, the order in which the keys are written.
   */
  lemma {:induction false} EntriesReadAsPostings(
    ledgerId: Bytes, reference: Bytes, p: PostingText, q: PostingText, validTime: Option<Bytes>)
    ensures FieldsOf(Submission(ledgerId, reference, [p, q], map[], validTime))
            == FieldsOf(Submission(ledgerId, reference, [p],
                                   map[q.source := q.destination, q.amount := q.asset], validTime))
            <==> Less(q.source, q.amount)
  {
    var m := map[q.source := q.destination, q.amount := q.asset];
    var a, b := Entry(q.source, q.destination), Entry(q.amount, q.asset);
    EntriesOfNone();
    assert [p, q][..1] == [p] && [p, q][1..] == [q] && [q][..0] == [] && AsEntries([q]) == [] + [a, b];
    SharedFieldsIff(Submission(ledgerId, reference, [p, q], map[], validTime), Submission(ledgerId, reference, [p], m, validTime));
    assert [a, b] + [] == [a, b];
    if q.source == q.amount {
      LessIsStrict(q.source, q.amount);
      OneOrder([q.source], InOrder(m.Keys));
    } else {
      TwoEntries(a, b);
    }
  }

  /** Such a posting: 5 units of X from the account called 10. */
  lemma {:induction false} TwoSubmissionsShareAStream(ledgerId: Bytes, reference: Bytes, p: PostingText)
    ensures var ten, five, x := [0x31, 0x30], [0x35], [0x58];
            FieldsOf(Submission(ledgerId, reference, [p, PostingText(ten, x, five, x)], map[], None))
            == FieldsOf(Submission(ledgerId, reference, [p], map[ten := x, five := x], None))
  {
    var ten: Bytes, five: Bytes, x: Bytes := [0x31, 0x30], [0x35], [0x58];
    assert Less(ten, five);
    EntriesReadAsPostings(ledgerId, reference, p, PostingText(ten, x, five, x), None);
  }

  // ----- the other keyed operations -----

  /** What the other operations hash, and what a conversion is given besides. */
  datatype Request =
    | Authorize(ledgerId: Bytes, source: Bytes, destHint: Bytes, asset: Bytes, amount: Bytes, expiresAt: Bytes)
    | Capture(ledgerId: Bytes, holdId: Bytes, amount: Bytes, destination: Bytes)
    | Void(ledgerId: Bytes, holdId: Bytes)
    | Revert(ledgerId: Bytes, transactionId: Bytes, force: bool, atEffectiveDate: bool, reason: Bytes)
    | Convert(ledgerId: Bytes, source: Bytes, destination: Bytes, sourceAmount: Bytes, sourceAsset: Bytes,
              destAmount: Bytes, destAsset: Bytes, rate: Bytes, rateSource: Bytes,
              slippage: Option<(Bytes, Bytes)>, validTime: Option<Bytes>)

  function Text(s: string): (bs: Bytes)
    requires forall i :: 0 <= i < |s| ==> s[i] < 256 as char
    ensures |bs| == |s|
  {
    seq(|s|, i requires 0 <= i < |s| => s[i] as int)
  }

  function Flag(b: bool): Bytes { if b then Text("true") else Text("false") }

  function RequestFields(r: Request): seq<Bytes> {
    match r
    case Authorize(l, source, destHint, asset, amount, expiresAt) =>
      [l, Text("authorize"), source, destHint, asset, amount, expiresAt]
    case Capture(l, holdId, amount, destination) => [l, Text("capture"), holdId, amount, destination]
    case Void(l, holdId) => [l, Text("void"), holdId]
    case Revert(l, id, force, atEffectiveDate, reason) => [l, Text("revert"), id, Flag(force), Flag(atEffectiveDate), reason]
    case Convert(l, source, destination, sourceAmount, sourceAsset, destAmount, destAsset, rate, rateSource, _, _) =>
      [l, Text("convert"), source, destination, sourceAmount, sourceAsset, destAmount, destAsset, rate, rateSource]
  }

  /** The request without what its hash leaves out. */
  function Hashed(r: Request): Request {
    if r.Convert? then r.(slippage := None, validTime := None) else r
  }

  /** The field list determines the request, but for the slippage and the valid time of a conversion. */
  lemma {:induction false} RequestFieldsDetermine(a: Request, b: Request)
    ensures RequestFields(a) == RequestFields(b) <==> Hashed(a) == Hashed(b)
  {
    var f, g := RequestFields(a), RequestFields(b);
    if f == g {
      assert |f| == |g|;
      assert f[0] == g[0] && f[2] == g[2];
      if |f| > 3 {
        assert f[3] == g[3] && f[4] == g[4];
      }
      if |f| > 5 {
        assert f[5] == g[5];
      }
      if |f| > 6 {
        assert f[6] == g[6];
      }
      if |f| > 7 {
        assert f[7] == g[7] && f[8] == g[8] && f[9] == g[9];
      }
    }
  }

  /**
   * Nor are submissions kept apart from requests: a submission of one posting, referenced as
   * `convert`, reads as a conversion exactly when the other side's amount is below the rate.
   */
  lemma {:induction false} SubmissionReadsAsConversion(c: Request)
    requires c.Convert?
    ensures var p := PostingText(c.source, c.destination, c.sourceAmount, c.sourceAsset);
            FieldsOf(Submission(c.ledgerId, Text("convert"), [p],
                                map[c.destAmount := c.destAsset, c.rate := c.rateSource], None))
            == RequestFields(c)
            <==> Less(c.destAmount, c.rate)
  {
    var p := PostingText(c.source, c.destination, c.sourceAmount, c.sourceAsset);
    var q := PostingText(c.destAmount, c.destAsset, c.rate, c.rateSource);
    var s := Submission(c.ledgerId, Text("convert"), [p, q], map[], None);
    PostingFieldsOfTwo(p, q);
    EntriesOfNone();
    assert FieldsOf(s) == RequestFields(c);
    EntriesReadAsPostings(c.ledgerId, Text("convert"), p, q, None);
  }

  // ----- writing a submission -----

  lemma {:induction false} EncodePosting(done: seq<Bytes>, ps: seq<PostingText>, i: nat)
    requires i < |ps|
    ensures Encode(done + PostingFields(ps[..i + 1]))
            == Encode(done + PostingFields(ps[..i]))
               + Field(ps[i].source) + Field(ps[i].destination) + Field(ps[i].amount) + Field(ps[i].asset)
  {
    var p := ps[i];
    var before := done + PostingFields(ps[..i]);
    assert ps[..i + 1][..i] == ps[..i];
    EncodeLast(before, p.source);
    EncodeLast(before + [p.source], p.destination);
    EncodeLast(before + [p.source] + [p.destination], p.amount);
    EncodeLast(before + [p.source] + [p.destination] + [p.amount], p.asset);
    assert done + PostingFields(ps[..i + 1]) == before + [p.source] + [p.destination] + [p.amount] + [p.asset];
  }

  lemma {:induction false} EncodeEntry(done: seq<Bytes>, es: seq<Entry>, i: nat)
    requires i < |es|
    ensures Encode(done + EntryFields(es[..i + 1]))
            == Encode(done + EntryFields(es[..i])) + Field(es[i].key) + Field(es[i].value)
  {
    var before := done + EntryFields(es[..i]);
    assert es[..i + 1][..i] == es[..i];
    EncodeLast(before, es[i].key);
    EncodeLast(before + [es[i].key], es[i].value);
    assert done + EntryFields(es[..i + 1]) == before + [es[i].key] + [es[i].value];
  }

  /** The keys, collected in any order and then sorted. */
  method KeysOf(m: map<Bytes, Bytes>) returns (keys: seq<Bytes>)
    ensures keys == InOrder(m.Keys)
  {
    keys := [];
    var rest := m.Keys;
    while rest != {}
      invariant rest <= m.Keys
      invariant forall x :: x in keys <==> x in m.Keys && x !in rest
      invariant forall i, j :: 0 <= i < j < |keys| ==> keys[i] != keys[j]
      decreases |rest|
    {
      var k :| k in rest;
      keys := keys + [k];
      rest := rest - {k};
    }
    keys := Sorted(keys);
    OneOrder(keys, InOrder(m.Keys));
  }

  /** The flat field list of a submission, written field by field. */
  method SubmissionStream(s: Submission) returns (stream: Bytes)
    ensures stream == Encode(FieldsOf(s))
  {
    var h := new HashWriter();
    ghost var head := [s.ledgerId, s.reference];
    EncodeLast([], s.ledgerId);
    EncodeLast([s.ledgerId], s.reference);
    assert [] + [s.ledgerId] == [s.ledgerId] && [s.ledgerId] + [s.reference] == head;
    assert head + PostingFields(s.postings[..0]) == head;
    h.WriteField(s.ledgerId);
    h.WriteField(s.reference);
    for i := 0 to |s.postings|
      invariant h.written == Encode(head + PostingFields(s.postings[..i]))
    {
      EncodePosting(head, s.postings, i);
      h.WriteField(s.postings[i].source);
      h.WriteField(s.postings[i].destination);
      h.WriteField(s.postings[i].amount);
      h.WriteField(s.postings[i].asset);
    }
    assert s.postings[..|s.postings|] == s.postings;
    head := head + PostingFields(s.postings);
    var keys := KeysOf(s.metadata);
    ghost var entries := EntriesOf(s.metadata);
    assert head + EntryFields(entries[..0]) == head;
    for i := 0 to |keys|
      invariant h.written == Encode(head + EntryFields(entries[..i]))
    {
      EncodeEntry(head, entries, i);
      assert entries[i] == Entry(keys[i], s.metadata[keys[i]]);
      h.WriteField(keys[i]);
      h.WriteField(s.metadata[keys[i]]);
    }
    assert entries[..|keys|] == entries;
    head := head + EntryFields(entries);
    assert FieldsOf(s) == head + TimeField(s.validTime);
    if s.validTime.Some? {
      EncodeLast(head, s.validTime.value);
      h.WriteField(s.validTime.value);
    } else {
      assert head + [] == head;
    }
    return h.written;
  }
}
