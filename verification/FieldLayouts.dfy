/**
 * Where each input stands in the field lists behind the idempotency hashes, and the order of the
 * metadata keys.
 */
module FieldLayouts {
  import opened Wrappers
  import opened HashEncoding
  import opened SubmissionHashes

  /** The first `k` bytes agree, and there `a` ends or has the smaller byte. */
  predicate LessAt(a: Bytes, b: Bytes, k: nat) {
    k <= |a| && k < |b| && a[..k] == b[..k] && (k == |a| || a[k] < b[k])
  }

  lemma {:induction false} LaterDifference(a: Bytes, b: Bytes, k: nat)
    requires a != [] && b != [] && a[0] == b[0]
    ensures LessAt(a, b, k + 1) <==> LessAt(a[1..], b[1..], k)
  {
    if k + 1 <= |a| && k + 1 < |b| {
      assert a[..k + 1] == [a[0]] + a[1..][..k] && b[..k + 1] == [b[0]] + b[1..][..k];
    }
  }

  lemma {:induction false} HeadsOf(a: Bytes, b: Bytes, k: nat)
    requires LessAt(a, b, k)
    ensures b != [] && (a == [] || a[0] <= b[0])
  {
    if k > 0 {
      assert a[..k][0] == b[..k][0];
    }
  }

  /** Keys are ordered by their first different byte, a proper prefix first. */
  lemma {:induction false} LessIff(a: Bytes, b: Bytes)
    ensures Less(a, b) <==> exists k :: LessAt(a, b, k)
  {
    if a != [] && b != [] && a[0] == b[0] {
      LessIff(a[1..], b[1..]);
      if k: nat :| LessAt(a[1..], b[1..], k) {
        LaterDifference(a, b, k);
      }
      if k: nat :| LessAt(a, b, k) {
        assert k > 0;
        LaterDifference(a, b, k - 1);
      }
    } else {
      if Less(a, b) {
        assert LessAt(a, b, 0);
      }
      if k: nat :| LessAt(a, b, k) {
        HeadsOf(a, b, k);
      }
    }
  }

  lemma {:induction false} PostingsAt(ps: seq<PostingText>, i: nat)
    requires i < |ps|
    ensures PostingFields(ps)[4 * i..4 * i + 4] == [ps[i].source, ps[i].destination, ps[i].amount, ps[i].asset]
  {
    var n := |ps| - 1;
    if i < n {
      PostingsAt(ps[..n], i);
      assert PostingFields(ps)[4 * i..4 * i + 4] == PostingFields(ps[..n])[4 * i..4 * i + 4];
    }
  }

  lemma {:induction false} EntriesAt(es: seq<Entry>, j: nat)
    requires j < |es|
    ensures EntryFields(es)[2 * j..2 * j + 2] == [es[j].key, es[j].value]
  {
    var n := |es| - 1;
    if j < n {
      EntriesAt(es[..n], j);
      assert EntryFields(es)[2 * j..2 * j + 2] == EntryFields(es[..n])[2 * j..2 * j + 2];
    }
  }

  lemma {:induction false} KeysInOrder(m: map<Bytes, Bytes>, keys: seq<Bytes>)
    requires Ascending(keys) && forall k :: k in keys <==> k in m
    ensures |EntriesOf(m)| == |keys| && forall j :: 0 <= j < |keys| ==> EntriesOf(m)[j] == Entry(keys[j], m[keys[j]])
  {
    OneOrder(keys, InOrder(m.Keys));
    assert forall j :: 0 <= j < |keys| ==> keys[j] in keys;
  }

  lemma {:induction false} PostingInLayout(s: Submission, i: nat)
    requires i < |s.postings|
    ensures PostingAt(FieldsOf(s), 2 + 4 * i, s.postings[i])
  {
    var head, ps, es := [s.ledgerId, s.reference], PostingFields(s.postings), EntryFields(EntriesOf(s.metadata));
    PostingsAt(s.postings, i);
    SliceInside(head, ps, es + TimeField(s.validTime), 4 * i, 4);
    ThreeParts(head, ps, es, TimeField(s.validTime));
  }

  lemma {:induction false} EntryInside(before: seq<Bytes>, es: seq<Entry>, after: seq<Bytes>, j: nat)
    requires j < |es|
    ensures EntryAt(before + EntryFields(es) + after, |before| + 2 * j, es[j].key, es[j].value)
  {
    EntriesAt(es, j);
    SliceInside(before, EntryFields(es), after, 2 * j, 2);
  }

  lemma {:induction false} EntryInLayout(s: Submission, keys: seq<Bytes>, j: nat)
    requires Ascending(keys) && (forall k :: k in keys <==> k in s.metadata) && j < |keys|
    ensures keys[j] in s.metadata && EntryAt(FieldsOf(s), 2 + 4 * |s.postings| + 2 * j, keys[j], s.metadata[keys[j]])
  {
    var head, ps, es := [s.ledgerId, s.reference], PostingFields(s.postings), EntryFields(EntriesOf(s.metadata));
    KeysInOrder(s.metadata, keys);
    assert |head + ps| == 2 + 4 * |s.postings| && keys[j] in keys && EntriesOf(s.metadata)[j] == Entry(keys[j], s.metadata[keys[j]]);
    EntryInside(head + ps, EntriesOf(s.metadata), TimeField(s.validTime), j);
  }

  /** Where the list begins and ends. */
  lemma {:induction false} EndsOfLayout(s: Submission, keys: seq<Bytes>)
    requires Ascending(keys) && forall k :: k in keys <==> k in s.metadata
    ensures var f, n := FieldsOf(s), 2 + 4 * |s.postings| + 2 * |keys|;
      && n <= |f| && f[..2] == [s.ledgerId, s.reference]
      && f[n..] == if s.validTime.Some? then [s.validTime.value] else []
  {
    var head, ps, es := [s.ledgerId, s.reference], PostingFields(s.postings), EntryFields(EntriesOf(s.metadata));
    KeysInOrder(s.metadata, keys);
    assert |head + ps + es| == 2 + 4 * |s.postings| + 2 * |keys|;
  }

  /**
   * Ledger and reference, four fields a posting, key and value of each metadata entry by ascending
   * key, and the valid time where one is given.
   */
  lemma {:induction false} SubmissionLayout(s: Submission, keys: seq<Bytes>)
    requires Ascending(keys) && forall k :: k in keys <==> k in s.metadata
    ensures var f, n, m := FieldsOf(s), |s.postings|, |keys|;
      && f[..2] == [s.ledgerId, s.reference]
      && (forall i :: 0 <= i < n ==> PostingAt(f, 2 + 4 * i, s.postings[i]))
      && (forall j :: 0 <= j < m ==> keys[j] in s.metadata && EntryAt(f, 2 + 4 * n + 2 * j, keys[j], s.metadata[keys[j]]))
      && 2 + 4 * n + 2 * m <= |f| && f[2 + 4 * n + 2 * m..] == if s.validTime.Some? then [s.validTime.value] else []
  {
    EndsOfLayout(s, keys);
    forall i | 0 <= i < |s.postings|
      ensures PostingAt(FieldsOf(s), 2 + 4 * i, s.postings[i])
    {
      PostingInLayout(s, i);
    }
    forall j | 0 <= j < |keys|
      ensures keys[j] in s.metadata && EntryAt(FieldsOf(s), 2 + 4 * |s.postings| + 2 * j, keys[j], s.metadata[keys[j]])
    {
      EntryInLayout(s, keys, j);
    }
  }

  lemma {:induction false} ThreeParts(a: seq<Bytes>, b: seq<Bytes>, c: seq<Bytes>, d: seq<Bytes>)
    ensures a + b + c + d == a + b + (c + d)
  {
  }

  lemma {:induction false} SliceInside(before: seq<Bytes>, part: seq<Bytes>, after: seq<Bytes>, i: nat, n: nat)
    requires i + n <= |part|
    ensures (before + part + after)[|before| + i..|before| + i + n] == part[i..i + n]
  {
  }

  predicate PostingAt(f: seq<Bytes>, k: nat, p: PostingText) {
    k + 4 <= |f| && f[k..k + 4] == [p.source, p.destination, p.amount, p.asset]
  }

  predicate EntryAt(f: seq<Bytes>, k: nat, key: Bytes, value: Bytes) { k + 2 <= |f| && f[k..k + 2] == [key, value] }

  /** Every other request: its ledger, the name of its operation, then its inputs; of a conversion neither slippage nor valid time. */
  lemma {:induction false} RequestLayout(r: Request)
    ensures |RequestFields(r)| >= 3 && RequestFields(r)[0] == r.ledgerId
    ensures r.Authorize? ==>
      RequestFields(r)[1..] == [Text("authorize"), r.source, r.destHint, r.asset, r.amount, r.expiresAt]
    ensures r.Capture? ==> RequestFields(r)[1..] == [Text("capture"), r.holdId, r.amount, r.destination]
    ensures r.Void? ==> RequestFields(r)[1..] == [Text("void"), r.holdId]
    ensures r.Revert? ==> RequestFields(r)[1..] == [Text("revert"), r.transactionId,
      Text(if r.force then "true" else "false"), Text(if r.atEffectiveDate then "true" else "false"), r.reason]
    ensures r.Convert? ==> RequestFields(r)[1..] == [Text("convert"), r.source, r.destination, r.sourceAmount, r.sourceAsset,
      r.destAmount, r.destAsset, r.rate, r.rateSource]
  {
  }
}
