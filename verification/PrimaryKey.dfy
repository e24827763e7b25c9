/**
 * What the primary key of the volume rows costs: an operation commits under it exactly when it
 * commits without it and touches no bucket twice. For each kind of operation, what that means to
 * its caller.
 */
module PrimaryKey {
  import opened Wrappers
  import opened LedgerState
  import opened Transitions
  import opened Effects
  import opened Histories
  import opened Admission

  function Unkeyed(l: Ledger): Ledger { l.(keyedDeltas := false) }

  lemma {:induction false} UnkeyedAccepts(l: Ledger, s: State, rows: seq<VolumeDelta>)
    requires !l.keyedDeltas
    ensures InsertDeltas(l, s, rows) == Success(s.(deltas := s.deltas + rows))
  {
    if rows != [] {
      UnkeyedAccepts(l, s, rows[..|rows| - 1]);
    }
    InsertedRows(l, s, rows);
  }

  lemma {:induction false} SameChecks(l: Ledger, s: State, op: Op)
    ensures Admissible(l, s, op) <==> Admissible(Unkeyed(l), s, op)
    ensures Accepts(l, s, op) <==> Accepts(Unkeyed(l), s, op)
  {
    assert forall p :: ValidPosting(l, p) <==> ValidPosting(Unkeyed(l), p);
    assert forall a :: IsIssuer(l, a) <==> IsIssuer(Unkeyed(l), a);
  }

  /** Under the key an operation commits exactly when it does without, and writes no bucket twice. */
  lemma {:induction false} KeyedCommitsIff(l: Ledger, s: State, c: Call)
    requires l.keyedDeltas && LogSound(s)
    ensures Commits(l, s, c) <==> Commits(Unkeyed(l), s, c) && DistinctBuckets(AppendedRows(s, c.op, c.env))
  {
    CommitsIff(l, s, c);
    CommitsIff(Unkeyed(l), s, c);
    SameChecks(l, s, c.op);
    var rows := AppendedRows(s, c.op, c.env);
    UnkeyedAccepts(Unkeyed(l), s, rows);
    if !Collides(s.log, AppendedEvent(s, c.op, c.env)) {
      NewEventId(s, AppendedEvent(s, c.op, c.env));
      LegsShareEvent(Moves(s, c.op), c.env.eventId, EventTime(s, c.op, c.env), c.env.now);
      KeyedRowsAcceptedIff(l, s, rows, c.env.eventId);
    }
  }

  /** The sources and destinations of a posting list, as buckets. */
  function BucketsOf(ps: seq<Posting>): (r: seq<Bucket>)
    ensures |r| == 2 * |ps|
  {
    if ps == [] then []
    else
      var p := ps[|ps| - 1];
      BucketsOf(ps[..|ps| - 1]) + [Bucket(p.source, p.asset), Bucket(p.destination, p.asset)]
  }

  predicate NoBucketTwice(ps: seq<Posting>) {
    forall i, j :: 0 <= i < j < |BucketsOf(ps)| ==> BucketsOf(ps)[i] != BucketsOf(ps)[j]
  }

  lemma {:induction false} LegBuckets(ps: seq<Posting>, eventId: Id, validTime: Time, now: Time)
    requires forall i :: 0 <= i < |ps| ==> ps[i].amount > 0
    ensures |Legs(ps, eventId, validTime, now)| == 2 * |ps|
    ensures forall k :: 0 <= k < 2 * |ps| ==> Legs(ps, eventId, validTime, now)[k].Where() == BucketsOf(ps)[k]
  {
    if ps != [] {
      LegBuckets(ps[..|ps| - 1], eventId, validTime, now);
    }
  }

  lemma {:induction false} DistinctLegsIff(ps: seq<Posting>, eventId: Id, validTime: Time, now: Time)
    requires forall i :: 0 <= i < |ps| ==> ps[i].amount > 0
    ensures DistinctBuckets(Legs(ps, eventId, validTime, now)) <==> NoBucketTwice(ps)
  {
    LegBuckets(ps, eventId, validTime, now);
    var rows := Legs(ps, eventId, validTime, now);
    forall i, j | 0 <= i < j < |rows|
      ensures rows[i].Where() == rows[j].Where() <==> BucketsOf(ps)[i] == BucketsOf(ps)[j]
    {
    }
  }

  /** A post commits under the key exactly when it would anyway and names no bucket twice. */
  lemma {:induction false} KeyedPostIff(l: Ledger, s: State, c: Call)
    requires l.keyedDeltas && LogSound(s) && c.op.Post? && !c.op.dryRun
    ensures Commits(l, s, c) <==> Commits(Unkeyed(l), s, c) && NoBucketTwice(c.op.postings)
  {
    KeyedCommitsIff(l, s, c);
    if ValidPostings(Unkeyed(l), c.op.postings) {
      DistinctLegsIff(c.op.postings, c.env.eventId, c.env.validTime, c.env.now);
    }
  }

  lemma {:induction false} ConversionBuckets(c: ConvertParams, e: Env)
    requires c.sourceAmount > 0 && c.destAmount > 0 && c.sourceAsset != c.destAsset
    ensures DistinctBuckets(Legs(ConversionPostings(c), e.eventId, e.validTime, e.now))
            <==> !c.HasSlippage() && c.source != c.destination
  {
    ConversionRowsAreLegs(c, e);
    var rows := ConversionRows(c, e);
    assert rows[0].Where() == Bucket(c.source, c.sourceAsset) && rows[1].Where() == Bucket(c.destination, c.sourceAsset);
    assert rows[2].Where() == Bucket(c.destination, c.destAsset) && rows[3].Where() == Bucket(c.source, c.destAsset);
    if c.HasSlippage() {
      assert rows[4].Where() == rows[0].Where();
    }
  }

  /** A conversion commits under the key exactly when it would anyway, without slippage and into another account. */
  lemma {:induction false} KeyedConvertIff(l: Ledger, s: State, c: Call)
    requires l.keyedDeltas && LogSound(s) && c.op.Convert?
    ensures Commits(l, s, c) <==>
      Commits(Unkeyed(l), s, c) && !c.op.params.HasSlippage() && c.op.params.source != c.op.params.destination
  {
    KeyedCommitsIff(l, s, c);
    if ValidConversion(Unkeyed(l), c.op.params) {
      ConversionBuckets(c.op.params, c.env);
    }
  }

  /** A capture commits under the key exactly when it would anyway, into another account than its source. */
  lemma {:induction false} KeyedCaptureIff(l: Ledger, s: State, c: Call)
    requires l.keyedDeltas && LogSound(s) && c.op.Capture? && FindHold(s.holds, c.op.holdId) < |s.holds|
    ensures var h := s.holds[FindHold(s.holds, c.op.holdId)];
      Commits(l, s, c) <==> Commits(Unkeyed(l), s, c) && CaptureDestination(h, c.op.destination) != h.source
  {
    KeyedCommitsIff(l, s, c);
    var h, e := s.holds[FindHold(s.holds, c.op.holdId)], c.env;
    var p := Posting(h.source, CaptureDestination(h, c.op.destination), c.op.amount, h.asset);
    assert Moves(s, c.op) == [p] && AppendedRows(s, c.op, e) == Legs([p], e.eventId, e.now, e.now);
    if c.op.amount > 0 {
      OnePostingDistinctIff(p, e);
    }
  }

  lemma {:induction false} OnePostingDistinctIff(p: Posting, e: Env)
    requires p.amount > 0
    ensures DistinctBuckets(Legs([p], e.eventId, e.now, e.now)) <==> p.source != p.destination
  {
    assert BucketsOf([p]) == BucketsOf([p][..0]) + [Bucket(p.source, p.asset), Bucket(p.destination, p.asset)];
    DistinctLegsIff([p], e.eventId, e.now, e.now);
    assert BucketsOf([p])[0] == Bucket(p.source, p.asset) && BucketsOf([p])[1] == Bucket(p.destination, p.asset);
  }

  /** The two buckets of a posting stand side by side. */
  lemma {:induction false} BucketsAt(ps: seq<Posting>, i: nat)
    requires i < |ps|
    ensures BucketsOf(ps)[2 * i] == Bucket(ps[i].source, ps[i].asset)
    ensures BucketsOf(ps)[2 * i + 1] == Bucket(ps[i].destination, ps[i].asset)
  {
    var n := |ps| - 1;
    if i < n {
      BucketsAt(ps[..n], i);
    }
  }

  function Partner(k: nat): nat { if k % 2 == 0 then k + 1 else k - 1 }

  lemma {:induction false} ReversedPair(ps: seq<Posting>, i: nat)
    requires i < |ps|
    ensures BucketsOf(Reverse(ps))[2 * i] == BucketsOf(ps)[2 * i + 1]
    ensures BucketsOf(Reverse(ps))[2 * i + 1] == BucketsOf(ps)[2 * i]
  {
    BucketsAt(ps, i);
    BucketsAt(Reverse(ps), i);
    assert Reverse(ps)[i] == Swap(ps[i]);
  }

  lemma {:induction false} ReversedBucket(ps: seq<Posting>, k: nat)
    requires k < 2 * |ps|
    ensures Partner(k) < 2 * |ps| && BucketsOf(Reverse(ps))[k] == BucketsOf(ps)[Partner(k)]
  {
    ReversedPair(ps, k / 2);
    assert k == 2 * (k / 2) || k == 2 * (k / 2) + 1;
  }

  lemma {:induction false} ApartUnlessOnce(ps: seq<Posting>, i: nat, j: nat)
    requires NoBucketTwice(ps) && i < 2 * |ps| && j < 2 * |ps| && i != j
    ensures BucketsOf(ps)[i] != BucketsOf(ps)[j]
  {
    if i < j {
      assert BucketsOf(ps)[i] != BucketsOf(ps)[j];
    } else {
      assert BucketsOf(ps)[j] != BucketsOf(ps)[i];
    }
  }

  lemma {:induction false} PartnersDiffer(i: nat, j: nat)
    requires i != j
    ensures Partner(i) != Partner(j)
  {
  }

  lemma {:induction false} ReversedDistinct(ps: seq<Posting>)
    requires NoBucketTwice(ps)
    ensures NoBucketTwice(Reverse(ps))
  {
    var back := BucketsOf(Reverse(ps));
    forall i, j | 0 <= i < j < |back|
      ensures back[i] != back[j]
    {
      ReversedBucket(ps, i);
      ReversedBucket(ps, j);
      PartnersDiffer(i, j);
      ApartUnlessOnce(ps, Partner(i), Partner(j));
    }
  }

  lemma {:induction false} ReversedDistinctIff(ps: seq<Posting>)
    ensures NoBucketTwice(Reverse(ps)) <==> NoBucketTwice(ps)
  {
    if NoBucketTwice(ps) {
      ReversedDistinct(ps);
    }
    if NoBucketTwice(Reverse(ps)) {
      ReversedDistinct(Reverse(ps));
      ReverseTwice(ps);
    }
  }

  /** A revert commits under the key exactly when it would anyway and its transaction names no bucket twice. */
  lemma {:induction false} KeyedRevertIff(l: Ledger, s: State, c: Call)
    requires l.keyedDeltas && LogSound(s) && c.op.Revert? && c.op.txId in s.transactions
    requires forall i :: 0 <= i < |s.transactions[c.op.txId].postings| ==> s.transactions[c.op.txId].postings[i].amount > 0
    ensures Commits(l, s, c) <==> Commits(Unkeyed(l), s, c) && NoBucketTwice(s.transactions[c.op.txId].postings)
  {
    var ps := s.transactions[c.op.txId].postings;
    KeyedCommitsIff(l, s, c);
    ReversedDistinctIff(ps);
    DistinctLegsIff(Reverse(ps), c.env.eventId, EventTime(s, c.op, c.env), c.env.now);
    assert AppendedRows(s, c.op, c.env) == Legs(Reverse(ps), c.env.eventId, EventTime(s, c.op, c.env), c.env.now);
  }
}
