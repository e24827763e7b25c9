/**
 * What the checkpoint query and its writes do, row by row: which buckets are due, with which
 * watermarks and sums, and which stored row a write replaces.
 */
module CheckpointAnswers {
  import opened Wrappers
  import opened LedgerState
  import opened Checkpoints
  import opened CheckpointBuilds

  /** Some checkpoint of the row's bucket is at or above it in both times. */
  predicate Below(d: VolumeDelta, cps: seq<Checkpoint>) {
    exists i :: 0 <= i < |cps| && cps[i].where == Bucket(d.account, d.asset)
      && d.validTime <= cps[i].validUpper && d.systemTime <= cps[i].systemUpper
  }

  lemma {:induction false} CoveredIff(d: VolumeDelta, cps: seq<Checkpoint>)
    ensures Covered(d, cps) <==> Below(d, cps)
  {
    if Covered(d, cps) {
      var i :| 0 <= i < |cps| && cps[i].Covers(d);
      assert cps[i].where == Bucket(d.account, d.asset);
    }
    if Below(d, cps) {
      var i :| 0 <= i < |cps| && cps[i].where == Bucket(d.account, d.asset)
        && d.validTime <= cps[i].validUpper && d.systemTime <= cps[i].systemUpper;
      assert cps[i].Covers(d);
    }
  }

  /** The places of a bucket's rows that no checkpoint is above. */
  function Pending(rows: seq<VolumeDelta>, cps: seq<Checkpoint>, b: Bucket): set<nat> {
    set i: nat | i < |rows| && IsPending(rows[i], cps, b)
  }

  predicate IsPending(d: VolumeDelta, cps: seq<Checkpoint>, b: Bucket) { Bucket(d.account, d.asset) == b && !Below(d, cps) }

  lemma {:induction false} PendingOneMore(rows: seq<VolumeDelta>, cps: seq<Checkpoint>, b: Bucket)
    requires rows != []
    ensures var n := |rows| - 1;
      Pending(rows, cps, b) == Pending(rows[..n], cps, b) + if IsPending(rows[n], cps, b) then {n} else {}
  {
    var n := |rows| - 1;
    assert forall i :: 0 <= i < n ==> rows[..n][i] == rows[i];
  }

  lemma {:induction false} PendingCount(rows: seq<VolumeDelta>, cps: seq<Checkpoint>, b: Bucket)
    ensures |Uncovered(rows, cps, b)| == |Pending(rows, cps, b)|
  {
    if rows != [] {
      var n := |rows| - 1;
      PendingCount(rows[..n], cps, b);
      CoveredIff(rows[n], cps);
      PendingOneMore(rows, cps, b);
    }
  }

  /** A bucket is due with more than a hundred such rows; its row stands at the latest of their times. */
  lemma {:induction false} DueIff(rows: seq<VolumeDelta>, cps: seq<Checkpoint>, b: Bucket)
    ensures GroupRow(rows, cps, b).Some? <==> |Pending(rows, cps, b)| > 100
    ensures GroupRow(rows, cps, b).Some? ==>
      var c := GroupRow(rows, cps, b).value;
      && c.where == b
      && (forall i :: i in Pending(rows, cps, b) ==> rows[i].validTime <= c.validUpper && rows[i].systemTime <= c.systemUpper)
      && (exists i :: i in Pending(rows, cps, b) && rows[i].validTime == c.validUpper)
      && (exists i :: i in Pending(rows, cps, b) && rows[i].systemTime == c.systemUpper)
  {
    PendingCount(rows, cps, b);
    var group := Uncovered(rows, cps, b);
    if |group| > MIN_ROWS {
      forall i | i in Pending(rows, cps, b)
        ensures rows[i] in group
      {
        CoveredIff(rows[i], cps);
      }
      var d :| d in group && d.validTime == MaxValid(group);
      var e :| e in group && e.systemTime == MaxSystem(group);
      PendingOf(rows, cps, b, d);
      PendingOf(rows, cps, b, e);
    }
  }

  lemma {:induction false} PendingOf(rows: seq<VolumeDelta>, cps: seq<Checkpoint>, b: Bucket, d: VolumeDelta)
    requires d in Uncovered(rows, cps, b)
    ensures exists i :: i in Pending(rows, cps, b) && rows[i] == d
  {
    CoveredIff(d, cps);
    var i :| 0 <= i < |rows| && rows[i] == d;
    assert i in Pending(rows, cps, b);
  }

  /** A write replaces the first row of its bucket with both its watermarks, or is one more row. */
  lemma {:induction false} WritesOne(cps: seq<Checkpoint>, c: Checkpoint, i: nat)
    requires i <= |cps|
    requires forall j :: 0 <= j < i ==>
      (cps[j].where, cps[j].validUpper, cps[j].systemUpper) != (c.where, c.validUpper, c.systemUpper)
    requires i < |cps| ==> (cps[i].where, cps[i].validUpper, cps[i].systemUpper) == (c.where, c.validUpper, c.systemUpper)
    ensures Upsert(cps, c) == if i < |cps| then cps[i := c] else cps + [c]
  {
    var k := FindKey(cps, c);
    assert k < |cps| ==> cps[k].SameKey(c);
    assert i < |cps| ==> cps[i].SameKey(c);
  }

  lemma {:induction false} FailedWrites(fates: seq<RowFate>)
    ensures CountFailed(fates) == |set i: nat | i < |fates| && !fates[i].writes|
  {
    if fates != [] {
      var n := |fates| - 1;
      FailedWrites(fates[..n]);
      var before, all := set i: nat | i < n && !fates[..n][i].writes, set i: nat | i < |fates| && !fates[i].writes;
      assert all == if fates[n].writes then before else before + {n};
    }
  }
}
