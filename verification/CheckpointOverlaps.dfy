/**
 * Overlapping checkpoint builds: exactly which writes keep the sums when two builders hold rows of
 * one bucket, and runs in which they count rows twice and in which a write replaces a checkpoint.
 */
module CheckpointOverlaps {
  import opened Wrappers
  import opened LedgerState
  import opened Checkpoints

  lemma {:induction false} TotalsReplaced(cps: seq<Checkpoint>, i: nat, p: Checkpoint, b: Bucket)
    requires i < |cps| && cps[i].where == p.where
    ensures TotalInput(cps[i := p], b) == TotalInput(cps, b) + if p.where == b then p.input - cps[i].input else 0
    ensures TotalOutput(cps[i := p], b) == TotalOutput(cps, b) + if p.where == b then p.output - cps[i].output else 0
  {
    var n := |cps| - 1;
    if i == n {
      assert cps[i := p][..n] == cps[..n];
    } else {
      assert cps[i := p][..n] == cps[..n][i := p];
      TotalsReplaced(cps[..n], i, p, b);
    }
  }

  lemma {:induction false} SameKeySameCover(cps: seq<Checkpoint>, i: nat, p: Checkpoint, d: VolumeDelta)
    requires i < |cps| && cps[i].SameKey(p)
    ensures Covered(d, cps[i := p]) <==> Covered(d, cps)
  {
    var after := cps[i := p];
    forall j | 0 <= j < |cps|
      ensures after[j].Covers(d) == cps[j].Covers(d)
    {
    }
  }

  /** Taking the conflict branch keeps the sums exactly when the totals are those already there. */
  lemma {:induction false} ReplaceKeepsAgreementIff(rows: seq<VolumeDelta>, cps: seq<Checkpoint>, i: nat, p: Checkpoint)
    requires Agrees(rows, cps) && i < |cps| && cps[i].SameKey(p)
    ensures Agrees(rows, cps[i := p]) <==> p.input == cps[i].input && p.output == cps[i].output
  {
    var after := cps[i := p];
    forall b: Bucket
      ensures AgreesAt(rows, after, b) <==> b != p.where || (p.input == cps[i].input && p.output == cps[i].output)
    {
      assert AgreesAt(rows, cps, b);
      SameKeySameUncovered(rows, cps, i, p, b);
      TotalsReplaced(cps, i, p, b);
    }
    assert AgreesAt(rows, after, p.where) <==> p.input == cps[i].input && p.output == cps[i].output;
  }

  lemma {:induction false} SameKeySameUncovered(rows: seq<VolumeDelta>, cps: seq<Checkpoint>, i: nat, p: Checkpoint, b: Bucket)
    requires i < |cps| && cps[i].SameKey(p)
    ensures Uncovered(rows, cps[i := p], b) == Uncovered(rows, cps, b)
  {
    forall d | d in rows && d.Where() == b
      ensures Covered(d, cps) <==> Covered(d, cps[i := p])
    {
      SameKeySameCover(cps, i, p, d);
    }
    SameCoverage(rows, cps, cps[i := p], b);
  }

  /** Whatever a builder writes, when it writes: exactly which writes keep the sums. */
  lemma {:induction false} UpsertKeepsAgreementIff(rows: seq<VolumeDelta>, cps: seq<Checkpoint>, p: Checkpoint)
    requires Agrees(rows, cps)
    ensures Agrees(rows, Upsert(cps, p)) <==>
      if FindKey(cps, p) < |cps|
      then p.input == cps[FindKey(cps, p)].input && p.output == cps[FindKey(cps, p)].output
      else SumsWhatItCovers(rows, cps, p)
  {
    if FindKey(cps, p) < |cps| {
      ReplaceKeepsAgreementIff(rows, cps, FindKey(cps, p), p);
    } else {
      WriteKeepsAgreementIff(rows, cps, p);
    }
  }

  lemma {:induction false} LastApart(rows: seq<VolumeDelta>, more: seq<VolumeDelta>, n: nat)
    requires |more| == n + 1
    ensures rows + more == rows + more[..n] + [more[n]] && more == more[..n] + [more[n]]
  {
  }

  lemma {:induction false} PendingAfterInserts(rows: seq<VolumeDelta>, more: seq<VolumeDelta>, cps: seq<Checkpoint>, p: Checkpoint)
    requires PendingSound(rows, cps, p) && forall d :: d in more ==> !p.Covers(d)
    ensures PendingSound(rows + more, cps, p)
    decreases |more|, 1
  {
    if |more| > 0 {
      LastApart(rows, more, |more| - 1);
      PendingAfterMore(rows, more[..|more| - 1], more[|more| - 1], cps, p);
    } else {
      assert rows + more == rows;
    }
  }

  lemma {:induction false} PendingAfterMore(
    rows: seq<VolumeDelta>, more: seq<VolumeDelta>, d: VolumeDelta, cps: seq<Checkpoint>, p: Checkpoint)
    requires PendingSound(rows, cps, p) && !p.Covers(d) && forall x :: x in more ==> !p.Covers(x)
    ensures PendingSound(rows + more + [d], cps, p)
    decreases |more| + 1, 0
  {
    PendingAfterInserts(rows, more, cps, p);
    PendingAfterInsert(rows + more, cps, p, d);
  }

  lemma {:induction false} UncoveredMore(rows: seq<VolumeDelta>, more: seq<VolumeDelta>, cps: seq<Checkpoint>, b: Bucket)
    ensures Uncovered(rows + more, cps, b) == Uncovered(rows, cps, b) + Uncovered(more, cps, b)
    decreases |more|, 1
  {
    if |more| > 0 {
      LastApart(rows, more, |more| - 1);
      UncoveredMoreOne(rows, more[..|more| - 1], more[|more| - 1], cps, b);
    } else {
      assert rows + more == rows && Uncovered(rows, cps, b) + [] == Uncovered(rows, cps, b);
    }
  }

  lemma {:induction false} UncoveredMoreOne(
    rows: seq<VolumeDelta>, more: seq<VolumeDelta>, d: VolumeDelta, cps: seq<Checkpoint>, b: Bucket)
    ensures Uncovered(rows + more + [d], cps, b) == Uncovered(rows, cps, b) + Uncovered(more + [d], cps, b)
    decreases |more| + 1, 0
  {
    UncoveredMore(rows, more, cps, b);
    UncoveredOneMore(rows + more, d, cps, b);
    UncoveredOneMore(more, d, cps, b);
    ConcatAssociates(Uncovered(rows, cps, b), Uncovered(more, cps, b), Uncovered([d], cps, b));
  }

  lemma {:induction false} ConcatAssociates(u: seq<VolumeDelta>, v: seq<VolumeDelta>, x: seq<VolumeDelta>)
    ensures u + v + x == u + (v + x)
  {
  }

  lemma {:induction false} UncoveredOneMore(rows: seq<VolumeDelta>, d: VolumeDelta, cps: seq<Checkpoint>, b: Bucket)
    ensures Uncovered(rows + [d], cps, b) == Uncovered(rows, cps, b) + Uncovered([d], cps, b)
  {
    UncoveredAfterInsert(rows, d, cps, b);
    UncoveredAfterInsert([], d, cps, b);
    assert [] + [d] == [d];
  }

  lemma {:induction false} LaterRowIsAbove(
    rows: seq<VolumeDelta>, more: seq<VolumeDelta>, cps: seq<Checkpoint>, b: Bucket, p: Checkpoint, q: Checkpoint, d: VolumeDelta)
    requires GroupRow(rows + more, cps, b) == Some(q) && d in Uncovered(more, cps, b)
    requires forall i :: 0 <= i < |more| ==> !p.Covers(more[i])
    ensures q.Covers(d) && !p.Covers(d)
  {
    var i :| 0 <= i < |more| && more[i] == d;
    assert (rows + more)[|rows| + i] == d;
    assert d in Uncovered(rows + more, cps, b);
  }

  lemma {:induction false} NothingLater(rows: seq<VolumeDelta>, more: seq<VolumeDelta>, cps: seq<Checkpoint>, b: Bucket)
    requires Uncovered(more, cps, b) == []
    ensures GroupRow(rows + more, cps, b) == GroupRow(rows, cps, b)
  {
    UncoveredMore(rows, more, cps, b);
    assert Uncovered(rows, cps, b) + [] == Uncovered(rows, cps, b);
  }

  /** Two queries of one bucket, the second after fresh inserts, get the same watermarks only for the same rows. */
  lemma {:induction false} SameKeySameRow(
    rows: seq<VolumeDelta>, more: seq<VolumeDelta>, cps: seq<Checkpoint>, b: Bucket, p: Checkpoint, q: Checkpoint)
    requires GroupRow(rows, cps, b) == Some(p) && GroupRow(rows + more, cps, b) == Some(q)
    requires forall i :: 0 <= i < |more| ==> !p.Covers(more[i])
    ensures p.SameKey(q) ==> p == q
  {
    var later := Uncovered(more, cps, b);
    if later == [] {
      NothingLater(rows, more, cps, b);
    } else {
      LaterRowIsAbove(rows, more, cps, b, p, q, later[0]);
    }
  }

  /** The state of two overlapping builds of one bucket, with fresh inserts between their queries. */
  ghost predicate Overlap(
    rows: seq<VolumeDelta>, more: seq<VolumeDelta>, cps: seq<Checkpoint>, b: Bucket, p: Checkpoint, q: Checkpoint)
  {
    && Agrees(rows + more, cps)
    && GroupRow(rows, cps, b) == Some(p) && GroupRow(rows + more, cps, b) == Some(q)
    && forall i :: 0 <= i < |more| ==> !p.Covers(more[i])
  }

  predicate Empty(p: Checkpoint) { p.input == 0 && p.output == 0 }

  lemma {:induction false} OverlapFacts(
    rows: seq<VolumeDelta>, more: seq<VolumeDelta>, cps: seq<Checkpoint>, b: Bucket, p: Checkpoint, q: Checkpoint)
    requires Overlap(rows, more, cps, b, p, q)
    ensures p.where == b && q.where == b && PendingSound(rows + more, cps, p) && PendingSound(rows + more, cps, q)
    ensures Uncovered(rows + more, cps + [q], b) == [] && (p.SameKey(q) ==> p == q)
    ensures Upsert(cps, p) == cps + [p] && Upsert(cps, q) == cps + [q]
    ensures Agrees(rows + more, cps + [p]) && Agrees(rows + more, cps + [q])
  {
    GroupRowSound(rows, cps, b);
    GroupRowSound(rows + more, cps, b);
    forall d | d in more
      ensures !p.Covers(d)
    {
      var i :| 0 <= i < |more| && more[i] == d;
    }
    PendingAfterInserts(rows, more, cps, p);
    SameKeySameRow(rows, more, cps, b, p, q);
    NeverOverwrites(rows + more, cps, p);
    NeverOverwrites(rows + more, cps, q);
    WriteKeepsAgreementIff(rows + more, cps, p);
    WriteKeepsAgreementIff(rows + more, cps, q);
  }

  lemma {:induction false} KeyAfterOne(cps: seq<Checkpoint>, c: Checkpoint, p: Checkpoint)
    requires FindKey(cps, p) == |cps|
    ensures Upsert(cps + [c], p) == if c.SameKey(p) then cps + [p] else cps + [c] + [p]
  {
    var all := cps + [c];
    assert forall j :: 0 <= j < |cps| ==> all[j] == cps[j] && !cps[j].SameKey(p);
    assert all[|cps|] == c;
    assert all[|cps| := p] == cps + [p];
  }

  lemma {:induction false} NothingLeftStaysSo(rows: seq<VolumeDelta>, cps: seq<Checkpoint>, c: Checkpoint, b: Bucket)
    requires Uncovered(rows, cps, b) == []
    ensures Uncovered(rows, cps + [c], b) == []
  {
    forall d | Covered(d, cps)
      ensures Covered(d, cps + [c])
    {
      CoveredByMore(d, cps, c);
    }
    FewerUncovered(rows, cps, cps + [c], b);
  }

  lemma {:induction false} SwappedCover(rows: seq<VolumeDelta>, cps: seq<Checkpoint>, p: Checkpoint, q: Checkpoint, b: Bucket)
    ensures Uncovered(rows, cps + [p] + [q], b) == Uncovered(rows, cps + [q] + [p], b)
  {
    forall d | d in rows && d.Where() == b
      ensures Covered(d, cps + [p] + [q]) <==> Covered(d, cps + [q] + [p])
    {
      CoveredByMore(d, cps, p);
      CoveredByMore(d, cps, q);
      CoveredByMore(d, cps + [p], q);
      CoveredByMore(d, cps + [q], p);
    }
    SameCoverage(rows, cps + [p] + [q], cps + [q] + [p], b);
  }

  /** What the second writer still covers, when it covers everything. */
  lemma {:induction false} SecondSumsIff(rows: seq<VolumeDelta>, cps: seq<Checkpoint>, p: Checkpoint, q: Checkpoint)
    requires p.where == q.where && SumsWhatItCovers(rows, cps, p) && SumsWhatItCovers(rows, cps, q)
    requires Uncovered(rows, cps + [q], q.where) == []
    ensures SumsWhatItCovers(rows, cps + [p], q) <==> Empty(p)
    ensures SumsWhatItCovers(rows, cps + [q], p) <==> Empty(p)
  {
    NothingLeftStaysSo(rows, cps + [q], p, q.where);
    SwappedCover(rows, cps, p, q, q.where);
  }

  /**
   * Whichever is written first, the sums survive the second write exactly when the two queries found
   * the same row or the rows of the earlier query sum to nothing.
   */
  lemma {:induction false} OverlapKeepsAgreementIff(
    rows: seq<VolumeDelta>, more: seq<VolumeDelta>, cps: seq<Checkpoint>, b: Bucket, p: Checkpoint, q: Checkpoint)
    requires Overlap(rows, more, cps, b, p, q)
    ensures Agrees(rows + more, Upsert(Upsert(cps, p), q)) <==> p == q || Empty(p)
    ensures Agrees(rows + more, Upsert(Upsert(cps, q), p)) <==> p == q || Empty(p)
  {
    OverlapFacts(rows, more, cps, b, p, q);
    KeysOfTwo(cps, p, q);
    if p != q {
      SecondSumsIff(rows + more, cps, p, q);
      WriteKeepsAgreementIff(rows + more, cps + [p], q);
      WriteKeepsAgreementIff(rows + more, cps + [q], p);
    }
  }

  lemma {:induction false} KeysOfTwo(cps: seq<Checkpoint>, p: Checkpoint, q: Checkpoint)
    requires Upsert(cps, p) == cps + [p] && Upsert(cps, q) == cps + [q]
    ensures !p.SameKey(q) ==> Upsert(cps + [p], q) == cps + [p] + [q] && Upsert(cps + [q], p) == cps + [q] + [p]
    ensures p == q ==> Upsert(cps + [p], q) == cps + [p]
  {
    assert |Upsert(cps, p)| == |cps| + 1 && |Upsert(cps, q)| == |cps| + 1;
    KeyAfterOne(cps, p, q);
    KeyAfterOne(cps, q, p);
  }

  // ----- two builders, concretely -----

  function RowAt(b: Bucket, time: Time): VolumeDelta { VolumeDelta(b.account, b.asset, "", time, time, 1, 0) }

  function RowsAt(b: Bucket, n: nat): (r: seq<VolumeDelta>)
    ensures |r| == n && forall i :: 0 <= i < n ==> r[i].Where() == b && r[i].systemTime < n
  {
    if n == 0 then [] else RowsAt(b, n - 1) + [RowAt(b, n - 1)]
  }

  lemma {:induction false} OneMoreRow(b: Bucket, n: nat)
    ensures Uncovered(RowsAt(b, n) + [RowAt(b, n)], [], b) == Uncovered(RowsAt(b, n), [], b) + [RowAt(b, n)]
    ensures Input(RowsAt(b, n) + [RowAt(b, n)], b) == Input(RowsAt(b, n), b) + 1
  {
    UncoveredAfterInsert(RowsAt(b, n), RowAt(b, n), [], b);
  }

  lemma {:induction false} RowsAtUncovered(b: Bucket, n: nat)
    ensures Uncovered(RowsAt(b, n), [], b) == RowsAt(b, n) && Input(RowsAt(b, n), b) == n
  {
    if n > 0 {
      RowsAtUncovered(b, n - 1);
      OneMoreRow(b, n - 1);
    }
  }

  lemma {:induction false} AgreesWithoutCheckpoints(rows: seq<VolumeDelta>, b: Bucket)
    ensures Input(Uncovered(rows, [], b), b) == Input(rows, b) && Output(Uncovered(rows, [], b), b) == Output(rows, b)
  {
    if rows != [] {
      var n := |rows| - 1;
      AgreesWithoutCheckpoints(rows[..n], b);
      assert rows[..n] + [rows[n]] == rows && !Covered(rows[n], []);
      UncoveredAfterInsert(rows[..n], rows[n], [], b);
    }
  }

  function TwoQueries(b: Bucket, more: seq<VolumeDelta>): seq<Event> {
    [] + [Query(0, [b])] + Inserts(more) + [Query(1, [b])]
  }

  lemma {:induction false} OneGroup(rows: seq<VolumeDelta>, cps: seq<Checkpoint>, b: Bucket)
    requires GroupRow(rows, cps, b).Some?
    ensures GroupRows(rows, cps, [b]) == [GroupRow(rows, cps, b).value]
  {
    assert [b][..0] == [];
  }

  lemma {:induction false} RunOne(t: Table, es: seq<Event>, e: Event)
    ensures RunTable(t, es + [e]) == Next(RunTable(t, es), e)
  {
    assert (es + [e])[..|es|] == es;
  }

  lemma {:induction false} QueryFinds(t: Table, p: nat, b: Bucket, c: Checkpoint)
    requires t.Of(p) == [] && GroupRow(t.rows, t.checkpoints, b) == Some(c)
    ensures Next(t, Query(p, [b])) == t.Set(p, [c])
  {
    OneGroup(t.rows, t.checkpoints, b);
  }

  lemma {:induction false} ThenInserts(start: Table, es: seq<Event>, t: Table, more: seq<VolumeDelta>)
    requires RunTable(start, es) == t
    ensures RunTable(start, es + Inserts(more)) == t.(rows := t.rows + more)
  {
    RunConcat(start, es, Inserts(more));
    RunInserts(t, more);
  }

  lemma {:induction false} OneQueryRun(
    rows: seq<VolumeDelta>, more: seq<VolumeDelta>, cps: seq<Checkpoint>, b: Bucket, p: Checkpoint)
    requires GroupRow(rows, cps, b) == Some(p)
    ensures RunTable(Table(rows, cps, map[]), [] + [Query(0, [b])] + Inserts(more)) == Table(rows + more, cps, map[]).Set(0, [p])
  {
    var t0 := Table(rows, cps, map[]);
    QueryFinds(t0, 0, b, p);
    RunOne(t0, [], Query(0, [b]));
    ThenInserts(t0, [] + [Query(0, [b])], t0.Set(0, [p]), more);
  }

  lemma {:induction false} TwoQueriesRun(
    rows: seq<VolumeDelta>, more: seq<VolumeDelta>, cps: seq<Checkpoint>, b: Bucket, p: Checkpoint, q: Checkpoint)
    requires GroupRow(rows, cps, b) == Some(p) && GroupRow(rows + more, cps, b) == Some(q)
    ensures RunTable(Table(rows, cps, map[]), TwoQueries(b, more)) == Table(rows + more, cps, map[]).Set(0, [p]).Set(1, [q])
  {
    OneQueryRun(rows, more, cps, b, p);
    QueryFinds(Table(rows + more, cps, map[]).Set(0, [p]), 1, b, q);
    RunOne(Table(rows, cps, map[]), [] + [Query(0, [b])] + Inserts(more), Query(1, [b]));
  }

  lemma {:induction false} BothWritten(t: Table, p: Checkpoint, q: Checkpoint, es: seq<Event>, start: Table)
    requires RunTable(start, es) == t && t.Of(0) == [p] && t.Of(1) == [q]
    ensures var t' := RunTable(start, es + [Write(0, true)] + [Write(1, true)]);
      t'.rows == t.rows && t'.checkpoints == Upsert(Upsert(t.checkpoints, p), q)
  {
    RunOne(start, es, Write(0, true));
    RunOne(start, es + [Write(0, true)], Write(1, true));
  }

  /** Any group large enough to be built. */
  lemma {:induction false} GroupOf(b: Bucket, n: nat) returns (c: Checkpoint)
    requires n > MIN_ROWS
    ensures GroupRow(RowsAt(b, n), [], b) == Some(c) && c.input == n && c.systemUpper < n
  {
    var rows := RowsAt(b, n);
    RowsAtUncovered(b, n);
    c := GroupRow(rows, [], b).value;
    var d :| d in rows && d.systemTime == c.systemUpper;
  }

  lemma {:induction false} NoCheckpointsAgree(rows: seq<VolumeDelta>)
    ensures Agrees(rows, [])
  {
    forall c: Bucket
      ensures AgreesAt(rows, [], c)
    {
      AgreesWithoutCheckpoints(rows, c);
    }
  }

  lemma {:induction false} OverlapRun(
    rows: seq<VolumeDelta>, more: seq<VolumeDelta>, cps: seq<Checkpoint>, b: Bucket, p: Checkpoint, q: Checkpoint)
    requires GroupRow(rows, cps, b) == Some(p) && GroupRow(rows + more, cps, b) == Some(q)
    ensures var t := RunTable(Table(rows, cps, map[]), TwoQueries(b, more) + [Write(0, true)] + [Write(1, true)]);
      t.rows == rows + more && t.checkpoints == Upsert(Upsert(cps, p), q)
  {
    var queried := Table(rows + more, cps, map[]).Set(0, [p]).Set(1, [q]);
    TwoQueriesRun(rows, more, cps, b, p, q);
    assert queried.Of(0) == [p] && queried.Of(1) == [q] && queried.rows == rows + more && queried.checkpoints == cps;
    BothWritten(queried, p, q, TwoQueries(b, more), Table(rows, cps, map[]));
  }

  /** Two builders overlap, fresh rows arrive between their queries: the earlier rows are counted twice. */
  lemma {:induction false} OverlapCountsTwice(
    rows: seq<VolumeDelta>, more: seq<VolumeDelta>, cps: seq<Checkpoint>, b: Bucket, p: Checkpoint, q: Checkpoint)
    requires Overlap(rows, more, cps, b, p, q) && p != q && !Empty(p)
    ensures var t := RunTable(Table(rows, cps, map[]), TwoQueries(b, more) + [Write(0, true)] + [Write(1, true)]);
      !Agrees(t.rows, t.checkpoints)
  {
    OverlapRun(rows, more, cps, b, p, q);
    OverlapKeepsAgreementIff(rows, more, cps, b, p, q);
  }

  lemma {:induction false} RowOfMore(group: seq<VolumeDelta>, d: VolumeDelta, b: Bucket)
    requires RowOf(group, b).Some?
    ensures RowOf(group + [d], b).Some? && RowOf(group + [d], b).value.systemUpper >= d.systemTime
  {
    var all := group + [d];
    assert all[|group|] == d && d in all;
  }

  lemma {:induction false} OneLater(
    rows: seq<VolumeDelta>, d: VolumeDelta, cps: seq<Checkpoint>, b: Bucket, p: Checkpoint, q: Checkpoint)
    requires Agrees(rows + [d], cps) && p.systemUpper < d.systemTime
    requires GroupRow(rows, cps, b) == Some(p) && GroupRow(rows + [d], cps, b) == Some(q)
    ensures Overlap(rows, [d], cps, b, p, q)
  {
  }

  /** Such states are everywhere: any group of a table whose sums agree, and one later row of its bucket. */
  lemma {:induction false} LaterRowOverlaps(
    rows: seq<VolumeDelta>, d: VolumeDelta, cps: seq<Checkpoint>, b: Bucket, p: Checkpoint) returns (q: Checkpoint)
    requires Agrees(rows, cps) && !Covered(d, cps)
    requires GroupRow(rows, cps, b) == Some(p) && d.Where() == b && p.systemUpper < d.systemTime
    ensures q != p && Overlap(rows, [d], cps, b, p, q)
  {
    InsertKeepsAgreementIff(rows, cps, d);
    UncoveredAfterInsert(rows, d, cps, b);
    RowOfMore(Uncovered(rows, cps, b), d, b);
    q := GroupRow(rows + [d], cps, b).value;
    OneLater(rows, d, cps, b, p, q);
  }

  lemma {:induction false} OverlapOfRows(b: Bucket, n: nat) returns (p: Checkpoint, q: Checkpoint)
    requires n > MIN_ROWS
    ensures Overlap(RowsAt(b, n), [RowAt(b, n)], [], b, p, q) && p != q && !Empty(p)
  {
    p := GroupOf(b, n);
    NoCheckpointsAgree(RowsAt(b, n));
    q := LaterRowOverlaps(RowsAt(b, n), RowAt(b, n), [], b, p);
  }

  lemma {:induction false} AfterInserts(rows: seq<VolumeDelta>, es: seq<Event>)
    ensures RunTable(NO_ROWS, Inserts(rows) + es) == RunTable(Table(rows, [], map[]), es)
  {
    RunConcat(NO_ROWS, Inserts(rows), es);
    RunInserts(NO_ROWS, rows);
    assert NO_ROWS.rows + rows == rows;
  }

  /** A whole run: enough rows of any bucket, two builders, one row between their queries, and the sums are wrong. */
  lemma {:induction false} TwoBuildersBreakSums(b: Bucket, n: nat) returns (es: seq<Event>)
    requires n > MIN_ROWS
    ensures !Agrees(RunTable(NO_ROWS, es).rows, RunTable(NO_ROWS, es).checkpoints)
  {
    var build := TwoQueries(b, [RowAt(b, n)]) + [Write(0, true)] + [Write(1, true)];
    var p, q := OverlapOfRows(b, n);
    OverlapCountsTwice(RowsAt(b, n), [RowAt(b, n)], [], b, p, q);
    AfterInserts(RowsAt(b, n), build);
    es := Inserts(RowsAt(b, n)) + build;
  }

  lemma {:induction false} WrittenKeyIsFound(cps: seq<Checkpoint>, p: Checkpoint)
    ensures FindKey(Upsert(cps, p), p) < |Upsert(cps, p)|
  {
    var k := FindKey(cps, p);
    assert Upsert(cps, p)[k] == p;
  }

  /** Two queries of one snapshot: the second write takes the conflict branch. */
  lemma {:induction false} OverlapTakesConflict(rows: seq<VolumeDelta>, cps: seq<Checkpoint>, b: Bucket, p: Checkpoint)
    requires GroupRow(rows, cps, b) == Some(p)
    ensures var t := RunTable(Table(rows, cps, map[]), TwoQueries(b, []) + [Write(0, true)]);
      t.Of(1) == [p] && FindKey(t.checkpoints, p) < |t.checkpoints|
  {
    assert rows + [] == rows;
    var t0, t := Table(rows, cps, map[]), Table(rows, cps, map[]).Set(0, [p]).Set(1, [p]);
    TwoQueriesRun(rows, [], cps, b, p, p);
    assert RunTable(t0, TwoQueries(b, [])) == t;
    RunOne(t0, TwoQueries(b, []), Write(0, true));
    WrittenKeyIsFound(cps, p);
  }
}
