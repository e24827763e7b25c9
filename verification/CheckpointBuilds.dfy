/**
 * The checkpoint builder: one build as a method, and what an undisturbed build leaves to the next.
 */
module CheckpointBuilds {
  import opened Wrappers
  import opened LedgerState
  import opened Checkpoints

  /** The builder whose loop this is. */
  const ME: nat := 0

  /** The tables with no query open but perhaps one's own. */
  function Alone(rows: seq<VolumeDelta>, cps: seq<Checkpoint>, cs: seq<Checkpoint>): Table {
    Table(rows, cps, map[ME := cs])
  }

  lemma {:induction false} SetAlone(rows: seq<VolumeDelta>, cps: seq<Checkpoint>, cs: seq<Checkpoint>)
    ensures Alone(rows, cps, []).Set(ME, cs) == Alone(rows, cps, cs)
  {
  }

  /** What happens to one row of the query: rows other transactions insert before its write, and two failures. */
  datatype RowFate = RowFate(arrivals: seq<VolumeDelta>, scans: bool, writes: bool)

  datatype BuildError = QueryFailed | ScanFailed | IterationFailed | WritesFailed(failed: nat, total: nat)

  function RowEvents(fates: seq<RowFate>): seq<Event> {
    if fates == [] then []
    else
      var last := fates[|fates| - 1];
      RowEvents(fates[..|fates| - 1]) + Inserts(last.arrivals) + if last.scans then [Write(ME, last.writes)] else []
  }

  function CountFailed(fates: seq<RowFate>): nat {
    if fates == [] then 0 else CountFailed(fates[..|fates| - 1]) + if fates[|fates| - 1].writes then 0 else 1
  }

  /** One turn of the loop, as events. */
  lemma {:induction false} RowStep(start: Table, fates: seq<RowFate>, i: nat)
    requires i < |fates|
    ensures var t := RunTable(start, RowEvents(fates[..i]));
      var t' := t.(rows := t.rows + fates[i].arrivals);
      RunTable(start, RowEvents(fates[..i + 1])) == if fates[i].scans then Next(t', Write(ME, fates[i].writes)) else t'
  {
    var t := RunTable(start, RowEvents(fates[..i]));
    var arrivals := Inserts(fates[i].arrivals);
    assert fates[..i + 1][..i] == fates[..i];
    var all := RowEvents(fates[..i]) + arrivals;
    RunConcat(start, RowEvents(fates[..i]), arrivals);
    RunInserts(t, fates[i].arrivals);
    assert RowEvents(fates[..i + 1]) == if fates[i].scans then all + [Write(ME, fates[i].writes)] else all;
    assert (all + [Write(ME, fates[i].writes)])[..|all|] == all;
  }

  /** A build as events: the query, the rows it gets through, the end of the query. */
  function BuildEvents(bs: seq<Bucket>, fates: seq<RowFate>): seq<Event> { [Query(ME, bs)] + RowEvents(fates) + [Close(ME)] }

  lemma {:induction false} BuildRun(t: Table, bs: seq<Bucket>, fates: seq<RowFate>)
    requires t.Of(ME) == [] && Distinct(bs)
    ensures RunTable(t, BuildEvents(bs, fates))
            == RunTable(t.Set(ME, GroupRows(t.rows, t.checkpoints, bs)), RowEvents(fates)).Set(ME, [])
  {
    var query := [Query(ME, bs)];
    assert query[..0] == [] && query[|query| - 1] == Query(ME, bs);
    assert RunTable(t, query) == Next(RunTable(t, []), Query(ME, bs));
    RunConcat(t, query, RowEvents(fates));
    var all := query + RowEvents(fates);
    assert (all + [Close(ME)])[..|all|] == all;
  }

  predicate Scans(fates: seq<RowFate>) { forall i :: 0 <= i < |fates| ==> fates[i].scans }

  /** The fates of the rows the loop reached: nothing follows a failed scan. */
  predicate Reached(fates: seq<RowFate>) { forall i :: 0 <= i < |fates| - 1 ==> fates[i].scans }

  // ----- a build leaves nothing to build -----

  predicate Undisturbed(fates: seq<RowFate>) { forall i :: 0 <= i < |fates| ==> fates[i] == RowFate([], true, true) }

  /** Whatever was covered, or is covered by a row of `done`, stays covered. */
  ghost predicate Settling(cps: seq<Checkpoint>, cps': seq<Checkpoint>, done: seq<Checkpoint>) {
    forall d :: Covered(d, cps) || Covered(d, done) ==> Covered(d, cps')
  }

  lemma {:induction false} UpsertCovers(cps: seq<Checkpoint>, p: Checkpoint, d: VolumeDelta)
    ensures Covered(d, cps) || p.Covers(d) ==> Covered(d, Upsert(cps, p))
  {
    var k := FindKey(cps, p);
    var after := Upsert(cps, p);
    assert k < |after| && after[k] == p;
    if Covered(d, cps) {
      var i :| 0 <= i < |cps| && cps[i].Covers(d);
      assert i < |after| && after[i].Covers(d);
    }
  }

  lemma {:induction false} SettlesOneMore(cps: seq<Checkpoint>, cps': seq<Checkpoint>, done: seq<Checkpoint>, p: Checkpoint)
    requires Settling(cps, cps', done)
    ensures Settling(cps, Upsert(cps', p), done + [p])
  {
    forall d | Covered(d, cps) || Covered(d, done + [p])
      ensures Covered(d, Upsert(cps', p))
    {
      CoveredByMore(d, done, p);
      UpsertCovers(cps', p, d);
    }
  }

  /** The checkpoints after the undisturbed writes of the first rows of a query. */
  lemma {:induction false} WritesSettle(t: Table, fates: seq<RowFate>)
    requires Undisturbed(fates) && |fates| <= |t.Of(ME)|
    ensures var t' := RunTable(t, RowEvents(fates));
      && t'.rows == t.rows && t'.Of(ME) == t.Of(ME)[|fates|..]
      && Settling(t.checkpoints, t'.checkpoints, t.Of(ME)[..|fates|])
  {
    if fates != [] {
      var n := |fates| - 1;
      WritesSettle(t, fates[..n]);
      RowStep(t, fates, n);
      assert fates[..n + 1] == fates && t.rows + [] == t.rows;
      var before := RunTable(t, RowEvents(fates[..n]));
      var p := t.Of(ME)[n];
      assert before.Of(ME)[0] == p && before.Of(ME)[1..] == t.Of(ME)[n + 1..];
      SettlesOneMore(t.checkpoints, before.checkpoints, t.Of(ME)[..n], p);
      assert t.Of(ME)[..n + 1] == t.Of(ME)[..n] + [p];
    }
  }

  lemma {:induction false} GroupIsQueried(rows: seq<VolumeDelta>, cps: seq<Checkpoint>, bs: seq<Bucket>, b: Bucket)
    requires b in bs && GroupRow(rows, cps, b).Some?
    ensures GroupRow(rows, cps, b).value in GroupRows(rows, cps, bs)
  {
    if b != bs[|bs| - 1] {
      GroupIsQueried(rows, cps, bs[..|bs| - 1], b);
    }
  }

  /** What the query finds of a bucket, all of it, is covered once its row is written. */
  lemma {:induction false} WrittenGroupIsCovered(
    rows: seq<VolumeDelta>, cps: seq<Checkpoint>, cps': seq<Checkpoint>, queried: seq<Checkpoint>, b: Bucket)
    requires Settling(cps, cps', queried)
    requires GroupRow(rows, cps, b).Some? && GroupRow(rows, cps, b).value in queried
    ensures Uncovered(rows, cps', b) == []
  {
    var p := GroupRow(rows, cps, b).value;
    forall d | d in rows && d.Where() == b
      ensures Covered(d, cps')
    {
      if !Covered(d, cps) {
        assert d in Uncovered(rows, cps, b) && p.Covers(d);
        assert Covered(d, queried);
      }
    }
    AllCovered(rows, cps', b);
  }

  lemma {:induction false} SettledGroup(
    rows: seq<VolumeDelta>, cps: seq<Checkpoint>, cps': seq<Checkpoint>, bs: seq<Bucket>, b: Bucket)
    requires b in bs && Settling(cps, cps', GroupRows(rows, cps, bs))
    ensures GroupRow(rows, cps', b).None?
  {
    if GroupRow(rows, cps, b).Some? {
      GroupIsQueried(rows, cps, bs, b);
      WrittenGroupIsCovered(rows, cps, cps', GroupRows(rows, cps, bs), b);
    } else {
      FewerUncovered(rows, cps, cps', b);
    }
  }

  /** After an undisturbed build over all buckets, no bucket has more than a hundred uncovered rows. */
  lemma {:induction false} BuildSettles(t: Table, bs: seq<Bucket>, fates: seq<RowFate>, b: Bucket)
    requires t.Of(ME) == [] && Distinct(bs) && b in bs
    requires Undisturbed(fates) && |fates| == |GroupRows(t.rows, t.checkpoints, bs)|
    ensures var t' := RunTable(t, BuildEvents(bs, fates)); GroupRow(t'.rows, t'.checkpoints, b).None?
  {
    BuildRun(t, bs, fates);
    var queried := GroupRows(t.rows, t.checkpoints, bs);
    var t1 := t.Set(ME, queried);
    WritesSettle(t1, fates);
    assert queried[..|fates|] == queried;
    SettledGroup(t.rows, t.checkpoints, RunTable(t1, RowEvents(fates)).checkpoints, bs, b);
  }

  /** What one turn of the loop does to the tables, the open rows and the count. */
  lemma {:induction false} Turn(start: Table, fates: seq<RowFate>, queried: seq<Checkpoint>, i: nat)
    requires i < |fates| <= |queried| && RunTable(start, RowEvents(fates[..i])).Of(ME) == queried[i..]
    ensures var t, t' := RunTable(start, RowEvents(fates[..i])), RunTable(start, RowEvents(fates[..i + 1]));
      && t'.rows == t.rows + fates[i].arrivals
      && t'.checkpoints == (if fates[i].scans && fates[i].writes then Upsert(t.checkpoints, queried[i]) else t.checkpoints)
      && (fates[i].scans ==> t'.Of(ME) == queried[i + 1..])
    ensures CountFailed(fates[..i + 1]) == CountFailed(fates[..i]) + if fates[i].writes then 0 else 1
  {
    RowStep(start, fates, i);
    assert fates[..i + 1][..i] == fates[..i];
    assert queried[i..][0] == queried[i] && queried[i..][1..] == queried[i + 1..];
  }

  class CheckpointBuilder {
    var rows: seq<VolumeDelta>
    var checkpoints: seq<Checkpoint>

    constructor ()
      ensures rows == [] && checkpoints == []
    {
      rows, checkpoints := [], [];
    }

    /** The fields are the two tables of `t`. */
    predicate Holds(t: Table)
      reads this
    {
      rows == t.rows && checkpoints == t.checkpoints
    }

    method WriteCheckpoint(c: Checkpoint, succeeds: bool) returns (ok: bool)
      modifies this`checkpoints
      ensures ok == succeeds
      ensures checkpoints == if ok then Upsert(old(checkpoints), c) else old(checkpoints)
    {
      if !succeeds { return false; }
      var i := FindKey(checkpoints, c);
      if i < |checkpoints| {
        checkpoints := checkpoints[i := c];
      } else {
        checkpoints := checkpoints + [c];
      }
      return true;
    }

    /** The row loop. A failed scan ends it; a failed write is counted and passed over. */
    method WriteRows(queried: seq<Checkpoint>, fates: seq<RowFate>) returns (scanned: bool, built: nat, failed: nat)
      requires |fates| <= |queried| && Reached(fates)
      modifies this
      ensures scanned <==> Scans(fates)
      ensures Holds(RunTable(Alone(old(rows), old(checkpoints), queried), RowEvents(fates)))
      ensures scanned ==> built + failed == |fates| && failed == CountFailed(fates)
    {
      ghost var start := Alone(rows, checkpoints, queried);
      ghost var t := start;
      assert RowEvents(fates[..0]) == [] && queried[0..] == queried;
      scanned, built, failed := true, 0, 0;
      for i := 0 to |fates|
        invariant scanned && forall j :: 0 <= j < i ==> fates[j].scans
        invariant built + failed == i && failed == CountFailed(fates[..i])
        invariant t == RunTable(start, RowEvents(fates[..i])) && Holds(t) && t.Of(ME) == queried[i..]
      {
        Turn(start, fates, queried, i);
        t := RunTable(start, RowEvents(fates[..i + 1]));
        rows := rows + fates[i].arrivals;
        if !fates[i].scans {
          assert i + 1 == |fates| && fates[..i + 1] == fates;
          return false, built, failed;
        }
        var ok := WriteCheckpoint(queried[i], fates[i].writes);
        if ok {
          built := built + 1;
        } else {
          failed := failed + 1;
        }
      }
      assert fates[..|fates|] == fates;
    }

    /**
     * One build is one of the histories above, over the buckets the query's LIMIT keeps. It reports
     * an error exactly when the query, a scan, the iteration or some write failed; a failed write
     * does not stop the others.
     */
    method BuildCheckpoints(bs: seq<Bucket>, queryFails: bool, fates: seq<RowFate>) returns (r: Outcome<BuildError>)
      requires Distinct(bs) && |fates| <= |GroupRows(rows, checkpoints, bs)| <= MAX_GROUPS && Reached(fates)
      modifies this
      ensures queryFails ==> r == Fail(QueryFailed) && rows == old(rows) && checkpoints == old(checkpoints)
      ensures !queryFails ==> Holds(RunTable(Alone(old(rows), old(checkpoints), []), BuildEvents(bs, fates)))
      ensures r.Pass? <==>
        !queryFails && |fates| == old(|GroupRows(rows, checkpoints, bs)|) && Scans(fates) && CountFailed(fates) == 0
      ensures r.Fail? && r.error.WritesFailed? ==> r.error.failed == CountFailed(fates) && r.error.total == |fates|
    {
      if queryFails { return Fail(QueryFailed); }
      BuildRun(Alone(rows, checkpoints, []), bs, fates);
      var queried := GroupRows(rows, checkpoints, bs);
      SetAlone(rows, checkpoints, queried);
      var scanned, built, failed := WriteRows(queried, fates);
      if !scanned { return Fail(ScanFailed); }
      if |fates| < |queried| { return Fail(IterationFailed); }
      if failed > 0 { return Fail(WritesFailed(failed, built + failed)); }
      return Pass;
    }
  }
}
