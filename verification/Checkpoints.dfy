/**
 * Volume checkpoints: rollups keyed by a pair of time watermarks. The query takes a snapshot;
 * its rows are written one by one while other transactions insert volume rows.
 */
module Checkpoints {
  import opened Wrappers
  import opened LedgerState

  const MIN_ROWS := 100
  const MAX_GROUPS := 1000

  datatype Checkpoint = Checkpoint(where: Bucket, validUpper: Time, systemUpper: Time, input: int, output: int)
  {
    /** The row is at or below both watermarks. */
    predicate Covers(d: VolumeDelta) {
      d.Where() == where && d.validTime <= validUpper && d.systemTime <= systemUpper
    }

    predicate SameKey(c: Checkpoint) {
      where == c.where && validUpper == c.validUpper && systemUpper == c.systemUpper
    }
  }

  predicate Covered(d: VolumeDelta, cps: seq<Checkpoint>) { exists i :: 0 <= i < |cps| && cps[i].Covers(d) }

  /** The rows of a bucket that the anti-join keeps. */
  function Uncovered(rows: seq<VolumeDelta>, cps: seq<Checkpoint>, b: Bucket): (r: seq<VolumeDelta>)
    ensures forall d :: d in r <==> d in rows && d.Where() == b && !Covered(d, cps)
  {
    if rows == [] then []
    else
      var n := |rows| - 1;
      Uncovered(rows[..n], cps, b) + if rows[n].Where() == b && !Covered(rows[n], cps) then [rows[n]] else []
  }

  function MaxValid(rows: seq<VolumeDelta>): (m: Time)
    requires rows != []
    ensures forall d :: d in rows ==> d.validTime <= m
    ensures exists d :: d in rows && d.validTime == m
  {
    var n := |rows| - 1;
    assert rows[n] in rows && forall d :: d in rows ==> d in rows[..n] || d == rows[n];
    if n == 0 then rows[0].validTime
    else
      var m := MaxValid(rows[..n]);
      assert forall d :: d in rows[..n] ==> d in rows;
      if rows[n].validTime > m then rows[n].validTime else m
  }

  function MaxSystem(rows: seq<VolumeDelta>): (m: Time)
    requires rows != []
    ensures forall d :: d in rows ==> d.systemTime <= m
    ensures exists d :: d in rows && d.systemTime == m
  {
    var n := |rows| - 1;
    assert rows[n] in rows && forall d :: d in rows ==> d in rows[..n] || d == rows[n];
    if n == 0 then rows[0].systemTime
    else
      var m := MaxSystem(rows[..n]);
      assert forall d :: d in rows[..n] ==> d in rows;
      if rows[n].systemTime > m then rows[n].systemTime else m
  }

  /** GROUP BY with its HAVING: a row for more than a hundred uncovered rows. */
  function RowOf(group: seq<VolumeDelta>, b: Bucket): Option<Checkpoint> {
    if |group| <= MIN_ROWS then None
    else Some(Checkpoint(b, MaxValid(group), MaxSystem(group), Input(group, b), Output(group, b)))
  }

  function GroupRow(rows: seq<VolumeDelta>, cps: seq<Checkpoint>, b: Bucket): Option<Checkpoint> {
    RowOf(Uncovered(rows, cps, b), b)
  }

  /** The query for a list of buckets, whichever LIMIT keeps. */
  function GroupRows(rows: seq<VolumeDelta>, cps: seq<Checkpoint>, bs: seq<Bucket>): seq<Checkpoint> {
    if bs == [] then []
    else
      GroupRows(rows, cps, bs[..|bs| - 1])
      + match GroupRow(rows, cps, bs[|bs| - 1]) case Some(c) => [c] case None => []
  }

  /** The row with the watermarks of `c`, or `|cps|`. */
  function FindKey(cps: seq<Checkpoint>, c: Checkpoint): (i: nat)
    ensures i <= |cps|
    ensures i < |cps| ==> cps[i].SameKey(c)
    ensures forall j :: 0 <= j < i ==> !cps[j].SameKey(c)
  {
    if cps == [] then 0
    else if cps[0].SameKey(c) then 0
    else 1 + FindKey(cps[1..], c)
  }

  /** INSERT ... ON CONFLICT (bucket, watermarks) DO UPDATE. */
  function Upsert(cps: seq<Checkpoint>, c: Checkpoint): seq<Checkpoint> {
    var i := FindKey(cps, c);
    if i < |cps| then cps[i := c] else cps + [c]
  }

  function TotalInput(cps: seq<Checkpoint>, b: Bucket): int {
    if cps == [] then 0
    else TotalInput(cps[..|cps| - 1], b) + if cps[|cps| - 1].where == b then cps[|cps| - 1].input else 0
  }

  function TotalOutput(cps: seq<Checkpoint>, b: Bucket): int {
    if cps == [] then 0
    else TotalOutput(cps[..|cps| - 1], b) + if cps[|cps| - 1].where == b then cps[|cps| - 1].output else 0
  }

  /** Checkpoint totals and the rows no checkpoint covers add up to what a balance read sums. */
  ghost predicate AgreesAt(rows: seq<VolumeDelta>, cps: seq<Checkpoint>, b: Bucket) {
    && TotalInput(cps, b) + Input(Uncovered(rows, cps, b), b) == Input(rows, b)
    && TotalOutput(cps, b) + Output(Uncovered(rows, cps, b), b) == Output(rows, b)
  }

  ghost predicate Agrees(rows: seq<VolumeDelta>, cps: seq<Checkpoint>) { forall b: Bucket :: AgreesAt(rows, cps, b) }

  // ----- histories -----

  /** The two tables, and for each builder the rows of its open query that are still to be written. */
  datatype Table = Table(rows: seq<VolumeDelta>, checkpoints: seq<Checkpoint>, pending: map<nat, seq<Checkpoint>>)
  {
    function Of(p: nat): seq<Checkpoint> { if p in pending then pending[p] else [] }

    function Set(p: nat, cs: seq<Checkpoint>): Table { this.(pending := pending[p := cs]) }
  }

  datatype Event =
    | Insert(row: VolumeDelta)
    | Query(p: nat, groups: seq<Bucket>)
    | Write(p: nat, succeeds: bool)
    | Close(p: nat)

  predicate Distinct(bs: seq<Bucket>) { forall i, j :: 0 <= i < j < |bs| ==> bs[i] != bs[j] }

  /** A builder starts a query only when its last is over, whatever other builders do; it yields one row a group. */
  function Next(t: Table, e: Event): Table {
    match e
    case Insert(d) => t.(rows := t.rows + [d])
    case Query(p, bs) => if t.Of(p) == [] && Distinct(bs) then t.Set(p, GroupRows(t.rows, t.checkpoints, bs)) else t
    case Write(p, succeeds) =>
      if t.Of(p) == [] then t
      else
        t.Set(p, t.Of(p)[1..])
         .(checkpoints := if succeeds then Upsert(t.checkpoints, t.Of(p)[0]) else t.checkpoints)
    case Close(p) => t.Set(p, [])
  }

  function RunTable(t: Table, es: seq<Event>): Table {
    if es == [] then t else Next(RunTable(t, es[..|es| - 1]), es[|es| - 1])
  }

  /** No checkpoint, written or about to be written, dominates the new row in both times. */
  predicate Fresh(t: Table, d: VolumeDelta) {
    !Covered(d, t.checkpoints) && forall p | p in t.pending :: !Covered(d, t.pending[p])
  }

  predicate Apart(cs: seq<Checkpoint>, ds: seq<Checkpoint>) {
    forall i, j :: 0 <= i < |cs| && 0 <= j < |ds| ==> cs[i].where != ds[j].where
  }

  /** No other open query holds a row of a bucket this query finds. */
  predicate Separate(t: Table, p: nat, found: seq<Checkpoint>) {
    forall q | q in t.pending && q != p :: Apart(found, t.pending[q])
  }

  /** What a caller can see to: rows are fresh when inserted, queries separate when started. */
  predicate Orderly(t: Table, e: Event) {
    match e
    case Insert(d) => Fresh(t, d)
    case Query(p, bs) => t.Of(p) == [] ==> Separate(t, p, GroupRows(t.rows, t.checkpoints, bs))
    case _ => true
  }

  predicate OrderlyRun(t: Table, es: seq<Event>) {
    if es == [] then true
    else OrderlyRun(t, es[..|es| - 1]) && Orderly(RunTable(t, es[..|es| - 1]), es[|es| - 1])
  }

  const NO_ROWS := Table([], [], map[])

  /** What the sums of a pending row must be: exactly the uncovered rows it will cover. */
  ghost predicate SumsWhatItCovers(rows: seq<VolumeDelta>, cps: seq<Checkpoint>, p: Checkpoint) {
    && p.input + Input(Uncovered(rows, cps + [p], p.where), p.where) == Input(Uncovered(rows, cps, p.where), p.where)
    && p.output + Output(Uncovered(rows, cps + [p], p.where), p.where) == Output(Uncovered(rows, cps, p.where), p.where)
  }

  ghost predicate PendingSound(rows: seq<VolumeDelta>, cps: seq<Checkpoint>, p: Checkpoint) {
    && SumsWhatItCovers(rows, cps, p)
    && exists d :: d in Uncovered(rows, cps, p.where) && p.Covers(d)
  }

  ghost predicate OneABucket(groups: seq<Checkpoint>) {
    forall i, j :: 0 <= i < j < |groups| ==> groups[i].where != groups[j].where
  }

  /** The rows of one open query. */
  ghost predicate RowsSound(rows: seq<VolumeDelta>, cps: seq<Checkpoint>, cs: seq<Checkpoint>) {
    && (forall i :: 0 <= i < |cs| ==> PendingSound(rows, cps, cs[i]))
    && OneABucket(cs)
  }

  ghost predicate TableSound(t: Table) {
    && Agrees(t.rows, t.checkpoints)
    && (forall p: nat :: RowsSound(t.rows, t.checkpoints, t.Of(p)))
    && (forall p: nat, q: nat :: p != q ==> Apart(t.Of(p), t.Of(q)))
  }

  // ----- coverage -----

  lemma {:induction false} SameCoverage(rows: seq<VolumeDelta>, cps: seq<Checkpoint>, cps': seq<Checkpoint>, b: Bucket)
    requires forall d :: d in rows && d.Where() == b ==> (Covered(d, cps) <==> Covered(d, cps'))
    ensures Uncovered(rows, cps, b) == Uncovered(rows, cps', b)
  {
    if rows != [] {
      var n := |rows| - 1;
      assert rows[n] in rows && forall d :: d in rows[..n] ==> d in rows;
      SameCoverage(rows[..n], cps, cps', b);
    }
  }

  lemma {:induction false} CoveredByMore(d: VolumeDelta, cps: seq<Checkpoint>, p: Checkpoint)
    ensures Covered(d, cps + [p]) <==> Covered(d, cps) || p.Covers(d)
  {
    var all := cps + [p];
    assert all[|cps|] == p && forall i :: 0 <= i < |cps| ==> all[i] == cps[i];
    if Covered(d, cps) {
      var i :| 0 <= i < |cps| && cps[i].Covers(d);
      assert all[i].Covers(d);
    }
  }

  /** A checkpoint of one bucket changes nothing for another. */
  lemma {:induction false} OtherBucket(rows: seq<VolumeDelta>, cps: seq<Checkpoint>, p: Checkpoint, b: Bucket)
    requires p.where != b
    ensures Uncovered(rows, cps + [p], b) == Uncovered(rows, cps, b)
  {
    forall d | d in rows && d.Where() == b
      ensures Covered(d, cps) <==> Covered(d, cps + [p])
    {
      CoveredByMore(d, cps, p);
    }
    SameCoverage(rows, cps, cps + [p], b);
  }

  lemma {:induction false} FewerUncovered(rows: seq<VolumeDelta>, cps: seq<Checkpoint>, cps': seq<Checkpoint>, b: Bucket)
    requires forall d :: Covered(d, cps) ==> Covered(d, cps')
    ensures |Uncovered(rows, cps', b)| <= |Uncovered(rows, cps, b)|
  {
    if rows != [] {
      FewerUncovered(rows[..|rows| - 1], cps, cps', b);
    }
  }

  lemma {:induction false} UncoveredAfterInsert(rows: seq<VolumeDelta>, d: VolumeDelta, cps: seq<Checkpoint>, b: Bucket)
    ensures Uncovered(rows + [d], cps, b)
            == Uncovered(rows, cps, b) + if d.Where() == b && !Covered(d, cps) then [d] else []
    ensures Input(rows + [d], b) == Input(rows, b) + InputOf(d, b)
    ensures Output(rows + [d], b) == Output(rows, b) + OutputOf(d, b)
    ensures Input(Uncovered(rows + [d], cps, b), b)
            == Input(Uncovered(rows, cps, b), b) + if Covered(d, cps) then 0 else InputOf(d, b)
    ensures Output(Uncovered(rows + [d], cps, b), b)
            == Output(Uncovered(rows, cps, b), b) + if Covered(d, cps) then 0 else OutputOf(d, b)
  {
    assert (rows + [d])[..|rows|] == rows;
    var u := Uncovered(rows, cps, b);
    assert (u + [d])[..|u|] == u && u + [] == u;
  }

  lemma {:induction false} TotalsAfterInsert(cps: seq<Checkpoint>, p: Checkpoint, b: Bucket)
    ensures TotalInput(cps + [p], b) == TotalInput(cps, b) + if p.where == b then p.input else 0
    ensures TotalOutput(cps + [p], b) == TotalOutput(cps, b) + if p.where == b then p.output else 0
  {
    assert (cps + [p])[..|cps|] == cps;
  }

  // ----- exactly when one step keeps the equation -----

  lemma {:induction false} InsertKeepsAgreementAtIff(rows: seq<VolumeDelta>, cps: seq<Checkpoint>, d: VolumeDelta, b: Bucket)
    requires AgreesAt(rows, cps, b)
    ensures AgreesAt(rows + [d], cps, b) <==> !Covered(d, cps) || (InputOf(d, b) == 0 && OutputOf(d, b) == 0)
  {
    InputAfterInsert(rows, d, cps, b);
    OutputAfterInsert(rows, d, cps, b);
  }

  lemma {:induction false} InputAfterInsert(rows: seq<VolumeDelta>, d: VolumeDelta, cps: seq<Checkpoint>, b: Bucket)
    ensures Input(rows + [d], b) - Input(Uncovered(rows + [d], cps, b), b)
            == Input(rows, b) - Input(Uncovered(rows, cps, b), b) + if Covered(d, cps) then InputOf(d, b) else 0
  {
    UncoveredAfterInsert(rows, d, cps, b);
  }

  lemma {:induction false} OutputAfterInsert(rows: seq<VolumeDelta>, d: VolumeDelta, cps: seq<Checkpoint>, b: Bucket)
    ensures Output(rows + [d], b) - Output(Uncovered(rows + [d], cps, b), b)
            == Output(rows, b) - Output(Uncovered(rows, cps, b), b) + if Covered(d, cps) then OutputOf(d, b) else 0
  {
    UncoveredAfterInsert(rows, d, cps, b);
  }

  /** An insert keeps the equation exactly when no checkpoint dominates the row or it moves nothing. */
  lemma {:induction false} InsertKeepsAgreementIff(rows: seq<VolumeDelta>, cps: seq<Checkpoint>, d: VolumeDelta)
    requires Agrees(rows, cps)
    ensures Agrees(rows + [d], cps) <==> !Covered(d, cps) || (d.input == 0 && d.output == 0)
  {
    if !Covered(d, cps) || (d.input == 0 && d.output == 0) {
      forall b: Bucket
        ensures AgreesAt(rows + [d], cps, b)
      {
        InsertKeepsAgreementAtIff(rows, cps, d, b);
      }
    } else {
      InsertKeepsAgreementAtIff(rows, cps, d, d.Where());
    }
  }

  /** Writing a new checkpoint keeps it exactly when its totals are those of the rows it newly covers. */
  lemma {:induction false} WriteKeepsAgreementIff(rows: seq<VolumeDelta>, cps: seq<Checkpoint>, p: Checkpoint)
    requires Agrees(rows, cps)
    ensures Agrees(rows, cps + [p]) <==> SumsWhatItCovers(rows, cps, p)
  {
    forall b: Bucket
      ensures b != p.where ==> AgreesAt(rows, cps + [p], b)
      ensures b == p.where ==> (AgreesAt(rows, cps + [p], b) <==> SumsWhatItCovers(rows, cps, p))
    {
      assert AgreesAt(rows, cps, b);
      TotalsAfterInsert(cps, p, b);
      if b != p.where {
        OtherBucket(rows, cps, p, b);
      }
    }
    assert AgreesAt(rows, cps + [p], p.where) <==> SumsWhatItCovers(rows, cps, p);
  }

  // ----- every step of a history -----

  lemma {:induction false} PendingAfterInsert(rows: seq<VolumeDelta>, cps: seq<Checkpoint>, p: Checkpoint, d: VolumeDelta)
    requires PendingSound(rows, cps, p) && !p.Covers(d)
    ensures PendingSound(rows + [d], cps, p)
  {
    var b := p.where;
    UncoveredAfterInsert(rows, d, cps, b);
    UncoveredAfterInsert(rows, d, cps + [p], b);
    CoveredByMore(d, cps, p);
    var x :| x in Uncovered(rows, cps, b) && p.Covers(x);
    assert x in Uncovered(rows + [d], cps, b);
  }

  lemma {:induction false} PendingAfterWrite(rows: seq<VolumeDelta>, cps: seq<Checkpoint>, p: Checkpoint, q: Checkpoint)
    requires PendingSound(rows, cps, q) && p.where != q.where
    ensures PendingSound(rows, cps + [p], q)
  {
    OtherBucket(rows, cps, p, q.where);
    forall d | d in rows && d.Where() == q.where
      ensures Covered(d, cps + [q]) <==> Covered(d, cps + [p] + [q])
    {
      CoveredByMore(d, cps, q);
      CoveredByMore(d, cps, p);
      CoveredByMore(d, cps + [p], q);
    }
    SameCoverage(rows, cps + [q], cps + [p] + [q], q.where);
  }

  /** A pending row never meets a row with its watermarks, so the conflict branch overwrites nothing. */
  lemma {:induction false} NeverOverwrites(rows: seq<VolumeDelta>, cps: seq<Checkpoint>, p: Checkpoint)
    requires PendingSound(rows, cps, p)
    ensures FindKey(cps, p) == |cps| && Upsert(cps, p) == cps + [p]
  {
    var d :| d in Uncovered(rows, cps, p.where) && p.Covers(d);
    forall i | 0 <= i < |cps|
      ensures !cps[i].SameKey(p)
    {
      assert !cps[i].Covers(d);
    }
  }

  lemma {:induction false} AllCovered(rows: seq<VolumeDelta>, cps: seq<Checkpoint>, b: Bucket)
    requires forall d :: d in rows && d.Where() == b ==> Covered(d, cps)
    ensures Uncovered(rows, cps, b) == []
  {
    if rows != [] {
      var n := |rows| - 1;
      assert rows[n] in rows && forall d :: d in rows[..n] ==> d in rows;
      AllCovered(rows[..n], cps, b);
    }
  }

  /** A row at or above every uncovered row of its bucket leaves none uncovered. */
  lemma {:induction false} TopCoversAll(rows: seq<VolumeDelta>, cps: seq<Checkpoint>, p: Checkpoint)
    requires forall d :: d in Uncovered(rows, cps, p.where) ==> p.Covers(d)
    ensures Uncovered(rows, cps + [p], p.where) == []
  {
    forall d | d in rows && d.Where() == p.where
      ensures Covered(d, cps + [p])
    {
      CoveredByMore(d, cps, p);
      assert !Covered(d, cps) ==> d in Uncovered(rows, cps, p.where);
    }
    AllCovered(rows, cps + [p], p.where);
  }

  lemma {:induction false} GroupSound(rows: seq<VolumeDelta>, cps: seq<Checkpoint>, p: Checkpoint, group: seq<VolumeDelta>)
    requires group == Uncovered(rows, cps, p.where) && group != [] && forall d :: d in group ==> p.Covers(d)
    requires p.input == Input(group, p.where) && p.output == Output(group, p.where)
    ensures PendingSound(rows, cps, p) && Uncovered(rows, cps + [p], p.where) == []
  {
    TopCoversAll(rows, cps, p);
    assert group[0] in group;
  }

  /** A group row sums every uncovered row of its bucket, and covers them all. */
  lemma {:induction false} GroupRowSound(rows: seq<VolumeDelta>, cps: seq<Checkpoint>, b: Bucket)
    requires GroupRow(rows, cps, b).Some?
    ensures GroupRow(rows, cps, b).value.where == b && PendingSound(rows, cps, GroupRow(rows, cps, b).value)
    ensures Uncovered(rows, cps + [GroupRow(rows, cps, b).value], b) == []
  {
    GroupSound(rows, cps, GroupRow(rows, cps, b).value, Uncovered(rows, cps, b));
  }

  lemma {:induction false} GroupMember(rows: seq<VolumeDelta>, cps: seq<Checkpoint>, bs: seq<Bucket>, p: Checkpoint)
    requires p in GroupRows(rows, cps, bs)
    ensures p.where in bs && GroupRow(rows, cps, p.where) == Some(p)
  {
    var before, b := bs[..|bs| - 1], bs[|bs| - 1];
    if p in GroupRows(rows, cps, before) {
      GroupMember(rows, cps, before, p);
    } else {
      GroupRowSound(rows, cps, b);
    }
  }

  lemma {:induction false} OneMoreBucket(groups: seq<Checkpoint>, p: Checkpoint)
    requires OneABucket(groups) && forall q :: q in groups ==> q.where != p.where
    ensures OneABucket(groups + [p])
  {
    assert forall i :: 0 <= i < |groups| ==> groups[i] in groups;
  }

  lemma {:induction false} GroupRowsApart(rows: seq<VolumeDelta>, cps: seq<Checkpoint>, bs: seq<Bucket>)
    requires Distinct(bs)
    ensures OneABucket(GroupRows(rows, cps, bs))
  {
    if bs != [] {
      var before, b := bs[..|bs| - 1], bs[|bs| - 1];
      GroupRowsApart(rows, cps, before);
      if GroupRow(rows, cps, b).Some? {
        GroupRowSound(rows, cps, b);
        forall q | q in GroupRows(rows, cps, before)
          ensures q.where != b
        {
          GroupMember(rows, cps, before, q);
        }
        OneMoreBucket(GroupRows(rows, cps, before), GroupRow(rows, cps, b).value);
      }
    }
  }

  lemma {:induction false} GroupRowsSound(rows: seq<VolumeDelta>, cps: seq<Checkpoint>, bs: seq<Bucket>)
    requires Distinct(bs)
    ensures forall p :: p in GroupRows(rows, cps, bs) ==> p.where in bs && PendingSound(rows, cps, p)
    ensures OneABucket(GroupRows(rows, cps, bs))
  {
    GroupRowsApart(rows, cps, bs);
    forall p | p in GroupRows(rows, cps, bs)
      ensures p.where in bs && PendingSound(rows, cps, p)
    {
      GroupMember(rows, cps, bs, p);
      GroupRowSound(rows, cps, p.where);
    }
  }

  lemma {:induction false} RowsAfterInsert(rows: seq<VolumeDelta>, cps: seq<Checkpoint>, cs: seq<Checkpoint>, d: VolumeDelta)
    requires RowsSound(rows, cps, cs) && !Covered(d, cs)
    ensures RowsSound(rows + [d], cps, cs)
  {
    forall i | 0 <= i < |cs|
      ensures PendingSound(rows + [d], cps, cs[i])
    {
      PendingAfterInsert(rows, cps, cs[i], d);
    }
  }

  lemma {:induction false} RowsAfterWrite(rows: seq<VolumeDelta>, cps: seq<Checkpoint>, c: Checkpoint, cs: seq<Checkpoint>)
    requires RowsSound(rows, cps, cs) && forall i :: 0 <= i < |cs| ==> cs[i].where != c.where
    ensures RowsSound(rows, cps + [c], cs)
  {
    forall i | 0 <= i < |cs|
      ensures PendingSound(rows, cps + [c], cs[i])
    {
      PendingAfterWrite(rows, cps, c, cs[i]);
    }
  }

  lemma {:induction false} TailSound(rows: seq<VolumeDelta>, cps: seq<Checkpoint>, cs: seq<Checkpoint>)
    requires RowsSound(rows, cps, cs) && cs != []
    ensures RowsSound(rows, cps, cs[1..])
  {
  }

  lemma {:induction false} InsertSound(t: Table, d: VolumeDelta)
    requires TableSound(t) && Fresh(t, d)
    ensures TableSound(Next(t, Insert(d)))
  {
    var t' := Next(t, Insert(d));
    InsertKeepsAgreementIff(t.rows, t.checkpoints, d);
    forall p: nat
      ensures t'.Of(p) == t.Of(p) && RowsSound(t'.rows, t'.checkpoints, t'.Of(p))
    {
      RowsAfterInsert(t.rows, t.checkpoints, t.Of(p), d);
    }
  }

  /** Another list of rows for one builder. */
  lemma {:induction false} SetSound(t: Table, p: nat, cs: seq<Checkpoint>)
    requires TableSound(t) && RowsSound(t.rows, t.checkpoints, cs)
    requires forall q: nat :: q != p ==> Apart(cs, t.Of(q))
    ensures TableSound(t.Set(p, cs))
  {
    var t' := t.Set(p, cs);
    forall q: nat
      ensures q != p ==> t'.Of(q) == t.Of(q)
      ensures RowsSound(t'.rows, t'.checkpoints, t'.Of(q))
    {
      assert RowsSound(t.rows, t.checkpoints, t.Of(q));
    }
    forall q: nat, r: nat | q != r
      ensures Apart(t'.Of(q), t'.Of(r))
    {
      if r == p {
        assert Apart(cs, t.Of(q));
      } else if q != p {
        assert Apart(t.Of(q), t.Of(r));
      }
    }
  }

  lemma {:induction false} QuerySound(t: Table, p: nat, bs: seq<Bucket>)
    requires TableSound(t) && t.Of(p) == [] && Distinct(bs) && Separate(t, p, GroupRows(t.rows, t.checkpoints, bs))
    ensures TableSound(Next(t, Query(p, bs)))
  {
    var found := GroupRows(t.rows, t.checkpoints, bs);
    GroupRowsSound(t.rows, t.checkpoints, bs);
    assert forall i :: 0 <= i < |found| ==> found[i] in found;
    SetSound(t, p, found);
  }

  lemma {:induction false} TailKept(t: Table, p: nat)
    requires TableSound(t) && t.Of(p) != []
    ensures TableSound(t.Set(p, t.Of(p)[1..]))
  {
    TailSound(t.rows, t.checkpoints, t.Of(p));
    forall q: nat | q != p
      ensures Apart(t.Of(p)[1..], t.Of(q))
    {
      assert Apart(t.Of(p), t.Of(q));
    }
    SetSound(t, p, t.Of(p)[1..]);
  }

  /** Every list still open lacks the bucket of the row just written. */
  lemma {:induction false} WrittenElsewhere(t: Table, p: nat, q: nat)
    requires TableSound(t) && t.Of(p) != []
    ensures forall i :: 0 <= i < |t.Set(p, t.Of(p)[1..]).Of(q)| ==>
              t.Set(p, t.Of(p)[1..]).Of(q)[i].where != t.Of(p)[0].where
  {
    assert RowsSound(t.rows, t.checkpoints, t.Of(p));
    if q != p {
      assert Apart(t.Of(p), t.Of(q));
    }
  }

  lemma {:induction false} CheckpointAdded(t: Table, c: Checkpoint)
    requires TableSound(t) && PendingSound(t.rows, t.checkpoints, c)
    requires forall q: nat, i :: 0 <= i < |t.Of(q)| ==> t.Of(q)[i].where != c.where
    ensures TableSound(t.(checkpoints := t.checkpoints + [c]))
  {
    var t' := t.(checkpoints := t.checkpoints + [c]);
    WriteKeepsAgreementIff(t.rows, t.checkpoints, c);
    forall q: nat
      ensures t'.Of(q) == t.Of(q) && RowsSound(t'.rows, t'.checkpoints, t'.Of(q))
    {
      RowsAfterWrite(t.rows, t.checkpoints, c, t.Of(q));
    }
  }

  lemma {:induction false} WriteSound(t: Table, p: nat)
    requires TableSound(t) && t.Of(p) != []
    ensures TableSound(Next(t, Write(p, true)))
  {
    var c := t.Of(p)[0];
    var t1 := t.Set(p, t.Of(p)[1..]);
    assert RowsSound(t.rows, t.checkpoints, t.Of(p));
    NeverOverwrites(t.rows, t.checkpoints, c);
    TailKept(t, p);
    forall q: nat, i | 0 <= i < |t1.Of(q)|
      ensures t1.Of(q)[i].where != c.where
    {
      WrittenElsewhere(t, p, q);
    }
    CheckpointAdded(t1, c);
  }

  lemma {:induction false} NextSound(t: Table, e: Event)
    requires TableSound(t) && Orderly(t, e)
    ensures TableSound(Next(t, e))
  {
    match e
    case Insert(d) => InsertSound(t, d);
    case Query(p, bs) =>
      if t.Of(p) == [] && Distinct(bs) {
        QuerySound(t, p, bs);
      }
    case Write(p, succeeds) =>
      if t.Of(p) != [] {
        if succeeds {
          WriteSound(t, p);
        } else {
          TailKept(t, p);
        }
      }
    case Close(p) => SetSound(t, p, []);
  }

  /** Every orderly history of inserts and builds, of however many builders, keeps the tables sound. */
  lemma {:induction false} HistoriesSound(es: seq<Event>)
    requires OrderlyRun(NO_ROWS, es)
    ensures TableSound(RunTable(NO_ROWS, es))
  {
    if es != [] {
      var n := |es| - 1;
      HistoriesSound(es[..n]);
      NextSound(RunTable(NO_ROWS, es[..n]), es[n]);
    }
  }

  /** There, checkpoints and uncovered rows add up to the balance of every bucket. */
  lemma {:induction false} CheckpointsAgree(es: seq<Event>, b: Bucket)
    requires OrderlyRun(NO_ROWS, es)
    ensures var t := RunTable(NO_ROWS, es);
      && TotalInput(t.checkpoints, b) + Input(Uncovered(t.rows, t.checkpoints, b), b) == Input(t.rows, b)
      && TotalOutput(t.checkpoints, b) + Output(Uncovered(t.rows, t.checkpoints, b), b) == Output(t.rows, b)
  {
    HistoriesSound(es);
    var t := RunTable(NO_ROWS, es);
    assert AgreesAt(t.rows, t.checkpoints, b);
  }

  /** And no write ever replaces a checkpoint. */
  lemma {:induction false} ConflictNeverTaken(es: seq<Event>, p: nat, i: nat)
    requires OrderlyRun(NO_ROWS, es) && i < |RunTable(NO_ROWS, es).Of(p)|
    ensures var t := RunTable(NO_ROWS, es); FindKey(t.checkpoints, t.Of(p)[i]) == |t.checkpoints|
  {
    HistoriesSound(es);
    var t := RunTable(NO_ROWS, es);
    assert RowsSound(t.rows, t.checkpoints, t.Of(p));
    NeverOverwrites(t.rows, t.checkpoints, t.Of(p)[i]);
  }

  /** A system time above every upper watermark makes a row fresh, whatever its valid time. */
  lemma {:induction false} LaterRowsAreFresh(t: Table, d: VolumeDelta)
    requires forall c :: c in t.checkpoints ==> c.systemUpper < d.systemTime
    requires forall p, c :: p in t.pending && c in t.pending[p] ==> c.systemUpper < d.systemTime
    ensures Fresh(t, d)
  {
    LaterIsUncovered(t.checkpoints, d);
    forall p | p in t.pending
      ensures !Covered(d, t.pending[p])
    {
      LaterIsUncovered(t.pending[p], d);
    }
  }

  lemma {:induction false} LaterIsUncovered(cps: seq<Checkpoint>, d: VolumeDelta)
    requires forall c :: c in cps ==> c.systemUpper < d.systemTime
    ensures !Covered(d, cps)
  {
    forall i | 0 <= i < |cps|
      ensures !cps[i].Covers(d)
    {
      assert cps[i] in cps;
    }
  }

  // ----- runs -----

  function Inserts(rows: seq<VolumeDelta>): seq<Event> {
    if rows == [] then [] else Inserts(rows[..|rows| - 1]) + [Insert(rows[|rows| - 1])]
  }

  lemma {:induction false} RunConcat(t: Table, xs: seq<Event>, ys: seq<Event>)
    ensures RunTable(t, xs + ys) == RunTable(RunTable(t, xs), ys)
  {
    if ys == [] {
      assert xs + ys == xs;
    } else {
      var n := |ys| - 1;
      assert (xs + ys)[..|xs + ys| - 1] == xs + ys[..n];
      RunConcat(t, xs, ys[..n]);
    }
  }

  lemma {:induction false} RunInserts(t: Table, rows: seq<VolumeDelta>)
    ensures RunTable(t, Inserts(rows)) == t.(rows := t.rows + rows)
  {
    if rows == [] {
      assert t.rows + rows == t.rows;
    } else {
      var n := |rows| - 1;
      RunInserts(t, rows[..n]);
      assert t.rows + rows[..n] + [rows[n]] == t.rows + rows;
      assert Inserts(rows)[..|Inserts(rows)| - 1] == Inserts(rows[..n]);
    }
  }
}
