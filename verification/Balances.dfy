/**
 * Conservation and solvency over serial histories, with the exact side conditions of solvency.
 */
module Balances {
  import opened Wrappers
  import opened LedgerState
  import opened Transitions
  import opened Effects
  import opened Histories
  import opened Admission
  import opened Replay

  // ----- conservation -----

  /** The input of an asset over all accounts. */
  function AssetInput(rows: seq<VolumeDelta>, a: Asset): int {
    if rows == [] then 0
    else AssetInput(rows[..|rows| - 1], a) + if rows[|rows| - 1].asset == a then rows[|rows| - 1].input else 0
  }

  /** The output of an asset over all accounts. */
  function AssetOutput(rows: seq<VolumeDelta>, a: Asset): int {
    if rows == [] then 0
    else AssetOutput(rows[..|rows| - 1], a) + if rows[|rows| - 1].asset == a then rows[|rows| - 1].output else 0
  }

  lemma {:induction false} AssetSumsOverConcat(xs: seq<VolumeDelta>, ys: seq<VolumeDelta>, a: Asset)
    ensures AssetInput(xs + ys, a) == AssetInput(xs, a) + AssetInput(ys, a)
    ensures AssetOutput(xs + ys, a) == AssetOutput(xs, a) + AssetOutput(ys, a)
  {
    if ys == [] {
      assert xs + ys == xs;
    } else {
      assert (xs + ys)[..|xs + ys| - 1] == xs + ys[..|ys| - 1];
      AssetSumsOverConcat(xs, ys[..|ys| - 1], a);
    }
  }

  lemma {:induction false} LegsBalance(ps: seq<Posting>, eventId: Id, validTime: Time, now: Time, a: Asset)
    ensures AssetInput(Legs(ps, eventId, validTime, now), a) == AssetOutput(Legs(ps, eventId, validTime, now), a)
  {
    if ps != [] {
      var n := |ps| - 1;
      LegsBalance(ps[..n], eventId, validTime, now, a);
      var last := LegsOf(ps[n], eventId, validTime, now);
      AssetSumsOverConcat(Legs(ps[..n], eventId, validTime, now), last, a);
      if last != [] {
        assert last == [last[0]] + [last[1]];
        AssetSumsOverConcat([last[0]], [last[1]], a);
      }
    }
  }

  ghost predicate Conserved(s: State, a: Asset) { AssetInput(s.deltas, a) == AssetOutput(s.deltas, a) }

  lemma {:induction false} CommittedConserves(s: State, op: Op, e: Env, a: Asset)
    requires Conserved(s, a)
    ensures Conserved(Committed(s, op, e), a)
  {
    LegsBalance(Moves(s, op), e.eventId, EventTime(s, op, e), e.now, a);
    AssetSumsOverConcat(s.deltas, AppendedRows(s, op, e), a);
  }

  /** Whatever is asked of the ledger, each asset's total input equals its total output. */
  lemma {:induction false} Conservation(l: Ledger, calls: seq<Call>, a: Asset)
    ensures AssetInput(Run(l, calls).deltas, a) == AssetOutput(Run(l, calls).deltas, a)
  {
    if calls != [] {
      var s, c := Run(l, calls[..|calls| - 1]), calls[|calls| - 1];
      Conservation(l, calls[..|calls| - 1], a);
      StepShape(l, s, c);
      CommittedConserves(s, c.op, c.env, a);
    }
  }

  // ----- what a step does to a bucket -----

  lemma {:induction false} LegsNet(ps: seq<Posting>, eventId: Id, validTime: Time, now: Time, b: Bucket)
    ensures Net(Legs(ps, eventId, validTime, now), b) == TotalIn(ps, b) - TotalOut(ps, b)
  {
    if ps != [] {
      var n := |ps| - 1;
      LegsNet(ps[..n], eventId, validTime, now, b);
      var last := LegsOf(ps[n], eventId, validTime, now);
      SumsOverConcat(Legs(ps[..n], eventId, validTime, now), last, b);
      if last != [] {
        assert last == [last[0]] + [last[1]];
        SumsOverConcat([last[0]], [last[1]], b);
      }
    }
  }

  lemma {:induction false} AvailableAfter(s: State, op: Op, e: Env, b: Bucket)
    ensures Available(Committed(s, op, e), b)
            == Available(s, b) + TotalIn(Moves(s, op), b) - TotalOut(Moves(s, op), b)
               + ActiveHolds(s.holds, b) - ActiveHolds(HoldsAfter(s.holds, op, e), b)
  {
    LegsNet(Moves(s, op), e.eventId, EventTime(s, op, e), e.now, b);
    SumsOverConcat(s.deltas, AppendedRows(s, op, e), b);
  }

  /** What an operation adds to the reservations of a bucket. */
  function Reserves(s: State, op: Op, e: Env, b: Bucket): int {
    match op
    case Authorize(source, _, asset, amount, _) => if Bucket(source, asset) == b then amount else 0
    case Capture(holdId, amount, _) =>
      var i := FindHold(s.holds, holdId);
      if i < |s.holds| && s.holds[i].Where() == b then -amount else 0
    case Void(holdId) =>
      var i := FindHold(s.holds, holdId);
      if i < |s.holds| then -ReservedIn(s.holds[i], b) else 0
    case Expire(listed) =>
      var i := FindHold(s.holds, listed.id);
      if i < |s.holds| then -ReservedIn(s.holds[i], b) else 0
    case _ => 0
  }

  lemma {:induction false} HoldsReserve(s: State, op: Op, e: Env, b: Bucket)
    requires HoldGuard(s, op, e)
    ensures ActiveHolds(HoldsAfter(s.holds, op, e), b) == ActiveHolds(s.holds, b) + Reserves(s, op, e, b)
  {
    match op
    case Authorize(source, hint, asset, amount, expiresAt) =>
      var after := s.holds + [NewHold(source, hint, asset, amount, expiresAt, e)];
      assert after[..|s.holds|] == s.holds;
    case Capture(holdId, amount, _) =>
      var i := FindHold(s.holds, holdId);
      ActiveHoldsUpdated(s.holds, i, s.holds[i].(captured := s.holds[i].captured + amount), b);
    case Void(holdId) =>
      var i := FindHold(s.holds, holdId);
      ActiveHoldsUpdated(s.holds, i, s.holds[i].(voided := true), b);
    case Expire(listed) =>
      var i := FindHold(s.holds, listed.id);
      ActiveHoldsUpdated(s.holds, i, s.holds[i].(expired := true), b);
    case _ =>
  }

  // ----- solvency -----

  /** No account that may not go negative is overdrawn, reservations included. */
  ghost predicate Solvent(l: Ledger, s: State) {
    forall b: Bucket :: IsIssuer(l, b.account) || Available(s, b) >= 0
  }

  /**
   * What the code does not check: that a conversion's destination can pay the destination
   * asset, and that a revert's postings are affordable together.
   */
  ghost predicate Covered(l: Ledger, s: State, op: Op) {
    match op
    case Convert(c) =>
      IsIssuer(l, c.destination) || c.destination == c.source
      || Available(s, Bucket(c.destination, c.destAsset)) >= c.destAmount
    case Revert(_, _, _) => FundsCover(l, s, Moves(s, op))
    case _ => true
  }

  /** Every bucket an operation debits or reserves from can pay it, unless it may go negative. */
  predicate Pays(l: Ledger, s: State, op: Op) {
    match op
    case Authorize(source, _, asset, amount, _) => IsIssuer(l, source) || Available(s, Bucket(source, asset)) >= amount
    case Capture(_, _, _) => true
    case Void(_) => true
    case Expire(_) => true
    case _ => FundsCover(l, s, Moves(s, op))
  }

  lemma {:induction false} UndebitedOut(ps: seq<Posting>, b: Bucket)
    requires b !in Debited(ps)
    ensures TotalOut(ps, b) == 0
  {
    if ps != [] {
      var n := |ps| - 1;
      assert ps[n] in ps && forall p :: p in ps[..n] ==> p in ps;
      UndebitedOut(ps[..n], b);
    }
  }

  lemma {:induction false} TotalsNotNegative(ps: seq<Posting>, b: Bucket)
    requires forall i :: 0 <= i < |ps| ==> ps[i].amount >= 0
    ensures TotalIn(ps, b) >= 0 && TotalOut(ps, b) >= 0
  {
    if ps != [] {
      TotalsNotNegative(ps[..|ps| - 1], b);
    }
  }

  /** From a solvent state, paying a list of postings keeps solvency exactly when funds cover it. */
  lemma {:induction false} PayingIsSolvent(l: Ledger, s: State, op: Op, e: Env)
    requires Solvent(l, s) && HoldsAfter(s.holds, op, e) == s.holds
    requires forall i :: 0 <= i < |Moves(s, op)| ==> Moves(s, op)[i].amount >= 0
    ensures Solvent(l, Committed(s, op, e)) <==> FundsCover(l, s, Moves(s, op))
  {
    var ps, s' := Moves(s, op), Committed(s, op, e);
    forall b: Bucket
      ensures Available(s', b) == Available(s, b) + TotalIn(ps, b) - TotalOut(ps, b)
      ensures b !in Debited(ps) ==> Available(s', b) >= Available(s, b)
    {
      AvailableAfter(s, op, e, b);
      TotalsNotNegative(ps, b);
      if b !in Debited(ps) {
        UndebitedOut(ps, b);
      }
    }
  }

  lemma {:induction false} TwoTotals(p: Posting, q: Posting, b: Bucket)
    ensures TotalOut([p, q], b) == OutOf(p, b) + OutOf(q, b)
    ensures TotalIn([p, q], b) == InOf(p, b) + InOf(q, b)
  {
    assert [p, q][..1] == [p] && [p][..0] == [];
    assert TotalOut([p], b) == OutOf(p, b) && TotalIn([p], b) == InOf(p, b);
  }

  /** What the postings of a conversion take from and give to a bucket. */
  lemma {:induction false} ConversionTotals(c: ConvertParams, b: Bucket)
    ensures var slip := if c.HasSlippage() then c.slippageAmount else 0;
            && TotalOut(ConversionPostings(c), b)
               == (if Bucket(c.source, c.sourceAsset) == b then c.sourceAmount + slip else 0)
                  + (if Bucket(c.destination, c.destAsset) == b then c.destAmount else 0)
            && TotalIn(ConversionPostings(c), b)
               == (if Bucket(c.destination, c.sourceAsset) == b then c.sourceAmount else 0)
                  + (if Bucket(c.source, c.destAsset) == b then c.destAmount else 0)
                  + (if Bucket(c.slippageAccount, c.sourceAsset) == b then slip else 0)
  {
    var ps := ConversionPostings(c);
    TwoTotals(ps[0], ps[1], b);
    if c.HasSlippage() {
      assert ps[..2] == [ps[0], ps[1]];
    } else {
      assert ps == [ps[0], ps[1]];
    }
  }

  /** The source check of a conversion plus the missing destination check cover its postings. */
  lemma {:induction false} ConversionCover(l: Ledger, s: State, c: ConvertParams)
    requires ValidConversion(l, c)
    requires IsIssuer(l, c.source) || Available(s, Bucket(c.source, c.sourceAsset)) >= ConversionCost(c)
    requires Solvent(l, s)
    ensures FundsCover(l, s, ConversionPostings(c)) <==> Covered(l, s, Convert(c))
  {
    var ps := ConversionPostings(c);
    var from, back := Bucket(c.source, c.sourceAsset), Bucket(c.destination, c.destAsset);
    assert ps[0] in ps && ps[1] in ps;
    assert Debited(ps) == {from, back};
    ConversionTotals(c, from);
    ConversionTotals(c, back);
  }

  /** Captures, voids and expiries never overdraw; an authorization does exactly when it cannot be paid. */
  lemma {:induction false} HoldStepSolventIff(l: Ledger, s: State, op: Op, e: Env)
    requires Solvent(l, s) && HoldsSound(s.holds) && HoldGuard(s, op, e)
    requires op.Authorize? || op.Capture? || op.Void? || op.Expire?
    ensures Solvent(l, Committed(s, op, e)) <==> Pays(l, s, op)
  {
    forall b: Bucket
      ensures !(op.Authorize? && b == Bucket(op.source, op.asset)) ==> IsIssuer(l, b.account) || Available(Committed(s, op, e), b) >= 0
      ensures op.Authorize? && b == Bucket(op.source, op.asset) ==> Available(Committed(s, op, e), b) == Available(s, b) - op.amount
    {
      AvailableAfter(s, op, e, b);
      HoldsReserve(s, op, e, b);
      if op.Capture? {
        var ps := Moves(s, op);
        assert ps[..0] == [];
      }
    }
  }

  // ----- stored transactions -----

  ghost predicate StoredSound(s: State) {
    forall id :: id in s.transactions ==>
      s.transactions[id].postings != []
      && forall i :: 0 <= i < |s.transactions[id].postings| ==> s.transactions[id].postings[i].amount > 0
  }

  lemma {:induction false} StepKeepsStored(l: Ledger, s: State, c: Call)
    requires StoredSound(s)
    ensures StoredSound(Step(l, s, c))
  {
    StepShape(l, s, c);
    CommitsIff(l, s, c);
    if Commits(l, s, c) {
      MovesPositive(l, s, c);
      StoredAfter(s, c.op, c.env);
    }
  }

  lemma {:induction false} StoredAfter(s: State, op: Op, e: Env)
    requires StoredSound(s) && (StoresTransaction(op) ==> Moves(s, op) != [])
    requires forall i :: 0 <= i < |Moves(s, op)| ==> Moves(s, op)[i].amount > 0
    ensures StoredSound(Committed(s, op, e))
  {
  }

  lemma {:induction false} MovesPositive(l: Ledger, s: State, c: Call)
    requires StoredSound(s) && MayCommit(l, s, c)
    ensures forall i :: 0 <= i < |Moves(s, c.op)| ==> Moves(s, c.op)[i].amount > 0
    ensures StoresTransaction(c.op) ==> Moves(s, c.op) != []
  {
  }

  // ----- solvency of histories -----

  ghost predicate Healthy(s: State) { HoldsSound(s.holds) && StoredSound(s) }

  /** From a solvent state, an operation that may commit keeps solvency exactly when it can be paid there. */
  lemma {:induction false} PaidIsSolvent(l: Ledger, s: State, c: Call)
    requires Solvent(l, s) && Healthy(s) && MayCommit(l, s, c)
    ensures Solvent(l, Committed(s, c.op, c.env)) <==> Pays(l, s, c.op)
  {
    MovesPositive(l, s, c);
    if c.op.Post? || c.op.Convert? || c.op.Revert? {
      PayingIsSolvent(l, s, c.op, c.env);
    } else {
      HoldStepSolventIff(l, s, c.op, c.env);
    }
  }

  /** What the checks of the code leave of that. */
  lemma {:induction false} AcceptedPaysIff(l: Ledger, s: State, c: Call)
    requires Solvent(l, s) && MayCommit(l, s, c) && Accepts(l, s, c.op)
    ensures Pays(l, s, c.op) <==> Covered(l, s, c.op)
  {
    if c.op.Convert? {
      ConversionCover(l, s, c.op.params);
    }
  }

  /** From a solvent state, a committed step is solvent exactly when it was covered. */
  lemma {:induction false} StepSolvent(l: Ledger, s: State, c: Call)
    requires Solvent(l, s) && Healthy(s) && Commits(l, s, c)
    ensures Solvent(l, Step(l, s, c)) <==> Covered(l, s, c.op)
  {
    StepShape(l, s, c);
    CommitsIff(l, s, c);
    PaidIsSolvent(l, s, c);
    AcceptedPaysIff(l, s, c);
  }

  lemma {:induction false} HealthyRun(l: Ledger, calls: seq<Call>)
    ensures Healthy(Run(l, calls))
  {
    if calls != [] {
      var s, c := Run(l, calls[..|calls| - 1]), calls[|calls| - 1];
      HealthyRun(l, calls[..|calls| - 1]);
      StepKeepsHolds(l, s, c);
      StepKeepsStored(l, s, c);
    }
  }

  /** The state a history is in after its first `n` calls. */
  function After(l: Ledger, calls: seq<Call>, n: nat): State
    requires n <= |calls|
  {
    Run(l, calls[..n])
  }

  ghost predicate AllCovered(l: Ledger, calls: seq<Call>) {
    forall n :: 0 <= n < |calls| && Commits(l, After(l, calls, n), calls[n]) ==> Covered(l, After(l, calls, n), calls[n].op)
  }

  ghost predicate AlwaysSolvent(l: Ledger, calls: seq<Call>) {
    forall n :: 0 <= n <= |calls| ==> Solvent(l, After(l, calls, n))
  }

  lemma {:induction false} OneMore(l: Ledger, calls: seq<Call>, n: nat)
    requires n < |calls|
    ensures After(l, calls, n + 1) == Step(l, After(l, calls, n), calls[n])
  {
    assert calls[..n + 1][..n] == calls[..n];
  }

  lemma {:induction false} CoveredIsSolvent(l: Ledger, calls: seq<Call>, n: nat)
    requires n <= |calls| && AllCovered(l, calls)
    ensures Solvent(l, After(l, calls, n))
  {
    if n > 0 {
      CoveredIsSolvent(l, calls, n - 1);
      HealthyRun(l, calls[..n - 1]);
      OneMore(l, calls, n - 1);
      StepShape(l, After(l, calls, n - 1), calls[n - 1]);
      if Commits(l, After(l, calls, n - 1), calls[n - 1]) {
        StepSolvent(l, After(l, calls, n - 1), calls[n - 1]);
      }
    }
  }

  /** A history never overdraws exactly when every committed conversion and revert was covered. */
  lemma {:induction false} SolvencyExact(l: Ledger, calls: seq<Call>)
    ensures AlwaysSolvent(l, calls) <==> AllCovered(l, calls)
  {
    if AllCovered(l, calls) {
      forall n | 0 <= n <= |calls|
        ensures Solvent(l, After(l, calls, n))
      {
        CoveredIsSolvent(l, calls, n);
      }
    }
    if AlwaysSolvent(l, calls) {
      forall n | 0 <= n < |calls| && Commits(l, After(l, calls, n), calls[n])
        ensures Covered(l, After(l, calls, n), calls[n].op)
      {
        assert Solvent(l, After(l, calls, n)) && Solvent(l, After(l, calls, n + 1));
        OneMore(l, calls, n);
        HealthyRun(l, calls[..n]);
        StepSolvent(l, After(l, calls, n), calls[n]);
      }
    }
  }

  // ----- when a revert is covered -----

  ghost predicate DistinctSources(ps: seq<Posting>) {
    forall i, j :: 0 <= i < j < |ps| ==> Bucket(ps[i].source, ps[i].asset) != Bucket(ps[j].source, ps[j].asset)
  }

  lemma {:induction false} DistinctOut(ps: seq<Posting>, i: nat)
    requires DistinctSources(ps) && i < |ps|
    ensures TotalOut(ps, Bucket(ps[i].source, ps[i].asset)) == ps[i].amount
  {
    var n := |ps| - 1;
    var b := Bucket(ps[i].source, ps[i].asset);
    if i < n {
      DistinctOut(ps[..n], i);
    } else {
      UndebitedOut(ps[..n], b);
    }
  }

  /** Checking each posting on its own is enough when no two debit the same bucket. */
  lemma {:induction false} EachAffordableCovers(l: Ledger, s: State, ps: seq<Posting>)
    requires EachAffordable(l, s, ps) && DistinctSources(ps)
    requires forall i :: 0 <= i < |ps| ==> ps[i].amount >= 0
    ensures FundsCover(l, s, ps)
  {
    forall b | b in Debited(ps)
      ensures IsIssuer(l, b.account) || Available(s, b) + TotalIn(ps, b) - TotalOut(ps, b) >= 0
    {
      var i :| 0 <= i < |ps| && Bucket(ps[i].source, ps[i].asset) == b;
      DistinctOut(ps, i);
      TotalsNotNegative(ps, b);
    }
  }

  lemma {:induction false} LegAt(ps: seq<Posting>, eventId: Id, validTime: Time, now: Time, i: nat)
    requires i < |ps| && forall k :: 0 <= k < |ps| ==> ps[k].amount > 0
    ensures |Legs(ps, eventId, validTime, now)| == 2 * |ps|
    ensures Legs(ps, eventId, validTime, now)[2 * i].Where() == Bucket(ps[i].source, ps[i].asset)
  {
    var n := |ps| - 1;
    if n > 0 {
      LegAt(ps[..n], eventId, validTime, now, if i < n then i else 0);
    }
  }

  lemma {:induction false} DistinctRowsDistinctSources(ps: seq<Posting>, eventId: Id, validTime: Time, now: Time)
    requires DistinctBuckets(Legs(ps, eventId, validTime, now)) && forall k :: 0 <= k < |ps| ==> ps[k].amount > 0
    ensures DistinctSources(ps)
  {
    forall i, j | 0 <= i < j < |ps|
      ensures Bucket(ps[i].source, ps[i].asset) != Bucket(ps[j].source, ps[j].asset)
    {
      LegAt(ps, eventId, validTime, now, i);
      LegAt(ps, eventId, validTime, now, j);
    }
  }

  /** Conversions go through an issuer (or back to the source) and reverts are not forced. */
  predicate Prudent(l: Ledger, op: Op) {
    match op
    case Convert(c) => IsIssuer(l, c.destination) || c.destination == c.source
    case Revert(_, force, _) => !force
    case _ => true
  }

  /** A prudent step is covered when its reversed buckets are distinct. */
  lemma {:induction false} PrudentCovered(l: Ledger, s: State, c: Call)
    requires Healthy(s) && Commits(l, s, c) && Prudent(l, c.op)
    requires c.op.Revert? ==> DistinctSources(Moves(s, c.op))
    ensures Covered(l, s, c.op)
  {
    if c.op.Revert? {
      CommitsIff(l, s, c);
      MovesPositive(l, s, c);
      EachAffordableCovers(l, s, Moves(s, c.op));
    }
  }

  /** Prudent histories whose reverts debit distinct buckets never overdraw. */
  lemma {:induction false} PrudentSolvency(l: Ledger, calls: seq<Call>)
    requires forall c :: c in calls ==> Prudent(l, c.op)
    requires forall n :: 0 <= n < |calls| && calls[n].op.Revert? ==> DistinctSources(Moves(After(l, calls, n), calls[n].op))
    ensures AlwaysSolvent(l, calls)
  {
    forall n | 0 <= n < |calls| && Commits(l, After(l, calls, n), calls[n])
      ensures Covered(l, After(l, calls, n), calls[n].op)
    {
      HealthyRun(l, calls[..n]);
      PrudentCovered(l, After(l, calls, n), calls[n]);
    }
    SolvencyExact(l, calls);
  }

  /**
   * Under the migrations' primary key the distinctness is no assumption: prudent histories
   * never overdraw. Of the conversions that are prudent, those back to the source never commit then.
   */
  lemma {:induction false} KeyedSolvency(l: Ledger, calls: seq<Call>)
    requires l.keyedDeltas && forall c :: c in calls ==> Prudent(l, c.op)
    ensures AlwaysSolvent(l, calls)
  {
    forall n | 0 <= n < |calls| && Commits(l, After(l, calls, n), calls[n])
      ensures Covered(l, After(l, calls, n), calls[n].op)
    {
      var s, c := After(l, calls, n), calls[n];
      HealthyRun(l, calls[..n]);
      if c.op.Revert? {
        CommitsIff(l, s, c);
        KeyedCommitsAreDistinct(l, s, c);
        MovesPositive(l, s, c);
        DistinctRowsDistinctSources(Moves(s, c.op), c.env.eventId, EventTime(s, c.op, c.env), c.env.now);
      }
      PrudentCovered(l, s, c);
    }
    SolvencyExact(l, calls);
  }
}
