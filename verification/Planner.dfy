/**
 * The in-transaction cores of the planner, step by step over an open transaction, each proved
 * to compute its function in `Transitions`.
 */
module Planner {
  import opened Wrappers
  import opened LedgerState
  import opened Transitions
  import opened Effects
  import opened Store

  datatype SubmitResult = SubmitResult(eventId: Id, hit: bool)

  /**
   * The call computed `spec`: on success the open transaction holds the specified state, on
   * failure the error is the specified one (and the caller drops the transaction).
   */
  ghost predicate Computes(r: Result<SubmitResult, Error>, after: State, spec: Result<State, Error>) {
    match spec
    case Success(s) => r.Success? && after == s && !r.value.hit
    case Failure(err) => r == Failure(err)
  }

  // ----- the shared pieces -----

  method AppendTo(tx: TxStore, e: Env, validTime: Time, payload: Payload) returns (r: Outcome<Error>)
    modifies tx
    ensures Wrote(r, old(tx.View()), tx.View(), AppendEvent(old(tx.View()), e, validTime, payload))
  {
    var seqNo := tx.NextLedgerSeq();
    var hash := if e.key != "" && e.hash.Some? then e.hash else None;
    r := tx.AppendLogEvent(LogEvent(e.eventId, seqNo, e.now, validTime, payload, e.key, hash));
  }

  method RecordIdempotency(tx: TxStore, e: Env)
    modifies tx
    ensures tx.View() == RecordKey(old(tx.View()), e)
  {
    if e.key != "" && e.hash.Some? {
      var _ := tx.InsertIdempotencyKey(e.key, KeyRecord(e.eventId, e.hash.value));
    }
  }

  method AvailableBalance(tx: TxStore, b: Bucket) returns (available: int)
    ensures available == Available(tx.View(), b)
  {
    var input, output := tx.GetBalance(b, AsOf(None, None));
    available := input - output;
    var held := tx.GetActiveHoldsTotal(b);
    available := available - held;
  }

  /** The entries of an accumulator map, 0 where there is none. */
  function At(m: map<Bucket, int>, b: Bucket): int { if b in m then m[b] else 0 }

  /** The buckets that some non-zero posting debits. */
  function ReallyDebited(ps: seq<Posting>): set<Bucket> {
    set p | p in ps && p.amount != 0 :: Bucket(p.source, p.asset)
  }

  /** The accumulator loop: per bucket, the sum taken out and the sum put in. */
  method NetPerBucket(ps: seq<Posting>) returns (outputs: map<Bucket, int>, inputs: map<Bucket, int>)
    ensures outputs.Keys == ReallyDebited(ps)
    ensures forall b :: At(outputs, b) == TotalOut(ps, b)
    ensures forall b :: At(inputs, b) == TotalIn(ps, b)
  {
    outputs, inputs := map[], map[];
    for i := 0 to |ps|
      invariant outputs.Keys == ReallyDebited(ps[..i])
      invariant forall b :: At(outputs, b) == TotalOut(ps[..i], b)
      invariant forall b :: At(inputs, b) == TotalIn(ps[..i], b)
    {
      assert ps[..i + 1][..i] == ps[..i];
      assert ps[..i + 1] == ps[..i] + [ps[i]];
      var p := ps[i];
      if p.amount == 0 { continue; }
      var src := Bucket(p.source, p.asset);
      outputs := outputs[src := At(outputs, src) + p.amount];
      var dst := Bucket(p.destination, p.asset);
      inputs := inputs[dst := At(inputs, dst) + p.amount];
    }
    assert ps[..|ps|] == ps;
  }

  /**
   * The funds check over the map of outputs, visiting its keys in any order: the verdict does
   * not depend on the order.
   */
  method CheckSourceBalances(l: Ledger, tx: TxStore, outputs: map<Bucket, int>, inputs: map<Bucket, int>)
    returns (r: Outcome<Error>)
    ensures r == if forall b | b in outputs ::
                      IsIssuer(l, b.account) || Available(tx.View(), b) + At(inputs, b) - outputs[b] >= 0
                 then Pass else Fail(InsufficientFunds)
  {
    var left := outputs.Keys;
    while left != {}
      invariant left <= outputs.Keys
      invariant forall b | b in outputs && b !in left ::
        IsIssuer(l, b.account) || Available(tx.View(), b) + At(inputs, b) - outputs[b] >= 0
      decreases |left|
    {
      var b :| b in left;
      left := left - {b};
      if IsIssuer(l, b.account) { continue; }
      var available := AvailableBalance(tx, b);
      if b in inputs {
        available := available + inputs[b];
      }
      if available < outputs[b] {
        return Fail(InsufficientFunds);
      }
    }
    return Pass;
  }

  /** Accepts a posting list exactly when the funds of every debited bucket cover it. */
  method PostFundsCheck(l: Ledger, tx: TxStore, ps: seq<Posting>) returns (r: Outcome<Error>)
    requires forall i :: 0 <= i < |ps| ==> ps[i].amount > 0
    ensures r == if FundsCover(l, tx.View(), ps) then Pass else Fail(InsufficientFunds)
  {
    var outputs, inputs := NetPerBucket(ps);
    r := CheckSourceBalances(l, tx, outputs, inputs);
    assert outputs.Keys == Debited(ps);
    assert forall b | b in outputs :: outputs[b] == At(outputs, b) == TotalOut(ps, b);
  }

  /** One more row after `done`. */
  method InsertNext(l: Ledger, tx: TxStore, d: VolumeDelta, ghost start: State, ghost done: seq<VolumeDelta>)
    returns (r: Outcome<Error>)
    requires InsertDeltas(l, start, done) == Success(tx.View())
    modifies tx
    ensures match InsertDeltas(l, start, done + [d])
            case Success(s) => r.Pass? && tx.View() == s
            case Failure(err) => r == Fail(err)
  {
    assert (done + [d])[..|done|] == done;
    r := tx.InsertVolumeDelta(l, d);
  }

  /** The two rows of one posting, or none for a zero amount. */
  method InsertPosting(
    l: Ledger, tx: TxStore, p: Posting, eventId: Id, validTime: Time, now: Time,
    ghost start: State, ghost done: seq<VolumeDelta>)
    returns (r: Outcome<Error>)
    requires InsertDeltas(l, start, done) == Success(tx.View())
    modifies tx
    ensures match InsertDeltas(l, start, done + LegsOf(p, eventId, validTime, now))
            case Success(s) => r.Pass? && tx.View() == s
            case Failure(err) => r == Fail(err)
  {
    assert done + [] == done;
    if p.amount == 0 { return Pass; }
    var debit := VolumeDelta(p.source, p.asset, eventId, validTime, now, 0, p.amount);
    var credit := VolumeDelta(p.destination, p.asset, eventId, validTime, now, p.amount, 0);
    assert done + [debit] + [credit] == done + LegsOf(p, eventId, validTime, now);
    r := InsertNext(l, tx, debit, start, done);
    if r.Fail? {
      InsertStops(l, start, done + [debit], done + LegsOf(p, eventId, validTime, now));
      return;
    }
    r := InsertNext(l, tx, credit, start, done + [debit]);
  }

  /** The two rows of each posting in turn; the first rejected row stops. */
  method InsertLegs(l: Ledger, tx: TxStore, ps: seq<Posting>, eventId: Id, validTime: Time, now: Time)
    returns (r: Outcome<Error>)
    modifies tx
    ensures match InsertDeltas(l, old(tx.View()), Legs(ps, eventId, validTime, now))
            case Success(s) => r.Pass? && tx.View() == s
            case Failure(err) => r == Fail(err)
  {
    ghost var start := tx.View();
    for i := 0 to |ps|
      invariant InsertDeltas(l, start, Legs(ps[..i], eventId, validTime, now)) == Success(tx.View())
    {
      LegsPrefix(ps, i, eventId, validTime, now);
      r := InsertPosting(l, tx, ps[i], eventId, validTime, now, start, Legs(ps[..i], eventId, validTime, now));
      if r.Fail? {
        InsertStops(l, start, Legs(ps[..i + 1], eventId, validTime, now), Legs(ps, eventId, validTime, now));
        return;
      }
    }
    assert ps[..|ps|] == ps;
    return Pass;
  }

  method InsertRows(l: Ledger, tx: TxStore, rows: seq<VolumeDelta>) returns (r: Outcome<Error>)
    modifies tx
    ensures match InsertDeltas(l, old(tx.View()), rows)
            case Success(s) => r.Pass? && tx.View() == s
            case Failure(err) => r == Fail(err)
  {
    ghost var start := tx.View();
    for i := 0 to |rows|
      invariant InsertDeltas(l, start, rows[..i]) == Success(tx.View())
    {
      assert rows[..i + 1] == rows[..i] + [rows[i]];
      r := InsertNext(l, tx, rows[i], start, rows[..i]);
      if r.Fail? {
        InsertStops(l, start, rows[..i + 1], rows);
        return;
      }
    }
    assert rows[..|rows|] == rows;
    return Pass;
  }

  /** The rows of a posting follow those of the postings before it. */
  lemma {:induction false} LegsPrefix(ps: seq<Posting>, i: nat, eventId: Id, validTime: Time, now: Time)
    requires i < |ps|
    ensures Legs(ps[..i + 1], eventId, validTime, now)
            == Legs(ps[..i], eventId, validTime, now) + LegsOf(ps[i], eventId, validTime, now)
    ensures Legs(ps[..i + 1], eventId, validTime, now) <= Legs(ps, eventId, validTime, now)
  {
    assert ps[..i + 1][..i] == ps[..i];
    if i + 1 == |ps| {
      assert ps[..i + 1] == ps;
    } else {
      var n := |ps| - 1;
      assert ps[..n][..i + 1] == ps[..i + 1] && ps[..n][..i] == ps[..i];
      LegsPrefix(ps[..n], i, eventId, validTime, now);
    }
  }

  /** A rejected row decides the whole list. */
  lemma {:induction false} InsertStops(l: Ledger, s: State, done: seq<VolumeDelta>, rows: seq<VolumeDelta>)
    requires done <= rows && InsertDeltas(l, s, done).Failure?
    ensures InsertDeltas(l, s, rows) == InsertDeltas(l, s, done)
  {
    if done != rows {
      InsertStops(l, s, done, rows[..|rows| - 1]);
    }
  }

  // ----- the cores -----

  method DoPostInTx(l: Ledger, tx: TxStore, ps: seq<Posting>, reference: string, dryRun: bool, e: Env)
    returns (r: Result<SubmitResult, Error>)
    modifies tx
    ensures Computes(r, tx.View(), ApplyPost(l, old(tx.View()), ps, reference, dryRun, e))
    ensures r.Success? ==> r.value.eventId == if dryRun then "dry-run" else e.eventId
  {
    if !ValidPostings(l, ps) { return Failure(InvalidInput); }
    if !l.schemaAccepts(ps) { return Failure(SchemaViolation); }
    var funds := PostFundsCheck(l, tx, ps);
    if funds.Fail? { return Failure(funds.error); }
    if dryRun { return Success(SubmitResult("dry-run", false)); }
    var w := AppendTo(tx, e, e.validTime, TransactionPosted(e.txId, ps, reference));
    if w.Fail? { return Failure(w.error); }
    w := tx.InsertTransaction(Transaction(e.txId, e.eventId, e.validTime, e.now, reference, ps));
    if w.Fail? { return Failure(w.error); }
    w := InsertLegs(l, tx, ps, e.eventId, e.validTime, e.now);
    if w.Fail? { return Failure(w.error); }
    RecordIdempotency(tx, e);
    return Success(SubmitResult(e.eventId, false));
  }

  method DoConvertInTx(l: Ledger, tx: TxStore, c: ConvertParams, e: Env) returns (r: Result<SubmitResult, Error>)
    modifies tx
    ensures Computes(r, tx.View(), ApplyConvert(l, old(tx.View()), c, e))
    ensures r.Success? ==> r.value.eventId == e.eventId
  {
    if !ValidConversion(l, c) { return Failure(InvalidInput); }
    if !IsIssuer(l, c.source) {
      var available := AvailableBalance(tx, Bucket(c.source, c.sourceAsset));
      var cost := c.sourceAmount;
      if c.slippageAmount > 0 {
        cost := cost + c.slippageAmount;
      }
      if available < cost { return Failure(InsufficientFunds); }
    }
    var w := AppendTo(tx, e, e.validTime, ConversionCreated(
      e.conversionId, c.source, c.destination, c.sourceAmount, c.sourceAsset, c.destAmount, c.destAsset));
    if w.Fail? { return Failure(w.error); }
    var rows := [
      VolumeDelta(c.source, c.sourceAsset, e.eventId, e.validTime, e.now, 0, c.sourceAmount),
      VolumeDelta(c.destination, c.sourceAsset, e.eventId, e.validTime, e.now, c.sourceAmount, 0),
      VolumeDelta(c.destination, c.destAsset, e.eventId, e.validTime, e.now, 0, c.destAmount),
      VolumeDelta(c.source, c.destAsset, e.eventId, e.validTime, e.now, c.destAmount, 0)];
    if c.HasSlippage() {
      rows := rows + [
        VolumeDelta(c.source, c.sourceAsset, e.eventId, e.validTime, e.now, 0, c.slippageAmount),
        VolumeDelta(c.slippageAccount, c.sourceAsset, e.eventId, e.validTime, e.now, c.slippageAmount, 0)];
    }
    assert rows == ConversionRows(c, e);
    w := InsertRows(l, tx, rows);
    if w.Fail? { return Failure(w.error); }
    w := tx.InsertTransaction(Transaction(e.txId, e.eventId, e.validTime, e.now, "", ConversionPostings(c)));
    if w.Fail? { return Failure(w.error); }
    RecordIdempotency(tx, e);
    return Success(SubmitResult(e.eventId, false));
  }

  method DoAuthorizeInTx(
    l: Ledger, tx: TxStore, source: Account, hint: Account, asset: Asset, amount: int, expiresAt: Time, e: Env)
    returns (r: Result<SubmitResult, Error>)
    modifies tx
    ensures Computes(r, tx.View(), ApplyAuthorize(l, old(tx.View()), source, hint, asset, amount, expiresAt, e))
    ensures r.Success? ==> r.value.eventId == e.eventId
  {
    if amount <= 0 { return Failure(InvalidInput); }
    if !IsIssuer(l, source) {
      var available := AvailableBalance(tx, Bucket(source, asset));
      if available < amount { return Failure(InsufficientFunds); }
    }
    var w := AppendTo(tx, e, e.now, HoldCreated(e.holdId, source, hint, amount, asset, expiresAt));
    if w.Fail? { return Failure(w.error); }
    w := tx.InsertHold(Hold(e.holdId, source, hint, asset, amount, 0, false, false, expiresAt, e.eventId, e.now, e.now));
    if w.Fail? { return Failure(w.error); }
    RecordIdempotency(tx, e);
    return Success(SubmitResult(e.eventId, false));
  }

  /** The checks of a capture: the open hold and where its value goes. */
  method CheckCapture(tx: TxStore, holdId: Id, amount: int, destination: Account) returns (r: Result<(Hold, Account), Error>)
    ensures match r
            case Success((hold, dest)) =>
              && OpenHold(tx.View(), holdId).Success?
              && hold == tx.holds[OpenHold(tx.View(), holdId).value] && hold.Open()
              && 0 < amount <= hold.authorized - hold.captured
              && dest == CaptureDestination(hold, destination) != ""
            case Failure(err) => forall l, e :: ApplyCapture(l, tx.View(), holdId, amount, destination, e) == Failure(err)
  {
    if amount <= 0 { return Failure(InvalidInput); }
    var found := tx.GetHold(holdId);
    if found.Failure? { return Failure(found.error); }
    var hold := found.value;
    if hold.voided { return Failure(Error.HoldVoided); }
    if hold.expired { return Failure(Error.HoldExpired); }
    var remaining := hold.authorized - hold.captured;
    if amount > remaining { return Failure(InsufficientFunds); }
    var dest := destination;
    if dest == "" {
      dest := hold.destinationHint;
    }
    if dest == "" { return Failure(MissingDestination); }
    return Success((hold, dest));
  }

  method DoCaptureInTx(l: Ledger, tx: TxStore, holdId: Id, amount: int, destination: Account, e: Env)
    returns (r: Result<SubmitResult, Error>)
    modifies tx
    ensures Computes(r, tx.View(), ApplyCapture(l, old(tx.View()), holdId, amount, destination, e))
    ensures r.Success? ==> r.value.eventId == e.eventId
  {
    var checked := CheckCapture(tx, holdId, amount, destination);
    if checked.Failure? { return Failure(checked.error); }
    var (hold, dest) := checked.value;
    var w := AppendTo(tx, e, e.now, HoldConfirmed(holdId, amount, dest));
    if w.Fail? { return Failure(w.error); }
    w := tx.UpdateHoldCaptured(holdId, amount);
    assert w.Pass?; // the locked row is still open
    w := InsertLegs(l, tx, [Posting(hold.source, dest, amount, hold.asset)], e.eventId, e.now, e.now);
    if w.Fail? { return Failure(w.error); }
    RecordIdempotency(tx, e);
    return Success(SubmitResult(e.eventId, false));
  }

  method DoVoidInTx(tx: TxStore, holdId: Id, e: Env) returns (r: Result<SubmitResult, Error>)
    modifies tx
    ensures Computes(r, tx.View(), ApplyVoid(old(tx.View()), holdId, e))
    ensures r.Success? ==> r.value.eventId == e.eventId
  {
    var found := tx.GetHold(holdId);
    if found.Failure? { return Failure(found.error); }
    if found.value.voided { return Failure(Error.HoldVoided); }
    if found.value.expired { return Failure(Error.HoldExpired); }
    var w := AppendTo(tx, e, e.now, Payload.HoldVoided(holdId));
    if w.Fail? { return Failure(w.error); }
    w := tx.VoidHold(holdId);
    assert w.Pass?; // the locked row is still open
    RecordIdempotency(tx, e);
    return Success(SubmitResult(e.eventId, false));
  }

  /** The transaction of one hold of the expiry sweep. */
  method DoExpireInTx(tx: TxStore, listed: Hold, e: Env) returns (r: Result<SubmitResult, Error>)
    modifies tx
    ensures Computes(r, tx.View(), ApplyExpire(old(tx.View()), listed, e))
    ensures r.Success? ==> r.value.eventId == if tx.View() == old(tx.View()) then "" else e.eventId
  {
    var found := tx.GetHold(listed.id);
    if found.Failure? { return Failure(found.error); }
    if found.value.expired || found.value.voided { return Success(SubmitResult("", false)); }
    var w := AppendTo(tx, e.(key := "", hash := None), e.now, Payload.HoldExpired(listed.id, listed.source, listed.asset));
    if w.Fail? { return Failure(w.error); }
    w := tx.ExpireHold(listed.id);
    assert w.Pass?; // the locked row is still open
    return Success(SubmitResult(e.eventId, false));
  }

  /** Each posting in the opposite direction; an empty list is an error. */
  method ReversePostings(ps: seq<Posting>) returns (r: Result<seq<Posting>, Error>)
    ensures r == if ps == [] then Failure(NoPostings) else Success(Reverse(ps))
  {
    if ps == [] { return Failure(NoPostings); }
    var reversed: seq<Posting> := [];
    for i := 0 to |ps|
      invariant reversed == Reverse(ps[..i])
    {
      assert ps[..i + 1][..i] == ps[..i];
      reversed := reversed + [Posting(ps[i].destination, ps[i].source, ps[i].amount, ps[i].asset)];
    }
    assert ps[..|ps|] == ps;
    return Success(reversed);
  }

  /** Each reversed posting on its own against the current balances. */
  method RevertFundsCheck(l: Ledger, tx: TxStore, back: seq<Posting>) returns (r: Outcome<Error>)
    ensures r == if EachAffordable(l, tx.View(), back) then Pass else Fail(InsufficientFunds)
  {
    for i := 0 to |back|
      invariant forall j :: 0 <= j < i ==>
        IsIssuer(l, back[j].source) || Available(tx.View(), Bucket(back[j].source, back[j].asset)) >= back[j].amount
    {
      if IsIssuer(l, back[i].source) { continue; }
      var available := AvailableBalance(tx, Bucket(back[i].source, back[i].asset));
      if available < back[i].amount { return Fail(InsufficientFunds); }
    }
    return Pass;
  }

  method DoRevertInTx(l: Ledger, tx: TxStore, txId: Id, force: bool, atEffectiveDate: bool, e: Env)
    returns (r: Result<SubmitResult, Error>)
    modifies tx
    ensures Computes(r, tx.View(), ApplyRevert(l, old(tx.View()), txId, force, atEffectiveDate, e))
    ensures r.Success? ==> r.value.eventId == e.eventId
  {
    if txId !in tx.transactions { return Failure(NotFound); }
    var original := tx.transactions[txId];
    var rels := tx.GetRelationships(txId);
    for i := 0 to |rels|
      invariant forall j :: 0 <= j < i ==> rels[j].parent != txId
    {
      if rels[i].parent == txId {
        assert rels[i] in tx.relationships;
        return Failure(Error.AlreadyReverted);
      }
    }
    assert !HasRevert(tx.View(), txId) by {
      forall i | 0 <= i < |tx.relationships|
        ensures tx.relationships[i].parent != txId
      {
        assert tx.relationships[i] in rels ==> tx.relationships[i].parent != txId;
      }
    }
    var reversed := ReversePostings(original.postings);
    if reversed.Failure? { return Failure(reversed.error); }
    var back := reversed.value;
    var vt := e.now;
    if atEffectiveDate {
      vt := original.validTime;
    }
    if !force {
      var funds := RevertFundsCheck(l, tx, back);
      if funds.Fail? { return Failure(funds.error); }
    }
    var w := AppendTo(tx, e, vt, TransactionReverted(e.txId, back, txId));
    if w.Fail? { return Failure(w.error); }
    w := tx.InsertTransaction(Transaction(e.txId, e.eventId, vt, e.now, "", back));
    if w.Fail? { return Failure(w.error); }
    w := InsertLegs(l, tx, back, e.eventId, vt, e.now);
    if w.Fail? { return Failure(w.error); }
    w := tx.InsertRelationship(Relationship(txId, e.txId, e.eventId, e.now));
    if w.Fail? { return Failure(w.error); }
    RecordIdempotency(tx, e);
    return Success(SubmitResult(e.eventId, false));
  }

  /** A success names the event it logged; a dry run, and a hold already closed, log none. */
  ghost predicate Names(r: Result<SubmitResult, Error>, before: State, after: State, c: Call) {
    r.Success? ==> r.value.eventId == if after != before then c.env.eventId else if c.op.Expire? then "" else "dry-run"
  }

  lemma {:induction false} LoggedDiffers(l: Ledger, s: State, c: Call)
    requires Apply(l, s, c.op, c.env).Success?
    ensures Apply(l, s, c.op, c.env).value == s <==> !WritesEvent(s, c.op)
  {
    CommitShape(l, s, c.op, c.env);
  }

  /** The operation of a call, inside a transaction the caller opened. */
  method ApplyInTx(l: Ledger, tx: TxStore, c: Call) returns (r: Result<SubmitResult, Error>)
    modifies tx
    ensures Computes(r, tx.View(), Apply(l, old(tx.View()), c.op, c.env)) && Names(r, old(tx.View()), tx.View(), c)
  {
    if Apply(l, tx.View(), c.op, c.env).Success? {
      LoggedDiffers(l, tx.View(), c);
    }
    match c.op
    case Post(ps, reference, dryRun) => r := DoPostInTx(l, tx, ps, reference, dryRun, c.env);
    case Convert(p) => r := DoConvertInTx(l, tx, p, c.env);
    case Authorize(source, hint, asset, amount, expiresAt) =>
      r := DoAuthorizeInTx(l, tx, source, hint, asset, amount, expiresAt, c.env);
    case Capture(holdId, amount, destination) => r := DoCaptureInTx(l, tx, holdId, amount, destination, c.env);
    case Void(holdId) => r := DoVoidInTx(tx, holdId, c.env);
    case Expire(listed) => r := DoExpireInTx(tx, listed, c.env);
    case Revert(txId, force, atEffectiveDate) => r := DoRevertInTx(l, tx, txId, force, atEffectiveDate, c.env);
  }

  /** One transaction of its own: commit on success, roll back on failure. */
  method Execute(l: Ledger, db: Database, c: Call) returns (r: Result<SubmitResult, Error>)
    modifies db
    ensures db.committed == Step(l, old(db.committed), c)
    ensures Computes(r, db.committed, Apply(l, old(db.committed), c.op, c.env)) && Names(r, old(db.committed), db.committed, c)
  {
    var tx := db.BeginTx();
    r := ApplyInTx(l, tx, c);
    if r.Failure? { return; }
    db.Commit(tx);
  }
}
