/**
 * What each operation answers and leaves, field by field: which error refuses it, in which order the
 * checks decide, what a dry run says of the real call, and every row a committed call writes.
 */
module Answers {
  import opened Wrappers
  import opened LedgerState
  import opened Transitions
  import opened Effects
  import opened Histories
  import opened Balances

  // ----- the event -----

  lemma {:induction false} BelowNext(log: seq<LogEvent>, i: nat)
    requires i < |log|
    ensures log[i].seqNo < NextSeq(log)
  {
    if i < |log| - 1 {
      BelowNext(log[..|log| - 1], i);
    }
  }

  /** The log has an event with this ID, or with this idempotency key. */
  predicate Taken(log: seq<LogEvent>, eventId: Id, key: string) {
    exists i :: 0 <= i < |log| && (log[i].eventId == eventId || (key != "" && log[i].key == key))
  }

  lemma {:induction false} CollidesIffTaken(s: State, e: Env, validTime: Time, payload: Payload)
    ensures Collides(s.log, EventFor(s, e, validTime, payload)) <==> Taken(s.log, e.eventId, e.key)
  {
    forall i | 0 <= i < |s.log|
      ensures s.log[i].seqNo < NextSeq(s.log)
    {
      BelowNext(s.log, i);
    }
  }

  /** One event more: the next number, the call's stamps, and the hash only with a key. */
  predicate Logs(s: State, s': State, e: Env, validTime: Time, payload: Payload) {
    |s'.log| == |s.log| + 1 && s'.log[..|s.log|] == s.log
    && var ev := s'.log[|s.log|];
      && ev.eventId == e.eventId && ev.seqNo == NextSeq(s.log) && ev.systemTime == e.now && ev.validTime == validTime
      && ev.payload == payload && ev.key == e.key && ev.hash == (if e.key == "" then None else e.hash)
  }

  /** The record of a keyed call with a hash; an older record stays. */
  predicate Records(s: State, s': State, e: Env) {
    s'.keys == match e.hash
               case Some(h) => if e.key == "" || e.key in s.keys then s.keys else s.keys[e.key := KeyRecord(e.eventId, h)]
               case None => s.keys
  }

  /** Row `k` takes the amount out of `from`, the next one puts it into `to`. */
  predicate Pair(
    rows: seq<VolumeDelta>, k: nat, from: Account, to: Account, amount: int, asset: Asset, eventId: Id, validTime: Time, now: Time)
  {
    && k + 1 < |rows|
    && rows[k] == VolumeDelta(from, asset, eventId, validTime, now, 0, amount)
    && rows[k + 1] == VolumeDelta(to, asset, eventId, validTime, now, amount, 0)
  }

  lemma {:induction false} LegCount(ps: seq<Posting>, eventId: Id, validTime: Time, now: Time)
    requires forall i :: 0 <= i < |ps| ==> ps[i].amount > 0
    ensures |Legs(ps, eventId, validTime, now)| == 2 * |ps|
  {
    if ps != [] {
      LegCount(ps[..|ps| - 1], eventId, validTime, now);
    }
  }

  lemma {:induction false} LegPair(ps: seq<Posting>, i: nat, p: Posting, eventId: Id, validTime: Time, now: Time)
    requires i < |ps| && p == ps[i] && forall j :: 0 <= j < |ps| ==> ps[j].amount > 0
    ensures Pair(Legs(ps, eventId, validTime, now), 2 * i, p.source, p.destination, p.amount, p.asset, eventId, validTime, now)
  {
    var n := |ps| - 1;
    LegCount(ps[..n], eventId, validTime, now);
    if i < n {
      LegPair(ps[..n], i, p, eventId, validTime, now);
    }
  }

  lemma {:induction false} LegPairs(ps: seq<Posting>, eventId: Id, validTime: Time, now: Time)
    requires forall i :: 0 <= i < |ps| ==> ps[i].amount > 0
    ensures |Legs(ps, eventId, validTime, now)| == 2 * |ps|
    ensures forall i :: 0 <= i < |ps| ==>
      Pair(Legs(ps, eventId, validTime, now), 2 * i, ps[i].source, ps[i].destination, ps[i].amount, ps[i].asset, eventId, validTime, now)
  {
    forall i | 0 <= i < |ps|
      ensures Pair(Legs(ps, eventId, validTime, now), 2 * i,
                   ps[i].source, ps[i].destination, ps[i].amount, ps[i].asset, eventId, validTime, now)
    {
      LegPair(ps, i, ps[i], eventId, validTime, now);
    }
    LegCount(ps, eventId, validTime, now);
  }

  // ----- posts -----

  /** What is wrong with the input of a post. */
  predicate BadPostings(l: Ledger, ps: seq<Posting>) {
    ps == [] || exists i :: 0 <= i < |ps| && BadPosting(l, ps[i])
  }

  predicate BadPosting(l: Ledger, p: Posting) {
    !l.validAccount(p.source) || !l.validAccount(p.destination) || !l.validAsset(p.asset) || p.amount <= 0
  }

  /** Some debited account that may not go negative has less than the post takes from it in all. */
  predicate Short(l: Ledger, s: State, ps: seq<Posting>) {
    exists i :: 0 <= i < |ps| && ps[i].source !in l.issuers && Owes(s, ps, Bucket(ps[i].source, ps[i].asset))
  }

  predicate Owes(s: State, ps: seq<Posting>, b: Bucket) { Available(s, b) + TotalIn(ps, b) < TotalOut(ps, b) }

  lemma {:induction false} ShortIff(l: Ledger, s: State, ps: seq<Posting>)
    ensures FundsCover(l, s, ps) <==> !Short(l, s, ps)
  {
    if b :| b in Debited(ps) && !IsIssuer(l, b.account) && Owes(s, ps, b) {
      var i :| 0 <= i < |ps| && Bucket(ps[i].source, ps[i].asset) == b;
      assert Short(l, s, ps);
    }
    if Short(l, s, ps) {
      var i :| 0 <= i < |ps| && ps[i].source !in l.issuers && Owes(s, ps, Bucket(ps[i].source, ps[i].asset));
      assert ps[i] in ps && Bucket(ps[i].source, ps[i].asset) in Debited(ps);
    }
  }

  lemma {:induction false} RowErrors(l: Ledger, s: State, rows: seq<VolumeDelta>)
    ensures InsertDeltas(l, s, rows).Failure? ==> l.keyedDeltas && InsertDeltas(l, s, rows).error == DuplicateRow
  {
    if rows != [] {
      RowErrors(l, s, rows[..|rows| - 1]);
    }
  }

  /** A post is refused for its input, then its schema, then its funds; a dry run for nothing else, and changes nothing. */
  lemma {:induction false} PostRefusals(l: Ledger, s: State, ps: seq<Posting>, reference: string, dryRun: bool, e: Env)
    ensures var r := Apply(l, s, Post(ps, reference, dryRun), e);
      && (r == Failure(InvalidInput) <==> BadPostings(l, ps))
      && (r == Failure(SchemaViolation) <==> !BadPostings(l, ps) && !l.schemaAccepts(ps))
      && (r == Failure(InsufficientFunds) <==> !BadPostings(l, ps) && l.schemaAccepts(ps) && Short(l, s, ps))
      && (dryRun && r.Failure? ==> r.error in {InvalidInput, SchemaViolation, InsufficientFunds})
      && (dryRun && r.Success? ==> r.value == s)
  {
    ShortIff(l, s, ps);
    RowErrors(l, AfterPost(s, ps, reference, e), Legs(ps, e.eventId, e.validTime, e.now));
  }

  /** The state of a post when its rows are due. */
  function AfterPost(s: State, ps: seq<Posting>, reference: string, e: Env): State {
    s.(log := s.log + [EventFor(s, e, e.validTime, TransactionPosted(e.txId, ps, reference))],
       transactions := s.transactions[e.txId := Transaction(e.txId, e.eventId, e.validTime, e.now, reference, ps)])
  }

  /** A dry run that is refused is refused as the post would be, one that is not foretells that these checks pass. */
  lemma {:induction false} DryRunForetells(l: Ledger, s: State, ps: seq<Posting>, reference: string, e: Env)
    ensures var dry, wet := Apply(l, s, Post(ps, reference, true), e), Apply(l, s, Post(ps, reference, false), e);
      && (dry.Failure? ==> wet == dry)
      && (dry.Success? <==> !(wet.Failure? && wet.error in {InvalidInput, SchemaViolation, InsufficientFunds}))
  {
    PostRefusals(l, s, ps, reference, true, e);
    PostRefusals(l, s, ps, reference, false, e);
  }

  /** After those checks: the event, then the transaction's ID and reference, then the keys of the rows. */
  lemma {:induction false} PostConflicts(l: Ledger, s: State, ps: seq<Posting>, reference: string, e: Env)
    requires !BadPostings(l, ps) && l.schemaAccepts(ps) && !Short(l, s, ps)
    ensures var r, taken := Apply(l, s, Post(ps, reference, false), e), Taken(s.log, e.eventId, e.key);
      var named := e.txId in s.transactions || (reference != "" && exists id :: id in s.transactions && s.transactions[id].reference == reference);
      && (r == Failure(IdempotencyKeyConflict) <==> taken)
      && (r == Failure(ReferenceConflict) <==> !taken && named)
      && (r.Failure? && !taken && !named ==> r.error == DuplicateRow && l.keyedDeltas)
  {
    ShortIff(l, s, ps);
    CollidesIffTaken(s, e, e.validTime, TransactionPosted(e.txId, ps, reference));
    RowErrors(l, AfterPost(s, ps, reference, e), Legs(ps, e.eventId, e.validTime, e.now));
  }

  /** A committed post: its event, its transaction, a debit and a credit for each posting in order, its record. */
  lemma {:induction false} PostLeaves(l: Ledger, s: State, ps: seq<Posting>, reference: string, e: Env, s': State)
    requires Apply(l, s, Post(ps, reference, false), e) == Success(s')
    ensures Logs(s, s', e, e.validTime, TransactionPosted(e.txId, ps, reference)) && Records(s, s', e)
    ensures s'.transactions == s.transactions[e.txId := Transaction(e.txId, e.eventId, e.validTime, e.now, reference, ps)]
    ensures s'.holds == s.holds && s'.relationships == s.relationships
    ensures |s'.deltas| == |s.deltas| + 2 * |ps| && s'.deltas[..|s.deltas|] == s.deltas
    ensures forall i :: 0 <= i < |ps| ==>
      Pair(s'.deltas, |s.deltas| + 2 * i, ps[i].source, ps[i].destination, ps[i].amount, ps[i].asset, e.eventId, e.validTime, e.now)
  {
    CommitShape(l, s, Post(ps, reference, false), e);
    LegPairs(ps, e.eventId, e.validTime, e.now);
    PairsAfter(s.deltas, Legs(ps, e.eventId, e.validTime, e.now), ps, e.eventId, e.validTime, e.now);
  }

  /** Pairs behind other rows. */
  lemma {:induction false} PairsAfter(
    stored: seq<VolumeDelta>, rows: seq<VolumeDelta>, ps: seq<Posting>, eventId: Id, validTime: Time, now: Time)
    requires forall i :: 0 <= i < |ps| ==>
      Pair(rows, 2 * i, ps[i].source, ps[i].destination, ps[i].amount, ps[i].asset, eventId, validTime, now)
    ensures forall i :: 0 <= i < |ps| ==>
      Pair(stored + rows, |stored| + 2 * i, ps[i].source, ps[i].destination, ps[i].amount, ps[i].asset, eventId, validTime, now)
  {
    forall i | 0 <= i < |ps|
      ensures Pair(stored + rows, |stored| + 2 * i, ps[i].source, ps[i].destination, ps[i].amount, ps[i].asset, eventId, validTime, now)
    {
      assert Pair(rows, 2 * i, ps[i].source, ps[i].destination, ps[i].amount, ps[i].asset, eventId, validTime, now);
    }
  }

  // ----- conversions -----

  predicate BadConversion(l: Ledger, c: ConvertParams) {
    || !l.validAccount(c.source) || !l.validAccount(c.destination) || !l.validAsset(c.sourceAsset) || !l.validAsset(c.destAsset)
    || (c.slippageAccount != "" && !l.validAccount(c.slippageAccount))
    || c.sourceAmount <= 0 || c.destAmount <= 0 || c.sourceAsset == c.destAsset || !c.rateParses
  }

  /** A positive slippage counts against the source's funds whether or not an account receives it. */
  lemma {:induction false} ConvertRefusals(l: Ledger, s: State, c: ConvertParams, e: Env)
    ensures var r, taken := Apply(l, s, Convert(c), e), Taken(s.log, e.eventId, e.key);
      var short := c.source !in l.issuers
        && Available(s, Bucket(c.source, c.sourceAsset)) < c.sourceAmount + if c.slippageAmount > 0 then c.slippageAmount else 0;
      && (r == Failure(InvalidInput) <==> BadConversion(l, c))
      && (r == Failure(InsufficientFunds) <==> !BadConversion(l, c) && short)
      && (r == Failure(IdempotencyKeyConflict) <==> !BadConversion(l, c) && !short && taken)
      && (r == Failure(ReferenceConflict) ==> e.txId in s.transactions)
      && (r.Failure? ==> r.error in {InvalidInput, InsufficientFunds, IdempotencyKeyConflict, DuplicateRow, ReferenceConflict})
      && (r == Failure(DuplicateRow) ==> l.keyedDeltas) && (r.Success? ==> e.txId !in s.transactions)
  {
    var payload := ConversionCreated(e.conversionId, c.source, c.destination, c.sourceAmount, c.sourceAsset, c.destAmount, c.destAsset);
    var s1 := s.(log := s.log + [EventFor(s, e, e.validTime, payload)]);
    CollidesIffTaken(s, e, e.validTime, payload);
    RowErrors(l, s1, ConversionRows(c, e));
    if InsertDeltas(l, s1, ConversionRows(c, e)).Success? {
      InsertedRows(l, s1, ConversionRows(c, e));
    }
  }

  /** Source asset to the destination, destination asset back, slippage to its account; the payload has no slippage. */
  lemma {:induction false} ConvertLeaves(l: Ledger, s: State, c: ConvertParams, e: Env, s': State)
    requires Apply(l, s, Convert(c), e) == Success(s')
    ensures Logs(s, s', e, e.validTime, ConversionCreated(
      e.conversionId, c.source, c.destination, c.sourceAmount, c.sourceAsset, c.destAmount, c.destAsset)) && Records(s, s', e)
    ensures var slips, n := c.slippageAmount > 0 && c.slippageAccount != "", |s.deltas|;
      && |s'.deltas| == n + (if slips then 6 else 4) && s'.deltas[..n] == s.deltas
      && Pair(s'.deltas, n, c.source, c.destination, c.sourceAmount, c.sourceAsset, e.eventId, e.validTime, e.now)
      && Pair(s'.deltas, n + 2, c.destination, c.source, c.destAmount, c.destAsset, e.eventId, e.validTime, e.now)
      && (slips ==> Pair(s'.deltas, n + 4, c.source, c.slippageAccount, c.slippageAmount, c.sourceAsset, e.eventId, e.validTime, e.now))
      && s'.transactions == s.transactions[e.txId := Transaction(e.txId, e.eventId, e.validTime, e.now, "",
           [Posting(c.source, c.destination, c.sourceAmount, c.sourceAsset), Posting(c.destination, c.source, c.destAmount, c.destAsset)]
           + if slips then [Posting(c.source, c.slippageAccount, c.slippageAmount, c.sourceAsset)] else [])]
    ensures s'.holds == s.holds && s'.relationships == s.relationships
  {
    CommitShape(l, s, Convert(c), e);
    ConversionRowsAreLegs(c, e);
  }

  // ----- holds -----

  /** The funds of one bucket change by so much, those of no other. */
  ghost predicate Shifts(s: State, s': State, at: Bucket, change: int) {
    forall b: Bucket :: Available(s', b) == Available(s, b) + (if b == at then change else 0)
  }

  lemma {:induction false} AuthorizeRefusals(
    l: Ledger, s: State, source: Account, hint: Account, asset: Asset, amount: int, expiresAt: Time, e: Env)
    ensures var r, taken := Apply(l, s, Authorize(source, hint, asset, amount, expiresAt), e), Taken(s.log, e.eventId, e.key);
      var short := source !in l.issuers && Available(s, Bucket(source, asset)) < amount;
      && (r == Failure(InvalidInput) <==> amount <= 0)
      && (r == Failure(InsufficientFunds) <==> amount > 0 && short)
      && (r == Failure(IdempotencyKeyConflict) <==> amount > 0 && !short && taken)
      && (r == Failure(DuplicateRow) <==> amount > 0 && !short && !taken && exists i :: 0 <= i < |s.holds| && s.holds[i].id == e.holdId)
      && (r.Failure? ==> r.error in {InvalidInput, InsufficientFunds, IdempotencyKeyConflict, DuplicateRow})
  {
    CollidesIffTaken(s, e, e.now, HoldCreated(e.holdId, source, hint, amount, asset, expiresAt));
  }

  /** One open hold more, nothing captured of it; no volume row. */
  lemma {:induction false} AuthorizeLeaves(
    l: Ledger, s: State, source: Account, hint: Account, asset: Asset, amount: int, expiresAt: Time, e: Env, s': State)
    requires Apply(l, s, Authorize(source, hint, asset, amount, expiresAt), e) == Success(s')
    ensures Logs(s, s', e, e.now, HoldCreated(e.holdId, source, hint, amount, asset, expiresAt)) && Records(s, s', e)
    ensures s'.holds == s.holds + [Hold(e.holdId, source, hint, asset, amount, 0, false, false, expiresAt, e.eventId, e.now, e.now)]
    ensures s'.deltas == s.deltas && s'.transactions == s.transactions && s'.relationships == s.relationships
    ensures Shifts(s, s', Bucket(source, asset), -amount)
  {
    var op := Authorize(source, hint, asset, amount, expiresAt);
    CommitShape(l, s, op, e);
    forall b: Bucket
      ensures Available(s', b) == Available(s, b) + (if b == Bucket(source, asset) then -amount else 0)
    {
      HoldsReserve(s, op, e, b);
    }
  }

  /** Row `i` is the one with this ID. */
  predicate IsHold(s: State, id: Id, i: nat) {
    i < |s.holds| && s.holds[i].id == id && forall j :: 0 <= j < i ==> s.holds[j].id != id
  }

  lemma {:induction false} FoundHold(s: State, id: Id, i: nat)
    requires IsHold(s, id, i)
    ensures FindHold(s.holds, id) == i
  {
  }

  lemma {:induction false} MissingHold(l: Ledger, s: State, id: Id, e: Env, amount: int, destination: Account, listed: Hold)
    requires (forall i :: 0 <= i < |s.holds| ==> s.holds[i].id != id) && listed.id == id && amount > 0
    ensures Apply(l, s, Capture(id, amount, destination), e) == Failure(NotFound)
    ensures Apply(l, s, Void(id), e) == Failure(NotFound) && Apply(l, s, Expire(listed), e) == Failure(NotFound)
  {
  }

  /** The checks of a capture in their order; the destination matters last of them. */
  lemma {:induction false} CaptureRefusals(l: Ledger, s: State, id: Id, amount: int, destination: Account, e: Env, i: nat)
    requires IsHold(s, id, i)
    ensures var r, h := Apply(l, s, Capture(id, amount, destination), e), s.holds[i];
      var fits := amount > 0 && !h.voided && !h.expired && amount <= h.authorized - h.captured;
      var nowhere, taken := destination == "" && h.destinationHint == "", Taken(s.log, e.eventId, e.key);
      && (r == Failure(InvalidInput) <==> amount <= 0)
      && (r == Failure(Error.HoldVoided) <==> amount > 0 && h.voided)
      && (r == Failure(Error.HoldExpired) <==> amount > 0 && !h.voided && h.expired)
      && (r == Failure(InsufficientFunds) <==> amount > 0 && !h.voided && !h.expired && amount > h.authorized - h.captured)
      && (r == Failure(MissingDestination) <==> fits && nowhere)
      && (r == Failure(IdempotencyKeyConflict) <==> fits && !nowhere && taken)
      && (r.Failure? && fits && !nowhere && !taken ==> r.error == DuplicateRow && l.keyedDeltas)
  {
    FoundHold(s, id, i);
    var h := s.holds[i];
    var dest := if destination == "" then h.destinationHint else destination;
    CollidesIffTaken(s, e, e.now, HoldConfirmed(id, amount, dest));
    var ev := EventFor(s, e, e.now, HoldConfirmed(id, amount, dest));
    RowErrors(l, s.(log := s.log + [ev], holds := s.holds[i := h.(captured := h.captured + amount)]),
              Legs([Posting(h.source, dest, amount, h.asset)], e.eventId, e.now, e.now));
  }

  lemma {:induction false} CapturePays(
    l: Ledger, s: State, id: Id, amount: int, destination: Account, e: Env, i: nat, s': State, p: Posting)
    requires IsHold(s, id, i) && Apply(l, s, Capture(id, amount, destination), e) == Success(s')
    requires var h := s.holds[i];
      p == Posting(h.source, if destination == "" then h.destinationHint else destination, amount, h.asset)
    ensures Logs(s, s', e, e.now, HoldConfirmed(id, amount, p.destination)) && amount > 0
    ensures s'.deltas == s.deltas + Legs([p], e.eventId, e.now, e.now) && s'.transactions == s.transactions
    ensures s'.holds == s.holds[i := s.holds[i].(captured := s.holds[i].captured + amount)] && Records(s, s', e)
  {
    FoundHold(s, id, i);
    CommitShape(l, s, Capture(id, amount, destination), e);
  }

  lemma {:induction false} PaysOne(s: State, s': State, p: Posting, e: Env)
    requires s'.deltas == s.deltas + Legs([p], e.eventId, e.now, e.now) && p.amount > 0
    ensures |s'.deltas| == |s.deltas| + 2 && s'.deltas[..|s.deltas|] == s.deltas
    ensures Pair(s'.deltas, |s.deltas|, p.source, p.destination, p.amount, p.asset, e.eventId, e.now, e.now)
  {
    LegPairs([p], e.eventId, e.now, e.now);
    PairsAfter(s.deltas, Legs([p], e.eventId, e.now, e.now), [p], e.eventId, e.now, e.now);
    assert [p][0] == p;
  }

  /**
   * A capture pays the account it names, and the hold's hint only when it names none. What the
   * source pays was reserved, so that only the payee's funds change.
   */
  lemma {:induction false} CaptureLeaves(l: Ledger, s: State, id: Id, amount: int, destination: Account, e: Env, i: nat, s': State)
    requires IsHold(s, id, i) && Apply(l, s, Capture(id, amount, destination), e) == Success(s')
    ensures destination != "" ==> Paid(s, s', s.holds[i], amount, destination, e)
    ensures destination == "" ==> Paid(s, s', s.holds[i], amount, s.holds[i].destinationHint, e)
    ensures s'.holds == s.holds[i := s.holds[i].(captured := s.holds[i].captured + amount)] && Records(s, s', e)
    ensures s'.transactions == s.transactions && s'.relationships == s.relationships
  {
    var h := s.holds[i];
    var p := Posting(h.source, if destination == "" then h.destinationHint else destination, amount, h.asset);
    CapturePays(l, s, id, amount, destination, e, i, s', p);
    PaysOne(s, s', p, e);
    CaptureShifts(s, s', p, e, i);
    CommitShape(l, s, Capture(id, amount, destination), e);
  }

  lemma {:induction false} CaptureShifts(s: State, s': State, p: Posting, e: Env, i: nat)
    requires i < |s.holds| && s.holds[i].Open() && p.source == s.holds[i].source && p.asset == s.holds[i].asset
    requires s'.deltas == s.deltas + Legs([p], e.eventId, e.now, e.now)
    requires s'.holds == s.holds[i := s.holds[i].(captured := s.holds[i].captured + p.amount)]
    ensures Shifts(s, s', Bucket(p.destination, p.asset), p.amount)
  {
    forall b: Bucket
      ensures Available(s', b) == Available(s, b) + (if b == Bucket(p.destination, p.asset) then p.amount else 0)
    {
      ActiveHoldsUpdated(s.holds, i, s'.holds[i], b);
      LegsNet([p], e.eventId, e.now, e.now, b);
      SumsOverConcat(s.deltas, Legs([p], e.eventId, e.now, e.now), b);
      assert [p][..0] == [] && TotalIn([p], b) == InOf(p, b) && TotalOut([p], b) == OutOf(p, b);
    }
  }

  /** The hold's source pays `to`, and the event says so. */
  ghost predicate Paid(s: State, s': State, h: Hold, amount: int, to: Account, e: Env) {
    && Logs(s, s', e, e.now, HoldConfirmed(h.id, amount, to))
    && |s'.deltas| == |s.deltas| + 2 && s'.deltas[..|s.deltas|] == s.deltas
    && Pair(s'.deltas, |s.deltas|, h.source, to, amount, h.asset, e.eventId, e.now, e.now)
    && Shifts(s, s', Bucket(to, h.asset), amount)
  }

  lemma {:induction false} VoidRefusals(l: Ledger, s: State, id: Id, e: Env, i: nat)
    requires IsHold(s, id, i)
    ensures var r, h, taken := Apply(l, s, Void(id), e), s.holds[i], Taken(s.log, e.eventId, e.key);
      && (r == Failure(Error.HoldVoided) <==> h.voided)
      && (r == Failure(Error.HoldExpired) <==> !h.voided && h.expired)
      && (r == Failure(IdempotencyKeyConflict) <==> !h.voided && !h.expired && taken)
      && (r.Success? <==> !h.voided && !h.expired && !taken)
  {
    FoundHold(s, id, i);
    CollidesIffTaken(s, e, e.now, Payload.HoldVoided(id));
  }

  /** A void gives back what is left of the hold. */
  lemma {:induction false} VoidLeaves(l: Ledger, s: State, id: Id, e: Env, i: nat, s': State)
    requires IsHold(s, id, i) && Apply(l, s, Void(id), e) == Success(s')
    ensures Logs(s, s', e, e.now, Payload.HoldVoided(id)) && Records(s, s', e)
    ensures s'.holds == s.holds[i := s.holds[i].(voided := true)]
    ensures s'.deltas == s.deltas && s'.transactions == s.transactions && s'.relationships == s.relationships
    ensures Shifts(s, s', Bucket(s.holds[i].source, s.holds[i].asset), s.holds[i].authorized - s.holds[i].captured)
  {
    FoundHold(s, id, i);
    CommitShape(l, s, Void(id), e);
    GivesBack(s, Void(id), e, i, s');
  }

  /** A hold closed since it was listed is left alone; otherwise only its event ID can be in the way, as it has no key. */
  lemma {:induction false} ExpireAnswers(l: Ledger, s: State, listed: Hold, e: Env, i: nat)
    requires IsHold(s, listed.id, i)
    ensures var r, h, taken := Apply(l, s, Expire(listed), e), s.holds[i], Taken(s.log, e.eventId, "");
      && (h.voided || h.expired ==> r == Success(s))
      && (!h.voided && !h.expired && taken ==> r == Failure(IdempotencyKeyConflict))
      && (!h.voided && !h.expired && !taken ==> r.Success? && r.value != s)
  {
    FoundHold(s, listed.id, i);
    CollidesIffTaken(s, e.(key := "", hash := None), e.now, Payload.HoldExpired(listed.id, listed.source, listed.asset));
  }

  /** An expiry logs the hold as it was listed and gives back what is left of it now. */
  lemma {:induction false} ExpireLeaves(l: Ledger, s: State, listed: Hold, e: Env, i: nat, s': State)
    requires IsHold(s, listed.id, i) && !s.holds[i].voided && !s.holds[i].expired
    requires Apply(l, s, Expire(listed), e) == Success(s')
    ensures Logs(s, s', e.(key := ""), e.now, Payload.HoldExpired(listed.id, listed.source, listed.asset))
    ensures s'.holds == s.holds[i := s.holds[i].(expired := true)]
    ensures s'.deltas == s.deltas && s'.transactions == s.transactions && s'.relationships == s.relationships && s'.keys == s.keys
    ensures Shifts(s, s', Bucket(s.holds[i].source, s.holds[i].asset), s.holds[i].authorized - s.holds[i].captured)
  {
    FoundHold(s, listed.id, i);
    CommitShape(l, s, Expire(listed), e);
    GivesBack(s, Expire(listed), e, i, s');
  }

  lemma {:induction false} GivesBack(s: State, op: Op, e: Env, i: nat, s': State)
    requires (op.Void? && IsHold(s, op.holdId, i)) || (op.Expire? && IsHold(s, op.listed.id, i))
    requires s.holds[i].Open() && s'.deltas == s.deltas && s'.holds == HoldsAfter(s.holds, op, e)
    ensures Shifts(s, s', Bucket(s.holds[i].source, s.holds[i].asset), s.holds[i].authorized - s.holds[i].captured)
  {
    FoundHold(s, s.holds[i].id, i);
    forall b: Bucket
      ensures Available(s', b) == Available(s, b) + (if b == s.holds[i].Where() then s.holds[i].authorized - s.holds[i].captured else 0)
    {
      HoldsReserve(s, op, e, b);
    }
  }

  // ----- reverts -----

  /** Some account that received may not go negative and has less than it would give back in one posting. */
  predicate CannotReturn(l: Ledger, s: State, ps: seq<Posting>) {
    exists i :: 0 <= i < |ps| && ps[i].destination !in l.issuers
      && Available(s, Bucket(ps[i].destination, ps[i].asset)) < ps[i].amount
  }

  lemma {:induction false} ReturnIff(l: Ledger, s: State, ps: seq<Posting>)
    ensures EachAffordable(l, s, Reverse(ps)) <==> !CannotReturn(l, s, ps)
  {
    var back := Reverse(ps);
    forall i | 0 <= i < |ps|
      ensures (IsIssuer(l, back[i].source) || Available(s, Bucket(back[i].source, back[i].asset)) >= back[i].amount)
        <==> (ps[i].destination in l.issuers || Available(s, Bucket(ps[i].destination, ps[i].asset)) >= ps[i].amount)
    {
      assert back[i] == Swap(ps[i]);
    }
  }

  predicate Reverted(s: State, txId: Id) { exists r :: r in s.relationships && r.parent == txId }

  lemma {:induction false} RevertedIff(s: State, txId: Id)
    ensures HasRevert(s, txId) <==> Reverted(s, txId)
  {
    if HasRevert(s, txId) {
      var i :| 0 <= i < |s.relationships| && s.relationships[i].parent == txId;
      assert s.relationships[i] in s.relationships;
    }
  }

  /** The writes of a revert that stores `back`, valid at `vt`. */
  function StoreRevert(l: Ledger, s: State, txId: Id, back: seq<Posting>, vt: Time, e: Env): Result<State, Error> {
    var s1 :- AppendEvent(s, e, vt, TransactionReverted(e.txId, back, txId));
    var s2 :- InsertTransaction(s1, Transaction(e.txId, e.eventId, vt, e.now, "", back));
    var s3 :- InsertDeltas(l, s2, Legs(back, e.eventId, vt, e.now));
    var s4 :- InsertRelationship(s3, Relationship(txId, e.txId, e.eventId, e.now));
    Success(RecordKey(s4, e))
  }

  /** The writes are refused for the event, then the new transaction's ID, then the keys of the rows. */
  lemma {:induction false} StoreRevertConflicts(l: Ledger, s: State, txId: Id, back: seq<Posting>, vt: Time, e: Env)
    requires !HasRevert(s, txId)
    ensures var r, taken := StoreRevert(l, s, txId, back, vt, e), Taken(s.log, e.eventId, e.key);
      && (r == Failure(IdempotencyKeyConflict) <==> taken)
      && (r == Failure(ReferenceConflict) <==> !taken && e.txId in s.transactions)
      && (r.Failure? && !taken && e.txId !in s.transactions ==> r.error == DuplicateRow && l.keyedDeltas)
  {
    CollidesIffTaken(s, e, vt, TransactionReverted(e.txId, back, txId));
    var s2 := s.(log := s.log + [EventFor(s, e, vt, TransactionReverted(e.txId, back, txId))],
                 transactions := s.transactions[e.txId := Transaction(e.txId, e.eventId, vt, e.now, "", back)]);
    RowErrors(l, s2, Legs(back, e.eventId, vt, e.now));
    if InsertDeltas(l, s2, Legs(back, e.eventId, vt, e.now)).Success? {
      InsertedRows(l, s2, Legs(back, e.eventId, vt, e.now));
    }
  }

  lemma {:induction false} StoreRevertLeaves(l: Ledger, s: State, txId: Id, back: seq<Posting>, vt: Time, e: Env, s': State)
    requires StoreRevert(l, s, txId, back, vt, e) == Success(s')
    ensures Logs(s, s', e, vt, TransactionReverted(e.txId, back, txId)) && Records(s, s', e) && s'.holds == s.holds
    ensures e.txId !in s.transactions
    ensures s'.transactions == s.transactions[e.txId := Transaction(e.txId, e.eventId, vt, e.now, "", back)]
    ensures s'.deltas == s.deltas + Legs(back, e.eventId, vt, e.now)
    ensures s'.relationships == s.relationships + [Relationship(txId, e.txId, e.eventId, e.now)]
  {
    var s2 := s.(log := s.log + [EventFor(s, e, vt, TransactionReverted(e.txId, back, txId))],
                 transactions := s.transactions[e.txId := Transaction(e.txId, e.eventId, vt, e.now, "", back)]);
    InsertedRows(l, s2, Legs(back, e.eventId, vt, e.now));
  }

  /** A revert that passes its checks writes the postings turned round, valid when the original was or now. */
  lemma {:induction false} RevertStores(l: Ledger, s: State, txId: Id, force: bool, atEffectiveDate: bool, e: Env, back: seq<Posting>)
    requires txId in s.transactions && back == Reverse(s.transactions[txId].postings)
    ensures Apply(l, s, Revert(txId, force, atEffectiveDate), e) ==
      if HasRevert(s, txId) then Failure(Error.AlreadyReverted)
      else if s.transactions[txId].postings == [] then Failure(NoPostings)
      else if !force && !EachAffordable(l, s, back) then Failure(InsufficientFunds)
      else StoreRevert(l, s, txId, back, if atEffectiveDate then s.transactions[txId].validTime else e.now, e)
  {
  }

  /** The checks of a revert in their order, and what can be in the way of its writes. */
  lemma {:induction false} RevertRefusals(l: Ledger, s: State, txId: Id, force: bool, atEffectiveDate: bool, e: Env)
    ensures Apply(l, s, Revert(txId, force, atEffectiveDate), e) == Failure(NotFound) <==> txId !in s.transactions
    ensures txId in s.transactions ==>
      var r, ps := Apply(l, s, Revert(txId, force, atEffectiveDate), e), s.transactions[txId].postings;
      var fails, taken := Reverted(s, txId) || ps == [] || (!force && CannotReturn(l, s, ps)), Taken(s.log, e.eventId, e.key);
      && (r == Failure(Error.AlreadyReverted) <==> Reverted(s, txId))
      && (r == Failure(NoPostings) <==> !Reverted(s, txId) && ps == [])
      && (r == Failure(InsufficientFunds) <==> !Reverted(s, txId) && ps != [] && !force && CannotReturn(l, s, ps))
      && (r == Failure(IdempotencyKeyConflict) <==> !fails && taken)
      && (r == Failure(ReferenceConflict) <==> !fails && !taken && e.txId in s.transactions)
      && (r.Failure? && !fails && !taken && e.txId !in s.transactions ==> r.error == DuplicateRow && l.keyedDeltas)
  {
    RevertedIff(s, txId);
    if txId in s.transactions {
      var t := s.transactions[txId];
      var back := Reverse(t.postings);
      ReturnIff(l, s, t.postings);
      RevertStores(l, s, txId, force, atEffectiveDate, e, back);
      if !HasRevert(s, txId) {
        StoreRevertConflicts(l, s, txId, back, if atEffectiveDate then t.validTime else e.now, e);
      }
    }
  }

  lemma {:induction false} TurnedRound(s: State, s': State, txId: Id, e: Env, at: Time, back: seq<Posting>)
    requires txId in s.transactions && |back| == |s.transactions[txId].postings|
    requires forall i :: 0 <= i < |back| ==> back[i] == Swap(s.transactions[txId].postings[i]) && back[i].amount > 0
    requires s'.transactions == s.transactions[e.txId := Transaction(e.txId, e.eventId, at, e.now, "", back)]
    requires Logs(s, s', e, at, TransactionReverted(e.txId, back, txId)) && s'.deltas == s.deltas + Legs(back, e.eventId, at, e.now)
    ensures TurnsRound(s, s', txId, e, at)
  {
    LegPairs(back, e.eventId, at, e.now);
    PairsAfter(s.deltas, Legs(back, e.eventId, at, e.now), back, e.eventId, at, e.now);
  }

  /** Every posting turned round, stamped with one valid time throughout, and joined to what it reverts. */
  lemma {:induction false} RevertLeaves(l: Ledger, s: State, txId: Id, force: bool, atEffectiveDate: bool, e: Env, s': State)
    requires StoredSound(s) && Apply(l, s, Revert(txId, force, atEffectiveDate), e) == Success(s')
    ensures txId in s.transactions && e.txId !in s.transactions && e.txId in s'.transactions
    ensures atEffectiveDate ==> TurnsRound(s, s', txId, e, s.transactions[txId].validTime)
    ensures !atEffectiveDate ==> TurnsRound(s, s', txId, e, e.now)
    ensures s'.holds == s.holds && Records(s, s', e)
    ensures s'.relationships == s.relationships + [Relationship(txId, e.txId, e.eventId, e.now)]
  {
    assert txId in s.transactions;
    var t := s.transactions[txId];
    var back, at := Reverse(t.postings), if atEffectiveDate then t.validTime else e.now;
    RevertStores(l, s, txId, force, atEffectiveDate, e, back);
    StoreRevertLeaves(l, s, txId, back, at, e, s');
    SwapsStayPositive(s, txId, back);
    TurnedRound(s, s', txId, e, at, back);
  }

  lemma {:induction false} SwapsStayPositive(s: State, txId: Id, back: seq<Posting>)
    requires StoredSound(s) && txId in s.transactions && back == Reverse(s.transactions[txId].postings)
    ensures |back| == |s.transactions[txId].postings|
    ensures forall i :: 0 <= i < |back| ==> back[i] == Swap(s.transactions[txId].postings[i]) && back[i].amount > 0
  {
  }

  predicate TurnsRound(s: State, s': State, txId: Id, e: Env, at: Time)
    requires txId in s.transactions && e.txId in s'.transactions
  {
    var ps, t, n := s.transactions[txId].postings, s'.transactions[e.txId], |s.deltas|;
    && s'.transactions == s.transactions[e.txId := t]
    && t == Transaction(e.txId, e.eventId, at, e.now, "", t.postings) && |t.postings| == |ps|
    && (forall i :: 0 <= i < |ps| ==> t.postings[i] == Posting(ps[i].destination, ps[i].source, ps[i].amount, ps[i].asset))
    && Logs(s, s', e, at, TransactionReverted(e.txId, t.postings, txId))
    && |s'.deltas| == n + 2 * |ps| && s'.deltas[..n] == s.deltas
    && (forall i :: 0 <= i < |ps| ==>
          Pair(s'.deltas, n + 2 * i, ps[i].destination, ps[i].source, ps[i].amount, ps[i].asset, e.eventId, at, e.now))
  }
}
