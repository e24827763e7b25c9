/**
 * What each planner operation does to the tables, as functions from the state at the start of
 * its transaction to the state it commits or to the error it returns. The methods of `Planner`
 * are proved to compute exactly these functions; the theorems are about these functions.
 */
module Transitions {
  import opened Wrappers
  import opened LedgerState

  /** The identifiers, clock readings and idempotency input one call gets from outside. */
  datatype Env = Env(
    eventId: Id, txId: Id, holdId: Id, conversionId: Id, now: Time, validTime: Time, key: string, hash: Option<Hash>)

  /** An absent amount is 0: every check treats nil and non-positive alike. */
  datatype ConvertParams = ConvertParams(
    source: Account, destination: Account, sourceAmount: int, sourceAsset: Asset, destAmount: int, destAsset: Asset,
    rateParses: bool, slippageAccount: Account, slippageAmount: int)
  {
    predicate HasSlippage() { slippageAmount > 0 && slippageAccount != "" }
  }

  datatype Op =
    | Post(postings: seq<Posting>, reference: string, dryRun: bool)
    | Convert(params: ConvertParams)
    | Authorize(source: Account, destinationHint: Account, asset: Asset, amount: int, expiresAt: Time)
    | Capture(holdId: Id, amount: int, destination: Account)
    | Void(holdId: Id)
    | Expire(listed: Hold)
    | Revert(txId: Id, force: bool, atEffectiveDate: bool)

  datatype Call = Call(op: Op, env: Env)

  predicate IsIssuer(l: Ledger, a: Account) { a in l.issuers }

  // ----- rows and postings -----

  /** The two volume rows of a posting; a zero amount writes none. */
  function LegsOf(p: Posting, eventId: Id, validTime: Time, now: Time): seq<VolumeDelta> {
    if p.amount == 0 then []
    else [
      VolumeDelta(p.source, p.asset, eventId, validTime, now, 0, p.amount),
      VolumeDelta(p.destination, p.asset, eventId, validTime, now, p.amount, 0)]
  }

  function Legs(ps: seq<Posting>, eventId: Id, validTime: Time, now: Time): seq<VolumeDelta> {
    if ps == [] then []
    else Legs(ps[..|ps| - 1], eventId, validTime, now) + LegsOf(ps[|ps| - 1], eventId, validTime, now)
  }

  function Swap(p: Posting): Posting { Posting(p.destination, p.source, p.amount, p.asset) }

  /** Every posting in the opposite direction, in the same order. */
  function Reverse(ps: seq<Posting>): (r: seq<Posting>)
    ensures |r| == |ps| && forall i :: 0 <= i < |ps| ==> r[i] == Swap(ps[i])
  {
    if ps == [] then [] else Reverse(ps[..|ps| - 1]) + [Swap(ps[|ps| - 1])]
  }

  function OutOf(p: Posting, b: Bucket): int { if Bucket(p.source, p.asset) == b then p.amount else 0 }

  function InOf(p: Posting, b: Bucket): int { if Bucket(p.destination, p.asset) == b then p.amount else 0 }

  /** What a list of postings takes out of a bucket. */
  function TotalOut(ps: seq<Posting>, b: Bucket): int {
    if ps == [] then 0 else TotalOut(ps[..|ps| - 1], b) + OutOf(ps[|ps| - 1], b)
  }

  /** What a list of postings puts into a bucket. */
  function TotalIn(ps: seq<Posting>, b: Bucket): int {
    if ps == [] then 0 else TotalIn(ps[..|ps| - 1], b) + InOf(ps[|ps| - 1], b)
  }

  function Debited(ps: seq<Posting>): set<Bucket> { set p | p in ps :: Bucket(p.source, p.asset) }

  predicate ValidPosting(l: Ledger, p: Posting) {
    l.validAccount(p.source) && l.validAccount(p.destination) && l.validAsset(p.asset) && p.amount > 0
  }

  predicate ValidPostings(l: Ledger, ps: seq<Posting>) {
    ps != [] && forall i :: 0 <= i < |ps| ==> ValidPosting(l, ps[i])
  }

  /** Every debited bucket that must not go negative stays non-negative after all postings. */
  predicate FundsCover(l: Ledger, s: State, ps: seq<Posting>) {
    forall b | b in Debited(ps) ::
      IsIssuer(l, b.account) || Available(s, b) + TotalIn(ps, b) - TotalOut(ps, b) >= 0
  }

  /** The check of a revert: each posting on its own against the balances at the start. */
  predicate EachAffordable(l: Ledger, s: State, ps: seq<Posting>) {
    forall i :: 0 <= i < |ps| ==>
      IsIssuer(l, ps[i].source) || Available(s, Bucket(ps[i].source, ps[i].asset)) >= ps[i].amount
  }

  predicate ValidConversion(l: Ledger, c: ConvertParams) {
    && l.validAccount(c.source) && l.validAccount(c.destination)
    && l.validAsset(c.sourceAsset) && l.validAsset(c.destAsset)
    && (c.slippageAccount != "" ==> l.validAccount(c.slippageAccount))
    && c.sourceAmount > 0 && c.destAmount > 0 && c.sourceAsset != c.destAsset && c.rateParses
  }

  /** A positive slippage amount is charged to the source even when no account receives it. */
  function ConversionCost(c: ConvertParams): int {
    c.sourceAmount + if c.slippageAmount > 0 then c.slippageAmount else 0
  }

  /** The postings stored for a conversion. */
  function ConversionPostings(c: ConvertParams): seq<Posting> {
    [Posting(c.source, c.destination, c.sourceAmount, c.sourceAsset),
     Posting(c.destination, c.source, c.destAmount, c.destAsset)]
    + if c.HasSlippage() then [Posting(c.source, c.slippageAccount, c.slippageAmount, c.sourceAsset)] else []
  }

  // ----- guarded writes -----

  /** The unique keys of the log: event ID, sequence number and non-empty idempotency key. */
  predicate Collides(log: seq<LogEvent>, ev: LogEvent) {
    exists i :: 0 <= i < |log| &&
      (log[i].eventId == ev.eventId || log[i].seqNo == ev.seqNo || (ev.key != "" && log[i].key == ev.key))
  }

  function EventFor(s: State, e: Env, validTime: Time, payload: Payload): LogEvent {
    LogEvent(e.eventId, NextSeq(s.log), e.now, validTime, payload, e.key, if e.key != "" then e.hash else None)
  }

  /** Any unique violation of the log is reported as a key conflict. */
  function AppendEvent(s: State, e: Env, validTime: Time, payload: Payload): Result<State, Error> {
    var ev := EventFor(s, e, validTime, payload);
    if Collides(s.log, ev) then Failure(IdempotencyKeyConflict) else Success(s.(log := s.log + [ev]))
  }

  predicate HasReference(txs: map<Id, Transaction>, reference: string) {
    exists id | id in txs :: txs[id].reference == reference
  }

  function InsertTransaction(s: State, t: Transaction): Result<State, Error> {
    if t.id in s.transactions || (t.reference != "" && HasReference(s.transactions, t.reference))
    then Failure(ReferenceConflict)
    else Success(s.(transactions := s.transactions[t.id := t]))
  }

  predicate HasRow(rows: seq<VolumeDelta>, d: VolumeDelta) {
    exists i :: 0 <= i < |rows| && rows[i].Where() == d.Where() && rows[i].eventId == d.eventId
  }

  function InsertDelta(l: Ledger, s: State, d: VolumeDelta): Result<State, Error> {
    if l.keyedDeltas && HasRow(s.deltas, d) then Failure(DuplicateRow) else Success(s.(deltas := s.deltas + [d]))
  }

  /** One insert after another; the first failure stops. */
  function InsertDeltas(l: Ledger, s: State, rows: seq<VolumeDelta>): Result<State, Error> {
    if rows == [] then Success(s)
    else
      var before :- InsertDeltas(l, s, rows[..|rows| - 1]);
      InsertDelta(l, before, rows[|rows| - 1])
  }

  function InsertHold(s: State, h: Hold): Result<State, Error> {
    if FindHold(s.holds, h.id) < |s.holds| then Failure(DuplicateRow) else Success(s.(holds := s.holds + [h]))
  }

  function InsertRelationship(s: State, r: Relationship): Result<State, Error> {
    if exists i :: 0 <= i < |s.relationships| && s.relationships[i].parent == r.parent && s.relationships[i].child == r.child
    then Failure(DuplicateRow)
    else Success(s.(relationships := s.relationships + [r]))
  }

  /** The idempotency record of a call, unless one is there: that conflict is swallowed. */
  function RecordKey(s: State, e: Env): State {
    if e.key != "" && e.hash.Some? && e.key !in s.keys
    then s.(keys := s.keys[e.key := KeyRecord(e.eventId, e.hash.value)])
    else s
  }

  /** The hold, if its row can still change. */
  function OpenHold(s: State, id: Id): Result<nat, Error> {
    var i := FindHold(s.holds, id);
    if i == |s.holds| then Failure(NotFound)
    else if s.holds[i].voided then Failure(Error.HoldVoided)
    else if s.holds[i].expired then Failure(Error.HoldExpired)
    else Success(i)
  }

  predicate HasRevert(s: State, txId: Id) {
    exists i :: 0 <= i < |s.relationships| && s.relationships[i].parent == txId
  }

  // ----- operations -----

  function ApplyPost(l: Ledger, s: State, ps: seq<Posting>, reference: string, dryRun: bool, e: Env): Result<State, Error> {
    if !ValidPostings(l, ps) then Failure(InvalidInput)
    else if !l.schemaAccepts(ps) then Failure(SchemaViolation)
    else if !FundsCover(l, s, ps) then Failure(InsufficientFunds)
    else if dryRun then Success(s)
    else
      var s1 :- AppendEvent(s, e, e.validTime, TransactionPosted(e.txId, ps, reference));
      var s2 :- InsertTransaction(s1, Transaction(e.txId, e.eventId, e.validTime, e.now, reference, ps));
      var s3 :- InsertDeltas(l, s2, Legs(ps, e.eventId, e.validTime, e.now));
      Success(RecordKey(s3, e))
  }

  /** The four rows of a conversion, and two more for slippage. */
  function ConversionRows(c: ConvertParams, e: Env): seq<VolumeDelta> {
    [VolumeDelta(c.source, c.sourceAsset, e.eventId, e.validTime, e.now, 0, c.sourceAmount),
     VolumeDelta(c.destination, c.sourceAsset, e.eventId, e.validTime, e.now, c.sourceAmount, 0),
     VolumeDelta(c.destination, c.destAsset, e.eventId, e.validTime, e.now, 0, c.destAmount),
     VolumeDelta(c.source, c.destAsset, e.eventId, e.validTime, e.now, c.destAmount, 0)]
    + if c.HasSlippage() then [
        VolumeDelta(c.source, c.sourceAsset, e.eventId, e.validTime, e.now, 0, c.slippageAmount),
        VolumeDelta(c.slippageAccount, c.sourceAsset, e.eventId, e.validTime, e.now, c.slippageAmount, 0)]
      else []
  }

  function ApplyConvert(l: Ledger, s: State, c: ConvertParams, e: Env): Result<State, Error> {
    if !ValidConversion(l, c) then Failure(InvalidInput)
    else if !IsIssuer(l, c.source) && Available(s, Bucket(c.source, c.sourceAsset)) < ConversionCost(c)
    then Failure(InsufficientFunds)
    else
      var s1 :- AppendEvent(s, e, e.validTime, ConversionCreated(
        e.conversionId, c.source, c.destination, c.sourceAmount, c.sourceAsset, c.destAmount, c.destAsset));
      var s2 :- InsertDeltas(l, s1, ConversionRows(c, e));
      var s3 :- InsertTransaction(s2, Transaction(e.txId, e.eventId, e.validTime, e.now, "", ConversionPostings(c)));
      Success(RecordKey(s3, e))
  }

  function ApplyAuthorize(
    l: Ledger, s: State, source: Account, hint: Account, asset: Asset, amount: int, expiresAt: Time, e: Env
  ): Result<State, Error> {
    if amount <= 0 then Failure(InvalidInput)
    else if !IsIssuer(l, source) && Available(s, Bucket(source, asset)) < amount then Failure(InsufficientFunds)
    else
      var s1 :- AppendEvent(s, e, e.now, HoldCreated(e.holdId, source, hint, amount, asset, expiresAt));
      var s2 :- InsertHold(s1, Hold(e.holdId, source, hint, asset, amount, 0, false, false, expiresAt, e.eventId, e.now, e.now));
      Success(RecordKey(s2, e))
  }

  /** An empty destination falls back on the hold's hint. */
  function CaptureDestination(h: Hold, destination: Account): Account {
    if destination == "" then h.destinationHint else destination
  }

  function ApplyCapture(l: Ledger, s: State, holdId: Id, amount: int, destination: Account, e: Env): Result<State, Error> {
    if amount <= 0 then Failure(InvalidInput)
    else
      var i :- OpenHold(s, holdId);
      var h := s.holds[i];
      var dest := CaptureDestination(h, destination);
      if amount > h.authorized - h.captured then Failure(InsufficientFunds)
      else if dest == "" then Failure(MissingDestination)
      else
        var s1 :- AppendEvent(s, e, e.now, HoldConfirmed(holdId, amount, dest));
        var s2 := s1.(holds := s1.holds[i := h.(captured := h.captured + amount)]);
        var s3 :- InsertDeltas(l, s2, Legs([Posting(h.source, dest, amount, h.asset)], e.eventId, e.now, e.now));
        Success(RecordKey(s3, e))
  }

  function ApplyVoid(s: State, holdId: Id, e: Env): Result<State, Error> {
    var i :- OpenHold(s, holdId);
    var s1 :- AppendEvent(s, e, e.now, Payload.HoldVoided(holdId));
    Success(RecordKey(s1.(holds := s1.holds[i := s.holds[i].(voided := true)]), e))
  }

  /** A hold that was closed since it was listed is left alone, without an event. */
  function ApplyExpire(s: State, listed: Hold, e: Env): Result<State, Error> {
    var i := FindHold(s.holds, listed.id);
    if i == |s.holds| then Failure(NotFound)
    else if !s.holds[i].Open() then Success(s)
    else
      var s1 :- AppendEvent(s, e.(key := "", hash := None), e.now, Payload.HoldExpired(listed.id, listed.source, listed.asset));
      Success(s1.(holds := s1.holds[i := s.holds[i].(expired := true)]))
  }

  function RevertTime(t: Transaction, atEffectiveDate: bool, e: Env): Time {
    if atEffectiveDate then t.validTime else e.now
  }

  function ApplyRevert(l: Ledger, s: State, txId: Id, force: bool, atEffectiveDate: bool, e: Env): Result<State, Error> {
    if txId !in s.transactions then Failure(NotFound)
    else if HasRevert(s, txId) then Failure(Error.AlreadyReverted)
    else
      var t := s.transactions[txId];
      var back := Reverse(t.postings);
      var vt := RevertTime(t, atEffectiveDate, e);
      if t.postings == [] then Failure(NoPostings)
      else if !force && !EachAffordable(l, s, back) then Failure(InsufficientFunds)
      else
        var s1 :- AppendEvent(s, e, vt, TransactionReverted(e.txId, back, txId));
        var s2 :- InsertTransaction(s1, Transaction(e.txId, e.eventId, vt, e.now, "", back));
        var s3 :- InsertDeltas(l, s2, Legs(back, e.eventId, vt, e.now));
        var s4 :- InsertRelationship(s3, Relationship(txId, e.txId, e.eventId, e.now));
        Success(RecordKey(s4, e))
  }

  function Apply(l: Ledger, s: State, op: Op, e: Env): Result<State, Error> {
    match op
    case Post(ps, reference, dryRun) => ApplyPost(l, s, ps, reference, dryRun, e)
    case Convert(c) => ApplyConvert(l, s, c, e)
    case Authorize(source, hint, asset, amount, expiresAt) => ApplyAuthorize(l, s, source, hint, asset, amount, expiresAt, e)
    case Capture(holdId, amount, destination) => ApplyCapture(l, s, holdId, amount, destination, e)
    case Void(holdId) => ApplyVoid(s, holdId, e)
    case Expire(listed) => ApplyExpire(s, listed, e)
    case Revert(txId, force, atEffectiveDate) => ApplyRevert(l, s, txId, force, atEffectiveDate, e)
  }

  /** One transaction: commit, or roll back to where it began. */
  function Step(l: Ledger, s: State, c: Call): State {
    var r := Apply(l, s, c.op, c.env);
    if r.Success? then r.value else s
  }

  /** A serial history from the empty ledger. */
  function Run(l: Ledger, calls: seq<Call>): State {
    if calls == [] then EMPTY else Step(l, Run(l, calls[..|calls| - 1]), calls[|calls| - 1])
  }
}
