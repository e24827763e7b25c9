/**
 * One description of what a committed operation leaves behind: an event, the volume rows of
 * its postings, and at most one changed hold. Every theorem about histories starts here.
 */
module Effects {
  import opened Wrappers
  import opened LedgerState
  import opened Transitions

  /** A dry run, and the expiry of a hold closed since it was listed, commit nothing. */
  predicate WritesEvent(s: State, op: Op) {
    match op
    case Post(_, _, dryRun) => !dryRun
    case Expire(listed) => var i := FindHold(s.holds, listed.id); i < |s.holds| && s.holds[i].Open()
    case _ => true
  }

  /** The postings an operation moves value by. */
  function Moves(s: State, op: Op): seq<Posting> {
    match op
    case Post(ps, _, _) => ps
    case Convert(c) => ConversionPostings(c)
    case Capture(holdId, amount, destination) =>
      var i := FindHold(s.holds, holdId);
      if i == |s.holds| then []
      else [Posting(s.holds[i].source, CaptureDestination(s.holds[i], destination), amount, s.holds[i].asset)]
    case Revert(txId, _, _) => if txId in s.transactions then Reverse(s.transactions[txId].postings) else []
    case _ => []
  }

  function EventTime(s: State, op: Op, e: Env): Time {
    match op
    case Post(_, _, _) => e.validTime
    case Convert(_) => e.validTime
    case Revert(txId, _, atEffectiveDate) =>
      if txId in s.transactions then RevertTime(s.transactions[txId], atEffectiveDate, e) else e.now
    case _ => e.now
  }

  function PayloadOf(s: State, op: Op, e: Env): Payload {
    match op
    case Post(ps, reference, _) => TransactionPosted(e.txId, ps, reference)
    case Convert(c) => ConversionCreated(
      e.conversionId, c.source, c.destination, c.sourceAmount, c.sourceAsset, c.destAmount, c.destAsset)
    case Authorize(source, hint, asset, amount, expiresAt) => HoldCreated(e.holdId, source, hint, amount, asset, expiresAt)
    case Capture(holdId, amount, destination) =>
      var i := FindHold(s.holds, holdId);
      HoldConfirmed(holdId, amount, if i < |s.holds| then CaptureDestination(s.holds[i], destination) else destination)
    case Void(holdId) => Payload.HoldVoided(holdId)
    case Expire(listed) => Payload.HoldExpired(listed.id, listed.source, listed.asset)
    case Revert(txId, _, _) => TransactionReverted(e.txId, Moves(s, op), txId)
  }

  /** The event an operation appends. The expiry sweep never uses an idempotency key. */
  function AppendedEvent(s: State, op: Op, e: Env): LogEvent {
    EventFor(s, if op.Expire? then e.(key := "", hash := None) else e, EventTime(s, op, e), PayloadOf(s, op, e))
  }

  function AppendedRows(s: State, op: Op, e: Env): seq<VolumeDelta> {
    Legs(Moves(s, op), e.eventId, EventTime(s, op, e), e.now)
  }

  function NewHold(source: Account, hint: Account, asset: Asset, amount: int, expiresAt: Time, e: Env): Hold {
    Hold(e.holdId, source, hint, asset, amount, 0, false, false, expiresAt, e.eventId, e.now, e.now)
  }

  function HoldsAfter(holds: seq<Hold>, op: Op, e: Env): seq<Hold> {
    match op
    case Authorize(source, hint, asset, amount, expiresAt) => holds + [NewHold(source, hint, asset, amount, expiresAt, e)]
    case Capture(holdId, amount, _) =>
      var i := FindHold(holds, holdId);
      if i < |holds| then holds[i := holds[i].(captured := holds[i].captured + amount)] else holds
    case Void(holdId) =>
      var i := FindHold(holds, holdId);
      if i < |holds| then holds[i := holds[i].(voided := true)] else holds
    case Expire(listed) =>
      var i := FindHold(holds, listed.id);
      if i < |holds| then holds[i := holds[i].(expired := true)] else holds
    case _ => holds
  }

  predicate StoresTransaction(op: Op) { op.Post? || op.Convert? || op.Revert? }

  function StoredTransaction(s: State, op: Op, e: Env): Transaction {
    Transaction(e.txId, e.eventId, EventTime(s, op, e), e.now, if op.Post? then op.reference else "", Moves(s, op))
  }

  /** The whole new state of an operation that writes an event. */
  function Committed(s: State, op: Op, e: Env): State {
    State(
      s.log + [AppendedEvent(s, op, e)],
      s.deltas + AppendedRows(s, op, e),
      HoldsAfter(s.holds, op, e),
      if StoresTransaction(op) then s.transactions[e.txId := StoredTransaction(s, op, e)] else s.transactions,
      if op.Revert? then s.relationships + [Relationship(op.txId, e.txId, e.eventId, e.now)] else s.relationships,
      if op.Expire? then s.keys else RecordKey(s, e).keys)
  }

  lemma {:induction false} ReverseTwice(ps: seq<Posting>)
    ensures Reverse(Reverse(ps)) == ps
  {
  }

  // ----- inserting rows -----

  ghost predicate DistinctBuckets(rows: seq<VolumeDelta>) {
    forall i, j :: 0 <= i < j < |rows| ==> rows[i].Where() != rows[j].Where()
  }

  lemma {:induction false} InsertedRows(l: Ledger, s: State, rows: seq<VolumeDelta>)
    requires InsertDeltas(l, s, rows).Success?
    ensures InsertDeltas(l, s, rows).value == s.(deltas := s.deltas + rows)
  {
    if rows == [] {
      assert s.deltas + rows == s.deltas;
    } else {
      var n := |rows| - 1;
      InsertedRows(l, s, rows[..n]);
      assert s.deltas + rows[..n] + [rows[n]] == s.deltas + rows;
    }
  }

  lemma {:induction false} LegsShareEvent(ps: seq<Posting>, eventId: Id, validTime: Time, now: Time)
    ensures forall d :: d in Legs(ps, eventId, validTime, now) ==> d.eventId == eventId && d.validTime == validTime && d.systemTime == now
  {
    if ps != [] {
      LegsShareEvent(ps[..|ps| - 1], eventId, validTime, now);
    }
  }

  /** The four or six rows of a conversion are the legs of its stored postings, in order. */
  lemma {:induction false} ConversionRowsAreLegs(c: ConvertParams, e: Env)
    requires c.sourceAmount > 0 && c.destAmount > 0
    ensures ConversionRows(c, e) == Legs(ConversionPostings(c), e.eventId, e.validTime, e.now)
  {
    var first := Posting(c.source, c.destination, c.sourceAmount, c.sourceAsset);
    var second := Posting(c.destination, c.source, c.destAmount, c.destAsset);
    LegsOfTwo(first, second, e);
    if c.HasSlippage() {
      var third := Posting(c.source, c.slippageAccount, c.slippageAmount, c.sourceAsset);
      assert ConversionPostings(c)[..2] == [first, second];
      assert Legs(ConversionPostings(c), e.eventId, e.validTime, e.now)
          == Legs([first, second], e.eventId, e.validTime, e.now) + LegsOf(third, e.eventId, e.validTime, e.now);
    } else {
      assert ConversionPostings(c) == [first, second];
    }
  }

  lemma {:induction false} LegsOfTwo(p: Posting, q: Posting, e: Env)
    ensures Legs([p, q], e.eventId, e.validTime, e.now)
            == LegsOf(p, e.eventId, e.validTime, e.now) + LegsOf(q, e.eventId, e.validTime, e.now)
  {
    assert [p, q][..1] == [p] && [p][..0] == [];
    assert Legs([p], e.eventId, e.validTime, e.now) == [] + LegsOf(p, e.eventId, e.validTime, e.now)
        == LegsOf(p, e.eventId, e.validTime, e.now);
  }

  // ----- when inserts go through -----

  /** New rows of one new event; under the primary key no bucket may occur twice. */
  ghost predicate Insertable(l: Ledger, s: State, rows: seq<VolumeDelta>, eventId: Id) {
    l.keyedDeltas ==>
      && DistinctBuckets(rows)
      && (forall i :: 0 <= i < |rows| ==> rows[i].eventId == eventId)
      && (forall i :: 0 <= i < |s.deltas| ==> s.deltas[i].eventId != eventId)
  }

  lemma {:induction false} Inserts(l: Ledger, s: State, rows: seq<VolumeDelta>, eventId: Id)
    requires Insertable(l, s, rows, eventId)
    ensures InsertDeltas(l, s, rows) == Success(s.(deltas := s.deltas + rows))
  {
    if rows != [] {
      var n := |rows| - 1;
      Inserts(l, s, rows[..n], eventId);
      var before := s.deltas + rows[..n];
      if l.keyedDeltas {
        forall i | 0 <= i < |before|
          ensures before[i].Where() != rows[n].Where() || before[i].eventId != rows[n].eventId
        {
          if i >= |s.deltas| {
            assert before[i] == rows[i - |s.deltas|];
          }
        }
      }
    }
    if InsertDeltas(l, s, rows).Success? {
      InsertedRows(l, s, rows);
    }
  }

  lemma {:induction false} KeyedRowsDistinct(l: Ledger, s: State, rows: seq<VolumeDelta>, eventId: Id)
    requires l.keyedDeltas && InsertDeltas(l, s, rows).Success?
    requires forall d :: d in rows ==> d.eventId == eventId
    ensures DistinctBuckets(rows)
  {
    if rows != [] {
      var n := |rows| - 1;
      InsertedRows(l, s, rows[..n]);
      KeyedRowsDistinct(l, s, rows[..n], eventId);
      var before := s.deltas + rows[..n];
      assert !HasRow(before, rows[n]);
      forall i | 0 <= i < n
        ensures rows[i].Where() != rows[n].Where()
      {
        assert before[|s.deltas| + i] == rows[i];
        assert rows[i] in rows && rows[n] in rows;
      }
    }
  }

  /** Under the primary key the rows of a new event are accepted exactly when no bucket occurs twice. */
  lemma {:induction false} KeyedRowsAcceptedIff(l: Ledger, s: State, rows: seq<VolumeDelta>, eventId: Id)
    requires l.keyedDeltas && forall d :: d in rows ==> d.eventId == eventId
    requires forall i :: 0 <= i < |s.deltas| ==> s.deltas[i].eventId != eventId
    ensures InsertDeltas(l, s, rows).Success? <==> DistinctBuckets(rows)
  {
    if InsertDeltas(l, s, rows).Success? {
      KeyedRowsDistinct(l, s, rows, eventId);
    }
    if DistinctBuckets(rows) {
      assert forall i :: 0 <= i < |rows| ==> rows[i] in rows;
      Inserts(l, s, rows, eventId);
    }
  }

  // ----- the effect of a successful operation -----

  /**
   * A successful operation either commits nothing or commits exactly its event, its rows, its
   * hold change, its transaction and its relationship.
   */
  lemma {:induction false} CommitShape(l: Ledger, s: State, op: Op, e: Env)
    requires Apply(l, s, op, e).Success?
    ensures WritesEvent(s, op) ==>
              && Apply(l, s, op, e).value == Committed(s, op, e)
              && !Collides(s.log, AppendedEvent(s, op, e))
    ensures !WritesEvent(s, op) ==> Apply(l, s, op, e).value == s
  {
    if WritesEvent(s, op) {
      match op
      case Post(ps, reference, _) => PostShape(l, s, op, e);
      case Convert(c) => ConvertShape(l, s, op, e);
      case Revert(txId, _, _) => RevertShape(l, s, op, e);
      case Capture(_, _, _) => CaptureShape(l, s, op, e);
      case _ => assert s.deltas + [] == s.deltas;
    }
  }

  lemma {:induction false} PostShape(l: Ledger, s: State, op: Op, e: Env)
    requires op.Post? && !op.dryRun && Apply(l, s, op, e).Success?
    ensures Apply(l, s, op, e).value == Committed(s, op, e) && !Collides(s.log, AppendedEvent(s, op, e))
  {
    var s1 := AppendEvent(s, e, e.validTime, TransactionPosted(e.txId, op.postings, op.reference)).value;
    var s2 := InsertTransaction(s1, Transaction(e.txId, e.eventId, e.validTime, e.now, op.reference, op.postings)).value;
    InsertedRows(l, s2, Legs(op.postings, e.eventId, e.validTime, e.now));
  }

  lemma {:induction false} ConvertShape(l: Ledger, s: State, op: Op, e: Env)
    requires op.Convert? && Apply(l, s, op, e).Success?
    ensures Apply(l, s, op, e).value == Committed(s, op, e) && !Collides(s.log, AppendedEvent(s, op, e))
  {
    var s1 := AppendEvent(s, e, e.validTime, PayloadOf(s, op, e)).value;
    InsertedRows(l, s1, ConversionRows(op.params, e));
    ConversionRowsAreLegs(op.params, e);
  }

  lemma {:induction false} RevertShape(l: Ledger, s: State, op: Op, e: Env)
    requires op.Revert? && Apply(l, s, op, e).Success?
    ensures Apply(l, s, op, e).value == Committed(s, op, e) && !Collides(s.log, AppendedEvent(s, op, e))
  {
    var t := s.transactions[op.txId];
    var vt := RevertTime(t, op.atEffectiveDate, e);
    var back := Reverse(t.postings);
    var s1 := AppendEvent(s, e, vt, TransactionReverted(e.txId, back, op.txId)).value;
    var s2 := InsertTransaction(s1, Transaction(e.txId, e.eventId, vt, e.now, "", back)).value;
    InsertedRows(l, s2, Legs(back, e.eventId, vt, e.now));
  }

  lemma {:induction false} CaptureShape(l: Ledger, s: State, op: Op, e: Env)
    requires op.Capture? && Apply(l, s, op, e).Success?
    ensures Apply(l, s, op, e).value == Committed(s, op, e) && !Collides(s.log, AppendedEvent(s, op, e))
  {
    var i := FindHold(s.holds, op.holdId);
    var h := s.holds[i];
    var dest := CaptureDestination(h, op.destination);
    var s1 := AppendEvent(s, e, e.now, HoldConfirmed(op.holdId, op.amount, dest)).value;
    var s2 := s1.(holds := s1.holds[i := h.(captured := h.captured + op.amount)]);
    InsertedRows(l, s2, Legs([Posting(h.source, dest, op.amount, h.asset)], e.eventId, e.now, e.now));
  }

  /** Every step of a history either changes nothing or commits one operation's effect. */
  predicate Commits(l: Ledger, s: State, c: Call) { Apply(l, s, c.op, c.env).Success? && WritesEvent(s, c.op) }

  lemma {:induction false} StepShape(l: Ledger, s: State, c: Call)
    ensures Step(l, s, c) == if Commits(l, s, c) then Committed(s, c.op, c.env) else s
    ensures Commits(l, s, c) ==> !Collides(s.log, AppendedEvent(s, c.op, c.env))
  {
    if Apply(l, s, c.op, c.env).Success? {
      CommitShape(l, s, c.op, c.env);
    }
  }
}
