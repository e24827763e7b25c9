/**
 * Replay: folding the logged payloads from nothing rebuilds the projections. The fold reads
 * only the log. Two things are not in the payloads: the slippage leg of a conversion and the
 * transaction ID of a conversion; the theorems say exactly what is lost with them.
 */
module Replay {
  import opened Wrappers
  import opened LedgerState
  import opened Transitions
  import opened Effects
  import opened Histories
  import opened Admission

  datatype Projection = Projection(
    deltas: seq<VolumeDelta>, holds: seq<Hold>, transactions: map<Id, Transaction>, relationships: seq<Relationship>)

  const NOTHING := Projection([], [], map[], [])

  function AddPostings(p: Projection, ev: LogEvent, ps: seq<Posting>): Projection {
    p.(deltas := p.deltas + Legs(ps, ev.eventId, ev.validTime, ev.systemTime))
  }

  function ChangeHold(holds: seq<Hold>, id: Id, change: Hold -> Hold): seq<Hold> {
    var i := FindHold(holds, id);
    if i < |holds| then holds[i := change(holds[i])] else holds
  }

  /** One event's effect, from its payload and stamps alone; a capture looks up its hold. */
  function ReplayEvent(p: Projection, ev: LogEvent): Projection {
    match ev.payload
    case TransactionPosted(txId, ps, reference) =>
      AddPostings(p, ev, ps).(transactions := p.transactions[
        txId := Transaction(txId, ev.eventId, ev.validTime, ev.systemTime, reference, ps)])
    case ConversionCreated(_, source, destination, sourceAmount, sourceAsset, destAmount, destAsset) =>
      AddPostings(p, ev, [
        Posting(source, destination, sourceAmount, sourceAsset), Posting(destination, source, destAmount, destAsset)])
    case HoldCreated(holdId, source, hint, amount, asset, expiresAt) =>
      p.(holds := p.holds + [
        Hold(holdId, source, hint, asset, amount, 0, false, false, expiresAt, ev.eventId, ev.validTime, ev.systemTime)])
    case HoldConfirmed(holdId, amount, destination) =>
      var i := FindHold(p.holds, holdId);
      if i == |p.holds| then p
      else
        AddPostings(p, ev, [Posting(p.holds[i].source, destination, amount, p.holds[i].asset)])
        .(holds := ChangeHold(p.holds, holdId, (h: Hold) => h.(captured := h.captured + amount)))
    case HoldVoided(holdId) => p.(holds := ChangeHold(p.holds, holdId, (h: Hold) => h.(voided := true)))
    case HoldExpired(holdId, _, _) => p.(holds := ChangeHold(p.holds, holdId, (h: Hold) => h.(expired := true)))
    case TransactionReverted(txId, ps, reverts) =>
      AddPostings(p, ev, ps).(
        transactions := p.transactions[txId := Transaction(txId, ev.eventId, ev.validTime, ev.systemTime, "", ps)],
        relationships := p.relationships + [Relationship(reverts, txId, ev.eventId, ev.systemTime)])
  }

  function ReplayLog(log: seq<LogEvent>): Projection {
    if log == [] then NOTHING else ReplayEvent(ReplayLog(log[..|log| - 1]), log[|log| - 1])
  }

  // ----- what a history loses in the log -----

  predicate Slips(op: Op) { op.Convert? && op.params.HasSlippage() }

  /** Committed conversions that wrote a slippage leg. */
  function Slippages(l: Ledger, calls: seq<Call>): nat {
    if calls == [] then 0
    else
      var s, c := Run(l, calls[..|calls| - 1]), calls[|calls| - 1];
      Slippages(l, calls[..|calls| - 1]) + if Commits(l, s, c) && Slips(c.op) then 1 else 0
  }

  function Conversions(l: Ledger, calls: seq<Call>): nat {
    if calls == [] then 0
    else
      var s, c := Run(l, calls[..|calls| - 1]), calls[|calls| - 1];
      Conversions(l, calls[..|calls| - 1]) + if Commits(l, s, c) && c.op.Convert? then 1 else 0
  }

  // ----- one step -----

  /** A committed operation's rows, rebuilt from its event, short of a slippage leg. */
  lemma {:induction false} ReplayedRows(s: State, op: Op, e: Env, p: Projection)
    requires p.holds == s.holds
    requires op.Capture? ==> FindHold(s.holds, op.holdId) < |s.holds|
    requires op.Convert? ==> op.params.sourceAmount > 0 && op.params.destAmount > 0
    ensures !Slips(op) ==> ReplayEvent(p, AppendedEvent(s, op, e)).deltas == p.deltas + AppendedRows(s, op, e)
    ensures Slips(op) ==>
              |ReplayEvent(p, AppendedEvent(s, op, e)).deltas| + 2 == |p.deltas| + |AppendedRows(s, op, e)|
  {
    if op.Convert? {
      ConversionRowsAreLegs(op.params, e);
      var plain := op.params.(slippageAmount := 0);
      ConversionRowsAreLegs(plain, e);
      assert ConversionPostings(plain) == ConversionPostings(plain)[..2];
    } else if op.Authorize? || op.Void? || op.Expire? {
      assert p.deltas + [] == p.deltas;
    }
  }

  lemma {:induction false} ReplayedHolds(s: State, op: Op, e: Env, p: Projection)
    requires p.holds == s.holds
    ensures ReplayEvent(p, AppendedEvent(s, op, e)).holds == HoldsAfter(s.holds, op, e)
  {
  }

  lemma {:induction false} ReplayedTransactions(s: State, op: Op, e: Env, p: Projection)
    ensures var p' := ReplayEvent(p, AppendedEvent(s, op, e));
            && p'.transactions == (if op.Post? || op.Revert? then p.transactions[e.txId := StoredTransaction(s, op, e)] else p.transactions)
            && p'.relationships == (if op.Revert? then p.relationships + [Relationship(op.txId, e.txId, e.eventId, e.now)] else p.relationships)
  {
  }

  /** Conversions are the only stored transactions that replay does not see. */
  ghost predicate ReplaysState(s: State, p: Projection, slippages: nat, conversions: nat) {
    && p.holds == s.holds
    && p.relationships == s.relationships
    && |p.deltas| + 2 * slippages == |s.deltas|
    && (slippages == 0 ==> p.deltas == s.deltas)
    && |p.transactions| + conversions == |s.transactions|
    && (forall id :: id in p.transactions ==> id in s.transactions && p.transactions[id] == s.transactions[id])
    && (conversions == 0 ==> p.transactions == s.transactions)
  }

  lemma {:induction false} StepReplays(l: Ledger, s: State, c: Call, p: Projection, slippages: nat, conversions: nat)
    requires MayCommit(l, s, c) && ReplaysState(s, p, slippages, conversions)
    ensures ReplaysState(Committed(s, c.op, c.env), ReplayEvent(p, AppendedEvent(s, c.op, c.env)),
              slippages + (if Slips(c.op) then 1 else 0), conversions + (if c.op.Convert? then 1 else 0))
  {
    ReplayedRows(s, c.op, c.env, p);
    ReplayedHolds(s, c.op, c.env, p);
    ReplayedTransactions(s, c.op, c.env, p);
    JoinReplay(s, Committed(s, c.op, c.env), p, ReplayEvent(p, AppendedEvent(s, c.op, c.env)), c.op, c.env, slippages, conversions);
  }

  lemma {:induction false} JoinReplay(
    s: State, s': State, p: Projection, p': Projection, op: Op, e: Env, slippages: nat, conversions: nat)
    requires ReplaysState(s, p, slippages, conversions)
    requires p'.holds == s'.holds
    requires s'.deltas == s.deltas + AppendedRows(s, op, e)
    requires if Slips(op) then |p'.deltas| + 2 == |p.deltas| + |AppendedRows(s, op, e)|
             else p'.deltas == p.deltas + AppendedRows(s, op, e)
    requires StoresTransaction(op) ==> e.txId !in s.transactions
    requires p'.transactions == if op.Post? || op.Revert? then p.transactions[e.txId := StoredTransaction(s, op, e)] else p.transactions
    requires s'.transactions == if StoresTransaction(op) then s.transactions[e.txId := StoredTransaction(s, op, e)] else s.transactions
    requires p'.relationships == if op.Revert? then p.relationships + [Relationship(op.txId, e.txId, e.eventId, e.now)] else p.relationships
    requires s'.relationships == if op.Revert? then s.relationships + [Relationship(op.txId, e.txId, e.eventId, e.now)] else s.relationships
    ensures ReplaysState(s', p', slippages + (if Slips(op) then 1 else 0), conversions + (if op.Convert? then 1 else 0))
  {
  }

  /**
   * In every serial history, replay rebuilds the holds and relationships exactly, the volume
   * rows short of two per slippage conversion, and the transactions short of the conversions.
   */
  lemma {:induction false} ReplayAccounts(l: Ledger, calls: seq<Call>)
    ensures ReplaysState(Run(l, calls), ReplayLog(Run(l, calls).log), Slippages(l, calls), Conversions(l, calls))
  {
    if calls != [] {
      var before, c := calls[..|calls| - 1], calls[|calls| - 1];
      var s := Run(l, before);
      ReplayAccounts(l, before);
      StepShape(l, s, c);
      CommitsIff(l, s, c);
      if Commits(l, s, c) {
        assert Committed(s, c.op, c.env).log[..|s.log|] == s.log;
        StepReplays(l, s, c, ReplayLog(s.log), Slippages(l, before), Conversions(l, before));
      }
    }
  }

  /** Replay gives the stored volume rows exactly when no committed conversion had slippage. */
  lemma {:induction false} ReplayExactRows(l: Ledger, calls: seq<Call>)
    ensures ReplayLog(Run(l, calls).log).deltas == Run(l, calls).deltas <==> Slippages(l, calls) == 0
  {
    ReplayAccounts(l, calls);
  }

  /** Replay gives the stored transactions exactly when no conversion was committed. */
  lemma {:induction false} ReplayExactTransactions(l: Ledger, calls: seq<Call>)
    ensures ReplayLog(Run(l, calls).log).transactions == Run(l, calls).transactions <==> Conversions(l, calls) == 0
  {
    ReplayAccounts(l, calls);
  }

  // ----- rows under the primary key -----

  /** Under the primary key an operation that may commit touches no bucket twice. */
  lemma {:induction false} KeyedCommitsAreDistinct(l: Ledger, s: State, c: Call)
    requires l.keyedDeltas && MayCommit(l, s, c)
    ensures DistinctBuckets(AppendedRows(s, c.op, c.env))
  {
    LegsShareEvent(Moves(s, c.op), c.env.eventId, EventTime(s, c.op, c.env), c.env.now);
    KeyedRowsDistinct(l, s, AppendedRows(s, c.op, c.env), c.env.eventId);
  }

  /** The source leg of the slippage repeats the source leg of the conversion. */
  lemma {:induction false} SlippageRepeatsABucket(c: ConvertParams, e: Env)
    requires c.HasSlippage() && c.sourceAmount > 0 && c.destAmount > 0
    ensures !DistinctBuckets(Legs(ConversionPostings(c), e.eventId, e.validTime, e.now))
  {
    ConversionRowsAreLegs(c, e);
    var rows := ConversionRows(c, e);
    assert rows[0].Where() == rows[4].Where();
  }

  /** Under the primary key no conversion with slippage commits: it debits one bucket twice. */
  lemma {:induction false} KeyedConversionsDoNotSlip(l: Ledger, s: State, c: Call)
    requires l.keyedDeltas && Slips(c.op)
    ensures !MayCommit(l, s, c) && !Commits(l, s, c)
  {
    CommitsIff(l, s, c);
    if MayCommit(l, s, c) {
      SlippageRepeatsABucket(c.op.params, c.env);
      KeyedCommitsAreDistinct(l, s, c);
    }
  }

  lemma {:induction false} KeyedHistoriesDoNotSlip(l: Ledger, calls: seq<Call>)
    requires l.keyedDeltas
    ensures Slippages(l, calls) == 0
  {
    if calls != [] {
      KeyedHistoriesDoNotSlip(l, calls[..|calls| - 1]);
      if Slips(calls[|calls| - 1].op) {
        KeyedConversionsDoNotSlip(l, Run(l, calls[..|calls| - 1]), calls[|calls| - 1]);
      }
    }
  }

  /** With the migrations' primary key, every history replays to its exact rows and holds. */
  lemma {:induction false} KeyedReplayExact(l: Ledger, calls: seq<Call>)
    requires l.keyedDeltas
    ensures var p := ReplayLog(Run(l, calls).log);
            p.deltas == Run(l, calls).deltas && p.holds == Run(l, calls).holds
            && p.relationships == Run(l, calls).relationships
  {
    KeyedHistoriesDoNotSlip(l, calls);
    ReplayAccounts(l, calls);
  }
}
