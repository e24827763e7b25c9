/**
 * Two operations at once. Checked one after the other's commit, the second is refused where the
 * code refuses it; checked before, both commit. Any two authorizations or reverts that would commit
 * alone show it, and concrete ledgers have them.
 */
module OverlappingPairs {
  import opened Wrappers
  import opened LedgerState
  import opened Transitions
  import opened Effects
  import opened Histories
  import opened Admission
  import opened Balances
  import opened Reverts
  import opened HoldRuns
  import opened HonestRuns
  import opened SerialRuns
  import opened UnlockedChecks
  import opened Counterexamples

  /** Two calls of their own: no shared event ID, no shared key. */
  predicate OwnEvents(c: Call, d: Call) {
    c.env.eventId != d.env.eventId && (d.env.key == "" || d.env.key != c.env.key)
  }

  /** The second call's event is still new after the first one's. */
  lemma {:induction false} StillNew(s: State, c: Call, d: Call)
    requires LogSound(s) && !c.op.Expire? && !d.op.Expire? && OwnEvents(c, d)
    requires !Collides(s.log, AppendedEvent(s, c.op, c.env)) && !Collides(s.log, AppendedEvent(s, d.op, d.env))
    ensures var s1 := Committed(s, c.op, c.env);
      LogSound(s1) && !Collides(s1.log, AppendedEvent(s1, d.op, d.env))
  {
    CommittedKeepsLog(s, c.op, c.env);
    var s1 := Committed(s, c.op, c.env);
    NumberedMax(s.log);
    NumberedMax(s1.log);
    assert forall i :: 0 <= i < |s.log| ==> s1.log[i] == s.log[i];
  }

  lemma {:induction false} MayCommitWrites(l: Ledger, s: State, c: Call)
    requires !HoldOp(c.op) && MayCommit(l, s, c)
    ensures CallOk(l, s, c, None) && WritesOf(l, s, c, None, AppendedEvent(s, c.op, c.env)).Some?
  {
    SeenIsCurrent(l, s, c, None);
  }

  /** A checked operation that may commit goes through as the serial one. */
  lemma {:induction false} GoesThrough(l: Ledger, w: World, p: nat, c: Call)
    requires w.ledgerLock.None? && w.TxOf(p) == Tx([], [], Checked(c, None)) && !HoldOp(c.op) && MayCommit(l, w.db, c)
    ensures var w' := Played(l, true, w, p);
      w'.db == Committed(w.db, c.op, c.env) && w'.ledgerLock.None? && forall q :: q != p ==> w'.TxOf(q) == w.TxOf(q)
  {
    MayCommitWrites(l, w.db, c);
    SeenIsCurrent(l, w.db, c, None);
    WriteIsSerial(l, w.db, c, None, AppendedEvent(w.db, c.op, c.env));
    PlayedCommits(l, true, w, p, c, None, WritesOf(l, w.db, c, None, AppendedEvent(w.db, c.op, c.env)).value);
  }

  lemma {:induction false} BothCheck(l: Ledger, s: State, c: Call, d: Call)
    requires !HoldOp(c.op) && !HoldOp(d.op) && Admissible(l, s, c.op) && Admissible(l, s, d.op)
    requires Accepts(l, s, c.op) && Accepts(l, s, d.op)
    ensures HonestRun(l, s, Race(c, d))
    ensures var w := RunFrom(l, true, s, Race(c, d));
      && w.db == s && w.ledgerLock.None?
      && w.TxOf(0) == Tx([], [], Checked(c, None)) && w.TxOf(1) == Tx([], [], Checked(d, None))
  {
    HonestMore(l, s, [], Check(0, c, true));
    HonestMore(l, s, [] + [Check(0, c, true)], Check(1, d, true));
    RunStep(l, true, s, [], Check(0, c, true));
    RunStep(l, true, s, [] + [Check(0, c, true)], Check(1, d, true));
    var w1 := RunFrom(l, true, s, [] + [Check(0, c, true)]);
    assert w1.db == s && w1.TxOf(0) == Tx([], [], Checked(c, None)) && w1.TxOf(1) == Tx([], [], Ready);
  }

  /** Both check, then the first commits, then the second. */
  function BothChecksFirst(c: Call, d: Call): seq<Event> { Race(c, d) + Finishing(0) + Finishing(1) }

  /** Accepted on the same tables, both commit if the second may still do so after the first. */
  lemma {:induction false} BothCommit(l: Ledger, s: State, c: Call, d: Call)
    requires !HoldOp(c.op) && !HoldOp(d.op) && Accepts(l, s, c.op) && Accepts(l, s, d.op)
    requires MayCommit(l, s, c) && Admissible(l, s, d.op) && MayCommit(l, Committed(s, c.op, c.env), d)
    ensures HonestRun(l, s, BothChecksFirst(c, d))
    ensures RunFrom(l, true, s, BothChecksFirst(c, d)).db == Committed(Committed(s, c.op, c.env), d.op, d.env)
  {
    BothCheck(l, s, c, d);
    var w := RunFrom(l, true, s, Race(c, d));
    GoesThrough(l, w, 0, c);
    PlayedRun(l, true, s, Race(c, d), 0);
    FinishingIsHonest(l, s, Race(c, d), 0);
    GoesThrough(l, Played(l, true, w, 0), 1, d);
    PlayedRun(l, true, s, Race(c, d) + Finishing(0), 1);
    FinishingIsHonest(l, s, Race(c, d) + Finishing(0), 1);
  }

  /** The first commits before the second checks. */
  function OneAfterTheOther(c: Call, d: Call, accepts: bool): seq<Event> {
    [] + [Check(0, c, true)] + Finishing(0) + [Check(1, d, accepts)]
  }

  /** Then the second is accepted exactly when the code accepts it after the first; if not, it is out. */
  lemma {:induction false} LateCheck(l: Ledger, s: State, c: Call, d: Call, accepts: bool)
    requires !HoldOp(c.op) && !HoldOp(d.op) && Accepts(l, s, c.op) && MayCommit(l, s, c)
    ensures HonestRun(l, s, OneAfterTheOther(c, d, accepts)) <==> accepts == Accepts(l, Committed(s, c.op, c.env), d.op)
    ensures RunFrom(l, true, s, OneAfterTheOther(c, d, accepts)).db == Committed(s, c.op, c.env)
    ensures !accepts ==> 1 !in RunFrom(l, true, s, OneAfterTheOther(c, d, accepts)).open
  {
    var first := [] + [Check(0, c, true)];
    HonestMore(l, s, [], Check(0, c, true));
    RunStep(l, true, s, [], Check(0, c, true));
    var w := RunFrom(l, true, s, first);
    assert w.TxOf(0) == Tx([], [], Checked(c, None)) && w.TxOf(1) == Tx([], [], Ready) && w.db == s;
    GoesThrough(l, w, 0, c);
    PlayedRun(l, true, s, first, 0);
    FinishingIsHonest(l, s, first, 0);
    HonestMore(l, s, first + Finishing(0), Check(1, d, accepts));
    RunStep(l, true, s, first + Finishing(0), Check(1, d, accepts));
    var w1 := RunFrom(l, true, s, first + Finishing(0));
    assert w1.View(1) == w1.db;
  }

  // ----- authorizations -----

  lemma {:induction false} NewHoldAfter(holds: seq<Hold>, h: Hold, id: Id)
    requires FindHold(holds, id) == |holds| && h.id != id
    ensures FindHold(holds + [h], id) == |holds| + 1
  {
    assert forall i :: 0 <= i < |holds| ==> (holds + [h])[i] == holds[i];
  }

  lemma {:induction false} AuthorizeReserves(s: State, c: Call, b: Bucket)
    requires c.op.Authorize? && HoldGuard(s, c.op, c.env) && b == Bucket(c.op.source, c.op.asset)
    ensures Available(Committed(s, c.op, c.env), b) == Available(s, b) - c.op.amount
  {
    AvailableAfter(s, c.op, c.env, b);
    HoldsReserve(s, c.op, c.env, b);
  }

  lemma {:induction false} AuthorizeMayFollow(l: Ledger, s: State, c: Call, d: Call)
    requires LogSound(s) && MayCommit(l, s, c) && MayCommit(l, s, d) && c.op.Authorize? && d.op.Authorize?
    requires OwnEvents(c, d) && c.env.holdId != d.env.holdId
    ensures MayCommit(l, Committed(s, c.op, c.env), d)
  {
    StillNew(s, c, d);
    NewHoldAfter(s.holds, NewHold(c.op.source, c.op.destinationHint, c.op.asset, c.op.amount, c.op.expiresAt, c.env), d.env.holdId);
    assert AppendedRows(Committed(s, c.op, c.env), d.op, d.env) == [];
  }

  /**
   * Any two authorizations of one bucket that would each commit alone: when both check first both
   * commit, and overdraw the bucket exactly when the balance does not cover them together. When the
   * second checks after the first has committed, it is accepted exactly when the balance does.
   */
  lemma {:induction false} AuthorizedTogether(l: Ledger, s: State, c: Call, d: Call, accepts: bool)
    requires LogSound(s) && Commits(l, s, c) && Commits(l, s, d) && c.op.Authorize? && d.op.Authorize?
    requires OwnEvents(c, d) && c.env.holdId != d.env.holdId
    requires c.op.source == d.op.source && c.op.asset == d.op.asset && !IsIssuer(l, c.op.source)
    ensures HonestRun(l, s, BothChecksFirst(c, d))
    ensures var b, w := Bucket(c.op.source, c.op.asset), RunFrom(l, true, s, BothChecksFirst(c, d));
      Available(w.db, b) == Available(s, b) - c.op.amount - d.op.amount
    ensures HonestRun(l, s, OneAfterTheOther(c, d, accepts)) <==>
      accepts == (Available(s, Bucket(c.op.source, c.op.asset)) >= c.op.amount + d.op.amount)
  {
    var b := Bucket(c.op.source, c.op.asset);
    CommitsIff(l, s, c);
    CommitsIff(l, s, d);
    AuthorizeMayFollow(l, s, c, d);
    BothCommit(l, s, c, d);
    LateCheck(l, s, c, d, accepts);
    AuthorizeReserves(s, c, b);
    AuthorizeReserves(Committed(s, c.op, c.env), d, b);
  }

  // ----- reverts -----

  /** A revert goes by the transaction it reverts and nothing else. */
  lemma {:induction false} SameRows(s: State, s1: State, d: Call)
    requires d.op.Revert? && d.op.txId in s.transactions && d.op.txId in s1.transactions
    requires s1.transactions[d.op.txId] == s.transactions[d.op.txId]
    ensures AppendedRows(s1, d.op, d.env) == AppendedRows(s, d.op, d.env)
  {
  }

  /** The rows of a new event are accepted after another event's, if they were before. */
  lemma {:induction false} RowsStillAccepted(l: Ledger, s: State, s1: State, rows: seq<VolumeDelta>, eventId: Id)
    requires InsertDeltas(l, s, rows).Success? && forall d :: d in rows ==> d.eventId == eventId
    requires forall i :: 0 <= i < |s1.deltas| ==> s1.deltas[i].eventId != eventId
    ensures InsertDeltas(l, s1, rows).Success?
  {
    if l.keyedDeltas {
      KeyedRowsDistinct(l, s, rows, eventId);
    }
    assert forall i :: 0 <= i < |rows| ==> rows[i] in rows;
    Inserts(l, s1, rows, eventId);
  }

  lemma {:induction false} RevertRowsFollow(l: Ledger, s: State, s1: State, d: Call)
    requires d.op.Revert? && d.op.txId in s.transactions && d.op.txId in s1.transactions
    requires s1.transactions[d.op.txId] == s.transactions[d.op.txId]
    requires InsertDeltas(l, s, AppendedRows(s, d.op, d.env)).Success?
    requires LogSound(s1) && !Collides(s1.log, AppendedEvent(s1, d.op, d.env))
    ensures InsertDeltas(l, s1, AppendedRows(s1, d.op, d.env)).Success?
  {
    SameRows(s, s1, d);
    LegsShareEvent(Moves(s, d.op), d.env.eventId, EventTime(s, d.op, d.env), d.env.now);
    NewEventId(s1, AppendedEvent(s1, d.op, d.env));
    RowsStillAccepted(l, s, s1, AppendedRows(s, d.op, d.env), d.env.eventId);
  }

  lemma {:induction false} RelationshipFollows(s: State, s1: State, r: Relationship, q: Relationship)
    requires s1.relationships == s.relationships + [r] && r.child != q.child && !HasRevert(s, q.parent)
    ensures InsertRelationship(s1, q).Success?
  {
  }

  lemma {:induction false} RevertMayFollow(l: Ledger, s: State, c: Call, d: Call)
    requires LogSound(s) && MayCommit(l, s, c) && MayCommit(l, s, d) && c.op.Revert? && d.op.Revert?
    requires OwnEvents(c, d) && c.env.txId != d.env.txId && !HasRevert(s, d.op.txId)
    ensures MayCommit(l, Committed(s, c.op, c.env), d)
  {
    var s1 := Committed(s, c.op, c.env);
    StillNew(s, c, d);
    RevertRowsFollow(l, s, s1, d);
    RelationshipFollows(s, s1, Relationship(c.op.txId, c.env.txId, c.env.eventId, c.env.now),
                        Relationship(d.op.txId, d.env.txId, d.env.eventId, d.env.now));
  }

  /**
   * Any two reverts of one transaction that would each commit alone: when both check first both
   * commit, and when the second checks after the first has committed, it is refused.
   */
  lemma {:induction false} RevertedTwice(l: Ledger, s: State, c: Call, d: Call, accepts: bool)
    requires LogSound(s) && Commits(l, s, c) && Commits(l, s, d) && c.op.Revert? && d.op.Revert? && c.op.txId == d.op.txId
    requires OwnEvents(c, d) && c.env.txId != d.env.txId
    ensures HonestRun(l, s, BothChecksFirst(c, d)) && !OneRevertEach(RunFrom(l, true, s, BothChecksFirst(c, d)).db)
    ensures HonestRun(l, s, OneAfterTheOther(c, d, accepts)) <==> !accepts
  {
    var s1 := Committed(s, c.op, c.env);
    CommitsIff(l, s, c);
    CommitsIff(l, s, d);
    RevertMayFollow(l, s, c, d);
    BothCommit(l, s, c, d);
    LateCheck(l, s, c, d, accepts);
    RevertStepIff(s, c.op, c.env, d.op.txId);
    if OneRevertEach(s1) {
      OneRevertStepIff(s1, d.op, d.env);
    } else {
      TwiceStays(s1, d.op, d.env);
    }
  }

  // ----- concretely -----

  lemma {:induction false} FundedIsRun(keyed: bool)
    ensures var l, s := Permissive(keyed), Funded(Gifts(keyed, 1));
      s == Run(l, [Funding(Gifts(keyed, 1))]) && LogSound(s) && Solvent(l, s)
  {
    var l, calls := Permissive(keyed), [Funding(Gifts(keyed, 1))];
    FundingStep(keyed, 1);
    assert calls[..0] == [];
    GaplessLog(l, calls);
    PrudentSolvency(l, calls);
    assert calls[..1] == calls && Solvent(l, After(l, calls, 1));
  }

  /** Solvency: after one gift, two reservations of all of it, both checked before either commits. */
  lemma {:induction false} OverdrawnTogether(keyed: bool) returns (s: State, es: seq<Event>)
    ensures s == Run(Permissive(keyed), [Funding(Gifts(keyed, 1))]) && Solvent(Permissive(keyed), s)
    ensures HonestRun(Permissive(keyed), s, es) && !Solvent(Permissive(keyed), RunFrom(Permissive(keyed), true, s, es).db)
  {
    var l, n, b := Permissive(keyed), GiftTotal(keyed, 1), Bucket(ALICE, USD);
    var c, d := SpendingAs("2", n), SpendingAs("3", n);
    s, es := Funded(Gifts(keyed, 1)), BothChecksFirst(c, d);
    FundedIsRun(keyed);
    FundingStep(keyed, 1);
    FundedTables(Gifts(keyed, 1));
    AliceIsNoIssuer(keyed);
    assert "3"[0] != "1"[0] && "2"[0] != "1"[0] && "2"[0] != "3"[0];
    SpendingCommits(l, s, "2", n);
    SpendingCommits(l, s, "3", n);
    AuthorizedTogether(l, s, c, d, false);
    assert Available(RunFrom(l, true, s, es).db, b) < 0;
  }

  lemma {:induction false} BothRevertsCommit(keyed: bool, s: State, c: Call, d: Call)
    requires s == Spent(Gifts(keyed, 1), 1) && c == RevertingAs("3", true) && d == RevertingAs("4", true)
    ensures Commits(Permissive(keyed), s, c) && Commits(Permissive(keyed), s, d)
    ensures OwnEvents(c, d) && c.env.txId != d.env.txId
  {
    SpentTables(keyed, 1, 1);
    assert "3"[0] != "1"[0] && "3"[0] != "2"[0] && "4"[0] != "1"[0] && "4"[0] != "2"[0] && "3"[0] != "4"[0];
    RevertingCommits(keyed, 1, 1, s, c);
    RevertingCommits(keyed, 1, 1, s, d);
  }

  /** At most one revert: two of one gift, both checked before either commits. */
  lemma {:induction false} TwiceTogether(keyed: bool) returns (s: State, es: seq<Event>)
    ensures s == Run(Permissive(keyed), [Funding(Gifts(keyed, 1)), Spending(1)]) && OneRevertEach(s)
    ensures HonestRun(Permissive(keyed), s, es) && !OneRevertEach(RunFrom(Permissive(keyed), true, s, es).db)
  {
    var l, calls := Permissive(keyed), [Funding(Gifts(keyed, 1)), Spending(1)];
    var c, d := RevertingAs("3", true), RevertingAs("4", true);
    s, es := Spent(Gifts(keyed, 1), 1), BothChecksFirst(c, d);
    SpentIsRun(keyed);
    BothRevertsCommit(keyed, s, c, d);
    RevertedTwice(l, s, c, d, false);
  }

  lemma {:induction false} SpentIsRun(keyed: bool)
    ensures var l, s := Permissive(keyed), Spent(Gifts(keyed, 1), 1);
      s == Run(l, [Funding(Gifts(keyed, 1)), Spending(1)]) && LogSound(s) && OneRevertEach(s)
  {
    var l, calls := Permissive(keyed), [Funding(Gifts(keyed, 1)), Spending(1)];
    FundedIsRun(keyed);
    SpendingStep(keyed, 1, 1);
    assert calls[..1] == [Funding(Gifts(keyed, 1))];
    GaplessLog(l, calls);
    TransactionsSound(l, calls);
  }
}
