/**
 * Concrete histories: each side condition of the solvency and replay theorems is needed.
 */
module Counterexamples {
  import opened Wrappers
  import opened LedgerState
  import opened Transitions
  import opened Effects
  import opened Histories
  import opened Admission
  import opened Replay
  import opened Balances

  const WORLD: Account := "_world"
  const ALICE: Account := "alice"
  const USD: Asset := "USD"
  const EUR: Asset := "EUR"

  /** A ledger that accepts every address and asset; its one issuer is `_world`. */
  function Permissive(keyed: bool): Ledger {
    Ledger([WORLD], false, keyed, (a: Account) => true, (a: Asset) => true, (ps: seq<Posting>) => true)
  }

  function Stamp(id: Id, now: Time): Env { Env(id, id, id, id, now, now, "", None) }

  lemma {:induction false} AliceIsNoIssuer(keyed: bool)
    ensures !IsIssuer(Permissive(keyed), ALICE)
  {
    assert ALICE[0] != WORLD[0];
  }

  // ----- when operations go through -----

  lemma {:induction false} ConvertCommits(l: Ledger, s: State, c: ConvertParams, e: Env)
    requires ValidConversion(l, c) && IsIssuer(l, c.source)
    requires !Collides(s.log, AppendedEvent(s, Convert(c), e)) && e.txId !in s.transactions
    requires Insertable(l, s, ConversionRows(c, e), e.eventId)
    ensures Commits(l, s, Call(Convert(c), e))
  {
    CommitsIff(l, s, Call(Convert(c), e));
    ConversionRowsAreLegs(c, e);
    Inserts(l, s, ConversionRows(c, e), e.eventId);
  }

  lemma {:induction false} PostCommits(l: Ledger, s: State, ps: seq<Posting>, e: Env)
    requires ValidPostings(l, ps) && l.schemaAccepts(ps) && FundsCover(l, s, ps)
    requires !Collides(s.log, AppendedEvent(s, Post(ps, "", false), e)) && e.txId !in s.transactions
    requires Insertable(l, s, Legs(ps, e.eventId, e.validTime, e.now), e.eventId)
    ensures Commits(l, s, Call(Post(ps, "", false), e))
  {
    CommitsIff(l, s, Call(Post(ps, "", false), e));
    Inserts(l, s, Legs(ps, e.eventId, e.validTime, e.now), e.eventId);
  }

  lemma {:induction false} RevertCommits(l: Ledger, s: State, c: Call)
    requires c.op.Revert? && c.op.txId in s.transactions && s.transactions[c.op.txId].postings != []
    requires !HasRevert(s, c.op.txId) && (c.op.force || EachAffordable(l, s, Moves(s, c.op)))
    requires !Collides(s.log, AppendedEvent(s, c.op, c.env)) && c.env.txId !in s.transactions
    requires Insertable(l, s, AppendedRows(s, c.op, c.env), c.env.eventId)
    ensures Commits(l, s, c)
  {
    CommitsIff(l, s, c);
    Inserts(l, s, AppendedRows(s, c.op, c.env), c.env.eventId);
  }

  // ----- a conversion into an account that is no issuer -----

  /** A conversion debits its destination without a check: from nothing to -5. */
  lemma {:induction false} ConversionOverdraws(keyed: bool) returns (call: Call)
    ensures call.op.Convert? && !Solvent(Permissive(keyed), Run(Permissive(keyed), [call]))
  {
    var l := Permissive(keyed);
    var c := ConvertParams(WORLD, ALICE, 10, USD, 5, EUR, true, "", 0);
    call := Call(Convert(c), Stamp("1", 1));
    assert [call][..0] == [];
    ConvertCommits(l, EMPTY, c, call.env);
    assert !Covered(l, EMPTY, call.op);
    StepSolvent(l, EMPTY, call);
  }

  /** Without the primary key, a conversion with slippage commits and its log does not replay. */
  lemma {:induction false} SlippageIsLost() returns (call: Call)
    ensures call.op.Convert?
    ensures ReplayLog(Run(Permissive(false), [call]).log).deltas != Run(Permissive(false), [call]).deltas
  {
    var l := Permissive(false);
    var c := ConvertParams(WORLD, ALICE, 10, USD, 5, EUR, true, ALICE, 1);
    call := Call(Convert(c), Stamp("1", 1));
    assert [call][..0] == [];
    ConvertCommits(l, EMPTY, c, call.env);
    assert Slippages(l, [call]) == 1;
    ReplayExactRows(l, [call]);
  }

  // ----- reverts -----

  /** Funding `alice` by postings, then reserving `held`, as any spending in between would. */
  function Funding(ps: seq<Posting>): Call { Call(Post(ps, "", false), Stamp("1", 1)) }

  function SpendingAs(id: Id, held: int): Call { Call(Authorize(ALICE, "", USD, held, 9), Stamp(id, 2)) }

  function Spending(held: int): Call { SpendingAs("2", held) }

  function RevertingAs(id: Id, force: bool): Call { Call(Revert("1", force, false), Stamp(id, 3)) }

  function Reverting(force: bool): Call { RevertingAs("3", force) }

  function Story(ps: seq<Posting>, held: int, force: bool): seq<Call> { [Funding(ps), Spending(held), Reverting(force)] }

  function Funded(ps: seq<Posting>): State { Committed(EMPTY, Funding(ps).op, Funding(ps).env) }

  function Spent(ps: seq<Posting>, held: int): State { Committed(Funded(ps), Spending(held).op, Spending(held).env) }

  /** One or two equal postings from `_world` to `alice`; two only without the primary key. */
  function Gifts(keyed: bool, amount: int): seq<Posting> {
    var p := Posting(WORLD, ALICE, amount, USD);
    if keyed then [p] else [p, p]
  }

  function GiftTotal(keyed: bool, amount: int): int { if keyed then amount else 2 * amount }

  lemma {:induction false} GiftTotals(keyed: bool, amount: int)
    ensures TotalIn(Gifts(keyed, amount), Bucket(ALICE, USD)) == GiftTotal(keyed, amount)
    ensures TotalOut(Gifts(keyed, amount), Bucket(ALICE, USD)) == 0
    ensures Debited(Gifts(keyed, amount)) == {Bucket(WORLD, USD)}
  {
    var p := Posting(WORLD, ALICE, amount, USD);
    TwoTotals(p, p, Bucket(ALICE, USD));
    assert [p][..0] == [] && p in Gifts(keyed, amount);
  }

  lemma {:induction false} GiftRows(keyed: bool, ps: seq<Posting>, e: Env)
    requires keyed ==> |ps| == 1 && ps[0].source != ps[0].destination
    ensures keyed ==> DistinctBuckets(Legs(ps, e.eventId, e.validTime, e.now))
    ensures forall d :: d in Legs(ps, e.eventId, e.validTime, e.now) ==> d.eventId == e.eventId
  {
    LegsShareEvent(ps, e.eventId, e.validTime, e.now);
    if keyed {
      assert ps[..0] == [];
      assert Legs(ps, e.eventId, e.validTime, e.now) == [] + LegsOf(ps[0], e.eventId, e.validTime, e.now);
    }
  }

  lemma {:induction false} FundingStep(keyed: bool, amount: int)
    requires amount > 0
    ensures var l, ps := Permissive(keyed), Gifts(keyed, amount);
            Step(l, EMPTY, Funding(ps)) == Funded(ps)
            && Available(Funded(ps), Bucket(ALICE, USD)) == GiftTotal(keyed, amount)
  {
    var l, ps := Permissive(keyed), Gifts(keyed, amount);
    var c := Funding(ps);
    GiftTotals(keyed, amount);
    GiftRows(keyed, ps, c.env);
    PostCommits(l, EMPTY, ps, c.env);
    StepShape(l, EMPTY, c);
    AvailableAfter(EMPTY, c.op, c.env, Bucket(ALICE, USD));
  }

  lemma {:induction false} SpendingStep(keyed: bool, amount: int, held: int)
    requires amount > 0 && 0 < held <= GiftTotal(keyed, amount)
    ensures var l, ps := Permissive(keyed), Gifts(keyed, amount);
            Step(l, Funded(ps), Spending(held)) == Spent(ps, held)
            && Available(Spent(ps, held), Bucket(ALICE, USD)) == GiftTotal(keyed, amount) - held
  {
    var l, ps := Permissive(keyed), Gifts(keyed, amount);
    FundingStep(keyed, amount);
    FundedTables(ps);
    SpendingCommits(l, Funded(ps), "2", held);
    StepShape(l, Funded(ps), Spending(held));
    SpendingReserves(Funded(ps), held);
  }

  lemma {:induction false} SpendingCommits(l: Ledger, s: State, id: Id, held: int)
    requires |s.log| == 1 && s.log[0].eventId != id && s.log[0].seqNo == 1 && NextSeq(s.log) == 2 && s.holds == []
    requires 0 < held <= Available(s, Bucket(ALICE, USD))
    ensures Commits(l, s, SpendingAs(id, held))
  {
    assert !Collides(s.log, AppendedEvent(s, SpendingAs(id, held).op, SpendingAs(id, held).env));
  }

  lemma {:induction false} SpendingReserves(s: State, held: int)
    requires s.holds == [] && held > 0
    ensures Available(Committed(s, Spending(held).op, Spending(held).env), Bucket(ALICE, USD))
            == Available(s, Bucket(ALICE, USD)) - held
  {
    var op, e := Spending(held).op, Spending(held).env;
    AvailableAfter(s, op, e, Bucket(ALICE, USD));
    HoldsReserve(s, op, e, Bucket(ALICE, USD));
  }

  /** What the last step needs to know about the state before it. */
  ghost predicate AfterSpending(keyed: bool, amount: int, held: int, s: State) {
    var ps := Gifts(keyed, amount);
    && |s.log| == 2 && NextSeq(s.log) == 3
    && s.log[0].eventId == "1" && s.log[1].eventId == "2" && s.log[0].seqNo == 1 && s.log[1].seqNo == 2
    && s.deltas == Legs(ps, "1", 1, 1) && s.relationships == []
    && s.transactions == map["1" := Transaction("1", "1", 1, 1, "", ps)]
    && Available(s, Bucket(ALICE, USD)) == GiftTotal(keyed, amount) - held
  }

  lemma {:induction false} FundedTables(ps: seq<Posting>)
    ensures var s := Funded(ps);
            && |s.log| == 1 && s.log[0].eventId == "1" && s.log[0].seqNo == 1 && NextSeq(s.log) == 2
            && s.deltas == Legs(ps, "1", 1, 1) && s.relationships == []
            && s.transactions == map["1" := Transaction("1", "1", 1, 1, "", ps)] && s.holds == []
  {
    assert EMPTY.deltas + Legs(ps, "1", 1, 1) == Legs(ps, "1", 1, 1);
    NumberedMax(Funded(ps).log);
  }

  lemma {:induction false} SpentLog(ps: seq<Posting>, held: int)
    ensures var s := Spent(ps, held);
            && |s.log| == 2 && NextSeq(s.log) == 3
            && s.log[0].eventId == "1" && s.log[1].eventId == "2" && s.log[0].seqNo == 1 && s.log[1].seqNo == 2
            && s.deltas == Legs(ps, "1", 1, 1) && s.relationships == []
            && s.transactions == map["1" := Transaction("1", "1", 1, 1, "", ps)]
  {
    FundedTables(ps);
    NumberedMax(Spent(ps, held).log);
    assert Legs([], "2", 2, 2) == [] && Funded(ps).deltas + [] == Funded(ps).deltas;
  }

  lemma {:induction false} SpentTables(keyed: bool, amount: int, held: int)
    requires amount > 0 && 0 < held <= GiftTotal(keyed, amount)
    ensures AfterSpending(keyed, amount, held, Spent(Gifts(keyed, amount), held))
  {
    SpendingStep(keyed, amount, held);
    SpentLog(Gifts(keyed, amount), held);
  }

  lemma {:induction false} GiftsAffordable(keyed: bool, amount: int, s: State)
    requires amount <= Available(s, Bucket(ALICE, USD))
    ensures EachAffordable(Permissive(keyed), s, Reverse(Gifts(keyed, amount)))
  {
    var back := Reverse(Gifts(keyed, amount));
    assert forall i :: 0 <= i < |back| ==> Bucket(back[i].source, back[i].asset) == Bucket(ALICE, USD) && back[i].amount == amount;
  }

  lemma {:induction false} RevertingCommits(keyed: bool, amount: int, held: int, s: State, c: Call)
    requires amount > 0 && AfterSpending(keyed, amount, held, s)
    requires IsReverting(c) && (c.op.force || amount <= GiftTotal(keyed, amount) - held)
    ensures Commits(Permissive(keyed), s, c)
  {
    var ps := Gifts(keyed, amount);
    GiftRows(keyed, ps, Stamp("1", 1));
    GiftRows(keyed, Reverse(ps), c.env.(validTime := c.env.now));
    MovesOfOnly(s, Transaction("1", "1", 1, 1, "", ps), c);
    if amount <= GiftTotal(keyed, amount) - held {
      GiftsAffordable(keyed, amount, s);
    }
    RevertOfOnly(Permissive(keyed), s, Transaction("1", "1", 1, 1, "", ps), "2", c);
  }

  lemma {:induction false} MovesOfOnly(s: State, t: Transaction, c: Call)
    requires s.transactions == map[t.id := t] && c.op.Revert? && c.op.txId == t.id
    ensures Moves(s, c.op) == Reverse(t.postings)
  {
  }

  lemma {:induction false} RevertingUncovered(keyed: bool, amount: int, held: int, s: State, c: Call)
    requires held > 0 && AfterSpending(keyed, amount, held, s) && IsReverting(c)
    ensures !Covered(Permissive(keyed), s, c.op)
  {
    ReversedGifts(keyed, amount);
    MovesOfOnly(s, Transaction("1", "1", 1, 1, "", Gifts(keyed, amount)), c);
    var l, back, b := Permissive(keyed), Reverse(Gifts(keyed, amount)), Bucket(ALICE, USD);
    AliceIsNoIssuer(keyed);
    assert Available(s, b) + TotalIn(back, b) - TotalOut(back, b) < 0;
    Uncovers(l, s, c.op, back, b);
  }

  lemma {:induction false} Uncovers(l: Ledger, s: State, op: Op, ps: seq<Posting>, b: Bucket)
    requires op.Revert? && Moves(s, op) == ps && b in Debited(ps) && !IsIssuer(l, b.account)
    requires Available(s, b) + TotalIn(ps, b) - TotalOut(ps, b) < 0
    ensures !Covered(l, s, op)
  {
    assert !FundsCover(l, s, ps);
  }

  ghost predicate IsReverting(c: Call) {
    && c.op.Revert? && c.op.txId == "1" && !c.op.atEffectiveDate && c.env.key == ""
    && c.env.eventId == c.env.txId && c.env.eventId != "1" && c.env.eventId != "2"
  }

  /** A revert of the only transaction of a two-event log commits. */
  lemma {:induction false} RevertOfOnly(l: Ledger, s: State, t: Transaction, second: Id, c: Call)
    requires |s.log| == 2 && NextSeq(s.log) == 3
    requires s.log[0].eventId == t.eventId && s.log[1].eventId == second && s.log[0].seqNo == 1 && s.log[1].seqNo == 2
    requires s.transactions == map[t.id := t] && s.relationships == [] && t.postings != []
    requires forall d :: d in s.deltas ==> d.eventId == t.eventId
    requires c.op.Revert? && c.op.txId == t.id && c.env.key == ""
    requires c.env.eventId != t.eventId && c.env.eventId != second && c.env.txId != t.id
    requires c.op.force || EachAffordable(l, s, Reverse(t.postings))
    requires l.keyedDeltas ==> DistinctBuckets(AppendedRows(s, c.op, c.env))
    ensures Commits(l, s, c)
  {
    var rows := AppendedRows(s, c.op, c.env);
    LegsShareEvent(Moves(s, c.op), c.env.eventId, EventTime(s, c.op, c.env), c.env.now);
    assert forall i :: 0 <= i < |rows| ==> rows[i] in rows;
    assert forall i :: 0 <= i < |s.deltas| ==> s.deltas[i] in s.deltas;
    assert Insertable(l, s, rows, c.env.eventId);
    RevertCommits(l, s, c);
  }

  lemma {:induction false} ReversedGifts(keyed: bool, amount: int)
    ensures var back, b := Reverse(Gifts(keyed, amount)), Bucket(ALICE, USD);
            TotalOut(back, b) == GiftTotal(keyed, amount) && TotalIn(back, b) == 0 && b in Debited(back)
  {
    var p := Posting(ALICE, WORLD, amount, USD);
    var back := Reverse(Gifts(keyed, amount));
    assert back == if keyed then [p] else [p, p];
    TwoTotals(p, p, Bucket(ALICE, USD));
    assert [p][..0] == [] && p in back;
  }

  lemma {:induction false} UncoveredOverdraws(l: Ledger, calls: seq<Call>, n: nat)
    requires n < |calls| && Commits(l, After(l, calls, n), calls[n]) && !Covered(l, After(l, calls, n), calls[n].op)
    ensures !AlwaysSolvent(l, calls)
  {
    SolvencyExact(l, calls);
  }

  lemma {:induction false} StoryBegins(keyed: bool, amount: int, held: int, calls: seq<Call>)
    requires amount > 0 && 0 < held <= GiftTotal(keyed, amount) && |calls| == 3
    requires calls[0] == Funding(Gifts(keyed, amount)) && calls[1] == Spending(held)
    ensures After(Permissive(keyed), calls, 2) == Spent(Gifts(keyed, amount), held)
  {
    FundingStep(keyed, amount);
    SpendingStep(keyed, amount, held);
    assert calls[..0] == [];
    OneMore(Permissive(keyed), calls, 0);
    OneMore(Permissive(keyed), calls, 1);
  }

  lemma {:induction false} StoryOverdraws(keyed: bool, amount: int, held: int, force: bool)
    requires amount > 0 && 0 < held <= GiftTotal(keyed, amount)
    requires force || amount <= GiftTotal(keyed, amount) - held
    ensures var calls := Story(Gifts(keyed, amount), held, force);
            !AlwaysSolvent(Permissive(keyed), calls)
  {
    var ps := Gifts(keyed, amount);
    var calls := Story(ps, held, force);
    StoryBegins(keyed, amount, held, calls);
    SpentTables(keyed, amount, held);
    RevertingCommits(keyed, amount, held, Spent(ps, held), Reverting(force));
    RevertingUncovered(keyed, amount, held, Spent(ps, held), Reverting(force));
    UncoveredOverdraws(Permissive(keyed), calls, 2);
  }

  /** A forced revert of a spent transaction overdraws, primary key or not. */
  lemma {:induction false} ForcedRevertOverdraws(keyed: bool) returns (calls: seq<Call>)
    ensures forall c :: c in calls ==> !c.op.Convert?
    ensures !AlwaysSolvent(Permissive(keyed), calls)
  {
    calls := Story(Gifts(keyed, 10), 10, true);
    StoryOverdraws(keyed, 10, 10, true);
  }

  /** Without the primary key, an unforced revert that debits one bucket twice overdraws. */
  lemma {:induction false} RepeatedRevertOverdraws() returns (calls: seq<Call>)
    ensures forall c :: c in calls ==> Prudent(Permissive(false), c.op)
    ensures !AlwaysSolvent(Permissive(false), calls)
  {
    calls := Story(Gifts(false, 6), 6, false);
    StoryOverdraws(false, 6, 6, false);
  }
}
