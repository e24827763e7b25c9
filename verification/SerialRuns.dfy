/**
 * Every serial history is a run: its transactions one after another, under all locks, with the
 * verdicts of the code. So the interleavings leave out nothing that the code can do alone.
 */
module SerialRuns {
  import opened Wrappers
  import opened LedgerState
  import opened Transitions
  import opened Effects
  import opened Histories
  import opened Admission
  import opened HoldRuns
  import opened HonestRuns

  /** No transaction is open and nothing is locked. */
  function Resting(s: State, committed: seq<Call>): World { World(s, map[], None, map[], committed) }

  /** The row a hold operation reads. */
  function ReadRow(s: State, op: Op): Option<Hold> {
    if HoldOp(op) && FindHold(s.holds, HoldIdOf(op)) < |s.holds| then Some(s.holds[FindHold(s.holds, HoldIdOf(op))]) else None
  }

  /** An accepted check that locked what it read. */
  function CheckedWorld(s: State, committed: seq<Call>, c: Call): World {
    World(s, if HoldOp(c.op) then map[HoldIdOf(c.op) := 0] else map[], None, map[0 := Tx([], [], Checked(c, ReadRow(s, c.op)))], committed)
  }

  lemma {:induction false} ChecksAlone(l: Ledger, s: State, committed: seq<Call>, c: Call)
    requires MayCommit(l, s, c)
    ensures Next(l, true, Resting(s, committed), Check(0, c, true)) == CheckedWorld(s, committed, c)
    ensures CallOk(l, s, c, ReadRow(s, c.op))
  {
    assert Resting(s, committed).View(0) == s;
  }

  lemma {:induction false} WritesAlone(l: Ledger, s: State, c: Call)
    requires MayCommit(l, s, c) && CallOk(l, s, c, ReadRow(s, c.op))
    ensures var ev := EventOf(s, c, ReadRow(s, c.op), NextSeq(s.log));
      && ev == AppendedEvent(s, c.op, c.env)
      && WritesOf(l, s, c, ReadRow(s, c.op), ev).Some?
      && Merge(s, WritesOf(l, s, c, ReadRow(s, c.op), ev).value) == Committed(s, c.op, c.env)
  {
    SeenIsCurrent(l, s, c, ReadRow(s, c.op));
    WriteIsSerial(l, s, c, ReadRow(s, c.op), AppendedEvent(s, c.op, c.env));
  }

  /** The world of the operation once it has its number. */
  function NumberedWorld(s: State, committed: seq<Call>, c: Call, tx: Tx): World {
    CheckedWorld(s, committed, c).(ledgerLock := Some(0), open := map[0 := tx])
  }

  lemma {:induction false} NumbersAlone(l: Ledger, s: State, committed: seq<Call>, c: Call, snap: Option<Hold>)
    requires snap == ReadRow(s, c.op)
    ensures Next(l, true, CheckedWorld(s, committed, c), TakeNumber(0))
            == NumberedWorld(s, committed, c, Tx([], [], HasNumber(c, snap, NextSeq(s.log))))
  {
    assert CheckedWorld(s, committed, c).View(0) == s;
  }

  lemma {:induction false} AppendsAlone(l: Ledger, s: State, committed: seq<Call>, c: Call, snap: Option<Hold>, ev: LogEvent)
    requires ev == EventOf(s, c, snap, NextSeq(s.log)) && !Collides(s.log, ev)
    ensures Next(l, true, NumberedWorld(s, committed, c, Tx([], [], HasNumber(c, snap, NextSeq(s.log)))), Append(0))
            == NumberedWorld(s, committed, c, Tx([], [], Appended(c, snap, ev)))
  {
  }

  lemma {:induction false} FirstWrites(l: Ledger, w: World, c: Call, snap: Option<Hold>, ev: LogEvent, ws: Writes)
    requires WritesOf(l, w.db, c, snap, ev) == Some(ws)
    ensures WriteStep(l, w, 0, Tx([], [], Appended(c, snap, ev))) == w.Put(0, Tx([ws], [c], Ready))
  {
    assert MergeAll(w.db, []) == w.db && [] + [ws] == [ws] && [] + [c] == [c];
  }

  lemma {:induction false} StoresAlone(l: Ledger, s: State, committed: seq<Call>, c: Call, snap: Option<Hold>, ev: LogEvent, ws: Writes)
    requires WritesOf(l, s, c, snap, ev) == Some(ws)
    ensures Next(l, true, NumberedWorld(s, committed, c, Tx([], [], Appended(c, snap, ev))), Write(0))
            == NumberedWorld(s, committed, c, Tx([ws], [c], Ready))
  {
    var w := NumberedWorld(s, committed, c, Tx([], [], Appended(c, snap, ev)));
    FirstWrites(l, w, c, snap, ev, ws);
  }

  lemma {:induction false} CommitsAlone(l: Ledger, s: State, committed: seq<Call>, c: Call, ws: Writes)
    ensures Next(l, true, NumberedWorld(s, committed, c, Tx([ws], [c], Ready)), HoldRuns.Commit(0))
            == Resting(Merge(s, ws), committed + [c])
  {
    MergeOne(s, [], ws);
    assert [] + [ws] == [ws];
  }

  /** A committing operation, played alone, commits what it commits, honestly, and leaves nothing locked. */
  lemma {:induction false} PlaysAlone(l: Ledger, s: State, committed: seq<Call>, c: Call)
    requires Commits(l, s, c)
    ensures Played(l, true, Next(l, true, Resting(s, committed), Check(0, c, true)), 0)
            == Resting(Committed(s, c.op, c.env), committed + [c])
    ensures HonestStep(l, Resting(s, committed), Check(0, c, true))
  {
    CommitsIff(l, s, c);
    ChecksAlone(l, s, committed, c);
    WritesAlone(l, s, c);
    var ws := WritesOf(l, s, c, ReadRow(s, c.op), EventOf(s, c, ReadRow(s, c.op), NextSeq(s.log))).value;
    var snap := ReadRow(s, c.op);
    var ev := EventOf(s, c, snap, NextSeq(s.log));
    NumbersAlone(l, s, committed, c, snap);
    AppendsAlone(l, s, committed, c, snap, ev);
    StoresAlone(l, s, committed, c, snap, ev, ws);
    CommitsAlone(l, s, committed, c, ws);
    assert Resting(s, committed).View(0) == s;
  }

  lemma {:induction false} HonestMore(l: Ledger, s: State, es: seq<Event>, ev: Event)
    ensures HonestRun(l, s, es + [ev]) <==> HonestRun(l, s, es) && HonestStep(l, RunFrom(l, true, s, es), ev)
  {
    assert (es + [ev])[..|es|] == es;
  }

  lemma {:induction false} FinishingIsHonest(l: Ledger, s: State, es: seq<Event>, p: nat)
    ensures HonestRun(l, s, es + Finishing(p)) <==> HonestRun(l, s, es)
  {
    HonestMore(l, s, es, TakeNumber(p));
    HonestMore(l, s, es + [TakeNumber(p)], Append(p));
    HonestMore(l, s, es + [TakeNumber(p)] + [Append(p)], Write(p));
    HonestMore(l, s, es + [TakeNumber(p)] + [Append(p)] + [Write(p)], HoldRuns.Commit(p));
    assert es + [TakeNumber(p)] + [Append(p)] + [Write(p)] + [HoldRuns.Commit(p)] == es + Finishing(p);
  }

  /** A resting run and one operation more. */
  lemma {:induction false} OneMore(l: Ledger, s: State, es: seq<Event>, mid: State, before: seq<Call>, c: Call) returns (more: seq<Event>)
    requires HonestRun(l, s, es) && RunFrom(l, true, s, es) == Resting(mid, before) && Commits(l, mid, c)
    ensures HonestRun(l, s, more) && RunFrom(l, true, s, more) == Resting(Committed(mid, c.op, c.env), before + [c])
  {
    PlaysAlone(l, mid, before, c);
    RunStep(l, true, s, es, Check(0, c, true));
    HonestMore(l, s, es, Check(0, c, true));
    more := es + [Check(0, c, true)];
    PlayedRun(l, true, s, more, 0);
    FinishingIsHonest(l, s, more, 0);
    more := more + Finishing(0);
  }

  /** Any calls of which each commits where it stands are committed by an honest run, in that order and to those tables. */
  lemma {:induction false} HistoryIsRun(l: Ledger, s: State, calls: seq<Call>) returns (es: seq<Event>)
    requires AllCommit(l, s, calls)
    ensures HonestRun(l, s, es) && RunFrom(l, true, s, es) == Resting(Serial(s, calls), calls)
  {
    if calls == [] {
      es := [];
    } else {
      var first, c := calls[..|calls| - 1], calls[|calls| - 1];
      var mid := Serial(s, first);
      var before := HistoryIsRun(l, s, first);
      es := OneMore(l, s, before, mid, first, c);
      LastCall(s, calls, first, c, mid);
    }
  }

  lemma {:induction false} LastCall(s: State, calls: seq<Call>, first: seq<Call>, c: Call, mid: State)
    requires calls != [] && first == calls[..|calls| - 1] && c == calls[|calls| - 1] && mid == Serial(s, first)
    ensures first + [c] == calls && Serial(s, calls) == Committed(mid, c.op, c.env)
  {
  }
}
