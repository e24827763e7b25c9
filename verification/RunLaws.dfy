/**
 * What every interleaving keeps besides the holds: conservation, the replay of the log, and the
 * cancelling of a transaction by its revert. None of them rests on a check that takes no lock.
 */
module RunLaws {
  import opened Wrappers
  import opened LedgerState
  import opened Transitions
  import opened Effects
  import opened Histories
  import opened Admission
  import opened Replay
  import opened Balances
  import opened Reverts
  import opened HoldRuns

  // ----- conservation -----

  lemma {:induction false} SerialConserves(s: State, calls: seq<Call>, a: Asset)
    requires Conserved(s, a)
    ensures Conserved(Serial(s, calls), a)
  {
    if calls != [] {
      var n := |calls| - 1;
      SerialConserves(s, calls[..n], a);
      CommittedConserves(Serial(s, calls[..n]), calls[n].op, calls[n].env, a);
    }
  }

  /** Under every interleaving each asset's total input equals its total output. */
  lemma {:induction false} RunsConserve(l: Ledger, s: State, es: seq<Event>, a: Asset)
    requires Sound(s) && Conserved(s, a)
    ensures Conserved(RunFrom(l, true, s, es).db, a)
  {
    RunsAreSerial(l, s, es);
    SerialConserves(s, RunFrom(l, true, s, es).committed, a);
  }

  // ----- replay -----

  function CountSlips(calls: seq<Call>): nat {
    if calls == [] then 0 else CountSlips(calls[..|calls| - 1]) + if Slips(calls[|calls| - 1].op) then 1 else 0
  }

  function CountConversions(calls: seq<Call>): nat {
    if calls == [] then 0 else CountConversions(calls[..|calls| - 1]) + if calls[|calls| - 1].op.Convert? then 1 else 0
  }

  lemma {:induction false} SerialReplays(l: Ledger, s: State, calls: seq<Call>)
    requires AllMayCommit(l, s, calls) && ReplaysState(s, ReplayLog(s.log), 0, 0)
    ensures ReplaysState(Serial(s, calls), ReplayLog(Serial(s, calls).log), CountSlips(calls), CountConversions(calls))
  {
    if calls != [] {
      var n := |calls| - 1;
      var before, c := Serial(s, calls[..n]), calls[n];
      SerialReplays(l, s, calls[..n]);
      assert Committed(before, c.op, c.env).log[..|before.log|] == before.log;
      StepReplays(l, before, c, ReplayLog(before.log), CountSlips(calls[..n]), CountConversions(calls[..n]));
    }
  }

  /**
   * Whatever interleaving wrote the log, its replay rebuilds holds and relationships exactly, the
   * rows short of two for each committed slippage conversion, the transactions short of the conversions.
   */
  lemma {:induction false} RunsReplay(l: Ledger, es: seq<Event>)
    ensures var w := RunFrom(l, true, EMPTY, es);
      ReplaysState(w.db, ReplayLog(w.db.log), CountSlips(w.committed), CountConversions(w.committed))
  {
    RunsAreSerial(l, EMPTY, es);
    SerialReplays(l, EMPTY, RunFrom(l, true, EMPTY, es).committed);
  }

  // ----- reverts -----

  lemma {:induction false} SerialJoined(l: Ledger, s: State, calls: seq<Call>)
    requires Sound(s) && AllMayCommit(l, s, calls) && AllBacked(s) && RevertsJoined(s)
    ensures AllBacked(Serial(s, calls)) && RevertsJoined(Serial(s, calls))
  {
    if calls != [] {
      var n := |calls| - 1;
      SerialJoined(l, s, calls[..n]);
      SerialSound(l, s, calls[..n]);
      CommittedKeepsBacked(Serial(s, calls[..n]), calls[n].op, calls[n].env);
      CommittedKeepsJoined(l, Serial(s, calls[..n]), calls[n]);
    }
  }

  /** Under every interleaving a transaction and its revert, or each of its reverts, cancel in every bucket. */
  lemma {:induction false} RunsCancel(l: Ledger, s: State, es: seq<Event>, i: nat, b: Bucket)
    requires Sound(s) && AllBacked(s) && RevertsJoined(s) && i < |RunFrom(l, true, s, es).db.relationships|
    ensures var db := RunFrom(l, true, s, es).db; var r := db.relationships[i];
      && r.parent in db.transactions && r.child in db.transactions
      && NetOf(db, r.parent, b) + NetOf(db, r.child, b) == 0
  {
    RunsAreSerial(l, s, es);
    SerialJoined(l, s, RunFrom(l, true, s, es).committed);
    JoinedCancel(RunFrom(l, true, s, es).db, i, b);
  }
}
