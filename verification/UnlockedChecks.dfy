/**
 * What depends on checks that take no lock, exactly: at most one revert of a transaction, and
 * solvency. Over every run, in terms of the order of its commits; over honest runs, in terms of
 * what commits between a check and its own commit.
 */
module UnlockedChecks {
  import opened Wrappers
  import opened LedgerState
  import opened Transitions
  import opened Effects
  import opened Histories
  import opened Admission
  import opened Balances
  import opened Reverts
  import opened HoldRuns
  import opened HonestRuns

  // ----- at most one revert -----

  predicate RevertOf(c: Call, txId: Id) { c.op.Revert? && c.op.txId == txId }

  /** Some revert of the list stands after another revert of its transaction. */
  ghost predicate Overtaken(s: State, calls: seq<Call>) {
    calls != []
    && (Overtaken(s, calls[..|calls| - 1])
        || (calls[|calls| - 1].op.Revert? && HasRevert(Serial(s, calls[..|calls| - 1]), calls[|calls| - 1].op.txId)))
  }

  lemma {:induction false} TwiceStays(s: State, op: Op, e: Env)
    requires !OneRevertEach(s)
    ensures !OneRevertEach(Committed(s, op, e))
  {
    var rs, rs' := s.relationships, Committed(s, op, e).relationships;
    var i, j :| 0 <= i < j < |rs| && rs[i].parent == rs[j].parent;
    assert rs'[i] == rs[i] && rs'[j] == rs[j];
  }

  lemma {:induction false} SerialOneRevertIff(s: State, calls: seq<Call>)
    requires OneRevertEach(s)
    ensures OneRevertEach(Serial(s, calls)) <==> !Overtaken(s, calls)
  {
    if calls != [] {
      var n := |calls| - 1;
      SerialOneRevertIff(s, calls[..n]);
      if OneRevertEach(Serial(s, calls[..n])) {
        OneRevertStepIff(Serial(s, calls[..n]), calls[n].op, calls[n].env);
      } else {
        TwiceStays(Serial(s, calls[..n]), calls[n].op, calls[n].env);
      }
    }
  }

  /** Under every interleaving no transaction is reverted twice exactly when no committed revert stands after another of its transaction. */
  lemma {:induction false} OneRevertIff(l: Ledger, s: State, es: seq<Event>)
    requires Sound(s) && OneRevertEach(s)
    ensures OneRevertEach(RunFrom(l, true, s, es).db) <==> !Overtaken(s, RunFrom(l, true, s, es).committed)
  {
    RunsAreSerial(l, s, es);
    SerialOneRevertIff(s, RunFrom(l, true, s, es).committed);
  }

  ghost predicate SomeRevertOf(calls: seq<Call>, txId: Id) { exists i :: 0 <= i < |calls| && RevertOf(calls[i], txId) }

  lemma {:induction false} RevertStepIff(s: State, op: Op, e: Env, txId: Id)
    ensures HasRevert(Committed(s, op, e), txId) <==> HasRevert(s, txId) || (op.Revert? && op.txId == txId)
  {
    var rs, rs' := s.relationships, Committed(s, op, e).relationships;
    assert forall i :: 0 <= i < |rs| ==> rs'[i] == rs[i];
    if op.Revert? {
      assert rs' == rs + [Relationship(op.txId, e.txId, e.eventId, e.now)];
      assert rs'[|rs|].parent == op.txId;
    }
  }

  lemma {:induction false} RevertsOneMore(calls: seq<Call>, txId: Id)
    requires calls != []
    ensures SomeRevertOf(calls, txId) <==> SomeRevertOf(calls[..|calls| - 1], txId) || RevertOf(calls[|calls| - 1], txId)
  {
    var n := |calls| - 1;
    assert forall i :: 0 <= i < n ==> calls[..n][i] == calls[i];
    if RevertOf(calls[n], txId) {
      assert SomeRevertOf(calls, txId);
    }
  }

  lemma {:induction false} SerialRevertIff(s: State, calls: seq<Call>, txId: Id)
    ensures HasRevert(Serial(s, calls), txId) <==> HasRevert(s, txId) || SomeRevertOf(calls, txId)
  {
    if calls != [] {
      var n := |calls| - 1;
      SerialRevertIff(s, calls[..n], txId);
      RevertStepIff(Serial(s, calls[..n]), calls[n].op, calls[n].env, txId);
      RevertsOneMore(calls, txId);
    }
  }

  /** What an event commits. */
  function Released(w: World, ev: Event): seq<Call> { if CommitsNow(w, ev) then w.TxOf(ev.p).calls else [] }

  /**
   * Event `m` is the accepted check of a revert, event `n` its commit, and in between event `k`
   * commits another transaction's revert of the same stored transaction.
   */
  ghost predicate RevertRace(l: Ledger, s: State, es: seq<Event>, m: nat, k: nat, n: nat) {
    && Overlap(l, s, es, m, k, n) && es[m].call.op.Revert?
    && SomeRevertOf(Released(At(l, s, es, k), es[k]), es[m].call.op.txId)
  }

  ghost predicate HasRevertRace(l: Ledger, s: State, es: seq<Event>) {
    exists m: nat, k: nat, n: nat :: RevertRace(l, s, es, m, k, n)
  }

  lemma {:induction false} RaceStays(l: Ledger, s: State, es: seq<Event>, i: nat)
    requires i <= |es| && HasRevertRace(l, s, es[..i])
    ensures HasRevertRace(l, s, es)
  {
    var m: nat, k: nat, n: nat :| RevertRace(l, s, es[..i], m, k, n);
    OverlapStays(l, s, es, i, m, k, n);
    assert es[..i][..k] == es[..k];
    assert RevertRace(l, s, es, m, k, n);
  }

  /** The tables before the first event and after each. */
  function Tables(l: Ledger, s: State, es: seq<Event>): seq<State> {
    seq(|es| + 1, i requires 0 <= i <= |es| => At(l, s, es, i).db)
  }

  /** What each event commits. */
  function Steps(l: Ledger, s: State, es: seq<Event>): seq<seq<Call>> {
    seq(|es|, i requires 0 <= i < |es| => Released(At(l, s, es, i), es[i]))
  }

  /** Tables that only the listed commits change. */
  ghost predicate Evolve(dbs: seq<State>, steps: seq<seq<Call>>) {
    |dbs| == |steps| + 1 && forall i :: 0 <= i < |steps| ==> dbs[i + 1] == Serial(dbs[i], steps[i])
  }

  lemma {:induction false} NextTables(l: Ledger, s: State, w: World, ev: Event)
    requires Inv(l, s, w)
    ensures Next(l, true, w, ev).db == Serial(w.db, Released(w, ev))
  {
    if CommitsNow(w, ev) {
      OwnTxSound(l, s, w, ev.p);
    } else {
      TablesUntouched(l, w, ev);
    }
  }

  lemma {:induction false} EvolvesAt(l: Ledger, s: State, es: seq<Event>, i: nat)
    requires Sound(s) && i < |es|
    ensures At(l, s, es, i + 1).db == Serial(At(l, s, es, i).db, Released(At(l, s, es, i), es[i]))
  {
    AtNext(l, s, es, i);
    RunsAreSerial(l, s, es[..i]);
    NextTables(l, s, At(l, s, es, i), es[i]);
  }

  lemma {:induction false} RunsEvolve(l: Ledger, s: State, es: seq<Event>)
    requires Sound(s)
    ensures Evolve(Tables(l, s, es), Steps(l, s, es)) && Tables(l, s, es)[|es|] == RunFrom(l, true, s, es).db
  {
    forall i | 0 <= i < |es|
      ensures At(l, s, es, i + 1).db == Serial(At(l, s, es, i).db, Released(At(l, s, es, i), es[i]))
    {
      EvolvesAt(l, s, es, i);
    }
    assert es[..|es|] == es;
  }

  /** A revert that is in the tables at `n` and was not at `m` was committed in between. */
  lemma {:induction false} RevertAppears(dbs: seq<State>, steps: seq<seq<Call>>, m: nat, n: nat, txId: Id) returns (k: nat)
    requires Evolve(dbs, steps) && m <= n <= |steps| && !HasRevert(dbs[m], txId) && HasRevert(dbs[n], txId)
    ensures m <= k < n && SomeRevertOf(steps[k], txId)
    decreases n
  {
    k := n - 1;
    SerialRevertIff(dbs[k], steps[k], txId);
    if HasRevert(dbs[k], txId) {
      k := RevertAppears(dbs, steps, m, k, txId);
    }
  }

  lemma {:induction false} RevertKept(s: State, calls: seq<Call>, txId: Id)
    requires HasRevert(s, txId)
    ensures HasRevert(Serial(s, calls), txId)
  {
    SerialRevertIff(s, calls, txId);
  }

  lemma {:induction false} RevertStays(dbs: seq<State>, steps: seq<seq<Call>>, m: nat, n: nat, txId: Id)
    requires Evolve(dbs, steps) && m <= n <= |steps| && HasRevert(dbs[m], txId)
    ensures HasRevert(dbs[n], txId)
    decreases n - m
  {
    if m < n {
      RevertStays(dbs, steps, m, n - 1, txId);
      RevertKept(dbs[n - 1], steps[n - 1], txId);
    }
  }

  lemma {:induction false} TwiceForGood(dbs: seq<State>, steps: seq<seq<Call>>, m: nat, n: nat)
    requires Evolve(dbs, steps) && m <= n <= |steps| && !OneRevertEach(dbs[m])
    ensures !OneRevertEach(dbs[n])
    decreases n - m
  {
    if m < n {
      TwiceForGood(dbs, steps, m, n - 1);
      SerialTwice(dbs[n - 1], steps[n - 1]);
    }
  }

  /** A committing transaction one of whose reverts stands after another revert of its transaction. */
  lemma {:induction false} OvertakenCall(s: State, calls: seq<Call>) returns (j: nat)
    requires Overtaken(s, calls)
    ensures j < |calls| && calls[j].op.Revert? && HasRevert(Serial(s, calls[..j]), calls[j].op.txId)
  {
    var n := |calls| - 1;
    if Overtaken(s, calls[..n]) {
      j := OvertakenCall(s, calls[..n]);
      assert calls[..n][..j] == calls[..j];
    } else {
      j := n;
    }
  }

  /** In an honest run such a revert was accepted before the other one was committed. */
  lemma {:induction false} OvertakenIsRace(l: Ledger, s: State, es: seq<Event>, ev: Event)
    requires Sound(s) && HonestRun(l, s, es) && CommitsNow(RunFrom(l, true, s, es), ev)
    requires Overtaken(RunFrom(l, true, s, es).db, RunFrom(l, true, s, es).TxOf(ev.p).calls)
    ensures HasRevertRace(l, s, es + [ev])
  {
    var w := RunFrom(l, true, s, es);
    var calls := w.TxOf(ev.p).calls;
    var j := OvertakenCall(w.db, calls);
    var m := WasAccepted(l, s, es, ev.p, j);
    var txId := calls[j].op.txId;
    SerialRevertIff(At(l, s, es, m).db, calls[..j], txId);
    SerialRevertIff(w.db, calls[..j], txId);
    RunsEvolve(l, s, es);
    var k := RevertAppears(Tables(l, s, es), Steps(l, s, es), m, |es|, txId);
    RaceFound(l, s, es, ev, m, k, calls[j]);
  }

  lemma {:induction false} RaceFound(l: Ledger, s: State, es: seq<Event>, ev: Event, m: nat, k: nat, c: Call)
    requires m <= k < |es| && es[m] == Check(ev.p, c, true) && c.op.Revert? && CommitsNow(RunFrom(l, true, s, es), ev)
    requires c in RunFrom(l, true, s, es).TxOf(ev.p).calls
    requires forall i :: m < i < |es| ==> Waits(l, s, es, ev.p, i)
    requires SomeRevertOf(Released(At(l, s, es, k), es[k]), c.op.txId)
    ensures HasRevertRace(l, s, es + [ev])
  {
    var all, n := es + [ev], |es|;
    assert all[..n] == es && all[..k] == es[..k] && all[k] == es[k] && all[m] == es[m] && all[n] == ev;
    assert k != m && Waits(l, s, es, ev.p, k);
    assert At(l, s, all, n) == RunFrom(l, true, s, es) && At(l, s, all, k) == At(l, s, es, k);
    assert Overlap(l, s, all, m, k, n);
    assert RevertRace(l, s, all, m, k, n);
  }

  lemma {:induction false} TwiceIsRace(l: Ledger, s: State, es: seq<Event>)
    requires Sound(s) && OneRevertEach(s) && HonestRun(l, s, es) && !OneRevertEach(RunFrom(l, true, s, es).db)
    ensures HasRevertRace(l, s, es)
  {
    var n := |es| - 1;
    var w := RunFrom(l, true, s, es[..n]);
    assert es == es[..n] + [es[n]] && es[..n + 1] == es;
    if !OneRevertEach(w.db) {
      TwiceIsRace(l, s, es[..n]);
      RaceStays(l, s, es, n);
    } else {
      RunsAreSerial(l, s, es[..n]);
      NextTables(l, s, w, es[n]);
      SerialOneRevertIff(w.db, Released(w, es[n]));
      OvertakenIsRace(l, s, es[..n], es[n]);
    }
  }

  // ----- a race reverts twice -----

  lemma {:induction false} SerialTwice(s: State, calls: seq<Call>)
    requires !OneRevertEach(s)
    ensures !OneRevertEach(Serial(s, calls))
  {
    if calls != [] {
      var n := |calls| - 1;
      SerialTwice(s, calls[..n]);
      TwiceStays(Serial(s, calls[..n]), calls[n].op, calls[n].env);
    }
  }

  /** Reverting what is reverted already. */
  lemma {:induction false} RevertedAgain(s: State, calls: seq<Call>, txId: Id)
    requires HasRevert(s, txId) && SomeRevertOf(calls, txId)
    ensures !OneRevertEach(Serial(s, calls))
  {
    var n := |calls| - 1;
    RevertsOneMore(calls, txId);
    var t := Serial(s, calls[..n]);
    if SomeRevertOf(calls[..n], txId) {
      RevertedAgain(s, calls[..n], txId);
      TwiceStays(t, calls[n].op, calls[n].env);
    } else {
      SerialRevertIff(s, calls[..n], txId);
      if OneRevertEach(t) {
        OneRevertStepIff(t, calls[n].op, calls[n].env);
      } else {
        TwiceStays(t, calls[n].op, calls[n].env);
      }
    }
  }

  /** Two reverts of one transaction, committed one after the other. */
  lemma {:induction false} CommittedTwice(dbs: seq<State>, steps: seq<seq<Call>>, k: nat, n: nat, txId: Id)
    requires Evolve(dbs, steps) && k < n < |steps| && SomeRevertOf(steps[k], txId) && SomeRevertOf(steps[n], txId)
    ensures !OneRevertEach(dbs[|steps|])
  {
    SerialRevertIff(dbs[k], steps[k], txId);
    RevertStays(dbs, steps, k + 1, n, txId);
    RevertedAgain(dbs[n], steps[n], txId);
    TwiceForGood(dbs, steps, n + 1, |steps|);
  }

  lemma {:induction false} RaceIsTwice(l: Ledger, s: State, es: seq<Event>, m: nat, k: nat, n: nat)
    requires Sound(s) && RevertRace(l, s, es, m, k, n)
    ensures !OneRevertEach(RunFrom(l, true, s, es).db)
  {
    RunsEvolve(l, s, es);
    MemberReverts(Released(At(l, s, es, n), es[n]), es[m].call, es[m].call.op.txId);
    CommittedTwice(Tables(l, s, es), Steps(l, s, es), k, n, es[m].call.op.txId);
  }

  lemma {:induction false} MemberReverts(calls: seq<Call>, c: Call, txId: Id)
    requires c in calls && RevertOf(c, txId)
    ensures SomeRevertOf(calls, txId)
  {
  }

  /**
   * In an honest run no transaction is reverted twice exactly when no other revert of a transaction
   * is committed between the check of a revert and its commit.
   */
  lemma {:induction false} HonestOneRevertIff(l: Ledger, s: State, es: seq<Event>)
    requires Sound(s) && OneRevertEach(s) && HonestRun(l, s, es)
    ensures OneRevertEach(RunFrom(l, true, s, es).db) <==> !HasRevertRace(l, s, es)
  {
    if !OneRevertEach(RunFrom(l, true, s, es).db) {
      TwiceIsRace(l, s, es);
    }
    if HasRevertRace(l, s, es) {
      var m: nat, k: nat, n: nat :| RevertRace(l, s, es, m, k, n);
      RaceIsTwice(l, s, es, m, k, n);
    }
  }

  // ----- solvency -----

  /** Each operation of the list can be paid where it stands. */
  ghost predicate AllPaid(l: Ledger, s: State, calls: seq<Call>) {
    calls == []
    || (AllPaid(l, s, calls[..|calls| - 1]) && Pays(l, Serial(s, calls[..|calls| - 1]), calls[|calls| - 1].op))
  }

  /** No state between the operations of the list is overdrawn. */
  ghost predicate SolventThroughout(l: Ledger, s: State, calls: seq<Call>) {
    Solvent(l, Serial(s, calls)) && (calls == [] || SolventThroughout(l, s, calls[..|calls| - 1]))
  }

  lemma {:induction false} SerialHealthy(l: Ledger, s: State, calls: seq<Call>)
    requires Sound(s) && StoredSound(s) && AllMayCommit(l, s, calls)
    ensures Healthy(Serial(s, calls))
  {
    if calls != [] {
      var n := |calls| - 1;
      SerialHealthy(l, s, calls[..n]);
      SerialSound(l, s, calls);
      MovesPositive(l, Serial(s, calls[..n]), calls[n]);
      StoredAfter(Serial(s, calls[..n]), calls[n].op, calls[n].env);
    }
  }

  lemma {:induction false} SerialSolventIff(l: Ledger, s: State, calls: seq<Call>)
    requires Sound(s) && StoredSound(s) && Solvent(l, s) && AllMayCommit(l, s, calls)
    ensures SolventThroughout(l, s, calls) <==> AllPaid(l, s, calls)
  {
    if calls != [] {
      var n := |calls| - 1;
      SerialSolventIff(l, s, calls[..n]);
      if SolventThroughout(l, s, calls[..n]) {
        SerialHealthy(l, s, calls[..n]);
        PaidIsSolvent(l, Serial(s, calls[..n]), calls[n]);
      }
    }
  }

  /** Under every interleaving nothing is ever overdrawn in commit order exactly when every committed operation can be paid where it stands. */
  lemma {:induction false} SolventIff(l: Ledger, s: State, es: seq<Event>)
    requires Sound(s) && StoredSound(s) && Solvent(l, s)
    ensures SolventThroughout(l, s, RunFrom(l, true, s, es).committed) <==> AllPaid(l, s, RunFrom(l, true, s, es).committed)
  {
    RunsAreSerial(l, s, es);
    SerialSolventIff(l, s, RunFrom(l, true, s, es).committed);
  }

  /** The tables are solvent after every event. */
  ghost predicate SolventAfterEach(l: Ledger, s: State, es: seq<Event>) {
    Solvent(l, RunFrom(l, true, s, es).db) && (es == [] || SolventAfterEach(l, s, es[..|es| - 1]))
  }

  /** No transaction commits more than one operation; a batch may. */
  ghost predicate OneOperationEach(l: Ledger, s: State, es: seq<Event>) {
    es == []
    || (OneOperationEach(l, s, es[..|es| - 1])
        && (CommitsNow(RunFrom(l, true, s, es[..|es| - 1]), es[|es| - 1]) ==>
              |RunFrom(l, true, s, es[..|es| - 1]).TxOf(es[|es| - 1].p).calls| <= 1))
  }

  lemma {:induction false} OneCallMore(l: Ledger, s: State, calls: seq<Call>, more: seq<Call>)
    requires |more| <= 1
    ensures SolventThroughout(l, s, calls + more) <==> SolventThroughout(l, s, calls) && Solvent(l, Serial(s, calls + more))
  {
    if more == [] {
      assert calls + more == calls;
    } else {
      assert (calls + more)[..|calls|] == calls;
    }
  }

  lemma {:induction false} ThroughoutIsEach(l: Ledger, s: State, es: seq<Event>)
    requires Sound(s) && OneOperationEach(l, s, es)
    ensures SolventThroughout(l, s, RunFrom(l, true, s, es).committed) <==> SolventAfterEach(l, s, es)
  {
    RunsAreSerial(l, s, es);
    if es != [] {
      var before, ev := es[..|es| - 1], es[|es| - 1];
      var w := RunFrom(l, true, s, before);
      ThroughoutIsEach(l, s, before);
      if CommitsNow(w, ev) {
        OneCallMore(l, s, w.committed, w.TxOf(ev.p).calls);
      } else {
        TablesUntouched(l, w, ev);
      }
    }
  }

  /** For transactions of one operation each: the tables are solvent after every event exactly when each committed operation can be paid where it stands. */
  lemma {:induction false} SolventAfterEachIff(l: Ledger, s: State, es: seq<Event>)
    requires Sound(s) && StoredSound(s) && Solvent(l, s) && OneOperationEach(l, s, es)
    ensures SolventAfterEach(l, s, es) <==> AllPaid(l, s, RunFrom(l, true, s, es).committed)
  {
    ThroughoutIsEach(l, s, es);
    SolventIff(l, s, es);
  }

  /** Each operation of the list is covered where it stands, as far as the code does not check. */
  ghost predicate AllCoveredHere(l: Ledger, s: State, calls: seq<Call>) {
    calls == []
    || (AllCoveredHere(l, s, calls[..|calls| - 1]) && Covered(l, Serial(s, calls[..|calls| - 1]), calls[|calls| - 1].op))
  }

  lemma {:induction false} SerialCoveredIff(l: Ledger, s: State, calls: seq<Call>)
    requires Sound(s) && StoredSound(s) && Solvent(l, s) && AllMayCommit(l, s, calls) && AllAccepted(l, s, calls)
    ensures SolventThroughout(l, s, calls) <==> AllCoveredHere(l, s, calls)
  {
    if calls != [] {
      var n := |calls| - 1;
      SerialCoveredIff(l, s, calls[..n]);
      if SolventThroughout(l, s, calls[..n]) {
        SerialHealthy(l, s, calls[..n]);
        PaidIsSolvent(l, Serial(s, calls[..n]), calls[n]);
        AcceptedPaysIff(l, Serial(s, calls[..n]), calls[n]);
      }
    }
  }

  /**
   * An honest run in which nothing commits between a check and its commit overdraws nothing exactly
   * when its conversions and reverts are covered, as in serial histories.
   */
  lemma {:induction false} HonestApartSolventIff(l: Ledger, s: State, es: seq<Event>)
    requires Sound(s) && StoredSound(s) && Solvent(l, s) && HonestRun(l, s, es) && NoOverlap(l, s, es)
    ensures var calls := RunFrom(l, true, s, es).committed;
      SolventThroughout(l, s, calls) <==> AllCoveredHere(l, s, calls)
  {
    RunsAreSerial(l, s, es);
    ApartIsAccepted(l, s, es);
    SerialCoveredIff(l, s, RunFrom(l, true, s, es).committed);
  }
}
