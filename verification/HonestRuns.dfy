/**
 * Runs in which the checks that take no lock say what the code's own checks say, on the tables
 * the transaction sees when it makes them. When no other transaction commits between a check and
 * the commit it leads to, such a run is a serial history of the code.
 */
module HonestRuns {
  import opened Wrappers
  import opened LedgerState
  import opened Transitions
  import opened Effects
  import opened Histories
  import opened Admission
  import opened HoldRuns

  /** The verdict is the code's. */
  predicate HonestStep(l: Ledger, w: World, ev: Event) {
    ev.Check? && w.TxOf(ev.p).stage.Ready? && !HoldOp(ev.call.op) ==> ev.accepts == Accepts(l, w.View(ev.p), ev.call.op)
  }

  predicate HonestRun(l: Ledger, s: State, es: seq<Event>) {
    es == [] || (HonestRun(l, s, es[..|es| - 1]) && HonestStep(l, RunFrom(l, true, s, es[..|es| - 1]), es[|es| - 1]))
  }

  /** The world before event `i`. */
  function At(l: Ledger, s: State, es: seq<Event>, i: nat): World
    requires i <= |es|
  {
    RunFrom(l, true, s, es[..i])
  }

  lemma {:induction false} AtNext(l: Ledger, s: State, es: seq<Event>, i: nat)
    requires i < |es|
    ensures At(l, s, es, i + 1) == Next(l, true, At(l, s, es, i), es[i])
  {
    assert es[..i + 1][..i] == es[..i];
  }

  lemma {:induction false} HonestAt(l: Ledger, s: State, es: seq<Event>, i: nat)
    requires HonestRun(l, s, es) && i < |es|
    ensures HonestStep(l, At(l, s, es, i), es[i])
  {
    var n := |es| - 1;
    if i < n {
      HonestAt(l, s, es[..n], i);
      assert es[..n][..i] == es[..i];
    }
  }

  predicate CommitsAt(l: Ledger, s: State, es: seq<Event>, k: nat)
    requires k < |es|
  {
    CommitsNow(At(l, s, es, k), es[k])
  }

  // ----- where an operation was checked -----

  /** Event `k` does not commit transaction `p`. */
  ghost predicate Waits(l: Ledger, s: State, es: seq<Event>, p: nat, k: nat)
    requires k < |es|
  {
    es[k].p == p ==> !CommitsAt(l, s, es, k)
  }

  lemma {:induction false} StillWaits(l: Ledger, s: State, es: seq<Event>, p: nat, k: nat, n: nat)
    requires k < n <= |es| && Waits(l, s, es[..n], p, k)
    ensures Waits(l, s, es, p, k)
  {
    assert es[..n][..k] == es[..k] && es[..n][k] == es[k];
  }

  /** Event `m` is the accepted check of `c`, after the operations `before` of the same transaction, which has not committed since. */
  ghost predicate CheckedAt(l: Ledger, s: State, es: seq<Event>, p: nat, before: seq<Call>, c: Call, m: nat) {
    && m < |es| && es[m] == Check(p, c, true)
    && At(l, s, es, m).TxOf(p).stage.Ready? && At(l, s, es, m).TxOf(p).calls == before
    && forall k :: m < k < |es| ==> Waits(l, s, es, p, k)
  }

  lemma {:induction false} StillCheckedAt(
    l: Ledger, s: State, es: seq<Event>, p: nat, before: seq<Call>, c: Call, m: nat)
    requires es != [] && CheckedAt(l, s, es[..|es| - 1], p, before, c, m)
    requires Waits(l, s, es, p, |es| - 1)
    ensures CheckedAt(l, s, es, p, before, c, m)
  {
    var n := |es| - 1;
    assert es[..n][..m] == es[..m] && es[..n][m] == es[m];
    forall k | m < k < |es|
      ensures Waits(l, s, es, p, k)
    {
      if k < n {
        StillWaits(l, s, es, p, k, n);
      }
    }
  }

  /** The operations of a transaction after a step: those before it, or one more that was just accepted. */
  lemma {:induction false} CallsAfter(l: Ledger, w: World, ev: Event, p: nat)
    ensures var now, was := AllCalls(Next(l, true, w, ev).TxOf(p)), AllCalls(w.TxOf(p));
      now == was || now == []
      || (ev.Check? && ev.p == p && w.TxOf(p).stage.Ready? && now == was + [ev.call]
          && (HoldOp(ev.call.op) || ev == Check(p, ev.call, true)))
    ensures ev.p == p && CommitsNow(w, ev) ==> AllCalls(Next(l, true, w, ev).TxOf(p)) == []
  {
    var w' := Next(l, true, w, ev);
    if p in w'.open {
      if ev.p != p {
        StaysOpen(l, w, ev, p);
      } else if !ev.Check? {
        SameCalls(l, w, ev);
      }
    }
  }

  /** Every operation under way without a hold was checked, and accepted, at some event. */
  lemma {:induction false} WasChecked(l: Ledger, s: State, es: seq<Event>, p: nat, j: nat) returns (m: nat)
    requires j < |AllCalls(RunFrom(l, true, s, es).TxOf(p))| && !HoldOp(AllCalls(RunFrom(l, true, s, es).TxOf(p))[j].op)
    ensures var calls := AllCalls(RunFrom(l, true, s, es).TxOf(p));
      CheckedAt(l, s, es, p, calls[..j], calls[j], m)
  {
    var n := |es| - 1;
    var w, ev := RunFrom(l, true, s, es[..n]), es[n];
    var calls, was := AllCalls(RunFrom(l, true, s, es).TxOf(p)), AllCalls(w.TxOf(p));
    CallsAfter(l, w, ev, p);
    if j < |was| {
      m := WasChecked(l, s, es[..n], p, j);
      assert calls[..j] == was[..j];
      StillCheckedAt(l, s, es, p, was[..j], was[j], m);
    } else {
      m := n;
      assert calls == was + [ev.call] && calls[..j] == was;
    }
  }

  /** In an honest run the check saw tables on which the code accepts. */
  lemma {:induction false} WasAccepted(l: Ledger, s: State, es: seq<Event>, p: nat, j: nat) returns (m: nat)
    requires Sound(s) && HonestRun(l, s, es)
    requires j < |AllCalls(RunFrom(l, true, s, es).TxOf(p))| && !HoldOp(AllCalls(RunFrom(l, true, s, es).TxOf(p))[j].op)
    ensures var calls := AllCalls(RunFrom(l, true, s, es).TxOf(p));
      CheckedAt(l, s, es, p, calls[..j], calls[j], m) && Accepts(l, Serial(At(l, s, es, m).db, calls[..j]), calls[j].op)
  {
    m := WasChecked(l, s, es, p, j);
    HonestAt(l, s, es, m);
    RunsAreSerial(l, s, es[..m]);
    OwnTxSound(l, s, At(l, s, es, m), p);
  }

  // ----- runs whose checks and commits do not overlap -----

  /** Event `k` commits something of another transaction between the check `m` of an operation and its commit `n`. */
  ghost predicate Overlap(l: Ledger, s: State, es: seq<Event>, m: nat, k: nat, n: nat) {
    && m < k < n < |es| && es[m].Check? && !HoldOp(es[m].call.op) && es[m].accepts
    && CommitsAt(l, s, es, k) && es[k].p != es[m].p && At(l, s, es, k).TxOf(es[k].p).calls != []
    && CommitsAt(l, s, es, n) && es[n].p == es[m].p && es[m].call in At(l, s, es, n).TxOf(es[n].p).calls
  }

  ghost predicate NoOverlap(l: Ledger, s: State, es: seq<Event>) {
    forall m: nat, k: nat, n: nat :: !Overlap(l, s, es, m, k, n)
  }

  lemma {:induction false} OverlapStays(l: Ledger, s: State, es: seq<Event>, i: nat, m: nat, k: nat, n: nat)
    requires i <= |es| && Overlap(l, s, es[..i], m, k, n)
    ensures Overlap(l, s, es, m, k, n)
  {
    assert es[..i][..k] == es[..k] && es[..i][..n] == es[..n];
  }

  lemma {:induction false} NoOverlapBefore(l: Ledger, s: State, es: seq<Event>, i: nat)
    requires NoOverlap(l, s, es) && i <= |es|
    ensures NoOverlap(l, s, es[..i])
  {
    forall m: nat, k: nat, n: nat
      ensures !Overlap(l, s, es[..i], m, k, n)
    {
      if Overlap(l, s, es[..i], m, k, n) {
        OverlapStays(l, s, es, i, m, k, n);
      }
    }
  }

  lemma {:induction false} CommitOfNothing(l: Ledger, s: State, w: World, ev: Event)
    requires Inv(l, s, w) && (CommitsNow(w, ev) ==> w.TxOf(ev.p).calls == [])
    ensures Next(l, true, w, ev).db == w.db
  {
    if CommitsNow(w, ev) {
      OwnTxSound(l, s, w, ev.p);
    } else {
      TablesUntouched(l, w, ev);
    }
  }

  /** Event `k` commits nothing. */
  ghost predicate Idle(l: Ledger, s: State, es: seq<Event>, k: nat)
    requires k < |es|
  {
    CommitsAt(l, s, es, k) ==> At(l, s, es, k).TxOf(es[k].p).calls == []
  }

  lemma {:induction false} IdleKeepsTables(l: Ledger, s: State, es: seq<Event>, k: nat)
    requires Sound(s) && k < |es| && Idle(l, s, es, k)
    ensures At(l, s, es, k + 1).db == At(l, s, es, k).db
  {
    AtNext(l, s, es, k);
    RunsAreSerial(l, s, es[..k]);
    CommitOfNothing(l, s, At(l, s, es, k), es[k]);
  }

  /** Without a commit of something the tables stay. */
  lemma {:induction false} TablesStay(l: Ledger, s: State, es: seq<Event>, m: nat, n: nat)
    requires Sound(s) && m <= n <= |es| && forall k :: m <= k < n ==> Idle(l, s, es, k)
    ensures At(l, s, es, n).db == At(l, s, es, m).db
    decreases n - m
  {
    if m < n {
      TablesStay(l, s, es, m, n - 1);
      IdleKeepsTables(l, s, es, n - 1);
    }
  }

  /** Every call of the list commits where it stands. */
  ghost predicate AllCommit(l: Ledger, s: State, calls: seq<Call>) {
    calls == []
    || (AllCommit(l, s, calls[..|calls| - 1]) && Commits(l, Serial(s, calls[..|calls| - 1]), calls[|calls| - 1]))
  }

  ghost predicate AllAccepted(l: Ledger, s: State, calls: seq<Call>) {
    calls == []
    || (AllAccepted(l, s, calls[..|calls| - 1]) && Accepts(l, Serial(s, calls[..|calls| - 1]), calls[|calls| - 1].op))
  }

  lemma {:induction false} AllCommitIff(l: Ledger, s: State, calls: seq<Call>)
    requires AllMayCommit(l, s, calls)
    ensures AllCommit(l, s, calls) <==> AllAccepted(l, s, calls)
  {
    if calls != [] {
      var n := |calls| - 1;
      AllCommitIff(l, s, calls[..n]);
      CommitsIff(l, Serial(s, calls[..n]), calls[n]);
    }
  }

  /** What a run commits is a serial history of the code exactly when every unlocked check would still accept where its operation stands. */
  lemma {:induction false} HistoryIff(l: Ledger, s: State, es: seq<Event>)
    requires Sound(s)
    ensures AllCommit(l, s, RunFrom(l, true, s, es).committed) <==> AllAccepted(l, s, RunFrom(l, true, s, es).committed)
  {
    RunsAreSerial(l, s, es);
    AllCommitIff(l, s, RunFrom(l, true, s, es).committed);
  }

  /** When nothing overlaps, the tables at a commit are those its operation was checked on. */
  lemma {:induction false} NothingBetween(
    l: Ledger, s: State, es: seq<Event>, ev: Event, before: seq<Call>, c: Call, m: nat)
    requires Sound(s) && NoOverlap(l, s, es + [ev]) && !HoldOp(c.op)
    requires CheckedAt(l, s, es, ev.p, before, c, m) && CommitsNow(RunFrom(l, true, s, es), ev)
    requires c in RunFrom(l, true, s, es).TxOf(ev.p).calls
    ensures At(l, s, es, m).db == RunFrom(l, true, s, es).db
  {
    var all, n := es + [ev], |es|;
    assert all[..n] == es && es[..n] == es;
    forall k | m <= k < n
      ensures Idle(l, s, es, k)
    {
      assert all[..k] == es[..k] && all[k] == es[k] && all[m] == es[m];
      assert k > m ==> Waits(l, s, es, ev.p, k);
      assert !Overlap(l, s, all, m, k, n);
    }
    TablesStay(l, s, es, m, n);
  }

  lemma {:induction false} CommittingStillAccepted(l: Ledger, s: State, es: seq<Event>, ev: Event, j: nat)
    requires Sound(s) && HonestRun(l, s, es) && NoOverlap(l, s, es + [ev])
    requires CommitsNow(RunFrom(l, true, s, es), ev) && j < |RunFrom(l, true, s, es).TxOf(ev.p).calls|
    ensures var w := RunFrom(l, true, s, es);
      AcceptedAt(l, w.db, w.TxOf(ev.p).calls, j)
  {
    var calls := RunFrom(l, true, s, es).TxOf(ev.p).calls;
    if !HoldOp(calls[j].op) {
      var m := WasAccepted(l, s, es, ev.p, j);
      NothingBetween(l, s, es, ev, calls[..j], calls[j], m);
    }
  }

  lemma {:induction false} AcceptedOne(l: Ledger, s: State, calls: seq<Call>, c: Call, t: State)
    requires AllAccepted(l, s, calls) && t == Serial(s, calls) && Accepts(l, t, c.op)
    ensures AllAccepted(l, s, calls + [c])
  {
    assert (calls + [c])[..|calls|] == calls;
  }

  ghost predicate AcceptedAt(l: Ledger, t: State, calls: seq<Call>, j: nat)
    requires j < |calls|
  {
    Accepts(l, Serial(t, calls[..j]), calls[j].op)
  }

  lemma {:induction false} AcceptedConcat(l: Ledger, s: State, xs: seq<Call>, ys: seq<Call>, n: nat)
    requires AllAccepted(l, s, xs) && n <= |ys| && forall j :: 0 <= j < n ==> AcceptedAt(l, Serial(s, xs), ys, j)
    ensures AllAccepted(l, s, xs + ys[..n])
  {
    if n == 0 {
      assert xs + ys[..0] == xs;
    } else {
      AcceptedConcat(l, s, xs, ys, n - 1);
      AcceptedMore(l, s, xs, ys, n - 1);
    }
  }

  lemma {:induction false} AcceptedMore(l: Ledger, s: State, xs: seq<Call>, ys: seq<Call>, n: nat)
    requires n < |ys| && AllAccepted(l, s, xs + ys[..n]) && AcceptedAt(l, Serial(s, xs), ys, n)
    ensures AllAccepted(l, s, xs + ys[..n + 1])
  {
    SerialConcat(s, xs, ys[..n]);
    AcceptedOne(l, s, xs + ys[..n], ys[n], Serial(Serial(s, xs), ys[..n]));
    LastOfConcat(xs, ys[..n + 1]);
    assert ys[..n + 1][..n] == ys[..n];
  }

  /** Honest runs without such overlaps commit serial histories of the code. */
  lemma {:induction false} ApartIsHistory(l: Ledger, s: State, es: seq<Event>)
    requires Sound(s) && HonestRun(l, s, es) && NoOverlap(l, s, es)
    ensures AllCommit(l, s, RunFrom(l, true, s, es).committed)
  {
    ApartIsAccepted(l, s, es);
    HistoryIff(l, s, es);
  }

  lemma {:induction false} ApartIsAccepted(l: Ledger, s: State, es: seq<Event>)
    requires Sound(s) && HonestRun(l, s, es) && NoOverlap(l, s, es)
    ensures AllAccepted(l, s, RunFrom(l, true, s, es).committed)
  {
    if es != [] {
      var before, ev := es[..|es| - 1], es[|es| - 1];
      var w := RunFrom(l, true, s, before);
      assert es == before + [ev];
      NoOverlapBefore(l, s, es, |before|);
      ApartIsAccepted(l, s, before);
      if CommitsNow(w, ev) {
        forall j | 0 <= j < |w.TxOf(ev.p).calls|
          ensures AcceptedAt(l, w.db, w.TxOf(ev.p).calls, j)
        {
          CommittingStillAccepted(l, s, before, ev, j);
        }
        RunsAreSerial(l, s, before);
        AcceptedConcat(l, s, w.committed, w.TxOf(ev.p).calls, |w.TxOf(ev.p).calls|);
        assert w.TxOf(ev.p).calls[..|w.TxOf(ev.p).calls|] == w.TxOf(ev.p).calls;
      } else {
        TablesUntouched(l, w, ev);
      }
    }
  }

  /** From the empty ledger, such a history is one of the serial ones. */
  lemma {:induction false} SerialIsRun(l: Ledger, calls: seq<Call>)
    requires AllCommit(l, EMPTY, calls)
    ensures Serial(EMPTY, calls) == Run(l, calls)
  {
    if calls != [] {
      SerialIsRun(l, calls[..|calls| - 1]);
      StepShape(l, Run(l, calls[..|calls| - 1]), calls[|calls| - 1]);
    }
  }
}
