/**
 * Batches. ALL_OR_NOTHING runs every intent in one transaction, BEST_EFFORT each in its own.
 * The first refines the second: it commits the same state when nothing fails and nothing at
 * all otherwise, and it fails exactly where the second fails first.
 */
module Batch {
  import opened Wrappers
  import opened LedgerState
  import opened Transitions
  import opened Store
  import opened Planner
  import opened Idempotency

  /** An operation the batch knows, or a type string it does not. */
  datatype Intent = Known(call: Call) | Unknown

  datatype IntentResult = IntentResult(success: bool, error: Option<Error>)

  const PENDING := IntentResult(false, None)

  datatype Report = Report(results: seq<IntentResult>, successes: nat, failures: nat)

  datatype Outcome = Done(report: Report) | FailedAt(index: nat, error: Error, results: seq<IntentResult>) | Refused(error: Error)

  /** A post intent is never dry and has no valid time but now. */
  function Plain(c: Call): Call {
    if c.op.Post? then Call(c.op.(dryRun := false), c.env.(validTime := c.env.now)) else c
  }

  /** Inside a batch transaction only a post keeps its key, and nothing records it. */
  function InBatch(c: Call): Call {
    Plain(c).(env := if c.op.Post? then Plain(c).env.(hash := None) else c.env.(key := "", hash := None))
  }

  /** An expiry is no operation of a batch. */
  function ApplyIntent(l: Ledger, s: State, it: Intent): Result<State, Error> {
    match it
    case Known(c) => if c.op.Expire? then Failure(UnsupportedIntent) else Apply(l, s, InBatch(c).op, InBatch(c).env)
    case Unknown => Failure(UnsupportedIntent)
  }

  /** One intent through the standalone write path. */
  function SubmitIntent(l: Ledger, sys: Sys, it: Intent, luck: nat -> Luck): (Sys, Result<SubmitResult, Error>) {
    match it
    case Unknown => (sys, Failure(UnsupportedIntent))
    case Known(c) =>
      var (sys', p) := Alone(l, sys, Begin(l, Plain(c)), luck, 0);
      (sys', if p.phase.Returned? then p.phase.r else Failure(StorageFault))
  }

  function ResultOf(r: Result<SubmitResult, Error>): IntentResult {
    match r case Success(_) => IntentResult(true, None) case Failure(err) => IntentResult(false, Some(err))
  }

  // ----- what the two modes compute -----

  /** Each intent against what the ones before it committed; `luck(i)` is what intent `i` meets. */
  function BestEffort(l: Ledger, sys: Sys, its: seq<Intent>, luck: nat -> nat -> Luck): Sys {
    if its == [] then sys
    else var n := |its| - 1; SubmitIntent(l, BestEffort(l, sys, its[..n], luck), its[n], luck(n)).0
  }

  function BestEffortResults(l: Ledger, sys: Sys, its: seq<Intent>, luck: nat -> nat -> Luck): (r: seq<IntentResult>)
    ensures |r| == |its|
  {
    if its == [] then []
    else
      var n := |its| - 1;
      BestEffortResults(l, sys, its[..n], luck)
      + [ResultOf(SubmitIntent(l, BestEffort(l, sys, its[..n], luck), its[n], luck(n)).1)]
  }

  function Count(results: seq<IntentResult>, success: bool): nat {
    if results == [] then 0
    else Count(results[..|results| - 1], success) + if results[|results| - 1].success == success then 1 else 0
  }

  /** The state inside the shared transaction after all intents, or the first failure. */
  function AllOrNothing(l: Ledger, s: State, its: seq<Intent>): Result<State, (nat, Error)> {
    if its == [] then Success(s)
    else
      var before :- AllOrNothing(l, s, its[..|its| - 1]);
      match ApplyIntent(l, before, its[|its| - 1])
      case Success(s') => Success(s')
      case Failure(err) => Failure((|its| - 1, err))
  }

  /** The result table of a batch of `n` whose first `done` intents went through. */
  function Finished(n: nat, done: nat): (r: seq<IntentResult>)
    ensures |r| == n && forall j :: 0 <= j < n ==> r[j] == if j < done then IntentResult(true, None) else PENDING
  {
    seq(n, j => if j < done then IntentResult(true, None) else PENDING)
  }

  lemma {:induction false} FinishedOneMore(n: nat, i: nat)
    requires i < n
    ensures Finished(n, i)[i := IntentResult(true, None)] == Finished(n, i + 1)
  {
  }

  /** One intent more in the shared transaction; a failure is the failure of the whole batch. */
  lemma {:induction false} IntentOneMore(l: Ledger, s: State, its: seq<Intent>, i: nat, mid: State, one: Result<State, Error>)
    requires i < |its| && AllOrNothing(l, s, its[..i]) == Success(mid) && one == ApplyIntent(l, mid, its[i])
    ensures one.Success? ==> AllOrNothing(l, s, its[..i + 1]) == Success(one.value)
    ensures one.Failure? ==> AllOrNothing(l, s, its) == Failure((i, one.error))
  {
    assert its[..i + 1][..i] == its[..i];
    if one.Failure? {
      FailureStops(l, s, its, i + 1);
    }
  }

  /** What an atomic batch leaves and answers, when its commit meets `commit`. */
  function Atomic(l: Ledger, s: State, its: seq<Intent>, commit: Fault): (State, Outcome) {
    match AllOrNothing(l, s, its)
    case Failure((i, err)) => (s, FailedAt(i, err, Finished(|its|, i)))
    case Success(s') =>
      match commit
      case Clean => (s', Done(Report(Finished(|its|, |its|), |its|, 0)))
      case CommitLost => (s', Refused(StorageFault))
      case Deadlocked => (s, Refused(Deadlock))
      case Failed => (s, Refused(StorageFault))
  }

  // ----- the methods -----

  method ExecuteIntentInTx(l: Ledger, tx: TxStore, it: Intent) returns (r: Result<SubmitResult, Error>)
    modifies tx
    ensures Computes(r, tx.View(), ApplyIntent(l, old(tx.View()), it))
  {
    match it
    case Known(c) =>
      if c.op.Expire? { return Failure(UnsupportedIntent); }
      r := ApplyInTx(l, tx, InBatch(c));
    case Unknown => return Failure(UnsupportedIntent);
  }

  method ExecuteIntent(l: Ledger, db: Database, cache: Cache, it: Intent, luck: nat -> Luck)
    returns (r: Result<SubmitResult, Error>)
    requires it.Known? ==> Submittable(it.call)
    modifies db, cache
    ensures (Sys(db.committed, cache.entries), r) == SubmitIntent(l, Sys(old(db.committed), old(cache.entries)), it, luck)
  {
    match it
    case Known(c) => r := SubmitWithIdempotency(l, db, cache, Plain(c), luck);
    case Unknown => return Failure(UnsupportedIntent);
  }

  /** ALL_OR_NOTHING: commits all intents or drops the transaction at the first failure. */
  method SubmitAllOrNothing(l: Ledger, db: Database, its: seq<Intent>, commit: Fault) returns (out: Outcome)
    requires !l.sealed
    modifies db
    ensures (db.committed, out) == Atomic(l, old(db.committed), its, commit)
  {
    var results := seq(|its|, i => PENDING);
    ghost var start := db.committed;
    var tx := db.BeginTx();
    for i := 0 to |its|
      invariant results == Finished(|its|, i)
      invariant AllOrNothing(l, start, its[..i]) == Success(tx.View())
      invariant db.committed == start
    {
      IntentOneMore(l, start, its, i, tx.View(), ApplyIntent(l, tx.View(), its[i]));
      var r := ExecuteIntentInTx(l, tx, its[i]);
      if r.Failure? {
        return FailedAt(i, r.error, results);
      }
      FinishedOneMore(|its|, i);
      results := results[i := IntentResult(true, None)];
    }
    assert its[..|its|] == its;
    match commit
    case Deadlocked => return Refused(Deadlock);
    case Failed => return Refused(StorageFault);
    case CommitLost =>
      db.Commit(tx);
      return Refused(StorageFault);
    case Clean =>
      db.Commit(tx);
      return Done(Report(results, |its|, 0));
  }

  lemma {:induction false} FailureStops(l: Ledger, s: State, its: seq<Intent>, i: nat)
    requires i <= |its| && AllOrNothing(l, s, its[..i]).Failure?
    ensures AllOrNothing(l, s, its) == AllOrNothing(l, s, its[..i])
  {
    if i == |its| {
      assert its[..i] == its;
    } else {
      assert its[..|its| - 1][..i] == its[..i];
      FailureStops(l, s, its[..|its| - 1], i);
    }
  }

  ghost predicate AllSubmittable(its: seq<Intent>) {
    forall i :: 0 <= i < |its| && its[i].Known? ==> Submittable(its[i].call)
  }

  /** BEST_EFFORT: every intent in its own transaction, failures recorded and passed over. */
  method SubmitBestEffort(l: Ledger, db: Database, cache: Cache, its: seq<Intent>, luck: nat -> nat -> Luck)
    returns (out: Outcome)
    requires !l.sealed && AllSubmittable(its)
    modifies db, cache
    ensures var start := Sys(old(db.committed), old(cache.entries));
            var results := BestEffortResults(l, start, its, luck);
            && Sys(db.committed, cache.entries) == BestEffort(l, start, its, luck)
            && out == Done(Report(results, Count(results, true), Count(results, false)))
  {
    var results := seq(|its|, i => PENDING);
    var successes, failures := 0, 0;
    ghost var start := Sys(db.committed, cache.entries);
    for i := 0 to |its|
      invariant |results| == |its|
      invariant Sys(db.committed, cache.entries) == BestEffort(l, start, its[..i], luck)
      invariant results[..i] == BestEffortResults(l, start, its[..i], luck)
      invariant successes == Count(results[..i], true) && failures == Count(results[..i], false)
    {
      BestEffortOneMore(l, start, its, luck, i);
      ghost var before := results[..i];
      var r := ExecuteIntent(l, db, cache, its[i], luck(i));
      CountOneMore(before, ResultOf(r));
      if r.Failure? {
        results := results[i := IntentResult(false, Some(r.error))];
        failures := failures + 1;
      } else {
        results := results[i := IntentResult(true, None)];
        successes := successes + 1;
      }
      assert results[..i + 1] == before + [ResultOf(r)];
    }
    assert its[..|its|] == its && results[..|its|] == results;
    return Done(Report(results, successes, failures));
  }

  lemma {:induction false} BestEffortOneMore(l: Ledger, sys: Sys, its: seq<Intent>, luck: nat -> nat -> Luck, i: nat)
    requires i < |its|
    ensures var (sys', r) := SubmitIntent(l, BestEffort(l, sys, its[..i], luck), its[i], luck(i));
            && BestEffort(l, sys, its[..i + 1], luck) == sys'
            && BestEffortResults(l, sys, its[..i + 1], luck) == BestEffortResults(l, sys, its[..i], luck) + [ResultOf(r)]
  {
    assert its[..i + 1][..i] == its[..i];
  }

  lemma {:induction false} CountOneMore(results: seq<IntentResult>, r: IntentResult)
    ensures Count(results + [r], true) == Count(results, true) + if r.success then 1 else 0
    ensures Count(results + [r], false) == Count(results, false) + if r.success then 0 else 1
  {
    assert (results + [r])[..|results|] == results;
  }

  method SubmitBatch(
    l: Ledger, db: Database, cache: Cache, its: seq<Intent>, mode: string, commit: Fault, luck: nat -> nat -> Luck)
    returns (out: Outcome)
    requires AllSubmittable(its)
    modifies db, cache
    ensures l.sealed || (mode != "ALL_OR_NOTHING" && mode != "BEST_EFFORT") ==>
              db.committed == old(db.committed) && cache.entries == old(cache.entries)
              && out == Refused(if l.sealed then LedgerSealed else UnsupportedMode)
    ensures !l.sealed && mode == "ALL_OR_NOTHING" ==>
              (db.committed, out) == Atomic(l, old(db.committed), its, commit) && cache.entries == old(cache.entries)
    ensures !l.sealed && mode == "BEST_EFFORT" ==>
              var start := Sys(old(db.committed), old(cache.entries));
              var results := BestEffortResults(l, start, its, luck);
              && Sys(db.committed, cache.entries) == BestEffort(l, start, its, luck)
              && out == Done(Report(results, Count(results, true), Count(results, false)))
  {
    if l.sealed { return Refused(LedgerSealed); }
    if mode == "ALL_OR_NOTHING" {
      out := SubmitAllOrNothing(l, db, its, commit);
    } else if mode == "BEST_EFFORT" {
      out := SubmitBestEffort(l, db, cache, its, luck);
    } else {
      out := Refused(UnsupportedMode);
    }
  }

  // ----- a committed batch is a history -----

  /** The calls of the intents a batch knows. */
  function CallsOf(its: seq<Intent>): seq<Call> {
    if its == [] then []
    else
      var n := |its| - 1;
      CallsOf(its[..n]) + if its[n].Known? then [InBatch(its[n].call)] else []
  }

  lemma {:induction false} RunOneMore(l: Ledger, calls: seq<Call>, more: seq<Call>, c: Call)
    ensures Run(l, calls + (more + [c])) == Step(l, Run(l, calls + more), c)
  {
    assert (calls + (more + [c]))[..|calls| + |more|] == calls + more;
  }

  /** The shared transaction goes through the states its calls would go through one by one. */
  lemma {:induction false} BatchIsHistory(l: Ledger, calls: seq<Call>, its: seq<Intent>)
    requires AllOrNothing(l, Run(l, calls), its).Success?
    ensures AllOrNothing(l, Run(l, calls), its).value == Run(l, calls + CallsOf(its))
  {
    if its == [] {
      assert calls + [] == calls;
    } else {
      var n := |its| - 1;
      BatchIsHistory(l, calls, its[..n]);
      assert its[n].Known?;
      RunOneMore(l, calls, CallsOf(its[..n]), InBatch(its[n].call));
    }
  }

  // ----- refinement -----

  ghost predicate FirstFailure(results: seq<IntentResult>, i: nat) {
    i < |results| && !results[i].success && forall j :: 0 <= j < i ==> results[j].success
  }

  /** Intents as the batch API has them, without idempotency keys. */
  predicate Keyless(it: Intent) { it.Known? ==> it.call.env.key == "" && !it.call.op.Expire? }

  /** No transient fault, and the identifiers the atomic batch would draw. */
  ghost predicate Calm(its: seq<Intent>, luck: nat -> nat -> Luck) {
    forall i :: 0 <= i < |its| && its[i].Known? ==>
      luck(i)(1).fault == Clean && Stamped(Plain(its[i].call), luck(i)(1).ids) == Plain(its[i].call).env
  }

  /** Without a key the standalone path is one plain transaction. */
  lemma {:induction false} KeylessSubmit(l: Ledger, sys: Sys, it: Intent, luck: nat -> Luck)
    requires !l.sealed && Keyless(it)
    requires it.Known? ==> luck(1).fault == Clean && Stamped(Plain(it.call), luck(1).ids) == Plain(it.call).env
    ensures var (sys', r) := SubmitIntent(l, sys, it, luck);
            match ApplyIntent(l, sys.db, it)
            case Success(s) => sys' == sys.(db := s) && r.Success?
            case Failure(err) => sys' == sys && r == Failure(err)
  {
    if it.Known? {
      var c := Plain(it.call);
      AloneStep(l, sys, Proc(c, Start), luck, 0);
      AloneEnds(l, sys, Proc(c, Trying(0)), luck, 1);
      HashUnused(l, sys.db, it.call);
    }
  }

  lemma {:induction false} PostIgnoresHash(l: Ledger, s: State, ps: seq<Posting>, reference: string, dryRun: bool, e: Env)
    requires e.key == ""
    ensures ApplyPost(l, s, ps, reference, dryRun, e) == ApplyPost(l, s, ps, reference, dryRun, e.(hash := None))
  {
  }

  lemma {:induction false} ConvertIgnoresHash(l: Ledger, s: State, c: ConvertParams, e: Env)
    requires e.key == ""
    ensures ApplyConvert(l, s, c, e) == ApplyConvert(l, s, c, e.(hash := None))
  {
    assert ConversionRows(c, e) == ConversionRows(c, e.(hash := None));
  }

  lemma {:induction false} RevertIgnoresHash(l: Ledger, s: State, txId: Id, force: bool, atEffectiveDate: bool, e: Env)
    requires e.key == ""
    ensures ApplyRevert(l, s, txId, force, atEffectiveDate, e) == ApplyRevert(l, s, txId, force, atEffectiveDate, e.(hash := None))
  {
  }

  lemma {:induction false} CaptureIgnoresHash(l: Ledger, s: State, holdId: Id, amount: int, destination: Account, e: Env)
    requires e.key == ""
    ensures ApplyCapture(l, s, holdId, amount, destination, e) == ApplyCapture(l, s, holdId, amount, destination, e.(hash := None))
  {
  }

  /** Without a key the hash of a call changes nothing. */
  lemma {:induction false} HashUnused(l: Ledger, s: State, c: Call)
    requires c.env.key == "" && !c.op.Expire?
    ensures Apply(l, s, Plain(c).op, Plain(c).env) == Apply(l, s, InBatch(c).op, InBatch(c).env)
  {
    var e := Plain(c).env;
    assert InBatch(c) == Call(Plain(c).op, e.(hash := None));
    match Plain(c).op
    case Post(ps, reference, dryRun) => PostIgnoresHash(l, s, ps, reference, dryRun, e);
    case Convert(p) => ConvertIgnoresHash(l, s, p, e);
    case Capture(holdId, amount, destination) => CaptureIgnoresHash(l, s, holdId, amount, destination, e);
    case Revert(txId, force, atEffectiveDate) => RevertIgnoresHash(l, s, txId, force, atEffectiveDate, e);
    case _ =>
  }

  /** An atomic end against a best-effort end and its results. */
  ghost predicate Refines(atomic: Result<State, (nat, Error)>, sys: Sys, end: Sys, results: seq<IntentResult>) {
    match atomic
    case Success(s) => end == sys.(db := s) && forall j :: 0 <= j < |results| ==> results[j].success
    case Failure((i, err)) => FirstFailure(results, i) && results[i].error == Some(err)
  }

  /** One intent more, after which both have its outcome or the atomic batch had failed before. */
  lemma {:induction false} RefinesOneMore(
    before: Result<State, (nat, Error)>, sys: Sys, mid: Sys, results: seq<IntentResult>,
    one: Result<State, Error>, end: Sys, r: Result<SubmitResult, Error>)
    requires Refines(before, sys, mid, results)
    requires one.Success? ==> end == mid.(db := one.value) && r.Success?
    requires one.Failure? ==> end == mid && r == Failure(one.error)
    ensures var after := match before
              case Failure(f) => Failure(f)
              case Success(_) => match one case Success(s) => Success(s) case Failure(err) => Failure((|results|, err));
            Refines(after, sys, end, results + [ResultOf(r)])
  {
  }

  /**
   * From any state: the atomic batch succeeds exactly when best effort has no failure, and then
   * with the same state; otherwise it fails at best effort's first failure, with its error.
   */
  lemma {:induction false} BatchRefines(l: Ledger, sys: Sys, its: seq<Intent>, luck: nat -> nat -> Luck)
    requires !l.sealed && (forall i :: 0 <= i < |its| ==> Keyless(its[i])) && Calm(its, luck)
    ensures Refines(AllOrNothing(l, sys.db, its), sys, BestEffort(l, sys, its, luck), BestEffortResults(l, sys, its, luck))
  {
    if its != [] {
      var n := |its| - 1;
      var mid := BestEffort(l, sys, its[..n], luck);
      BatchRefines(l, sys, its[..n], luck);
      KeylessSubmit(l, mid, its[n], luck(n));
      var (end, r) := SubmitIntent(l, mid, its[n], luck(n));
      RefinesOneMore(AllOrNothing(l, sys.db, its[..n]), sys, mid, BestEffortResults(l, sys, its[..n], luck),
                     ApplyIntent(l, mid.db, its[n]), end, r);
    }
  }

  /** The counters of a best-effort report split its intents. */
  lemma {:induction false} CountsSplit(results: seq<IntentResult>)
    ensures Count(results, true) + Count(results, false) == |results|
    ensures Count(results, false) == 0 <==> forall j :: 0 <= j < |results| ==> results[j].success
  {
    if results != [] {
      var n := |results| - 1;
      CountsSplit(results[..n]);
      assert (forall j :: 0 <= j < |results| ==> results[j].success) <==>
             results[n].success && forall j :: 0 <= j < n ==> results[..n][j].success;
    }
  }

  /** An atomic batch goes through exactly when best effort reports no failure. */
  lemma {:induction false} AtomicIffNoFailure(l: Ledger, sys: Sys, its: seq<Intent>, luck: nat -> nat -> Luck)
    requires !l.sealed && (forall i :: 0 <= i < |its| ==> Keyless(its[i])) && Calm(its, luck)
    ensures AllOrNothing(l, sys.db, its).Success? <==> Count(BestEffortResults(l, sys, its, luck), false) == 0
  {
    BatchRefines(l, sys, its, luck);
    CountsSplit(BestEffortResults(l, sys, its, luck));
  }
}
