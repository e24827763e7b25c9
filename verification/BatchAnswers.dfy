/**
 * What an atomic batch runs, logs and reports, intent by intent: which key each event carries, and
 * that a key, once logged, lets no later batch with it commit.
 */
module BatchAnswers {
  import opened Wrappers
  import opened LedgerState
  import opened Transitions
  import opened Effects
  import opened Store
  import opened Idempotency
  import opened Batch
  import opened Answers

  /** An intent against one state: a post with its key, valid now, never dry; any other operation without a key; no record. */
  predicate Runs(l: Ledger, s: State, c: Call, r: Result<State, Error>) {
    match c.op
    case Expire(_) => r == Failure(UnsupportedIntent)
    case Post(ps, reference, _) =>
      r == Apply(l, s, Post(ps, reference, false), Env(
        c.env.eventId, c.env.txId, c.env.holdId, c.env.conversionId, c.env.now, c.env.now, c.env.key, None))
    case op =>
      r == Apply(l, s, op, Env(
        c.env.eventId, c.env.txId, c.env.holdId, c.env.conversionId, c.env.now, c.env.validTime, "", None))
  }

  /** The states between the first intents of a batch. */
  ghost predicate Between(l: Ledger, s: State, its: seq<Intent>, ts: seq<State>) {
    && 0 < |ts| <= |its| + 1 && ts[0] == s
    && forall i :: 0 <= i < |ts| - 1 ==> its[i].Known? && Runs(l, ts[i], its[i].call, Success(ts[i + 1]))
  }

  lemma {:induction false} ApplyRuns(l: Ledger, s: State, c: Call, r: Result<State, Error>)
    ensures r == ApplyIntent(l, s, Known(c)) <==> Runs(l, s, c, r)
  {
  }

  lemma {:induction false} BetweenOfMore(l: Ledger, s: State, its: seq<Intent>, n: nat, ts: seq<State>)
    requires n <= |its| && Between(l, s, its[..n], ts)
    ensures Between(l, s, its, ts)
  {
    assert forall i :: 0 <= i < n ==> its[..n][i] == its[i];
  }

  lemma {:induction false} BetweenOneMore(l: Ledger, s: State, its: seq<Intent>, ts: seq<State>, next: State)
    requires Between(l, s, its, ts) && |ts| <= |its| && its[|ts| - 1].Known?
    requires Runs(l, ts[|ts| - 1], its[|ts| - 1].call, Success(next))
    ensures Between(l, s, its, ts + [next])
  {
  }

  /** Through all intents, or up to the first that fails, with its index and error. */
  ghost predicate Ends(l: Ledger, its: seq<Intent>, ts: seq<State>, r: Result<State, (nat, Error)>) {
    match r
    case Success(s') => |ts| == |its| + 1 && ts[|its|] == s'
    case Failure((i, err)) =>
      i < |its| && |ts| == i + 1 && (if its[i].Known? then Runs(l, ts[i], its[i].call, Failure(err)) else err == UnsupportedIntent)
  }

  /** A batch runs its intents one after another, each on what the ones before it left. */
  lemma {:induction false} RunsInOrder(l: Ledger, s: State, its: seq<Intent>) returns (ts: seq<State>)
    ensures Between(l, s, its, ts) && Ends(l, its, ts, AllOrNothing(l, s, its))
  {
    if its == [] {
      ts := [s];
    } else {
      var n := |its| - 1;
      ts := RunsInOrder(l, s, its[..n]);
      BetweenOfMore(l, s, its, n, ts);
      var before := AllOrNothing(l, s, its[..n]);
      if before.Success? {
        var one := ApplyIntent(l, before.value, its[n]);
        if its[n].Known? {
          ApplyRuns(l, before.value, its[n].call, one);
        }
        if one.Success? {
          BetweenOneMore(l, s, its, ts, one.value);
          ts := ts + [one.value];
        }
      } else {
        assert its[before.error.0] == its[..n][before.error.0];
      }
    }
  }

  /** The answer: one success an intent, or successes before the failing one and nothing decided from it on. */
  lemma {:induction false} Reported(l: Ledger, s: State, its: seq<Intent>, commit: Fault)
    ensures var (end, out) := Atomic(l, s, its, commit);
      match AllOrNothing(l, s, its)
      case Failure((i, err)) =>
        && end == s && out.FailedAt? && out.index == i && out.error == err && |out.results| == |its|
        && forall j :: 0 <= j < |its| ==> out.results[j] == IntentResult(j < i, None)
      case Success(s') =>
        && end == (if commit in {Clean, CommitLost} then s' else s)
        && (commit != Clean ==> out == Refused(if commit == Deadlocked then Deadlock else StorageFault))
        && (commit == Clean ==>
              && out.Done? && |out.report.results| == out.report.successes == |its| && out.report.failures == 0
              && forall j :: 0 <= j < |its| ==> out.report.results[j] == IntentResult(true, None))
  {
  }

  lemma {:induction false} Counts(results: seq<IntentResult>, success: bool)
    ensures Count(results, success) == |set j | 0 <= j < |results| && results[j].success == success|
  {
    if results != [] {
      var n := |results| - 1;
      Counts(results[..n], success);
      var before := set j | 0 <= j < n && results[..n][j].success == success;
      var all := set j | 0 <= j < |results| && results[j].success == success;
      assert all == if results[n].success == success then before + {n} else before;
    }
  }

  // ----- keys -----

  /** The key of the event an intent logs. */
  predicate KeyedAs(ev: LogEvent, c: Call) {
    ev.eventId == c.env.eventId && ev.hash == None && ev.key == if c.op.Post? then c.env.key else ""
  }

  lemma {:induction false} OneLogs(l: Ledger, s: State, it: Intent, s': State)
    requires ApplyIntent(l, s, it) == Success(s')
    ensures it.Known? && |s'.log| == |s.log| + 1 && s'.log[..|s.log|] == s.log && KeyedAs(s'.log[|s.log|], it.call)
    ensures s'.keys == s.keys
  {
    CommitShape(l, s, InBatch(it.call).op, InBatch(it.call).env);
  }

  /** One event an intent, in their order. */
  predicate LogsAll(log: seq<LogEvent>, log': seq<LogEvent>, its: seq<Intent>) {
    |log'| == |log| + |its| && log'[..|log|] == log
    && forall i :: 0 <= i < |its| ==> its[i].Known? && KeyedAs(log'[|log| + i], its[i].call)
  }

  lemma {:induction false} LogsOneMore(log: seq<LogEvent>, mid: seq<LogEvent>, log': seq<LogEvent>, its: seq<Intent>)
    requires its != [] && LogsAll(log, mid, its[..|its| - 1]) && its[|its| - 1].Known?
    requires |log'| == |mid| + 1 && log'[..|mid|] == mid && KeyedAs(log'[|mid|], its[|its| - 1].call)
    ensures LogsAll(log, log', its)
  {
    var n := |its| - 1;
    assert forall i :: 0 <= i < |mid| ==> log'[i] == log'[..|mid|][i];
    forall i | 0 <= i < |its|
      ensures its[i].Known? && KeyedAs(log'[|log| + i], its[i].call)
    {
      assert i < n ==> its[..n][i] == its[i];
    }
    assert log'[..|log|] == mid[..|log|];
  }

  /** A committed batch logs one event an intent, under the key of a post and no other key, and records none. */
  lemma {:induction false} BatchLogs(l: Ledger, s: State, its: seq<Intent>, s': State)
    requires AllOrNothing(l, s, its) == Success(s')
    ensures LogsAll(s.log, s'.log, its) && s'.keys == s.keys
  {
    if its != [] {
      var n := |its| - 1;
      var before := AllOrNothing(l, s, its[..n]).value;
      BatchLogs(l, s, its[..n], before);
      OneLogs(l, before, its[n], s');
      LogsOneMore(s.log, before.log, s'.log, its);
    }
  }

  predicate HasKey(log: seq<LogEvent>, key: string) { exists i :: 0 <= i < |log| && log[i].key == key }

  lemma {:induction false} KeyStays(log: seq<LogEvent>, log': seq<LogEvent>, key: string)
    requires HasKey(log, key) && |log| <= |log'| && log'[..|log|] == log
    ensures HasKey(log', key)
  {
    var i :| 0 <= i < |log| && log[i].key == key;
    assert log'[i] == log'[..|log|][i];
  }

  lemma {:induction false} TakenKeyStops(l: Ledger, s: State, it: Intent)
    requires it.Known? && it.call.op.Post? && it.call.env.key != "" && HasKey(s.log, it.call.env.key)
    ensures ApplyIntent(l, s, it).Failure?
  {
    var c := it.call;
    var i :| 0 <= i < |s.log| && s.log[i].key == c.env.key;
    assert Taken(s.log, InBatch(c).env.eventId, InBatch(c).env.key);
    CollidesIffTaken(s, InBatch(c).env, c.env.now, TransactionPosted(c.env.txId, c.op.postings, c.op.reference));
  }

  lemma {:induction false} EndsInside(l: Ledger, s: State, its: seq<Intent>)
    ensures AllOrNothing(l, s, its).Failure? ==> AllOrNothing(l, s, its).error.0 < |its|
  {
    var _ := RunsInOrder(l, s, its);
  }

  /** A batch with a post whose key is in the log fails, at that post if not before. */
  lemma {:induction false} TakenKeyFails(l: Ledger, s: State, its: seq<Intent>, j: nat)
    requires j < |its| && its[j].Known? && its[j].call.op.Post? && its[j].call.env.key != ""
    requires HasKey(s.log, its[j].call.env.key)
    ensures AllOrNothing(l, s, its).Failure? && AllOrNothing(l, s, its).error.0 <= j
  {
    var upTo := its[..j + 1];
    assert upTo[..j] == its[..j];
    if AllOrNothing(l, s, its[..j]).Success? {
      var mid := AllOrNothing(l, s, its[..j]).value;
      BatchLogs(l, s, its[..j], mid);
      KeyStays(s.log, mid.log, its[j].call.env.key);
      TakenKeyStops(l, mid, its[j]);
    }
    EndsInside(l, s, upTo);
    FailureStops(l, s, its, j + 1);
  }

  /** So a keyed batch commits at most once: after it, whatever else commits, no batch with a post under one of its keys does. */
  lemma {:induction false} CommitsOnce(
    l: Ledger, s: State, its: seq<Intent>, s': State, i: nat, later: State, its': seq<Intent>, j: nat)
    requires AllOrNothing(l, s, its) == Success(s') && i < |its| && its[i].Known? && its[i].call.op.Post?
    requires |s'.log| <= |later.log| && later.log[..|s'.log|] == s'.log
    requires j < |its'| && its'[j].Known? && its'[j].call.op.Post?
    requires its'[j].call.env.key == its[i].call.env.key != ""
    ensures AllOrNothing(l, later, its').Failure?
  {
    BatchLogs(l, s, its, s');
    assert KeyedAs(s'.log[|s.log| + i], its[i].call);
    KeyStays(s'.log, later.log, its[i].call.env.key);
    TakenKeyFails(l, later, its', j);
  }
}
