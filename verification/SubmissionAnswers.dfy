/**
 * What a submission that runs alone answers and leaves, case by case: the two lookups, the retried
 * transaction, the cache afterwards, the end of a conflict; and the same for an intent of a batch.
 */
module SubmissionAnswers {
  import opened Wrappers
  import opened LedgerState
  import opened Transitions
  import opened Planner
  import opened Idempotency
  import opened Batch
  import opened Answers

  /** The submission is over: these tables and this cache, this answer. */
  predicate Gives(out: (Sys, Proc), sys: Sys, r: Result<SubmitResult, Error>) {
    out.0 == sys && out.1.phase.Returned? && out.1.phase.r == r
  }

  /** A record met before any transaction answers its own input with its event, any other with an error. */
  function Hit(rec: KeyRecord, hash: Option<Hash>): Result<SubmitResult, Error> {
    if hash == Some(rec.hash) then Success(SubmitResult(rec.eventId, true)) else Failure(InvalidIdempotencyInput)
  }

  /** What is wrong with the input of an operation, whatever the tables hold. */
  predicate BadInput(l: Ledger, op: Op) {
    match op
    case Post(ps, _, _) => BadPostings(l, ps)
    case Convert(c) => BadConversion(l, c)
    case Authorize(_, _, _, amount, _) => amount <= 0
    case Capture(_, amount, _) => amount <= 0
    case _ => false
  }

  /**
   * Bad input is refused, then a sealed ledger refuses; then the cache, whose failure is a miss; then the records, whose failure
   * is an error, and a matching one is cached again; then the transaction.
   */
  lemma {:induction false} LookupAnswers(l: Ledger, sys: Sys, c: Call, luck: nat -> Luck)
    ensures var out, key, hash := Alone(l, sys, Begin(l, c), luck, 0), c.env.key, c.env.hash;
      var cached := key != "" && luck(0).ok && key in sys.cache;
      var open := !BadInput(l, c.op) && !l.sealed;
      && (BadInput(l, c.op) ==> Gives(out, sys, Failure(InvalidInput)))
      && (!BadInput(l, c.op) && l.sealed ==> Gives(out, sys, Failure(LedgerSealed)))
      && (open && cached ==> Gives(out, sys, Hit(sys.cache[key], hash)))
      && (open && key != "" && !cached && !luck(1).ok ==> Gives(out, sys, Failure(StorageFault)))
      && (open && key != "" && !cached && luck(1).ok && key in sys.db.keys ==>
            var again := luck(2).ok && hash == Some(sys.db.keys[key].hash);
            Gives(out, if again then sys.(cache := sys.cache[key := sys.db.keys[key]]) else sys, Hit(sys.db.keys[key], hash)))
      && (open && key != "" && !cached && luck(1).ok && key !in sys.db.keys ==>
            out == Alone(l, sys, Proc(c, Trying(0)), luck, 2))
      && (open && key == "" ==> out == Alone(l, sys, Proc(c, Trying(0)), luck, 1))
  {
    var key := c.env.key;
    if !BadInput(l, c.op) && !l.sealed {
      var (s1, p1) := Advance(l, sys, Proc(c, Start), luck(0));
      if p1.phase.Returned? {
        AloneEnds(l, sys, Proc(c, Start), luck, 0);
      } else {
        AloneStep(l, sys, Proc(c, Start), luck, 0);
        if key != "" {
          RecordAnswers(l, sys, c, luck);
        }
      }
    }
  }

  lemma {:induction false} RecordAnswers(l: Ledger, sys: Sys, c: Call, luck: nat -> Luck)
    ensures var out, key, hash := Alone(l, sys, Proc(c, CacheMissed), luck, 1), c.env.key, c.env.hash;
      && (!luck(1).ok ==> Gives(out, sys, Failure(StorageFault)))
      && (luck(1).ok && key in sys.db.keys ==>
            var again := luck(2).ok && hash == Some(sys.db.keys[key].hash);
            Gives(out, if again then sys.(cache := sys.cache[key := sys.db.keys[key]]) else sys, Hit(sys.db.keys[key], hash)))
      && (luck(1).ok && key !in sys.db.keys ==> out == Alone(l, sys, Proc(c, Trying(0)), luck, 2))
  {
    var (s1, p1) := Advance(l, sys, Proc(c, CacheMissed), luck(1));
    if p1.phase.Returned? {
      AloneEnds(l, sys, Proc(c, CacheMissed), luck, 1);
    } else {
      AloneStep(l, sys, Proc(c, CacheMissed), luck, 1);
      if p1.phase.Found? {
        AloneEnds(l, s1, p1, luck, 2);
      }
    }
  }

  predicate Deadlocks(luck: nat -> Luck, from: nat, to: nat) { forall j: nat :: from <= j < to ==> luck(j).fault == Deadlocked }

  /** Attempt `n`, counted from 0, when the ones before it ended in deadlocks. */
  lemma {:induction false} AfterDeadlocks(l: Ledger, sys: Sys, c: Call, luck: nat -> Luck, k: nat, n: nat)
    requires n <= 5 && Deadlocks(luck, k, k + n)
    ensures Alone(l, sys, Proc(c, Trying(0)), luck, k) == Alone(l, sys, Proc(c, Trying(n)), luck, k + n)
  {
    if n > 0 {
      AfterDeadlocks(l, sys, c, luck, k, n - 1);
      DeadlockRetries(l, sys, c, n - 1, luck, k + n - 1);
    }
  }

  /** The sixth deadlock is the answer. */
  lemma {:induction false} SixDeadlocks(l: Ledger, sys: Sys, c: Call, luck: nat -> Luck, k: nat)
    requires Deadlocks(luck, k, k + 6)
    ensures Gives(Alone(l, sys, Proc(c, Trying(0)), luck, k), sys, Failure(Deadlock))
  {
    AfterDeadlocks(l, sys, c, luck, k, 5);
    AloneEnds(l, sys, Proc(c, Trying(5)), luck, k + 5);
  }

  /** The call as it runs: its own input, times and key, the identifiers of the attempt. */
  function Drawn(e: Env, ids: Env): Env {
    Env(ids.eventId, ids.txId, ids.holdId, ids.conversionId, e.now, e.validTime, e.key, e.hash)
  }

  /** An attempt that is no deadlock ends the submission, or leaves one step to its end. */
  lemma {:induction false} OneAttempt(l: Ledger, sys: Sys, c: Call, luck: nat -> Luck, k: nat, n: nat)
    requires luck(k).fault != Deadlocked
    ensures var (s1, p1) := Attempt(l, sys, Proc(c, Trying(n)), n, luck(k));
      Alone(l, sys, Proc(c, Trying(n)), luck, k) == if p1.phase.Returned? then (s1, p1) else Advance(l, s1, p1, luck(k + 1))
  {
    var (s1, p1) := Advance(l, sys, Proc(c, Trying(n)), luck(k));
    if p1.phase.Returned? {
      AloneEnds(l, sys, Proc(c, Trying(n)), luck, k);
    } else {
      AloneStep(l, sys, Proc(c, Trying(n)), luck, k);
      AloneEnds(l, s1, p1, luck, k + 1);
    }
  }

  /** An error is the answer, but for a key conflict, which the record resolves where there is one. */
  predicate Refused(out: (Sys, Proc), sys: Sys, key: string, err: Error, found: bool) {
    if err != IdempotencyKeyConflict || key == "" then Gives(out, sys, Failure(err))
    else if found && key in sys.db.keys then Gives(out, sys, Success(SubmitResult(sys.db.keys[key].eventId, true)))
    else Gives(out, sys, Failure(IdempotencyKeyConflict))
  }

  /** A dry run leaves nothing, a lost commit the tables and a fault, any other the tables, and its record in the cache. */
  predicate Done(out: (Sys, Proc), sys: Sys, c: Call, s: State, eventId: Id, lost: bool, caches: bool)
    requires Submittable(c)
  {
    if c.op.Post? && c.op.dryRun then Gives(out, sys, Success(SubmitResult("dry-run", false)))
    else if lost then Gives(out, Sys(s, sys.cache), Failure(StorageFault))
    else if c.env.key != "" && caches
    then Gives(out, Sys(s, sys.cache[c.env.key := KeyRecord(eventId, c.env.hash.value)]), Success(SubmitResult(eventId, false)))
    else Gives(out, Sys(s, sys.cache), Success(SubmitResult(eventId, false)))
  }

  lemma {:induction false} RefusedAttempt(l: Ledger, sys: Sys, c: Call, luck: nat -> Luck, k: nat, n: nat, err: Error)
    requires luck(k).fault in {Clean, CommitLost} && Apply(l, sys.db, c.op, Stamped(c, luck(k).ids)) == Failure(err)
    ensures Refused(Alone(l, sys, Proc(c, Trying(n)), luck, k), sys, c.env.key, err, luck(k + 1).ok)
  {
    OneAttempt(l, sys, c, luck, k, n);
  }

  lemma {:induction false} DoneAttempt(l: Ledger, sys: Sys, c: Call, luck: nat -> Luck, k: nat, n: nat, s: State)
    requires Submittable(c) && luck(k).fault in {Clean, CommitLost}
    requires Apply(l, sys.db, c.op, Stamped(c, luck(k).ids)) == Success(s)
    ensures Done(Alone(l, sys, Proc(c, Trying(n)), luck, k), sys, c, s, luck(k).ids.eventId, luck(k).fault == CommitLost, luck(k + 1).ok)
  {
    OneAttempt(l, sys, c, luck, k, n);
  }

  /** What an attempt that is no deadlock answers, given what its operation came to. */
  predicate Decides(out: (Sys, Proc), sys: Sys, c: Call, applied: Result<State, Error>, at: Luck, after: Luck)
    requires Submittable(c)
  {
    if at.fault == Failed then Gives(out, sys, Failure(StorageFault))
    else match applied
      case Failure(err) => Refused(out, sys, c.env.key, err, after.ok)
      case Success(s) => Done(out, sys, c, s, at.ids.eventId, at.fault == CommitLost, after.ok)
  }

  lemma {:induction false} AttemptDecides(
    l: Ledger, sys: Sys, c: Call, luck: nat -> Luck, k: nat, n: nat, applied: Result<State, Error>)
    requires Submittable(c) && luck(k).fault != Deadlocked && applied == Apply(l, sys.db, c.op, Stamped(c, luck(k).ids))
    ensures Decides(Alone(l, sys, Proc(c, Trying(n)), luck, k), sys, c, applied, luck(k), luck(k + 1))
  {
    if luck(k).fault == Failed {
      OneAttempt(l, sys, c, luck, k, n);
    } else {
      match applied
      case Failure(err) => RefusedAttempt(l, sys, c, luck, k, n, err);
      case Success(s) => DoneAttempt(l, sys, c, luck, k, n, s);
    }
  }

  /** After at most five deadlocks the attempt decides, on the call with the identifiers it drew. */
  lemma {:induction false} AttemptAnswers(
    l: Ledger, sys: Sys, c: Call, luck: nat -> Luck, k: nat, n: nat, applied: Result<State, Error>)
    requires Submittable(c) && n <= 5 && Deadlocks(luck, k, k + n) && luck(k + n).fault != Deadlocked
    requires applied == Apply(l, sys.db, c.op, Drawn(c.env, luck(k + n).ids))
    ensures Decides(Alone(l, sys, Proc(c, Trying(0)), luck, k), sys, c, applied, luck(k + n), luck(k + n + 1))
  {
    AfterDeadlocks(l, sys, c, luck, k, n);
    AttemptDecides(l, sys, c, luck, k + n, n, applied);
  }

  /** An intent of a best-effort batch is submitted with its own key; a post is never dry and is valid now. */
  lemma {:induction false} IntentIsSubmitted(l: Ledger, sys: Sys, c: Call, luck: nat -> Luck)
    requires Submittable(c)
    ensures var sent := match c.op
                        case Post(ps, reference, _) => Call(Post(ps, reference, false), Drawn(c.env, c.env).(validTime := c.env.now))
                        case _ => c;
      var (sys', r) := SubmitIntent(l, sys, Known(c), luck);
      Gives(Alone(l, sys, Begin(l, sent), luck, 0), sys', r)
    ensures SubmitIntent(l, sys, Unknown, luck) == (sys, Failure(UnsupportedIntent))
  {
    AloneReturns(l, sys, Begin(l, Plain(c)), luck, 0);
  }

  lemma {:induction false} AloneReturns(l: Ledger, sys: Sys, p: Proc, luck: nat -> Luck, k: nat)
    ensures Alone(l, sys, p, luck, k).1.phase.Returned?
    decreases Rank(p.phase)
  {
    if !p.phase.Returned? {
      var (sys', p') := Advance(l, sys, p, luck(k));
      AloneReturns(l, sys', p', luck, k + 1);
    }
  }
}
