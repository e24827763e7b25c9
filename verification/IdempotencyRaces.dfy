/**
 * Whose input a keyed success answers. The conflict path compares no hashes, so a success answers
 * its caller's input whenever all submissions of the key carry one hash, and any two submissions
 * that could both commit can race to a success that answers the other's input.
 */
module IdempotencyRaces {
  import opened Wrappers
  import opened LedgerState
  import opened Transitions
  import opened Effects
  import opened Histories
  import opened Planner
  import opened Idempotency

  // ----- one hash for a key -----

  /** Some call was submitted with this key and this hash. */
  ghost predicate Asked(evs: seq<Event>, key: string, hash: Option<Hash>) {
    exists i :: 0 <= i < |evs| && evs[i].Submit? && evs[i].call.env.key == key && evs[i].call.env.hash == hash
  }

  ghost predicate RecordsAsked(evs: seq<Event>, db: State) {
    forall k :: k in db.keys ==> Asked(evs, k, Some(db.keys[k].hash))
  }

  ghost predicate ProcsAsked(evs: seq<Event>, procs: map<nat, Proc>) {
    forall pid :: pid in procs ==> Asked(evs, procs[pid].call.env.key, procs[pid].call.env.hash)
  }

  lemma {:induction false} AskedOnceMore(evs: seq<Event>, key: string, hash: Option<Hash>)
    requires evs != [] && Asked(evs[..|evs| - 1], key, hash)
    ensures Asked(evs, key, hash)
  {
    var n := |evs| - 1;
    var i :| 0 <= i < n && evs[..n][i].Submit? && evs[..n][i].call.env.key == key && evs[..n][i].call.env.hash == hash;
    assert evs[i] == evs[..n][i];
  }

  lemma {:induction false} StepRecords(l: Ledger, s: State, c: Call, k: string)
    requires k in Step(l, s, c).keys
    ensures (k in s.keys && Step(l, s, c).keys[k] == s.keys[k])
            || (k == c.env.key && c.env.hash == Some(Step(l, s, c).keys[k].hash))
  {
    StepShape(l, s, c);
  }

  /** A step of a submission records nothing but its own hash under its own key. */
  lemma {:induction false} AdvanceRecords(l: Ledger, sys: Sys, p: Proc, luck: Luck, k: string)
    requires k in Advance(l, sys, p, luck).0.db.keys
    ensures var db := Advance(l, sys, p, luck).0.db;
            (k in sys.db.keys && db.keys[k] == sys.db.keys[k])
            || (k == p.call.env.key && p.call.env.hash == Some(db.keys[k].hash))
    ensures Advance(l, sys, p, luck).1.call == p.call
  {
    if Advance(l, sys, p, luck).0.db != sys.db {
      StepRecords(l, sys.db, Call(p.call.op, Stamped(p.call, luck.ids)), k);
    }
  }

  lemma {:induction false} NextProcsAsked(l: Ledger, evs: seq<Event>, w: World)
    requires evs != [] && ProcsAsked(evs[..|evs| - 1], w.procs)
    ensures ProcsAsked(evs, Next(l, w, evs[|evs| - 1]).procs)
  {
    var procs := Next(l, w, evs[|evs| - 1]).procs;
    forall pid | pid in procs
      ensures Asked(evs, procs[pid].call.env.key, procs[pid].call.env.hash)
    {
      if pid in w.procs {
        AskedOnceMore(evs, w.procs[pid].call.env.key, w.procs[pid].call.env.hash);
      }
    }
  }

  lemma {:induction false} NextRecordsAsked(l: Ledger, evs: seq<Event>, w: World)
    requires evs != [] && RecordsAsked(evs[..|evs| - 1], w.sys.db) && ProcsAsked(evs[..|evs| - 1], w.procs)
    ensures RecordsAsked(evs, Next(l, w, evs[|evs| - 1]).sys.db)
  {
    var ev := evs[|evs| - 1];
    var db := Next(l, w, ev).sys.db;
    forall k | k in db.keys
      ensures Asked(evs, k, Some(db.keys[k].hash))
    {
      match ev
      case Act(pid, luck) =>
        if pid in w.procs {
          AdvanceRecords(l, w.sys, w.procs[pid], luck, k);
        }
      case Direct(c) =>
        if c.env.hash.None? {
          StepRecords(l, w.sys.db, c, k);
        }
      case _ =>
      AskedOnceMore(evs, k, Some(db.keys[k].hash));
    }
  }

  /** Every record holds the hash of some submission of its key, whatever happened in between. */
  lemma {:induction false} RecordsAreAsked(l: Ledger, evs: seq<Event>)
    ensures RecordsAsked(evs, RunWorld(l, evs).sys.db) && ProcsAsked(evs, RunWorld(l, evs).procs)
  {
    if evs != [] {
      RecordsAreAsked(l, evs[..|evs| - 1]);
      NextProcsAsked(l, evs, RunWorld(l, evs[..|evs| - 1]));
      NextRecordsAsked(l, evs, RunWorld(l, evs[..|evs| - 1]));
    }
  }

  ghost predicate OneHash(evs: seq<Event>, key: string) {
    forall h, h' :: Asked(evs, key, h) && Asked(evs, key, h') ==> h == h'
  }

  /** With one hash for a key, every real success answers its caller's input, by whichever path it came. */
  lemma {:induction false} OneHashAnswersOwnInput(l: Ledger, evs: seq<Event>, pid: nat)
    requires pid in RunWorld(l, evs).procs && RealSuccess(RunWorld(l, evs).procs[pid])
    requires OneHash(evs, RunWorld(l, evs).procs[pid].call.env.key)
    ensures AnswersOwnInput(RunWorld(l, evs), pid)
  {
    AtMostOncePerKey(l, evs);
    RecordsAreAsked(l, evs);
  }

  /** The record behind a success carries the caller's own hash. */
  ghost predicate AnswersOwnInput(w: World, pid: nat)
    requires pid in w.procs
  {
    var c := w.procs[pid].call;
    c.env.key in w.sys.db.keys && Some(w.sys.db.keys[c.env.key].hash) == c.env.hash
  }

  // ----- two hashes for a key -----

  /** Without its key the call would commit: no guard but the key stands against it. */
  predicate OnlyKeyStands(l: Ledger, s: State, op: Op, e: Env) {
    WritesEvent(s, op) && !op.Expire? && Apply(l, s, op, e.(key := "", hash := None)).Success?
  }

  lemma {:induction false} KeyCollides(s: State, e: Env, validTime: Time, payload: Payload, i: nat)
    requires i < |s.log| && s.log[i].key == e.key != ""
    ensures AppendEvent(s, e, validTime, payload) == Failure(IdempotencyKeyConflict)
  {
    assert Collides(s.log, EventFor(s, e, validTime, payload));
  }

  /** Such a call meets a taken key as a conflict, after all its other checks. */
  lemma {:induction false} TakenKeyConflicts(l: Ledger, s: State, op: Op, e: Env, i: nat)
    requires OnlyKeyStands(l, s, op, e) && i < |s.log| && s.log[i].key == e.key != ""
    ensures Apply(l, s, op, e) == Failure(IdempotencyKeyConflict)
  {
    KeyCollides(s, e, EventTime(s, op, e), PayloadOf(s, op, e), i);
    match op
    case Post(ps, reference, _) => assert ApplyPost(l, s, ps, reference, false, e) == Failure(IdempotencyKeyConflict);
    case Convert(c) => assert ApplyConvert(l, s, c, e) == Failure(IdempotencyKeyConflict);
    case Capture(holdId, amount, destination) =>
      assert ApplyCapture(l, s, holdId, amount, destination, e) == Failure(IdempotencyKeyConflict);
    case Revert(txId, force, atEffectiveDate) =>
      assert ApplyRevert(l, s, txId, force, atEffectiveDate, e) == Failure(IdempotencyKeyConflict);
    case _ =>
  }

  /** A committed call leaves an event and a record under its key. */
  lemma {:induction false} WinnerRecords(l: Ledger, s: State, c: Call)
    requires LogSound(s) && Submittable(c) && c.env.key != "" && Apply(l, s, c.op, c.env).Success? && !DryRun(c.op)
    ensures var s' := Step(l, s, c);
            && c.env.key in s'.keys && s'.keys[c.env.key] == KeyRecord(c.env.eventId, c.env.hash.value)
            && |s'.log| == |s.log| + 1 && s'.log[|s.log|].key == c.env.key
  {
    StepShape(l, s, c);
    CommitRecords(l, s, c);
  }

  function Quick(ids: Env): Luck { Luck(true, Clean, ids) }

  lemma {:induction false} GoesThroughIsValid(l: Ledger, s: State, op: Op, e: Env)
    requires Apply(l, s, op, e).Success?
    ensures ValidInput(l, op)
  {
  }

  /** A new process whose key is in neither tier goes on to its transaction. */
  lemma {:induction false} Enters(l: Ledger, w: World, pid: nat, c: Call, ids: Env)
    requires ValidInput(l, c.op) && !l.sealed && Submittable(c) && c.env.key != "" && pid !in w.procs
    requires c.env.key !in w.sys.db.keys && c.env.key !in w.sys.cache
    ensures var a := Act(pid, Quick(ids));
            Next(l, Next(l, Next(l, w, Submit(pid, c)), a), a) == World(w.sys, w.procs[pid := Proc(c, Trying(0))])
  {
    var w1 := Next(l, w, Submit(pid, c));
    assert w1 == World(w.sys, w.procs[pid := Proc(c, Start)]);
    var w2 := Next(l, w1, Act(pid, Quick(ids)));
    assert w2 == World(w.sys, w1.procs[pid := Proc(c, CacheMissed)]);
    assert w2.procs[pid := Proc(c, Trying(0))] == w.procs[pid := Proc(c, Trying(0))];
  }

  lemma {:induction false} OneMore(l: Ledger, evs: seq<Event>, ev: Event)
    ensures RunWorld(l, evs + [ev]) == Next(l, RunWorld(l, evs), ev)
  {
    assert (evs + [ev])[..|evs|] == evs;
  }

  lemma {:induction false} EntersRun(l: Ledger, evs: seq<Event>, pid: nat, c: Call, ids: Env) returns (run: seq<Event>)
    requires ValidInput(l, c.op) && !l.sealed && Submittable(c) && c.env.key != "" && pid !in RunWorld(l, evs).procs
    requires c.env.key !in RunWorld(l, evs).sys.db.keys && c.env.key !in RunWorld(l, evs).sys.cache
    ensures evs <= run
    ensures RunWorld(l, run) == World(RunWorld(l, evs).sys, RunWorld(l, evs).procs[pid := Proc(c, Trying(0))])
  {
    var a := Act(pid, Quick(ids));
    Enters(l, RunWorld(l, evs), pid, c, ids);
    OneMore(l, evs, Submit(pid, c));
    OneMore(l, evs + [Submit(pid, c)], a);
    OneMore(l, evs + [Submit(pid, c)] + [a], a);
    run := evs + [Submit(pid, c)] + [a] + [a];
  }

  /** The winner commits. */
  lemma {:induction false} WinnerActs(l: Ledger, w: World, p: nat, a: Call, ids: Env)
    requires p in w.procs && w.procs[p] == Proc(a, Trying(0)) && a.env.key != "" && !DryRun(a.op)
    requires Apply(l, w.sys.db, a.op, Stamped(a, ids)).Success?
    ensures var w' := Next(l, w, Act(p, Quick(ids)));
            && w'.sys.db == Step(l, w.sys.db, Call(a.op, Stamped(a, ids)))
            && forall q :: q in w.procs && q != p ==> q in w'.procs && w'.procs[q] == w.procs[q]
  {
  }

  /** The loser conflicts and is answered with the record. */
  lemma {:induction false} LoserActs(l: Ledger, w: World, q: nat, b: Call, ids: Env)
    requires q in w.procs && w.procs[q] == Proc(b, Trying(0)) && b.env.key != "" && b.env.key in w.sys.db.keys
    requires Apply(l, w.sys.db, b.op, Stamped(b, ids)) == Failure(IdempotencyKeyConflict)
    ensures var w' := Next(l, Next(l, w, Act(q, Quick(ids))), Act(q, Quick(ids)));
            && w'.sys == w.sys && q in w'.procs
            && w'.procs[q] == Proc(b, Returned(Success(SubmitResult(w.sys.db.keys[b.env.key].eventId, true)), true))
  {
    assert Attempt(l, w.sys, w.procs[q], 0, Quick(ids)) == (w.sys, Proc(b, Conflicted));
  }

  /**
   * After any run, two calls with a fresh key of which the second could commit after the first
   * but for the key: some continuation answers the second with the first's event, and so answers
   * its own input exactly when the two hashes are equal.
   */
  lemma {:induction false} RaceAnswersWinner(
    l: Ledger, evs: seq<Event>, p: nat, a: Call, q: nat, b: Call, idsA: Env, idsB: Env) returns (run: seq<Event>)
    requires !l.sealed && Submittable(a) && Submittable(b) && a.env.key == b.env.key != ""
    requires p != q && p !in RunWorld(l, evs).procs && q !in RunWorld(l, evs).procs
    requires a.env.key !in RunWorld(l, evs).sys.db.keys
    requires !DryRun(a.op) && !DryRun(b.op) && Apply(l, RunWorld(l, evs).sys.db, a.op, Stamped(a, idsA)).Success?
    requires OnlyKeyStands(l, Step(l, RunWorld(l, evs).sys.db, Call(a.op, Stamped(a, idsA))), b.op, Stamped(b, idsB))
    ensures evs <= run && q in RunWorld(l, run).procs
    ensures RunWorld(l, run).procs[q] == Proc(b, Returned(Success(SubmitResult(idsA.eventId, true)), true))
    ensures AnswersOwnInput(RunWorld(l, run), q) <==> a.env.hash == b.env.hash
  {
    var w := RunWorld(l, evs);
    AtMostOncePerKey(l, evs);
    assert a.env.key !in w.sys.cache;
    GoesThroughIsValid(l, w.sys.db, a.op, Stamped(a, idsA));
    GoesThroughIsValid(l, Step(l, w.sys.db, Call(a.op, Stamped(a, idsA))), b.op, Stamped(b, idsB).(key := "", hash := None));
    var run1 := EntersRun(l, evs, p, a, idsA);
    var run2 := EntersRun(l, run1, q, b, idsB);
    var won := Call(a.op, Stamped(a, idsA));
    WinnerRecords(l, w.sys.db, won);
    WinnerActs(l, RunWorld(l, run2), p, a, idsA);
    OneMore(l, run2, Act(p, Quick(idsA)));
    var run3 := run2 + [Act(p, Quick(idsA))];
    TakenKeyConflicts(l, Step(l, w.sys.db, won), b.op, Stamped(b, idsB), |w.sys.db.log|);
    LoserActs(l, RunWorld(l, run3), q, b, idsB);
    OneMore(l, run3, Act(q, Quick(idsB)));
    OneMore(l, run3 + [Act(q, Quick(idsB))], Act(q, Quick(idsB)));
    run := run3 + [Act(q, Quick(idsB))] + [Act(q, Quick(idsB))];
  }

  function Reserving(l: Ledger, source: Account, amount: int, key: string, hash: Hash): Call {
    Call(Authorize(source, "", "", amount, 0), Env("", "", "", "", 0, 0, key, Some(hash)))
  }

  function Ids(id: Id): Env { Env(id, id, id, id, 0, 0, "", None) }

  /** Such calls exist on every open ledger with an issuer: two reservations from it. */
  lemma {:induction false} ResolvedInputDiffers(l: Ledger, source: Account, key: string, h: Hash, h': Hash)
    returns (run: seq<Event>)
    requires !l.sealed && IsIssuer(l, source) && key != "" && h != h'
    ensures 1 in RunWorld(l, run).procs && RealSuccess(RunWorld(l, run).procs[1])
    ensures RunWorld(l, run).procs[1].call.env.key == key && !AnswersOwnInput(RunWorld(l, run), 1)
  {
    var a, b := Reserving(l, source, 1, key, h), Reserving(l, source, 1, key, h');
    var s := Step(l, EMPTY, Call(a.op, Stamped(a, Ids("1"))));
    assert OnlyKeyStands(l, s, b.op, Stamped(b, Ids("2")));
    run := RaceAnswersWinner(l, [], 0, a, 1, b, Ids("1"), Ids("2"));
  }
}
