/**
 * What every serial history keeps: a gapless log with unique events and keys, idempotency
 * records that point at their events, and holds that only move forward.
 */
module Histories {
  import opened Wrappers
  import opened LedgerState
  import opened Transitions
  import opened Effects

  // ----- the log -----

  ghost predicate Numbered(log: seq<LogEvent>) { forall i :: 0 <= i < |log| ==> log[i].seqNo == i + 1 }

  /** No event ID and no idempotency key occurs twice. */
  ghost predicate UniqueLog(log: seq<LogEvent>) {
    forall i, j :: 0 <= i < j < |log| ==>
      log[i].eventId != log[j].eventId && (log[i].key != "" ==> log[i].key != log[j].key)
  }

  ghost predicate HasEvent(log: seq<LogEvent>, eventId: Id) { exists i :: 0 <= i < |log| && log[i].eventId == eventId }

  ghost predicate RowsLogged(s: State) { forall i :: 0 <= i < |s.deltas| ==> HasEvent(s.log, s.deltas[i].eventId) }

  /** The event a record points at carries the record's key and hash. */
  ghost predicate Records(log: seq<LogEvent>, key: string, rec: KeyRecord) {
    exists i :: 0 <= i < |log| && log[i].key == key && log[i].eventId == rec.eventId && log[i].hash == Some(rec.hash)
  }

  ghost predicate KeysLogged(s: State) { forall k :: k in s.keys ==> k != "" && Records(s.log, k, s.keys[k]) }

  ghost predicate LogSound(s: State) { Numbered(s.log) && UniqueLog(s.log) && RowsLogged(s) && KeysLogged(s) }

  lemma {:induction false} NumberedMax(log: seq<LogEvent>)
    requires Numbered(log)
    ensures MaxSeq(log) == |log|
  {
    if log != [] {
      NumberedMax(log[..|log| - 1]);
    }
  }

  lemma {:induction false} StillLogged(log: seq<LogEvent>, ev: LogEvent, eventId: Id)
    requires HasEvent(log, eventId) || eventId == ev.eventId
    ensures HasEvent(log + [ev], eventId)
  {
    var log' := log + [ev];
    assert log'[|log|] == ev;
    if HasEvent(log, eventId) {
      var j :| 0 <= j < |log| && log[j].eventId == eventId;
      assert log'[j] == log[j];
    }
  }

  lemma {:induction false} CommittedRowsLogged(s: State, op: Op, e: Env)
    requires RowsLogged(s)
    ensures RowsLogged(Committed(s, op, e))
  {
    var s', rows := Committed(s, op, e), AppendedRows(s, op, e);
    LegsShareEvent(Moves(s, op), e.eventId, EventTime(s, op, e), e.now);
    forall i | 0 <= i < |s'.deltas|
      ensures HasEvent(s'.log, s'.deltas[i].eventId)
    {
      assert i >= |s.deltas| ==> s'.deltas[i] in rows;
      StillLogged(s.log, AppendedEvent(s, op, e), s'.deltas[i].eventId);
    }
  }

  lemma {:induction false} CommittedKeysLogged(s: State, op: Op, e: Env)
    requires KeysLogged(s)
    ensures KeysLogged(Committed(s, op, e))
  {
    var s', ev := Committed(s, op, e), AppendedEvent(s, op, e);
    forall k | k in s'.keys
      ensures k != "" && Records(s'.log, k, s'.keys[k])
    {
      if k in s.keys {
        var j :| 0 <= j < |s.log| && s.log[j].key == k && s.log[j].eventId == s.keys[k].eventId && s.log[j].hash == Some(s.keys[k].hash);
        assert s'.log[j] == s.log[j];
      } else {
        assert s'.log[|s.log|] == ev;
      }
    }
  }

  /** An event that meets no unique key leaves the log sound. */
  lemma {:induction false} CommittedKeepsLog(s: State, op: Op, e: Env)
    requires LogSound(s) && !Collides(s.log, AppendedEvent(s, op, e))
    ensures LogSound(Committed(s, op, e))
  {
    NumberedMax(s.log);
    CommittedRowsLogged(s, op, e);
    CommittedKeysLogged(s, op, e);
  }

  lemma {:induction false} StepKeepsLog(l: Ledger, s: State, c: Call)
    requires LogSound(s)
    ensures LogSound(Step(l, s, c))
  {
    StepShape(l, s, c);
    if Commits(l, s, c) {
      CommittedKeepsLog(s, c.op, c.env);
    }
  }

  lemma {:induction false} NewEventId(s: State, ev: LogEvent)
    requires LogSound(s) && !Collides(s.log, ev)
    ensures forall i :: 0 <= i < |s.deltas| ==> s.deltas[i].eventId != ev.eventId
  {
    forall i | 0 <= i < |s.deltas|
      ensures s.deltas[i].eventId != ev.eventId
    {
      assert HasEvent(s.log, s.deltas[i].eventId);
    }
  }

  /** In every serial history sequence numbers are 1, 2, ..., n and events, keys and records agree. */
  lemma {:induction false} GaplessLog(l: Ledger, calls: seq<Call>)
    ensures LogSound(Run(l, calls))
  {
    if calls != [] {
      GaplessLog(l, calls[..|calls| - 1]);
      StepKeepsLog(l, Run(l, calls[..|calls| - 1]), calls[|calls| - 1]);
    }
  }

  /**
   * An appended event finds no record under its key: the conflict that `RecordIdempotency`
   * swallows cannot happen once the append went through.
   */
  lemma {:induction false} RecordNeverConflicts(s: State, e: Env, validTime: Time, payload: Payload)
    requires LogSound(s) && e.key != "" && AppendEvent(s, e, validTime, payload).Success?
    ensures e.key !in s.keys
  {
    var ev := EventFor(s, e, validTime, payload);
    assert !Collides(s.log, ev);
    assert forall i :: 0 <= i < |s.log| ==> s.log[i].key != ev.key;
  }

  // ----- holds -----

  ghost predicate HoldSound(h: Hold) {
    h.authorized > 0 && 0 <= h.captured <= h.authorized && !(h.voided && h.expired)
  }

  ghost predicate HoldsSound(holds: seq<Hold>) {
    DistinctIds(holds) && forall i :: 0 <= i < |holds| ==> HoldSound(holds[i])
  }

  function CaptureIn(ev: LogEvent, id: Id): int {
    match ev.payload
    case HoldConfirmed(holdId, amount, _) => if holdId == id then amount else 0
    case _ => 0
  }

  /** The sum of the capture events of a hold. */
  function CapturedBy(log: seq<LogEvent>, id: Id): int {
    if log == [] then 0 else CapturedBy(log[..|log| - 1], id) + CaptureIn(log[|log| - 1], id)
  }

  /** Every hold carries exactly what the log says was captured; unknown holds captured nothing. */
  ghost predicate CapturesLogged(s: State) {
    && (forall i :: 0 <= i < |s.holds| ==> s.holds[i].captured == CapturedBy(s.log, s.holds[i].id))
    && (forall id :: FindHold(s.holds, id) == |s.holds| ==> CapturedBy(s.log, id) == 0)
  }

  /** What no later step takes back from a hold. */
  ghost predicate HoldMoved(h: Hold, h': Hold) {
    && h'.id == h.id && h'.source == h.source && h'.asset == h.asset && h'.authorized == h.authorized
    && h.captured <= h'.captured
    && (!h.Open() ==> h' == h)
  }

  ghost predicate HoldsMoved(holds: seq<Hold>, holds': seq<Hold>) {
    |holds| <= |holds'| && forall i :: 0 <= i < |holds| ==> HoldMoved(holds[i], holds'[i])
  }

  lemma {:induction false} FindIsUnique(holds: seq<Hold>, i: nat)
    requires DistinctIds(holds) && i < |holds|
    ensures FindHold(holds, holds[i].id) == i
  {
    assert forall j :: 0 <= j < i ==> holds[j].id != holds[i].id;
  }

  /** What the code checked before it touched a hold row. */
  ghost predicate HoldGuard(s: State, op: Op, e: Env) {
    match op
    case Authorize(_, _, _, amount, _) => amount > 0 && FindHold(s.holds, e.holdId) == |s.holds|
    case Capture(holdId, amount, _) =>
      var i := FindHold(s.holds, holdId);
      i < |s.holds| && s.holds[i].Open() && 0 < amount <= s.holds[i].authorized - s.holds[i].captured
    case Void(holdId) => var i := FindHold(s.holds, holdId); i < |s.holds| && s.holds[i].Open()
    case Expire(listed) => var i := FindHold(s.holds, listed.id); i < |s.holds| && s.holds[i].Open()
    case _ => true
  }

  lemma {:induction false} CommittedHoldGuard(l: Ledger, s: State, c: Call)
    requires Commits(l, s, c)
    ensures HoldGuard(s, c.op, c.env)
  {
    match c.op
    case Authorize(_, _, _, _, _) =>
    case Capture(_, _, _) =>
    case _ =>
  }

  lemma {:induction false} GuardedHoldChange(s: State, op: Op, e: Env)
    requires HoldsSound(s.holds) && HoldGuard(s, op, e)
    ensures HoldsSound(HoldsAfter(s.holds, op, e)) && HoldsMoved(s.holds, HoldsAfter(s.holds, op, e))
  {
    match op
    case Authorize(_, _, _, _, _) =>
      assert forall i :: 0 <= i < |s.holds| ==> s.holds[i].id != e.holdId;
    case _ =>
  }

  /** A committed hold operation found its hold open, and stays within what was authorized. */
  lemma {:induction false} StepKeepsHolds(l: Ledger, s: State, c: Call)
    requires HoldsSound(s.holds)
    ensures HoldsSound(Step(l, s, c).holds) && HoldsMoved(s.holds, Step(l, s, c).holds)
  {
    StepShape(l, s, c);
    if Commits(l, s, c) {
      CommittedHoldGuard(l, s, c);
      GuardedHoldChange(s, c.op, c.env);
    }
  }

  lemma {:induction false} FoundStaysFound(holds: seq<Hold>, holds': seq<Hold>, id: Id)
    requires HoldsMoved(holds, holds') && FindHold(holds', id) == |holds'|
    ensures FindHold(holds, id) == |holds|
  {
    assert forall i :: 0 <= i < |holds| ==> holds'[i].id != id && holds[i].id == holds'[i].id;
  }

  lemma {:induction false} GuardedCapture(s: State, op: Op, e: Env, i: nat)
    requires HoldsSound(s.holds) && CapturesLogged(s) && HoldGuard(s, op, e)
    requires i < |HoldsAfter(s.holds, op, e)|
    ensures var h := HoldsAfter(s.holds, op, e)[i];
            h.captured == CapturedBy(s.log, h.id) + CaptureIn(AppendedEvent(s, op, e), h.id)
  {
    if i < |s.holds| {
      FindIsUnique(s.holds, i);
    }
  }

  lemma {:induction false} CommittedKeepsCaptures(s: State, op: Op, e: Env)
    requires HoldsSound(s.holds) && CapturesLogged(s) && HoldGuard(s, op, e)
    ensures CapturesLogged(Committed(s, op, e))
  {
    var s' := Committed(s, op, e);
    GuardedHoldChange(s, op, e);
    assert s'.log[..|s.log|] == s.log;
    forall i | 0 <= i < |s'.holds|
      ensures s'.holds[i].captured == CapturedBy(s'.log, s'.holds[i].id)
    {
      GuardedCapture(s, op, e, i);
    }
    forall id | FindHold(s'.holds, id) == |s'.holds|
      ensures CapturedBy(s'.log, id) == 0
    {
      FoundStaysFound(s.holds, s'.holds, id);
    }
  }

  lemma {:induction false} StepKeepsCaptures(l: Ledger, s: State, c: Call)
    requires HoldsSound(s.holds) && CapturesLogged(s)
    ensures CapturesLogged(Step(l, s, c))
  {
    StepShape(l, s, c);
    if Commits(l, s, c) {
      CommittedHoldGuard(l, s, c);
      CommittedKeepsCaptures(s, c.op, c.env);
    }
  }

  /**
   * In every serial history 0 <= captured <= authorized, captured is the sum of the hold's
   * capture events, and no hold is both voided and expired.
   */
  lemma {:induction false} HoldMachine(l: Ledger, calls: seq<Call>)
    ensures HoldsSound(Run(l, calls).holds) && CapturesLogged(Run(l, calls))
  {
    if calls != [] {
      HoldMachine(l, calls[..|calls| - 1]);
      StepKeepsHolds(l, Run(l, calls[..|calls| - 1]), calls[|calls| - 1]);
      StepKeepsCaptures(l, Run(l, calls[..|calls| - 1]), calls[|calls| - 1]);
    }
  }

  lemma {:induction false} MovedTwice(a: seq<Hold>, b: seq<Hold>, c: seq<Hold>)
    requires HoldsMoved(a, b) && HoldsMoved(b, c)
    ensures HoldsMoved(a, c)
  {
    forall i | 0 <= i < |a|
      ensures HoldMoved(a[i], c[i])
    {
      assert HoldMoved(a[i], b[i]) && HoldMoved(b[i], c[i]);
    }
  }

  lemma {:induction false} HoldsOneLater(l: Ledger, calls: seq<Call>, c: Call)
    ensures HoldsMoved(Run(l, calls).holds, Run(l, calls + [c]).holds)
  {
    HoldMachine(l, calls);
    assert (calls + [c])[..|calls|] == calls;
    StepKeepsHolds(l, Run(l, calls), c);
  }

  /** However a history goes on, a voided or expired hold is never touched again. */
  lemma {:induction false} ClosedHoldsStay(l: Ledger, calls: seq<Call>, more: seq<Call>)
    ensures HoldsMoved(Run(l, calls).holds, Run(l, calls + more).holds)
    decreases |more|
  {
    if more == [] {
      assert calls + more == calls;
    } else {
      var n := |more| - 1;
      var before := calls + more[..n];
      ClosedHoldsStay(l, calls, more[..n]);
      HoldsOneLater(l, before, more[n]);
      assert before + [more[n]] == calls + more;
      MovedTwice(Run(l, calls).holds, Run(l, before).holds, Run(l, calls + more).holds);
    }
  }
}
