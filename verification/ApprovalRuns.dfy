/**
 * One parked intent under every interleaving of approvers, executors, recovery sweeps, failures
 * and crashes. Approvers hold the row lock from their first read to their commit; the later writes
 * of executors and sweeps wait for the lock but, where the code does not guard them, ignore what
 * has changed since. Safety holds for all runs, whatever the clocks read.
 */
module ApprovalRuns {
  import opened Wrappers
  import opened LedgerState
  import opened Approvals

  /** Where one call to Approve or one sweep stands. */
  datatype Phase =
    | Idle
    | Locked(principal: string)
    | Buffered(row: Row, starts: bool)
    | Running
    | Finishing
    | Rejecting
    | ToExpire
    | Stuck
    | LookedUp(found: bool)
    | Gone
  {
    predicate HoldsLock() { Locked? || Buffered? }

    /** The approver that marked the row, still on its way to a final write. */
    predicate Live() { Running? || Finishing? || Rejecting? }
  }

  /** `marks` counts commits that took the row from pending to executing, `events` the log events under its key. */
  datatype World = World(row: Row, lock: Option<nat>, phases: map<nat, Phase>, events: nat, marks: nat)
  {
    function PhaseOf(p: nat): Phase { if p in phases then phases[p] else Idle }

    function Put(p: nat, ph: Phase): World { this.(phases := phases[p := ph]) }

    function SetState(s: RowState): World { this.(row := row.(state := s)) }

    function Logged(): World { this.(events := events + 1) }
  }

  datatype Outcome = Succeeds | FailsClean | FailsAfterCommit

  datatype Event =
    | Lock(p: nat, principal: string)
    | DecideRow(p: nat, clock: Clock)
    | Commit(p: nat, reported: bool)
    | Execute(p: nat, outcome: Outcome)
    | Finish(p: nat)
    | Reject(p: nat)
    | ListExpired(p: nat, now: Time)
    | WriteExpired(p: nat)
    | ListStuck(p: nat, cutoff: Time)
    | Lookup(p: nat)
    | WriteStuck(p: nat)
    | Crash(p: nat)

  /** An event that is not possible where its process stands changes nothing. */
  function Next(keepsNull: bool, w: World, e: Event): World {
    var ph := w.PhaseOf(e.p);
    match e
    case Lock(p, principal) =>
      if ph.Idle? && w.lock.None? then w.Put(p, Locked(principal)).(lock := Some(p)) else w
    case DecideRow(p, clock) =>
      if !ph.Locked? then w
      else (match Decide(keepsNull, w.row, ph.principal, clock)
            case Refuse(_) => w.Put(p, Gone).(lock := None)
            case Expire(row) => w.Put(p, Buffered(row, false))
            case Wait(row) => w.Put(p, Buffered(row, false))
            case Start(row) => w.Put(p, Buffered(row, true)))
    case Commit(p, reported) =>
      if !ph.Buffered? then w
      else w.Put(p, if ph.starts && reported then Running else Gone)
            .(row := ph.row, lock := None, marks := w.marks + if ph.starts then 1 else 0)
    case Execute(p, outcome) =>
      if !ph.Running? then w
      else (match outcome
            case Succeeds => w.Put(p, Finishing).Logged()
            case FailsClean => w.Put(p, Rejecting)
            case FailsAfterCommit => w.Put(p, Rejecting).Logged())
    case Finish(p) =>
      if !ph.Finishing? || w.lock.Some? then w
      else if w.row.state == Executing then w.Put(p, Gone).SetState(Executed) else w.Put(p, Gone)
    case Reject(p) => if !ph.Rejecting? || w.lock.Some? then w else w.Put(p, Gone).SetState(Rejected)
    case ListExpired(p, now) =>
      if ph.Idle? && w.row.state == Pending && w.row.expiresAt < now then w.Put(p, ToExpire) else w
    case WriteExpired(p) => if !ph.ToExpire? || w.lock.Some? then w else w.Put(p, Gone).SetState(Expired)
    case ListStuck(p, cutoff) =>
      if ph.Idle? && w.row.state == Executing && w.row.ExecutingSince() < cutoff then w.Put(p, Stuck) else w
    case Lookup(p) => if !ph.Stuck? then w else w.Put(p, LookedUp(w.events > 0))
    case WriteStuck(p) =>
      if !ph.LookedUp? || w.lock.Some? then w
      else if w.row.state == Executing then w.Put(p, Gone).SetState(if ph.found then Executed else Expired)
      else w.Put(p, Gone)
    case Crash(p) => w.Put(p, Gone).(lock := if w.lock == Some(p) then None else w.lock)
  }

  function Submitted(row: Row): World { World(row, None, map[], 0, 0) }

  function Run(keepsNull: bool, row: Row, es: seq<Event>): World {
    if es == [] then Submitted(row) else Next(keepsNull, Run(keepsNull, row, es[..|es| - 1]), es[|es| - 1])
  }

  lemma {:induction false} RunStep(keepsNull: bool, row: Row, es: seq<Event>, e: Event)
    ensures Run(keepsNull, row, es + [e]) == Next(keepsNull, Run(keepsNull, row, es), e)
  {
    assert (es + [e])[..|es|] == es;
  }

  // ----- the row -----

  /** The approver is required, is not the submitter, and passed the deadline check in time. */
  ghost predicate EntrySound(e: Entry, required: seq<string>, submitter: string, deadline: Time) {
    e.Signed? ==> e.principal in required && e.principal != submitter && e.checkedAt <= deadline
  }

  /** Every entry is sound, and no principal signed twice. */
  ghost predicate ListSound(es: seq<Entry>, required: seq<string>, submitter: string, deadline: Time) {
    && (forall i :: 0 <= i < |es| ==> EntrySound(es[i], required, submitter, deadline))
    && (forall i, j :: 0 <= i < j < |es| ==> es[i].Signed? && es[j].Signed? ==> es[i].Who() != es[j].Who())
  }

  ghost predicate EntriesSound(row: Row) { ListSound(row.Entries(), row.required, row.submittedBy, row.expiresAt) }

  predicate SameTerms(row: Row, row': Row) {
    row.required == row'.required && row.submittedBy == row'.submittedBy && row.expiresAt == row'.expiresAt
  }

  /** Appending one sound entry of a new principal. */
  lemma {:induction false} AppendSound(
    keepsNull: bool, received: Option<seq<Entry>>, e: Entry, required: seq<string>, submitter: string, deadline: Time)
    requires received.Some? ==> ListSound(received.value, required, submitter, deadline)
    requires received.Some? ==> !HasApproved(received.value, e.Who())
    requires EntrySound(e, required, submitter, deadline)
    ensures ListSound(Append(keepsNull, received, e), required, submitter, deadline)
  {
  }

  /** What a decision commits keeps the terms and the entries sound, and starts only with all approvals. */
  ghost predicate Follows(row: Row, row': Row, starts: bool) {
    && SameTerms(row, row') && EntriesSound(row')
    && (if starts then row'.state == Executing && row'.received.Some? && AllApproved(row'.required, row'.Entries())
        else row'.state in {Pending, Expired})
  }

  lemma {:induction false} DecisionSound(keepsNull: bool, row: Row, principal: string, c: Clock)
    requires EntriesSound(row) && !Decide(keepsNull, row, principal, c).Refuse?
    ensures row.state == Pending
    ensures Follows(row, Decide(keepsNull, row, principal, c).row, Decide(keepsNull, row, principal, c).Start?)
  {
    var row' := Decide(keepsNull, row, principal, c).row;
    if c.checkedAt <= row.expiresAt {
      AppendSound(keepsNull, row.received, Signed(principal, c.checkedAt, c.signedAt),
                  row.required, row.submittedBy, row.expiresAt);
    }
  }

  // ----- safety -----

  ghost predicate LockSound(w: World) { forall p: nat :: w.PhaseOf(p).HoldsLock() <==> w.lock == Some(p) }

  /** A buffered row still extends the stored one. */
  ghost predicate BuffersSound(w: World) {
    forall p: nat :: w.PhaseOf(p).Buffered? ==>
      w.row.state == Pending && Follows(w.row, w.PhaseOf(p).row, w.PhaseOf(p).starts)
  }

  /** At most one process is executing, and only after the one mark. */
  ghost predicate ExecutorSound(w: World) {
    && (forall p: nat :: w.PhaseOf(p).Live() ==> w.marks == 1)
    && (forall p: nat, q: nat :: w.PhaseOf(p).Live() && w.PhaseOf(q).Live() ==> p == q)
    && (forall p: nat :: w.PhaseOf(p).Running? ==> w.events == 0)
    && (forall p: nat :: w.PhaseOf(p).Finishing? ==> w.events == 1)
    && (forall p: nat :: w.PhaseOf(p).LookedUp? && w.PhaseOf(p).found ==> w.events == 1)
  }

  ghost predicate RowSound(w: World) {
    && EntriesSound(w.row)
    && w.marks <= 1 && w.events <= w.marks
    && (w.marks == 0 ==> w.row.state in {Pending, Expired})
    && (w.marks == 1 ==> w.row.state != Pending && w.row.received.Some? && AllApproved(w.row.required, w.row.Entries()))
    && (w.row.state == Executed ==> w.events == 1)
  }

  ghost predicate Safe(w: World) { LockSound(w) && BuffersSound(w) && ExecutorSound(w) && RowSound(w) }

  lemma {:induction false} NextKeepsLock(keepsNull: bool, w: World, e: Event)
    requires LockSound(w)
    ensures LockSound(Next(keepsNull, w, e))
  {
    var w' := Next(keepsNull, w, e);
    forall p: nat
      ensures w'.PhaseOf(p).HoldsLock() <==> w'.lock == Some(p)
    {
      assert w.PhaseOf(p).HoldsLock() <==> w.lock == Some(p);
      assert w.PhaseOf(e.p).HoldsLock() <==> w.lock == Some(e.p);
      assert p != e.p ==> w'.PhaseOf(p) == w.PhaseOf(p);
    }
  }

  lemma {:induction false} NextKeepsBuffers(keepsNull: bool, w: World, e: Event)
    requires Safe(w)
    ensures BuffersSound(Next(keepsNull, w, e))
  {
    var w' := Next(keepsNull, w, e);
    if w.PhaseOf(e.p).Locked? && e.DecideRow? && !Decide(keepsNull, w.row, w.PhaseOf(e.p).principal, e.clock).Refuse? {
      DecisionSound(keepsNull, w.row, w.PhaseOf(e.p).principal, e.clock);
    }
    forall p: nat | w'.PhaseOf(p).Buffered?
      ensures w'.row.state == Pending && Follows(w'.row, w'.PhaseOf(p).row, w'.PhaseOf(p).starts)
    {
      assert w.PhaseOf(p).HoldsLock() <==> w.lock == Some(p);
      assert w.PhaseOf(e.p).HoldsLock() <==> w.lock == Some(e.p);
      assert p != e.p ==> w'.PhaseOf(p) == w.PhaseOf(p);
    }
  }

  lemma {:induction false} NextKeepsExecutor(keepsNull: bool, w: World, e: Event)
    requires Safe(w)
    ensures ExecutorSound(Next(keepsNull, w, e))
  {
    var w' := Next(keepsNull, w, e);
    forall p: nat
      ensures p != e.p ==> w'.PhaseOf(p) == w.PhaseOf(p)
    {
    }
  }

  lemma {:induction false} NextKeepsRow(keepsNull: bool, w: World, e: Event)
    requires Safe(w)
    ensures RowSound(Next(keepsNull, w, e)) && SameTerms(w.row, Next(keepsNull, w, e).row)
  {
  }

  /**
   * In every run: one commit at most starts execution and one event at most is logged; if it is,
   * all approvals were there, each from a required approver other than the submitter, in time and
   * not twice; and a row that says executed has its event.
   */
  lemma {:induction false} RunsAreSafe(keepsNull: bool, row: Row, es: seq<Event>)
    requires row.state == Pending && row.received.None?
    ensures Safe(Run(keepsNull, row, es)) && SameTerms(row, Run(keepsNull, row, es).row)
  {
    if es != [] {
      var w := Run(keepsNull, row, es[..|es| - 1]);
      var e := es[|es| - 1];
      RunsAreSafe(keepsNull, row, es[..|es| - 1]);
      NextKeepsLock(keepsNull, w, e);
      NextKeepsBuffers(keepsNull, w, e);
      NextKeepsExecutor(keepsNull, w, e);
      NextKeepsRow(keepsNull, w, e);
    }
  }

  // ----- what an event is evidence of -----

  /** `principal` has an entry signed in time, and only one, and did not submit the intent. */
  ghost predicate SignedOnce(row: Row, principal: string) {
    && principal != row.submittedBy
    && exists i :: 0 <= i < |row.Entries()| && SignedBy(row.Entries()[i], principal)
        && row.Entries()[i].checkedAt <= row.expiresAt
        && forall j :: 0 <= j < |row.Entries()| && SignedBy(row.Entries()[j], principal) ==> j == i
  }

  predicate SignedBy(e: Entry, principal: string) { e.Signed? && e.principal == principal }

  lemma {:induction false} ApprovedIsSigned(row: Row, principal: string, i: nat)
    requires EntriesSound(row) && i < |row.Entries()| && SignedBy(row.Entries()[i], principal)
    ensures SignedOnce(row, principal)
  {
    var es := row.Entries();
    assert EntrySound(es[i], row.required, row.submittedBy, row.expiresAt);
    forall j | 0 <= j < |es| && SignedBy(es[j], principal)
      ensures j == i
    {
      assert es[i].Who() == es[j].Who();
    }
  }

  /** If the event exists, every required approver with a name has signed, whatever the interleaving. */
  lemma {:induction false} EventIsApproved(keepsNull: bool, row: Row, es: seq<Event>, r: string)
    requires row.state == Pending && row.received.None?
    requires Run(keepsNull, row, es).events > 0 && r in row.required && r != ""
    ensures SignedOnce(Run(keepsNull, row, es).row, r)
  {
    RunsAreSafe(keepsNull, row, es);
    var w := Run(keepsNull, row, es);
    var k :| 0 <= k < |row.required| && row.required[k] == r;
    assert HasApproved(w.row.Entries(), w.row.required[k]);
    var i :| 0 <= i < |w.row.Entries()| && w.row.Entries()[i].Who() == r;
    ApprovedIsSigned(w.row, r, i);
  }
}
