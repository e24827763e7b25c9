/**
 * Final states of an approval. Which single steps overwrite one, and which make it disagree with
 * the log, exactly; and a discipline under which none does: atomic expiry of pending rows, sweeps
 * that list only rows whose executor is dead, and execution errors that mean nothing was committed.
 * For every intent that can execute at all, three runs show each part of it to be needed.
 */
module ApprovalRecovery {
  import opened Wrappers
  import opened LedgerState
  import opened Approvals
  import opened ApprovalRuns
  import opened ApprovalCalls

  predicate Final(s: RowState) { s in {Executed, Rejected, Expired} }

  // ----- exactly which steps -----

  /** The two writes that no guard protects, over another state. */
  predicate Overwrites(w: World, e: Event) {
    && w.lock.None?
    && match e
       case Reject(p) => w.PhaseOf(p).Rejecting? && w.row.state != Rejected
       case WriteExpired(p) => w.PhaseOf(p).ToExpire? && w.row.state != Expired
       case _ => false
  }

  /** A final state changes exactly when an unguarded write meets it. */
  lemma {:induction false} FinalChangesIff(keepsNull: bool, w: World, e: Event)
    requires Safe(w) && Final(w.row.state)
    ensures Next(keepsNull, w, e).row.state != w.row.state <==> Overwrites(w, e)
  {
    assert w.PhaseOf(e.p).Buffered? ==> w.row.state == Pending;
  }

  /** A final state says whether the event exists. */
  predicate Tells(w: World) { Final(w.row.state) ==> (w.row.state == Executed <==> w.events == 1) }

  /** A final write against the log, or an execution after a final write. */
  predicate Breaks(w: World, e: Event) {
    match e
    case Reject(p) => w.lock.None? && w.PhaseOf(p).Rejecting? && w.events == 1
    case WriteExpired(p) => w.lock.None? && w.PhaseOf(p).ToExpire? && w.events == 1
    case WriteStuck(p) =>
      w.lock.None? && w.PhaseOf(p).LookedUp? && !w.PhaseOf(p).found && w.row.state == Executing && w.events == 1
    case Execute(p, outcome) => w.PhaseOf(p).Running? && outcome != FailsClean && Final(w.row.state)
    case _ => false
  }

  /** A step keeps what the state says exactly when it is none of these. */
  lemma {:induction false} TellsKeptIff(keepsNull: bool, w: World, e: Event)
    requires Safe(w) && Tells(w)
    ensures Tells(Next(keepsNull, w, e)) <==> !Breaks(w, e)
  {
    assert w.PhaseOf(e.p).Buffered? ==> w.row.state == Pending && Follows(w.row, w.PhaseOf(e.p).row, w.PhaseOf(e.p).starts);
  }

  ghost predicate AlwaysTells(keepsNull: bool, row: Row, es: seq<Event>) {
    Tells(Run(keepsNull, row, es)) && (es == [] || AlwaysTells(keepsNull, row, es[..|es| - 1]))
  }

  ghost predicate NeverBreaks(keepsNull: bool, row: Row, es: seq<Event>) {
    es == []
    || (NeverBreaks(keepsNull, row, es[..|es| - 1]) && !Breaks(Run(keepsNull, row, es[..|es| - 1]), es[|es| - 1]))
  }

  /** The state tells throughout a run exactly when no step of the run breaks it. */
  lemma {:induction false} AlwaysTellsIff(keepsNull: bool, row: Row, es: seq<Event>)
    requires Fresh(row)
    ensures AlwaysTells(keepsNull, row, es) <==> NeverBreaks(keepsNull, row, es)
  {
    if es != [] {
      var n := |es| - 1;
      AlwaysTellsIff(keepsNull, row, es[..n]);
      RunsAreSafe(keepsNull, row, es[..n]);
      if AlwaysTells(keepsNull, row, es[..n]) {
        TellsKeptIff(keepsNull, Run(keepsNull, row, es[..n]), es[n]);
      }
    }
  }

  ghost predicate FinalStays(keepsNull: bool, row: Row, es: seq<Event>) {
    es == []
    || (FinalStays(keepsNull, row, es[..|es| - 1])
        && (Final(Run(keepsNull, row, es[..|es| - 1]).row.state) ==>
              Run(keepsNull, row, es).row.state == Run(keepsNull, row, es[..|es| - 1]).row.state))
  }

  ghost predicate NeverOverwrites(keepsNull: bool, row: Row, es: seq<Event>) {
    es == []
    || (NeverOverwrites(keepsNull, row, es[..|es| - 1])
        && !(Final(Run(keepsNull, row, es[..|es| - 1]).row.state)
             && Overwrites(Run(keepsNull, row, es[..|es| - 1]), es[|es| - 1])))
  }

  /** Final states are absorbing in a run exactly when no unguarded write of the run meets one. */
  lemma {:induction false} FinalStaysIff(keepsNull: bool, row: Row, es: seq<Event>)
    requires Fresh(row)
    ensures FinalStays(keepsNull, row, es) <==> NeverOverwrites(keepsNull, row, es)
  {
    if es != [] {
      var n := |es| - 1;
      FinalStaysIff(keepsNull, row, es[..n]);
      RunsAreSafe(keepsNull, row, es[..n]);
      if Final(Run(keepsNull, row, es[..n]).row.state) {
        FinalChangesIff(keepsNull, Run(keepsNull, row, es[..n]), es[n]);
      }
    }
  }

  /** Then the first final state of the run is its last. */
  lemma {:induction false} FirstFinalIsLast(keepsNull: bool, row: Row, es: seq<Event>, i: nat)
    requires FinalStays(keepsNull, row, es) && i <= |es| && Final(Run(keepsNull, row, es[..i]).row.state)
    ensures Run(keepsNull, row, es).row.state == Run(keepsNull, row, es[..i]).row.state
  {
    if i == |es| {
      assert es[..i] == es;
    } else {
      var n := |es| - 1;
      assert es[..n][..i] == es[..i];
      FirstFinalIsLast(keepsNull, row, es[..n], i);
    }
  }

  // ----- a discipline that is enough -----

  ghost predicate NobodyLive(w: World) { forall p: nat :: !w.PhaseOf(p).Live() }

  /** The three assumptions, on one event. */
  ghost predicate Disciplined(w: World, e: Event) {
    match e
    case WriteExpired(p) => w.PhaseOf(p).ToExpire? && w.lock.None? ==> w.row.state == Pending
    case ListStuck(_, _) => NobodyLive(w)
    case Execute(_, outcome) => outcome != FailsAfterCommit
    case _ => true
  }

  /** Every event is disciplined where it happens. */
  ghost predicate DisciplinedRun(keepsNull: bool, row: Row, es: seq<Event>) {
    es == []
    || (DisciplinedRun(keepsNull, row, es[..|es| - 1])
        && Disciplined(Run(keepsNull, row, es[..|es| - 1]), es[|es| - 1]))
  }

  ghost predicate Recoverable(w: World) {
    && (forall p: nat :: w.PhaseOf(p).Live() ==> w.row.state == Executing)
    && (forall p: nat :: w.PhaseOf(p).Rejecting? ==> w.events == 0)
    && (forall p: nat :: w.PhaseOf(p).Stuck? || w.PhaseOf(p).LookedUp? ==> w.marks == 1 && NobodyLive(w))
    && (forall p: nat :: w.PhaseOf(p).LookedUp? ==> (w.PhaseOf(p).found <==> w.events == 1))
    && Tells(w)
  }

  lemma {:induction false} OthersStand(keepsNull: bool, w: World, e: Event, p: nat)
    requires p != e.p
    ensures Next(keepsNull, w, e).PhaseOf(p) == w.PhaseOf(p)
  {
  }

  lemma {:induction false} LiveStaysExecuting(keepsNull: bool, w: World, e: Event, p: nat)
    requires Safe(w) && Recoverable(w) && Disciplined(w, e) && Next(keepsNull, w, e).PhaseOf(p).Live()
    ensures Next(keepsNull, w, e).row.state == Executing
    ensures Next(keepsNull, w, e).PhaseOf(p).Rejecting? ==> Next(keepsNull, w, e).events == 0
  {
    if p != e.p {
      OthersStand(keepsNull, w, e, p);
    }
  }

  lemma {:induction false} SweepStays(keepsNull: bool, w: World, e: Event, p: nat)
    requires Safe(w) && Recoverable(w) && Disciplined(w, e)
    requires Next(keepsNull, w, e).PhaseOf(p).Stuck? || Next(keepsNull, w, e).PhaseOf(p).LookedUp?
    ensures Next(keepsNull, w, e).marks == 1 && NobodyLive(Next(keepsNull, w, e))
    ensures Next(keepsNull, w, e).PhaseOf(p).LookedUp? ==>
      (Next(keepsNull, w, e).PhaseOf(p).found <==> Next(keepsNull, w, e).events == 1)
  {
    if p != e.p {
      OthersStand(keepsNull, w, e, p);
    }
    NothingExecutesAgain(keepsNull, w, e);
  }

  lemma {:induction false} NextRecoverable(keepsNull: bool, w: World, e: Event)
    requires Safe(w) && Recoverable(w) && Disciplined(w, e)
    ensures Recoverable(Next(keepsNull, w, e))
  {
    var w' := Next(keepsNull, w, e);
    forall p: nat
      ensures w'.PhaseOf(p).Live() ==> w'.row.state == Executing
      ensures w'.PhaseOf(p).Rejecting? ==> w'.events == 0
    {
      if w'.PhaseOf(p).Live() {
        LiveStaysExecuting(keepsNull, w, e, p);
      }
    }
    forall p: nat | w'.PhaseOf(p).Stuck? || w'.PhaseOf(p).LookedUp?
      ensures w'.marks == 1 && NobodyLive(w') && (w'.PhaseOf(p).LookedUp? ==> (w'.PhaseOf(p).found <==> w'.events == 1))
    {
      SweepStays(keepsNull, w, e, p);
    }
    DisciplineTells(keepsNull, w, e);
  }

  /** Neither of the exact conditions is ever met. */
  lemma {:induction false} DisciplineTells(keepsNull: bool, w: World, e: Event)
    requires Safe(w) && Recoverable(w) && Disciplined(w, e)
    ensures !Breaks(w, e) && Tells(Next(keepsNull, w, e))
    ensures !(Final(w.row.state) && Overwrites(w, e))
  {
    TellsKeptIff(keepsNull, w, e);
  }

  /** Once a sweep has listed the row with its executor dead, nothing executes it again. */
  lemma {:induction false} NothingExecutesAgain(keepsNull: bool, w: World, e: Event)
    requires Safe(w) && Recoverable(w) && Disciplined(w, e) && w.marks == 1 && NobodyLive(w)
    ensures Next(keepsNull, w, e).marks == 1 && NobodyLive(Next(keepsNull, w, e))
    ensures Next(keepsNull, w, e).events == w.events
  {
    var w' := Next(keepsNull, w, e);
    assert forall p: nat :: p != e.p ==> w'.PhaseOf(p) == w.PhaseOf(p);
  }

  lemma {:induction false} RunsAreRecoverable(keepsNull: bool, row: Row, es: seq<Event>)
    requires Fresh(row) && DisciplinedRun(keepsNull, row, es)
    ensures Safe(Run(keepsNull, row, es)) && Recoverable(Run(keepsNull, row, es))
  {
    RunsAreSafe(keepsNull, row, es);
    if es != [] {
      var n := |es| - 1;
      RunsAreRecoverable(keepsNull, row, es[..n]);
      NextRecoverable(keepsNull, Run(keepsNull, row, es[..n]), es[n]);
    }
  }

  /** In every disciplined run, a final state says exactly whether the event is in the log. */
  lemma {:induction false} FinalStateTells(keepsNull: bool, row: Row, es: seq<Event>)
    requires Fresh(row) && DisciplinedRun(keepsNull, row, es)
    ensures Final(Run(keepsNull, row, es).row.state) ==>
      (Run(keepsNull, row, es).row.state == Executed <==> Run(keepsNull, row, es).events == 1)
    ensures Run(keepsNull, row, es).events <= 1
  {
    RunsAreRecoverable(keepsNull, row, es);
  }

  lemma {:induction false} DisciplineNeverOverwrites(keepsNull: bool, row: Row, es: seq<Event>)
    requires Fresh(row) && DisciplinedRun(keepsNull, row, es)
    ensures NeverOverwrites(keepsNull, row, es) && NeverBreaks(keepsNull, row, es)
  {
    if es != [] {
      var n := |es| - 1;
      DisciplineNeverOverwrites(keepsNull, row, es[..n]);
      RunsAreRecoverable(keepsNull, row, es[..n]);
      DisciplineTells(keepsNull, Run(keepsNull, row, es[..n]), es[n]);
    }
  }

  lemma {:induction false} DisciplinedPrefix(keepsNull: bool, row: Row, es: seq<Event>, i: nat)
    requires DisciplinedRun(keepsNull, row, es) && i <= |es|
    ensures DisciplinedRun(keepsNull, row, es[..i])
  {
    if i == |es| {
      assert es[..i] == es;
    } else {
      assert es[..|es| - 1][..i] == es[..i];
      DisciplinedPrefix(keepsNull, row, es[..|es| - 1], i);
    }
  }

  /** And it is never left. */
  lemma {:induction false} FinalStatesStay(keepsNull: bool, row: Row, es: seq<Event>, i: nat)
    requires Fresh(row) && DisciplinedRun(keepsNull, row, es)
    requires i <= |es| && Final(Run(keepsNull, row, es[..i]).row.state)
    ensures Run(keepsNull, row, es).row.state == Run(keepsNull, row, es[..i]).row.state
    ensures Run(keepsNull, row, es).events == Run(keepsNull, row, es[..i]).events
  {
    DisciplineNeverOverwrites(keepsNull, row, es);
    FinalStaysIff(keepsNull, row, es);
    FirstFinalIsLast(keepsNull, row, es, i);
    DisciplinedPrefix(keepsNull, row, es, i);
    FinalStateTells(keepsNull, row, es[..i]);
    FinalStateTells(keepsNull, row, es);
  }

  ghost predicate UnderRecovery(w: World) { exists p: nat :: w.PhaseOf(p).Stuck? || w.PhaseOf(p).LookedUp? }

  /** The row has been started and its executor is gone. */
  ghost predicate Quiet(w: World) { w.marks == 1 && NobodyLive(w) }

  lemma {:induction false} QuietStays(keepsNull: bool, row: Row, es: seq<Event>, i: nat)
    requires Fresh(row) && DisciplinedRun(keepsNull, row, es) && i <= |es| && Quiet(Run(keepsNull, row, es[..i]))
    ensures Quiet(Run(keepsNull, row, es)) && Run(keepsNull, row, es).events == Run(keepsNull, row, es[..i]).events
  {
    if i == |es| {
      assert es[..i] == es;
    } else {
      var n := |es| - 1;
      assert es[..n][..i] == es[..i];
      QuietStays(keepsNull, row, es[..n], i);
      RunsAreRecoverable(keepsNull, row, es[..n]);
      NothingExecutesAgain(keepsNull, Run(keepsNull, row, es[..n]), es[n]);
    }
  }

  /** From the moment a sweep lists the row as stuck, the number of its events stays what it is. */
  lemma {:induction false} NoReexecution(keepsNull: bool, row: Row, es: seq<Event>, i: nat)
    requires Fresh(row) && DisciplinedRun(keepsNull, row, es)
    requires i <= |es| && UnderRecovery(Run(keepsNull, row, es[..i]))
    ensures Run(keepsNull, row, es).events == Run(keepsNull, row, es[..i]).events
    ensures Quiet(Run(keepsNull, row, es))
  {
    DisciplinedPrefix(keepsNull, row, es, i);
    RunsAreRecoverable(keepsNull, row, es[..i]);
    QuietStays(keepsNull, row, es, i);
  }

  /** A sweep that listed the row and looked its key up leaves it final, executed exactly when its event exists. */
  lemma {:induction false} SweepResolves(keepsNull: bool, row: Row, es: seq<Event>, p: nat)
    requires Fresh(row) && DisciplinedRun(keepsNull, row, es)
    requires Run(keepsNull, row, es).PhaseOf(p).LookedUp? && Run(keepsNull, row, es).lock.None?
    ensures var w' := Next(keepsNull, Run(keepsNull, row, es), WriteStuck(p));
      && Final(w'.row.state) && (w'.row.state == Executed <==> w'.events == 1)
      && w'.events == Run(keepsNull, row, es).events
  {
    RunsAreRecoverable(keepsNull, row, es);
    NextRecoverable(keepsNull, Run(keepsNull, row, es), WriteStuck(p));
  }

  // ----- each assumption is needed -----

  /**
   * A live executor listed as stuck, for any intent that can execute: the sweep finds no event and
   * expires the row, which then executes.
   */
  lemma {:induction false} LiveExecutorExpired(keepsNull: bool, row: Row) returns (es: seq<Event>)
    requires Fresh(row) && Startable(keepsNull, row)
    ensures Run(keepsNull, row, es).row.state == Expired && Run(keepsNull, row, es).events == 1
  {
    OthersAreEnough(keepsNull, row);
    var names := Without(row.required, row.submittedBy);
    var before, p := ReachStart(keepsNull, row, names);
    Committed(keepsNull, row, before, names, |names|, p);
    var started := before + [Commit(p, true)];
    var q, cutoff := |names|, Run(keepsNull, row, started).row.executingAt.value + 1;
    Swept(keepsNull, row, started, q, cutoff);
    var swept := started + [ListStuck(q, cutoff)] + [Lookup(q)] + [WriteStuck(q)];
    RunStep(keepsNull, row, swept, Execute(p, Succeeds));
    RunStep(keepsNull, row, swept + [Execute(p, Succeeds)], Finish(p));
    es := swept + [Execute(p, Succeeds)] + [Finish(p)];
  }

  lemma {:induction false} ListedStuck(keepsNull: bool, w: World, q: nat, cutoff: Time)
    requires w.row.state == Executing && w.row.ExecutingSince() < cutoff && w.PhaseOf(q).Idle?
    ensures Next(keepsNull, w, ListStuck(q, cutoff)) == w.Put(q, Stuck)
  {
  }

  lemma {:induction false} LookedUpAndWritten(keepsNull: bool, w: World, q: nat)
    requires w.row.state == Executing && w.lock.None? && w.events == 0 && w.PhaseOf(q).Stuck?
    ensures var w' := Next(keepsNull, Next(keepsNull, w, Lookup(q)), WriteStuck(q));
      w'.row.state == Expired && w'.lock.None? && w'.events == 0 && forall p: nat :: p != q ==> w'.PhaseOf(p) == w.PhaseOf(p)
  {
    assert Next(keepsNull, w, Lookup(q)) == w.Put(q, LookedUp(false));
  }

  /** An undisturbed recovery of an executing row without an event. */
  lemma {:induction false} Swept(keepsNull: bool, row: Row, es: seq<Event>, q: nat, cutoff: Time)
    requires Run(keepsNull, row, es).row.state == Executing && Run(keepsNull, row, es).row.ExecutingSince() < cutoff
    requires Run(keepsNull, row, es).lock.None? && Run(keepsNull, row, es).events == 0 && Run(keepsNull, row, es).PhaseOf(q).Idle?
    ensures var w := Run(keepsNull, row, es + [ListStuck(q, cutoff)] + [Lookup(q)] + [WriteStuck(q)]);
      w.row.state == Expired && w.lock.None? && w.events == 0
      && forall p: nat :: p != q ==> w.PhaseOf(p) == Run(keepsNull, row, es).PhaseOf(p)
  {
    var w := Run(keepsNull, row, es);
    var s1 := es + [ListStuck(q, cutoff)];
    RunStep(keepsNull, row, es, ListStuck(q, cutoff));
    RunStep(keepsNull, row, s1, Lookup(q));
    RunStep(keepsNull, row, s1 + [Lookup(q)], WriteStuck(q));
    ListedStuck(keepsNull, w, q, cutoff);
    LookedUpAndWritten(keepsNull, w.Put(q, Stuck), q);
  }

  /** An execution that committed and reported an error: the row says rejected, the event exists. */
  lemma {:induction false} CommittedButRejected(keepsNull: bool, row: Row) returns (es: seq<Event>)
    requires Fresh(row) && Startable(keepsNull, row)
    ensures Run(keepsNull, row, es).row.state == Rejected && Run(keepsNull, row, es).events == 1
  {
    OthersAreEnough(keepsNull, row);
    var names := Without(row.required, row.submittedBy);
    var before, p := ReachStart(keepsNull, row, names);
    Committed(keepsNull, row, before, names, |names|, p);
    var started := before + [Commit(p, true)];
    RunStep(keepsNull, row, started, Execute(p, FailsAfterCommit));
    RunStep(keepsNull, row, started + [Execute(p, FailsAfterCommit)], Reject(p));
    es := started + [Execute(p, FailsAfterCommit)] + [Reject(p)];
  }

  /** A listed pending row that executes before the sweep writes: executed becomes expired. */
  lemma {:induction false} ExecutedThenExpired(keepsNull: bool, row: Row) returns (es: seq<Event>, last: Event)
    requires Fresh(row) && Startable(keepsNull, row)
    ensures Run(keepsNull, row, es).row.state == Executed
    ensures Run(keepsNull, row, es + [last]).row.state == Expired && Run(keepsNull, row, es + [last]).events == 1
  {
    OthersAreEnough(keepsNull, row);
    var names := Without(row.required, row.submittedBy);
    var before, p := ReachStart(keepsNull, row, names);
    var q := |names|;
    var listed := before + [ListExpired(q, row.expiresAt + 1)];
    RunStep(keepsNull, row, before, ListExpired(q, row.expiresAt + 1));
    es := ExecutedRun(keepsNull, row, listed, p);
    last := WriteExpired(q);
    RunStep(keepsNull, row, es, last);
  }

  /** A buffered start that commits and executes without trouble. */
  lemma {:induction false} ExecutedRun(keepsNull: bool, row: Row, es: seq<Event>, p: nat) returns (more: seq<Event>)
    requires var w := Run(keepsNull, row, es);
      w.PhaseOf(p).Buffered? && w.PhaseOf(p).starts && w.PhaseOf(p).row.state == Executing && w.events == 0
    ensures var w := Run(keepsNull, row, more);
      w.row.state == Executed && w.events == 1 && w.lock.None?
      && forall q: nat :: q != p ==> w.PhaseOf(q) == Run(keepsNull, row, es).PhaseOf(q)
  {
    RunStep(keepsNull, row, es, Commit(p, true));
    RunStep(keepsNull, row, es + [Commit(p, true)], Execute(p, Succeeds));
    more := es + [Commit(p, true)] + [Execute(p, Succeeds)];
    RunStep(keepsNull, row, more, Finish(p));
    more := more + [Finish(p)];
  }

  // ----- the sweep over a table -----

  /** What an undisturbed sweep does to a row. */
  function SweptRow(row: Row, now: Time, threshold: Time, found: bool): Row {
    if Overdue(row, now) then row.(state := Expired)
    else if LooksStuck(row, now, threshold)
    then row.(state := if found then Executed else Expired)
    else row
  }

  /** That is what the sweep's steps do when no other step comes between them. */
  lemma {:induction false} SweepSteps(keepsNull: bool, w: World, p: nat, q: nat, now: Time, threshold: Time)
    requires p != q && w.PhaseOf(p).Idle? && w.PhaseOf(q).Idle? && w.lock.None?
    ensures var w1 := Next(keepsNull, Next(keepsNull, w, ListExpired(p, now)), WriteExpired(p));
      var w2 := Next(keepsNull, Next(keepsNull, w1, ListStuck(q, now - threshold)), Lookup(q));
      Next(keepsNull, w2, WriteStuck(q)).row == SweptRow(w.row, now, threshold, w.events > 0)
  {
  }

  datatype TableRow = TableRow(intentId: string, row: Row)

  const PAGE := 1000

  predicate Overdue(row: Row, now: Time) { row.state == Pending && row.expiresAt < now }

  predicate LooksStuck(row: Row, now: Time, threshold: Time) {
    row.state == Executing && row.ExecutingSince() < now - threshold
  }

  /** Different rows that qualify; at most a page of them, and all of them when it is not full. */
  ghost predicate IsPage(rows: seq<TableRow>, page: seq<nat>, qualifies: Row -> bool) {
    && |page| <= PAGE
    && (forall i, j :: 0 <= i < j < |page| ==> page[i] != page[j])
    && (forall i :: 0 <= i < |page| ==> page[i] < |rows| && qualifies(rows[page[i]].row))
    && (|page| < PAGE ==> forall k :: 0 <= k < |rows| && qualifies(rows[k].row) ==> k in page)
  }

  /** The statements that fail, by row: the expiry, the look-up of the key, the guarded update. */
  datatype Trouble = Trouble(expiry: nat -> bool, lookup: nat -> bool, update: nat -> bool)

  /** The state a sweep leaves a row in, given the pages it was listed on. */
  function SweptState(k: nat, s: RowState, due: seq<nat>, stuck: seq<nat>, t: Trouble, found: bool): RowState {
    if k in due && !t.expiry(k) then Expired
    else if k in stuck && !t.lookup(k) && !t.update(k) then (if found then Executed else Expired)
    else s
  }

  class ApprovalTable {
    var rows: seq<TableRow>

    constructor (rows: seq<TableRow>)
      ensures this.rows == rows
    {
      this.rows := rows;
    }

    /**
     * The overdue rows first, then the stuck ones, each by the event of its key; a failed statement
     * leaves its row for the next sweep. `due` and `stuck` are the pages the database chose.
     */
    method ExpireStaleApprovals(
      now: Time, threshold: Time, hasEvent: string -> bool, due: seq<nat>, stuck: seq<nat>, t: Trouble)
      requires IsPage(rows, due, (r: Row) => Overdue(r, now))
      requires IsPage(rows, stuck, (r: Row) => LooksStuck(r, now, threshold))
      modifies this
      ensures |rows| == old(|rows|)
      ensures forall k :: 0 <= k < |rows| ==>
        rows[k] == old(rows[k]).(row := old(rows[k]).row.(
          state := SweptState(k, old(rows[k]).row.state, due, stuck, t, hasEvent(old(rows[k]).intentId))))
    {
      ghost var before := rows;
      for i := 0 to |due|
        invariant |rows| == |before|
        invariant forall k :: 0 <= k < |before| ==>
          rows[k] == before[k].(row := before[k].row.(state := SweptState(k, before[k].row.state, due[..i], [], t, false)))
      {
        assert due[..i + 1] == due[..i] + [due[i]];
        if !t.expiry(due[i]) {
          rows := rows[due[i] := rows[due[i]].(row := rows[due[i]].row.(state := Expired))];
        }
      }
      assert due[..|due|] == due;
      for i := 0 to |stuck|
        invariant |rows| == |before|
        invariant forall k :: 0 <= k < |before| ==>
          rows[k] == before[k].(row := before[k].row.(
            state := SweptState(k, before[k].row.state, due, stuck[..i], t, hasEvent(before[k].intentId))))
      {
        assert stuck[..i + 1] == stuck[..i] + [stuck[i]];
        var k := stuck[i];
        var a := rows[k];
        if t.lookup(k) { continue; }
        var nextState := Expired;
        if hasEvent(a.intentId) {
          nextState := Executed;
        }
        if !t.update(k) && a.row.state == Executing {
          rows := rows[k := a.(row := a.row.(state := nextState))];
        }
      }
      assert stuck[..|stuck|] == stuck;
    }
  }

  /** A sweep without failures whose pages are not full gives every row of the table its due. */
  lemma {:induction false} QuietSweep(
    rows: seq<TableRow>, k: nat, now: Time, threshold: Time, found: bool, due: seq<nat>, stuck: seq<nat>, t: Trouble)
    requires k < |rows| && !t.expiry(k) && !t.lookup(k) && !t.update(k)
    requires IsPage(rows, due, (r: Row) => Overdue(r, now)) && |due| < PAGE
    requires IsPage(rows, stuck, (r: Row) => LooksStuck(r, now, threshold)) && |stuck| < PAGE
    ensures SweptState(k, rows[k].row.state, due, stuck, t, found) == SweptRow(rows[k].row, now, threshold, found).state
  {
    if k in due {
      var i :| 0 <= i < |due| && due[i] == k;
      assert Overdue(rows[due[i]].row, now);
    }
    if k in stuck {
      var i :| 0 <= i < |stuck| && stuck[i] == k;
      assert LooksStuck(rows[stuck[i]].row, now, threshold);
    }
  }
}
