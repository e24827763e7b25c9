/**
 * What an approval answers, field by field: the decision on a locked row, the row a sweep leaves,
 * and from when on an executing row looks stuck.
 */
module ApprovalAnswers {
  import opened Wrappers
  import opened LedgerState
  import opened Approvals
  import opened ApprovalRuns
  import opened ApprovalCalls
  import opened ApprovalRecovery

  // ----- decisions -----

  /** An entry of this name; the blank one has the empty name. */
  predicate Named(es: seq<Entry>, name: string) {
    exists i :: 0 <= i < |es| && match es[i] case Signed(who, _, _) => who == name case Blank => name == ""
  }

  lemma {:induction false} NamedIff(es: seq<Entry>, name: string)
    ensures HasApproved(es, name) <==> Named(es, name)
  {
    if HasApproved(es, name) {
      var i :| 0 <= i < |es| && es[i].Who() == name;
      assert Named(es, name);
    }
    if Named(es, name) {
      var i :| 0 <= i < |es| && match es[i] case Signed(who, _, _) => who == name case Blank => name == "";
      assert es[i].Who() == name;
    }
  }

  /** The stored list with one more signature: behind a null, which the concatenation may turn into an entry. */
  function WithSignature(keepsNull: bool, received: Option<seq<Entry>>, e: Entry): seq<Entry> {
    if received.Some? then received.value + [e] else if keepsNull then [Blank, e] else [e]
  }

  /** The refusals in their order; the deadline comes before everything but the state, and is met while the clock has not passed it. */
  lemma {:induction false} Refusals(keepsNull: bool, row: Row, principal: string, c: Clock)
    ensures var d, late := Decide(keepsNull, row, principal, c), row.expiresAt < c.checkedAt;
      var signed := row.received.Some? && Named(row.received.value, principal);
      && (d == Refuse(NotPending) <==> row.state != Pending)
      && (d.Expire? <==> row.state == Pending && late) && (d.Expire? ==> d.row == row.(state := Expired))
      && (d == Refuse(SelfApproval) <==> row.state == Pending && !late && principal == row.submittedBy)
      && (d == Refuse(NotRequired) <==>
            row.state == Pending && !late && principal != row.submittedBy && principal !in row.required)
      && (d == Refuse(AlreadyApproved) <==>
            row.state == Pending && !late && principal != row.submittedBy && principal in row.required && signed)
  {
    NamedIff(row.Entries(), principal);
  }

  /** A decision that is none of these stores the signature, and marks the row with the mark's time once every required name is there. */
  lemma {:induction false} Signs(keepsNull: bool, row: Row, principal: string, c: Clock)
    ensures var d := Decide(keepsNull, row, principal, c);
      var es := WithSignature(keepsNull, row.received, Signed(principal, c.checkedAt, c.signedAt));
      var all := forall i :: 0 <= i < |row.required| ==> Named(es, row.required[i]);
      && (d.Start? ==> all && d.row == row.(received := Some(es), state := Executing, executingAt := Some(c.markedAt)))
      && (d.Wait? ==> !all && d.row == row.(received := Some(es)))
  {
    var es := WithSignature(keepsNull, row.received, Signed(principal, c.checkedAt, c.signedAt));
    assert es == Append(keepsNull, row.received, Signed(principal, c.checkedAt, c.signedAt));
    forall i | 0 <= i < |row.required|
      ensures HasApproved(es, row.required[i]) <==> Named(es, row.required[i])
    {
      NamedIff(es, row.required[i]);
    }
  }

  // ----- sweeps -----

  /** An executing row looks stuck by the time of its mark alone, or by that of its submission when the mark has none. */
  lemma {:induction false} StuckIff(row: Row, now: Time, threshold: Time)
    ensures LooksStuck(row, now, threshold) <==>
      row.state == Executing && match row.executingAt
                                case Some(mark) => mark < now - threshold
                                case None => row.submittedAt < now - threshold
    ensures Overdue(row, now) <==> row.state == Pending && row.expiresAt < now
  {
  }

  /** What a sweep that nothing disturbs makes of a row: its state, and nothing else of it. */
  lemma {:induction false} SweptRowIs(row: Row, now: Time, threshold: Time, found: bool)
    ensures var swept := SweptRow(row, now, threshold, found);
      var since := if row.executingAt.Some? then row.executingAt.value else row.submittedAt;
      && swept == row.(state := swept.state)
      && (row.state == Pending ==> swept.state == if row.expiresAt < now then Expired else Pending)
      && (row.state == Executing ==>
            swept.state == if threshold >= now - since then Executing else if found then Executed else Expired)
      && (row.state != Pending && row.state != Executing ==> swept.state == row.state)
  {
    StuckIff(row, now, threshold);
  }

  /**
   * A sweep over a table with failing statements: a row on no page stays, so does an overdue one whose
   * expiry fails and a stuck one whose look-up or update fails; no row is on both pages.
   */
  lemma {:induction false} SweptStateIs(
    rows: seq<TableRow>, k: nat, now: Time, threshold: Time, due: seq<nat>, stuck: seq<nat>, t: Trouble, found: bool)
    requires k < |rows|
    requires IsPage(rows, due, (r: Row) => Overdue(r, now)) && IsPage(rows, stuck, (r: Row) => LooksStuck(r, now, threshold))
    ensures var s := rows[k].row.state;
      SweptState(k, s, due, stuck, t, found) ==
        if k in due then if t.expiry(k) then s else Expired
        else if k in stuck then if t.lookup(k) || t.update(k) then s else if found then Executed else Expired
        else s
  {
    if k in due {
      OnPage(rows, due, (r: Row) => Overdue(r, now), k);
    }
    if k in stuck {
      OnPage(rows, stuck, (r: Row) => LooksStuck(r, now, threshold), k);
    }
  }

  lemma {:induction false} OnPage(rows: seq<TableRow>, page: seq<nat>, qualifies: Row -> bool, k: nat)
    requires IsPage(rows, page, qualifies) && k in page
    ensures k < |rows| && qualifies(rows[k].row)
  {
    var i :| 0 <= i < |page| && page[i] == k;
  }

  /** The commit of a start stores the time of its own mark. */
  lemma {:induction false} StartStoresMark(keepsNull: bool, w: World, p: nat, c: Clock, reported: bool)
    requires w.PhaseOf(p).Locked? && Decide(keepsNull, w.row, w.PhaseOf(p).principal, c).Start?
    ensures var w' := Next(keepsNull, Next(keepsNull, w, DecideRow(p, c)), Commit(p, reported));
      w'.row.state == Executing && w'.row.executingAt == Some(c.markedAt) && w'.marks == w.marks + 1
  {
  }

  lemma {:induction false} NextKeepsMark(keepsNull: bool, w: World, e: Event)
    requires Safe(w) && w.marks == 1
    ensures Next(keepsNull, w, e).marks == 1 && Next(keepsNull, w, e).row.executingAt == w.row.executingAt
  {
    assert w.PhaseOf(e.p).Buffered? ==> w.row.state == Pending;
  }

  lemma {:induction false} LastEvent(es: seq<Event>, more: seq<Event>)
    requires more != []
    ensures es + more == es + more[..|more| - 1] + [more[|more| - 1]]
  {
  }

  /** A marked row keeps its mark however the run goes on. */
  lemma {:induction false} MarkStays(keepsNull: bool, row: Row, es: seq<Event>, more: seq<Event>)
    requires Fresh(row) && Run(keepsNull, row, es).marks == 1
    ensures Run(keepsNull, row, es + more).marks == 1
    ensures Run(keepsNull, row, es + more).row.executingAt == Run(keepsNull, row, es).row.executingAt
  {
    if more == [] {
      assert es + more == es;
    } else {
      var before, e := more[..|more| - 1], more[|more| - 1];
      MarkStays(keepsNull, row, es, before);
      RunsAreSafe(keepsNull, row, es + before);
      NextKeepsMark(keepsNull, Run(keepsNull, row, es + before), e);
      RunStep(keepsNull, row, es + before, e);
      LastEvent(es, more);
    }
  }

  /**
   * However a run goes on after the commit that marked the row at `mark`: a sweep whose cutoff is
   * no later lists nothing, and one whose cutoff is later lists the row while it is executing.
   */
  lemma {:induction false} ListedFromMark(
    keepsNull: bool, row: Row, es: seq<Event>, more: seq<Event>, mark: Time, q: nat, cutoff: Time)
    requires Fresh(row) && Run(keepsNull, row, es).marks == 1 && Run(keepsNull, row, es).row.executingAt == Some(mark)
    requires Run(keepsNull, row, es + more).PhaseOf(q).Idle?
    ensures var w := Run(keepsNull, row, es + more);
      Next(keepsNull, w, ListStuck(q, cutoff)) == if w.row.state == Executing && mark < cutoff then w.Put(q, Stuck) else w
  {
    MarkStays(keepsNull, row, es, more);
  }
}
