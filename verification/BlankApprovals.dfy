/**
 * Exactly when a logged event proves that every required approver signed. Received approvals
 * start as a JSON null; where the store's first append keeps it, the decoded list begins with an
 * entry of no one, which counts as the approval of the empty name.
 */
module BlankApprovals {
  import opened Wrappers
  import opened LedgerState
  import opened Approvals
  import opened ApprovalRuns
  import opened ApprovalCalls

  /** The empty name is required along with a real one, and the submitter's own approval is not needed. */
  ghost predicate BlankStandsIn(keepsNull: bool, row: Row) {
    && keepsNull && "" in row.required
    && (exists r :: r in row.required && r != "")
    && (row.submittedBy == "" || row.submittedBy !in row.required)
  }

  ghost predicate AllSigned(row: Row) { forall r :: r in row.required ==> SignedOnce(row, r) }

  // ----- when the blank entry stands in for nobody -----

  lemma {:induction false} EmptyNameSigned(keepsNull: bool, row: Row, es: seq<Event>)
    requires Fresh(row) && !BlankStandsIn(keepsNull, row)
    requires Run(keepsNull, row, es).events > 0 && "" in row.required
    ensures SignedOnce(Run(keepsNull, row, es).row, "")
  {
    RunsAreSafe(keepsNull, row, es);
    RunsShaped(keepsNull, row, es);
    var w := Run(keepsNull, row, es);
    var entries := w.row.Entries();
    var k :| 0 <= k < |row.required| && row.required[k] == "";
    assert HasApproved(entries, w.row.required[k]);
    if !keepsNull {
      var i :| 0 <= i < |entries| && entries[i].Who() == "";
      ApprovedIsSigned(w.row, "", i);
    } else if exists r :: r in row.required && r != "" {
      EventIsApproved(keepsNull, row, es, row.submittedBy);
    } else {
      var last := |entries| - 1;
      assert EntrySound(entries[last], w.row.required, w.row.submittedBy, w.row.expiresAt);
      ApprovedIsSigned(w.row, "", last);
    }
  }

  // ----- when it stands in for the empty name -----

  lemma {:induction false} RealNamesAreEnough(row: Row)
    requires BlankStandsIn(true, row)
    ensures Enough(true, row, Without(row.required, ""))
  {
    var names := Without(row.required, "");
    var r :| r in row.required && r != "";
    assert r in names && forall j :: 0 <= j < |names| ==> names[j] in names;
  }

  /** The real names sign, nobody signs for the empty one, and the intent executes. */
  lemma {:induction false} EventWithoutBlankSignature(row: Row) returns (es: seq<Event>)
    requires Fresh(row) && BlankStandsIn(true, row)
    ensures Run(true, row, es).events > 0 && !AllSigned(Run(true, row, es).row)
  {
    RealNamesAreEnough(row);
    var names := Without(row.required, "");
    var before, p := ReachStart(true, row, names);
    Committed(true, row, before, names, |names|, p);
    var started := before + [Commit(p, true)];
    RunStep(true, row, started, Execute(p, Succeeds));
    es := started + [Execute(p, Succeeds)];
    var w := Run(true, row, es);
    assert "" !in names && "" in w.row.required && !SignedOnce(w.row, "");
  }

  /** An event always means that every required approver signed, unless the blank entry stands in. */
  lemma {:induction false} AllSignedIff(keepsNull: bool, row: Row)
    requires Fresh(row)
    ensures (forall es :: Run(keepsNull, row, es).events > 0 ==> AllSigned(Run(keepsNull, row, es).row))
            <==> !BlankStandsIn(keepsNull, row)
  {
    if BlankStandsIn(keepsNull, row) {
      var es := EventWithoutBlankSignature(row);
    } else {
      forall es | Run(keepsNull, row, es).events > 0
        ensures AllSigned(Run(keepsNull, row, es).row)
      {
        RunsAreSafe(keepsNull, row, es);
        forall r | r in row.required
          ensures SignedOnce(Run(keepsNull, row, es).row, r)
        {
          if r == "" {
            EmptyNameSigned(keepsNull, row, es);
          } else {
            EventIsApproved(keepsNull, row, es, r);
          }
        }
      }
    }
  }
}
