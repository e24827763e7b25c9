/**
 * Approval of a parked intent: the row, the guarded and unguarded updates of the store, and the
 * decision Approve takes on a locked row.
 */
module Approvals {
  import opened Wrappers
  import opened LedgerState

  datatype RowState = Pending | Executing | Executed | Rejected | Expired

  /**
   * A received approval. `checkedAt` is the clock reading of the deadline check before it, which
   * the row does not store; `signedAt` is the one it stores. `Blank` is an entry decoded from null.
   */
  datatype Entry = Blank | Signed(principal: string, checkedAt: Time, signedAt: Time)
  {
    function Who(): string { if Signed? then principal else "" }
  }

  /** `received` is None while the column holds the JSON null of a submission's empty list. */
  datatype Row = Row(
    required: seq<string>, received: Option<seq<Entry>>, submittedBy: string, submittedAt: Time, expiresAt: Time,
    state: RowState, executingAt: Option<Time>)
  {
    function Entries(): seq<Entry> { if received.Some? then received.value else [] }

    /** A row counts as executing since its mark, or since its submission when the mark has no time. */
    function ExecutingSince(): Time { if executingAt.Some? then executingAt.value else submittedAt }
  }

  /** A sealed ledger takes no intent; an intent without a lifetime gets a day. */
  method SubmitForApproval(
    l: Ledger, required: seq<string>, submittedBy: string, now: Time, expiresIn: Time, day: Time)
    returns (r: Result<Row, Error>)
    ensures l.sealed ==> r == Failure(LedgerSealed)
    ensures !l.sealed ==>
      && r.Success?
      && r.value == Row(required, None, submittedBy, now, r.value.expiresAt, Pending, None)
      && r.value.expiresAt - now == if expiresIn == 0 then day else expiresIn
  {
    if l.sealed { return Failure(LedgerSealed); }
    var expiresAt := now + expiresIn;
    if expiresIn == 0 {
      expiresAt := now + day;
    }
    return Success(Row(required, None, submittedBy, now, expiresAt, Pending, None));
  }

  /**
   * Appending to the stored list. PostgreSQL turns a null on the left of the concatenation into
   * an element; `keepsNull` is false for the planner's in-memory test store, which does not.
   */
  function Append(keepsNull: bool, received: Option<seq<Entry>>, e: Entry): seq<Entry> {
    match received
    case None => if keepsNull then [Blank, e] else [e]
    case Some(es) => es + [e]
  }

  predicate HasApproved(entries: seq<Entry>, principal: string) {
    exists i :: 0 <= i < |entries| && entries[i].Who() == principal
  }

  /** Every required approver is among the received approvals. */
  predicate AllApproved(required: seq<string>, entries: seq<Entry>) {
    forall i :: 0 <= i < |required| ==> HasApproved(entries, required[i])
  }

  datatype Refusal = NotPending | SelfApproval | NotRequired | AlreadyApproved

  /** What Approve decides on a locked row: an error, or a row to commit. */
  datatype Decision = Refuse(why: Refusal) | Expire(row: Row) | Wait(row: Row) | Start(row: Row)

  /** The readings one call takes: the clock at its deadline check and at its signature, the database's at its mark. */
  datatype Clock = Clock(checkedAt: Time, signedAt: Time, markedAt: Time)

  function Decide(keepsNull: bool, row: Row, principal: string, c: Clock): Decision {
    if row.state != Pending then Refuse(NotPending)
    else if c.checkedAt > row.expiresAt then Expire(row.(state := Expired))
    else if principal == row.submittedBy then Refuse(SelfApproval)
    else if principal !in row.required then Refuse(NotRequired)
    else if HasApproved(row.Entries(), principal) then Refuse(AlreadyApproved)
    else
      var entries := Append(keepsNull, row.received, Signed(principal, c.checkedAt, c.signedAt));
      if AllApproved(row.required, entries)
      then Start(row.(received := Some(entries), state := Executing, executingAt := Some(c.markedAt)))
      else Wait(row.(received := Some(entries)))
  }

  /** One row inside a transaction that holds its lock, or in a statement of its own. */
  class ApprovalStore {
    const keepsNull: bool
    var row: Row

    constructor (keepsNull: bool, row: Row)
      ensures this.keepsNull == keepsNull && this.row == row
    {
      this.keepsNull, this.row := keepsNull, row;
    }

    method AddApproval(e: Entry) returns (r: Outcome<Error>)
      modifies this
      ensures r == if old(row.state) == Pending then Pass else Fail(NotFound)
      ensures row == if r.Pass? then old(row).(received := Some(Append(keepsNull, old(row.received), e))) else old(row)
    {
      if row.state != Pending { return Fail(NotFound); }
      row := row.(received := Some(Append(keepsNull, row.received, e)));
      return Pass;
    }

    /** Not guarded by the state it replaces. */
    method UpdateApprovalState(state: RowState)
      modifies this
      ensures row == old(row).(state := state)
    {
      row := row.(state := state);
    }

    method MarkApprovalExecuting(now: Time)
      modifies this
      ensures row == old(row).(state := Executing, executingAt := Some(now))
    {
      row := row.(state := Executing, executingAt := Some(now));
    }

    method UpdateApprovalStateIf(from: RowState, to: RowState) returns (updated: bool)
      modifies this
      ensures updated <==> old(row.state) == from
      ensures row == if updated then old(row).(state := to) else old(row)
    {
      updated := row.state == from;
      if updated {
        row := row.(state := to);
      }
    }
  }

  method IsRequired(required: seq<string>, principal: string) returns (found: bool)
    ensures found <==> principal in required
  {
    for i := 0 to |required|
      invariant principal !in required[..i]
    {
      if required[i] == principal { return true; }
    }
    return false;
  }

  method HasDuplicate(entries: seq<Entry>, principal: string) returns (found: bool)
    ensures found <==> HasApproved(entries, principal)
  {
    for i := 0 to |entries|
      invariant forall j :: 0 <= j < i ==> entries[j].Who() != principal
    {
      if entries[i].Who() == principal { return true; }
    }
    return false;
  }

  method CheckAllApproved(required: seq<string>, entries: seq<Entry>) returns (all: bool)
    ensures all <==> AllApproved(required, entries)
  {
    var approved: set<string> := {};
    for i := 0 to |entries|
      invariant forall s :: s in approved <==> HasApproved(entries[..i], s)
    {
      assert entries[..i + 1] == entries[..i] + [entries[i]];
      assert forall s :: HasApproved(entries[..i + 1], s) <==> HasApproved(entries[..i], s) || entries[i].Who() == s by {
        forall s | HasApproved(entries[..i], s) || entries[i].Who() == s
          ensures HasApproved(entries[..i + 1], s)
        {
          var j :| 0 <= j <= i && entries[..i + 1][j].Who() == s;
        }
      }
      approved := approved + {entries[i].Who()};
    }
    assert entries[..|entries|] == entries;
    for i := 0 to |required|
      invariant forall j :: 0 <= j < i ==> HasApproved(entries, required[j])
    {
      if required[i] !in approved { return false; }
    }
    return true;
  }

  /** The transaction of Approve up to its commit; a refusal rolls it back. */
  method Approve(store: ApprovalStore, principal: string, c: Clock) returns (d: Decision)
    modifies store
    ensures d == Decide(store.keepsNull, old(store.row), principal, c)
    ensures store.row == if d.Refuse? then old(store.row) else d.row
  {
    var approval := store.row;
    if approval.state != Pending { return Refuse(NotPending); }
    if c.checkedAt > approval.expiresAt {
      store.UpdateApprovalState(RowState.Expired);
      return Expire(store.row);
    }
    if principal == approval.submittedBy { return Refuse(SelfApproval); }
    var isRequired := IsRequired(approval.required, principal);
    if !isRequired { return Refuse(NotRequired); }
    var duplicate := HasDuplicate(approval.Entries(), principal);
    if duplicate { return Refuse(AlreadyApproved); }
    var added := store.AddApproval(Signed(principal, c.checkedAt, c.signedAt));
    assert added.Pass?;
    approval := store.row;
    var all := CheckAllApproved(approval.required, approval.Entries());
    if !all { return Wait(store.row); }
    store.MarkApprovalExecuting(c.markedAt);
    return Start(store.row);
  }
}
