/**
 * A revert is an inverse: the rows of a transaction and of its revert cancel in every bucket,
 * and no transaction is reverted twice.
 */
module Reverts {
  import opened Wrappers
  import opened LedgerState
  import opened Transitions
  import opened Effects
  import opened Histories
  import opened Admission
  import opened Replay
  import opened Balances

  /** The volume rows one event wrote. */
  function RowsOf(rows: seq<VolumeDelta>, eventId: Id): seq<VolumeDelta> {
    if rows == [] then []
    else
      var n := |rows| - 1;
      RowsOf(rows[..n], eventId) + if rows[n].eventId == eventId then [rows[n]] else []
  }

  lemma {:induction false} RowsOfConcat(xs: seq<VolumeDelta>, ys: seq<VolumeDelta>, eventId: Id)
    ensures RowsOf(xs + ys, eventId) == RowsOf(xs, eventId) + RowsOf(ys, eventId)
  {
    if ys == [] {
      assert xs + ys == xs;
    } else {
      assert (xs + ys)[..|xs + ys| - 1] == xs + ys[..|ys| - 1];
      RowsOfConcat(xs, ys[..|ys| - 1], eventId);
    }
  }

  lemma {:induction false} RowsOfUniform(rows: seq<VolumeDelta>, eventId: Id, other: Id)
    requires forall i :: 0 <= i < |rows| ==> rows[i].eventId == eventId
    ensures RowsOf(rows, other) == if other == eventId then rows else []
  {
    if rows != [] {
      RowsOfUniform(rows[..|rows| - 1], eventId, other);
    }
  }

  lemma {:induction false} RowsOfForeign(rows: seq<VolumeDelta>, eventId: Id)
    requires forall i :: 0 <= i < |rows| ==> rows[i].eventId != eventId
    ensures RowsOf(rows, eventId) == []
  {
    if rows != [] {
      RowsOfForeign(rows[..|rows| - 1], eventId);
    }
  }

  /** The rows of a transaction's event are exactly the two legs of each stored posting. */
  ghost predicate Backed(s: State, t: Transaction) {
    HasEvent(s.log, t.eventId)
    && RowsOf(s.deltas, t.eventId) == Legs(t.postings, t.eventId, t.validTime, t.systemTime)
  }

  ghost predicate AllBacked(s: State) {
    forall id :: id in s.transactions ==> s.transactions[id].id == id && Backed(s, s.transactions[id])
  }

  /** No transaction is the parent of two relationships. */
  ghost predicate OneRevertEach(s: State) {
    forall i, j :: 0 <= i < j < |s.relationships| ==> s.relationships[i].parent != s.relationships[j].parent
  }

  lemma {:induction false} KeepsBacked(s: State, op: Op, e: Env, t: Transaction)
    requires LogSound(s) && Backed(s, t) && !Collides(s.log, AppendedEvent(s, op, e))
    ensures Backed(Committed(s, op, e), t)
  {
    var i :| 0 <= i < |s.log| && s.log[i].eventId == t.eventId;
    assert Committed(s, op, e).log[i] == s.log[i];
    var rows := AppendedRows(s, op, e);
    LegsShareEvent(Moves(s, op), e.eventId, EventTime(s, op, e), e.now);
    assert t.eventId != e.eventId;
    RowsOfUniform(rows, e.eventId, t.eventId);
    RowsOfConcat(s.deltas, rows, t.eventId);
  }

  lemma {:induction false} OnlyNewRows(stored: seq<VolumeDelta>, rows: seq<VolumeDelta>, eventId: Id)
    requires forall i :: 0 <= i < |stored| ==> stored[i].eventId != eventId
    requires forall d :: d in rows ==> d.eventId == eventId
    ensures RowsOf(stored + rows, eventId) == rows
  {
    RowsOfForeign(stored, eventId);
    RowsOfUniform(rows, eventId, eventId);
    RowsOfConcat(stored, rows, eventId);
  }

  lemma {:induction false} BacksNew(s: State, op: Op, e: Env)
    requires LogSound(s) && !Collides(s.log, AppendedEvent(s, op, e))
    ensures Backed(Committed(s, op, e), StoredTransaction(s, op, e))
  {
    assert Committed(s, op, e).log[|s.log|].eventId == e.eventId;
    NewEventId(s, AppendedEvent(s, op, e));
    LegsShareEvent(Moves(s, op), e.eventId, EventTime(s, op, e), e.now);
    OnlyNewRows(s.deltas, AppendedRows(s, op, e), e.eventId);
  }

  lemma {:induction false} CommittedKeepsBacked(s: State, op: Op, e: Env)
    requires LogSound(s) && AllBacked(s) && !Collides(s.log, AppendedEvent(s, op, e))
    ensures AllBacked(Committed(s, op, e))
  {
    var s' := Committed(s, op, e);
    forall id | id in s'.transactions
      ensures s'.transactions[id].id == id && Backed(s', s'.transactions[id])
    {
      if StoresTransaction(op) && id == e.txId {
        BacksNew(s, op, e);
      } else {
        KeepsBacked(s, op, e, s.transactions[id]);
      }
    }
  }

  ghost predicate Joined(s: State, r: Relationship) {
    r.parent in s.transactions && r.child in s.transactions && r.parent != r.child
    && s.transactions[r.child].postings == Reverse(s.transactions[r.parent].postings)
  }

  /** Every relationship joins a stored transaction to the stored reverse of its postings. */
  ghost predicate RevertsJoined(s: State) {
    forall i :: 0 <= i < |s.relationships| ==> Joined(s, s.relationships[i])
  }

  lemma {:induction false} StaysJoined(s: State, op: Op, e: Env, r: Relationship)
    requires Joined(s, r) && (StoresTransaction(op) ==> e.txId !in s.transactions)
    ensures Joined(Committed(s, op, e), r)
  {
  }

  lemma {:induction false} CommittedKeepsJoined(l: Ledger, s: State, c: Call)
    requires RevertsJoined(s) && MayCommit(l, s, c)
    ensures RevertsJoined(Committed(s, c.op, c.env))
  {
    var s' := Committed(s, c.op, c.env);
    forall i | 0 <= i < |s'.relationships|
      ensures Joined(s', s'.relationships[i])
    {
      if i < |s.relationships| {
        StaysJoined(s, c.op, c.env, s.relationships[i]);
      }
    }
  }

  /** One step more: at most one revert each stays exactly unless the step reverts a transaction again. */
  lemma {:induction false} OneRevertStepIff(s: State, op: Op, e: Env)
    requires OneRevertEach(s)
    ensures OneRevertEach(Committed(s, op, e)) <==> !(op.Revert? && HasRevert(s, op.txId))
  {
    var rs, rs' := s.relationships, Committed(s, op, e).relationships;
    if op.Revert? {
      assert rs' == rs + [Relationship(op.txId, e.txId, e.eventId, e.now)];
      if HasRevert(s, op.txId) {
        var i :| 0 <= i < |rs| && rs[i].parent == op.txId;
        assert rs'[i].parent == rs'[|rs|].parent;
      }
    }
  }

  lemma {:induction false} TransactionsSound(l: Ledger, calls: seq<Call>)
    ensures LogSound(Run(l, calls)) && AllBacked(Run(l, calls)) && RevertsJoined(Run(l, calls)) && OneRevertEach(Run(l, calls))
  {
    if calls != [] {
      var s, c := Run(l, calls[..|calls| - 1]), calls[|calls| - 1];
      TransactionsSound(l, calls[..|calls| - 1]);
      StepKeepsLog(l, s, c);
      StepShape(l, s, c);
      CommitsIff(l, s, c);
      if Commits(l, s, c) {
        CommittedKeepsBacked(s, c.op, c.env);
        CommittedKeepsJoined(l, s, c);
        OneRevertStepIff(s, c.op, c.env);
      }
    }
  }

  lemma {:induction false} ReverseTotals(ps: seq<Posting>, b: Bucket)
    ensures TotalIn(Reverse(ps), b) == TotalOut(ps, b) && TotalOut(Reverse(ps), b) == TotalIn(ps, b)
  {
    if ps != [] {
      var n := |ps| - 1;
      assert Reverse(ps)[..n] == Reverse(ps[..n]);
      ReverseTotals(ps[..n], b);
    }
  }

  /** The net effect of a stored transaction on a bucket, read off its rows. */
  function NetOf(s: State, txId: Id, b: Bucket): int
    requires txId in s.transactions
  {
    Net(RowsOf(s.deltas, s.transactions[txId].eventId), b)
  }

  lemma {:induction false} NetOfPostings(s: State, txId: Id, b: Bucket)
    requires AllBacked(s) && txId in s.transactions
    ensures NetOf(s, txId, b) == TotalIn(s.transactions[txId].postings, b) - TotalOut(s.transactions[txId].postings, b)
  {
    var t := s.transactions[txId];
    LegsNet(t.postings, t.eventId, t.validTime, t.systemTime, b);
  }

  /** A transaction and its revert add nothing to any bucket, however the tables came about. */
  lemma {:induction false} JoinedCancel(s: State, i: nat, b: Bucket)
    requires AllBacked(s) && RevertsJoined(s) && i < |s.relationships|
    ensures NetOf(s, s.relationships[i].parent, b) + NetOf(s, s.relationships[i].child, b) == 0
  {
    var r := s.relationships[i];
    NetOfPostings(s, r.parent, b);
    NetOfPostings(s, r.child, b);
    ReverseTotals(s.transactions[r.parent].postings, b);
  }

  /** In every serial history a transaction and its revert add nothing to any bucket. */
  lemma {:induction false} RevertCancels(l: Ledger, calls: seq<Call>, i: nat, b: Bucket)
    requires i < |Run(l, calls).relationships|
    ensures var s := Run(l, calls); var r := s.relationships[i];
            r.parent in s.transactions && r.child in s.transactions
            && NetOf(s, r.parent, b) + NetOf(s, r.child, b) == 0
  {
    TransactionsSound(l, calls);
    JoinedCancel(Run(l, calls), i, b);
  }

  /** Reverting a revert stores the original postings again, with the original net effect. */
  lemma {:induction false} RevertTwiceRestores(l: Ledger, calls: seq<Call>, i: nat, j: nat, b: Bucket)
    requires i < |Run(l, calls).relationships| && j < |Run(l, calls).relationships|
    requires Run(l, calls).relationships[j].parent == Run(l, calls).relationships[i].child
    ensures var s := Run(l, calls);
            var original, again := s.relationships[i].parent, s.relationships[j].child;
            original in s.transactions && again in s.transactions
            && s.transactions[again].postings == s.transactions[original].postings
            && NetOf(s, again, b) == NetOf(s, original, b)
  {
    TransactionsSound(l, calls);
    var s := Run(l, calls);
    ReverseTwice(s.transactions[s.relationships[i].parent].postings);
    RevertCancels(l, calls, i, b);
    RevertCancels(l, calls, j, b);
  }

  /** No transaction has two revert children. */
  lemma {:induction false} AtMostOneRevert(l: Ledger, calls: seq<Call>, i: nat, j: nat)
    requires i < |Run(l, calls).relationships| && j < |Run(l, calls).relationships|
    requires Run(l, calls).relationships[i].parent == Run(l, calls).relationships[j].parent
    ensures i == j
  {
    TransactionsSound(l, calls);
  }
}
