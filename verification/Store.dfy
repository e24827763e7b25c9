/**
 * The storage layer: the tables inside one open transaction, and the committed tables a
 * transaction starts from. Reads inside a transaction see its own writes; a transaction that is
 * dropped without a commit leaves the committed tables as they were.
 */
module Store {
  import opened Wrappers
  import opened LedgerState
  import opened Transitions

  /** `after` and `r` are what `spec` says; a failed write changes nothing. */
  ghost predicate Wrote(r: Outcome<Error>, before: State, after: State, spec: Result<State, Error>) {
    match spec
    case Success(s) => r.Pass? && after == s
    case Failure(err) => r == Fail(err) && after == before
  }

  class TxStore {
    var log: seq<LogEvent>
    var deltas: seq<VolumeDelta>
    var holds: seq<Hold>
    var transactions: map<Id, Transaction>
    var relationships: seq<Relationship>
    var keys: map<string, KeyRecord>

    function View(): State
      reads this
    {
      State(log, deltas, holds, transactions, relationships, keys)
    }

    constructor (committed: State)
      ensures View() == committed
    {
      log, deltas, holds := committed.log, committed.deltas, committed.holds;
      transactions, relationships, keys := committed.transactions, committed.relationships, committed.keys;
    }

    /** COALESCE(MAX(ledger_seq), 0) + 1: above every number in the log, by one above the highest. */
    method NextLedgerSeq() returns (seqNo: int)
      ensures forall i :: 0 <= i < |log| ==> log[i].seqNo < seqNo
      ensures if log == [] then seqNo == 1 else exists i :: 0 <= i < |log| && log[i].seqNo == seqNo - 1
      ensures seqNo == NextSeq(log)
    {
      var max := 0;
      for i := 0 to |log|
        invariant max == MaxSeq(log[..i])
        invariant forall j :: 0 <= j < i ==> log[j].seqNo <= max
        invariant if i == 0 then max == 0 else exists j :: 0 <= j < i && log[j].seqNo == max
      {
        assert log[..i + 1][..i] == log[..i];
        if i == 0 || log[i].seqNo > max {
          max := log[i].seqNo;
        }
      }
      assert log[..|log|] == log;
      seqNo := max + 1;
    }

    method AppendLogEvent(ev: LogEvent) returns (r: Outcome<Error>)
      modifies this`log
      ensures Wrote(r, old(View()), View(),
                if Collides(old(log), ev) then Failure(IdempotencyKeyConflict)
                else Success(old(View()).(log := old(log) + [ev])))
    {
      if Collides(log, ev) {
        return Fail(IdempotencyKeyConflict);
      }
      log := log + [ev];
      return Pass;
    }

    method InsertTransaction(t: Transaction) returns (r: Outcome<Error>)
      modifies this`transactions
      ensures Wrote(r, old(View()), View(), Transitions.InsertTransaction(old(View()), t))
    {
      if t.id in transactions || (t.reference != "" && HasReference(transactions, t.reference)) {
        return Fail(ReferenceConflict);
      }
      transactions := transactions[t.id := t];
      return Pass;
    }

    method InsertVolumeDelta(l: Ledger, d: VolumeDelta) returns (r: Outcome<Error>)
      modifies this`deltas
      ensures Wrote(r, old(View()), View(), InsertDelta(l, old(View()), d))
    {
      if l.keyedDeltas && HasRow(deltas, d) {
        return Fail(DuplicateRow);
      }
      deltas := deltas + [d];
      return Pass;
    }

    /** The sums of the bucket's rows at or before the two times, where they are given. */
    method GetBalance(b: Bucket, asOf: AsOf) returns (input: int, output: int)
      ensures input == Input(Visible(deltas, asOf), b) && output == Output(Visible(deltas, asOf), b)
      ensures asOf == AsOf(None, None) ==> input - output == Net(deltas, b)
    {
      input, output := 0, 0;
      for i := 0 to |deltas|
        invariant input == Input(Visible(deltas[..i], asOf), b) && output == Output(Visible(deltas[..i], asOf), b)
      {
        SumsOfPrefix(deltas, i, asOf, b);
        var d := deltas[i];
        if d.account == b.account && d.asset == b.asset && asOf.Sees(d) {
          input, output := input + d.input, output + d.output;
        }
      }
      assert deltas[..|deltas|] == deltas;
      AllVisible(deltas);
    }

    /** What the open holds of the bucket have not captured yet. */
    method GetActiveHoldsTotal(b: Bucket) returns (total: int)
      ensures total == ActiveHolds(holds, b)
      ensures (forall i :: 0 <= i < |holds| ==> holds[i].captured <= holds[i].authorized) ==> total >= 0
    {
      total := 0;
      for i := 0 to |holds|
        invariant total == ActiveHolds(holds[..i], b)
        invariant (forall j :: 0 <= j < i ==> holds[j].captured <= holds[j].authorized) ==> total >= 0
      {
        assert holds[..i + 1][..i] == holds[..i];
        var h := holds[i];
        if h.source == b.account && h.asset == b.asset && !h.voided && !h.expired {
          total := total + h.authorized - h.captured;
        }
      }
      assert holds[..|holds|] == holds;
    }

    method GetHold(id: Id) returns (r: Result<Hold, Error>)
      ensures r == if FindHold(holds, id) < |holds| then Success(holds[FindHold(holds, id)]) else Failure(NotFound)
    {
      var i := FindHold(holds, id);
      if i == |holds| {
        return Failure(NotFound);
      }
      return Success(holds[i]);
    }

    method InsertHold(h: Hold) returns (r: Outcome<Error>)
      modifies this`holds
      ensures Wrote(r, old(View()), View(), Transitions.InsertHold(old(View()), h))
    {
      if FindHold(holds, h.id) < |holds| {
        return Fail(DuplicateRow);
      }
      holds := holds + [h];
      return Pass;
    }

    /** The three guarded updates touch a row only while it is neither voided nor expired. */
    method UpdateHoldCaptured(id: Id, delta: int) returns (r: Outcome<Error>)
      modifies this`holds
      ensures Updated(r, old(holds), holds, id, (h: Hold) => h.(captured := h.captured + delta))
    {
      r := UpdateOpenHold(id, (h: Hold) => h.(captured := h.captured + delta));
    }

    method VoidHold(id: Id) returns (r: Outcome<Error>)
      modifies this`holds
      ensures Updated(r, old(holds), holds, id, (h: Hold) => h.(voided := true))
    {
      r := UpdateOpenHold(id, (h: Hold) => h.(voided := true));
    }

    method ExpireHold(id: Id) returns (r: Outcome<Error>)
      modifies this`holds
      ensures Updated(r, old(holds), holds, id, (h: Hold) => h.(expired := true))
    {
      r := UpdateOpenHold(id, (h: Hold) => h.(expired := true));
    }

    method UpdateOpenHold(id: Id, change: Hold -> Hold) returns (r: Outcome<Error>)
      modifies this`holds
      ensures Updated(r, old(holds), holds, id, change)
    {
      var i := FindHold(holds, id);
      if i == |holds| || !holds[i].Open() {
        return Fail(NotFound);
      }
      holds := holds[i := change(holds[i])];
      return Pass;
    }

    /** Rows where the transaction is parent or child. */
    method GetRelationships(txId: Id) returns (rels: seq<Relationship>)
      ensures forall r :: r in rels <==> r in relationships && (r.parent == txId || r.child == txId)
    {
      rels := Related(relationships, txId);
    }

    method InsertRelationship(rel: Relationship) returns (r: Outcome<Error>)
      modifies this`relationships
      ensures Wrote(r, old(View()), View(), Transitions.InsertRelationship(old(View()), rel))
    {
      if exists i :: 0 <= i < |relationships| && relationships[i].parent == rel.parent && relationships[i].child == rel.child {
        return Fail(DuplicateRow);
      }
      relationships := relationships + [rel];
      return Pass;
    }

    method InsertIdempotencyKey(key: string, rec: KeyRecord) returns (r: Outcome<Error>)
      modifies this`keys
      ensures r == if key in old(keys) then Fail(IdempotencyKeyConflict) else Pass
      ensures keys == if key in old(keys) then old(keys) else old(keys)[key := rec]
    {
      if key in keys {
        return Fail(IdempotencyKeyConflict);
      }
      keys := keys[key := rec];
      return Pass;
    }
  }

  /** A guarded update: the change on an open row with this ID, or NotFound and no change. */
  ghost predicate Updated(r: Outcome<Error>, before: seq<Hold>, after: seq<Hold>, id: Id, change: Hold -> Hold) {
    var i := FindHold(before, id);
    if i < |before| && before[i].Open() then r.Pass? && after == before[i := change(before[i])]
    else r == Fail(NotFound) && after == before
  }

  function Related(rels: seq<Relationship>, txId: Id): (out: seq<Relationship>)
    ensures forall r :: r in out <==> r in rels && (r.parent == txId || r.child == txId)
  {
    if rels == [] then []
    else
      var tail := Related(rels[1..], txId);
      if rels[0].parent == txId || rels[0].child == txId then [rels[0]] + tail else tail
  }

  /** The committed tables. */
  class Database {
    var committed: State

    constructor ()
      ensures committed == EMPTY
    {
      committed := EMPTY;
    }

    method BeginTx() returns (tx: TxStore)
      ensures fresh(tx) && tx.View() == committed
    {
      tx := new TxStore(committed);
    }

    /** Makes the transaction's view the committed state. Dropping `tx` instead is a rollback. */
    method Commit(tx: TxStore)
      modifies this
      ensures committed == tx.View()
    {
      committed := tx.View();
    }
  }
}
