/**
 * Closing a log batch with the root of its events, and verifying it against the events stored
 * later. The log hands a batch's events over in sequence order.
 */
module LogBatches {
  import opened Wrappers
  import opened HashEncoding
  import opened Merkle

  datatype BatchRow = BatchRow(root: Option<Digest>, count: nat)

  datatype LogRow = LogRow(batchId: string, event: Event)

  datatype BatchError = NotFound | NotClosed | StorageFault

  datatype Verdict = Verdict(valid: bool, root: Digest, count: nat)

  /** The events of one batch, in log order. */
  function EventsOf(log: seq<LogRow>, batchId: string): seq<Event> {
    if log == [] then []
    else EventsOf(log[..|log| - 1], batchId) + if log[|log| - 1].batchId == batchId then [log[|log| - 1].event] else []
  }

  lemma {:induction false} EventsAfterAppend(log: seq<LogRow>, row: LogRow, batchId: string)
    ensures EventsOf(log + [row], batchId) == EventsOf(log, batchId) + if row.batchId == batchId then [row.event] else []
  {
    assert (log + [row])[..|log|] == log;
  }

  class Manager {
    const h: HashFunction
    var log: seq<LogRow>
    var batches: map<string, BatchRow>

    constructor (h: HashFunction)
      ensures this.h == h && log == [] && batches == map[]
    {
      this.h, log, batches := h, [], map[];
    }

    method LeavesOf(events: seq<Event>) returns (r: seq<Digest>)
      ensures r == Leaves(h, events)
    {
      var leaves := new Digest[|events|];
      for i := 0 to |events|
        invariant forall j :: 0 <= j < i ==> leaves[j] == h(LeafInput(events[j]))
      {
        leaves[i] := h(LeafInput(events[i]));
      }
      return leaves[..];
    }

    /** An empty batch stays open without an error; an update that meets no row is not an error either. */
    method CloseBatch(batchId: string, readFails: bool, writeFails: bool) returns (r: Outcome<BatchError>)
      modifies this`batches
      ensures r.Fail? <==> readFails || (EventsOf(log, batchId) != [] && writeFails)
      ensures r.Pass? && EventsOf(log, batchId) != [] && batchId in old(batches) ==>
        batches == old(batches)[batchId :=
          BatchRow(Root(h, Leaves(h, EventsOf(log, batchId))), |EventsOf(log, batchId)|)]
      ensures r.Fail? || EventsOf(log, batchId) == [] || batchId !in old(batches) ==> batches == old(batches)
    {
      if readFails { return Fail(StorageFault); }
      var events := EventsOf(log, batchId);
      if |events| == 0 { return Pass; }
      var leaves := LeavesOf(events);
      var root := ComputeRoot(h, leaves);
      if writeFails { return Fail(StorageFault); }
      if batchId in batches {
        batches := batches[batchId := BatchRow(root, |events|)];
      }
      return Pass;
    }

    method VerifyBatch(batchId: string, readFails: bool) returns (r: Result<Verdict, BatchError>)
      ensures batchId !in batches ==> r == Failure(NotFound)
      ensures batchId in batches && batches[batchId].root.None? ==> r == Failure(NotClosed)
      ensures batchId in batches && batches[batchId].root.Some? ==>
        r == if readFails then Failure(StorageFault)
             else Success(Verdict(
               Matches(h, EventsOf(log, batchId), batches[batchId].root.value),
               batches[batchId].root.value, |EventsOf(log, batchId)|))
    {
      if batchId !in batches { return Failure(NotFound); }
      var root := batches[batchId].root;
      if root.None? { return Failure(NotClosed); }
      if readFails { return Failure(StorageFault); }
      var events := EventsOf(log, batchId);
      var leaves := LeavesOf(events);
      var valid := Verify(h, leaves, root);
      return Success(Verdict(valid, root.value, |events|));
    }
  }

  /** A non-empty list of events has this root. */
  predicate Matches(h: HashFunction, events: seq<Event>, root: Digest) {
    events != [] && Root(h, Leaves(h, events)) == Some(root)
  }

  /**
   * A batch closed over `closed` verifies later exactly when its stored events are still those, in
   * that order: no change, loss, addition or reordering of distinct events passes.
   */
  lemma {:induction false} VerifiesIffUnchanged(h: HashFunction, closed: seq<Event>, stored: seq<Event>)
    requires closed != [] && AllValid(closed) && DistinctIds(closed) && AllValid(stored) && DistinctIds(stored)
    requires NoCollision(h, HashedStrings(h, closed) + HashedStrings(h, stored))
    ensures Matches(h, stored, Root(h, Leaves(h, closed)).value) <==> stored == closed
  {
    if stored != [] {
      RootBinds(h, closed, stored);
    }
  }

  /** An event that joins the batch after its root was computed makes verification fail. */
  lemma {:induction false} LateEventFailsVerification(h: HashFunction, log: seq<LogRow>, row: LogRow, batchId: string)
    requires EventsOf(log, batchId) != [] && row.batchId == batchId
    requires AllValid(EventsOf(log + [row], batchId)) && DistinctIds(EventsOf(log + [row], batchId))
    requires NoCollision(h, HashedStrings(h, EventsOf(log, batchId)) + HashedStrings(h, EventsOf(log + [row], batchId)))
    ensures !Matches(h, EventsOf(log + [row], batchId), Root(h, Leaves(h, EventsOf(log, batchId))).value)
  {
    EventsAfterAppend(log, row, batchId);
    var before, after := EventsOf(log, batchId), EventsOf(log + [row], batchId);
    assert forall i :: 0 <= i < |before| ==> before[i] == after[i];
    VerifiesIffUnchanged(h, before, after);
  }
}
