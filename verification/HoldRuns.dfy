/**
 * Transactions on holds under every interleaving. A transaction locks a hold row when it reads it
 * and the ledger row when it takes a sequence number, keeps both to its end, and its writes show
 * only once it commits. After every run the tables are those of the committed operations, one after
 * another in commit order.
 */
module HoldRuns {
  import opened Wrappers
  import opened LedgerState
  import opened Transitions
  import opened Effects
  import opened Histories
  import opened Admission

  // ----- what one operation writes -----

  predicate HoldOp(op: Op) { op.Capture? || op.Void? || op.Expire? }

  function HoldIdOf(op: Op): Id
    requires HoldOp(op)
  {
    if op.Expire? then op.listed.id else op.holdId
  }

  /** What a capture, a void or an expiry refuses about the row it has read. */
  predicate Refuses(op: Op, h: Hold) {
    || !h.Open()
    || (op.Capture? && (op.amount <= 0 || op.amount > h.authorized - h.captured || CaptureDestination(h, op.destination) == ""))
  }

  datatype HoldWrite = NoHold | NewRow(row: Hold) | SetRow(row: Hold)

  /** The rows of one operation, to be merged into the tables at commit. */
  datatype Writes = Writes(
    event: LogEvent, rows: seq<VolumeDelta>, hold: HoldWrite, transaction: Option<Transaction>,
    relationship: Option<Relationship>, key: Option<KeyRecord>)

  function MergeHolds(holds: seq<Hold>, hw: HoldWrite): seq<Hold> {
    match hw
    case NoHold => holds
    case NewRow(h) => holds + [h]
    case SetRow(h) => var i := FindHold(holds, h.id); if i < |holds| then holds[i := h] else holds
  }

  function Merge(s: State, ws: Writes): State {
    State(
      s.log + [ws.event],
      s.deltas + ws.rows,
      MergeHolds(s.holds, ws.hold),
      if ws.transaction.Some? then s.transactions[ws.transaction.value.id := ws.transaction.value] else s.transactions,
      if ws.relationship.Some? then s.relationships + [ws.relationship.value] else s.relationships,
      if ws.key.Some? then s.keys[ws.event.key := ws.key.value] else s.keys)
  }

  function MergeAll(s: State, wss: seq<Writes>): State {
    if wss == [] then s else Merge(MergeAll(s, wss[..|wss| - 1]), wss[|wss| - 1])
  }

  /** The tables as the operation knows them: a hold operation goes by the row it read under its lock. */
  function Seen(v: State, snap: Option<Hold>): State { if snap.Some? then v.(holds := [snap.value]) else v }

  function EventOf(v: State, c: Call, snap: Option<Hold>, seqNo: int): LogEvent {
    AppendedEvent(Seen(v, snap), c.op, c.env).(seqNo := seqNo)
  }

  /** The guarded update of a hold row reads the row as it is now. */
  function UpdatedRow(op: Op, h: Hold): Hold
    requires HoldOp(op)
  {
    match op
    case Capture(_, amount, _) => h.(captured := h.captured + amount)
    case Void(_) => h.(voided := true)
    case Expire(_) => h.(expired := true)
  }

  function WriteHold(holds: seq<Hold>, op: Op, e: Env): Option<HoldWrite> {
    if op.Authorize? then
      if FindHold(holds, e.holdId) < |holds| then None
      else Some(NewRow(NewHold(op.source, op.destinationHint, op.asset, op.amount, op.expiresAt, e)))
    else if HoldOp(op) then
      var i := FindHold(holds, HoldIdOf(op));
      if i == |holds| || !holds[i].Open() then None else Some(SetRow(UpdatedRow(op, holds[i])))
    else Some(NoHold)
  }

  /** The statements after the append; None when one of them is rejected. */
  function WritesOf(l: Ledger, v: State, c: Call, snap: Option<Hold>, ev: LogEvent): Option<Writes> {
    var op, e := c.op, c.env;
    var rows := AppendedRows(Seen(v, snap), op, e);
    var hold := WriteHold(v.holds, op, e);
    var t := StoredTransaction(v, op, e);
    if hold.None? || InsertDeltas(l, v, rows).Failure? then None
    else if StoresTransaction(op) && InsertTransaction(v, t).Failure? then None
    else if op.Revert? && InsertRelationship(v, Relationship(op.txId, e.txId, e.eventId, e.now)).Failure? then None
    else Some(Writes(
      ev, rows, hold.value,
      if StoresTransaction(op) then Some(t) else None,
      if op.Revert? then Some(Relationship(op.txId, e.txId, e.eventId, e.now)) else None,
      if !op.Expire? && e.key != "" && e.hash.Some? && e.key !in v.keys then Some(KeyRecord(e.eventId, e.hash.value)) else None))
  }

  // ----- runs -----

  /** Where a transaction stands in its current operation. */
  datatype Stage =
    | Ready
    | Checked(call: Call, snap: Option<Hold>)
    | HasNumber(call: Call, snap: Option<Hold>, seqNo: int)
    | Appended(call: Call, snap: Option<Hold>, event: LogEvent)

  /** An open transaction: the writes of the operations it has finished, one or, in a batch, more. */
  datatype Tx = Tx(writes: seq<Writes>, calls: seq<Call>, stage: Stage)

  datatype World = World(
    db: State, holdLocks: map<Id, nat>, ledgerLock: Option<nat>, open: map<nat, Tx>, committed: seq<Call>)
  {
    function TxOf(p: nat): Tx { if p in open then open[p] else Tx([], [], Ready) }

    /** A transaction sees its own writes. */
    function View(p: nat): State { MergeAll(db, TxOf(p).writes) }

    function Put(p: nat, tx: Tx): World { this.(open := open[p := tx]) }

    /** Commit, rollback or crash: the transaction and its locks are gone. */
    function End(p: nat): World {
      World(
        db, map id | id in holdLocks && holdLocks[id] != p :: holdLocks[id],
        if ledgerLock == Some(p) then None else ledgerLock, open - {p}, committed)
    }

    predicate HoldFree(id: Id, p: nat) { id in holdLocks ==> holdLocks[id] == p }
  }

  /** `accepts` is the verdict of the checks that take no lock, on whatever tables they happened to see. */
  datatype Event =
    | Check(p: nat, call: Call, accepts: bool)
    | TakeNumber(p: nat)
    | Append(p: nat)
    | Write(p: nat)
    | Commit(p: nat)
    | Crash(p: nat)

  /** The checks before the append. A hold operation locks its row first, unless rows are not locked at all. */
  function CheckHold(rowLocks: bool, w: World, p: nat, c: Call): World
    requires HoldOp(c.op)
  {
    var id := HoldIdOf(c.op);
    var holds := w.View(p).holds;
    var i := FindHold(holds, id);
    if rowLocks && !w.HoldFree(id, p) then w
    else if i == |holds| || Refuses(c.op, holds[i]) then w.End(p)
    else w.Put(p, w.TxOf(p).(stage := Checked(c, Some(holds[i])))).(holdLocks := w.holdLocks[id := p])
  }

  /** The first step of an operation: the checks that last, and `accepts` for those that do not. */
  function CheckStep(l: Ledger, rowLocks: bool, w: World, p: nat, c: Call, accepts: bool): World {
    if HoldOp(c.op) then CheckHold(rowLocks, w, p, c)
    else if !accepts || !Admissible(l, w.View(p), c.op) then w.End(p)
    else w.Put(p, w.TxOf(p).(stage := Checked(c, None)))
  }

  function AppendStep(w: World, p: nat, tx: Tx): World
    requires tx.stage.HasNumber?
  {
    var v := MergeAll(w.db, tx.writes);
    var logged := EventOf(v, tx.stage.call, tx.stage.snap, tx.stage.seqNo);
    if Collides(v.log, logged) then w.End(p) else w.Put(p, tx.(stage := Appended(tx.stage.call, tx.stage.snap, logged)))
  }

  function WriteStep(l: Ledger, w: World, p: nat, tx: Tx): World
    requires tx.stage.Appended?
  {
    var ws := WritesOf(l, MergeAll(w.db, tx.writes), tx.stage.call, tx.stage.snap, tx.stage.event);
    if ws.None? then w.End(p) else w.Put(p, Tx(tx.writes + [ws.value], tx.calls + [tx.stage.call], Ready))
  }

  /** An event that is not possible where its transaction stands changes nothing. */
  function Next(l: Ledger, rowLocks: bool, w: World, ev: Event): World {
    var tx, v := w.TxOf(ev.p), w.View(ev.p);
    match ev
    case Check(p, c, accepts) => if !tx.stage.Ready? then w else CheckStep(l, rowLocks, w, p, c, accepts)
    case TakeNumber(p) =>
      if !tx.stage.Checked? || (w.ledgerLock.Some? && w.ledgerLock != Some(p)) then w
      else w.Put(p, tx.(stage := HasNumber(tx.stage.call, tx.stage.snap, NextSeq(v.log)))).(ledgerLock := Some(p))
    case Append(p) =>
      if !tx.stage.HasNumber? then w else AppendStep(w, p, tx)
    case Write(p) =>
      if !tx.stage.Appended? then w else WriteStep(l, w, p, tx)
    case Commit(p) =>
      if !tx.stage.Ready? then w else w.End(p).(db := MergeAll(w.db, tx.writes), committed := w.committed + tx.calls)
    case Crash(p) => w.End(p)
  }

  function Begin(s: State): World { World(s, map[], None, map[], []) }

  function RunFrom(l: Ledger, rowLocks: bool, s: State, es: seq<Event>): World {
    if es == [] then Begin(s) else Next(l, rowLocks, RunFrom(l, rowLocks, s, es[..|es| - 1]), es[|es| - 1])
  }

  // ----- serial histories -----

  /** One committed operation after another, each with its full effect. */
  function Serial(s: State, calls: seq<Call>): State {
    if calls == [] then s
    else Committed(Serial(s, calls[..|calls| - 1]), calls[|calls| - 1].op, calls[|calls| - 1].env)
  }

  ghost predicate AllMayCommit(l: Ledger, s: State, calls: seq<Call>) {
    calls == []
    || (AllMayCommit(l, s, calls[..|calls| - 1]) && MayCommit(l, Serial(s, calls[..|calls| - 1]), calls[|calls| - 1]))
  }

  ghost predicate Sound(s: State) { LogSound(s) && HoldsSound(s.holds) && CapturesLogged(s) }

  lemma {:induction false} LastOfConcat(xs: seq<Call>, ys: seq<Call>)
    requires ys != []
    ensures xs + ys == xs + ys[..|ys| - 1] + [ys[|ys| - 1]] && ys == ys[..|ys| - 1] + [ys[|ys| - 1]]
  {
  }

  lemma {:induction false} SerialConcat(s: State, xs: seq<Call>, ys: seq<Call>)
    ensures Serial(s, xs + ys) == Serial(Serial(s, xs), ys)
  {
    if ys == [] {
      assert xs + ys == xs;
    } else {
      var before, c := ys[..|ys| - 1], ys[|ys| - 1];
      LastOfConcat(xs, ys);
      SerialConcat(s, xs, before);
      SerialOne(s, xs + before, c);
      SerialOne(Serial(s, xs), before, c);
    }
  }

  lemma {:induction false} MayCommitConcat(l: Ledger, s: State, xs: seq<Call>, ys: seq<Call>)
    requires AllMayCommit(l, s, xs) && AllMayCommit(l, Serial(s, xs), ys)
    ensures AllMayCommit(l, s, xs + ys)
  {
    if ys == [] {
      assert xs + ys == xs;
    } else {
      var before, c := ys[..|ys| - 1], ys[|ys| - 1];
      LastOfConcat(xs, ys);
      MayCommitConcat(l, s, xs, before);
      SerialConcat(s, xs, before);
      MayCommitOne(l, s, xs + before, c);
    }
  }

  lemma {:induction false} SerialOne(s: State, calls: seq<Call>, c: Call)
    ensures Serial(s, calls + [c]) == Committed(Serial(s, calls), c.op, c.env)
  {
    assert (calls + [c])[..|calls|] == calls;
  }

  lemma {:induction false} MayCommitKeepsSound(l: Ledger, s: State, c: Call)
    requires Sound(s) && MayCommit(l, s, c)
    ensures Sound(Committed(s, c.op, c.env)) && HoldsMoved(s.holds, Committed(s, c.op, c.env).holds)
  {
    CommittedKeepsLog(s, c.op, c.env);
    GuardedHoldChange(s, c.op, c.env);
    CommittedKeepsCaptures(s, c.op, c.env);
  }

  lemma {:induction false} NothingMoved(holds: seq<Hold>)
    ensures HoldsMoved(holds, holds)
  {
  }

  lemma {:induction false} SerialSound(l: Ledger, s: State, calls: seq<Call>)
    requires Sound(s) && AllMayCommit(l, s, calls)
    ensures Sound(Serial(s, calls)) && HoldsMoved(s.holds, Serial(s, calls).holds)
  {
    if calls == [] {
      NothingMoved(s.holds);
    } else {
      var n := |calls| - 1;
      SerialSound(l, s, calls[..n]);
      MayCommitKeepsSound(l, Serial(s, calls[..n]), calls[n]);
      MovedTwice(s.holds, Serial(s, calls[..n]).holds, Serial(s, calls).holds);
    }
  }

  // ----- an operation that got through is the serial one -----

  /** What the checks established and the row lock keeps. */
  ghost predicate CallOk(l: Ledger, v: State, c: Call, snap: Option<Hold>) {
    if HoldOp(c.op) then
      var i := FindHold(v.holds, HoldIdOf(c.op));
      snap.Some? && i < |v.holds| && v.holds[i] == snap.value && !Refuses(c.op, snap.value)
    else snap.None? && Admissible(l, v, c.op)
  }

  /** The row read under the lock gives the event and the rows that the present tables would. */
  lemma {:induction false} SeenIsCurrent(l: Ledger, v: State, c: Call, snap: Option<Hold>)
    requires CallOk(l, v, c, snap)
    ensures EventOf(v, c, snap, NextSeq(v.log)) == AppendedEvent(v, c.op, c.env)
    ensures AppendedRows(Seen(v, snap), c.op, c.env) == AppendedRows(v, c.op, c.env)
  {
    if HoldOp(c.op) {
      assert FindHold([snap.value], HoldIdOf(c.op)) == 0;
    }
  }

  lemma {:induction false} MergedHolds(v: State, c: Call)
    requires WriteHold(v.holds, c.op, c.env).Some?
    ensures MergeHolds(v.holds, WriteHold(v.holds, c.op, c.env).value) == HoldsAfter(v.holds, c.op, c.env)
  {
  }

  /** Merging the writes of an operation is its serial effect. */
  lemma {:induction false} WriteIsSerial(l: Ledger, v: State, c: Call, snap: Option<Hold>, ev: LogEvent)
    requires CallOk(l, v, c, snap) && ev == AppendedEvent(v, c.op, c.env) && !Collides(v.log, ev)
    requires WritesOf(l, v, c, snap, ev).Some?
    ensures Merge(v, WritesOf(l, v, c, snap, ev).value) == Committed(v, c.op, c.env)
    ensures MayCommit(l, v, c)
  {
    SeenIsCurrent(l, v, c, snap);
    MergedHolds(v, c);
  }

  // ----- what every step keeps -----

  ghost predicate StageSound(l: Ledger, v: State, st: Stage) {
    match st
    case Ready => true
    case Checked(c, snap) => CallOk(l, v, c, snap)
    case HasNumber(c, snap, seqNo) => CallOk(l, v, c, snap) && seqNo == NextSeq(v.log)
    case Appended(c, snap, ev) => CallOk(l, v, c, snap) && ev == AppendedEvent(v, c.op, c.env) && !Collides(v.log, ev)
  }

  predicate NeedsLedger(tx: Tx) { tx.writes != [] || tx.stage.HasNumber? || tx.stage.Appended? }

  /** The operations of a transaction, finished or under way. */
  function AllCalls(tx: Tx): seq<Call> { if tx.stage.Ready? then tx.calls else tx.calls + [tx.stage.call] }

  ghost predicate HoldsLocks(w: World, p: nat, tx: Tx) {
    && (NeedsLedger(tx) ==> w.ledgerLock == Some(p))
    && (forall c :: c in AllCalls(tx) && HoldOp(c.op) ==>
          HoldIdOf(c.op) in w.holdLocks && w.holdLocks[HoldIdOf(c.op)] == p)
  }

  ghost predicate TxSound(l: Ledger, db: State, tx: Tx) {
    && |tx.writes| == |tx.calls|
    && MergeAll(db, tx.writes) == Serial(db, tx.calls) && AllMayCommit(l, db, tx.calls)
    && StageSound(l, MergeAll(db, tx.writes), tx.stage)
  }

  ghost predicate Inv(l: Ledger, s: State, w: World) {
    && w.db == Serial(s, w.committed) && AllMayCommit(l, s, w.committed)
    && (forall p: nat :: p in w.open ==> HoldsLocks(w, p, w.open[p]))
    && (forall p: nat :: p in w.open ==> TxSound(l, w.db, w.open[p]))
  }

  lemma {:induction false} MergeOne(s: State, wss: seq<Writes>, ws: Writes)
    ensures MergeAll(s, wss + [ws]) == Merge(MergeAll(s, wss), ws)
  {
    assert (wss + [ws])[..|wss|] == wss;
  }

  lemma {:induction false} MayCommitOne(l: Ledger, s: State, calls: seq<Call>, c: Call)
    requires AllMayCommit(l, s, calls) && MayCommit(l, Serial(s, calls), c)
    ensures AllMayCommit(l, s, calls + [c])
  {
    assert (calls + [c])[..|calls|] == calls;
  }

  predicate CommitsNow(w: World, ev: Event) { ev.Commit? && w.TxOf(ev.p).stage.Ready? }

  lemma {:induction false} CheckLeavesOthers(l: Ledger, w: World, p: nat, c: Call, accepts: bool, q: nat)
    requires q != p
    ensures var w' := CheckStep(l, true, w, p, c, accepts);
      && (q in w'.open <==> q in w.open) && (q in w.open ==> w'.open[q] == w.open[q])
      && (w.ledgerLock == Some(q) ==> w'.ledgerLock == Some(q))
      && forall id :: id in w.holdLocks && w.holdLocks[id] == q ==> id in w'.holdLocks && w'.holdLocks[id] == q
  {
  }

  /** A step that is no commit touches only its own transaction and locks. */
  lemma {:induction false} OthersUntouched(l: Ledger, w: World, ev: Event, q: nat)
    requires !CommitsNow(w, ev) && q != ev.p
    ensures var w' := Next(l, true, w, ev);
      && (q in w'.open <==> q in w.open) && (q in w.open ==> w'.open[q] == w.open[q])
      && (w.ledgerLock == Some(q) ==> w'.ledgerLock == Some(q))
      && forall id :: id in w.holdLocks && w.holdLocks[id] == q ==> id in w'.holdLocks && w'.holdLocks[id] == q
  {
    match ev
    case Check(p, c, accepts) => CheckLeavesOthers(l, w, p, c, accepts, q);
    case _ =>
  }

  lemma {:induction false} TablesUntouched(l: Ledger, w: World, ev: Event)
    requires !CommitsNow(w, ev)
    ensures Next(l, true, w, ev).db == w.db && Next(l, true, w, ev).committed == w.committed
  {
  }

  lemma {:induction false} LockedOneMore(w: World, w': World, p: nat, tx: Tx, st: Stage)
    requires HoldsLocks(w, p, tx) && tx.stage.Ready? && st.Checked? && w'.ledgerLock == w.ledgerLock
    requires w'.holdLocks == if HoldOp(st.call.op) then w.holdLocks[HoldIdOf(st.call.op) := p] else w.holdLocks
    ensures HoldsLocks(w', p, tx.(stage := st))
  {
    assert AllCalls(tx.(stage := st)) == AllCalls(tx) + [st.call];
  }

  lemma {:induction false} CheckHoldSound(l: Ledger, w: World, p: nat, c: Call)
    requires HoldOp(c.op) && TxSound(l, w.db, w.TxOf(p)) && w.TxOf(p).stage.Ready? && HoldsLocks(w, p, w.TxOf(p))
    ensures var w' := CheckHold(true, w, p, c);
      p in w'.open ==> TxSound(l, w.db, w'.open[p]) && HoldsLocks(w', p, w'.open[p])
  {
    var w' := CheckHold(true, w, p, c);
    if p in w'.open && w'.open[p].stage.Checked? {
      LockedOneMore(w, w', p, w.TxOf(p), w'.open[p].stage);
    }
  }

  lemma {:induction false} CheckSound(l: Ledger, w: World, p: nat, c: Call, accepts: bool)
    requires TxSound(l, w.db, w.TxOf(p)) && w.TxOf(p).stage.Ready? && HoldsLocks(w, p, w.TxOf(p))
    ensures var w' := CheckStep(l, true, w, p, c, accepts);
      p in w'.open ==> TxSound(l, w.db, w'.open[p]) && HoldsLocks(w', p, w'.open[p])
  {
    if HoldOp(c.op) {
      CheckHoldSound(l, w, p, c);
    } else {
      var w' := CheckStep(l, true, w, p, c, accepts);
      if p in w'.open {
        LockedOneMore(w, w', p, w.TxOf(p), Checked(c, None));
      }
    }
  }

  lemma {:induction false} AppendSound(l: Ledger, w: World, p: nat)
    requires TxSound(l, w.db, w.TxOf(p)) && w.TxOf(p).stage.HasNumber?
    ensures p in AppendStep(w, p, w.TxOf(p)).open ==> TxSound(l, w.db, AppendStep(w, p, w.TxOf(p)).open[p])
  {
    SeenIsCurrent(l, w.View(p), w.TxOf(p).stage.call, w.TxOf(p).stage.snap);
  }

  /** One more finished operation. */
  lemma {:induction false} FinishedSound(l: Ledger, db: State, tx: Tx, ws: Writes)
    requires TxSound(l, db, tx) && tx.stage.Appended?
    requires WritesOf(l, MergeAll(db, tx.writes), tx.stage.call, tx.stage.snap, tx.stage.event) == Some(ws)
    ensures TxSound(l, db, Tx(tx.writes + [ws], tx.calls + [tx.stage.call], Ready))
  {
    var c := tx.stage.call;
    WriteIsSerial(l, MergeAll(db, tx.writes), c, tx.stage.snap, tx.stage.event);
    MergeOne(db, tx.writes, ws);
    SerialOne(db, tx.calls, c);
    MayCommitOne(l, db, tx.calls, c);
  }

  lemma {:induction false} WriteSound(l: Ledger, w: World, p: nat)
    requires TxSound(l, w.db, w.TxOf(p)) && w.TxOf(p).stage.Appended?
    ensures p in WriteStep(l, w, p, w.TxOf(p)).open ==> TxSound(l, w.db, WriteStep(l, w, p, w.TxOf(p)).open[p])
  {
    var tx := w.TxOf(p);
    var ws := WritesOf(l, w.View(p), tx.stage.call, tx.stage.snap, tx.stage.event);
    if ws.Some? {
      FinishedSound(l, w.db, tx, ws.value);
    }
  }

  /** What a step leaves of its own transaction, if anything. */
  lemma {:induction false} OwnStep(l: Ledger, w: World, ev: Event)
    requires TxSound(l, w.db, w.TxOf(ev.p)) && HoldsLocks(w, ev.p, w.TxOf(ev.p))
    requires ev.p in Next(l, true, w, ev).open && !ev.Commit?
    ensures TxSound(l, w.db, Next(l, true, w, ev).open[ev.p])
  {
    match ev
    case Check(p, c, accepts) =>
      if w.TxOf(p).stage.Ready? {
        CheckSound(l, w, p, c, accepts);
      }
    case Append(p) =>
      if w.TxOf(p).stage.HasNumber? {
        AppendSound(l, w, p);
      }
    case Write(p) =>
      if w.TxOf(p).stage.Appended? {
        WriteSound(l, w, p);
      }
    case _ =>
  }

  lemma {:induction false} OwnLocks(l: Ledger, w: World, ev: Event)
    requires TxSound(l, w.db, w.TxOf(ev.p)) && HoldsLocks(w, ev.p, w.TxOf(ev.p))
    requires ev.p in Next(l, true, w, ev).open
    ensures HoldsLocks(Next(l, true, w, ev), ev.p, Next(l, true, w, ev).open[ev.p])
  {
    match ev
    case Check(p, c, accepts) =>
      if w.TxOf(p).stage.Ready? {
        CheckSound(l, w, p, c, accepts);
      }
    case _ =>
      SameCalls(l, w, ev);
  }

  lemma {:induction false} SameCalls(l: Ledger, w: World, ev: Event)
    requires ev.p in Next(l, true, w, ev).open && !ev.Check?
    ensures var w' := Next(l, true, w, ev);
      AllCalls(w'.open[ev.p]) == AllCalls(w.TxOf(ev.p)) && w'.holdLocks == w.holdLocks
      && (NeedsLedger(w'.open[ev.p]) ==>
            w'.ledgerLock == Some(ev.p) || (NeedsLedger(w.TxOf(ev.p)) && w'.ledgerLock == w.ledgerLock))
  {
  }

  lemma {:induction false} EmptyTxSound(l: Ledger, w: World, p: nat)
    requires p !in w.open
    ensures TxSound(l, w.db, w.TxOf(p)) && HoldsLocks(w, p, w.TxOf(p))
  {
  }

  lemma {:induction false} OtherLocks(l: Ledger, w: World, ev: Event, p: nat)
    requires p != ev.p && p in w.open && HoldsLocks(w, p, w.open[p])
    ensures HoldsLocks(Next(l, true, w, ev), p, w.open[p])
  {
    if !CommitsNow(w, ev) {
      OthersUntouched(l, w, ev, p);
    }
  }

  lemma {:induction false} StaysOpen(l: Ledger, w: World, ev: Event, p: nat)
    requires p != ev.p && p in Next(l, true, w, ev).open
    ensures p in w.open && Next(l, true, w, ev).open[p] == w.open[p]
  {
    if !CommitsNow(w, ev) {
      OthersUntouched(l, w, ev, p);
    }
  }

  lemma {:induction false} LocksKept(l: Ledger, s: State, w: World, ev: Event, p: nat)
    requires Inv(l, s, w) && p in Next(l, true, w, ev).open
    ensures HoldsLocks(Next(l, true, w, ev), p, Next(l, true, w, ev).open[p])
  {
    if ev.p !in w.open {
      EmptyTxSound(l, w, ev.p);
    }
    if p == ev.p {
      OwnLocks(l, w, ev);
    } else {
      StaysOpen(l, w, ev, p);
      OtherLocks(l, w, ev, p);
    }
  }

  /** A commit of another transaction leaves the row under one's own lock as it was. */
  lemma {:induction false} SerialKeepsRow(s: State, calls: seq<Call>, id: Id)
    requires forall c :: c in calls && HoldOp(c.op) ==> HoldIdOf(c.op) != id
    requires FindHold(s.holds, id) < |s.holds|
    ensures FindHold(Serial(s, calls).holds, id) == FindHold(s.holds, id) < |Serial(s, calls).holds|
    ensures Serial(s, calls).holds[FindHold(s.holds, id)] == s.holds[FindHold(s.holds, id)]
  {
    if calls != [] {
      var n := |calls| - 1;
      assert calls[n] in calls && forall c :: c in calls[..n] ==> c in calls;
      SerialKeepsRow(s, calls[..n], id);
      EffectKeepsRow(Serial(s, calls[..n]).holds, calls[n].op, calls[n].env, id);
    }
  }

  lemma {:induction false} EffectKeepsRow(holds: seq<Hold>, op: Op, e: Env, id: Id)
    requires HoldOp(op) ==> HoldIdOf(op) != id
    requires FindHold(holds, id) < |holds|
    ensures FindHold(HoldsAfter(holds, op, e), id) == FindHold(holds, id) < |HoldsAfter(holds, op, e)|
    ensures HoldsAfter(holds, op, e)[FindHold(holds, id)] == holds[FindHold(holds, id)]
  {
    var after, i := HoldsAfter(holds, op, e), FindHold(holds, id);
    assert |holds| <= |after| && forall j :: 0 <= j <= i ==> after[j].id == holds[j].id;
    FirstIsFound(after, id, i);
  }

  lemma {:induction false} FirstIsFound(holds: seq<Hold>, id: Id, i: nat)
    requires i < |holds| && holds[i].id == id && forall j :: 0 <= j < i ==> holds[j].id != id
    ensures FindHold(holds, id) == i
  {
  }

  /** Stored transactions stay as they are. */
  lemma {:induction false} TransactionStays(l: Ledger, s: State, calls: seq<Call>, id: Id)
    requires AllMayCommit(l, s, calls) && id in s.transactions
    ensures id in Serial(s, calls).transactions && Serial(s, calls).transactions[id] == s.transactions[id]
  {
    if calls != [] {
      TransactionStays(l, s, calls[..|calls| - 1], id);
    }
  }

  /** A transaction that has written nothing keeps what it has checked while others commit. */
  lemma {:induction false} CheckedStays(l: Ledger, db: State, calls: seq<Call>, c: Call, snap: Option<Hold>)
    requires CallOk(l, db, c, snap) && AllMayCommit(l, db, calls)
    requires HoldOp(c.op) ==> forall d :: d in calls && HoldOp(d.op) ==> HoldIdOf(d.op) != HoldIdOf(c.op)
    ensures CallOk(l, Serial(db, calls), c, snap)
  {
    if HoldOp(c.op) {
      SerialKeepsRow(db, calls, HoldIdOf(c.op));
    } else if c.op.Revert? {
      TransactionStays(l, db, calls, c.op.txId);
    }
  }

  lemma {:induction false} DifferentHolds(w: World, p: nat, q: nat, mine: Tx, other: Tx)
    requires p != q && HoldsLocks(w, p, mine) && HoldsLocks(w, q, other) && mine.stage.Ready? && other.stage.Checked?
    requires HoldOp(other.stage.call.op)
    ensures forall d :: d in mine.calls && HoldOp(d.op) ==> HoldIdOf(d.op) != HoldIdOf(other.stage.call.op)
  {
    assert other.stage.call in AllCalls(other) && AllCalls(mine) == mine.calls;
  }

  /** The others when one commits: they hold no ledger lock, so they have written nothing yet. */
  lemma {:induction false} OthersAtCommit(l: Ledger, w: World, p: nat, q: nat, mine: Tx, other: Tx)
    requires p != q && HoldsLocks(w, p, mine) && HoldsLocks(w, q, other) && mine.stage.Ready? && NeedsLedger(mine)
    requires TxSound(l, w.db, mine) && TxSound(l, w.db, other)
    ensures TxSound(l, Serial(w.db, mine.calls), other)
  {
    assert other.writes == [] && other.calls == [];
    if other.stage.Checked? {
      if HoldOp(other.stage.call.op) {
        DifferentHolds(w, p, q, mine, other);
      }
      CheckedStays(l, w.db, mine.calls, other.stage.call, other.stage.snap);
    }
  }

  lemma {:induction false} OwnTxSound(l: Ledger, s: State, w: World, p: nat)
    requires Inv(l, s, w)
    ensures TxSound(l, w.db, w.TxOf(p)) && HoldsLocks(w, p, w.TxOf(p))
  {
    if p !in w.open {
      EmptyTxSound(l, w, p);
    }
  }

  lemma {:induction false} CommitIsSerial(l: Ledger, s: State, w: World, p: nat)
    requires w.db == Serial(s, w.committed) && AllMayCommit(l, s, w.committed)
    requires w.TxOf(p).stage.Ready? && TxSound(l, w.db, w.TxOf(p))
    ensures var w' := Next(l, true, w, Commit(p));
      w'.db == Serial(s, w'.committed) && AllMayCommit(l, s, w'.committed)
  {
    SerialConcat(s, w.committed, w.TxOf(p).calls);
    MayCommitConcat(l, s, w.committed, w.TxOf(p).calls);
  }

  lemma {:induction false} CommitLeavesOthers(l: Ledger, s: State, w: World, p: nat)
    requires Inv(l, s, w) && w.TxOf(p).stage.Ready?
    ensures var w' := Next(l, true, w, Commit(p));
      forall q: nat :: q in w'.open ==> TxSound(l, w'.db, w'.open[q])
  {
    var w' := Next(l, true, w, Commit(p));
    var mine := w.TxOf(p);
    OwnTxSound(l, s, w, p);
    forall q: nat | q in w'.open
      ensures TxSound(l, w'.db, w'.open[q])
    {
      assert q != p && w'.open[q] == w.open[q];
      if NeedsLedger(mine) {
        OthersAtCommit(l, w, p, q, mine, w.open[q]);
      } else {
        assert mine.writes == [] && w'.db == w.db;
      }
    }
  }

  lemma {:induction false} NextKeeps(l: Ledger, s: State, w: World, ev: Event)
    requires Inv(l, s, w)
    ensures Inv(l, s, Next(l, true, w, ev))
  {
    var w' := Next(l, true, w, ev);
    forall p: nat | p in w'.open
      ensures HoldsLocks(w', p, w'.open[p])
    {
      LocksKept(l, s, w, ev, p);
    }
    if CommitsNow(w, ev) {
      OwnTxSound(l, s, w, ev.p);
      CommitIsSerial(l, s, w, ev.p);
      CommitLeavesOthers(l, s, w, ev.p);
    } else {
      OpenKept(l, s, w, ev);
    }
  }

  lemma {:induction false} OpenKept(l: Ledger, s: State, w: World, ev: Event)
    requires Inv(l, s, w) && !CommitsNow(w, ev)
    ensures var w' := Next(l, true, w, ev);
      && w'.db == w.db && w'.committed == w.committed
      && forall q: nat :: q in w'.open ==> TxSound(l, w.db, w'.open[q])
  {
    var w' := Next(l, true, w, ev);
    TablesUntouched(l, w, ev);
    if ev.p !in w.open {
      EmptyTxSound(l, w, ev.p);
    }
    forall q: nat | q in w'.open
      ensures TxSound(l, w.db, w'.open[q])
    {
      if q != ev.p {
        OthersUntouched(l, w, ev, q);
      } else if ev.Commit? {
        assert w' == w;
      } else {
        OwnStep(l, w, ev);
      }
    }
  }

  /** Every run commits a serial history, in commit order, of operations that may commit where they stand. */
  lemma {:induction false} RunsAreSerial(l: Ledger, s: State, es: seq<Event>)
    requires Sound(s)
    ensures Inv(l, s, RunFrom(l, true, s, es))
    ensures RunFrom(l, true, s, es).db == Serial(s, RunFrom(l, true, s, es).committed)
    ensures AllMayCommit(l, s, RunFrom(l, true, s, es).committed)
  {
    if es != [] {
      RunsAreSerial(l, s, es[..|es| - 1]);
      NextKeeps(l, s, RunFrom(l, true, s, es[..|es| - 1]), es[|es| - 1]);
    }
  }

  /**
   * Under every interleaving 0 <= captured <= authorized, captured is the sum of the hold's capture
   * events, no hold is both voided and expired, and sequence numbers are 1, 2, ..., n.
   */
  lemma {:induction false} HoldMachine(l: Ledger, s: State, es: seq<Event>)
    requires Sound(s)
    ensures HoldsSound(RunFrom(l, true, s, es).db.holds) && CapturesLogged(RunFrom(l, true, s, es).db)
    ensures LogSound(RunFrom(l, true, s, es).db)
  {
    RunsAreSerial(l, s, es);
    SerialSound(l, s, RunFrom(l, true, s, es).committed);
  }

  lemma {:induction false} StepMoves(l: Ledger, s: State, w: World, ev: Event)
    requires Sound(s) && Inv(l, s, w)
    ensures HoldsMoved(w.db.holds, Next(l, true, w, ev).db.holds)
  {
    if CommitsNow(w, ev) {
      assert TxSound(l, w.db, w.TxOf(ev.p));
      SerialSound(l, s, w.committed);
      SerialSound(l, w.db, w.TxOf(ev.p).calls);
    } else {
      OpenKept(l, s, w, ev);
      NothingMoved(w.db.holds);
    }
  }

  lemma {:induction false} MovedOneMore(l: Ledger, s: State, w: World, ev: Event, holds: seq<Hold>)
    requires Sound(s) && Inv(l, s, w) && HoldsMoved(holds, w.db.holds)
    ensures HoldsMoved(holds, Next(l, true, w, ev).db.holds)
  {
    StepMoves(l, s, w, ev);
    MovedTwice(holds, w.db.holds, Next(l, true, w, ev).db.holds);
  }

  lemma {:induction false} LastEvent(xs: seq<Event>, ys: seq<Event>)
    requires ys != []
    ensures xs + ys == xs + ys[..|ys| - 1] + [ys[|ys| - 1]]
  {
  }

  /** However a run goes on, captured never falls and a voided or expired hold is never touched again. */
  lemma {:induction false} ClosedHoldsStay(l: Ledger, s: State, es: seq<Event>, more: seq<Event>)
    requires Sound(s)
    ensures HoldsMoved(RunFrom(l, true, s, es).db.holds, RunFrom(l, true, s, es + more).db.holds)
  {
    if more == [] {
      assert es + more == es;
      NothingMoved(RunFrom(l, true, s, es).db.holds);
    } else {
      var before, ev := more[..|more| - 1], more[|more| - 1];
      ClosedHoldsStay(l, s, es, before);
      RunsAreSerial(l, s, es + before);
      MovedOneMore(l, s, RunFrom(l, true, s, es + before), ev, RunFrom(l, true, s, es).db.holds);
      RunStep(l, true, s, es + before, ev);
      LastEvent(es, more);
    }
  }

  // ----- without the row lock -----

  /** The rest of a one-operation transaction, when nothing comes between. */
  function Finishing(p: nat): seq<Event> { [TakeNumber(p)] + [Append(p)] + [Write(p)] + [Commit(p)] }

  function Played(l: Ledger, rowLocks: bool, w: World, p: nat): World {
    Next(l, rowLocks, Next(l, rowLocks, Next(l, rowLocks, Next(l, rowLocks, w, TakeNumber(p)), Append(p)), Write(p)), Commit(p))
  }

  lemma {:induction false} RunStep(l: Ledger, rowLocks: bool, s: State, es: seq<Event>, ev: Event)
    ensures RunFrom(l, rowLocks, s, es + [ev]) == Next(l, rowLocks, RunFrom(l, rowLocks, s, es), ev)
  {
    assert (es + [ev])[..|es|] == es;
  }

  lemma {:induction false} PlayedRun(l: Ledger, rowLocks: bool, s: State, es: seq<Event>, p: nat)
    ensures RunFrom(l, rowLocks, s, es + Finishing(p)) == Played(l, rowLocks, RunFrom(l, rowLocks, s, es), p)
  {
    RunStep(l, rowLocks, s, es, TakeNumber(p));
    RunStep(l, rowLocks, s, es + [TakeNumber(p)], Append(p));
    RunStep(l, rowLocks, s, es + [TakeNumber(p)] + [Append(p)], Write(p));
    RunStep(l, rowLocks, s, es + [TakeNumber(p)] + [Append(p)] + [Write(p)], Commit(p));
    assert es + [TakeNumber(p)] + [Append(p)] + [Write(p)] + [Commit(p)] == es + Finishing(p);
  }

  lemma {:induction false} PlayedWrites(l: Ledger, rowLocks: bool, w: World, p: nat, c: Call, snap: Option<Hold>, ws: Writes)
    requires w.ledgerLock.None? && w.TxOf(p) == Tx([], [], Checked(c, snap))
    requires !Collides(w.db.log, EventOf(w.db, c, snap, NextSeq(w.db.log)))
    requires WritesOf(l, w.db, c, snap, EventOf(w.db, c, snap, NextSeq(w.db.log))) == Some(ws)
    ensures var w3 := Next(l, rowLocks, Next(l, rowLocks, Next(l, rowLocks, w, TakeNumber(p)), Append(p)), Write(p));
      && w3.TxOf(p) == Tx([ws], [c], Ready) && w3.db == w.db && w3.ledgerLock == Some(p)
      && forall q :: q != p ==> w3.TxOf(q) == w.TxOf(q)
  {
    var w1 := Next(l, rowLocks, w, TakeNumber(p));
    assert w1.TxOf(p) == Tx([], [], HasNumber(c, snap, NextSeq(w.db.log))) && w1.db == w.db;
    var ev := EventOf(w.db, c, snap, NextSeq(w.db.log));
    var w2 := Next(l, rowLocks, w1, Append(p));
    assert w2.TxOf(p) == Tx([], [], Appended(c, snap, ev)) && w2.db == w.db;
    var w3 := Next(l, rowLocks, w2, Write(p));
    assert [] + [ws] == [ws];
  }

  lemma {:induction false} PlayedCommits(l: Ledger, rowLocks: bool, w: World, p: nat, c: Call, snap: Option<Hold>, ws: Writes)
    requires w.ledgerLock.None? && w.TxOf(p) == Tx([], [], Checked(c, snap))
    requires !Collides(w.db.log, EventOf(w.db, c, snap, NextSeq(w.db.log)))
    requires WritesOf(l, w.db, c, snap, EventOf(w.db, c, snap, NextSeq(w.db.log))) == Some(ws)
    ensures var w' := Played(l, rowLocks, w, p);
      w'.db == Merge(w.db, ws) && w'.ledgerLock.None? && forall q :: q != p ==> w'.TxOf(q) == w.TxOf(q)
  {
    PlayedWrites(l, rowLocks, w, p, c, snap, ws);
    MergeOne(w.db, [], ws);
  }

  /** A capture without a key, of a new event and into another account. */
  ghost predicate PlainCapture(s: State, c: Call, id: Id, h: Hold) {
    && c.op.Capture? && c.op.holdId == id && c.env.key == "" && h.id == id
    && CaptureDestination(h, c.op.destination) != h.source
    && (forall i :: 0 <= i < |s.log| ==> s.log[i].eventId != c.env.eventId)
    && (forall i :: 0 <= i < |s.deltas| ==> s.deltas[i].eventId != c.env.eventId)
  }

  /** Such a capture, checked on the row `h`, adds its amount to whatever the row holds when it writes. */
  /** The writes of a capture of a stored hold. */
  ghost predicate Captures(s: State, c: Call, id: Id, ws: Writes)
    requires c.op.Capture? && FindHold(s.holds, id) < |s.holds|
  {
    var h := s.holds[FindHold(s.holds, id)];
    && ws.event.eventId == c.env.eventId && ws.event.seqNo == NextSeq(s.log)
    && (forall d :: d in ws.rows ==> d.eventId == c.env.eventId)
    && ws.hold == SetRow(h.(captured := h.captured + c.op.amount))
  }

  lemma {:induction false} CaptureWrites(l: Ledger, s: State, c: Call, id: Id, h: Hold) returns (ws: Writes)
    requires Numbered(s.log) && PlainCapture(s, c, id, h)
    requires FindHold(s.holds, id) < |s.holds| && s.holds[FindHold(s.holds, id)].Open()
    ensures !Collides(s.log, EventOf(s, c, Some(h), NextSeq(s.log)))
    ensures WritesOf(l, s, c, Some(h), EventOf(s, c, Some(h), NextSeq(s.log))) == Some(ws)
    ensures Captures(s, c, id, ws)
  {
    NumberedMax(s.log);
    var e := c.env;
    assert FindHold([h], id) == 0;
    var dest := CaptureDestination(h, c.op.destination);
    var rows := AppendedRows(Seen(s, Some(h)), c.op, e);
    LegsShareEvent([Posting(h.source, dest, c.op.amount, h.asset)], e.eventId, e.now, e.now);
    OnePostingRows(Posting(h.source, dest, c.op.amount, h.asset), e);
    assert forall i :: 0 <= i < |rows| ==> rows[i] in rows;
    Inserts(l, s, rows, e.eventId);
    ws := WritesOf(l, s, c, Some(h), EventOf(s, c, Some(h), NextSeq(s.log))).value;
  }

  lemma {:induction false} OnePostingRows(p: Posting, e: Env)
    requires p.source != p.destination
    ensures DistinctBuckets(Legs([p], e.eventId, e.now, e.now))
  {
    assert [p][..0] == [];
    assert Legs([p], e.eventId, e.now, e.now) == [] + LegsOf(p, e.eventId, e.now, e.now);
  }

  function Race(c: Call, d: Call): seq<Event> { [] + [Check(0, c, true)] + [Check(1, d, true)] }

  lemma {:induction false} BothChecked(l: Ledger, s: State, c: Call, d: Call, h: Hold)
    requires HoldOp(c.op) && HoldOp(d.op) && CallOk(l, s, c, Some(h)) && CallOk(l, s, d, Some(h))
    ensures var w := RunFrom(l, false, s, Race(c, d));
      && w.db == s && w.ledgerLock.None?
      && w.TxOf(0) == Tx([], [], Checked(c, Some(h))) && w.TxOf(1) == Tx([], [], Checked(d, Some(h)))
  {
    RunStep(l, false, s, [], Check(0, c, true));
    RunStep(l, false, s, [] + [Check(0, c, true)], Check(1, d, true));
    var w1 := RunFrom(l, false, s, [] + [Check(0, c, true)]);
    assert w1.db == s && w1.TxOf(0) == Tx([], [], Checked(c, Some(h))) && w1.TxOf(1) == Tx([], [], Ready);
  }

  /** The first of the two captures, as the second will find it. */
  lemma {:induction false} AfterFirst(s: State, ws: Writes, d: Call, id: Id, h: Hold)
    requires Numbered(s.log) && PlainCapture(s, d, id, h) && FindHold(s.holds, id) < |s.holds|
    requires ws.event.eventId != d.env.eventId && ws.event.seqNo == NextSeq(s.log)
    requires forall x :: x in ws.rows ==> x.eventId != d.env.eventId
    requires ws.hold.SetRow? && ws.hold.row.id == id && ws.hold.row.Open()
    ensures var s1 := Merge(s, ws);
      && Numbered(s1.log) && PlainCapture(s1, d, id, h)
      && FindHold(s1.holds, id) == FindHold(s.holds, id) < |s1.holds| && s1.holds[FindHold(s.holds, id)] == ws.hold.row
  {
    NumberedMax(s.log);
    var s1 := Merge(s, ws);
    FirstIsFound(s1.holds, id, FindHold(s.holds, id));
    forall i | 0 <= i < |s1.deltas|
      ensures s1.deltas[i].eventId != d.env.eventId
    {
      assert i >= |s.deltas| ==> s1.deltas[i] in ws.rows;
    }
  }

  /** A checked capture takes its number, appends, writes and commits. */
  lemma {:induction false} CaptureGoesThrough(l: Ledger, w: World, p: nat, c: Call, id: Id, h: Hold) returns (ws: Writes)
    requires Numbered(w.db.log) && PlainCapture(w.db, c, id, h) && w.ledgerLock.None?
    requires w.TxOf(p) == Tx([], [], Checked(c, Some(h)))
    requires FindHold(w.db.holds, id) < |w.db.holds| && w.db.holds[FindHold(w.db.holds, id)].Open()
    ensures Captures(w.db, c, id, ws)
    ensures var w' := Played(l, false, w, p);
      w'.db == Merge(w.db, ws) && w'.ledgerLock.None? && forall q :: q != p ==> w'.TxOf(q) == w.TxOf(q)
  {
    ws := CaptureWrites(l, w.db, c, id, h);
    PlayedCommits(l, false, w, p, c, Some(h), ws);
  }

  lemma {:induction false} MergedRow(s: State, ws: Writes, id: Id)
    requires FindHold(s.holds, id) < |s.holds| && ws.hold.SetRow? && ws.hold.row.id == id
    ensures var i := FindHold(s.holds, id); i < |Merge(s, ws).holds| && Merge(s, ws).holds[i] == ws.hold.row
  {
  }

  /**
   * Were rows not locked when they are read, any two captures that fit a hold one by one but not
   * together would both go through: the guarded update looks at voided and expired only.
   */
  lemma {:induction false} OverCaptured(l: Ledger, s: State, c: Call, d: Call, h: Hold) returns (es: seq<Event>)
    requires Sound(s) && c.op.Capture? && d.op.Capture? && c.op.holdId == d.op.holdId
    requires CallOk(l, s, c, Some(h)) && CallOk(l, s, d, Some(h))
    requires PlainCapture(s, c, c.op.holdId, h) && PlainCapture(s, d, c.op.holdId, h) && c.env.eventId != d.env.eventId
    requires c.op.amount + d.op.amount > h.authorized - h.captured
    ensures !HoldsSound(RunFrom(l, false, s, es).db.holds)
  {
    var id := c.op.holdId;
    var i := FindHold(s.holds, id);
    BothChecked(l, s, c, d, h);
    var w := RunFrom(l, false, s, Race(c, d));
    var ws := CaptureGoesThrough(l, w, 0, c, id, h);
    PlayedRun(l, false, s, Race(c, d), 0);
    AfterFirst(s, ws, d, id, h);
    var w1 := Played(l, false, w, 0);
    var ws1 := CaptureGoesThrough(l, w1, 1, d, id, h);
    PlayedRun(l, false, s, Race(c, d) + Finishing(0), 1);
    es := Race(c, d) + Finishing(0) + Finishing(1);
    MergedRow(w1.db, ws1, id);
    assert !HoldSound(RunFrom(l, false, s, es).db.holds[i]);
  }
}
