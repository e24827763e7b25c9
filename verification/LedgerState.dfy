/**
 * The tables of one ledger, as values: the append-only log, the volume rows, the holds,
 * the transactions, their relationships and the idempotency records. Sums over rows stand
 * for the SQL aggregates the planner reads.
 */
module LedgerState {
  import opened Wrappers

  type Id = string
  type Account = string
  type Asset = string
  type Time = int
  type Hash = string

  datatype Error =
    | InvalidInput
    | SchemaViolation
    | InsufficientFunds
    | NotFound
    | HoldVoided
    | HoldExpired
    | MissingDestination
    | NoPostings
    | AlreadyReverted
    | IdempotencyKeyConflict
    | InvalidIdempotencyInput
    | ReferenceConflict
    | DuplicateRow
    | LedgerSealed
    | UnsupportedIntent
    | UnsupportedMode
    | Deadlock
    | StorageFault

  datatype Posting = Posting(source: Account, destination: Account, amount: int, asset: Asset)

  /** The pair balances are tracked per. */
  datatype Bucket = Bucket(account: Account, asset: Asset)

  datatype VolumeDelta = VolumeDelta(
    account: Account, asset: Asset, eventId: Id, validTime: Time, systemTime: Time, input: int, output: int)
  {
    function Where(): Bucket { Bucket(account, asset) }
  }

  datatype Hold = Hold(
    id: Id, source: Account, destinationHint: Account, asset: Asset, authorized: int, captured: int,
    voided: bool, expired: bool, expiresAt: Time, eventId: Id, validTime: Time, systemTime: Time)
  {
    function Where(): Bucket { Bucket(source, asset) }

    predicate Open() { !voided && !expired }

    /** What this hold still reserves of its source bucket. */
    function Reserved(): int { if Open() then authorized - captured else 0 }
  }

  datatype Transaction = Transaction(
    id: Id, eventId: Id, validTime: Time, systemTime: Time, reference: string, postings: seq<Posting>)

  /** Only "reverts" relationships are modelled. */
  datatype Relationship = Relationship(parent: Id, child: Id, eventId: Id, systemTime: Time)

  datatype KeyRecord = KeyRecord(eventId: Id, hash: Hash)

  datatype Payload =
    | TransactionPosted(txId: Id, postings: seq<Posting>, reference: string)
    | ConversionCreated(
        conversionId: Id, source: Account, destination: Account,
        sourceAmount: int, sourceAsset: Asset, destAmount: int, destAsset: Asset)
    | HoldCreated(
        holdId: Id, source: Account, destinationHint: Account, amount: int, asset: Asset, expiresAt: Time)
    | HoldConfirmed(holdId: Id, amount: int, destination: Account)
    | HoldVoided(holdId: Id)
    | HoldExpired(holdId: Id, source: Account, asset: Asset)
    | TransactionReverted(txId: Id, postings: seq<Posting>, reverts: Id)

  datatype LogEvent = LogEvent(
    eventId: Id, seqNo: int, systemTime: Time, validTime: Time, payload: Payload, key: string, hash: Option<Hash>)

  /**
   * What a ledger row, its schema and the database schema fix for every operation.
   * `keyedDeltas` says whether volume rows carry the primary key of the repository's
   * migration, one row per (account, asset, event). The planner's in-memory test store has none.
   */
  datatype Ledger = Ledger(
    issuers: seq<Account>,
    sealed: bool,
    keyedDeltas: bool,
    validAccount: Account -> bool,
    validAsset: Asset -> bool,
    schemaAccepts: seq<Posting> -> bool)

  datatype State = State(
    log: seq<LogEvent>,
    deltas: seq<VolumeDelta>,
    holds: seq<Hold>,
    transactions: map<Id, Transaction>,
    relationships: seq<Relationship>,
    keys: map<string, KeyRecord>)

  const EMPTY := State([], [], [], map[], [], map[])

  // ----- aggregates over volume rows -----

  function InputOf(d: VolumeDelta, b: Bucket): int { if d.Where() == b then d.input else 0 }

  function OutputOf(d: VolumeDelta, b: Bucket): int { if d.Where() == b then d.output else 0 }

  /** SUM(input_delta) over the rows of bucket `b`. */
  function Input(rows: seq<VolumeDelta>, b: Bucket): int {
    if rows == [] then 0 else Input(rows[..|rows| - 1], b) + InputOf(rows[|rows| - 1], b)
  }

  /** SUM(output_delta) over the rows of bucket `b`. */
  function Output(rows: seq<VolumeDelta>, b: Bucket): int {
    if rows == [] then 0 else Output(rows[..|rows| - 1], b) + OutputOf(rows[|rows| - 1], b)
  }

  /** What rows do to the balance of a bucket. */
  function Net(rows: seq<VolumeDelta>, b: Bucket): int { Input(rows, b) - Output(rows, b) }

  /** The sum of authorized minus captured over the open holds of bucket `b`. */
  function ActiveHolds(holds: seq<Hold>, b: Bucket): int {
    if holds == [] then 0
    else ActiveHolds(holds[..|holds| - 1], b) + ReservedIn(holds[|holds| - 1], b)
  }

  function ReservedIn(h: Hold, b: Bucket): int { if h.Where() == b then h.Reserved() else 0 }

  /** Posted input minus posted output minus active holds. */
  function Available(s: State, b: Bucket): int { Net(s.deltas, b) - ActiveHolds(s.holds, b) }

  /** The optional time bounds of a balance read. */
  datatype AsOf = AsOf(valid: Option<Time>, system: Option<Time>)
  {
    predicate Sees(d: VolumeDelta) {
      && (valid.Some? ==> d.validTime <= valid.value)
      && (system.Some? ==> d.systemTime <= system.value)
    }
  }

  function Visible(rows: seq<VolumeDelta>, asOf: AsOf): seq<VolumeDelta> {
    if rows == [] then []
    else Visible(rows[..|rows| - 1], asOf) + if asOf.Sees(rows[|rows| - 1]) then [rows[|rows| - 1]] else []
  }

  /** Without bounds every row is visible. */
  lemma {:induction false} AllVisible(rows: seq<VolumeDelta>)
    ensures Visible(rows, AsOf(None, None)) == rows
  {
    if rows != [] {
      AllVisible(rows[..|rows| - 1]);
      assert rows == rows[..|rows| - 1] + [rows[|rows| - 1]];
    }
  }

  /** One more row. */
  lemma {:induction false} SumsOfPrefix(rows: seq<VolumeDelta>, i: nat, asOf: AsOf, b: Bucket)
    requires i < |rows|
    ensures Input(Visible(rows[..i + 1], asOf), b)
            == Input(Visible(rows[..i], asOf), b) + if asOf.Sees(rows[i]) then InputOf(rows[i], b) else 0
    ensures Output(Visible(rows[..i + 1], asOf), b)
            == Output(Visible(rows[..i], asOf), b) + if asOf.Sees(rows[i]) then OutputOf(rows[i], b) else 0
  {
    assert rows[..i + 1][..i] == rows[..i];
    var before := Visible(rows[..i], asOf);
    assert (before + [rows[i]])[..|before|] == before && before + [] == before;
  }

  lemma {:induction false} SumsOverConcat(xs: seq<VolumeDelta>, ys: seq<VolumeDelta>, b: Bucket)
    ensures Input(xs + ys, b) == Input(xs, b) + Input(ys, b)
    ensures Output(xs + ys, b) == Output(xs, b) + Output(ys, b)
    ensures Net(xs + ys, b) == Net(xs, b) + Net(ys, b)
  {
    if ys == [] {
      assert xs + ys == xs;
    } else {
      var n := |ys| - 1;
      assert (xs + ys)[..|xs + ys| - 1] == xs + ys[..n];
      SumsOverConcat(xs, ys[..n], b);
    }
  }

  lemma {:induction false} ActiveHoldsUpdated(holds: seq<Hold>, i: nat, h: Hold, b: Bucket)
    requires i < |holds|
    ensures ActiveHolds(holds[i := h], b) == ActiveHolds(holds, b) - ReservedIn(holds[i], b) + ReservedIn(h, b)
  {
    var n := |holds| - 1;
    if i == n {
      assert holds[i := h][..n] == holds[..n];
    } else {
      assert holds[i := h][..n] == holds[..n][i := h];
      ActiveHoldsUpdated(holds[..n], i, h, b);
    }
  }

  // ----- row lookups -----

  ghost predicate DistinctIds(holds: seq<Hold>) {
    forall i, j :: 0 <= i < j < |holds| ==> holds[i].id != holds[j].id
  }

  /** The row with this hold ID, or `|holds|` when there is none. */
  function FindHold(holds: seq<Hold>, id: Id): (i: nat)
    ensures i <= |holds|
    ensures i < |holds| ==> holds[i].id == id
    ensures forall j :: 0 <= j < i ==> holds[j].id != id
  {
    if holds == [] then 0
    else if holds[0].id == id then 0
    else 1 + FindHold(holds[1..], id)
  }

  /** MAX(ledger_seq), or 0 for an empty log. */
  function MaxSeq(log: seq<LogEvent>): int {
    if log == [] then 0
    else var m := MaxSeq(log[..|log| - 1]); var k := log[|log| - 1].seqNo;
         if |log| == 1 || k > m then k else m
  }

  function NextSeq(log: seq<LogEvent>): int { MaxSeq(log) + 1 }
}
