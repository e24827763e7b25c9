# Ledger core: a verified model

This project models the transactional core of the ledger and proves what it keeps over whole
histories. The operations are imperative methods over a mutable store, written branch by branch
after the Go code; each is proved to compute a function from the state at the start of its
transaction to the state it commits, or to the error it returns. The theorems are about those
functions, over every serial history, every interleaving of a protocol, or every input.

`dafny verify dfyconfig.toml` checks the whole project (Dafny 4.11).

| file | what it holds |
|---|---|
| `LedgerState`, `Transitions`, `Store`, `Planner` | the tables, each operation as a function, the store as classes, the operations as methods proved to compute those functions |
| `Effects`, `Admission`, `Histories`, `Replay`, `Balances`, `FundsCheck`, `Reverts`, `Aggregates` | what a committed operation leaves behind and what it needs to commit; log numbering, holds, log replay, conservation, solvency, the funds check, reverts, balances per asset |
| `Answers`, `SubmissionAnswers`, `BatchAnswers`, `ApprovalAnswers`, `CheckpointAnswers` | what each operation, submission, batch, decision and sweep answers and leaves, field by field, in terms of the tables alone |
| `HoldRuns`, `SerialRuns`, `RunLaws` | transactions with row locks under every interleaving: the operations they commit, one after another; every serial history is one of them; what they keep |
| `HonestRuns`, `UnlockedChecks`, `OverlappingPairs` | the checks that take no lock: exactly when overlapping transactions break solvency or revert twice, and pairs that do |
| `PrimaryKey` | exactly which operations the primary key of the volume rows rejects |
| `Counterexamples` | concrete histories: every side condition of the theorems is needed |
| `Idempotency`, `IdempotencyRaces`, `SubmissionHashes`, `FieldLayouts` | the two-tier idempotency protocol, whose input a success answers, what the hashes determine, where each input stands in them |
| `Batch`, `Expiry` | both batch modes, the hold-expiry sweep |
| `Approvals`, `ApprovalRuns`, `ApprovalCalls`, `BlankApprovals`, `ApprovalRecovery` | approval decisions, one intent under every interleaving, which intents can execute, crash recovery |
| `HashEncoding`, `Merkle`, `MerkleBytes`, `LogBatches` | length-prefixed hash streams, the Merkle root, the bytes it hashes, closing and verifying a batch |
| `Checkpoints`, `CheckpointOverlaps`, `CheckpointBuilds` | the watermark checkpoints, overlapping builders, the builder as a class |
| `Glob`, `Chart` | glob-to-LIKE, the chart-of-accounts matcher |

## How the model reads the code

- A transaction is a copy of the committed tables; commit replaces them, everything else is a
  rollback. Histories are serial. `HoldRuns` shows what the locks make of concurrent ones: a hold
  row is locked when it is read and the ledger row when a sequence number is taken, and the tables
  after any interleaving are those of the committed operations one after another in commit order.
  Each may commit where it stands as far as its input, the hold, the keys and the numbering go.
- `availableBalance` and the lookup of an earlier revert lock nothing, so an operation can commit
  that these checks would refuse by then. In `HoldRuns` their verdict is free; a run is honest when
  every verdict is the code's own on the tables the transaction sees at that moment. Solvency and
  "at most one revert" hold in every serial history as `Balances` and `Reverts` say; of interleaved
  ones they are false, and `UnlockedChecks` says exactly when. Conservation, replay and the
  cancelling of a transaction by its revert need no such check and hold in all (`RunLaws`).
- Generated identifiers, clock readings, storage faults and the luck of the cache are parameters.
  Nothing is assumed fresh: a reused identifier meets the unique key the database has.
- `migrations/001_init.up.sql:118` gives volume rows the primary key (ledger, account, asset, shard,
  event). An operation that writes two rows for one bucket therefore fails on PostgreSQL: a post that
  names a bucket twice (a self-transfer, a source or a destination repeated with its asset, an account
  passed through), a conversion with slippage, every conversion back to its source, a capture into
  its hold's own source. `PrimaryKey` proves that these are all of them. `test/conformance/t090_policy_test.go:79`
  submits a conversion back to its source and line 102 one with slippage, and both expect success; the
  in-memory store of the planner's tests has no such key. `Ledger.keyedDeltas`
  chooses between the two; theorems hold for both unless they say otherwise, and the ones named
  `Keyed...` say what the key buys.
- `internal/storage/postgres/store_governance.go:73` stores the empty list of received approvals of a new intent as the JSON
  null, and PostgreSQL's `||` turns that null into an element. The decoded list then begins with an
  entry of no principal. `keepsNull` chooses between that and the test store, which has no such
  entry; `BlankApprovals.AllSignedIff` is the exact consequence.
- Comments in `operations_shared.go` call the balance checks safe against concurrent change, which
  they are not, and the conversion payload is written without the slippage and the transaction
  identifier. The model follows the code: solvency and replay carry the conditions that this makes
  necessary.
- The hash is an arbitrary function to 32 bytes. Binding asks only that it does not collide on the
  strings hashed for the two batches in question.

## Model

| member | source | states |
|---|---|---|
| Store.TxStore.NextLedgerSeq | internal/storage/postgres/store.go:77-92 | a number above every logged one, by one above the highest, 1 for an empty log |
| Store.TxStore.AppendLogEvent | internal/storage/postgres/store_log.go:12-33 | appends the event, or changes nothing and reports a key conflict when its event ID, sequence number or non-empty key is taken |
| Store.TxStore.InsertTransaction | internal/storage/postgres/store_transactions.go:13-36 | stores the transaction, or changes nothing and reports a reference conflict for a taken ID or non-empty reference |
| Store.TxStore.InsertVolumeDelta | internal/storage/postgres/store_volumes.go:15-25 | appends the row; under the primary key a second row of one event and bucket is rejected and nothing changes |
| Store.TxStore.GetBalance | internal/storage/postgres/store_volumes.go:27-60 | a loop over the rows gives the two sums of the bucket, over the rows both times admit |
| Store.TxStore.GetActiveHoldsTotal | internal/storage/postgres/store_holds.go:242-259 | a loop over the holds gives authorized minus captured over the open ones of the bucket, never negative while captured stays within authorized |
| Store.TxStore.UpdateHoldCaptured | internal/storage/postgres/store_holds.go:154-167 | adds to captured on an open hold, else reports not found and changes nothing |
| Store.TxStore.VoidHold | internal/storage/postgres/store_holds.go:169-181 | voids an open hold only |
| Store.TxStore.ExpireHold | internal/storage/postgres/store_holds.go:183-196 | expires an open hold only |
| Store.TxStore.GetRelationships | internal/storage/postgres/store_holds.go:273-325 | exactly the rows with the transaction as parent or child |
| Store.TxStore.InsertIdempotencyKey | internal/storage/postgres/store_idempotency.go:31-42 | records a new key; for a taken key nothing changes and the conflict is reported |
| Store.Database.Commit | internal/storage/postgres/store.go:58-69 | the committed tables become the view of the transaction |
| Planner.AppendTo | internal/planner/operations_shared.go:77-106 | one event with the next sequence number, the operation's times and payload and the call's key; an error leaves the log alone |
| Planner.AvailableBalance | internal/planner/operations_shared.go:114-125 | input minus output minus active holds, seen inside the transaction |
| Planner.NetPerBucket | internal/planner/operations_shared.go:170-188 | the two maps hold, for exactly the buckets debited and credited, the totals of the posting list |
| Planner.CheckSourceBalances | internal/planner/operations_shared.go:131-148 | in any iteration order of the map: accepts exactly when every debited non-issuer bucket has its net input and available funds cover its net output |
| Planner.PostFundsCheck | internal/planner/operations_shared.go:170-193 | accepts a posting list exactly when every debited non-issuer bucket ends with nothing owed |
| FundsCheck.OrderDoesNotMatter | internal/planner/operations_shared.go:131-148 | the verdict is the same for every permutation of the postings |
| FundsCheck.VerdictIsOutcome | internal/planner/operations_shared.go:170-193 | the verdict says whether the balances after the post would be non-negative |
| Planner.InsertLegs | internal/planner/operations_shared.go:259-289 | the two rows of every posting in order; the first rejected row decides |
| Planner.DoPostInTx | internal/planner/operations_shared.go:158-310 | the checks in the code's order, then event, transaction, rows and key; a dry run stops after the funds check and before the first write |
| Planner.DoConvertInTx | internal/planner/operations_shared.go:352-450 | the source check with slippage, then event, four or six rows, transaction, key |
| Planner.DoAuthorizeInTx | internal/planner/operations_shared.go:458-513 | the funds check for non-issuers, then event, hold and key |
| Planner.DoCaptureInTx | internal/planner/operations_shared.go:518-591 | each refusal of the code in its order, then event, captured amount, two rows and key |
| Planner.DoVoidInTx | internal/planner/operations_shared.go:918-951 | refuses a voided or expired hold, else event, voided flag and key |
| Planner.DoExpireInTx | internal/planner/expire.go:70-113 | a hold closed since it was listed is left alone without an event, else event and expired flag |
| Planner.ReversePostings | internal/planner/operations_shared.go:596-618 | every posting turned round, in order; an empty list is an error |
| Planner.RevertFundsCheck | internal/planner/operations_shared.go:655-669 | each reversed posting on its own against the balances at the start |
| Planner.DoRevertInTx | internal/planner/operations_shared.go:622-745 | refuses a reverted transaction, then event, transaction, rows, relationship and key |
| Planner.Execute | internal/planner/operations_post.go:219-245 | one transaction of its own: commits on success, leaves the tables on failure |
| Answers.PostRefusals | internal/planner/operations_shared.go:158-198 | a post, dry or not, fails for its input, then its schema, then its funds, exactly when an address, asset or amount is bad or the list empty, the schema rejects it, some debited non-issuer account has less than the post takes from it in all; a dry run fails for nothing else and changes nothing |
| Answers.DryRunForetells | internal/planner/operations_shared.go:190-198 | a refused dry run has the error of the real post, and a real post is refused for input, schema or funds exactly when its dry run is |
| Answers.PostConflicts | internal/planner/operations_shared.go:222-236 | after these checks a taken event ID or key is the key conflict, then a taken transaction ID or reference the reference conflict |
| Answers.PostLeaves | internal/planner/operations_shared.go:222-280 | a committed post: the event with its stamps, payload, key and hash, the transaction, a debit and a credit row for each posting in order, the idempotency record, nothing else |
| Answers.ConvertRefusals | internal/planner/operations_shared.go:357-373 | a conversion is refused for its input exactly when one of the listed parts is bad, then for funds exactly when a non-issuer source has less than the source amount plus a positive slippage, with or without an account for it, then for a taken event ID or key |
| Answers.ConvertLeaves | internal/planner/operations_shared.go:375-447 | a committed conversion: source asset to the destination, destination asset back, slippage to its account when there is one, the same as postings, an event without slippage |
| Answers.AuthorizeRefusals | internal/planner/operations_shared.go:458-482 | exactly when an authorization fails for its amount, its funds, a taken event ID or key, or a taken hold ID, in this order |
| Answers.AuthorizeLeaves | internal/planner/operations_shared.go:490-510 | one open hold more with nothing captured, no volume row; the source's funds fall by the amount and no other's change |
| Answers.CaptureRefusals | internal/planner/operations_shared.go:518-548 | exactly when a capture fails for its amount, a voided hold, an expired one, what is left of it, no destination given nor hinted at, a taken event ID or key, in this order |
| Answers.CaptureLeaves | internal/planner/operations_shared.go:539-588 | a committed capture debits the hold's source and credits and logs the destination it names, the hold's hint only when it names none; only the payee's funds change |
| Answers.MissingHold | internal/storage/postgres/store_holds.go:64-96 | a capture, void or expiry of a hold that is not there is not found |
| Answers.VoidRefusals | internal/planner/operations_shared.go:918-928 | a void fails exactly for a voided hold, else an expired one, else a taken event ID or key |
| Answers.VoidLeaves | internal/planner/operations_shared.go:930-950 | a void sets the flag and gives back what is left of the hold to its source |
| Answers.ExpireAnswers | internal/planner/expire.go:88-104 | a hold voided or expired since it was listed is a success that changes nothing; an open one fails only for a taken event ID |
| Answers.ExpireLeaves | internal/planner/expire.go:70-104 | an expiry logs the hold as listed, without a key, sets the flag and gives back what is left now |
| Answers.RevertRefusals | internal/planner/operations_shared.go:622-669 | exactly when a revert fails for a missing transaction, an earlier revert, no postings, funds of one posting on its own unless forced, a taken event ID or key, a taken transaction ID, in this order |
| Answers.RevertLeaves | internal/planner/operations_shared.go:650-742 | a committed revert stores every posting turned round, in order, as transaction, event and rows, all valid when the original was if asked for the effective date and now otherwise, and joins it to the original |
| Effects.CommitShape | internal/planner/operations_shared.go:158-310 | every successful operation commits nothing or exactly its event, the legs of its postings, its hold change, transaction and relationship |
| Effects.ConversionRowsAreLegs | internal/planner/operations_shared.go:396-436 | the rows a conversion writes are the legs of the postings it stores, slippage included |
| Histories.GaplessLog | internal/planner/operations_shared.go:77-106 | in every serial history sequence numbers are 1 to n, event IDs and keys are unique, every row and record points to a logged event |
| Histories.RecordNeverConflicts | internal/planner/operations_post.go:172-182 | after a successful append the key has no record, so the conflict that recording swallows is unreachable |
| Histories.HoldMachine | internal/planner/operations_shared.go:518-561 | the same for serial histories: captured is between 0 and authorized and is the sum of the capture events, and no hold is both voided and expired |
| Histories.ClosedHoldsStay | internal/storage/postgres/store_holds.go:154-196 | however a history goes on, captured never falls and a voided or expired hold never changes |
| HoldRuns.RunsAreSerial | internal/storage/postgres/store.go:77-92 | under every interleaving of transactions and batches that lock hold rows and the ledger row, with crashes and rollbacks, the tables are those of the committed operations one after another in commit order, each of which may commit where it stands but for the checks that take no lock |
| HoldRuns.HoldMachine | internal/storage/postgres/store_holds.go:64-96 | under every interleaving captured is between 0 and authorized and the sum of the hold's capture events, no hold is both voided and expired, and sequence numbers are 1 to n |
| HoldRuns.ClosedHoldsStay | internal/storage/postgres/store_holds.go:154-196 | however an interleaving goes on, captured never falls and a voided or expired hold never changes |
| HoldRuns.OverCaptured | internal/storage/postgres/store_holds.go:64-96 | were hold rows not locked when read, any two captures that fit one by one but not together would both commit |
| SerialRuns.HistoryIsRun | internal/storage/postgres/store.go:77-92 | any calls of which each commits where it stands are committed, in that order and to those tables, by an honest run under all locks, which leaves nothing open or locked |
| Admission.CommitsIff | internal/planner/operations_shared.go:158-193 | an operation commits exactly when its unlocked checks accept and its input, the hold, the keys and the new identifiers allow it |
| RunLaws.RunsConserve | internal/planner/operations_shared.go:258-289 | under every interleaving each asset's total input equals its total output |
| RunLaws.RunsReplay | internal/planner/operations_shared.go:202-289 | under every interleaving from the empty ledger folding the log rebuilds holds and relationships exactly, the rows short of two for each committed slippage conversion, the transactions short of the conversions |
| RunLaws.RunsCancel | internal/planner/operations_shared.go:700-736 | under every interleaving a transaction and any revert of it add nothing to any bucket |
| HonestRuns.HistoryIff | internal/planner/operations_shared.go:114-148 | what an interleaving commits is a serial history of the code exactly when every unlocked check would still accept where its operation stands |
| HonestRuns.ApartIsHistory | internal/planner/operations_shared.go:114-148 | that is so in every honest run in which no other transaction commits between a check and its commit |
| HonestRuns.SerialIsRun | internal/storage/postgres/store.go:77-92 | and then, from the empty ledger, its tables are those of the serial history of the same calls |
| UnlockedChecks.OneRevertIff | internal/planner/operations_shared.go:630-638 | under every interleaving no transaction is reverted twice exactly when no committed revert stands after another of its transaction |
| UnlockedChecks.HonestOneRevertIff | internal/planner/operations_shared.go:630-638 | in an honest run: exactly when no other revert of a transaction is committed between the check of a revert and its commit |
| UnlockedChecks.SolventIff | internal/planner/operations_shared.go:114-148 | under every interleaving no operation in commit order overdraws a non-issuer bucket exactly when each can be paid where it stands |
| UnlockedChecks.SolventAfterEachIff | internal/planner/operations_shared.go:114-148 | with one operation a transaction, the tables are solvent after every event exactly then |
| UnlockedChecks.HonestApartSolventIff | internal/planner/operations_shared.go:114-148 | in an honest run in which no other transaction commits between a check and its commit: exactly when conversions and reverts are covered as in serial histories |
| Balances.PaidIsSolvent | internal/planner/operations_shared.go:114-148 | from a solvent state an operation that may commit leaves a solvent one exactly when every bucket it debits or reserves from can pay |
| OverlappingPairs.AuthorizedTogether | internal/planner/operations_shared.go:114-148 | any two authorizations of one non-issuer bucket that would commit alone both commit in an honest run when both check first, and overdraw exactly when the balance does not cover both; checked after the first commit, the second is accepted exactly when it does |
| OverlappingPairs.RevertedTwice | internal/planner/operations_shared.go:622-638 | any two reverts of one transaction that would commit alone both commit in an honest run when both check first; checked after the first commit, the second is refused |
| OverlappingPairs.LateCheck | internal/planner/operations_shared.go:114-148 | for any two operations without holds: a check made after the first commit says what the code says there, and a refused one is out |
| OverlappingPairs.OverdrawnTogether | internal/planner/operations_shared.go:114-148 | a ledger with one gift and an honest run of two reservations of all of it that ends overdrawn, with or without the primary key |
| OverlappingPairs.TwiceTogether | internal/planner/operations_shared.go:630-638 | a ledger and an honest run that reverts one gift twice, with or without the primary key |
| Replay.ReplayAccounts | internal/planner/operations_shared.go:202-289 | folding the logged payloads rebuilds holds and relationships exactly, the rows short of two for each slippage conversion, the transactions short of the conversions |
| Replay.ReplayExactRows | internal/planner/operations_shared.go:375-413 | replay gives the stored rows exactly when no committed conversion had slippage |
| Replay.ReplayExactTransactions | internal/planner/operations_shared.go:375-385 | replay gives the stored transactions exactly when no conversion was committed |
| Effects.KeyedRowsAcceptedIff | migrations/001_init.up.sql:108-119 | under the primary key the rows of a new event are accepted exactly when no bucket occurs twice |
| PrimaryKey.KeyedCommitsIff | migrations/001_init.up.sql:108-119 | an operation commits under the key exactly when it commits without it and writes no bucket twice |
| PrimaryKey.KeyedPostIff | migrations/001_init.up.sql:108-119 | for a post: when no bucket occurs twice among its sources and destinations |
| PrimaryKey.KeyedConvertIff | migrations/001_init.up.sql:108-119 | for a conversion: when it has no slippage and its destination is not its source |
| PrimaryKey.KeyedCaptureIff | migrations/001_init.up.sql:108-119 | for a capture: when its destination is not the hold's source |
| PrimaryKey.KeyedRevertIff | migrations/001_init.up.sql:108-119 | for a revert: when the reverted transaction names no bucket twice |
| Replay.KeyedConversionsDoNotSlip | migrations/001_init.up.sql:108-119 | under the primary key no conversion with slippage commits |
| Replay.KeyedCommitsAreDistinct | migrations/001_init.up.sql:108-119 | under the primary key a committed operation touches no bucket twice |
| Replay.KeyedReplayExact | migrations/001_init.up.sql:108-119 | under the primary key every history replays to its exact rows, holds and relationships |
| Counterexamples.SlippageIsLost | internal/planner/operations_shared.go:375-413 | a history with one slippage conversion whose log does not replay |
| Balances.Conservation | internal/planner/operations_shared.go:258-289 | in every serial history each asset's total input equals its total output |
| Balances.StepSolvent | internal/planner/operations_shared.go:361-373 | from a solvent state a committed operation is solvent exactly when a conversion's destination can pay and a revert's postings are affordable together |
| Balances.SolvencyExact | internal/planner/operations_shared.go:655-669 | a serial history never overdraws a non-issuer bucket exactly when every committed conversion and revert met that condition |
| Balances.PrudentSolvency | internal/planner/operations_shared.go:114-148 | it never overdraws when conversions go to an issuer or back to the source and reverts are unforced over distinct buckets |
| Balances.KeyedSolvency | migrations/001_init.up.sql:108-119 | under the primary key distinct buckets are no assumption |
| Balances.EachAffordableCovers | internal/planner/operations_shared.go:655-669 | checking postings one by one is enough when no two debit one bucket |
| Counterexamples.ConversionOverdraws | internal/planner/operations_shared.go:396-413 | a single conversion that overdraws its destination, with or without the primary key |
| Counterexamples.ForcedRevertOverdraws | internal/planner/operations_shared.go:655-669 | a forced revert that overdraws, with or without the primary key |
| Counterexamples.RepeatedRevertOverdraws | internal/planner/operations_shared.go:655-669 | without the primary key, an unforced revert that debits one bucket twice and overdraws |
| Reverts.TransactionsSound | internal/planner/operations_shared.go:259-289 | in every history the rows of a transaction's event are exactly the legs of its stored postings, and every relationship joins a transaction to its reverse |
| Reverts.RevertCancels | internal/planner/operations_shared.go:700-736 | in every serial history a transaction and its revert add nothing to any bucket |
| Reverts.RevertTwiceRestores | internal/planner/operations_shared.go:596-638 | reverting the revert stores the original postings and net effect again |
| Reverts.AtMostOneRevert | internal/planner/operations_shared.go:630-638 | in a serial history no transaction has two revert children |
| Aggregates.GetAggregatedBalances | internal/storage/postgres/store_volumes.go:64-119 | one entry for exactly the assets of the rows that the pattern and the two times select, with their net balance |
| Aggregates.AggregateIsSum | internal/storage/postgres/store_volumes.go:64-119 | the aggregate of a pattern is the sum of the balances of the accounts it matches |
| Aggregates.SeenIff | internal/storage/postgres/store_volumes.go:27-60 | a row counts up to and including each bound that is given, its valid time against the first and its system time against the second |
| Aggregates.TrialBalance | internal/storage/postgres/store_volumes.go:64-119 | in every history and as of every valid and system time, all accounts together hold zero of every asset |
| Glob.ToLike | internal/storage/postgres/store_volumes.go:71-81 | the four replacements in their order are one map over characters |
| Glob.FourPasses | internal/storage/postgres/store_volumes.go:74-78 | the same for every pattern |
| Glob.OrderMatters | internal/storage/postgres/store_volumes.go:74-78 | escaping the escape character later gives a different pattern |
| Glob.RewriteIsValid | internal/storage/postgres/store_volumes.go:74-79 | every translated pattern is valid under ESCAPE |
| Glob.LikeIsGlob | internal/storage/postgres/store_volumes.go:71-81 | a string matches the translation under LIKE exactly when filling the stars of the glob with some strings gives it |
| Idempotency.CheckIdempotency | internal/planner/operations_post.go:138-169 | cache, then record, with the hash compared in both; a hit or an error ends the submission |
| Idempotency.SubmitWithIdempotency | internal/planner/operations_post.go:206-254 | the whole write path computes the submission program run alone: lookup, attempts, commit, cache write, conflict resolution |
| Idempotency.RetryOnDeadlock | internal/planner/operations_post.go:257-287 | deadlocks are retried at most five times, every other end is final |
| Idempotency.ResolveIdempotencyConflict | internal/planner/operations_shared.go:41-47 | the recorded event as a hit without comparing hashes, or the conflict |
| Idempotency.AtMostOncePerKey | internal/planner/operations_post.go:206-254 | under every interleaving with cache loss, faults, retries and lost commits each key has at most one event, records point to it and the cache agrees with the records |
| Idempotency.SameEventForKey | internal/planner/operations_post.go:138-189 | all successful real returns for a key carry the ID of the one event with that key |
| Idempotency.SameInputUnlessResolved | internal/planner/operations_post.go:145-164 | a success that did not go through conflict resolution answers an input with the recorded hash |
| Idempotency.ResubmissionHits | internal/planner/operations_post.go:138-169 | a later submission of valid input under a recorded key gets the recorded event or the input error, and commits nothing |
| SubmissionAnswers.LookupAnswers | internal/planner/operations_post.go:25-217 | bad input is refused, then a sealed ledger refuses; a cached key decides by its hash; a failing cache is a miss and a failing record lookup an error; a record decides by its hash and is cached again on a match; otherwise the transaction decides |
| SubmissionAnswers.SixDeadlocks | internal/planner/operations_post.go:257-287 | the sixth deadlock in a row is the answer and leaves nothing |
| SubmissionAnswers.AttemptAnswers | internal/planner/operations_post.go:219-254 | after at most five deadlocks the attempt decides: its error, a key conflict resolved by the record, a dry run that leaves nothing, a lost commit that leaves the tables and an error, a commit that leaves the tables and caches the record |
| SubmissionAnswers.IntentIsSubmitted | internal/planner/operations_batch.go:118-144 | a best-effort intent is such a submission with its own key, a post never dry and valid now; an unknown one changes nothing |
| IdempotencyRaces.RecordsAreAsked | internal/planner/operations_post.go:172-182 | under every interleaving each record holds the hash of some submission of its key |
| IdempotencyRaces.OneHashAnswersOwnInput | internal/planner/operations_shared.go:41-47 | if all submissions of a key carry one hash, every real success of the key met a record with its caller's hash, through conflict resolution too |
| IdempotencyRaces.TakenKeyConflicts | internal/planner/operations_shared.go:158-310 | a call that would commit but for its taken key gets exactly the key conflict |
| IdempotencyRaces.RaceAnswersWinner | internal/planner/operations_shared.go:41-47 | after any run, two calls with a fresh key of which the second could commit after the first but for the key can race so that the second is answered with the first's event, which is its own input exactly when the hashes are equal |
| IdempotencyRaces.ResolvedInputDiffers | internal/planner/operations_shared.go:41-47 | such calls exist on every open ledger with an issuer, for every key and any two hashes |
| Batch.SubmitAllOrNothing | internal/planner/operations_batch.go:78-99 | commits all intents, or leaves the tables and reports the first failing index with the results before it; a failing commit is an error without a report, whether or not it took effect |
| Batch.SubmitBestEffort | internal/planner/operations_batch.go:100-116 | every intent in its own transaction, one result each, counters that match the results |
| Batch.SubmitBatch | internal/planner/operations_batch.go:64-116 | a sealed ledger or an unknown mode changes nothing; otherwise the tables, the cache and the report of the chosen mode |
| Batch.BatchIsHistory | internal/planner/operations_batch.go:78-99 | an all-or-nothing batch that commits is a history of its intents' calls, so what is proved of histories holds of it |
| Batch.BatchRefines | internal/planner/operations_batch.go:64-171 | for keyless intents from any state: all-or-nothing ends in the state best effort ends in, or leaves the state and fails at best effort's first failure with its error |
| Batch.AtomicIffNoFailure | internal/planner/operations_batch.go:64-116 | it goes through exactly when best effort counts no failure |
| BatchAnswers.RunsInOrder | internal/planner/operations_batch.go:67-92 | an atomic batch runs its intents one after another, a post with its key, any other without, none recorded, up to the first that fails, whose index and error it gives |
| BatchAnswers.Reported | internal/planner/operations_batch.go:67-99 | the report: all successes, or successes before the failing index and nothing from it on; a failing commit is an error and keeps the tables only if it took effect |
| BatchAnswers.BatchLogs | internal/planner/operations_batch.go:173-242 | a committed atomic batch logs one event an intent, in order, under its key for a post and under none for any other, and adds no idempotency record |
| BatchAnswers.TakenKeyFails | internal/planner/operations_batch.go:176-184 | an atomic batch with a post whose key is in the log fails, at that post if not before |
| BatchAnswers.CommitsOnce | internal/planner/operations_batch.go:176-184 | after a committed atomic batch with a keyed post, however the log goes on, no atomic batch with a post under that key commits |
| BatchAnswers.Counts | internal/planner/operations_batch.go:100-116 | each counter is the number of results of its kind |
| Expiry.ListExpiredHolds | internal/storage/postgres/store_holds.go:198-240 | the holds past their deadline, neither voided nor expired, with something left to capture: all of them, or a thousand of the earliest |
| Expiry.ExpireSingleHold | internal/planner/expire.go:70-113 | one transaction after whatever ran in between: it succeeds exactly when nothing fails and the expiry goes through, and leaves what that leaves |
| Expiry.AttemptedCloses | internal/planner/expire.go:70-113 | success means the hold is closed, whatever ran in between |
| Expiry.SweepPage | internal/planner/expire.go:33-44 | one action a hold, in order; failed are exactly the holds whose action fails, and every other is closed |
| Expiry.ExpireHolds | internal/planner/expire.go:20-67 | with a new clock reading for every page and other transactions before every listing and every expiry the loop ends, and on return without an error every hold due at the last reading failed in the last pass, or a full page of the earliest did; it returns an error only for a failed listing |
| Expiry.ProgressCounts | internal/planner/expire.go:33-60 | closing one listed hold makes the due holds strictly fewer |
| Approvals.SubmitForApproval | internal/planner/operations_approval.go:17-51 | a sealed ledger refuses; otherwise a pending row of these approvers and submitter, submitted now, without approvals or mark, that lives as long as asked, or a day |
| Approvals.ApprovalStore.AddApproval | internal/storage/postgres/store_governance.go:138-161 | appends to a pending row only, else reports not found |
| Approvals.ApprovalStore.UpdateApprovalState | internal/storage/postgres/store_governance.go:163-170 | sets the state whatever it was |
| Approvals.ApprovalStore.UpdateApprovalStateIf | internal/storage/postgres/store_governance.go:186-196 | moves the row only from the given state, and says so |
| Approvals.CheckAllApproved | internal/planner/operations_approval.go:118-130 | the two loops over received and required approvers decide whether everyone required is among the received |
| Approvals.Approve | internal/planner/operations_approval.go:56-148 | the refusals in the code's order, the expiry of an overdue row, the recorded approval, and the mark once everyone approved |
| ApprovalAnswers.Refusals | internal/planner/operations_approval.go:70-115 | exactly when an approval is refused as not pending, as the submitter's own, as not required, as given before, in this order; the row expires when the clock is past its deadline |
| ApprovalAnswers.Signs | internal/planner/operations_approval.go:105-148 | otherwise the signature joins the stored list, and once every required name is in it the row is executing with the mark's own time |
| ApprovalRuns.DecisionSound | internal/planner/operations_approval.go:70-148 | a decision commits only sound entries from a pending row and starts only when all approved |
| ApprovalRuns.RunsAreSafe | internal/planner/operations_approval.go:56-193 | under every interleaving of approvers, executors, sweeps, failures and crashes: one start at most, one event at most, only after all approvals, and executed implies the event |
| ApprovalRuns.EventIsApproved | internal/planner/operations_approval.go:75-130 | if the event exists, every required approver with a name signed once, passed the deadline check in time and is not the submitter |
| ApprovalAnswers.StartStoresMark | internal/storage/postgres/store_governance.go:172-184 | the commit of a start leaves an executing row with the time of its mark |
| BlankApprovals.AllSignedIff | internal/storage/postgres/store_governance.go:72-86 | an event means in every run that every required approver signed, exactly unless the store keeps the null, the empty name is required beside another one, and the submitter's own approval is not required |
| BlankApprovals.EventWithoutBlankSignature | internal/storage/postgres/store_governance.go:138-161 | for every intent where that fails, a run that logs the event without the empty name's signature |
| ApprovalCalls.CanStartIff | internal/planner/operations_approval.go:75-148 | some run starts execution exactly when someone other than the submitter is required and the submitter is not, or only as the blank entry |
| ApprovalRecovery.FinalChangesIff | internal/planner/operations_approval.go:153-182 | in any safe state a final state changes exactly when an unguarded rejection or expiry is written over another state |
| ApprovalRecovery.FinalStaysIff | internal/planner/operations_approval.go:139-182 | final states are absorbing in a run exactly when the run has no such write |
| ApprovalRecovery.TellsKeptIff | internal/planner/operations_approval.go:274-343 | a step keeps "executed exactly when the event exists" exactly unless it is one of four: a rejection or expiry written although the event exists, a stuck row expired on an outdated lookup, an execution that commits after a final write |
| ApprovalRecovery.AlwaysTellsIff | internal/planner/operations_approval.go:274-343 | the state tells throughout a run exactly when the run has none of these four |
| ApprovalRecovery.FinalStateTells | internal/planner/operations_approval.go:274-343 | in disciplined runs a final state is executed exactly when the event exists |
| ApprovalRecovery.FinalStatesStay | internal/planner/operations_approval.go:139-182 | in disciplined runs executed, rejected and expired are never left |
| ApprovalRecovery.NoReexecution | internal/planner/operations_approval.go:263-343 | from the moment a sweep lists the row as stuck the number of its events stays what it is |
| ApprovalRecovery.SweepResolves | internal/planner/operations_approval.go:295-325 | a sweep that listed and looked up leaves the row final, executed exactly when the event exists |
| ApprovalRecovery.LiveExecutorExpired | internal/planner/operations_approval.go:295-325 | for every intent that can execute: a live executor listed as stuck is expired, then executes anyway |
| ApprovalRecovery.CommittedButRejected | internal/planner/operations_approval.go:153-160 | for every such intent: an execution that committed and reported an error is rejected, with its event |
| ApprovalRecovery.ExecutedThenExpired | internal/planner/operations_approval.go:274-284 | for every such intent: the unguarded expiry of a listed row overwrites executed |
| ApprovalRecovery.ApprovalTable.ExpireStaleApprovals | internal/planner/operations_approval.go:274-343 | with both pages bounded and any statement failing: exactly which rows the sweep changes, and to what |
| ApprovalRecovery.QuietSweep | internal/planner/operations_approval.go:274-343 | where nothing fails and the pages are not full it expires overdue pending rows, resolves stuck ones by their events and touches no other row |
| ApprovalRecovery.SweepSteps | internal/planner/operations_approval.go:274-343 | that is what the interleaved steps do when nothing comes between them |
| ApprovalAnswers.StuckIff | internal/storage/postgres/store_governance.go:198-206 | an executing row looks stuck exactly when its mark, or its submission where the mark has no time, is before now minus the threshold; a pending one is overdue exactly when its deadline is before now |
| ApprovalAnswers.SweptRowIs | internal/planner/operations_approval.go:274-343 | the state an undisturbed sweep gives each row, from its deadline or mark, and nothing else of the row changes |
| ApprovalAnswers.SweptStateIs | internal/planner/operations_approval.go:274-343 | a row on neither page stays, so does an overdue one whose expiry fails and a stuck one whose look-up or update fails, and no row is on both pages |
| ApprovalAnswers.ListedFromMark | internal/storage/postgres/store_governance.go:198-206 | however a run goes on after the commit that marked the row, a sweep lists it exactly while it is executing and when its cutoff is after the mark |
| HashEncoding.HashWriter.WriteField | internal/planner/operations_post.go:191-196 | appends the length as four big-endian bytes, truncated to 32 bits, then the data |
| HashEncoding.GenericIdempotencyStream | internal/planner/operations_post.go:128-134 | the stream of a field list |
| MerkleBytes.FieldBytes | internal/planner/operations_post.go:191-196 | a field below 2^32 bytes is its length, high byte first, in four bytes and then its data |
| SubmissionHashes.OneOrder | internal/planner/operations_post.go:110-117 | a set of keys has one ascending list, so sorting the keys of a map gives the same list however they come |
| SubmissionHashes.SubmissionStream | internal/planner/operations_post.go:100-125 | keys collected in any order and sorted, the stream of a submission is that of its flat field list with the metadata in ascending key order |
| FieldLayouts.SubmissionLayout | internal/planner/operations_post.go:100-125 | at which place of the list ledger, reference, each posting's four fields, each metadata entry by ascending key and the valid time stand |
| FieldLayouts.LessIff | internal/planner/operations_post.go:110-117 | ascending by the first different byte, a proper prefix first |
| FieldLayouts.RequestLayout | internal/planner/operations_holds.go:27 | the list of an authorize, capture, void, revert or convert request: ledger, name of the operation, inputs in their order |
| HashEncoding.DecodeEncode | internal/planner/operations_post.go:191-196 | decoding the stream of fields shorter than 2^32 bytes gives the fields |
| HashEncoding.EncodeDecode | internal/planner/operations_post.go:191-196 | every stream that decodes is the stream of what it decodes to |
| HashEncoding.SameStreamIff | internal/planner/operations_post.go:191-196 | two lists of such fields have the same stream exactly when they are equal |
| HashEncoding.LongFieldsCollide | internal/planner/operations_post.go:191-196 | at 2^32 bytes the truncated length makes two different lists share a stream |
| SubmissionHashes.FieldsDetermine | internal/planner/operations_post.go:100-125 | with equally many postings, equal field lists mean equal submissions, metadata compared as maps |
| SubmissionHashes.SharedFieldsIff | internal/planner/operations_post.go:100-125 | with any numbers of postings, two submissions share a field list exactly when they agree but for the further postings of one, which are the first metadata entries of the other |
| SubmissionHashes.TwinIff | internal/planner/operations_post.go:100-125 | a submission shares its field list with one of fewer postings exactly when the sources and amounts of the postings beyond those, then its own metadata keys, ascend |
| SubmissionHashes.EntriesReadAsPostings | internal/planner/operations_post.go:100-125 | the smallest such pair: a last posting reads as two metadata entries exactly when its source is below its amount |
| SubmissionHashes.TwoSubmissionsShareAStream | internal/planner/operations_post.go:100-125 | such a posting: 5 units from the account 10 |
| SubmissionHashes.RequestFieldsDetermine | internal/planner/operations_convert.go:41-44 | the field list of an authorize, capture, void, revert or convert request determines it, but for the slippage and the valid time of a conversion |
| SubmissionHashes.SubmissionReadsAsConversion | internal/planner/operations_convert.go:41-44 | a submission referenced as `convert` has the field list of a conversion exactly when the destination amount is below the rate |
| Merkle.ComputeRoot | internal/log/merkle/merkle.go:37-64 | the nested level loops end and give the root, none for no leaves, the leaf itself for one |
| Merkle.Verify | internal/log/merkle/merkle.go:69-75 | true exactly for leaves whose root is the expected one, never for an empty list |
| MerkleBytes.LeafBytes | internal/log/merkle/merkle.go:18-33 | a leaf hashes a zero byte, then ID, time, the two bytes of the type code and the payload, each after its length in four bytes |
| MerkleBytes.RootByLevels | internal/log/merkle/merkle.go:46-64 | of two or more leaves the root is that of the hashes of a one byte, the left and the right of each pair, the last leaf of an odd list doubled |
| MerkleBytes.RootOfTwo | internal/log/merkle/merkle.go:77-83 | of two leaves: the hash of a one byte, the first leaf, the second |
| MerkleBytes.RootOfThree | internal/log/merkle/merkle.go:51-64 | of three leaves, written out |
| Merkle.RootIsPerfectTree | internal/log/merkle/merkle.go:37-64 | the root is that of the perfect binary tree over the leaves padded to the next power of two |
| Merkle.LeafDetermines | internal/log/merkle/merkle.go:18-33 | the hashed string of a leaf determines ID, time, type and payload |
| Merkle.LeafIsNoNode | internal/log/merkle/merkle.go:10-14 | no leaf string is the string of an inner node |
| Merkle.SameRootIff | internal/log/merkle/merkle.go:37-83 | two non-empty lists of events of any lengths have the same root exactly when padding them to the next power of two gives the same list, unless the hash collides on strings hashed for them |
| Merkle.RootBinds | internal/log/merkle/merkle.go:37-83 | so with distinct IDs they have the same root exactly when they are equal |
| Merkle.RepeatedLeafKeepsRoot | internal/log/merkle/merkle.go:51-59 | any odd number of leaves above one and the same with the last repeated share a root, for every hash |
| LogBatches.Manager.CloseBatch | internal/log/batch/manager.go:214-244 | stores the root and count of the batch's events; an empty batch, a missing row and a failure change nothing |
| LogBatches.Manager.VerifyBatch | internal/log/batch/manager.go:278-302 | compares the stored root with that of the events stored now; a missing or open batch is an error |
| LogBatches.VerifiesIffUnchanged | internal/log/batch/manager.go:288-301 | a batch verifies exactly when its events are those it was closed over, in that order |
| LogBatches.LateEventFailsVerification | internal/log/batch/manager.go:214-244 | an event that joins after the root was computed makes verification fail |
| Checkpoints.GroupRowSound | internal/projection/volumes/checkpoint.go:33-52 | a group row sums all uncovered rows of its bucket and leaves none uncovered |
| CheckpointAnswers.DueIff | internal/projection/volumes/checkpoint.go:33-52 | a bucket is due exactly when more than a hundred of its rows have no checkpoint at or above them in both times, and its row stands at the latest of their times |
| CheckpointAnswers.WritesOne | internal/projection/volumes/checkpoint.go:78-91 | a write replaces the row of its bucket with the same two watermarks, or is one more row |
| Checkpoints.InsertKeepsAgreementIff | internal/projection/volumes/checkpoint.go:40-48 | an insert keeps checkpoints and uncovered rows equal to the raw sums exactly when no checkpoint dominates the row in both times or it moves nothing |
| Checkpoints.WriteKeepsAgreementIff | internal/projection/volumes/checkpoint.go:78-91 | a new checkpoint keeps them equal exactly when its totals are those of the rows it newly covers |
| Checkpoints.NeverOverwrites | internal/projection/volumes/checkpoint.go:78-91 | a pending group row never meets its own key, so the conflict branch replaces nothing |
| Checkpoints.CheckpointsAgree | internal/projection/volumes/checkpoint.go:31-114 | in every interleaving of inserts and several builders in which each insert is fresh and no two open queries hold rows of one bucket, checkpoint totals plus uncovered rows equal what a balance read sums, for every bucket |
| Checkpoints.ConflictNeverTaken | internal/projection/volumes/checkpoint.go:78-91 | in those histories the row about to be written is never there already |
| Checkpoints.LaterRowsAreFresh | internal/projection/volumes/checkpoint.go:40-48 | a system time above every upper watermark, written or pending, is fresh |
| CheckpointOverlaps.UpsertKeepsAgreementIff | internal/projection/volumes/checkpoint.go:78-91 | whatever row is written: the sums survive exactly when a new row has the totals of what it newly covers, and a replacing row the totals already there |
| CheckpointOverlaps.OverlapKeepsAgreementIff | internal/projection/volumes/checkpoint.go:31-114 | when two builders hold rows of one bucket the sums survive both writes, in either order, exactly when the rows are the same or the earlier query's sum to nothing |
| CheckpointOverlaps.OverlapCountsTwice | internal/projection/volumes/checkpoint.go:31-114 | otherwise, from any table, the run of the two builders ends with wrong sums |
| CheckpointOverlaps.LaterRowOverlaps | internal/projection/volumes/checkpoint.go:33-52 | in any table whose sums agree, any group and one later row of its bucket that no checkpoint covers bring that about |
| CheckpointOverlaps.TwoBuildersBreakSums | internal/projection/volumes/checkpoint.go:31-114 | a whole run for any bucket and any number of rows above a hundred: two builders, one row inserted between their queries, and wrong sums |
| CheckpointOverlaps.OverlapTakesConflict | internal/projection/volumes/checkpoint.go:78-91 | two queries of one snapshot make the second write take the conflict branch |
| CheckpointBuilds.BuildSettles | internal/projection/volumes/checkpoint.go:33-91 | after an undisturbed build no bucket that the LIMIT of the query kept has more than a hundred uncovered rows |
| CheckpointBuilds.CheckpointBuilder.BuildCheckpoints | internal/projection/volumes/checkpoint.go:31-114 | one build is one of those histories; it reports an error exactly when the query, a scan, the iteration or a write failed, with the count of failed writes |
| CheckpointAnswers.FailedWrites | internal/projection/volumes/checkpoint.go:92-114 | the reported count is the number of failed writes |
| Chart.ValidateSegments | internal/ir/schema.go:117-145 | the verdict is one that some iteration order of the children gives: a literal child first, else a variable child whose pattern admits the segment |
| Chart.ValidateAccount | internal/ir/schema.go:108-115 | no chart or an empty one accepts everything, else the segments between colons decide |
| Chart.LevelDecides | internal/ir/schema.go:117-160 | one level: the literal child decides, else any child whose key begins with a dollar sign and whose pattern matches, else nothing accepts; the last segment needs a leaf, an earlier one children |
| Chart.AcceptedHasPath | internal/ir/schema.go:117-160 | in every order an accepted address has a root-to-leaf path whose keys stand for its segments |
| Chart.AcceptedIffPath | internal/ir/schema.go:117-160 | when at most one child stands for any segment, acceptance is having such a path, in every order |
| Chart.MayAcceptIff | internal/ir/schema.go:117-160 | some order accepts exactly when a path to a leaf goes, at every node, to the literal child if there is one and else to an admitted variable one |
| Chart.OrderDecidesIff | internal/ir/schema.go:129-142 | the order decides the verdict exactly when such a path comes to a node of whose admitted children one can accept the rest and another reject it |
| Chart.OneVerdict | internal/ir/schema.go:124-145 | when at most one variable child admits a segment that is no literal child, every order gives the same verdict |
| Chart.OrderCanDecide | internal/ir/schema.go:129-142 | a chart and an address that one order accepts and another rejects |
| Chart.LiteralHidesVariable | internal/ir/schema.go:124-127 | a chart and an address with a path that every order rejects |

## Left out

- Store.TxStore.GetRelationships: one step from the transaction; greater depths, the order by system time and relationship types other than reverts are not modelled.
- Planner.AppendTo: the batch ID and the schema version of the event.
- Planner.DoPostInTx: address and asset formats and the chart are predicates of the ledger; metadata, its history and the accounts table are not modelled, as no check reads them.
- Planner.DoConvertInTx: the rate is a flag that says whether it parses, as nothing computes with it; the payload's rate fields and the accounts table are not modelled.
- HoldRuns.RunsAreSerial: a free choice there is exactly what the checks that take no lock say, of balances and of an earlier revert; posting validity, the schema and all other refusals are checked. Waiting for a lock and deadlock detection are refusals to step.
- HonestRuns.ApartIsHistory: in an honest run the unlocked reads of one check see the tables of one moment; READ COMMITTED lets each statement see a later one.
- Idempotency.AtMostOncePerKey: one ledger; keys are unique per ledger in the source.
- Idempotency.SameInputUnlessResolved: hashes are compared, not inputs; what equal hashes mean is the subject of `SubmissionHashes`.
- Batch.SubmitAllOrNothing: a failing start of the transaction, which refuses the batch before its first intent.
- Batch.BatchRefines: both modes get the same identifiers and times for one intent, so "up to fresh identifiers" becomes equality.
- Expiry.ExpireHolds: clock readings have an upper bound by which no hold created meanwhile is due; without one the loop of the source need not end.
- ApprovalRuns.RunsAreSafe: one intent, whose execution key no other request uses; the executed operation is only its event. The deadline check is what bounds an approval's time; the signature time is read later and can lie past the deadline.
- ApprovalRecovery.FinalStateTells: a discipline that is enough; the exact condition is `ApprovalRecovery.AlwaysTellsIff`.
- ApprovalRecovery.FinalStatesStay: a discipline that is enough; the exact condition is `ApprovalRecovery.FinalStaysIff`.
- ApprovalRecovery.ApprovalTable.ExpireStaleApprovals: no other process in between; interleavings are the subject of the runs.
- Checkpoints.CheckpointsAgree: the shard column, always 0, and the last event ID are not modelled.
- SubmissionHashes.SubmissionStream: values arrive as text; the formatting of amounts, values and times is not modelled.
- Merkle.ComputeRoot: leaves are 32-byte digests, as its callers pass them.
- LogBatches.Manager.CloseBatch: opening batches, the in-memory map of open batches, retries and the chain of previous batches.
- Chart.ValidateAccount: parsing a chart from JSON, and the regular expression engine, which is a parameter.
- Amend and metadata operations, audit and policy events, import, listing pages, export and subscriptions.
- API handlers, the SDK, the CLI, configuration, authentication and telemetry.
