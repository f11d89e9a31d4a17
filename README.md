# Polkadot transaction pool: admission and readiness

This project models the Polkadot-specific half of the node's transaction
pool. The generic pool library stores transactions. The Polkadot side
decides four things:

- how a submitted extrinsic becomes a `VerifiedTransaction`;
- how transactions of one sender are ordered, admitted, scored and replaced (`Scoring`);
- which of them can go into the next block (the `Ready` readiness evaluator);
- what the pool's caller gets back when it walks the pending transactions.

Modules:

- `Primitives` (primitives.dfy): indices, accounts, hashes, addresses, the extrinsic formats, `Option`, `Result`, `Ordering`, and `saturating_add`.
- `Api` (api.dfy): the two chain-state queries the pool makes, `index` and `lookup`, given as functions.
- `Txpool` (txpool.dfy): the generic pool library's `Readiness` and `Choice`.
- `Transaction` (verified_transaction.dfy): `VerifiedTransaction` and its accessors.
- `Scoring` (scoring.dfy): `compare`, `choose`, `should_replace`, and `update_scores`. `update_scores` is a method that fills an array in place.
- `ReadyEvaluator` (ready.dfy): the `Ready` class and the caller's loop over pending transactions.
  - The class holds the per-sender table `knownNonces` as a `map` field that `IsReady` updates.
  - A ghost field `queried` records every index query made to the API. `Valid()` says each table entry came from exactly one such query.
  - `IsReady` is proved against the pure function `Evaluate`. The caller's loop `CheckReadiness` is proved against `EvaluateAll`. The lemmas are about these functions.
- `Verifier` (verifier.dfy): `verify_transaction`. Encoding, hashing and the runtime's `check` are function parameters. The address-lookup closure it hands to `check` is modelled exactly.
- `Scenarios` (scenarios.dfy): the expectations of the source's tests, restated with that test API.

Notes on the code:

- The index type is 32-bit. The test API returns a `u32` sum as an `Index` (lib.rs:409-411), so `Index` must be `u32`. Saturation is at `0xFFFF_FFFF`.
- The doc comment of `is_fully_verified` (lib.rs:107) says it returns `true` when the transaction is NOT yet fully verified. The code returns `inner.is_some()`, which is true when it IS fully verified. `choose` and `should_replace` rely on the code's meaning. The model follows the code.
- `is_ready` advances a sender's entry after every answer, `Future` included (lib.rs:240). So the evaluator is only correct when each sender's transactions reach it in index order, and the pool presents them that way. `OutOfOrderIndicesAreStale` shows what happens otherwise: indices `n + 1, n` come out `Future, Stale`. The entry advances after a `Stale` answer as well, so a stale transaction also spoils the correctly numbered one behind it: `StaleAlsoAdvances` shows indices `n - 1, n` come out `Stale, Stale`, and `EarlyNonceBlocksNext` shows Alice's `208, 209` at genesis doing so.

## Model

| member | source | states |
|---|---|---|
| `Primitives.Cmp` | polkadot/transaction-pool/src/lib.rs:227 | `cmp` answers `Less`, `Equal` or `Greater` exactly when the first index is below, equal to or above the second |
| `Primitives.SaturatingIncrement` | polkadot/transaction-pool/src/lib.rs:240 | adding one with saturation raises every index below the maximum by one; it leaves the maximum unchanged and never goes down |
| `Primitives.SaturatingAdd` | polkadot/transaction-pool/src/lib.rs:240 | `saturating_add` never goes below its first argument or above the true sum; it is the true sum, or the maximum index when the true sum is beyond it |
| `Transaction.VerifiedTransaction.IsFullyVerified` | polkadot/transaction-pool/src/lib.rs:107-110 | `is_fully_verified` returns `inner.is_some()`; for a transaction the verifier built, that is exactly when its sender is known |
| `Transaction.VerifiedTransaction.IntoInner` | polkadot/transaction-pool/src/lib.rs:82-85 | the checked extrinsic is present exactly when the transaction is fully verified |
| `Transaction.SenderKnownIffFullyVerified` | polkadot/transaction-pool/src/lib.rs:283-291 | in a transaction built by the verifier, the sender is known exactly when it is fully verified (`is_fully_verified` = `inner.is_some()`), and it is then the checked signer |
| `Scoring.Compare` | polkadot/transaction-pool/src/lib.rs:138-140 | `compare` orders two transactions by their indices: `Less`, `Equal` or `Greater` exactly as the indices compare |
| `Scoring.CompareIsTotalOrder` | polkadot/transaction-pool/src/lib.rs:138-140 | `compare` is a total order: swapping the arguments reverses the answer, it is reflexive, and "not greater" is transitive |
| `Scoring.Choose` | polkadot/transaction-pool/src/lib.rs:142-156 | `choose` gives `RejectNew` exactly when the old transaction is fully verified and both have the same index, and `InsertNew` otherwise; it never answers `ReplaceOld`; callers must ensure a fully verified old transaction comes with a fully verified new one (the assert at line 144) |
| `Scoring.ShouldReplace` | polkadot/transaction-pool/src/lib.rs:174-177 | `should_replace` holds exactly when the old transaction scores 0, that is when it is not fully verified; the new transaction plays no part |
| `Scoring.ScoreOf` | polkadot/transaction-pool/src/lib.rs:165-171 | a transaction scores 0 exactly when it is not fully verified, and otherwise 1 |
| `Scoring.UpdateScores` | polkadot/transaction-pool/src/lib.rs:158-173 | after `update_scores`, `scores[i]` is the score of `xts[i]` for every `i < len(xts)`, and every later slot is unchanged; the slice must be at least as long as `xts` |
| `Scoring.ReplaceableScoresNothing` | polkadot/transaction-pool/src/lib.rs:164-177 | `should_replace(old, new)` holds exactly when `old` is not fully verified, whatever `new` is; that is exactly when `old` scores 0; and such a transaction never makes `choose` reject a newcomer |
| `Scoring.SameSenderMeetsChoosePrecondition` | polkadot/transaction-pool/src/lib.rs:144 | two verifier-built transactions with the same sender always meet the assert in `choose`: if the old one is fully verified, so is the new one |
| `Scoring.RejectionMeansEqualOrder` | polkadot/transaction-pool/src/lib.rs:142-156 | `choose` rejects exactly when the old transaction is not replaceable and `compare` puts the two level |
| `ReadyEvaluator.SeedIndex` | polkadot/transaction-pool/src/lib.rs:222-223 | a new sender's entry is seeded with the API's index at the evaluator's block, or with the maximum index when the API fails |
| `ReadyEvaluator.Evaluate` | polkadot/transaction-pool/src/lib.rs:211-243 | one `is_ready` call as a function of the table: no sender means `Future` and an unchanged table; otherwise the answer is `Ready` exactly when the index is the expected one, the sender joins the table and its entry is not below the expected index |
| `ReadyEvaluator.EvaluateAll` | polkadot/transaction-pool/src/lib.rs:486-488 | a run of `is_ready` calls gives one answer per transaction and never removes a sender from the table |
| `ReadyEvaluator.Classify` | polkadot/transaction-pool/src/lib.rs:227-237 | a transaction index above the expected one is `Future`, equal to it is `Ready`, below it is `Stale` (each an if-and-only-if) |
| `ReadyEvaluator.Ready.Create` | polkadot/transaction-pool/src/lib.rs:190-196 | `Ready::create` gives an evaluator at the given block and API, with an empty table and no API queries made |
| `ReadyEvaluator.Ready.Clone` | polkadot/transaction-pool/src/lib.rs:199-206 | a clone is a fresh evaluator at the same block and API, holding a copy of the table |
| `ReadyEvaluator.Ready.IsReady` | polkadot/transaction-pool/src/lib.rs:211-243 | `is_ready` answers and updates the table exactly as `Evaluate` says; it asks the API only for a sender not yet in the table; it keeps the invariant that every entry came from exactly one query, so a sender's index is never asked twice |
| `ReadyEvaluator.CheckReadiness` | polkadot/transaction-pool/src/lib.rs:486-488 | the caller's pass over pending transactions calls `is_ready` on each in order; its answers and final table are those of `EvaluateAll`, and it returns exactly the transactions answered `Ready`, in order |
| `ReadyEvaluator.NoSenderIsFuture` | polkadot/transaction-pool/src/lib.rs:212-215 | a transaction without a sender is `Future`; the table stays as it was and the API is not asked |
| `ReadyEvaluator.SenderEntryAdvances` | polkadot/transaction-pool/src/lib.rs:222-240 | for a sender whose expected index is `n`, the answer is `Future`/`Ready`/`Stale` exactly when the index is above/equal to/below `n`; the sender's entry becomes `n + 1`, or stays at the maximum; no other sender's entry changes |
| `ReadyEvaluator.StoredEntryIgnoresApi` | polkadot/transaction-pool/src/lib.rs:222-223 | once a sender is in the table, its expected index is the stored entry, whatever the API and block |
| `ReadyEvaluator.ApiFailureSeedsMaximum` | polkadot/transaction-pool/src/lib.rs:223 | if the API fails for a new sender, its entry is seeded with the maximum index: that sender's transaction is `Stale` unless its index is the maximum, in which case it is `Ready`, and the entry stays at the maximum |
| `ReadyEvaluator.OutOfOrderIndicesAreStale` | polkadot/transaction-pool/src/lib.rs:239-240 | the entry advances after a `Future` answer too, so indices `n + 1` then `n` from one sender expecting `n` are answered `Future`, then `Stale` |
| `ReadyEvaluator.StaleAlsoAdvances` | polkadot/transaction-pool/src/lib.rs:236-240 | the entry advances after a `Stale` answer too, so indices below `n` then `n` from one sender expecting `n` are answered `Stale, Stale`; only a sender already at the maximum gets `Stale, Ready` |
| `ReadyEvaluator.RunSendersAreKnown` | polkadot/transaction-pool/src/lib.rs:222-240 | after a run, the table holds exactly the earlier entries plus every sender of the run; an entry whose sender sent nothing in the run is unchanged |
| `ReadyEvaluator.ConsecutiveIndicesAreReady` | polkadot/transaction-pool/src/lib.rs:481-500 | a run over indices `n, n+1, ..., n+k` from one sender whose expected index is `n` answers `Ready` for every one, and leaves the entry at `n+k+1`, saturating |
| `ReadyEvaluator.SaturatedEntryStaysReady` | polkadot/transaction-pool/src/lib.rs:240 | once a sender's entry is at the maximum, two transactions with the maximum index are both `Ready`, because saturation keeps the entry where it is |
| `ReadyEvaluator.PartialTransactionIsFuture` | polkadot/transaction-pool/src/lib.rs:212-215 | a verified transaction that is not fully verified (its account was not found) is always `Future` and leaves the table unchanged |
| `ReadyEvaluator.ReadyOnesComeFromReady` | polkadot/transaction-pool/src/lib.rs:486-488 | every pending transaction appears in the run with the answer `Ready`, and there are no more pending transactions than in the run |
| `ReadyEvaluator.ReadyAnswersArePending` | polkadot/transaction-pool/src/lib.rs:486-488 | every transaction of the run answered `Ready` is pending |
| `ReadyEvaluator.AllReadyKeepsAll` | polkadot/transaction-pool/src/lib.rs:486-488 | when every answer is `Ready`, the pending list is the whole run, in order |
| `ReadyEvaluator.ReadyOnesAreReady` | polkadot/transaction-pool/src/lib.rs:486-488 | the pending list holds exactly the transactions answered `Ready`, each taken from the run; it is the whole run when every answer is `Ready` |
| `Verifier.LookupAddress` | polkadot/transaction-pool/src/lib.rs:269-276 | the lookup closure resolves an address to the API's account. It fails with "Account not found." exactly when the API knows no account for the address, and with "API error." exactly when the API itself fails |
| `Verifier.Lookup` | polkadot/transaction-pool/src/lib.rs:269-276 | the closure handed to `check` resolves exactly the addresses the API knows an account for, to that account, and fails otherwise with "Account not found." or "API error." |
| `Verifier.VerifyTransaction` | polkadot/transaction-pool/src/lib.rs:258-292 | an unsigned extrinsic fails with `IsInherent`. A passed check gives a fully verified transaction whose sender is the checked signer. A check failing with "Account not found." gives a transaction with no inner extrinsic and no sender. Any other check error fails with that message. An accepted transaction keeps the extrinsic, its encoded size and its hash, and is well-formed |
| `Verifier.VerifyAcceptsExactly` | polkadot/transaction-pool/src/lib.rs:277-283 | verification succeeds exactly for signed extrinsics whose check passes or fails only with "Account not found."; the result is fully verified, and has a sender, exactly when the check passed |
| `Scenarios.NumberOf` | polkadot/transaction-pool/src/lib.rs:383-388 | the test block number is truncated to 32 bits: a numbered block below 2^32 gives its number, a block named by hash gives 0 |
| `Scenarios.TestIndex` | polkadot/transaction-pool/src/lib.rs:409-411 | the test API's `index` always answers, with the key's first byte plus the block number (the tests stay below overflow), so at genesis with the first byte alone |
| `Scenarios.TestLookup` | polkadot/transaction-pool/src/lib.rs:412-428 | the test API's `lookup` always answers: an id resolves to itself, an index of 8 or more to no account, and at genesis index `i` below 8 to the `i`-th keyring account |
| `Scenarios.Uxt` | polkadot/transaction-pool/src/lib.rs:431-454 | a test extrinsic is signed, carries the given nonce, and its signer address, by id or by index, resolves at genesis to the given account |
| `Scenarios.AliceVerifies` | polkadot/transaction-pool/src/lib.rs:461-478 | with the test API, Alice's extrinsic verifies fully at genesis both by id and by compact index, with Alice as sender |
| `Scenarios.AliceExpectedAtGenesis` | polkadot/transaction-pool/src/lib.rs:409-411 | with the test API, Alice's first expected index at genesis is 209 |
| `Scenarios.ConsecutiveFromGenesisArePending` | polkadot/transaction-pool/src/lib.rs:481-500 | with the test API at genesis, Alice's transactions with indices 209, 210, ... in order are all `Ready` and all pending |
| `Scenarios.SubmissionsArePending` | polkadot/transaction-pool/src/lib.rs:576-588 | with the test API, index 209 alone, and 209 with 210, are all answered `Ready` and all pending, by id or by index; 209 and 210 by index is the first half of `index_change_should_result_in_second_tx_culled_or_future` |
| `Scenarios.EarlyNonceIsCulled` | polkadot/transaction-pool/src/lib.rs:502-520 | Alice's index 208 is `Stale` and nothing is pending |
| `Scenarios.EarlyNonceBlocksNext` | polkadot/transaction-pool/src/lib.rs:236-240 | Alice's 208 followed by 209 at genesis are both `Stale`, and nothing is pending |
| `Scenarios.MixedAddressingBothReady` | polkadot/transaction-pool/src/lib.rs:551-574 | in the model, Alice's 209 by index then 210 by id, or 209 by id then 210 by index, are both `Ready` and both pending (the tests expect only 209; see below) |
| `Scenarios.MultipleSubmissionThroughEvaluator` | polkadot/transaction-pool/src/lib.rs:481-489 | driving a fresh `Ready` at genesis through the caller's loop over Alice's 209 and 210 answers `Ready` twice and returns both as pending |
| `Scenarios.LateNonceIsQueued` | polkadot/transaction-pool/src/lib.rs:522-548 | Alice's index 210 alone is `Future` and nothing is pending; with 209 before it, both are pending |

## Left out

- Hashing, SCALE encoding and signature checking are not modelled. They are the BlakeTwo256 hash, `Slicable` encode/decode and the ed25519 check inside the runtime's `check`. They are foreign code, so they appear as the parameters `encode`, `blake2` and `check` of `Verifier.Runtime`.
- `primitive_extrinsic` (lib.rs:77-80) is not modelled. It re-decodes the extrinsic's own encoding, which belongs to the foreign codec.
- `MaybeUnsigned` is modelled as an `Option` signature. An unsigned extrinsic is one whose signature is `None`; the runtime's encoding of "unsigned" is not modelled.
- `PolkadotApi` appears only as its `index` and `lookup` functions. `check_id`, block checking, the rest of the API, and the `Arc`, `Deref` and `parking_lot` sharing are left out.
- The internals of the generic pool library are not modelled, because that library is not part of this model. These are `Pool::submit`, `cull_and_get_pending`, the future/ready queues, and how `compare`, `choose` and `should_replace` are applied. The caller is modelled as `CheckReadiness`, a loop over transactions already in per-sender index order.
- `TransactionPool::new`, `import_unchecked_extrinsic` and `submit` (lib.rs:303-357) are left out. They hand transactions to that pool library, after a codec round trip.
- The `_change` argument of `update_scores` is not modelled; the code ignores it.
- `retry_verification` (lib.rs:324-327) is not modelled: its body is empty.
- The tests at lib.rs:551-574 (209 and 210 addressed one by index, the other by id) expect only 209 pending. The model answers both `Ready` there (`MixedAddressingBothReady`): once verified, nothing in lib.rs tells the two addressing forms apart. The tests' expectation must come from the pool library, which is not modelled.
- All scenario keys are stand-ins, Alice's included. Only a key's first byte matters to the test API; of the real keys, only Alice's first byte (0xd1) is reproduced.
- Logging (`info!`, `trace!`, `error!`) is not modelled.
- polkadot/service/src/components.rs is not modelled: it only builds client, network and consensus services from other crates.
