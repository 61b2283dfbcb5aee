# Fee-payer relay: a Dafny model

This project models the core of the fee-payer transaction relay in
`rpc/backend/fee_payer.go`. The relay takes Ethereum transactions from callers and
wraps each one in a ledger-native envelope. The relay's own account pays for the
envelope and signs it, and the relay submits it to a node. A single worker owns the
paying account's cached account number and sequence. It processes one queued
message at a time and gives each message exactly one reply.

The model has four modules, one file each:

- `Common` (`common.dfy`) holds `Option`/`Result`, Go's `uint64` wrap-around (`Wrap64`) and `math.BigMax` (`Max`).
- `FeeEstimation` (`fee_estimation.dfy`) models `calculateFeePayerFees`. The per-gas price is `max(⌊X·(a+1)²/a²⌋, 2)`, where X is the base fee and a is the base-fee change denominator. The amount is that price times the gas limit, in exact integers. A zero base fee short-circuits to 0. A failed block, base-fee or params query is an error. Lemmas prove five things:
  - the bounds of the quote;
  - what a negative base fee does;
  - that the price is monotone in the base fee;
  - that the price covers the largest base fee reachable after two blocks of maximal increase;
  - that with a minimum increase of 1 per block the price still covers two blocks from a base fee of at least a, but falls short for some smaller positive base fees.
- `TxBuilder` (`tx_builder.dfy`) models `buildTx` and `sendMsg` as functions. They map their inputs to an abstract envelope record holding these fields: extension option, gas limit, fee list, message with `From` cleared, fee payer, and signature data. The opaque library calls appear as "the first call that fails". The broadcaster's answer is an input.
- `RelayWorker` (`relay_worker.dfy`) models `Worker` as a class with the loop's three locals as fields (`accountNum`, `accountSeq`, `getAccount`). `Step` performs one loop iteration. A ghost log records the sequences used by successful submissions since the last account refresh. The class invariant says they are consecutive `uint64` values starting at the refreshed sequence and, while no refresh is pending, ending just below the cached one. Two client methods replay the shape of the sequence test, and a third shows that a failed account query never leaks into a signature.

External calls are replaced by their answers, given as parameters:
- the account query (`AccountAnswer`);
- the latest-block, base-fee and params queries (`FeeQueries`);
- the signing and encoding library (`Collaborators.failing`);
- the broadcaster (`BroadcastAnswer`).

Three points of the code that this model follows:
- The code rounds the per-gas price down before multiplying by the gas limit.
- The wrong-sequence test compares only the numeric ABCI code and ignores the codespace.
- An error from `sendMsg` that comes with a node response is reported as that response's ABCI error.

## Model

| member | source | states |
|---|---|---|
| `Common.Max` | rpc/backend/fee_payer.go:190-193 | the result is at least both arguments and is one of them, as `math.BigMax` |
| `Common.Wrap64` | rpc/backend/fee_payer.go:151 | `accountSeq++` on a `uint64` stays below 2^64 and is exact below it |
| `FeeEstimation.Pow` | rpc/backend/fee_payer.go:187-188 | `Exp` of a positive base is positive, so the division by a^L is defined |
| `FeeEstimation.CalculateFeePayerFees` | rpc/backend/fee_payer.go:155-198 | a failed latest-block, base-fee (or absent base fee) or params query gives that error; a zero base fee gives amount 0 and no error; otherwise amount = max(⌊X·(a+1)²/a²⌋, 2)·gas; an amount is never negative |
| `FeeEstimation.ProjectionAtLeastBaseFee` | rpc/backend/fee_payer.go:186-189 | for X > 0 the projected base fee is at least X |
| `FeeEstimation.PositiveBaseFeeQuote` | rpc/backend/fee_payer.go:181-196 | for X > 0 the quote succeeds; the per-gas price is ≥ X and ≥ 2; the amount is ≥ X·gas, ≥ 2·gas and a multiple of gas |
| `FeeEstimation.NegativeBaseFeeQuote` | rpc/backend/fee_payer.go:186-196 | a negative base fee projects below zero under floor division, so the amount is exactly 2·gas |
| `FeeEstimation.PerGasFeeMonotone` | rpc/backend/fee_payer.go:186-193 | a higher base fee never gives a lower per-gas price |
| `FeeEstimation.MaxBaseFeeAfterBound` | rpc/backend/fee_payer.go:181-185 | after n blocks that each raise the base fee by ⌊y/a⌋, a^n times the base fee is at most X·(a+1)^n |
| `FeeEstimation.CoversMaximalIncrease` | rpc/backend/fee_payer.go:181-193 | the quoted per-gas price is at least the largest base fee reachable after `baseFeeDeltaBlocks` = 2 blocks of maximal increase |
| `FeeEstimation.MinDeltaAgreesFromDenominator` | rpc/backend/fee_payer.go:181-192 | from a base fee X ≥ a, growth by max(⌊y/a⌋, 1) per block, the minimum delta of 1 named at line 192, is the same as growth by ⌊y/a⌋ |
| `FeeEstimation.CoversMinDeltaIncrease` | rpc/backend/fee_payer.go:181-193 | for X ≥ a the quoted per-gas price also covers two blocks of maximal increase with a minimum delta of 1 |
| `FeeEstimation.MinDeltaBelowDenominator` | rpc/backend/fee_payer.go:190-193 | for X < a, two blocks with a minimum delta of 1 reach exactly X + 2 |
| `FeeEstimation.MinDeltaUnderprices` | rpc/backend/fee_payer.go:186-193 | with a minimum delta of 1 the price falls short for small X: X = 1 and X = 5 with a = 8 reach 3 and 7, above the prices 2 and 6 |
| `FeeEstimation.CalculateFeePayerFeesAsWritten` | rpc/backend/fee_payer.go:168-171 | as written, a zero base fee returns the nil-backed zero `sdkmath.Int` with no error; every other path agrees with `CalculateFeePayerFees` |
| `TxBuilder.FeeLine` | rpc/backend/fee_payer.go:223-227 | at most one coin; empty exactly when the amount is not positive; the coin is in the EVM denomination and carries the amount |
| `TxBuilder.FeeLineAsWritten` | rpc/backend/fee_payer.go:223-227 | `feeAmt.Sign()` fails exactly when the amount's big integer is nil; otherwise the result is `FeeLine` |
| `TxBuilder.BuildTx` | rpc/backend/fee_payer.go:200-283 | builder and extension-option failures come first, then fee-query failures, then failures of the later library calls; each failure gives its own error (the failing call, or the fee query's cause); a built envelope has exactly one extension option, the message's gas limit, the fee line of the quote, the message with `From` cleared, the relay's address as fee payer, and one signature with the relay's key, the given sequence, and signer data (chain id, account number, sequence) |
| `TxBuilder.ZeroBaseFeeOmitsFeeLine` | rpc/backend/fee_payer.go:219-227 | with a zero base fee a built envelope has an empty fee list |
| `TxBuilder.ZeroBaseFeeDereferencesNil` | rpc/backend/fee_payer.go:219-227 | as written, a zero base fee gives no estimator error, yet the fee-list step dereferences nil; the corrected fee line is empty |
| `TxBuilder.SendMsg` | rpc/backend/fee_payer.go:285-305 | an envelope is broadcast exactly when it was built and encoded, and it is the `BuildTx` envelope; with nothing broadcast there is no response and the error is `buildTx`'s error unchanged, or the encoder's error; a broadcast error keeps any partial response; a failed fee query means nothing is broadcast; no error means a response |
| `RelayWorker.Classify` | rpc/backend/fee_payer.go:126-151 | submitted exactly when there is no send error and the code is 0 or the mempool-duplicate code; a resync is requested exactly for the wrong-sequence code; a send error is reported as the response's ABCI error when there is a response, otherwise as the send error |
| `RelayWorker.RunHasNoRepeats` | rpc/backend/fee_payer.go:147-151 | sequences used between two refreshes never repeat, while there are at most 2^64 of them |
| `RelayWorker.RunIsRange` | rpc/backend/fee_payer.go:147-151 | without wrap-around, the sequences used since a refresh to s are exactly s, s+1, …, in order |
| `RelayWorker.Worker.constructor` | rpc/backend/fee_payer.go:102-104 | the worker starts with account number and sequence 0 and the refresh flag set |
| `RelayWorker.Worker.Step` | rpc/backend/fee_payer.go:112-151 | a failed refresh replies with the account error, sends nothing and leaves the pair the failed query returned in the cache; otherwise the message is sent with the cached or freshly queried pair; success replies with the hash and advances `accountSeq` by one (mod 2^64); any rejection replies with the error and keeps `accountSeq`; the flag is set exactly for the wrong-sequence code (details after this table) |
| `RelayWorker.RelayAll` | rpc/backend/fee_payer_test.go:168-194 | when every message succeeds, every message gets its hash as reply, and the i-th envelope is signed with sequence start + i |
| `RelayWorker.ResyncAfterWrongSequence` | rpc/backend/fee_payer_test.go:176-185 | a wrong-sequence response gives the node's error as reply; the next message is signed with the freshly queried sequence |
| `RelayWorker.RetryAfterFailedRefresh` | rpc/backend/fee_payer.go:112-120 | after a failed account query the next message is signed with the pair of a new, successful query, never with the pair the failed query left in the cache |

The contract of `RelayWorker.Worker.Step`:
- If the refresh flag is set and the account query fails, the reply is "failed to get account". Nothing is sent, and the flag stays set. The cached pair holds what the failed query returned, because line 113 assigns it before the error test at line 114; the SDK's retriever returns 0, 0 there. The flag guarantees that the next message queries again before the pair is used.
- Otherwise the message is sent with the cached pair, or with the freshly queried pair when the flag was set. The broadcast log grows by what `SendMsg` broadcast.
- On success, the reply is the message's hash. `accountSeq` becomes `Wrap64(seq + 1)` and the flag is cleared.
- On a rejection, the reply is the error. `accountSeq` is unchanged, and the flag is set exactly for the wrong-sequence code.
- The class invariant keeps the used sequences consecutive. While no refresh is pending, the cached sequence is the next one in the run.

## Left out

- Channel plumbing is not modelled: `enqueueMsg`, the `select` on the queue and on `ctx.Done()`, and the queue capacity `1<<14`. `Worker.Step` is "process the next message", and it returns the reply instead of sending it on the request's channel.
- `newFeePayer` is not modelled: key decoding, key derivation, the panic on an empty key, and logging. The relay's identity is a given public key, and its address is derived from it symbolically.
- The signing and encoding library is not modelled: `NewTxBuilder` and its type assertion, `NewAnyWithValue`, `SetMsgs`, `SetSignatures`, `SignWithPrivKey` and `TxEncoder`. Only which call fails first is modelled. The signature bytes are not modelled either; the signature records the key, the sign mode, the sequence and the signer data it commits to.
- Network calls are not modelled: `BroadcastTx`, `GetAccountNumberSequence`, the block-results, base-fee and params queries, and the client type assertion in `TendermintBlockResultByNumber`. Their answers are inputs. The latest height only addresses the base-fee query, so the model takes the base-fee answer directly, and a failed type assertion counts as a failed latest-block query.
- The Ethereum transaction hash is symbolic (`TxHash`). It depends on the transaction and not on `From`.
- Error values are not modelled as text. Errors are tagged by cause, and the `fmt.Errorf` wrapping is not kept. An error reply carries no hash; Go's zero `TxHash` is not modelled.
- `BuildTx`: the model puts a cleared copy of the message in the envelope. `ethereumMsg.From = ""` also clears `From` in place on the caller's message, which aliases the request; that side effect is not modelled.
- `CalculateFeePayerFees`: the amount is unbounded. `sdkmath.NewIntFromBigInt` panics on values wider than 256 bits, and that panic is not modelled.
- `CalculateFeePayerFees` requires that the division by a zero change denominator is never reached (`DividesByZero`). Go's `big.Int.Div` panics there, and the source does not handle it.
- `Worker.Step`, `RelayAll`, `ResyncAfterWrongSequence` and `RetryAfterFailedRefresh` require a non-zero denominator answer even on paths that never query the params, such as a failed account query.
- `CoversMaximalIncrease` bounds each block's base-fee increase by ⌊y/a⌋, the bound that the comment at rpc/backend/fee_payer.go:181-185 describes. It ignores the minimum increase of 1 per block that the comment at rpc/backend/fee_payer.go:192 names. Under that rule the quote covers two blocks only for X ≥ a (`CoversMinDeltaIncrease`), and it underprices some 0 < X < a (`MinDeltaUnderprices`). The fee market's own adjustment rule is not part of this model, so which bound the ledger applies is not decided here.
- `FeeLine`: `sdk.NewCoin` at rpc/backend/fee_payer.go:225 validates the denomination and panics on an invalid `evmDenom`. The model builds the coin for any denomination.
- The fee-market denominator is a `uint32` in the source. Its width is not constrained, because the conversion to `int64` is exact.
- `TestSendRawTransactionFeePayer` is disabled in the source and is not modelled.

## Findings

| source | as written | input that shows it | evidently intended | confidence | as-written member | corrected member |
|---|---|---|---|---|---|---|
| rpc/backend/fee_payer.go:168-171 | on a zero base fee, `sdkmath.NewInt(0)` is built and discarded. The named result `amount` keeps its zero value, an `sdkmath.Int` wrapping a nil big integer, and the error is nil. `buildTx` then calls `feeAmt.Sign()` at line 224, which dereferences nil | a base-fee query that answers 0 at the latest height | amount 0 with no error, so the envelope carries no fee entry | medium, not executed | `TxBuilder.ZeroBaseFeeDereferencesNil` (over `FeeEstimation.CalculateFeePayerFeesAsWritten` and `TxBuilder.FeeLineAsWritten`) | `FeeEstimation.CalculateFeePayerFees`, `TxBuilder.ZeroBaseFeeOmitsFeeLine` |
