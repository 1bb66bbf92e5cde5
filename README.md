# Solana arbitrage bot core, modelled in Dafny

This project models the three parts of the arbitrage bot that make decisions:

- **Listener** (`listener.dfy`). A listener is built for one Solana client.
  It holds a transaction handler and a `subscribed` flag. `Start` refuses to
  run twice at once. While subscribed, each delivered transaction goes through
  `processTransaction`. That filter drops a transaction whose amount is below
  `MinTransactionAmount` or whose program is not in `TargetPrograms`. A
  transaction that passes is normalised into a `Transaction` and handed to the
  registered handler, if there is one.
- **Trader** (`trader.dfy`). `NewTrader` validates its collaborators in a
  fixed order. `ExecuteArbitrage` analyses a transaction, then stops on an
  error, a nil opportunity or an expected profit strictly above
  `MaxTransactionAmount`. Otherwise it builds a transaction paid and signed by
  the trader's own key and sends it to the Jito relay. Only after a successful
  send does it mark the opportunity `"executed"` with the relay's signature.
- **Utilities** (`utils.dfy`). `CalculateTransactionFee` works in Go's
  wrapping `uint64` arithmetic. `GenerateRandomID`, when the random read
  succeeds, prints a prefix, a dash and 16 lowercase hex digits.

`base.dfy` holds `Option`, `Result` and `Byte`. `solana.dfy` holds opaque
handles for the Solana SDK wrapper and the Jito client: clients, keys,
signatures and ledger transactions.

Modelling conventions:

- Amounts and profits are Go `float64` values. The core only compares them,
  so they are Dafny `real`s, and NaN cannot occur. A NaN amount or profit
  would make every comparison false; the model does not cover that case.
- Go `int` and `uint64` are the newtypes `Utils.Int64` and `Utils.Uint64`.
  The `uint64(n)` conversion and every `uint64` multiplication and addition
  wrap modulo 2^64 explicitly.
- Calls into code outside the core become parameters:
  - the subscription outcome, the deliveries and the unsubscribe outcome in `Start`;
  - the key loader in `NewTrader`;
  - the answer of the signature primitive in `BuildArbitrageTransaction`;
  - the relay's answer to `SendTransaction`;
  - the clock reading for the opportunity ID;
  - the eight random bytes of `GenerateRandomID`.
- The decoded amount and program are hard-coded to `0.0` and `""` at
  `internal/listener/listener.go:104-105`. Here they are fields of the
  `Delivery` the listener receives. `Listener.HardCodedDecodingPasses` states
  what the hard-coded values let through.
- `processTransaction` indexes `tx.Signatures[0]` only once both checks pass,
  and panics there on an empty list. The model therefore requires a signature
  only of a transaction that passes (`Listener.Dispatchable`).
- Handler calls are the listener's only effect on the world. The ghost field
  `Listener.Listener.calls` records them, in order.
- The body of `ExecuteArbitrage` after analysis is `Trader.ExecuteOpportunity`.
  It takes the analysis result as a parameter, so the error and nil branches
  can be reached. `analyzeTransaction` in the source always returns an
  opportunity. `Trader.ExecuteArbitrage` composes the two, as the source does.
  The pure function `Trader.Pipeline` specifies what each path does.

Where the design description and the code disagree, the model follows the code:

- A failed unsubscribe makes `Start` return an error with `subscribed` still
  set. Later starts are then refused; shutdown is not clean.
- A profit above the ceiling returns no error and leaves the opportunity
  untouched. There is no "rejected" status.
- The status only goes from `"pending"` to `"executed"`.
- The comparison is profit against `MaxTransactionAmount`, exactly as written.
- Opportunity IDs are `"arb-"` plus the time to the second. They are not
  derived from the source transaction. `Trader.OpportunityIdInjective` shows
  they depend on nothing but the clock.

## Model

| member | source | states |
|---|---|---|
| `Utils.ToUint64` | pkg/utils/utils.go:37-38 | `uint64(n)` is congruent to `n` modulo 2^64 and equals `n` when `n` is non-negative |
| `Utils.CalculateTransactionFee` | pkg/utils/utils.go:34-41 | for every pair of `int` inputs, including negative ones, the fee is (5000 + 1000·signatures + 2000·instructions) mod 2^64 |
| `Utils.FeeOfEmptyTransaction` | pkg/utils/utils.go:36-40 | no signatures and no instructions cost exactly the base fee 5000 |
| `Utils.FeeExact` | pkg/utils/utils.go:34-41 | for non-negative inputs without overflow the fee is exactly 5000 + 1000·signatures + 2000·instructions, so at least 5000 |
| `Utils.FeeIncrements` | pkg/utils/utils.go:37-38 | without overflow one more signature adds exactly 1000 and one more instruction exactly 2000 |
| `Utils.FeeMonotone` | pkg/utils/utils.go:36-40 | without overflow the fee does not decrease when either count grows |
| `Utils.FeeOfNegativeCountWraps` | pkg/utils/utils.go:37-40 | negative counts wrap in two's complement, e.g. -1 signatures give 4000 and -3 instructions give 2^64 - 1000 |
| `Utils.HexEncode` | pkg/utils/utils.go:19 | the hex text has two characters per byte, all lowercase hex digits |
| `Utils.HexRoundTrip` | pkg/utils/utils.go:19 | hex-decoding the encoding of any byte string gives those bytes back |
| `Utils.GenerateRandomId` | pkg/utils/utils.go:12-19 | on a successful read the ID is the prefix, `-`, then 16 lowercase hex digits whose decoding is the 8 random bytes |
| `Utils.RandomIdInjective` | pkg/utils/utils.go:19 | with the same prefix, two IDs are equal exactly when their random bytes are equal |
| `Listener.NewListener` | internal/listener/listener.go:37-46 | fails with "solana client is required" exactly when the client is nil; otherwise a fresh listener with that config and client, no handler, not subscribed |
| `Listener.Listener.constructor` | internal/listener/listener.go:42-46 | a new listener has the given config and client, a nil handler and `subscribed` false |
| `Listener.Listener.SetTransactionHandler` | internal/listener/listener.go:50-54 | the handler becomes the given one and no other field changes |
| `Listener.ContainsProgram` | internal/listener/listener.go:113-119 | the loop with `targetFound` and `break` finds the program exactly when it occurs in the target list |
| `Listener.Listener.ProcessTransaction` | internal/listener/listener.go:98-140 | the handler calls grow by exactly what `Dispatch` prescribes: none when the amount is low, the program untargeted or the handler nil, otherwise one |
| `Listener.Listener.ProcessAll` | internal/listener/listener.go:73-76 | running the subscription callback on each delivered transaction in order adds exactly `DispatchAll` of the deliveries to the handler calls |
| `Listener.Listener.Start` | internal/listener/listener.go:57-95 | already subscribed: "listener already started" and nothing changes; subscribe failure: wrapped error with `subscribed` left true; otherwise every delivery is dispatched in order, then a failed unsubscribe leaves `subscribed` true and a clean one clears it |
| `Listener.DispatchAll` | internal/listener/listener.go:73-76 | a stream of deliveries causes at most one handler call per delivery |
| `Listener.DispatchAllAppend` | internal/listener/listener.go:73-76 | dispatching a stream split in two is dispatching the first part and then the second, so delivery order is kept |
| `Listener.BelowMinimumNeverDispatched` | internal/listener/listener.go:108-110 | a transaction with amount below the minimum never reaches the handler |
| `Listener.MinimumAmountPasses` | internal/listener/listener.go:108-110 | an amount equal to the minimum passes the amount check and, for a targeted program, reaches the handler |
| `Listener.UntargetedNeverDispatched` | internal/listener/listener.go:113-123 | a program outside the targets never reaches the handler, and with an empty target list nothing does |
| `Listener.PassingDispatchedOnce` | internal/listener/listener.go:126-140 | a passing transaction calls a set handler exactly once, with the first signature, the extracted amount and the extracted program; a nil handler is not called |
| `Listener.DispatchAllFiltered` | internal/listener/listener.go:107-140 | over any stream, every handler call goes to the registered handler and carries an amount at or above the minimum and a targeted program; with no handler there are no calls |
| `Listener.HardCodedDecodingPasses` | internal/listener/listener.go:104-123 | with the hard-coded amount 0.0 and program "", a transaction passes exactly when the minimum is at most 0 and "" is a target |
| `Listener.RestartAfterCleanShutdown` | internal/listener/listener.go:57-95 | after Start, cancellation and a clean unsubscribe, `subscribed` is false and a second Start is accepted |
| `Listener.FailedCycleBlocksRestart` | internal/listener/listener.go:57-88 | after a failed subscribe or unsubscribe, `subscribed` stays true and the next Start returns "listener already started" |
| `Trader.NewTrader` | internal/trader/trader.go:25-45 | a nil Solana client is reported first, then a nil Jito client, then a key-load failure; it succeeds exactly when all three pass, and the trader holds the key loaded from the configured path |
| `Trader.AnalyzeTransaction` | internal/trader/trader.go:98-112 | always a fresh opportunity, without error, with `SourceTx` equal to the transaction's signature, status "pending", expected profit 0.1 and a clock-based ID |
| `Trader.OpportunityId` | internal/trader/trader.go:106 | the ID starts with "arb-"; for a valid clock reading it has 19 characters with the date and time separated by `-` |
| `Trader.OpportunityIdRoundTrip` | internal/trader/trader.go:106 | the "20060102-150405" layout can be parsed back into the clock reading it was printed from |
| `Trader.OpportunityIdInjective` | internal/trader/trader.go:106 | two valid readings give the same ID exactly when they are the same second |
| `Trader.SignerFor` | internal/trader/trader.go:127-131 | the signer callback returns the trader's key exactly for the trader's public key and nil for every other key |
| `Trader.BuildArbitrageTransaction` | internal/trader/trader.go:115-137 | succeeds exactly when the signature primitive does; the transaction is paid by the trader's public key and carries that one signature; otherwise the error is wrapped as "failed to sign transaction" |
| `Trader.Pipeline` | internal/trader/trader.go:53-94 | send happens exactly when analysis finds an opportunity with profit at most the maximum and building succeeds; the record changes exactly when send also succeeds, to the returned signature; the error is nil exactly on the no-opportunity, over-ceiling and success paths; each error carries its wraps |
| `Trader.ExecuteOpportunity` | internal/trader/trader.go:53-94 | returns the error and the sent transaction that `Pipeline` prescribes; the opportunity becomes "executed" with the relay's signature only on a successful send, and is untouched on every other path |
| `Trader.ExecuteArbitrage` | internal/trader/trader.go:49-95 | with the source's own analysis, the relay is used exactly when 0.1 is at most the maximum and signing succeeds |
| `Trader.CeilingIsStrict` | internal/trader/trader.go:67-71 | a profit equal to the maximum proceeds to build and send |
| `Trader.AboveCeilingNeverSent` | internal/trader/trader.go:67-71 | a profit above the maximum returns nil and never builds, sends or records |
| `Trader.NoOpportunityNothingHappens` | internal/trader/trader.go:53-62 | an analysis error or a nil opportunity never sends and never records; only the nil opportunity returns no error |

## Left out

- pkg/solana/client.go is not part of this model. It wraps RPC and WebSocket calls. `SubscribeTransactions` is a stub, and `LoadPrivateKeyFromFile` is file I/O plus JSON. Their outcomes are parameters.
- internal/jito/client.go is not part of this model. It is an HTTP client; its answer to `SendTransaction` is a parameter.
- internal/config/config.go is not part of this model; it is configuration loading. Only the two config records are used.
- Decoding of chain transactions is not modelled. The source hard-codes it; the decoded amount and program are inputs.
- The listener's mutex is not modelled, and neither is `SetTransactionHandler` running concurrently with `Start`. All operations are sequential.
- The blocking wait on context cancellation is not modelled. Deliveries before cancellation are a finite sequence.
- Logging, `time.Now()` timestamps (`DetectedAt`, `ExecutedAt`), and transaction serialisation and signing cryptography are not modelled.
- `Trader.BuildArbitrageTransaction`: the SDK's `Sign` is represented by one lookup of the fee payer through the callback plus the primitive's answer. The SDK's message encoding errors are not modelled.
- `Trader.OpportunityId`: the length and round-trip results assume a four-digit, non-negative year. Go prints other years with more digits or a sign.
- `Utils.GenerateRandomId`: the `crypto/rand` read and its `time.Now().UnixNano()` fallback are not modelled. The bytes are a parameter.
- `SolToLamports` and `LamportsToSol` are left out: they are float multiplication, division and truncation.
- `WaitWithTimeout` is left out: it is a wall-clock polling loop with `time.Sleep`.
- The models package (internal/models/transaction.go) holds data-only types. Only the fields the core uses appear here.
