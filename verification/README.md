# FairBus fare and payment rules in Dafny

FairBus is a bus fare system built on Firebase. This project models its two business
rules as pure transitions over immutable document maps.

- **RFID fare transfer** (`processRFIDTap` in `index.js`). A bus tap names a rider by
  RFID uid and may carry a `fareAmount`. A falsy amount (absent or 0) is replaced by the
  default fare of 20. Inside one Firestore transaction, the rider must exist and the test
  `balance < fare` must be false; for a rider document with no `balance` field that test is
  `undefined < fare`, which is also false (see Findings). The fare then moves from the
  rider's balance to the single operator document's balance, and one log entry is
  appended on each side. A thrown error aborts the transaction, so a rejected tap writes
  nothing. Module `FareTransfer` models one tap, both with the code's own balance test and
  with the corrected one. Module `TapHistory` models a run of taps, one per `/rfid_events`
  record.
- **eSewa payment callbacks** (`esewa_success` and `esewa_failure` in `server/main.py`).
  Each callback tests its body fields with Python truthiness, where a missing key, `None`,
  `""` and `0` are all falsy. An accepted body overwrites the whole document
  `transactions/<transaction_id>`. Every body gets a JSON response payload. Module
  `PaymentCallbacks` models the two endpoints. Module `CallbackHistory` models a sequence
  of deliveries, where the last write wins.

Balances and amounts are integers. A document's `balance` is `Option<int>`, and `None`
means the document has no such field. `FieldValue.increment` treats a missing field as 0.
A negative `fareAmount` is truthy and is modelled as the code runs it: the money then
moves from the operator to the rider.

An `amount` of 0 is falsy in Python, so `esewa_success` refuses it (server/main.py:21);
see `PaymentCallbacks.ZeroAmountRefused`.

## Model

| member | source | states |
|---|---|---|
| FareTransfer.Fare | index.js:13 | the fare is never 0; it is the event's `fareAmount` whenever that is truthy, and otherwise the default 20 |
| FareTransfer.Tap | index.js:21-58 | the tap fails with NotFound exactly when no rider document exists, and with Insufficient exactly when the balance is below the fare. Otherwise the rider's balance field becomes its old value less the fare, the operator's becomes its old value plus the fare, each side gains exactly one log entry of the given shape, and no other rider changes (corrected for a missing balance field, see Findings) |
| FareTransfer.TapAsWritten | index.js:21-58 | the transaction as written: accepted exactly when the rider exists and the JavaScript test `balance < fare` is false, which includes an `undefined` balance |
| FareTransfer.Transaction | index.js:21-58 | for either balance test, the transaction fails with NotFound exactly when no rider document exists; it is accepted exactly when the rider exists and that variant's balance test passes (corrected: balance, missing read as 0, at least the fare; as written: `balance < fare` false); an accepted transaction performs exactly the transfer described for `Tap`, leaving a numeric balance field on both sides |
| FareTransfer.ProcessRFIDTap | index.js:19-63 | for either balance test, a caught error leaves every document unchanged and reports that error; a processed tap performs exactly the transfer |
| FareTransfer.TapPreservesPairSum | index.js:33-40 | for either balance test, every tap, accepted or not, keeps the rider's balance plus the operator's balance |
| FareTransfer.SumUpdate | index.js:33-35 | replacing one rider document changes the sum of all rider balances by exactly that rider's balance difference |
| FareTransfer.TapConservesTotal | index.js:33-40 | for either balance test, every tap conserves the money held by all riders and the operator together |
| FareTransfer.TapAcceptsExactBalance | index.js:27-30 | a balance exactly equal to the fare is accepted and leaves the rider's balance field at the number 0 |
| FareTransfer.TapKeepsRiderSolvent | index.js:28-35 | a rider with a non-negative balance still has one after the tap; with the code's own test this needs the rider document to have a balance field |
| FareTransfer.TapPreservesFunded | index.js:33-35 | a tap never leaves a rider document without a balance field if all had one |
| FareTransfer.TapPreservesSolvent | index.js:27-35 | if no rider is in debt before a tap, none is after it; with the code's own test this needs every rider document to have a balance field |
| FareTransfer.AsWrittenOverdrawsUnfundedRider | index.js:27-35 | as written, a rider with no balance field tapping with the default fare is accepted and ends at -20 |
| FareTransfer.CorrectionOnlyAffectsMissingBalance | index.js:27-30 | the corrected and the as-written transaction differ exactly when the rider document has no balance field and the fare is positive |
| FareTransfer.TapLogMatchesBalance | index.js:33-58 | for either balance test, for the rider and the operator, balance minus the net movement recorded in the log is the same before and after every tap |
| TapHistory.RunConservesTotal | index.js:8-9 | for either balance test, any run of taps conserves the total money |
| TapHistory.RunPreservesSolvent | index.js:8-9 | any run of taps keeps every rider out of debt; with the code's own test this needs every rider document to start with a balance field |
| TapHistory.RunKeepsRiders | index.js:16-17 | no run of taps creates or deletes a rider document |
| TapHistory.RunOperatorLogCountsAccepted | index.js:52-58 | the operator's log grows by exactly one entry per accepted tap |
| PaymentCallbacks.EsewaSuccess | server/main.py:13-31 | the response confirms exactly when `transaction_id`, `user_id` and `amount` are all truthy. Then the document at that id becomes `{user_id, transaction_id, amount, status: success}`, every other document is unchanged, and the response is `{message: "Payment successful", transaction_id}`. Otherwise the store is unchanged and the response is `{error: "Invalid payment data"}` |
| PaymentCallbacks.EsewaFailure | server/main.py:34-49 | the response confirms exactly when `transaction_id` and `user_id` are truthy. Then the document at that id becomes `{user_id, transaction_id, status: failed}` with no amount, every other document is unchanged, and the response is `{message: "Payment failed", transaction_id}`. Otherwise the store is unchanged and the response is `{error: "Invalid failure data"}` |
| PaymentCallbacks.SuccessIdempotent | server/main.py:21-31 | delivering the same success body twice gives the same store and response as delivering it once |
| PaymentCallbacks.FailureIdempotent | server/main.py:40-49 | delivering the same failure body twice gives the same store and response as delivering it once |
| PaymentCallbacks.FailureOverwritesSuccess | server/main.py:23-28 | a failure after a success for the same id leaves status failed, no amount, and the failure's user |
| PaymentCallbacks.SuccessOverwritesFailure | server/main.py:42-46 | a success after a failure for the same id leaves status success with the success's amount |
| PaymentCallbacks.CallbacksPreserveWellFormed | server/main.py:21-46 | every stored document stays keyed by its own truthy id and names a truthy user. It carries a truthy amount exactly when its status is success, and has no amount exactly when its status is failed |
| PaymentCallbacks.SuccessExample | server/main.py:21-29 | body `{T1, U1, 100}` on an empty store writes `T1 = {U1, T1, 100, success}` and answers `{Payment successful, T1}` |
| PaymentCallbacks.FailureExampleMissingId | server/main.py:40-49 | a failure body without `transaction_id` writes nothing and answers `{error: "Invalid failure data"}` |
| PaymentCallbacks.ZeroAmountRefused | server/main.py:21-31 | an `amount` of 0 is falsy, so the success endpoint writes nothing and answers `{error: "Invalid payment data"}` |
| CallbackHistory.DeliverWrites | server/main.py:21-46 | one delivery writes a key exactly when that callback is valid and names the key, and then writes the whole document for it |
| CallbackHistory.ReplayLastWriteWins | server/main.py:22-28 | after any sequence of callbacks, a document equals the one written by the latest valid callback for its id, or the original document if no callback wrote it |
| CallbackHistory.ReplayNeverDeletes | server/main.py:22-23 | no sequence of callbacks removes a document |

## Findings

| source | as written | input that shows it | evidently intended | confidence | as-written member | corrected member |
|---|---|---|---|---|---|---|
| index.js:27-34 | `userBalance < fareAmount` is false when the user document has no `balance` field (`undefined < 20`). The tap is accepted, and `increment(-fare)` then creates the field at `-fare`. | user document `{}` for uid "u", event with no `fareAmount`: balance becomes -20 | a missing balance counts as 0 and must cover the fare, so this tap is refused as insufficient | medium (JavaScript comparison semantics and documented increment behaviour; not executed) | FareTransfer.AsWrittenOverdrawsUnfundedRider | FareTransfer.TapKeepsRiderSolvent |

`Tap` is the corrected transaction and `TapAsWritten` keeps the code as written.
`ProcessRFIDTap` and the run functions of `TapHistory` take the variant as a parameter.
The conservation, log and run lemmas hold for both variants. The solvency lemmas hold for
the corrected variant unconditionally, and for the code as written only when the rider
documents have a balance field. `CorrectionOnlyAffectsMissingBalance` shows the two differ
exactly for a rider document without a balance field and a positive fare.

## Left out

- Firebase Admin SDK initialisation and credential loading (`index.js:1-5`, `server/main.py:7-10`). These are foreign library calls and I/O.
- The Cloud Functions trigger wiring, FastAPI routing and the `request.json()` parsing. Events and bodies are taken as already parsed inputs.
- Concurrency and retries of `runTransaction`, and concurrent webhook delivery. Each transaction or request is one atomic step.
- Server timestamps and auto-generated log document ids. Logs are sequences without timestamps.
- Floating-point money. Balances, fares and amounts are integers, so NaN and fractional amounts are not modelled.
- Values of the wrong JSON type: a string `fareAmount` or balance that JavaScript would coerce, or a non-string `transaction_id` or `user_id`. Fields are modelled with the types the code expects.
- A `balance` field holding `null`. It is not a missing field: `null < fare` compares `0 < fare`, so for a positive fare that rider is refused, unlike the `undefined` case under Findings. The model's `None` stands only for a missing field.
- Integer width. Balances, fares and amounts are unbounded integers. Firestore caps the result of `FieldValue.increment` at -2^63 and 2^63-1, and the Node SDK reads numbers as doubles, exact only below 2^53. Neither is modelled, so the conservation lemmas hold only while every balance stays below those bounds. Likewise a success `amount` outside the 64-bit range, which makes the `set` at `server/main.py:23` raise, is modelled as written to the store.
- Invalid document paths: an undefined, empty or `/`-containing uid or transaction id, which the SDK rejects or maps to a nested path. Ids are plain map keys.
- A missing `bus_operators/operator` document. Firestore's `update` would then abort the transaction; the model assumes the document exists.
- A datastore write failure in the callbacks, which the code does not catch.
- `console.log` and `console.error` output. Only the processed/failed outcome is kept.
- The commented-out alternative server (`server/main.py:74-123`), which is dead code.
