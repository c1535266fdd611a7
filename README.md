# Payment relay: initiation and webhook reconciliation

A Dafny model of the core of a payment relay. The relay does three things:

- It accepts a payment request and validates it against a per-country table.
- It forwards the request to the payment gateway and stores a `pending` transaction.
- It later reconciles that transaction when the gateway sends a signed `charge.success` webhook. On success it may also dispatch a crypto payout to a wallet.

The model has six modules, one file each:

- `PaymentTypes` (`payment_types.dfy`) holds the records of `src/types/payment.d.ts`, the stored transaction row, JSON values and thrown errors.
- `Persistence` (`persistence.dfy`) holds the transaction table. `TransactionStore` is a class that owns a `map` from gateway reference to row and the next id. Its methods are the database calls the flows make: find by reference, partial update by id, and create. Each call takes a `DbOutcome` argument that says whether the database commits or throws.
- `WebhookService` (`webhook_service.dfy`) models `handlePaystackWebhook`. The method `HandlePaystackWebhook` performs the writes on the store one at a time, as the source does. It is proved equal to the pure function `Reconcile`. The lemmas about `Reconcile` state the guarantees: authentication, event filtering, the idempotency guard, the success, payout and compensation paths, the frame, and monotonic status. One lemma covers any sequence of deliveries and shows no row is ever paid out twice.
- `PaymentService` (`payment_service.dfy`) models `COUNTRY_CONFIGS`, `getCountryFromCurrency` (a search loop proved against `FirstWithCurrency`) and `initiatePayment`. The method `InitiatePayment` is proved equal to the pure function `Initiate`, and the lemmas about `Initiate` state the guarantees.
- `PaymentController` (`payment_controller.dfy`) models `createPayment`. It builds `cryptoIntent` from the body, passes the fields through, and maps a result or an error to the response.
- `Lifecycle` (`lifecycle.dfy`) has one lemma that links both flows for a single transaction.

Effects outside the core become arguments:

- The keyed digest (HMAC per RFC 2104 over SHA-512, hex-encoded) and `JSON.stringify` are uninterpreted function values inside `Signer`.
- The gateway's `initialize` answer is a `Result<InitResponse>`.
- The payout and every database call are outcome arguments (`WebhookOracles`, `DbOutcome`).
- The callback URL from the environment is an `Option<string>` argument.

Two facts about the code shape the model:

- Every thrown error is a plain `Error` carrying a message, so `Error` is a datatype with one field, `message`.
- The signature is compared with `!==`, not in constant time, so the model compares the digest and the signature as strings.

## Model

| member | source | states |
|---|---|---|
| `PaymentService.FirstWithCurrency` | src/services/payment.service.ts:92-96 | The index found is the first table entry whose currency matches; none is found iff no entry matches. |
| `PaymentService.GetCountryFromCurrency` | src/services/payment.service.ts:92-97 | The loop returns the key of the first entry with this currency, which is a configured country; with no match it throws `Unsupported currency: <currency>`. |
| `PaymentService.CountryOf` | src/services/payment.service.ts:92-97 | The country found is configured and has this currency. None is found iff no configured country has this currency. |
| `PaymentService.SupportedCurrencies` | src/services/payment.service.ts:8-29 | KES resolves to KE, NGN to NG and GHS to GH; every other currency is unsupported. |
| `PaymentService.Validate` | src/services/payment.service.ts:31-44 | A request passes iff its currency is supported, the country offers its method, and mobile money has a non-empty provider. Each failure throws its own message, checked in the source's order. Amount bounds and provider membership are not checked. |
| `PaymentService.RejectionExamples` | src/services/payment.service.ts:37-44 | `bank_transfer` with KES and `mobile_money` with NGN are rejected as unavailable. USD is unsupported. Mobile money without a provider is rejected. |
| `PaymentService.Payload` | src/services/payment.service.ts:47-66 | The amount is 100 times the major amount and the channels are exactly the method. The metadata names the method, and names the provider only for mobile money. The `mobile_money` block is present iff the method is mobile money and a provider is given. |
| `PaymentService.Draft` | src/services/payment.service.ts:71-83 | The row to insert is `pending`, under the gateway's reference with its raw data. It copies amount, currency, email, method and the payout instruction. It keeps the provider iff the provider is non-empty. |
| `PaymentService.Initiate` | src/services/payment.service.ts:31-90 | A payload is sent iff validation passes, and it is `Payload` of the request. The call succeeds iff validation passes, the gateway answers, its reference is new and the insert commits. A success adds exactly the drafted row with the next id and returns its URL, reference and id. Any failure leaves the table and the counter unchanged. |
| `PaymentService.InitiatePayment` | src/services/payment.service.ts:31-90 | The method validates, builds and then extends the payload, calls the gateway, and inserts through the store. Its result, the payload it sent and the new table are exactly those of `Initiate`. |
| `PaymentService.ValidatesBeforeSideEffects` | src/services/payment.service.ts:33-71 | The gateway is called iff validation passes. A validation failure is thrown unchanged. No failure changes the table. |
| `PaymentService.InsertsOnePendingRecord` | src/services/payment.service.ts:71-89 | On success exactly one row is added, under the gateway reference, which was new, with a fresh id. The row is `pending` and copies amount, currency, email and method. The provider is kept only when non-empty, and the payout instruction is kept as given. The returned reference and id are that row's. |
| `PaymentService.AcceptedPayloadShape` | src/services/payment.service.ts:49-66 | In a payload actually sent, the metadata provider and the `mobile_money` block are both present iff the method is mobile money. |
| `PaymentService.InitiationPreservesTable` | src/services/payment.service.ts:71-83 | Initiation keeps references and ids unique and leaves every existing row unchanged. |
| `Persistence.UpdateWhereId` | src/services/webhook.service.ts:30-36 | An update by id patches every row with that id and leaves every other row alone. It adds and removes no row, keeps the table well formed, and changes nothing when no row has the id. |
| `Persistence.UpdateWritesOneRow` | src/services/webhook.service.ts:30-36 | An update selected by the id of one row writes that row only, since ids are unique. The table stays well formed. |
| `Persistence.CreateResult` | src/services/payment.service.ts:71-83 | An insert succeeds iff the reference is new and the database commits. The row then gets the next id. |
| `Persistence.TransactionStore.FindByReference` | src/services/webhook.service.ts:20-22 | The lookup returns the row stored under the reference, or none, or the database error. |
| `Persistence.TransactionStore.Update` | src/services/webhook.service.ts:30-36 | A committed update applies the patch to the row with that id and changes nothing else. A failed one changes nothing. Validity is kept. |
| `Persistence.TransactionStore.Create` | src/services/payment.service.ts:71-83 | A committed insert adds the row with the next id. A duplicate reference or a failed insert changes nothing. |
| `WebhookService.WithPayoutHash` | src/services/webhook.service.ts:51-54 | The new snapshot is an object holding every field of the event data plus `cryptoTransactionHash`, which is the payout hash and overrides any field of that name. |
| `WebhookService.Compensate` | src/services/webhook.service.ts:58-64 | The catch block always throws and keeps the payout already dispatched. If its write commits, the row with that id is written `failed` (status only) and the caught error is re-thrown. If its write throws, the table is unchanged and that write's error escapes. |
| `WebhookService.Process` | src/services/webhook.service.ts:28-57 | The try block returns normally iff none of its steps throws. Otherwise it throws that step's error when the compensation commits. It dispatches a payout iff the `success` write commits and the row has an instruction, and then the payout is (wallet, row amount, asset). No row is added or removed. |
| `WebhookService.Reconcile` | src/services/webhook.service.ts:8-66 | A delivery adds and removes no row. A forged event throws `Invalid webhook signature`, and an authentic event of another kind returns normally. A payout is dispatched only for a referenced row that was `pending` and had an instruction, and it is (wallet, row amount, asset). |
| `WebhookService.HandlePaystackWebhook` | src/services/webhook.service.ts:8-66 | The handler runs the signature check, the filter, the lookup, the writes in order, the payout and the catch block. Its final table, its result or thrown error, and the payout it dispatched are exactly those of `Reconcile`. |
| `WebhookService.RejectsForgedEvent` | src/services/webhook.service.ts:10-16 | A digest that differs from the signature throws `Invalid webhook signature`. Nothing is read, written or paid out. |
| `WebhookService.IgnoresOtherEvents` | src/services/webhook.service.ts:18-19 | An authentic event of another kind returns normally and changes nothing. |
| `WebhookService.ActsOnlyOnPendingRecord` | src/services/webhook.service.ts:20-26 | Any write or payout implies the delivery was authentic, was a `charge.success`, and named a row that was still `pending`. |
| `WebhookService.WritesOnlyLookedUpRecord` | src/services/webhook.service.ts:28-64 | Only the row under the event's reference can change. Every other row and the set of references stay as they were. |
| `WebhookService.NeverRevertsToPending` | src/services/webhook.service.ts:28-64 | A changed row was `pending` and ends `success` or `failed`, with only its status and snapshot written. |
| `WebhookService.ProcessWritesOneRow` | src/services/webhook.service.ts:28-57 | The try block writes only the looked-up row, only its status and snapshot. That row leaves `pending` whenever anything was written. |
| `WebhookService.CompensateWritesOneRow` | src/services/webhook.service.ts:58-64 | The catch block writes `failed` to the looked-up row and leaves its snapshot alone, or changes nothing if that write fails. |
| `WebhookService.SettlesWithoutIntent` | src/services/webhook.service.ts:30-39 | A pending row with no payout instruction ends `success` with the event data as its snapshot. No payout is dispatched. |
| `WebhookService.PaysOutIntent` | src/services/webhook.service.ts:39-56 | A pending row with an instruction gets exactly one payout of (wallet, the row's amount, asset). If the payout and the write succeed, the row is `success` and its snapshot is the event data plus `cryptoTransactionHash`. |
| `WebhookService.CompensatesFailure` | src/services/webhook.service.ts:58-64 | When a try-block step throws, the row is written `failed` (status only) and that error is thrown on. If the compensating write throws, its error escapes instead. |
| `WebhookService.PayoutSettlesRecord` | src/services/webhook.service.ts:28-56 | A dispatched payout belongs to the referenced row. That row was `pending` before and is not after. |
| `WebhookService.RedeliveryIsNoOp` | src/services/webhook.service.ts:20-36 | After a delivery that returned normally, the same event again writes nothing and pays out nothing. |
| `WebhookService.RedeliveryAfterWriteIsNoOp` | src/services/webhook.service.ts:20-64 | After a delivery that wrote the table, whether it settled the row or compensated it to `failed`, the same event again writes nothing and pays out nothing. |
| `WebhookService.SettledRecordIsFrozen` | src/services/webhook.service.ts:24-26 | A non-pending row is never written or paid out again, over any sequence of deliveries. |
| `WebhookService.PaysOutAtMostOncePerRecord` | src/services/webhook.service.ts:20-56 | Over any sequence of deliveries handled one after another, no row is paid out twice, and every row paid out has left `pending`. |
| `PaymentController.CryptoIntentOf` | src/controllers/payment.controller.ts:17-20 | The instruction exists iff both crypto fields are present and non-empty, and it carries them unchanged. |
| `PaymentController.ServiceParams` | src/controllers/payment.controller.ts:22-29 | Email, amount, currency, method and provider reach the service unchanged, along with the instruction. |
| `PaymentController.PaymentResponse` | src/controllers/payment.controller.ts:31-43 | A result becomes 200 with `success`, the payment URL and the reference; the transaction id is not exposed. Any error becomes 400 with its message. |
| `PaymentController.CreatePayment` | src/controllers/payment.controller.ts:5-44 | The response and the new table are those of initiating the mapped parameters. |
| `PaymentController.CreatedResponseHasPendingRecord` | src/controllers/payment.controller.ts:17-37 | A 200 response names a new `pending` row. That row carries a payout instruction iff both crypto fields were given. |
| `PaymentController.MobileMoneyWithoutProvider` | src/controllers/payment.controller.ts:22-43 | KES mobile money without a provider is answered 400 with the provider message. Nothing is stored and the gateway is not called. |
| `Lifecycle.InitiatedThenConfirmed` | src/services/webhook.service.ts:20-36 | After an accepted payment without an instruction, an authentic `charge.success` for its reference makes the row `success` with the event data as snapshot. Delivering it again changes nothing. |

## Left out

- HMAC-SHA-512 and `JSON.stringify` are uninterpreted functions in `Signer`. The model checks only that the digest equals the signature.
- Only the `event` and `data` fields of a webhook payload are modelled, and `data` is a JSON object. Other top-level fields are not modelled.
- A `data.reference` that is missing or not a string makes the database client reject the lookup. The model returns the error `InvalidLookupKey` and writes nothing. The exact wording of that error is not the client's.
- JSON numbers (`JNumber`) are whole numbers. A fractional number in the gateway's event data cannot be stored in the snapshot as it is. No behaviour of the model depends on these numbers.
- `Math.round(amount * 100)` is not modelled: amounts are whole numbers, so no floating-point rounding occurs.
- Request body fields other than the optional ones (email, amount, currency, payment method) are assumed present, with their declared types.
- The database schema is not part of this model. The row id is modelled as a counter. The gateway reference is assumed unique, so a duplicate insert throws `DuplicateReference`.
- The gateway's `initialize` call is an outcome argument; the HTTP client is not modelled.
- `src/services/crypto.service.ts` is a stub. Its payout is the `payout` outcome argument.
- `src/services/validation.service.ts` is not part of this model. It calls the gateway's `verify`, discards the result and writes nothing.
- The Express wiring is not modelled: `src/app.ts`, `src/server.ts`, the routes and `src/controllers/webhook.controller.ts`.
- Environment variables and logging are not modelled. The secret is a field of `Signer` and the callback URL is an argument.
- Concurrent deliveries are not modelled. Every lemma is about calls handled one after another. The source has no locking, so two simultaneous deliveries could both pass the guard.
- `minAmount`, `maxAmount` and `mobileProviders` are kept in the table but, as in the source, never checked.
