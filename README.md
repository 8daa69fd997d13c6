# Paycom merchant transaction engine — a Dafny model

This project models the payment core of a Telegram bot that sells uses of an essay-evaluation feature through the Paycom gateway:

- the server half of Paycom's merchant JSON-RPC protocol (paycom_handlers.py). It authenticates the gateway's `Basic` header and handles `CheckPerformTransaction`, `CreateTransaction`, `PerformTransaction`, `CancelTransaction` and `CheckTransaction` against a transaction table keyed by the gateway id and a users table of use counters;
- the store updates made by the outbound client (utils/paycom_integration.py) when it opens an invoice or polls an invoice or transaction, and its pricing table `calculate_uses`;
- the rule that spends one use, free before purchased (utils/usage_utils.py).

Layout:

- `tables.dfy` (module `Tables`): the tables as a value `Store`, with a named `Txn` record in place of the tuple indices. It also holds the effects of the database helpers (`Insert`, `UpdateStatus`, `AddPurchasedUses`) and the invariant that internal ids are unique.
- `database.dfy` (module `Database`): class `Ledger`, which holds the two maps and the id counter. Its helper methods update the maps in place. The transaction and credit helpers are specified by the functions of `Tables`; the reads and the two use-counter decrements state their effect on the maps directly.
- `engine.dfy` (module `Engine`): what each callback does, as a function from the store before to the store after plus the response body.
- `handlers.dfy` (module `PaycomHandlers`): the callback handlers as methods over a `Ledger`. Each is proved to compute exactly the `Engine` function.
- `engine_laws.dfy` (module `EngineLaws`): properties of sequences of callbacks.
- `gateway.dfy` (module `Gateway`): `create_invoice`, `check_invoice` and `check_transaction`, with the gateway's reply and whether the client's store call raises given as inputs.
- `pricing.dfy`, `usage.dfy`, `auth.dfy`, `wrappers.dfy`.

Exceptions are modelled as inputs. `Param.Malformed(m)` is a request parameter whose conversion raises, as `int(None)` or `None // 100000` do. `Fault.RaisesAt(k, m)` makes the k-th store call of a handler raise, counting from 0 in the order the handler makes them. Its exception branch then answers with that handler's code: -31001 in CreateTransaction, -31008 elsewhere. The gateway client makes at most one store call per operation, call 0; it catches only transport exceptions, so a raising store call reaches its caller as `StoreFailure` with nothing recorded.

Transaction states are `Pending`, `Paid`, `Cancelled` and `Failed`. On the wire they are 1, 2, -1 and -2. database.py does not define the `TransactionState` enum, so it is not part of this model. These numbers come from the literals the handlers send and from the gateway states that `check_invoice` maps.

`PaycomHandlers.HandlePerformTransaction` follows the code as written (`Engine.PerformAsWritten`); the lemmas in `EngineLaws` are stated over the atomic `Engine.Perform`, which agrees with it whenever the credit call does not raise.

Behaviour of the code that a stricter payment design would not have, each proved as a lemma:

- `CreateTransaction` prices by `amount // 100000`, not by the bundle table. For non-negative amounts the two disagree only at 16000 sum (`Engine.CallbackPricingVersusTable`); for negative amounts they differ as well, since `//` floors and `int` truncates toward zero.
- A repeated `CreateTransaction` returns the stored row even when the amount or time differs. There is no conflict check.
- `PerformTransaction` does not refuse a cancelled row, and `CancelTransaction` does not reverse a credit. Perform, cancel, perform therefore credits twice (`EngineLaws.CancelThenPerformCreditsTwice`).
- `check_invoice` and `check_transaction` mark a row paid without crediting anyone. A later `PerformTransaction` for that id then takes the already-paid branch, so the payment is never credited (`Gateway.PolledPaymentIsNeverCredited`).

## Model

| member | source | states |
|---|---|---|
| `Pricing.CalculateUses` | utils/paycom_integration.py:76-86 | non-negative for non-negative amounts; outside the three bundles it grants the whole number of 100000-tiyin units, never a fraction, truncating toward zero for negative amounts |
| `Pricing.BundlePrices` | utils/paycom_integration.py:76-84 | 500000, 1000000 and 1600000 tiyin grant 5, 10 and 20 uses |
| `Pricing.LinearRateOffTopBundle` | utils/paycom_integration.py:78-86 | every non-negative amount other than 1600000 gets floor(amount / 100000) uses |
| `Pricing.TopBundleBonus` | utils/paycom_integration.py:83-84 | the 16000-sum bundle grants 4 more uses than the linear rate |
| `Pricing.PayingMoreCanGrantLess` | utils/paycom_integration.py:76-86 | the table is not monotone: 17000 sum grants fewer uses than 16000 sum |
| `Auth.Split` | paycom_handlers.py:56 | `str.split`: at least one field, no field contains the separator, a single field exactly when the separator is absent, and joining the fields gives back the text |
| `Auth.SplitAfterField` | paycom_handlers.py:56 | splitting `a:b`, with no separator in `a`, yields `a` followed by the fields of `b` |
| `Auth.VerifyPaycomAuth` | paycom_handlers.py:49-60 | acceptance implies a `Basic ` prefix, a token that decodes, and a key without a colon; decode or split failures reject instead of raising |
| `Auth.AcceptsWellFormedToken` | paycom_handlers.py:49-60 | a token decoding to `login:key` or `login:key:more` is accepted |
| `Auth.AcceptedTokenHasKeyField` | paycom_handlers.py:55-57 | whatever is accepted decodes to `login:key` or `login:key:more`, so the key compared is exactly the field after the first colon |
| `Auth.RejectsTokenWithoutColon` | paycom_handlers.py:55-60 | a decoded token without a colon is rejected |
| `Tables.Insert` | paycom_handlers.py:134-140 | `create_transaction` adds exactly one pending row under the next internal id, zero perform and cancel times, no reason; other rows and accounts unchanged; id uniqueness preserved |
| `Tables.UpdateStatus` | paycom_handlers.py:182-187 | `update_transaction_status` sets the state and the given columns of one row, keeps owner, uses and create time, touches no other row and no account, and is a no-op for an unknown id |
| `Tables.AddPurchasedUses` | paycom_handlers.py:190 | `add_purchased_uses` raises one user's purchased uses by n and changes no other counter or row |
| `Engine.CallbackPricingVersusTable` | paycom_handlers.py:131-132 | for non-negative amounts, the callback's `amount // 100000` equals `calculate_uses` exactly when the amount is not 1600000 |
| `Engine.CheckPerform` | paycom_handlers.py:62-99 | never changes the store; allows exactly a known user with an unused id; -31050 exactly for an unknown user, -31051 exactly for an id already stored; a malformed user id, a raising user lookup, or a raising transaction lookup for a known user answers -31008; no other code is answered |
| `Engine.Create` | paycom_handlers.py:101-156 | errors leave the store unchanged and are -31050 (exactly for an unknown user) or -31001; a malformed user id, a raising user lookup, and for a known user a raising transaction lookup or, on a fresh id, a malformed amount or a raising insert answer -31001; for a known user a stored id changes nothing and answers with that row's create time, internal id and state code; a fresh id with no raising call always adds a row; any change is one pending row with `amount // 100000` uses and the caller's time, answered with state 1 |
| `Engine.Perform` | paycom_handlers.py:158-206 | the intended atomic perform, the corrected member of the finding below: errors leave the store unchanged; -31003 exactly for an unknown id; a raising lookup, or any raising store call on an unpaid row, answers -31008; a paid row is left as it is; row set and ids preserved |
| `Engine.PerformAsWritten` | paycom_handlers.py:158-206 | agrees with `Engine.Perform` in every case except a raising credit call on an unpaid row, where the row is left paid (perform time set, cancel time 0) with no credit and the answer is -31008; id uniqueness preserved |
| `Engine.Cancel` | paycom_handlers.py:208-247 | never changes an account; errors leave the store unchanged; -31003 exactly for an unknown id; a raising lookup, or a raising status write on a known row, answers -31008; no other code is answered |
| `Engine.ReportedReason` | paycom_handlers.py:34 | the reported reason is null exactly when the stored one is null or 0 |
| `Engine.Status` | paycom_handlers.py:13-47 | a pure read; answers exactly for a stored id, echoing its create, perform and cancel times, internal id and state code; otherwise -31003, or -31008 when the lookup raises |
| `EngineLaws.AllowedCreateAddsRow` | paycom_handlers.py:62-148 | when CheckPerformTransaction allows a request, CreateTransaction adds exactly that one row |
| `EngineLaws.CreateIsIdempotent` | paycom_handlers.py:120-148 | a repeated CreateTransaction for the same id answers as the first did and adds no row, whatever its amount and time |
| `EngineLaws.PerformPaysAndCredits` | paycom_handlers.py:181-198 | a perform that gets through sets state paid, the perform time and cancel time 0, and credits the owner exactly the row's uses |
| `EngineLaws.PerformReplayEchoes` | paycom_handlers.py:172-179 | on a paid row the store is unchanged and the stored perform time is returned |
| `EngineLaws.PerformTwiceCreditsOnce` | paycom_handlers.py:172-190 | two performs in a row credit the owner once; the second answers as the first |
| `EngineLaws.RetriedPerformCreditsOnce` | paycom_handlers.py:158-206 | after any sequence of perform attempts, some failing, the row is paid exactly when it was or some attempt got through, and the owner is credited once if it became paid, else not at all |
| `EngineLaws.PartialPerformLosesCredit` | paycom_handlers.py:181-190 | as written, a raising credit call followed by a retry leaves the row paid and the owner uncredited |
| `EngineLaws.CancelThenStatus` | paycom_handlers.py:223-238 | cancel sets state cancelled, perform time 0, the cancel time and the reason, and CheckTransaction then reports exactly that |
| `EngineLaws.PerformThenStatus` | paycom_handlers.py:181-198 | after a perform, CheckTransaction reports state 2, that perform time and cancel time 0 |
| `EngineLaws.CancelThenPerformCreditsTwice` | paycom_handlers.py:172-231 | perform, cancel, perform credits the owner twice the row's uses |
| `PaycomHandlers.HandleCheckTransactionStatus` | paycom_handlers.py:13-47 | answers exactly `Engine.Status` |
| `PaycomHandlers.HandleCheckTransaction` | paycom_handlers.py:62-99 | answers exactly `Engine.CheckPerform` |
| `PaycomHandlers.HandleCreateTransaction` | paycom_handlers.py:101-156 | new ledger state and answer are those of `Engine.Create`; id uniqueness preserved |
| `PaycomHandlers.HandlePerformTransaction` | paycom_handlers.py:158-206 | new ledger state and answer are those of `Engine.PerformAsWritten`: the status write, then the credit, so a raising credit call leaves the row paid and uncredited |
| `PaycomHandlers.HandleCancelTransaction` | paycom_handlers.py:208-247 | new ledger state and answer are those of `Engine.Cancel` |
| `Database.Ledger.GetUser` | paycom_handlers.py:69-70 | found exactly when the user has a row |
| `Database.Ledger.GetTransactionByPaycomId` | paycom_handlers.py:18-19 | the stored row under the gateway id, or none |
| `Database.Ledger.CreateTransaction` | utils/paycom_integration.py:63-68 | inserts as `Tables.Insert` and returns the new internal id; a used gateway id inserts nothing |
| `Database.Ledger.UpdateTransactionStatus` | paycom_handlers.py:225-231 | updates as `Tables.UpdateStatus` |
| `Database.Ledger.AddPurchasedUses` | paycom_handlers.py:190 | updates as `Tables.AddPurchasedUses` |
| `Database.Ledger.GetFreeUsesLeft` | utils/usage_utils.py:7 | the user's free uses |
| `Database.Ledger.GetPurchasedUses` | utils/usage_utils.py:8 | the user's purchased uses |
| `Database.Ledger.DecrementFreeUses` | utils/usage_utils.py:11 | lowers the user's free uses by one and nothing else |
| `Database.Ledger.DecrementPurchasedUses` | utils/usage_utils.py:14 | lowers the user's purchased uses by one and nothing else |
| `Usage.SpendUse` | utils/usage_utils.py:7-16 | granted exactly when some use is left; on a grant free + purchased drops by one, otherwise nothing changes; a free use is taken before a purchased one; non-negative counters stay non-negative |
| `Usage.CheckAndDecrementUses` | utils/usage_utils.py:5-16 | the account and the answer are those of `Usage.SpendUse`; no other account or table changes |
| `Usage.SpendManyDrainsFreeFirst` | utils/usage_utils.py:10-16 | from non-negative counters, n spends grant min(n, free + purchased) uses, drain free uses first, and neither counter goes negative |
| `Gateway.OpenInvoice` | utils/paycom_integration.py:35-74 | a gateway error raises its code and message, a transport failure raises -1, a raising store call raises `StoreFailure`, and an id already stored raises `DuplicateTransaction`; none of these records anything; otherwise exactly one pending row keyed by the invoice id, priced by `calculate_uses`, and the id and payment link are returned |
| `Gateway.SyncInvoice` | utils/paycom_integration.py:88-132 | the whole new row: remote 2 gives paid with perform time, -1 cancelled and -2 failed with cancel time, every other column kept; other rows, nextId and unknown ids untouched; other states make no store call and change nothing; a raising store call raises `StoreFailure` and all errors change nothing; no account changes; otherwise the result is returned unchanged; transport failures raise -1 |
| `Gateway.SyncTransaction` | utils/paycom_integration.py:134-167 | the row becomes paid with the remote perform time, every other column and row kept, exactly when the remote state (0 when absent) is 2 and the store call does not raise; a raising store call raises `StoreFailure` and records nothing; an unknown id and nextId are untouched; no account changes; otherwise the result is returned unchanged; transport failures raise -1 |
| `Gateway.PolledPaymentIsNeverCredited` | utils/paycom_integration.py:108-114 | a poll that reports state 2 before the PerformTransaction callback leaves the row paid and every account uncredited |
| `Gateway.PolledTransactionIsNeverCredited` | utils/paycom_integration.py:154-161 | a transaction check that reports state 2 before the PerformTransaction callback leaves the row paid and every account uncredited |
| `Gateway.CallbackRecognisesOpenedInvoice` | utils/paycom_integration.py:62-68 | after an invoice is opened, a CreateTransaction callback for its id answers with the recorded row, adds nothing, and the row keeps the `calculate_uses` price |
| `Gateway.CreateInvoice` | utils/paycom_integration.py:35-74 | ledger state and outcome are those of `Gateway.OpenInvoice` |
| `Gateway.CheckInvoice` | utils/paycom_integration.py:88-132 | ledger state and outcome are those of `Gateway.SyncInvoice` |
| `Gateway.CheckTransaction` | utils/paycom_integration.py:134-167 | ledger state and outcome are those of `Gateway.SyncTransaction` |

## Findings

| source | as written | input that shows it | evidently intended | confidence | as-written member | corrected member |
|---|---|---|---|---|---|---|
| paycom_handlers.py:181-190 | the status write (`update_transaction_status`) and the credit (`add_purchased_uses`) are two separate store calls | `add_purchased_uses` raises after the row was marked paid; the gateway retries `PerformTransaction`, which takes the already-paid branch, so the owner is never credited | the status write and the credit applied as one unit, so a retry still credits exactly once | medium (database.py does not define `update_transaction_status` or `add_purchased_uses`; every helper that writes commits on its own connection (database.py:36-58)), not executed | `Engine.PerformAsWritten`, `EngineLaws.PartialPerformLosesCredit` | `Engine.Perform`, `EngineLaws.RetriedPerformCreditsOnce` |

## Left out

- database.py does not define the helpers the payment code imports (`create_transaction`, `get_transaction_by_paycom_id`, `update_transaction_status`, `add_purchased_uses`, the use-counter helpers) nor the `TransactionState` enum. Their effects are assumed as follows:
  - an update of an unknown id changes nothing;
  - keyword arguments that are left out leave their columns as they were;
  - `add_purchased_uses` on an unknown user changes nothing;
  - a second row for a used gateway id is refused by the table's uniqueness;
  - a row from `create_invoice` gets create time 0 and the pending state.
- Transport: HTTP, Flask, JSON parsing, the JSON-RPC envelope and dispatch, and logging. Handlers take the request's already-parsed fields, and the client takes the gateway's parsed reply.
- `verify_paycom_auth`: Base64 and UTF-8 decoding arrive as a function parameter. A missing header is modelled as the empty string.
- Wall-clock time: `time.time()` becomes the `now` parameter.
- Keyword arguments passed explicitly are taken as written even when they are `None` or 0: `reason=reason` (paycom_handlers.py:230) is modelled as setting the reason, possibly to null, and `perform_time=0`/`cancel_time=0` (lines 186, 228) as setting 0. A helper that skipped `None` or falsy arguments would keep those columns instead; `update_transaction_status` is not defined in database.py.
- Malformed gateway replies: a `result` without `invoice_id` or `payment_url` (utils/paycom_integration.py:65, 70), or an invoice check reply without `state` (line 109), raises KeyError in the client. The model's `Invoice` and `InvoiceStatus` always carry those fields, so those paths are not modelled.
- Parameter types: `id`, `time` and `reason` are taken as present and well-typed. A float `amount` is not modelled.
- Exception messages: the text of `str(e)` is an input and is not derived.
- `Pricing.CalculateUses`: integer arithmetic in tiyin. Float rounding of `amount / 100` for amounts beyond 2^53 tiyin is not modelled.
- `Usage.CheckAndDecrementUses`: requires the user's account to exist, because the counter helpers are not defined in database.py, so their behaviour for an unknown user is unknown.
- `_generate_auth_header` calls `bytes.b64encode`, which does not exist (utils/paycom_integration.py:29), so as written `create_invoice`, `check_invoice` and `check_transaction` raise AttributeError (lines 37, 90, 136) before any gateway call or store effect. The model assumes a working header; the request payloads and `return_url` only build the outbound HTTP call and are not modelled.
- `Gateway.SyncTransaction`: `perform_time` is taken from the reply with `.get` (utils/paycom_integration.py:160) and is None when absent; the model's remote perform time is always an integer.
- Concurrency: each handler is one sequential, atomic method. Two handlers for the same id cannot interleave.
- Telegram UI, the Click integration, the LLM call and web_server.py are not part of this model.
