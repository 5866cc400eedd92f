# IAPService, modelled in Dafny

`IAPService` is a thin adapter between an app and StoreKit. It keeps the set of product
ids the user has bought, mirrored as one boolean flag per id in UserDefaults; it holds at
most one product-information request and its completion handler; and it reacts to
StoreKit's transaction updates. Purchased and restored transactions record the product id,
persist its flag, post an `IAPHelperPurchaseNotification` and are finished. Failed
transactions are logged unless the user cancelled, and are finished. Every other
transaction is ignored.

The model keeps this bookkeeping and treats each collaborator as an entry in one ordered
effect log. The collaborators are StoreKit, UserDefaults, NotificationCenter and the
receipt endpoint.

- `wrappers.dfy`: `Option`, which stands for Swift's optionals.
- `platform.dfy`: transactions, their states and errors, products, and the `Effect` log
  entries. Also the notification name and UserDefaults' `bool(forKey:)`, which reads a
  missing key as `false`.
- `purchase_spec.dfy`: the reference definition on plain values. `Step` gives the effect of
  one transaction update on a `Session` (purchased set, flags, log); `StepAll` gives a batch.
  It also holds the lemmas that say what these promise, per state and per batch.
- `iap_service.dfy`: the class `IAPService`. Its fields are the ones the Swift class
  updates, plus the flag store, a request counter and the effect log. Each transaction
  method is proved equal to `Step`, and the batch loop is proved equal to `StepAll`.
  `Valid()` is kept by every method. It says that every purchased id has its flag set,
  that a request is pending exactly when a handler is, and that the pending request is
  the newest one.

Where the code's behaviour may be unexpected, the model follows the code:

- A failed transaction's error is logged only when it is a StoreKit error other than
  "payment cancelled". An error of another type is not logged, because the source's
  `as? SKError` cast fails for it.
- Not every `requestProducts` call gets exactly one handler call. A call whose request is
  cancelled by a later call never has its handler invoked: only the newest handler is kept.
- The response callbacks ignore which request they answer. Whatever handler is pending
  is invoked, and afterwards the slot is empty, so a later callback invokes nothing.
- Purchased ids are not restricted to `productIdentifiers`. Any delivered id is inserted,
  and the model claims no such inclusion.

## Model

| member | source | states |
|---|---|---|
| `Service.LoadPurchased` | IAP_Example/Service/IAPService.swift:27-35 | the result holds exactly those ids of `productIds` whose stored flag is true (a missing key reads as false) |
| `Service.IAPService.constructor` | IAP_Example/Service/IAPService.swift:23-39 | `productIdentifiers` is fixed to `productIds`; the purchased set is exactly the ids whose flag is true; no request is pending; nothing has been logged |
| `Service.IAPService.RequestProducts` | IAP_Example/Service/IAPService.swift:46-53 | the pending request, if any, is cancelled before a new request for all product ids is started; the new request and the given handler are then the only pending ones |
| `Service.IAPService.ProductsRequestDidReceive` | IAP_Example/Service/IAPService.swift:76-81 | the pending handler, if any, is called exactly once with `(true, products)`; the request slot is then empty; purchases and flags are untouched |
| `Service.IAPService.RequestDidFailWithError` | IAP_Example/Service/IAPService.swift:92-97 | the pending handler, if any, is called exactly once with `(false, nil)`; the request slot is then empty |
| `Service.IAPService.ClearRequestAndHandler` | IAP_Example/Service/IAPService.swift:103-106 | both the request and the handler are cleared, and nothing else changes |
| `Service.RequestTwiceThenRespond` | IAP_Example/Service/IAPService.swift:46-106 | when requests are made twice and then both a success and a failure callback arrive, the first request is cancelled, only the second handler is called, and it is called only once |
| `Service.IAPService.PaymentQueueUpdatedTransactions` | IAP_Example/Service/IAPService.swift:112-138 | the batch is handled in order: the new purchased set, flags and log are `StepAll` of the old ones; the request slot is untouched |
| `Service.IAPService.Complete` | IAP_Example/Service/IAPService.swift:147-152 | a purchased transaction delivers its payment's id, then is finished, then receipt validation is requested (equal to `Step`) |
| `Service.IAPService.Restore` | IAP_Example/Service/IAPService.swift:198-203 | a restored transaction delivers its original's id and is finished, or does nothing without an original (equal to `Step`) |
| `Service.IAPService.Fail` | IAP_Example/Service/IAPService.swift:206-213 | a failed transaction is logged only for a non-cancel StoreKit error, and is always finished (equal to `Step`) |
| `Service.IAPService.DeliverPurchaseNotificationFor` | IAP_Example/Service/IAPService.swift:215-220 | a nil id changes nothing; otherwise the id is inserted, its flag is set to true and one notification carrying it is posted |
| `PurchaseSpec.Step` | IAP_Example/Service/IAPService.swift:116-136 | one transaction never removes a purchased id; it keeps "every purchased id is flagged"; it only appends to the log; a transaction that is not finished leaves everything unchanged |
| `PurchaseSpec.EffectsViews` | IAP_Example/Service/IAPService.swift:116-136 | one transaction posts a notification exactly for the id it delivers, finishes itself exactly when it is finishable, and logs an error only when it failed with a loggable error |
| `PurchaseSpec.StepViews` | IAP_Example/Service/IAPService.swift:116-136 | the notifications, finishes and error logs of the session each grow by exactly that transaction's share |
| `PurchaseSpec.PurchasedDelivers` | IAP_Example/Service/IAPService.swift:147-151 | a purchased transaction inserts its payment id and sets that id's flag; it posts one notification for that id, then finishes the transaction once, then requests receipt validation |
| `PurchaseSpec.RestoredDeliversOriginal` | IAP_Example/Service/IAPService.swift:198-203 | without an original, a restore changes nothing at all; with one, it records the original's id (not the payment's), sets its flag, posts once and finishes once |
| `PurchaseSpec.FailedOnlyFinishes` | IAP_Example/Service/IAPService.swift:206-213 | a failure leaves purchases and flags unchanged and posts nothing; it finishes the transaction once whatever the error; it logs exactly when the error is a non-cancel StoreKit error |
| `PurchaseSpec.BatchRecords` | IAP_Example/Service/IAPService.swift:114-137 | a batch adds exactly the ids it delivers, so the set only grows; those ids are flagged and every other flag is untouched |
| `PurchaseSpec.BatchEffects` | IAP_Example/Service/IAPService.swift:114-137 | a batch posts one notification per delivered id, finishes exactly its finishable transactions and logs exactly its failures with a non-cancel StoreKit error, all in batch order |
| `PurchaseSpec.BatchKeepsFlags` | IAP_Example/Service/IAPService.swift:215-218 | after any batch, every purchased id still has its persisted flag set |
| `PurchaseSpec.FinishedInCounts` | IAP_Example/Service/IAPService.swift:114-137 | the finish count is exact: a purchased, failed or restored-with-original transaction is finished once per occurrence in the batch, and any other transaction never |

## Left out

- `validateReceipt` (reading the receipt file, base64, JSON and the HTTP POST) is network and file I/O. It appears only as one `ReceiptValidationRequested` entry after the finish in `Complete`. Its early return when there is no receipt is not modelled.
- `SKProduct.regularPrice` is currency formatting done by the platform's number formatter.
- `buyProduct`, `restorePurchases` and `canMakePayments` are each one call into StoreKit and keep no local state.
- What StoreKit does on `start`, `cancel`, `finishTransaction`, adding a payment or restoring: these appear only as log entries.
- Registering and removing the payment-queue observer in `init` and `deinit`, `requestDidFinish` and `restoreCompletedTransactionsFailedWithError` only log or manage lifetimes.
- Console output: only the error line of a failed transaction is logged, and as an event without its text.
- The request and error arguments of the delegate callbacks are not parameters. The code never reads them beyond the printed error text.
- Asynchronous delivery is not modelled. StoreKit's callbacks and `DispatchQueue.main.async` are sequential method calls.
- UserDefaults is global in the app. Here it is a map inside the service, so writes by other code are not modelled.
- Request objects are not modelled as objects. The service numbers the requests it creates instead, to tell them apart.
- Completion handlers and notification observers are modelled as not calling back into the service: a handler call and a posted notification are inert log entries. In the source both run synchronously. The handler runs before the slot is cleared, so a request made from inside a handler (a retry, say) would be cleared on return and its handler never called. An observer that requests products during a batch would change the request slot, which `PaymentQueueUpdatedTransactions` promises stays as it was.
- Transactions are compared by value and carry no transaction identifier. Two distinct StoreKit transactions with equal fields are the same value here, so finish counts are per occurrence in a batch, not per transaction object.
