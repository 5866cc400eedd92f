/**
 * The vocabulary of the collaborators the purchase service talks to: StoreKit's
 * transactions and products, the UserDefaults flag store, NotificationCenter and the
 * receipt-validation endpoint. None of their behaviour is modelled; every call the
 * service makes into them is an `Effect` appended to one ordered log.
 */
module Platform {
  import opened Wrappers

  type ProductIdentifier = string

  /** The states StoreKit reports for a payment transaction (`@unknown default` is `Unknown`). */
  datatype TransactionState = Purchasing | Purchased | Failed | Restored | Deferred | Unknown

  /** The error carried by a failed transaction: a StoreKit error, which may be the
   *  user cancelling the payment, or an error of any other kind. */
  datatype TransactionError = StoreKitError(cancelled: bool) | OtherError

  /** A payment transaction as the service sees it: its state, the product id of its
   *  payment, the product id of its original transaction (present for restores) and its error. */
  datatype Transaction = Transaction(
    state: TransactionState,
    productIdentifier: ProductIdentifier,
    originalProductIdentifier: Option<ProductIdentifier>,
    error: Option<TransactionError>)

  /** A product returned by a product-information request. */
  datatype Product = Product(productIdentifier: ProductIdentifier)

  /** Product-information requests are numbered in the order the service creates them. */
  type RequestId = nat

  /** The completion handler a caller hands to `requestProducts`, identified by a token. */
  type HandlerId = nat

  /** The name of the notification posted for every delivered purchase. */
  const PurchaseNotification: string := "IAPHelperPurchaseNotification"

  /** What the service does to its collaborators, in the order it does it. */
  datatype Effect =
    | RequestStarted(request: RequestId, identifiers: set<ProductIdentifier>)
    | RequestCancelled(request: RequestId)
    | HandlerCalled(handler: HandlerId, success: bool, products: Option<seq<Product>>)
    | Posted(name: string, identifier: ProductIdentifier)
    | Finished(transaction: Transaction)
    | ReceiptValidationRequested
    | ErrorLogged(transaction: Transaction)

  /** The boolean UserDefaults returns for a key: false when the key was never written. */
  predicate StoredFlag(defaults: map<ProductIdentifier, bool>, key: ProductIdentifier)
  {
    key in defaults && defaults[key]
  }

  /** Whether a failed transaction's error is written to the log: only a StoreKit error
   *  other than the user cancelling the payment is. */
  predicate LogsError(error: Option<TransactionError>)
  {
    error.Some? && error.value.StoreKitError? && !error.value.cancelled
  }
}
