/**
 * The in-app-purchase service: a class whose fields are the purchased product ids, the
 * UserDefaults flags it reads and writes, the single product-information request slot
 * and the log of calls it makes into StoreKit, NotificationCenter and the network.
 * StoreKit's callbacks are method calls on it, delivered one at a time.
 */
module Service {
  import opened Wrappers
  import opened Platform
  import opened PurchaseSpec

  /** The loop of the initializer: the product ids whose persisted flag is true. */
  method LoadPurchased(productIds: set<ProductIdentifier>, defaults: map<ProductIdentifier, bool>)
    returns (purchased: set<ProductIdentifier>)
    ensures forall id :: id in purchased <==> id in productIds && StoredFlag(defaults, id)
  {
    purchased := {};
    var pending := productIds;
    while pending != {}
      invariant pending <= productIds
      invariant forall id :: id in purchased <==> id in productIds - pending && StoredFlag(defaults, id)
      decreases pending
    {
      var productIdentifier :| productIdentifier in pending;
      if StoredFlag(defaults, productIdentifier) {
        purchased := purchased + {productIdentifier};
      }
      pending := pending - {productIdentifier};
    }
  }

  class IAPService {
    const productIdentifiers: set<ProductIdentifier>
    var purchasedProductIdentifiers: set<ProductIdentifier>
    /** UserDefaults.standard, as far as this service reads and writes it. */
    var defaults: map<ProductIdentifier, bool>
    var productsRequest: Option<RequestId>
    var productsRequestCompletionHandler: Option<HandlerId>
    /** How many product-information requests the service has created. */
    var requestsCreated: nat
    var effects: seq<Effect>

    /** The part of the state that transaction updates act on. */
    function State(): Session
      reads this
    {
      Session(purchasedProductIdentifiers, defaults, effects)
    }

    /** The request slot: the pending request, its handler and the request counter. */
    function Slot(): (Option<RequestId>, Option<HandlerId>, nat)
      reads this
    {
      (productsRequest, productsRequestCompletionHandler, requestsCreated)
    }

    /** Every purchased id is persisted as purchased; a request is pending exactly when a
     *  handler is, and the pending request is the most recently created one. */
    ghost predicate Valid()
      reads this
    {
      && FlagsCover(State())
      && (productsRequest.Some? <==> productsRequestCompletionHandler.Some?)
      && (productsRequest.Some? ==> productsRequest.value + 1 == requestsCreated)
    }

    constructor (productIds: set<ProductIdentifier>, storedFlags: map<ProductIdentifier, bool>)
      ensures Valid()
      ensures productIdentifiers == productIds
      ensures forall id :: id in purchasedProductIdentifiers <==> id in productIds && StoredFlag(storedFlags, id)
      ensures defaults == storedFlags && effects == []
      ensures Slot() == (None, None, 0)
    {
      productIdentifiers := productIds;
      var purchased := LoadPurchased(productIds, storedFlags);
      purchasedProductIdentifiers := purchased;
      defaults := storedFlags;
      productsRequest := None;
      productsRequestCompletionHandler := None;
      requestsCreated := 0;
      effects := [];
    }

    // -------------------------------------------------------------------------
    // Product-information requests

    /** Cancels the pending request, if any, and starts a new one for all the service's
     *  product ids; `handler` becomes the only pending handler. */
    method RequestProducts(handler: HandlerId)
      requires Valid()
      modifies this
      ensures Valid()
      ensures productsRequest == Some(old(requestsCreated)) && requestsCreated == old(requestsCreated) + 1
      ensures productsRequestCompletionHandler == Some(handler)
      ensures effects == old(effects)
        + (if old(productsRequest).Some? then [RequestCancelled(old(productsRequest).value)] else [])
        + [RequestStarted(old(requestsCreated), productIdentifiers)]
      ensures purchasedProductIdentifiers == old(purchasedProductIdentifiers) && defaults == old(defaults)
    {
      if productsRequest.Some? {
        effects := effects + [RequestCancelled(productsRequest.value)];
      }
      productsRequestCompletionHandler := Some(handler);
      productsRequest := Some(requestsCreated);
      requestsCreated := requestsCreated + 1;
      effects := effects + [RequestStarted(productsRequest.value, productIdentifiers)];
    }

    /** A successful response calls the pending handler, if any, once with
     *  `(true, products)` and empties the slot. */
    method ProductsRequestDidReceive(products: seq<Product>)
      requires Valid()
      modifies this
      ensures Valid()
      ensures effects == old(effects)
        + (match old(productsRequestCompletionHandler)
           case None => []
           case Some(h) => [HandlerCalled(h, true, Some(products))])
      ensures Slot() == (None, None, old(requestsCreated))
      ensures purchasedProductIdentifiers == old(purchasedProductIdentifiers) && defaults == old(defaults)
    {
      if productsRequestCompletionHandler.Some? {
        effects := effects + [HandlerCalled(productsRequestCompletionHandler.value, true, Some(products))];
      }
      ClearRequestAndHandler();
    }

    /** A failed request calls the pending handler, if any, once with `(false, nil)` and
     *  empties the slot. */
    method RequestDidFailWithError()
      requires Valid()
      modifies this
      ensures Valid()
      ensures effects == old(effects)
        + (match old(productsRequestCompletionHandler)
           case None => []
           case Some(h) => [HandlerCalled(h, false, None)])
      ensures Slot() == (None, None, old(requestsCreated))
      ensures purchasedProductIdentifiers == old(purchasedProductIdentifiers) && defaults == old(defaults)
    {
      if productsRequestCompletionHandler.Some? {
        effects := effects + [HandlerCalled(productsRequestCompletionHandler.value, false, None)];
      }
      ClearRequestAndHandler();
    }

    method ClearRequestAndHandler()
      requires Valid()
      modifies this`productsRequest, this`productsRequestCompletionHandler
      ensures Valid()
      ensures productsRequest == None && productsRequestCompletionHandler == None
    {
      productsRequest := None;
      productsRequestCompletionHandler := None;
    }

    // -------------------------------------------------------------------------
    // Transaction updates

    /** Handles a batch of transaction updates in order, as `StepAll` says; the request
     *  slot is not touched. */
    method PaymentQueueUpdatedTransactions(transactions: seq<Transaction>)
      requires Valid()
      modifies this
      ensures Valid()
      ensures State() == StepAll(old(State()), transactions)
      ensures Slot() == old(Slot())
    {
      for i := 0 to |transactions|
        invariant Valid()
        invariant State() == StepAll(old(State()), transactions[..i])
        invariant Slot() == old(Slot())
      {
        var transaction := transactions[i];
        assert transactions[..i + 1][..i] == transactions[..i];
        match transaction.state
        case Purchased => Complete(transaction);
        case Failed => Fail(transaction);
        case Restored => Restore(transaction);
        case Deferred =>
        case Purchasing =>
        case Unknown =>
      }
      assert transactions[..|transactions|] == transactions;
    }

    /** A purchased transaction: deliver its payment's product id, finish it, then ask
     *  for the receipt to be validated. */
    method Complete(transaction: Transaction)
      requires Valid() && transaction.state == Purchased
      modifies this
      ensures Valid()
      ensures State() == Step(old(State()), transaction)
      ensures Slot() == old(Slot())
    {
      DeliverPurchaseNotificationFor(Some(transaction.productIdentifier));
      effects := effects + [Finished(transaction)];
      effects := effects + [ReceiptValidationRequested];
    }

    /** A restored transaction: nothing without an original transaction; otherwise deliver
     *  the original's product id and finish it. */
    method Restore(transaction: Transaction)
      requires Valid() && transaction.state == Restored
      modifies this
      ensures Valid()
      ensures State() == Step(old(State()), transaction)
      ensures Slot() == old(Slot())
    {
      if transaction.originalProductIdentifier.None? {
        return;
      }
      var productIdentifier := transaction.originalProductIdentifier.value;
      DeliverPurchaseNotificationFor(Some(productIdentifier));
      effects := effects + [Finished(transaction)];
    }

    /** A failed transaction: log its error unless it is the user cancelling (or not a
     *  StoreKit error), then finish it. */
    method Fail(transaction: Transaction)
      requires Valid() && transaction.state == Failed
      modifies this
      ensures Valid()
      ensures State() == Step(old(State()), transaction)
      ensures Slot() == old(Slot())
    {
      if LogsError(transaction.error) {
        effects := effects + [ErrorLogged(transaction)];
      }
      effects := effects + [Finished(transaction)];
    }

    /** Records a delivered purchase: nothing for a nil id; otherwise the id is added to
     *  the purchased set, its flag is persisted as true and one notification is posted. */
    method DeliverPurchaseNotificationFor(identifier: Option<ProductIdentifier>)
      requires Valid()
      modifies this
      ensures Valid()
      ensures identifier.None? ==> State() == old(State())
      ensures identifier.Some? ==>
        && purchasedProductIdentifiers == old(purchasedProductIdentifiers) + {identifier.value}
        && defaults == old(defaults)[identifier.value := true]
        && effects == old(effects) + [Posted(PurchaseNotification, identifier.value)]
      ensures Slot() == old(Slot())
    {
      if identifier.None? {
        return;
      }
      var id := identifier.value;
      purchasedProductIdentifiers := purchasedProductIdentifiers + {id};
      defaults := defaults[id := true];
      effects := effects + [Posted(PurchaseNotification, id)];
    }
  }

  /** Two product requests in a row, then a success and a late failure callback: the
   *  first request is cancelled, only the second handler is called, and only once. */
  method RequestTwiceThenRespond(productIds: set<ProductIdentifier>, storedFlags: map<ProductIdentifier, bool>,
                                 first: HandlerId, second: HandlerId, products: seq<Product>)
    returns (log: seq<Effect>)
    ensures log == [RequestStarted(0, productIds), RequestCancelled(0),
                    RequestStarted(1, productIds), HandlerCalled(second, true, Some(products))]
  {
    var service := new IAPService(productIds, storedFlags);
    service.RequestProducts(first);
    service.RequestProducts(second);
    service.ProductsRequestDidReceive(products);
    service.RequestDidFailWithError();
    log := service.effects;
  }
}
