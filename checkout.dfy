/**
 * The checkout page: it shows the cart, offers the place-order button only
 * for a non-empty cart, and submits the whole cart as one order request.
 */
module Checkout {
  import opened Wrappers
  import opened Auth
  import opened Cart

  /** How the order request ended: a response with its `ok` flag and `message`, or a thrown error. */
  datatype FetchResult = Responded(ok: bool, message: string) | Threw

  const DefaultError: string := "Failed to place order"

  /** The error a failed attempt shows: the server's message, else the default. */
  function FailureText(result: FetchResult): (text: string)
    requires !(result.Responded? && result.ok)
    ensures text != ""
    ensures result.Responded? && result.message != "" ==> text == result.message
    ensures result.Threw? || result.message == "" ==> text == DefaultError
  {
    if result.Responded? && result.message != "" then result.message else DefaultError
  }

  class CheckoutPage {
    const store: CartProvider
    var loading: bool
    var error: string
    var success: bool

    constructor (store: CartProvider)
      ensures this.store == store
      ensures !loading && error == "" && !success
    {
      this.store := store;
      loading, error, success := false, "", false;
    }

    /** The place-order button is rendered only for a non-empty cart. */
    predicate ShowsPlaceOrder()
      reads this, store
    {
      store.cart != []
    }

    /** The button is disabled while a request is in flight. */
    predicate PlaceOrderDisabled()
      reads this
    {
      loading
    }

    /** The synchronous start of `handlePlaceOrder`: reset, mark loading, send the whole cart. */
    method StartPlaceOrder() returns (body: seq<CartItem>)
      modifies this`loading, this`error, this`success
      ensures loading && error == "" && !success
      ensures body == store.cart
    {
      loading := true;
      error := "";
      success := false;
      body := store.cart;
    }

    /** The rest of `handlePlaceOrder`, once the request has ended. */
    method FinishPlaceOrder(result: FetchResult)
      modifies this`loading, this`error, this`success, store`cart, store`storage
      ensures !loading
      ensures result.Responded? && result.ok ==>
        && success && error == old(error) && store.cart == []
        && (SignedInEmail(store.session).None? ==> store.storage == old(store.storage))
        && (SignedInEmail(store.session).Some? ==>
              store.storage == old(store.storage)[SlotKey(SignedInEmail(store.session).value) := []])
      ensures !(result.Responded? && result.ok) ==>
        && success == old(success) && error == FailureText(result)
        && store.cart == old(store.cart) && store.storage == old(store.storage)
      ensures old(store.Consistent()) ==> store.Consistent()
    {
      match result {
        case Threw =>
          error := DefaultError;
        case Responded(ok, _) =>
          if !ok {
            error := FailureText(result);
          } else {
            success := true;
            store.ClearCart();
          }
      }
      loading := false;
    }

    /** One whole attempt: the cart is cleared only when the order was placed. */
    method PlaceOrder(result: FetchResult) returns (body: seq<CartItem>)
      modifies this`loading, this`error, this`success, store`cart, store`storage
      ensures body == old(store.cart)
      ensures !loading
      ensures result.Responded? && result.ok ==>
        && success && error == "" && store.cart == []
        && store.storage == Persisted(store.session, old(store.storage), [])
      ensures !(result.Responded? && result.ok) ==>
        && !success && error == FailureText(result)
        && store.cart == old(store.cart) && store.storage == old(store.storage)
      ensures old(store.Consistent()) ==> store.Consistent()
    {
      body := StartPlaceOrder();
      FinishPlaceOrder(result);
    }

    /**
     * A click on the place-order button. With an empty cart there is no
     * button, and while loading it is disabled: no request is sent and
     * nothing changes.
     */
    method ClickPlaceOrder(result: FetchResult) returns (sent: Option<seq<CartItem>>)
      modifies this`loading, this`error, this`success, store`cart, store`storage
      ensures sent.None? <==> !old(ShowsPlaceOrder()) || old(PlaceOrderDisabled())
      ensures sent.None? ==>
        && loading == old(loading) && error == old(error) && success == old(success)
        && store.cart == old(store.cart) && store.storage == old(store.storage)
      ensures sent.Some? ==> sent.value == old(store.cart) && sent.value != [] && !loading
      ensures sent.Some? && result.Responded? && result.ok ==>
        && success && error == "" && store.cart == []
        && store.storage == Persisted(store.session, old(store.storage), [])
      ensures sent.Some? && !(result.Responded? && result.ok) ==>
        && !success && error == FailureText(result)
        && store.cart == old(store.cart) && store.storage == old(store.storage)
      ensures old(store.Consistent()) ==> store.Consistent()
    {
      if !ShowsPlaceOrder() || PlaceOrderDisabled() {
        sent := None;
      } else {
        var body := PlaceOrder(result);
        sent := Some(body);
      }
    }
  }
}
