/** The checkout page of `src/pages/Checkout.tsx`: the shipping-address form, the
    order placement for the two payment methods, and which screen is shown. */
module CheckoutPage {
  import opened Common
  import opened Api
  import opened LocalStorage
  import opened Forms
  import opened Ui
  import opened CartContext
  import Pricing
  import CartPage

  const DETAILS_MESSAGE := "Address details are required"
  const PHONE_MESSAGE := "Please enter a valid phone number"
  const CITY_MESSAGE := "City is required"
  const CART_NOT_FOUND := "Cart not found"
  const ORDER_FAILED := "Failed to create order"

  // ---------------------------------------------------------------------------
  // The order summary

  datatype OrderTotals = OrderTotals(subtotal: int, shipping: int, total: int)

  /** `getSubtotal()`, then the shared shipping rule and `subtotal + shipping`. */
  function CheckoutTotals(lines: seq<CartLine>): OrderTotals {
    var subtotal := SubtotalOf(lines);
    OrderTotals(subtotal, Pricing.Shipping(subtotal), subtotal + Pricing.Shipping(subtotal))
  }

  /** The checkout charges what the cart page showed for the same lines: the same
      subtotal, the same shipping and the same total, the one `Pricing.Total`. */
  lemma CheckoutChargesCartTotal(lines: seq<CartLine>)
    ensures CheckoutTotals(lines).subtotal == CartPage.CartSummary(lines).subtotal == SubtotalOf(lines)
    ensures CheckoutTotals(lines).shipping == CartPage.CartSummary(lines).shipping
    ensures CheckoutTotals(lines).total == CartPage.CartSummary(lines).total == Pricing.Total(SubtotalOf(lines))
  {
  }

  // ---------------------------------------------------------------------------
  // The form

  /** `checkoutSchema`, field by field in schema order. */
  function CheckoutIssues(a: ShippingAddress): seq<Issue> {
    MinLength("details", a.details, 5, DETAILS_MESSAGE)
    + MinLength("phone", a.phone, 10, PHONE_MESSAGE)
    + MinLength("city", a.city, 2, CITY_MESSAGE)
  }

  /** The address is accepted exactly when every field is long enough, and each
      field's message appears exactly when that field is too short. */
  lemma CheckoutAcceptedIff(a: ShippingAddress)
    ensures CheckoutIssues(a) == [] <==> |a.details| >= 5 && |a.phone| >= 10 && |a.city| >= 2
    ensures FieldMessage(CheckoutIssues(a), "details") == (if |a.details| < 5 then Some(DETAILS_MESSAGE) else None)
    ensures FieldMessage(CheckoutIssues(a), "phone") == (if |a.phone| < 10 then Some(PHONE_MESSAGE) else None)
    ensures FieldMessage(CheckoutIssues(a), "city") == (if |a.city| < 2 then Some(CITY_MESSAGE) else None)
  {
    var issues := CheckoutIssues(a);
    assert forall i :: 0 <= i < |issues| ==> issues[i].path in {"details", "phone", "city"};
    if |a.details| < 5 {
      assert issues[0] == Issue("details", DETAILS_MESSAGE);
    }
    if |a.phone| < 10 {
      var k := if |a.details| < 5 then 1 else 0;
      assert issues[k] == Issue("phone", PHONE_MESSAGE);
      assert issues[..k] == MinLength("details", a.details, 5, DETAILS_MESSAGE);
    }
    if |a.city| < 2 {
      var k := |issues| - 1;
      assert issues[k] == Issue("city", CITY_MESSAGE);
    }
  }

  // ---------------------------------------------------------------------------
  // Screens

  datatype CheckoutView = SignInPrompt | EmptyCart | Confirmation | OrderForm

  /** The first matching screen: sign-in, then the empty cart (unless an order was
      just placed), then the confirmation, then the form. */
  function CheckoutScreen(signedIn: bool, lineCount: nat, orderComplete: bool): (v: CheckoutView)
    ensures v == SignInPrompt <==> !signedIn
    ensures v == EmptyCart <==> signedIn && lineCount == 0 && !orderComplete
    ensures v == Confirmation <==> signedIn && orderComplete
    ensures v == OrderForm <==> signedIn && lineCount > 0 && !orderComplete
  {
    if !signedIn then SignInPrompt
    else if lineCount == 0 && !orderComplete then EmptyCart
    else if orderComplete then Confirmation
    else OrderForm
  }

  // ---------------------------------------------------------------------------
  // Placing the order

  datatype PaymentMethod = Online | Cash

  /** The `data` of a cash order answer: the new order's `_id`. */
  datatype OrderBody = OrderBody(id: string)

  /** `session` of a checkout-session answer: where the payment provider waits. */
  datatype SessionBody = SessionBody(url: string)

  class CheckoutPage {
    const cart: CartStore
    var paymentMethod: PaymentMethod
    var isLoading: bool
    var orderComplete: bool
    var orderId: string
    /** The toasts shown so far, oldest first. */
    var toasts: seq<Toast>
    /** What `window.location.href` was set to, if anything. */
    var location: Option<string>

    constructor (cart: CartStore)
      ensures this.cart == cart
      ensures paymentMethod == Online && !isLoading && !orderComplete && orderId == ""
      ensures toasts == [] && location == None
    {
      this.cart := cart;
      paymentMethod := Online;
      isLoading := false;
      orderComplete := false;
      orderId := "";
      toasts := [];
      location := None;
    }

    method SelectPaymentMethod(m: PaymentMethod)
      modifies this
      ensures paymentMethod == m
      ensures isLoading == old(isLoading) && orderComplete == old(orderComplete) && orderId == old(orderId)
      ensures toasts == old(toasts) && location == old(location)
    {
      paymentMethod := m;
    }

    /** `onSubmit`, which the form runs only with an accepted address. Without a
        truthy cart id it only reports that. A cash order is placed, then the cart is
        cleared, and only then is the order recorded as complete; an online order
        sends the browser to the payment session instead. A failure of any of these
        calls is reported with its message or the fallback. `encodedOrigin` is
        `encodeURIComponent(window.location.origin)`. */
    method Submit(form: ShippingAddress, orderResp: Response<OrderBody>, clearResp: Response<()>,
                  sessionResp: Response<SessionBody>, encodedOrigin: string)
      returns (sent: seq<Request>)
      requires CheckoutIssues(form) == []
      modifies this, cart
      ensures paymentMethod == old(paymentMethod)
      ensures !Truthy(old(cart.cartId)) ==>
                sent == [] && toasts == old(toasts) + [ErrorToast(CART_NOT_FOUND)]
                && isLoading == old(isLoading) && orderComplete == old(orderComplete) && orderId == old(orderId)
                && location == old(location) && cart.items == old(cart.items) && cart.cartId == old(cart.cartId)
                && cart.isLoading == old(cart.isLoading)
      ensures Truthy(old(cart.cartId)) ==> !isLoading
      // only a cash order that was placed and followed by a cleared cart completes
      ensures orderComplete && !old(orderComplete) ==>
                old(paymentMethod) == Cash && orderResp.Ok? && (clearResp.Ok? || !IsAuthenticated(cart.store.entries))
      ensures Truthy(old(cart.cartId)) && old(paymentMethod) == Cash ==>
                location == old(location)
                && (orderResp.Err? ==>
                      sent == [CashOrderRequest(old(cart.cartId).value, form)]
                      && toasts == old(toasts) + [ErrorToast(MessageOr(orderResp.thrown, ORDER_FAILED))]
                      && orderComplete == old(orderComplete) && orderId == old(orderId)
                      && cart.items == old(cart.items) && cart.cartId == old(cart.cartId)
                      && cart.isLoading == old(cart.isLoading))
                && (orderResp.Ok? && !IsAuthenticated(cart.store.entries) ==>
                      cart.items == old(cart.items) && cart.cartId == old(cart.cartId)
                      && cart.isLoading == old(cart.isLoading))
                && (orderResp.Ok? && IsAuthenticated(cart.store.entries) ==> !cart.isLoading)
                && (orderResp.Ok? ==>
                      sent == [CashOrderRequest(old(cart.cartId).value, form)]
                              + (if IsAuthenticated(cart.store.entries) then [CartClearRequest] else []))
                && (orderResp.Ok? && (clearResp.Ok? || !IsAuthenticated(cart.store.entries)) ==>
                      orderComplete && orderId == orderResp.body.id && toasts == old(toasts))
                && (orderResp.Ok? && IsAuthenticated(cart.store.entries) && clearResp.Ok? ==>
                      cart.items == [] && cart.cartId == None)
                && (orderResp.Ok? && IsAuthenticated(cart.store.entries) && clearResp.Err? ==>
                      toasts == old(toasts) + [ErrorToast(MessageOr(clearResp.thrown, ORDER_FAILED))]
                      && orderComplete == old(orderComplete) && orderId == old(orderId)
                      && cart.items == old(cart.items) && cart.cartId == old(cart.cartId))
      ensures Truthy(old(cart.cartId)) && old(paymentMethod) == Online ==>
                sent == [CheckoutSessionRequest(old(cart.cartId).value, form, encodedOrigin)]
                && orderComplete == old(orderComplete) && orderId == old(orderId)
                && cart.items == old(cart.items) && cart.cartId == old(cart.cartId)
                && cart.isLoading == old(cart.isLoading)
                && (sessionResp.Ok? ==> location == Some(sessionResp.body.url) && toasts == old(toasts))
                && (sessionResp.Err? ==>
                      location == old(location)
                      && toasts == old(toasts) + [ErrorToast(MessageOr(sessionResp.thrown, ORDER_FAILED))])
    {
      if !Truthy(cart.cartId) {
        toasts := toasts + [ErrorToast(CART_NOT_FOUND)];
        return [];
      }
      isLoading := true;
      var id := cart.cartId.value;
      match paymentMethod {
        case Cash =>
          sent := [CashOrderRequest(id, form)];
          match orderResp {
            case Ok(order) =>
              var done, clearSent := cart.ClearCart(clearResp);
              sent := sent + clearSent;
              match done {
                case Normal =>
                  orderId := order.id;
                  orderComplete := true;
                case Abrupt(t) =>
                  toasts := toasts + [ErrorToast(MessageOr(t, ORDER_FAILED))];
              }
            case Err(t) =>
              toasts := toasts + [ErrorToast(MessageOr(t, ORDER_FAILED))];
          }
        case Online =>
          sent := [CheckoutSessionRequest(id, form, encodedOrigin)];
          match sessionResp {
            case Ok(session) =>
              location := Some(session.url);
            case Err(t) =>
              toasts := toasts + [ErrorToast(MessageOr(t, ORDER_FAILED))];
          }
      }
      isLoading := false;
    }
  }
}
