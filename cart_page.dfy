/** The cart page of `src/pages/Cart.tsx`: which screen is shown, the order summary
    derived from the cart lines, and the requests the quantity buttons make. */
module CartPage {
  import opened Common
  import opened Api
  import opened LocalStorage
  import opened Pricing
  import opened CartContext

  datatype CartView = SignInPrompt | EmptyCart | CartLines

  /** Sign-in first, whatever the cart holds; then the empty state; then the lines. */
  function CartScreen(signedIn: bool, lines: seq<CartLine>): (v: CartView)
    ensures v == SignInPrompt <==> !signedIn
    ensures v == EmptyCart <==> signedIn && lines == []
    ensures v == CartLines <==> signedIn && lines != []
  {
    if !signedIn then SignInPrompt else if lines == [] then EmptyCart else CartLines
  }

  /** What the page shows about the lines: the count in the heading, each line's
      total, subtotal, shipping and total, and whether the free-shipping hint is on. */
  datatype Summary = Summary(heading: int, lineTotals: seq<int>, subtotal: int, shipping: int, total: int,
                             freeShippingHint: bool)

  function LineTotals(lines: seq<CartLine>): (ts: seq<int>)
    ensures |ts| == |lines|
    ensures forall i :: 0 <= i < |lines| ==> ts[i] == lines[i].price * lines[i].count
    decreases |lines|
  {
    if lines == [] then [] else [LineTotal(lines[0])] + LineTotals(lines[1..])
  }

  function SumInts(xs: seq<int>): int
    decreases |xs|
  {
    if xs == [] then 0 else xs[0] + SumInts(xs[1..])
  }

  function CartSummary(lines: seq<CartLine>): Summary {
    var subtotal := SubtotalOf(lines);
    Summary(ItemCountOf(lines), LineTotals(lines), subtotal, Shipping(subtotal), Total(subtotal),
            Shipping(subtotal) > 0)
  }

  /** The displayed line totals add up to the displayed subtotal. */
  lemma {:induction false} LineTotalsAddUp(lines: seq<CartLine>)
    ensures SumInts(LineTotals(lines)) == Sum(lines, LineTotal)
    decreases |lines|
  {
    if lines != [] {
      LineTotalsAddUp(lines[1..]);
    }
  }

  /** The summary: the heading is the cart's item count, the totals add up, the
      total is subtotal plus shipping, and the hint is shown exactly when the
      subtotal does not exceed 200, that is exactly when shipping is charged. */
  lemma SummaryFacts(lines: seq<CartLine>)
    ensures CartSummary(lines).heading == Sum(lines, LineCount)
    ensures SumInts(CartSummary(lines).lineTotals) == CartSummary(lines).subtotal
    ensures CartSummary(lines).total == CartSummary(lines).subtotal + CartSummary(lines).shipping
    ensures CartSummary(lines).freeShippingHint <==> CartSummary(lines).subtotal <= FREE_SHIPPING_ABOVE
    ensures CartSummary(lines).freeShippingHint <==> CartSummary(lines).total > CartSummary(lines).subtotal
  {
    LineTotalsAddUp(lines);
  }

  /** The shipping line: `Free`, or the fee with two decimals (`toFixed(2)`, which for
      a whole amount appends `.00`). */
  function ShippingLabel(shipping: int): (s: string)
    ensures s == "Free" <==> shipping == 0
    ensures shipping != 0 ==>
              |s| >= 8 && s[..4] == "EGP " && s[|s| - 3..] == ".00" && Decimal.ParseInt(s[4..|s| - 3]) == Some(shipping)
  {
    Decimal.IntToDecimalRoundTrip(shipping);
    if shipping == 0 then "Free" else "EGP " + Decimal.IntToDecimal(shipping) + ".00"
  }

  /** The minus button: one less of the line's product; at a count of one this
      removes the line. */
  method PressMinus(cart: CartStore, line: CartLine, resp: Response<CartData>)
    returns (done: Completion, sent: seq<Request>)
    modifies cart
    ensures !IsAuthenticated(cart.store.entries) ==>
              done == Normal && sent == [] && cart.items == old(cart.items) && cart.isLoading == old(cart.isLoading)
    ensures IsAuthenticated(cart.store.entries) ==> !cart.isLoading
    ensures IsAuthenticated(cart.store.entries) && resp.Ok? ==>
              done == Normal && cart.items == resp.body.products.GetOr([])
    ensures IsAuthenticated(cart.store.entries) && resp.Err? ==>
              done == Abrupt(resp.thrown) && cart.items == old(cart.items)
    ensures IsAuthenticated(cart.store.entries) ==>
              sent == [if line.count <= 1 then CartRemoveRequest(line.product.id)
                       else CartUpdateQuantityRequest(line.product.id, line.count - 1)]
    ensures cart.cartId == old(cart.cartId)
  {
    done, sent := cart.UpdateQuantity(line.product.id, line.count - 1, resp);
  }

  /** The plus button: one more of the line's product (a removal only for a count
      below zero). */
  method PressPlus(cart: CartStore, line: CartLine, resp: Response<CartData>)
    returns (done: Completion, sent: seq<Request>)
    modifies cart
    ensures !IsAuthenticated(cart.store.entries) ==>
              done == Normal && sent == [] && cart.items == old(cart.items) && cart.isLoading == old(cart.isLoading)
    ensures IsAuthenticated(cart.store.entries) ==> !cart.isLoading
    ensures IsAuthenticated(cart.store.entries) && resp.Ok? ==>
              done == Normal && cart.items == resp.body.products.GetOr([])
    ensures IsAuthenticated(cart.store.entries) && resp.Err? ==>
              done == Abrupt(resp.thrown) && cart.items == old(cart.items)
    ensures IsAuthenticated(cart.store.entries) ==>
              sent == [if line.count < 0 then CartRemoveRequest(line.product.id)
                       else CartUpdateQuantityRequest(line.product.id, line.count + 1)]
    ensures cart.cartId == old(cart.cartId)
  {
    done, sent := cart.UpdateQuantity(line.product.id, line.count + 1, resp);
  }
}
