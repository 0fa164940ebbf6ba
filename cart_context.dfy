/** The cart synchroniser of `src/contexts/CartContext.tsx`: the cart lines and cart
    id the client caches, replaced wholesale from the server's answer after every
    call, and the two aggregates derived from them. */
module CartContext {
  import opened Common
  import opened Api
  import opened LocalStorage

  const LOGIN_TO_ADD := "Please login to add items to cart"

  /** One cart line (`APICartItem`). */
  datatype CartLine = CartLine(count: int, lineId: string, product: ApiProduct, price: int)

  /** The `data` record of a cart answer (`APICart`): both fields may be missing. */
  datatype CartData = CartData(id: Option<string>, products: Option<seq<CartLine>>)

  /** The answer to `cartAPI.add` (`AddToCartResponse`). */
  datatype AddToCartBody = AddToCartBody(cartId: Option<string>, data: CartData)

  // ---------------------------------------------------------------------------
  // Aggregates

  function LineCount(l: CartLine): int {
    l.count
  }

  /** What one line costs: unit price times quantity. */
  function LineTotal(l: CartLine): int {
    l.price * l.count
  }

  /** `lines.reduce((total, line) => total + term(line), acc)` */
  function Reduce(acc: int, lines: seq<CartLine>, term: CartLine -> int): int
    decreases |lines|
  {
    if lines == [] then acc else Reduce(acc + term(lines[0]), lines[1..], term)
  }

  /** Reference sum of `term` over the lines. */
  function Sum(lines: seq<CartLine>, term: CartLine -> int): int
    decreases |lines|
  {
    if lines == [] then 0 else term(lines[0]) + Sum(lines[1..], term)
  }

  /** The left fold computes the sum, offset by its starting value. */
  lemma {:induction false} ReduceIsSum(acc: int, lines: seq<CartLine>, term: CartLine -> int)
    ensures Reduce(acc, lines, term) == acc + Sum(lines, term)
    decreases |lines|
  {
    if lines != [] {
      ReduceIsSum(acc + term(lines[0]), lines[1..], term);
    }
  }

  lemma {:induction false} SumAppend(a: seq<CartLine>, b: seq<CartLine>, term: CartLine -> int)
    ensures Sum(a + b, term) == Sum(a, term) + Sum(b, term)
    decreases |a|
  {
    if a == [] {
      assert a + b == b;
    } else {
      assert (a + b)[1..] == a[1..] + b;
      SumAppend(a[1..], b, term);
    }
  }

  /** With no negative line counts the item count is never negative. */
  lemma {:induction false} ItemCountNonNegative(lines: seq<CartLine>)
    requires forall i :: 0 <= i < |lines| ==> lines[i].count >= 0
    ensures Sum(lines, LineCount) >= 0
    decreases |lines|
  {
    if lines != [] {
      ItemCountNonNegative(lines[1..]);
    }
  }

  /** `getItemCount` over a list of lines. */
  function ItemCountOf(lines: seq<CartLine>): (n: int)
    ensures n == Sum(lines, LineCount)
    ensures lines == [] ==> n == 0
  {
    ReduceIsSum(0, lines, LineCount);
    Reduce(0, lines, LineCount)
  }

  /** `getSubtotal` over a list of lines. */
  function SubtotalOf(lines: seq<CartLine>): (n: int)
    ensures n == Sum(lines, LineTotal)
    ensures lines == [] ==> n == 0
  {
    ReduceIsSum(0, lines, LineTotal);
    Reduce(0, lines, LineTotal)
  }

  /** Adding a line to a cart raises both aggregates by exactly that line. */
  lemma AggregatesOfAppendedLine(lines: seq<CartLine>, l: CartLine)
    ensures ItemCountOf(lines + [l]) == ItemCountOf(lines) + l.count
    ensures SubtotalOf(lines + [l]) == SubtotalOf(lines) + l.price * l.count
  {
    SumAppend(lines, [l], LineCount);
    SumAppend(lines, [l], LineTotal);
  }

  // ---------------------------------------------------------------------------
  // The synchroniser

  class CartStore {
    const store: Storage
    var items: seq<CartLine>
    var cartId: Option<string>
    var isLoading: bool

    /** The provider's initial state; on mount it calls `RefreshCart`. */
    constructor (store: Storage)
      ensures this.store == store
      ensures items == [] && cartId == None && !isLoading
    {
      this.store := store;
      items := [];
      cartId := None;
      isLoading := false;
    }

    function ItemCount(): (n: int)
      reads this
      ensures n == Sum(items, LineCount)
    {
      ItemCountOf(items)
    }

    function Subtotal(): (n: int)
      reads this
      ensures n == Sum(items, LineTotal)
    {
      SubtotalOf(items)
    }

    /** `refreshCart`: silent without a token; otherwise load the cart, falling back to
        an empty cart with no id when the call fails. */
    method RefreshCart(resp: Response<CartData>) returns (sent: seq<Request>)
      modifies this
      ensures !IsAuthenticated(store.entries) ==>
                sent == [] && items == old(items) && cartId == old(cartId) && isLoading == old(isLoading)
      ensures IsAuthenticated(store.entries) ==> sent == [CartGetRequest] && !isLoading
      ensures IsAuthenticated(store.entries) && resp.Ok? ==>
                items == resp.body.products.GetOr([])
                && cartId == (if Truthy(resp.body.id) then resp.body.id else None)
      ensures IsAuthenticated(store.entries) && resp.Err? ==> items == [] && cartId == None
    {
      if !IsAuthenticated(store.entries) {
        return [];
      }
      isLoading := true;
      sent := [CartGetRequest];
      match resp {
      case Ok(data) =>
        items := data.products.GetOr([]);
        cartId := if Truthy(data.id) then data.id else None;
      case Err(_) =>
        items := [];
        cartId := None;
      }
      isLoading := false;
    }

    /** `addItem`: rejects without a token and without calling the service; otherwise
        takes lines and cart id from the answer, or rejects with the call's error. */
    method AddItem(productId: string, resp: Response<AddToCartBody>) returns (done: Completion, sent: seq<Request>)
      modifies this
      ensures !IsAuthenticated(store.entries) ==>
                done == Abrupt(ErrorObject(LOGIN_TO_ADD)) && sent == []
                && items == old(items) && cartId == old(cartId) && isLoading == old(isLoading)
      ensures IsAuthenticated(store.entries) ==> sent == [CartAddRequest(productId)] && !isLoading
      ensures IsAuthenticated(store.entries) && resp.Ok? ==>
                done == Normal && items == resp.body.data.products.GetOr([]) && cartId == resp.body.cartId
      ensures IsAuthenticated(store.entries) && resp.Err? ==>
                done == Abrupt(resp.thrown) && items == old(items) && cartId == old(cartId)
    {
      if !IsAuthenticated(store.entries) {
        return Abrupt(ErrorObject(LOGIN_TO_ADD)), [];
      }
      isLoading := true;
      sent := [CartAddRequest(productId)];
      match resp {
      case Ok(body) =>
        items := body.data.products.GetOr([]);
        cartId := body.cartId;
        done := Normal;
      case Err(t) =>
        done := Abrupt(t);
      }
      isLoading := false;
    }

    /** `removeItem`: silent without a token; otherwise takes the lines from the answer
        (the cart id is kept), or rejects with the call's error. */
    method RemoveItem(productId: string, resp: Response<CartData>) returns (done: Completion, sent: seq<Request>)
      modifies this
      ensures cartId == old(cartId)
      ensures !IsAuthenticated(store.entries) ==>
                done == Normal && sent == [] && items == old(items) && isLoading == old(isLoading)
      ensures IsAuthenticated(store.entries) ==> sent == [CartRemoveRequest(productId)] && !isLoading
      ensures IsAuthenticated(store.entries) && resp.Ok? ==>
                done == Normal && items == resp.body.products.GetOr([])
      ensures IsAuthenticated(store.entries) && resp.Err? ==> done == Abrupt(resp.thrown) && items == old(items)
    {
      if !IsAuthenticated(store.entries) {
        return Normal, [];
      }
      isLoading := true;
      sent := [CartRemoveRequest(productId)];
      match resp {
      case Ok(data) =>
        items := data.products.GetOr([]);
        done := Normal;
      case Err(t) =>
        done := Abrupt(t);
      }
      isLoading := false;
    }

    /** `updateQuantity`: silent without a token; a quantity of zero or less is a
        removal; otherwise takes the lines from the answer (the cart id is kept). */
    method UpdateQuantity(productId: string, quantity: int, resp: Response<CartData>)
      returns (done: Completion, sent: seq<Request>)
      modifies this
      ensures cartId == old(cartId)
      ensures !IsAuthenticated(store.entries) ==>
                done == Normal && sent == [] && items == old(items) && isLoading == old(isLoading)
      ensures IsAuthenticated(store.entries) ==> !isLoading
      ensures IsAuthenticated(store.entries) ==>
                sent == [if quantity <= 0 then CartRemoveRequest(productId)
                         else CartUpdateQuantityRequest(productId, quantity)]
      ensures IsAuthenticated(store.entries) && resp.Ok? ==>
                done == Normal && items == resp.body.products.GetOr([])
      ensures IsAuthenticated(store.entries) && resp.Err? ==> done == Abrupt(resp.thrown) && items == old(items)
    {
      if !IsAuthenticated(store.entries) {
        return Normal, [];
      }
      if quantity <= 0 {
        done, sent := RemoveItem(productId, resp);
        return;
      }
      isLoading := true;
      sent := [CartUpdateQuantityRequest(productId, quantity)];
      match resp {
      case Ok(data) =>
        items := data.products.GetOr([]);
        done := Normal;
      case Err(t) =>
        done := Abrupt(t);
      }
      isLoading := false;
    }

    /** `clearCart`: silent without a token; otherwise empties the cart and forgets its
        id once the call succeeds, or rejects with the call's error. */
    method ClearCart(resp: Response<()>) returns (done: Completion, sent: seq<Request>)
      modifies this
      ensures !IsAuthenticated(store.entries) ==>
                done == Normal && sent == [] && items == old(items) && cartId == old(cartId) && isLoading == old(isLoading)
      ensures IsAuthenticated(store.entries) ==> sent == [CartClearRequest] && !isLoading
      ensures IsAuthenticated(store.entries) && resp.Ok? ==> done == Normal && items == [] && cartId == None
      ensures IsAuthenticated(store.entries) && resp.Err? ==>
                done == Abrupt(resp.thrown) && items == old(items) && cartId == old(cartId)
    {
      if !IsAuthenticated(store.entries) {
        return Normal, [];
      }
      isLoading := true;
      sent := [CartClearRequest];
      match resp {
      case Ok(_) =>
        items := [];
        cartId := None;
        done := Normal;
      case Err(t) =>
        done := Abrupt(t);
      }
      isLoading := false;
    }
  }
}
