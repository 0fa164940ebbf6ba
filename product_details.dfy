/** The product page of `src/pages/ProductDetails.tsx`: the image carousel, the
    related products, the price and stock texts, and the sign-in gate in front of
    the cart and wishlist buttons. */
module ProductDetails {
  import opened Common
  import opened Api
  import opened LocalStorage
  import opened Ui
  import Seqs
  import Decimal
  import CartContext
  import WishlistContext

  // ---------------------------------------------------------------------------
  // Images

  /** `[product.imageCover, ...product.images]` */
  function AllImages(p: ApiProduct): (imgs: seq<string>)
    ensures |imgs| == 1 + |p.images|
    ensures imgs[0] == p.imageCover && imgs[1..] == p.images
  {
    [p.imageCover] + p.images
  }

  /** The arrows are drawn only when there is a second image to go to. */
  predicate ShowArrows(p: ApiProduct): (shown: bool)
    ensures shown <==> p.images != []
  {
    |AllImages(p)| > 1
  }

  /** The remainder of a non-negative number, by repeated subtraction. */
  function Rem(a: nat, n: nat): (r: nat)
    requires n > 0
    ensures r < n
    decreases a
  {
    if a < n then a else Rem(a - n, n)
  }

  /** `Rem` is the remainder of division: what is left after taking whole multiples
      of the divisor, which together with `r < n` fixes its value. */
  lemma {:induction false} RemIsRemainder(a: nat, n: nat) returns (q: nat)
    requires n > 0
    ensures a == q * n + Rem(a, n)
    decreases a
  {
    if a < n {
      q := 0;
    } else {
      var q' := RemIsRemainder(a - n, n);
      q := q' + 1;
    }
  }

  /** JavaScript's `%`, whose result takes the sign of the dividend: the remainder of
      the magnitudes, negated for a negative dividend. */
  function JsRemainder(a: int, n: int): (r: int)
    requires n > 0
    ensures a >= 0 ==> 0 <= r < n && r == Rem(a, n)
    ensures a < 0 ==> -n < r <= 0 && r == -(Rem(-a, n) as int)
  {
    if a >= 0 then Rem(a, n) else -(Rem(-a, n) as int)
  }

  /** `nextImage`: `(prev + 1) % allImages.length` */
  function NextIndex(i: int, n: int): (j: int)
    requires n > 0
    ensures i >= -1 ==> 0 <= j < n
  {
    JsRemainder(i + 1, n)
  }

  /** `prevImage`: `(prev - 1 + allImages.length) % allImages.length` */
  function PrevIndex(i: int, n: int): (j: int)
    requires n > 0
    ensures i >= 1 - n ==> 0 <= j < n
  {
    JsRemainder(i - 1 + n, n)
  }

  /** From a shown image both arrows lead to a shown image (the last wraps to the
      first and back), and each undoes the other. */
  lemma CarouselStepsInRange(i: int, n: int)
    requires 0 <= i < n
    ensures 0 <= NextIndex(i, n) < n && 0 <= PrevIndex(i, n) < n
    ensures NextIndex(i, n) == (if i == n - 1 then 0 else i + 1)
    ensures PrevIndex(i, n) == (if i == 0 then n - 1 else i - 1)
    ensures PrevIndex(NextIndex(i, n), n) == i && NextIndex(PrevIndex(i, n), n) == i
  {
    if i == n - 1 {
      assert Rem(i + 1, n) == Rem(0, n) == 0;
    } else {
      assert Rem(i + 1, n) == i + 1;
    }
    if i == 0 {
      assert Rem(i - 1 + n, n) == n - 1;
    } else {
      assert Rem(i - 1 + n, n) == Rem(i - 1, n) == i - 1;
    }
    var j, k := NextIndex(i, n), PrevIndex(i, n);
    if j == 0 {
      assert Rem(j - 1 + n, n) == n - 1;
    } else {
      assert Rem(j - 1 + n, n) == Rem(j - 1, n);
    }
    if k == n - 1 {
      assert Rem(k + 1, n) == Rem(0, n);
    } else {
      assert Rem(k + 1, n) == k + 1;
    }
  }

  /** `k` presses of the right arrow. */
  function PressNext(i: int, n: int, k: nat): int
    requires n > 0
    decreases k
  {
    if k == 0 then i else NextIndex(PressNext(i, n, k - 1), n)
  }

  lemma {:induction false} RemSuccessor(a: nat, n: nat)
    requires n > 0
    ensures Rem(Rem(a, n) + 1, n) == Rem(a + 1, n)
    decreases a
  {
    if a >= n {
      RemSuccessor(a - n, n);
    }
  }

  /** Pressing the right arrow `k` times moves `k` places round the images; `n`
      presses come back to the start. */
  lemma {:induction false} PressNextCycles(i: int, n: int, k: nat)
    requires 0 <= i < n
    ensures PressNext(i, n, k) == Rem(i + k, n)
    ensures k == n ==> PressNext(i, n, k) == i
    decreases k
  {
    if k > 0 {
      PressNextCycles(i, n, k - 1);
      RemSuccessor(i + k - 1, n);
    }
    if k == n {
      assert Rem(i + n, n) == Rem(i, n);
    }
  }

  // ---------------------------------------------------------------------------
  // The index when the page moves to another product
  //
  // The related products link to `/products/{id}`, the route that renders this
  // same page, so the page stays mounted and keeps `currentImageIndex` while the
  // effect loads the next product.

  /** A concrete instance of the rule as written, where `ProductView.Load` keeps the
      old index: the third image of a product with three, then a product with only
      its cover. The kept index 2 names no image, and with one image there are no
      arrows to move it back. */
  lemma StaleIndexNamesNoImage()
    ensures var shown := ApiProduct("a", "A", "a", 1, 100, None, "a0", ["a1", "a2"], None);
            var next := ApiProduct("b", "B", "b", 1, 100, None, "b0", [], None);
            0 <= 2 < |AllImages(shown)|
            && 2 >= |AllImages(next)|
            && !ShowArrows(next)
  {
  }

  /** Corrected: the carousel starts again at the cover. */
  function IndexAfterNavigation(index: int, next: ApiProduct): (i: int)
    ensures 0 <= i < |AllImages(next)|
    ensures AllImages(next)[i] == next.imageCover
  {
    0
  }

  // ---------------------------------------------------------------------------
  // Texts

  /** `priceAfterDiscount || price` */
  function DisplayedPrice(p: ApiProduct): (price: int)
    ensures NumTruthy(p.priceAfterDiscount) ==> price == p.priceAfterDiscount.value
    ensures !NumTruthy(p.priceAfterDiscount) ==> price == p.price
  {
    if NumTruthy(p.priceAfterDiscount) then p.priceAfterDiscount.value else p.price
  }

  const IN_STOCK_PREFIX := "In Stock ("
  const IN_STOCK_SUFFIX := " available)"
  const OUT_OF_STOCK := "Out of Stock"

  function StockLabel(quantity: int): (text: string)
    ensures text == OUT_OF_STOCK <==> quantity <= 0
  {
    if quantity > 0 then IN_STOCK_PREFIX + Decimal.IntToDecimal(quantity) + IN_STOCK_SUFFIX else OUT_OF_STOCK
  }

  /** The in-stock label names the quantity: different quantities read differently. */
  lemma StockLabelNamesQuantity(a: int, b: int)
    requires a > 0 && b > 0 && StockLabel(a) == StockLabel(b)
    ensures a == b
  {
    var da, db := Decimal.IntToDecimal(a), Decimal.IntToDecimal(b);
    var la, lb := StockLabel(a), StockLabel(b);
    var p := |IN_STOCK_PREFIX|;
    assert |da| == |db|;
    assert la[p..p + |da|] == da;
    assert lb[p..p + |db|] == db;
    Decimal.IntToDecimalInjective(a, b);
  }

  // ---------------------------------------------------------------------------
  // Related products

  /** `data.filter(p => p._id !== current).slice(0, 4)` */
  function Related(candidates: seq<ApiProduct>, currentId: string): (r: seq<ApiProduct>)
    ensures |r| <= 4
    ensures forall i :: 0 <= i < |r| ==> r[i].id != currentId && r[i] in candidates
    ensures r <= WithoutId(candidates, currentId)
    ensures |r| == if |WithoutId(candidates, currentId)| < 4 then |WithoutId(candidates, currentId)| else 4
  {
    WithoutIdMembers(candidates, currentId);
    Seqs.Take(WithoutId(candidates, currentId), 4)
  }

  /** The related-products query: the product's category, and at most five results. */
  function RelatedQuery(categoryId: string): seq<(string, string)> {
    [("category", categoryId), ("limit", "5")]
  }

  const SIGN_IN_TITLE := "Please sign in"
  const SIGN_IN_FOR_CART := "Sign in to add items to cart"
  const SIGN_IN_FOR_WISHLIST := "Sign in to add items to wishlist"
  const ADD_TO_CART_FAILED := "Failed to add to cart"
  const WISHLIST_FAILED := "Failed to update wishlist"

  function AddedToCart(p: ApiProduct): Toast {
    Toast("Added to cart", p.title + " has been added to your cart.", false)
  }

  // ---------------------------------------------------------------------------
  // The page

  class ProductView {
    var product: Option<ApiProduct>
    var related: seq<ApiProduct>
    var isLoading: bool
    var currentImageIndex: int

    /** The index never goes below the cover: it starts at 0 and each arrow keeps it
        non-negative. It can lie beyond the shown product's images (see `Load`). */
    predicate Valid()
      reads this
    {
      0 <= currentImageIndex
    }

    /** The index names one of the shown product's images. */
    predicate IndexShown()
      reads this
    {
      product.Some? ==> currentImageIndex < |AllImages(product.value)|
    }

    constructor ()
      ensures product == None && related == [] && isLoading && currentImageIndex == 0
      ensures Valid() && IndexShown()
    {
      product := None;
      related := [];
      isLoading := true;
      currentImageIndex := 0;
    }

    /** The effect run for each `slug`: load the product, then, when it has a
        category, up to four other products of that category. A failed load keeps
        what was shown; a product without a category keeps the previous related
        list. The index is left as it was, so after
        a move to a product with fewer images it can name no image. */
    method Load(slug: string, productResp: Response<ApiProduct>, relatedResp: Response<seq<ApiProduct>>)
      returns (sent: seq<Request>)
      requires Valid()
      modifies this
      ensures Valid()
      ensures currentImageIndex == old(currentImageIndex)
      ensures slug == "" ==>
                sent == [] && product == old(product) && related == old(related) && isLoading == old(isLoading)
      ensures slug != "" ==> !isLoading && |sent| >= 1 && sent[0] == ProductByIdRequest(slug)
      ensures slug != "" && productResp.Err? ==>
                sent == [ProductByIdRequest(slug)] && product == old(product) && related == old(related)
      ensures slug != "" && productResp.Ok? ==>
                product == Some(productResp.body)
      ensures slug != "" && productResp.Ok? && productResp.body.categoryId.None? ==>
                sent == [ProductByIdRequest(slug)] && related == old(related)
      ensures slug != "" && productResp.Ok? && productResp.body.categoryId.Some? ==>
                sent == [ProductByIdRequest(slug),
                         GetRequest(Target("/products", RelatedQuery(productResp.body.categoryId.value)))]
                && related == (if relatedResp.Ok? then Related(relatedResp.body, productResp.body.id) else old(related))
    {
      if slug == "" {
        return [];
      }
      isLoading := true;
      sent := [ProductByIdRequest(slug)];
      match productResp {
        case Ok(p) =>
          product := Some(p);
          if p.categoryId.Some? {
            var params: ParamEntries := [("category", Some(Str(p.categoryId.value))), ("limit", Some(Num(5)))];
            assert Decimal.IntToDecimal(5) == "5";
            assert DefinedPairs(params) == RelatedQuery(p.categoryId.value);
            var t := ProductsTarget(Some(params));
            sent := sent + [GetRequest(t)];
            match relatedResp {
              case Ok(candidates) =>
                related := Related(candidates, p.id);
              case Err(_) =>
            }
          }
        case Err(_) =>
      }
      isLoading := false;
    }

    /** Corrected: `Load`, after which the carousel starts again at the cover
        (`IndexAfterNavigation`), so the index always names a shown image. */
    method LoadFromCover(slug: string, productResp: Response<ApiProduct>, relatedResp: Response<seq<ApiProduct>>)
      returns (sent: seq<Request>)
      requires Valid() && IndexShown()
      modifies this
      ensures Valid() && IndexShown()
      ensures slug == "" ==>
                sent == [] && product == old(product) && related == old(related)
                && isLoading == old(isLoading) && currentImageIndex == old(currentImageIndex)
      ensures slug != "" ==> !isLoading && |sent| >= 1 && sent[0] == ProductByIdRequest(slug)
      ensures slug != "" && productResp.Err? ==>
                sent == [ProductByIdRequest(slug)] && product == old(product) && related == old(related)
                && currentImageIndex == old(currentImageIndex)
      ensures slug != "" && productResp.Ok? ==>
                product == Some(productResp.body)
                && currentImageIndex == IndexAfterNavigation(old(currentImageIndex), productResp.body)
                && AllImages(productResp.body)[currentImageIndex] == productResp.body.imageCover
      ensures slug != "" && productResp.Ok? && productResp.body.categoryId.None? ==>
                sent == [ProductByIdRequest(slug)] && related == old(related)
      ensures slug != "" && productResp.Ok? && productResp.body.categoryId.Some? ==>
                sent == [ProductByIdRequest(slug),
                         GetRequest(Target("/products", RelatedQuery(productResp.body.categoryId.value)))]
                && related == (if relatedResp.Ok? then Related(relatedResp.body, productResp.body.id) else old(related))
    {
      sent := Load(slug, productResp, relatedResp);
      if slug != "" && productResp.Ok? {
        currentImageIndex := IndexAfterNavigation(currentImageIndex, productResp.body);
      }
    }

    /** The right arrow. From any index, even one left beyond the images by a move to
        another product, one press lands on a shown image. */
    method NextImage()
      requires Valid() && product.Some?
      modifies this
      ensures Valid() && IndexShown()
      ensures product == old(product) && related == old(related) && isLoading == old(isLoading)
      ensures currentImageIndex == NextIndex(old(currentImageIndex), |AllImages(product.value)|)
      ensures old(currentImageIndex) < |AllImages(product.value)| ==>
                currentImageIndex == (if old(currentImageIndex) == |AllImages(product.value)| - 1 then 0
                                      else old(currentImageIndex) + 1)
    {
      var n := |AllImages(product.value)|;
      if currentImageIndex < n {
        CarouselStepsInRange(currentImageIndex, n);
      }
      currentImageIndex := NextIndex(currentImageIndex, n);
    }

    /** The left arrow, likewise landing on a shown image from any index. */
    method PrevImage()
      requires Valid() && product.Some?
      modifies this
      ensures Valid() && IndexShown()
      ensures product == old(product) && related == old(related) && isLoading == old(isLoading)
      ensures currentImageIndex == PrevIndex(old(currentImageIndex), |AllImages(product.value)|)
      ensures old(currentImageIndex) < |AllImages(product.value)| ==>
                currentImageIndex == (if old(currentImageIndex) == 0 then |AllImages(product.value)| - 1
                                      else old(currentImageIndex) - 1)
    {
      var n := |AllImages(product.value)|;
      if currentImageIndex < n {
        CarouselStepsInRange(currentImageIndex, n);
      }
      currentImageIndex := PrevIndex(currentImageIndex, n);
    }

    /** `handleAddToCart`: signed out, only a sign-in message; otherwise the cart's
        `addItem`, reported as added or as failed. */
    method AddToCart(signedIn: bool, cart: CartContext.CartStore, resp: Response<CartContext.AddToCartBody>)
      returns (toast: Toast, sent: seq<Request>)
      requires product.Some?
      modifies cart
      ensures !signedIn ==>
                toast == Toast(SIGN_IN_TITLE, SIGN_IN_FOR_CART, true) && sent == []
                && cart.items == old(cart.items) && cart.cartId == old(cart.cartId) && cart.isLoading == old(cart.isLoading)
      ensures signedIn ==>
                sent == (if IsAuthenticated(cart.store.entries) then [CartAddRequest(product.value.id)] else [])
                && toast == (if IsAuthenticated(cart.store.entries) && resp.Ok? then AddedToCart(product.value)
                             else ErrorToast(ADD_TO_CART_FAILED))
      ensures signedIn && IsAuthenticated(cart.store.entries) ==> !cart.isLoading
      ensures signedIn && IsAuthenticated(cart.store.entries) && resp.Ok? ==>
                cart.items == resp.body.data.products.GetOr([]) && cart.cartId == resp.body.cartId
      ensures signedIn && !(IsAuthenticated(cart.store.entries) && resp.Ok?) ==>
                cart.items == old(cart.items) && cart.cartId == old(cart.cartId)
    {
      if !signedIn {
        return Toast(SIGN_IN_TITLE, SIGN_IN_FOR_CART, true), [];
      }
      var done;
      done, sent := cart.AddItem(product.value.id, resp);
      toast := if done.Normal? then AddedToCart(product.value) else ErrorToast(ADD_TO_CART_FAILED);
    }

    /** `handleWishlistToggle`: signed out, only a sign-in message; otherwise the
        wishlist's `toggleItem`, with a message only when it fails. */
    method ToggleWishlist(signedIn: bool, wishlist: WishlistContext.WishlistStore,
                          addResp: Response<Option<seq<string>>>, refreshResp: Response<Option<seq<ApiProduct>>>,
                          removeResp: Response<Option<seq<string>>>)
      returns (toast: Option<Toast>, sent: seq<Request>)
      requires product.Some?
      modifies wishlist
      ensures !signedIn ==>
                toast == Some(Toast(SIGN_IN_TITLE, SIGN_IN_FOR_WISHLIST, true)) && sent == []
                && wishlist.items == old(wishlist.items) && wishlist.wishlistIds == old(wishlist.wishlistIds)
                && wishlist.isLoading == old(wishlist.isLoading)
      ensures signedIn && !IsAuthenticated(wishlist.store.entries) ==>
                sent == [] && wishlist.items == old(wishlist.items) && wishlist.wishlistIds == old(wishlist.wishlistIds)
                && wishlist.isLoading == old(wishlist.isLoading)
      ensures signedIn && IsAuthenticated(wishlist.store.entries) ==> !wishlist.isLoading
      ensures signedIn && product.value.id in old(wishlist.wishlistIds) ==>
                toast == (if IsAuthenticated(wishlist.store.entries) && removeResp.Err? then Some(ErrorToast(WISHLIST_FAILED))
                          else None)
      ensures signedIn && product.value.id !in old(wishlist.wishlistIds) ==>
                toast == (if !IsAuthenticated(wishlist.store.entries) || addResp.Err? then Some(ErrorToast(WISHLIST_FAILED))
                          else None)
      ensures signedIn && IsAuthenticated(wishlist.store.entries) && product.value.id in old(wishlist.wishlistIds) ==>
                sent == [WishlistRemoveRequest(product.value.id)]
                && (removeResp.Ok? ==> wishlist.items == WithoutId(old(wishlist.items), product.value.id)
                                        && wishlist.wishlistIds == removeResp.body.GetOr([]))
                && (removeResp.Err? ==> wishlist.items == old(wishlist.items)
                                         && wishlist.wishlistIds == old(wishlist.wishlistIds))
      ensures signedIn && IsAuthenticated(wishlist.store.entries) && product.value.id !in old(wishlist.wishlistIds) ==>
                (addResp.Ok? ==> sent == [WishlistAddRequest(product.value.id), WishlistGetRequest]
                                 && wishlist.items == (if refreshResp.Ok? && refreshResp.body.Some? then refreshResp.body.value
                                                       else [])
                                 && wishlist.InSync())
                && (addResp.Err? ==> sent == [WishlistAddRequest(product.value.id)]
                                      && wishlist.items == old(wishlist.items)
                                      && wishlist.wishlistIds == old(wishlist.wishlistIds))
    {
      if !signedIn {
        return Some(Toast(SIGN_IN_TITLE, SIGN_IN_FOR_WISHLIST, true)), [];
      }
      var done;
      done, sent := wishlist.ToggleItem(product.value.id, addResp, refreshResp, removeResp);
      toast := if done.Abrupt? then Some(ErrorToast(WISHLIST_FAILED)) else None;
    }
  }
}
