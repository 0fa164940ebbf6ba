/** The API access layer of `src/services/api.ts`: how a request to the remote
    commerce service is assembled (URL, headers, query string, body) and how its
    answer is turned into a value or an error. The transport itself (`fetch`, the
    HTTP status, JSON decoding) is not modelled: a call's outcome is an input. */
module Api {
  import opened Common
  import opened Decimal
  import LocalStorage
  import Seqs

  const BASE_URL := "https://ecommerce.routemisr.com/api/v1"
  const JSON_CONTENT_TYPE := "application/json"
  const GENERIC_ERROR := "Something went wrong"

  datatype HttpMethod = Get | Post | Put | Delete

  // ---------------------------------------------------------------------------
  // Records exchanged with the service

  /** The product record the service returns (`APIProduct`), reduced to the fields
      the client logic reads. `categoryId` is `None` when the record has no category. */
  datatype ApiProduct = ApiProduct(
    id: string,
    title: string,
    slug: string,
    quantity: int,
    price: int,
    priceAfterDiscount: Option<int>,
    imageCover: string,
    images: seq<string>,
    categoryId: Option<string>)

  /** `products.filter(p => p._id !== productId)`, as the wishlist and the related
      products use it. */
  function WithoutId(ps: seq<ApiProduct>, productId: string): seq<ApiProduct> {
    Seqs.Filter(ps, OtherThan(productId))
  }

  function OtherThan(productId: string): ApiProduct -> bool {
    (p: ApiProduct) => p.id != productId
  }

  /** Dropping by id leaves only records of the list with another id, and all of them. */
  lemma WithoutIdMembers(ps: seq<ApiProduct>, productId: string)
    ensures forall i :: 0 <= i < |WithoutId(ps, productId)| ==>
              WithoutId(ps, productId)[i] in ps && WithoutId(ps, productId)[i].id != productId
    ensures forall i :: 0 <= i < |ps| && ps[i].id != productId ==> ps[i] in WithoutId(ps, productId)
  {
    Seqs.FilterMembers(ps, OtherThan(productId));
  }

  /** Dropping by id removes every record with that id and keeps every other record
      as many times as it occurred. */
  lemma WithoutIdKeepsTheRest(ps: seq<ApiProduct>, productId: string, x: ApiProduct)
    ensures multiset(WithoutId(ps, productId))[x] == if x.id == productId then 0 else multiset(ps)[x]
  {
    Seqs.FilterMultiplicity(ps, OtherThan(productId), x);
  }

  /** Dropping by id keeps the order of the remaining records: it works piecewise on
      any split of the list. */
  lemma WithoutIdKeepsOrder(a: seq<ApiProduct>, b: seq<ApiProduct>, productId: string)
    ensures WithoutId(a + b, productId) == WithoutId(a, productId) + WithoutId(b, productId)
  {
    Seqs.FilterAppend(a, b, OtherThan(productId));
  }

  datatype ShippingAddress = ShippingAddress(details: string, phone: string, city: string)

  datatype SignupData = SignupData(name: string, email: string, password: string, rePassword: string, phone: string)

  datatype ChangePasswordData = ChangePasswordData(currentPassword: string, password: string, rePassword: string)

  /** The JSON bodies the client sends. */
  datatype Body =
    | NoBody
    | ProductIdBody(productId: string)
    | CountBody(count: string)
    | SigninBody(email: string, password: string)
    | SignupBody(signup: SignupData)
    | EmailBody(email: string)
    | ChangePasswordBody(change: ChangePasswordData)
    | ShippingBody(shippingAddress: ShippingAddress)

  /** One call of `apiCall(endpoint, { method, body })`. */
  datatype Request = Request(verb: HttpMethod, endpoint: string, body: Body)

  // ---------------------------------------------------------------------------
  // apiCall: headers, URL, and the handling of the answer

  /** Assembles the headers record: `Content-Type: application/json`, then the
      caller's headers (which may override it), then `token` when a truthy token is
      stored under `userToken`. */
  method BuildHeaders(callerHeaders: map<string, string>, stored: map<string, string>)
    returns (headers: map<string, string>)
    ensures headers.Keys == {"Content-Type"} + callerHeaders.Keys
                            + (if LocalStorage.IsAuthenticated(stored) then {"token"} else {})
    ensures headers["Content-Type"] ==
              if "Content-Type" in callerHeaders then callerHeaders["Content-Type"] else JSON_CONTENT_TYPE
    ensures LocalStorage.IsAuthenticated(stored) ==> headers["token"] == stored[LocalStorage.TOKEN_KEY]
    ensures forall k :: k in callerHeaders && (k != "token" || !LocalStorage.IsAuthenticated(stored))
                        ==> headers[k] == callerHeaders[k]
  {
    var token := LocalStorage.Lookup(stored, LocalStorage.TOKEN_KEY);
    headers := map["Content-Type" := JSON_CONTENT_TYPE] + callerHeaders;
    if Truthy(token) {
      headers := headers["token" := token.value];
    }
  }

  /** What `apiCall` hands to `fetch`. */
  datatype FetchCall = FetchCall(url: string, verb: HttpMethod, headers: map<string, string>, body: Body)

  /** The `fetch` call that `apiCall` makes for a request; the URL is the base URL
      followed by the endpoint exactly as given. */
  method PrepareFetch(req: Request, callerHeaders: map<string, string>, stored: map<string, string>)
    returns (call: FetchCall)
    ensures StartsWith(call.url, BASE_URL) && call.url[|BASE_URL|..] == req.endpoint
    ensures call.verb == req.verb && call.body == req.body
    ensures ("token" in call.headers && call.headers["token"] == stored[LocalStorage.TOKEN_KEY])
            <== LocalStorage.IsAuthenticated(stored)
    ensures callerHeaders == map[] ==> ("token" in call.headers <==> LocalStorage.IsAuthenticated(stored))
    ensures callerHeaders == map[] ==> "Content-Type" in call.headers && call.headers["Content-Type"] == JSON_CONTENT_TYPE
  {
    var headers := BuildHeaders(callerHeaders, stored);
    call := FetchCall(BASE_URL + req.endpoint, req.verb, headers, req.body);
  }

  /** The end of `apiCall`: a non-ok answer becomes an `Error` carrying the body's
      `message` or the generic text; an ok answer yields the parsed body as it is. */
  function Settle<T>(ok: bool, message: Option<string>, data: T): (r: Response<T>)
    ensures ok <==> r.Ok?
    ensures ok ==> r.body == data
    ensures !ok ==> r.thrown.ErrorObject?
    ensures !ok && Truthy(message) ==> r.thrown.message == message.value
    ensures !ok && !Truthy(message) ==> r.thrown.message == GENERIC_ERROR
  {
    if ok then Ok(data) else Err(ErrorObject(OrElse(message, GENERIC_ERROR)))
  }

  /** Every failure that `apiCall` raises is an `Error` with a non-empty message, so
      the `instanceof Error` fallbacks of its callers are never reached through it. */
  lemma SettledErrorHasMessage<T>(ok: bool, message: Option<string>, data: T)
    ensures Settle(ok, message, data).Err? ==>
              Settle(ok, message, data).thrown.ErrorObject? && Settle(ok, message, data).thrown.message != ""
  {
  }

  // ---------------------------------------------------------------------------
  // Query strings

  /** A path together with the (key, value) pairs of its query, in order. */
  datatype Target = Target(path: string, query: seq<(string, string)>)

  /** `URLSearchParams.toString()` without percent-encoding: `k=v` joined by `&`. */
  function SerializeQuery(q: seq<(string, string)>): string
    decreases |q|
  {
    if q == [] then ""
    else if |q| == 1 then q[0].0 + "=" + q[0].1
    else q[0].0 + "=" + q[0].1 + "&" + SerializeQuery(q[1..])
  }

  /** `` `${path}${queryString ? `?${queryString}` : ''}` `` */
  function Render(t: Target): string {
    t.path + (if t.query == [] then "" else "?" + SerializeQuery(t.query))
  }

  /** A `?` is added exactly when there is at least one pair. */
  lemma RenderMarksQuery(t: Target)
    requires '?' !in t.path
    ensures '?' in Render(t) <==> t.query != []
  {
    if t.query != [] {
      var r := Render(t);
      assert r[|t.path|] == '?';
    } else {
      assert Render(t) == t.path;
    }
  }

  /** The pairs of `categoriesAPI.getAll` and `brandsAPI.getAll`: `limit`, then
      `page`, each only when truthy (so 0 is omitted, negative values are kept). */
  function LimitPageQuery(limit: Option<int>, page: Option<int>): (q: seq<(string, string)>)
    ensures |q| == (if NumTruthy(limit) then 1 else 0) + (if NumTruthy(page) then 1 else 0)
    ensures NumTruthy(limit) ==> q[0] == ("limit", IntToDecimal(limit.value))
    ensures NumTruthy(page) ==> q[|q| - 1] == ("page", IntToDecimal(page.value))
  {
    (if NumTruthy(limit) then [("limit", IntToDecimal(limit.value))] else [])
    + (if NumTruthy(page) then [("page", IntToDecimal(page.value))] else [])
  }

  function CategoriesTarget(limit: Option<int>, page: Option<int>): Target {
    Target("/categories", LimitPageQuery(limit, page))
  }

  function BrandsTarget(limit: Option<int>, page: Option<int>): Target {
    Target("/brands", LimitPageQuery(limit, page))
  }

  /** With neither parameter truthy the endpoint is the bare collection path. */
  lemma CollectionEndpointBare(limit: Option<int>, page: Option<int>)
    ensures Render(CategoriesTarget(limit, page)) == "/categories" <==> !NumTruthy(limit) && !NumTruthy(page)
    ensures Render(BrandsTarget(limit, page)) == "/brands" <==> !NumTruthy(limit) && !NumTruthy(page)
  {
    RenderMarksQuery(CategoriesTarget(limit, page));
    RenderMarksQuery(BrandsTarget(limit, page));
  }

  /** `subcategoriesAPI.getAll`: a template string, `?limit=n` only when truthy. */
  function SubcategoriesEndpoint(limit: Option<int>): (e: string)
    ensures NumTruthy(limit) ==> e == Render(Target("/subcategories", [("limit", IntToDecimal(limit.value))]))
    ensures !NumTruthy(limit) ==> e == "/subcategories"
  {
    "/subcategories" + (if NumTruthy(limit) then "?limit=" + IntToDecimal(limit.value) else "")
  }

  /** A value of `ProductsParams`: a number or a string. */
  datatype ParamValue = Num(n: int) | Str(s: string)

  /** `value.toString()` */
  function ParamText(v: ParamValue): string {
    match v
    case Num(n) => IntToDecimal(n)
    case Str(s) => s
  }

  /** The entries of a `ProductsParams` object in insertion order (`Object.entries`),
      a `None` value standing for a property that holds `undefined`. */
  type ParamEntries = seq<(string, Option<ParamValue>)>

  /** The pair one entry contributes: none when its value is `undefined`. */
  function EntryPairs(e: (string, Option<ParamValue>)): seq<(string, string)> {
    if e.1.Some? then [(e.0, ParamText(e.1.value))] else []
  }

  /** The pairs `productsAPI.getAll` appends: one per defined entry, in entry order. */
  function DefinedPairs(entries: ParamEntries): (q: seq<(string, string)>)
    ensures |q| <= |entries|
    decreases |entries|
  {
    if entries == [] then [] else EntryPairs(entries[0]) + DefinedPairs(entries[1..])
  }

  lemma {:induction false} DefinedPairsAppend(a: ParamEntries, b: ParamEntries)
    ensures DefinedPairs(a + b) == DefinedPairs(a) + DefinedPairs(b)
    decreases |a|
  {
    if a == [] {
      assert a + b == b;
    } else {
      assert (a + b)[0] == a[0];
      assert (a + b)[1..] == a[1..] + b;
      calc {
        DefinedPairs(a + b);
        EntryPairs(a[0]) + DefinedPairs(a[1..] + b);
        { DefinedPairsAppend(a[1..], b); }
        EntryPairs(a[0]) + (DefinedPairs(a[1..]) + DefinedPairs(b));
        DefinedPairs(a) + DefinedPairs(b);
      }
    }
  }

  predicate HasKey(q: seq<(string, string)>, k: string) {
    exists i :: 0 <= i < |q| && q[i].0 == k
  }

  predicate DefinesKey(entries: ParamEntries, k: string) {
    exists i :: 0 <= i < |entries| && entries[i].0 == k && entries[i].1.Some?
  }

  lemma HasKeyAppend(a: seq<(string, string)>, b: seq<(string, string)>, k: string)
    ensures HasKey(a + b, k) <==> HasKey(a, k) || HasKey(b, k)
  {
    if HasKey(a + b, k) {
      var i :| 0 <= i < |a + b| && (a + b)[i].0 == k;
      if i >= |a| {
        assert b[i - |a|] == (a + b)[i];
      }
    }
    if HasKey(b, k) {
      var i :| 0 <= i < |b| && b[i].0 == k;
      assert (a + b)[|a| + i] == b[i];
    }
    if HasKey(a, k) {
      var i :| 0 <= i < |a| && a[i].0 == k;
      assert (a + b)[i] == a[i];
    }
  }

  /** A key appears in the query exactly when some entry with that key is defined. */
  lemma {:induction false} DefinedPairsKeys(entries: ParamEntries, k: string)
    ensures HasKey(DefinedPairs(entries), k) <==> DefinesKey(entries, k)
    decreases |entries|
  {
    if entries != [] {
      DefinedPairsKeys(entries[1..], k);
      HasKeyAppend(EntryPairs(entries[0]), DefinedPairs(entries[1..]), k);
      if DefinesKey(entries[1..], k) {
        var i :| 0 <= i < |entries[1..]| && entries[1..][i].0 == k && entries[1..][i].1.Some?;
        assert entries[i + 1] == entries[1..][i];
      }
      if DefinesKey(entries, k) {
        var i :| 0 <= i < |entries| && entries[i].0 == k && entries[i].1.Some?;
        if i > 0 {
          assert entries[1..][i - 1] == entries[i];
        } else {
          assert EntryPairs(entries[0])[0].0 == k;
        }
      }
    }
  }

  /** `productsAPI.getAll(params)`: walks the entries, appending every defined one. */
  method ProductsTarget(params: Option<ParamEntries>) returns (t: Target)
    ensures t.path == "/products"
    ensures t.query == if params.Some? then DefinedPairs(params.value) else []
  {
    var query: seq<(string, string)> := [];
    if params.Some? {
      var entries := params.value;
      var i := 0;
      while i < |entries|
        invariant 0 <= i <= |entries|
        invariant query == DefinedPairs(entries[..i])
      {
        var (key, value) := entries[i];
        DefinedPairsAppend(entries[..i], [entries[i]]);
        assert entries[..i + 1] == entries[..i] + [entries[i]];
        assert DefinedPairs([entries[i]]) == EntryPairs(entries[i]);
        if value.Some? {
          query := query + [(key, ParamText(value.value))];
        }
        i := i + 1;
      }
      assert entries[..i] == entries;
    }
    t := Target("/products", query);
  }

  // ---------------------------------------------------------------------------
  // Endpoints used by the synchronisers, the product pages and the checkout

  /** A plain `GET` of a rendered target. */
  function GetRequest(t: Target): Request {
    Request(Get, Render(t), NoBody)
  }

  /** `productsAPI.getById`: `/products/{id}`. */
  function ProductByIdRequest(id: string): Request {
    Request(Get, "/products/" + id, NoBody)
  }

  const SigninEndpoint := "/auth/signin"
  const SignupEndpoint := "/auth/signup"

  function SigninRequest(email: string, password: string): Request {
    Request(Post, SigninEndpoint, SigninBody(email, password))
  }

  function SignupRequest(data: SignupData): Request {
    Request(Post, SignupEndpoint, SignupBody(data))
  }

  function ForgotPasswordRequest(email: string): Request {
    Request(Post, "/auth/forgotPasswords", EmailBody(email))
  }

  function ChangePasswordRequest(data: ChangePasswordData): Request {
    Request(Put, "/users/changeMyPassword", ChangePasswordBody(data))
  }

  const VerifyTokenRequest := Request(Get, "/auth/verifyToken", NoBody)

  const WishlistGetRequest := Request(Get, "/wishlist", NoBody)

  function WishlistAddRequest(productId: string): Request {
    Request(Post, "/wishlist", ProductIdBody(productId))
  }

  function WishlistRemoveRequest(productId: string): Request {
    Request(Delete, "/wishlist/" + productId, NoBody)
  }

  const CartGetRequest := Request(Get, "/cart", NoBody)

  function CartAddRequest(productId: string): Request {
    Request(Post, "/cart", ProductIdBody(productId))
  }

  /** `cartAPI.updateQuantity`: the count travels as its decimal string. */
  function CartUpdateQuantityRequest(productId: string, count: int): (r: Request)
    ensures r.verb == Put && r.body.CountBody?
    ensures StartsWith(r.endpoint, "/cart/") && r.endpoint[|"/cart/"|..] == productId
    ensures ParseInt(r.body.count) == Some(count)
  {
    IntToDecimalRoundTrip(count);
    Request(Put, "/cart/" + productId, CountBody(IntToDecimal(count)))
  }

  function CartRemoveRequest(productId: string): Request {
    Request(Delete, "/cart/" + productId, NoBody)
  }

  const CartClearRequest := Request(Delete, "/cart", NoBody)

  /** `ordersAPI.createCashOrder`: `/orders/{cartId}`. */
  function CashOrderRequest(cartId: string, address: ShippingAddress): (r: Request)
    ensures r.verb == Post && r.body == ShippingBody(address)
    ensures StartsWith(r.endpoint, "/orders/") && r.endpoint[|"/orders/"|..] == cartId
  {
    Request(Post, "/orders/" + cartId, ShippingBody(address))
  }

  const CHECKOUT_SESSION_PREFIX := "/orders/checkout-session/"

  /** `ordersAPI.checkoutSession`: `/orders/checkout-session/{cartId}?url=...`, where
      `encodedReturnUrl` is `encodeURIComponent(returnUrl)`. */
  function CheckoutSessionRequest(cartId: string, address: ShippingAddress, encodedReturnUrl: string): (r: Request)
    ensures r.verb == Post && r.body == ShippingBody(address)
    ensures StartsWith(r.endpoint, CHECKOUT_SESSION_PREFIX + cartId + "?url=")
    ensures r.endpoint[|CHECKOUT_SESSION_PREFIX + cartId + "?url="|..] == encodedReturnUrl
  {
    Request(Post, CHECKOUT_SESSION_PREFIX + cartId + "?url=" + encodedReturnUrl, ShippingBody(address))
  }

  /** The request builders of the cart, wishlist and product calls: each sends its
      own verb to its own collection, and the product id it names can be read back
      from it, so different ids, and a cart call and a wishlist call, never give the
      same request. */
  lemma RequestsIdentifyTheirCall(a: string, b: string)
    ensures ProductByIdRequest(a).verb == Get && ProductByIdRequest(a).endpoint[|"/products/"|..] == a
    ensures WishlistAddRequest(a).verb == Post && WishlistAddRequest(a).endpoint == "/wishlist"
    ensures CartAddRequest(a).verb == Post && CartAddRequest(a).endpoint == "/cart"
    ensures WishlistRemoveRequest(a).verb == Delete && WishlistRemoveRequest(a).endpoint[|"/wishlist/"|..] == a
    ensures CartRemoveRequest(a).verb == Delete && CartRemoveRequest(a).endpoint[|"/cart/"|..] == a
    ensures ProductByIdRequest(a) == ProductByIdRequest(b) <==> a == b
    ensures WishlistAddRequest(a) == WishlistAddRequest(b) <==> a == b
    ensures CartAddRequest(a) == CartAddRequest(b) <==> a == b
    ensures WishlistRemoveRequest(a) == WishlistRemoveRequest(b) <==> a == b
    ensures CartRemoveRequest(a) == CartRemoveRequest(b) <==> a == b
    ensures WishlistAddRequest(a) != CartAddRequest(b) && WishlistRemoveRequest(a) != CartRemoveRequest(b)
  {
    var pa, pb := ProductByIdRequest(a).endpoint, ProductByIdRequest(b).endpoint;
    assert pa[|"/products/"|..] == a && pb[|"/products/"|..] == b;
    var wa, wb := WishlistRemoveRequest(a).endpoint, WishlistRemoveRequest(b).endpoint;
    assert wa[|"/wishlist/"|..] == a && wb[|"/wishlist/"|..] == b;
    var ca, cb := CartRemoveRequest(a).endpoint, CartRemoveRequest(b).endpoint;
    assert ca[|"/cart/"|..] == a && cb[|"/cart/"|..] == b;
    assert wa[1] == 'w' && CartRemoveRequest(b).endpoint[1] == 'c';
  }

  /** The session calls go to four different endpoints, so none of them can be
      taken for another. */
  lemma SessionEndpointsDistinct(email: string, password: string, data: SignupData, change: ChangePasswordData)
    ensures var es := [SigninRequest(email, password).endpoint, SignupRequest(data).endpoint,
                       ForgotPasswordRequest(email).endpoint, ChangePasswordRequest(change).endpoint];
            forall i, j :: 0 <= i < j < |es| ==> es[i] != es[j]
  {
    var es := [SigninRequest(email, password).endpoint, SignupRequest(data).endpoint,
               ForgotPasswordRequest(email).endpoint, ChangePasswordRequest(change).endpoint];
    assert es[0][10] == 'i' && es[1][10] == 'u' && es[0][6] == 's' && es[2][6] == 'f' && es[3][1] == 'u' && es[0][1] == 'a';
  }

  /** Different carts address different cart-line and cash-order endpoints. */
  lemma EndpointsIdentifyTheirTarget(a: string, b: string, address: ShippingAddress, count: int)
    ensures CashOrderRequest(a, address).endpoint == CashOrderRequest(b, address).endpoint ==> a == b
    ensures CartRemoveRequest(a).endpoint == CartRemoveRequest(b).endpoint ==> a == b
    ensures CartUpdateQuantityRequest(a, count).endpoint == CartRemoveRequest(a).endpoint
  {
    var ea, eb := CashOrderRequest(a, address).endpoint, CashOrderRequest(b, address).endpoint;
    assert ea[|"/orders/"|..] == a && eb[|"/orders/"|..] == b;
    var ra, rb := CartRemoveRequest(a).endpoint, CartRemoveRequest(b).endpoint;
    assert ra[|"/cart/"|..] == a && rb[|"/cart/"|..] == b;
  }
}
