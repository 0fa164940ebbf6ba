# Storefront client core, modelled in Dafny

This project models the client side of a fashion storefront, a single-page web
shop that talks to a remote commerce service, in Dafny, and proves properties of
the model. It covers these parts:

- **The API access layer** (`Api`). It models how each call's URL, headers,
  query string and body are put together, and how the service's answer becomes
  a value or an `Error`.
- **The three synchronisers**, one per browser-side cache: the cart
  (`CartContext.CartStore`), the wishlist (`WishlistContext.WishlistStore`) and
  the session (`AuthContext.AuthStore`). Each is a class whose fields are the
  cached state. It shares one `LocalStorage.Storage`, which stands for the
  browser's local storage. Every operation returns the requests it sent to the
  service.
- **The profile that the session writes to storage** (`ProfileJson`). This is
  the JSON text of the profile record. It is proved to read back as the
  profile that was stored.
- **The pages' own logic.** The model covers:
  - screen selection, validation schemas and submit handlers;
  - the cart summary and the shipping rule (`Pricing`);
  - the catalogue's URL filters and product query;
  - the product page's carousel, related products and sign-in gates;
  - the header's active links and cart badge.
- **The static mock catalogue** and its lookups (`MockData`).

Each call to the service is an input to the operation that makes it
(`Common.Response`), either the parsed answer or what was thrown. So every
branch the source takes on success or failure is stated and proved. Absent
values follow JavaScript truthiness: an empty token counts as no token, and a
limit of 0 is not sent.

Three details of the access layer shape many contracts:

- The session token travels in a header named `token`, with the stored token as
  its whole value.
- The token header is attached only when the stored token is truthy, so an
  empty stored token sends none.
- `limit` and `page` are left out of a category or brand query only when they
  are 0 or absent. Negative values are sent.

## Model

| member | source | states |
|---|---|---|
| Common.MessageOr | src/contexts/AuthContext.tsx:68 | an `Error` yields its message; any other thrown value yields the caller's fallback text |
| Common.OrElse | src/services/api.ts:30 | a truthy string is kept; `null`, `undefined` or `''` give the fallback |
| Decimal.NatToDecimal | src/services/api.ts:150 | the numeral of a natural number is all digits and has no leading zero except for 0 itself |
| Decimal.IntToDecimal | src/services/api.ts:384 | `n.toString()` for an integer: digits only for n >= 0; a minus sign then digits for n < 0 |
| Decimal.NatToDecimalValue | src/services/api.ts:150 | the digits of a natural number's numeral have that number as their value |
| Decimal.IntToDecimalRoundTrip | src/services/api.ts:384 | every integer's numeral parses back to that integer |
| Decimal.IntToDecimalInjective | src/services/api.ts:384 | distinct integers have distinct numerals |
| Seqs.FirstIndex | src/data/mockData.ts:250 | none exactly when no element matches; otherwise a matching index with no match before it |
| Seqs.Find | src/data/mockData.ts:250 | `find`: none exactly when no element matches; otherwise the first matching element |
| Seqs.Filter | src/data/mockData.ts:268 | `filter`, never longer than its input; its meaning is stated by FilterMembers, FilterAppend and FilterMultiplicity |
| Seqs.FilterMembers | src/data/mockData.ts:268 | `filter` keeps only matching elements of the input, and keeps every matching element |
| Seqs.FilterAppend | src/data/mockData.ts:268 | `filter` keeps relative order: it distributes over concatenation |
| Seqs.FilterMultiplicity | src/data/mockData.ts:268 | `filter` keeps each matching value as many times as it occurs, and no other value |
| Seqs.Take | src/pages/ProductDetails.tsx:42 | `slice(0, n)` is a prefix of length min(n, length) |
| Seqs.Includes | src/contexts/WishlistContext.tsx:76 | `includes` holds exactly for members |
| Seqs.FindUnique | src/data/mockData.ts:249-265 | when exactly one element matches, `find` returns it |
| Seqs.DistinctOnce | src/data/mockData.ts:73-246 | a list without repeats holds each value at most once |
| LocalStorage.IsAuthenticated | src/contexts/CartContext.tsx:24 | `!!localStorage.getItem('userToken')`: a truthy stored token; see Lookup and the stores' token-gate clauses |
| LocalStorage.Lookup | src/contexts/CartContext.tsx:24 | `getItem` gives the stored value exactly when the key is present |
| LocalStorage.Storage.constructor | src/contexts/AuthContext.tsx:31-32 | storage starts with the given entries |
| LocalStorage.Storage.GetItem | src/contexts/AuthContext.tsx:31-32 | reading a key is a lookup in the current entries |
| LocalStorage.Storage.SetItem | src/contexts/AuthContext.tsx:63-64 | writing sets that key and leaves every other entry as it was |
| LocalStorage.Storage.RemoveItem | src/contexts/AuthContext.tsx:105-106 | removing deletes that key only |
| Api.WithoutId | src/contexts/WishlistContext.tsx:69 | the filter dropping the records with one id; see WithoutIdMembers, WithoutIdKeepsTheRest and WithoutIdKeepsOrder |
| Api.WithoutIdMembers | src/contexts/WishlistContext.tsx:69 | dropping by id keeps only records of the list with another id, and all of them |
| Api.WithoutIdKeepsTheRest | src/contexts/WishlistContext.tsx:69 | dropping by id removes every record with that id and keeps every other record with its multiplicity |
| Api.WithoutIdKeepsOrder | src/contexts/WishlistContext.tsx:69 | dropping by id keeps order: it works piecewise over any split of the list |
| Api.BuildHeaders | src/services/api.ts:11-20 | the header keys are `Content-Type`, the caller's keys, and `token` exactly when a truthy token is stored; `Content-Type` defaults to JSON unless the caller overrides it; the stored token overrides a caller's `token` |
| Api.PrepareFetch | src/services/api.ts:22-25 | the URL is the base URL followed by the endpoint; verb and body pass through; with no caller headers, `token` is present exactly when signed in, and `Content-Type` is JSON |
| Api.Settle | src/services/api.ts:29-33 | an ok answer yields its body; a failed one yields an `Error` with the body's truthy message, or else the generic message |
| Api.SettledErrorHasMessage | src/services/api.ts:29-33 | every error raised by the access layer is an `Error` with a non-empty message |
| Api.SerializeQuery | src/services/api.ts:152 | `URLSearchParams.toString()` as `k=v` pairs joined by `&`; see RenderMarksQuery and SubcategoriesEndpoint |
| Api.Render | src/services/api.ts:153 | the path, then `?` and the query only when it has pairs; see RenderMarksQuery |
| Api.RenderMarksQuery | src/services/api.ts:153 | a `?` appears in the endpoint exactly when the query has at least one pair |
| Api.LimitPageQuery | src/services/api.ts:150-151 | `limit` comes first and `page` last, each present exactly when truthy, as its decimal text |
| Api.CategoriesTarget | src/services/api.ts:148-154 | `categoriesAPI.getAll`; see LimitPageQuery and CollectionEndpointBare |
| Api.BrandsTarget | src/services/api.ts:220-226 | `brandsAPI.getAll`; see LimitPageQuery and CollectionEndpointBare |
| Api.CollectionEndpointBare | src/services/api.ts:147-154 | the category and brand endpoints (`CategoriesTarget`, `BrandsTarget`) are the bare path exactly when neither parameter is truthy |
| Api.SubcategoriesEndpoint | src/services/api.ts:186 | `?limit=n` is added exactly when the limit is truthy, and renders like any other one-pair query |
| Api.DefinedPairs | src/services/api.ts:294-298 | a products query has at most one pair per parameter entry |
| Api.DefinedPairsAppend | src/services/api.ts:294-298 | the pairs of two runs of entries are the pairs of each, in order |
| Api.HasKeyAppend | src/services/api.ts:296 | a key is in two runs of pairs exactly when it is in one of them |
| Api.DefinedPairsKeys | src/services/api.ts:294-298 | a key appears in the query exactly when some entry with that key is defined |
| Api.ProductsTarget | src/services/api.ts:291-301 | the loop over `Object.entries` yields `/products` with one pair per defined entry, in entry order |
| Api.CartUpdateQuantityRequest | src/services/api.ts:381-385 | a `PUT` to `/cart/{id}` whose `count` text parses back to the quantity |
| Api.CashOrderRequest | src/services/api.ts:437-441 | a `POST` to `/orders/{cartId}` carrying the shipping address |
| Api.CheckoutSessionRequest | src/services/api.ts:443-447 | a `POST` to `/orders/checkout-session/{cartId}?url=` followed by the encoded return URL, carrying the address |
| Api.GetRequest | src/services/api.ts:22-25 | a call with no options: `GET` of the rendered target with no body; see PrepareFetch and RenderMarksQuery |
| Api.ProductByIdRequest | src/services/api.ts:304-305 | `productsAPI.getById`; see RequestsIdentifyTheirCall |
| Api.SigninRequest | src/services/api.ts:88-92 | `authAPI.signin`; see SessionEndpointsDistinct |
| Api.SignupRequest | src/services/api.ts:82-86 | `authAPI.signup`; see SessionEndpointsDistinct |
| Api.ForgotPasswordRequest | src/services/api.ts:94-98 | `authAPI.forgotPassword`; see SessionEndpointsDistinct |
| Api.ChangePasswordRequest | src/services/api.ts:112-116 | `authAPI.changePassword`; see SessionEndpointsDistinct |
| Api.WishlistAddRequest | src/services/api.ts:326-330 | `wishlistAPI.add`; see RequestsIdentifyTheirCall |
| Api.WishlistRemoveRequest | src/services/api.ts:332-335 | `wishlistAPI.remove`; see RequestsIdentifyTheirCall |
| Api.CartAddRequest | src/services/api.ts:375-379 | `cartAPI.add`; see RequestsIdentifyTheirCall |
| Api.CartRemoveRequest | src/services/api.ts:387-390 | `cartAPI.remove`; see RequestsIdentifyTheirCall and EndpointsIdentifyTheirTarget |
| Api.RequestsIdentifyTheirCall | src/services/api.ts:304-390 | the product, wishlist and cart request builders: each has its own verb and collection, the product id reads back from the endpoint, different ids give different requests, and a cart call never equals a wishlist call |
| Api.SessionEndpointsDistinct | src/services/api.ts:82-116 | the sign-in, sign-up, forgot-password and change-password builders address four pairwise different endpoints |
| Api.EndpointsIdentifyTheirTarget | src/services/api.ts:381-390 | different carts or products get different order and cart-line endpoints; a quantity update and a removal address the same line |
| CartContext.ReduceIsSum | src/contexts/CartContext.tsx:105-111 | the `reduce` from a starting value is that value plus the sum of the terms |
| CartContext.SumAppend | src/contexts/CartContext.tsx:105-111 | a sum over two runs of lines is the sum of their sums |
| CartContext.ItemCountNonNegative | src/contexts/CartContext.tsx:105-107 | with no negative counts, the item count is not negative |
| CartContext.ItemCountOf | src/contexts/CartContext.tsx:105-107 | `getItemCount` over a list of lines is the sum of their counts, and 0 for no lines |
| CartContext.SubtotalOf | src/contexts/CartContext.tsx:109-111 | `getSubtotal` over a list of lines is the sum of price times count, and 0 for no lines |
| CartContext.AggregatesOfAppendedLine | src/contexts/CartContext.tsx:105-111 | one more line raises the count by its count and the subtotal by its price times count |
| CartContext.CartStore.constructor | src/contexts/CartContext.tsx:20-22 | an empty cart with no id, not loading |
| CartContext.CartStore.ItemCount | src/contexts/CartContext.tsx:105-107 | the sum of the cached lines' counts |
| CartContext.CartStore.Subtotal | src/contexts/CartContext.tsx:109-111 | the sum of the cached lines' price times count |
| CartContext.CartStore.RefreshCart | src/contexts/CartContext.tsx:32-46 | without a token: no request and nothing changes; otherwise `GET /cart`; the answer's lines (or none) and its truthy id; after a failure, an empty cart with no id |
| CartContext.CartStore.AddItem | src/contexts/CartContext.tsx:48-61 | without a token: rejects with the login message and sends nothing; otherwise `POST /cart`; takes lines and id from the answer, or rejects with the call's error and keeps the cart |
| CartContext.CartStore.RemoveItem | src/contexts/CartContext.tsx:63-73 | silent without a token; otherwise `DELETE /cart/{id}`; takes the answer's lines, or rejects and keeps them; the cart id never changes |
| CartContext.CartStore.UpdateQuantity | src/contexts/CartContext.tsx:75-90 | silent without a token; a quantity of 0 or less sends a removal, otherwise a quantity update; takes the answer's lines or rejects; the cart id never changes |
| CartContext.CartStore.ClearCart | src/contexts/CartContext.tsx:92-103 | silent without a token; otherwise `DELETE /cart`; on success an empty cart with no id, on failure rejects and keeps the cart |
| WishlistContext.Ids | src/contexts/WishlistContext.tsx:37 | the ids, one per record, in the same order |
| WishlistContext.WishlistStore.constructor | src/contexts/WishlistContext.tsx:18-20 | empty records and ids, not loading |
| WishlistContext.WishlistStore.IsInWishlist | src/contexts/WishlistContext.tsx:75-77 | true exactly when the id is in the cached id list |
| WishlistContext.WishlistStore.RefreshWishlist | src/contexts/WishlistContext.tsx:30-44 | without a token: no request and nothing changes; otherwise `GET /wishlist`, then the answer's records with matching ids; a failure or a missing `data` empties both lists |
| WishlistContext.WishlistStore.AddItem | src/contexts/WishlistContext.tsx:46-60 | without a token: rejects and sends nothing; a failed add rejects and keeps both lists; a successful add is followed by a refresh, which leaves ids and records in step |
| WishlistContext.WishlistStore.RemoveItem | src/contexts/WishlistContext.tsx:62-73 | silent without a token; otherwise `DELETE /wishlist/{id}`; the ids become the server's list and the records with that id are dropped; a failure rejects and keeps both lists |
| WishlistContext.WishlistStore.ToggleItem | src/contexts/WishlistContext.tsx:79-85 | a listed id is removed: `DELETE /wishlist/{id}`, then the server's ids and the records without that id, or a rejection keeping both lists; an unlisted id is added: `POST /wishlist` then `GET /wishlist` and the refreshed records in step with the ids, or a rejection after the `POST` alone keeping both lists; without a token nothing is sent or changed |
| ProfileJson.HexRoundTrip | src/contexts/AuthContext.tsx:64 | every hex digit of a `\u` escape reads back as its value |
| ProfileJson.EscapeChar | src/contexts/AuthContext.tsx:64 | every character is written as at least one character of JSON text |
| ProfileJson.Unescape | src/contexts/AuthContext.tsx:36 | an escape that is read consumes at least one and at most all of the remaining characters |
| ProfileJson.DecodeEscapedChar | src/contexts/AuthContext.tsx:64 | every escaped character reads back as itself, whatever follows it |
| ProfileJson.DecodeEscaped | src/contexts/AuthContext.tsx:64 | an escaped string and its closing quote read back as that string, and leave the rest |
| ProfileJson.QuoteInjective | src/contexts/AuthContext.tsx:64 | distinct strings have distinct JSON texts |
| ProfileJson.EncodeUser | src/contexts/AuthContext.tsx:64 | the stored profile is a JSON object text |
| ProfileJson.ReadMemberRoundTrip | src/contexts/AuthContext.tsx:64 | a written member reads back as its value and the text after it |
| ProfileJson.ParseUser | src/contexts/AuthContext.tsx:36 | the reading of a stored profile that `JSON.parse` performs on the texts `EncodeUser` writes; see ParseEncodedUser |
| ProfileJson.ParseEncodedUser | src/contexts/AuthContext.tsx:36 | the stored profile parses back to the profile that was stored |
| ProfileJson.EncodeUserInjective | src/contexts/AuthContext.tsx:64 | distinct profiles are stored as distinct texts |
| AuthContext.ProfileOf | src/contexts/AuthContext.tsx:56-61 | the profile takes its name and role from the answer, and its id and email from the answer's email |
| AuthContext.Failure | src/contexts/AuthContext.tsx:68 | a failed result whose error is the `Error` message, or else the fallback |
| AuthContext.SignedIn | src/contexts/AuthContext.tsx:63-64 | a sign-in writes exactly the token and the encoded profile and leaves every other entry alone |
| AuthContext.AuthStore.constructor | src/contexts/AuthContext.tsx:27-28 | signed out and loading |
| AuthContext.AuthStore.Init | src/contexts/AuthContext.tsx:30-51 | a profile is restored only when both keys are truthy; an unparsable profile removes both keys; a restored profile is verified, and a failed verification signs out and removes both keys; loading ends in every case |
| AuthContext.AuthStore.Login | src/contexts/AuthContext.tsx:53-70 | sends the sign-in; on success stores token and profile and signs the profile in; on failure changes nothing and reports the message or `Login failed` |
| AuthContext.AuthStore.Register | src/contexts/AuthContext.tsx:72-101 | sends the sign-up with the password as its own confirmation; otherwise as login, with `Registration failed` |
| AuthContext.AuthStore.Logout | src/contexts/AuthContext.tsx:103-107 | signed out, with exactly the two session keys removed, so no token remains |
| AuthContext.AuthStore.ForgotPassword | src/contexts/AuthContext.tsx:109-117 | sends the reset request and reports success whatever the answer |
| AuthContext.AuthStore.ChangePassword | src/contexts/AuthContext.tsx:119-133 | sends the new password as its own confirmation; success, or the message or `Password change failed` |
| AuthContext.ReloadAfterLogin | src/contexts/AuthContext.tsx:30-70 | after a successful sign-in with a non-empty token, a fresh session over the same storage restores that profile if the token verifies, and is signed out otherwise |
| Pricing.Shipping | src/pages/Checkout.tsx:36 | no fee exactly above 200; otherwise 15 |
| Pricing.Total | src/pages/Checkout.tsx:37 | between the subtotal and the subtotal plus 15; equal to the subtotal exactly above 200 |
| Ui.ErrorToast | src/pages/Checkout.tsx:70-74 | the destructive `Error` toast with the given description |
| Forms.MinLength | src/pages/Checkout.tsx:18 | `min(n, message)`: one issue at the field exactly when the value is shorter than n |
| Forms.Check | src/pages/Register.tsx:20-23 | one issue at the path exactly when the condition fails |
| Forms.FieldMessage | src/pages/Checkout.tsx:18-20 | no message under a field exactly when it has no issue; otherwise one of its issues' messages |
| Forms.FieldMessageAppend | src/pages/Register.tsx:14-23 | issues reported before a field's first one decide its message |
| CheckoutPage.CheckoutIssues | src/pages/Checkout.tsx:17-21 | `checkoutSchema`, field by field; see CheckoutAcceptedIff |
| CheckoutPage.CheckoutAcceptedIff | src/pages/Checkout.tsx:17-21 | the address is accepted exactly when every field is long enough, and each field's message shows exactly when that field is too short |
| CheckoutPage.CheckoutTotals | src/pages/Checkout.tsx:35-37 | the checkout's subtotal, shipping and total; see CheckoutChargesCartTotal |
| CheckoutPage.CheckoutChargesCartTotal | src/pages/Checkout.tsx:35-37 | the checkout's subtotal, shipping and total for the cart's lines are those the cart page shows (src/pages/Cart.tsx:13-15), and the total is `Pricing.Total` of the subtotal |
| CheckoutPage.CheckoutScreen | src/pages/Checkout.tsx:80-137 | sign-in prompt exactly when signed out; empty cart exactly when no lines and no order placed; confirmation exactly after an order; otherwise the form |
| CheckoutPage.CheckoutPage.constructor | src/pages/Checkout.tsx:30-33 | online payment, not loading, no order, no toast, no redirect |
| CheckoutPage.CheckoutPage.SelectPaymentMethod | src/pages/Checkout.tsx:30 | only the payment method changes |
| CheckoutPage.CheckoutPage.Submit | src/pages/Checkout.tsx:43-78 | no cart id: only a toast, nothing sent and the cart untouched; cash: places the order, clears the cart, and completes only if both succeed; the cart is emptied with no id only after a successful clear, and keeps its lines and id when the order fails, when no token is stored (nothing is cleared) or when the clear fails; online: requests a session and sends the browser to its URL, leaving the cart untouched; each failure shows its message or the fallback |
| CartPage.CartScreen | src/pages/Cart.tsx:17-49 | sign-in prompt exactly when signed out; empty state exactly when signed in with no lines; otherwise the lines |
| CartPage.LineTotals | src/pages/Cart.tsx:118 | one total per line: price times count |
| CartPage.LineTotalsAddUp | src/pages/Cart.tsx:118 | the line totals shown add up to the subtotal |
| CartPage.CartSummary | src/pages/Cart.tsx:13-15 | the summary the cart page shows; see SummaryFacts and CheckoutPage.CheckoutChargesCartTotal |
| CartPage.SummaryFacts | src/pages/Cart.tsx:55-149 | the heading shows the item count; the line totals add up to the subtotal; total = subtotal + shipping; the free-shipping hint shows exactly up to 200, that is exactly when shipping is charged |
| CartPage.ShippingLabel | src/pages/Cart.tsx:137 | `Free` exactly for no fee; otherwise `EGP `, the fee and `.00` |
| CartPage.PressMinus | src/pages/Cart.tsx:103 | one less of the product: a removal at a count of 1 or less, else a quantity update; the cart then holds the answer's lines, or keeps its lines on a rejection; without a token nothing is sent or changed; the cart id never changes |
| CartPage.PressPlus | src/pages/Cart.tsx:111 | one more of the product: a quantity update (a removal only below a count of 0); the cart then holds the answer's lines, or keeps its lines on a rejection; without a token nothing is sent or changed; the cart id never changes |
| ProductsPage.GetParam | src/pages/Products.tsx:20-23 | `get` is null exactly when no pair has the name |
| ProductsPage.DeleteParam | src/pages/Products.tsx:81 | after `delete`, no pair has the name |
| ProductsPage.GetAfterDelete | src/pages/Products.tsx:81 | after `delete` the name reads as null and every other name reads as before |
| ProductsPage.GetAfterSet | src/pages/Products.tsx:79 | after `set` the name reads as the new value and every other name reads as before |
| ProductsPage.SetParam | src/pages/Products.tsx:79 | after `set` the name reads as the value set |
| ProductsPage.UpdateFilter | src/pages/Products.tsx:76-84 | the updated name reads back as the value given, an empty value meaning removed |
| ProductsPage.UpdateFilterReadsBack | src/pages/Products.tsx:76-84 | the updated filter reads back as the value given (empty meaning removed), and every other parameter is unchanged |
| ProductsPage.SearchQuery | src/pages/Products.tsx:20 | the `search` parameter, or `''` when it is absent or empty; see UpdateFilterReadsBack and ToggleCategory |
| ProductsPage.SelectedCategory | src/pages/Products.tsx:21 | the `category` parameter, or `''`; see ToggleCategory |
| ProductsPage.SelectedBrand | src/pages/Products.tsx:22 | the `brand` parameter, or `''`; see ToggleBrand |
| ProductsPage.SortBy | src/pages/Products.tsx:23 | the `sort` parameter, or `newest` when it is absent or empty; see SortIsNotAFilter |
| ProductsPage.HasActiveFilters | src/pages/Products.tsx:90 | a search, category or brand is set; see FilterActiveIff and SortIsNotAFilter |
| ProductsPage.SortIsNotAFilter | src/pages/Products.tsx:86-90 | choosing a sort order never turns filtering on or off; after `clearFilters` there is no filter and the order is `newest` |
| ProductsPage.FilterActiveIff | src/pages/Products.tsx:76-90 | `hasActiveFilters` after `updateFilter` of the search, category or brand: on whenever the value is non-empty; off exactly when the value is empty and the other two filters are empty |
| ProductsPage.ToggleCategory | src/pages/Products.tsx:144 | pressing the selected category clears it, pressing another selects it; search, brand and sort stay |
| ProductsPage.ToggleBrand | src/pages/Products.tsx:165 | pressing the selected brand clears it, pressing another selects it; search, category and sort stay |
| ProductsPage.SortParam | src/pages/Products.tsx:51-61 | `price` exactly for price-asc, `-price` exactly for price-desc, `-createdAt` for anything else |
| ProductsPage.AppendDefined | src/pages/Products.tsx:47-49 | adding a defined property adds its pair at the end of the query |
| ProductsPage.ProductsQuery | src/pages/Products.tsx:45-63 | the `/products` query is `limit=40`, then keyword, category and brand when set, then the sort key |
| ProductsPage.ResultsNoun | src/pages/Products.tsx:110 | singular exactly for one result |
| Header.NavActive | src/components/layout/Header.tsx:51 | the highlight test of a navigation link; see NavActiveIff |
| Header.NavActiveIff | src/components/layout/Header.tsx:51 | a link is highlighted exactly on its own path and on the paths below it |
| Header.ShopNotActiveOnLookalike | src/components/layout/Header.tsx:51 | `/productsx` does not highlight Shop; `/products` and `/products/abc` do |
| Header.AccountHref | src/components/layout/Header.tsx:71 | the account page exactly when signed in, else login |
| Header.BadgeText | src/components/layout/Header.tsx:87-89 | hidden exactly for a count of 0 or less; the count from 1 to 9; `9+` above |
| Header.BadgeTextReadsBack | src/components/layout/Header.tsx:89 | a shown count from 1 to 9 is one digit that reads back as the count |
| Header.HeaderBadge | src/components/layout/Header.tsx:21 | the badge shows the cart's item count: hidden exactly for 0 or less, the count's numeral from 1 to 9, and `9+` above |
| RegisterPage.LookaheadMatches | src/pages/Register.tsx:17 | one `(?=.*[…])` lookahead walked over the password; see LookaheadMatchesIff |
| RegisterPage.PasswordPattern | src/pages/Register.tsx:17 | the password regex, all three lookaheads; see LookaheadMatchesIff and PasswordMessage |
| RegisterPage.LookaheadMatchesIff | src/pages/Register.tsx:17 | each lookahead holds exactly when a character of its class occurs with no line break before it |
| RegisterPage.RegisterIssues | src/pages/Register.tsx:14-23 | accepted exactly when the name has 2 characters, the email is valid, the password has 6 characters and the three classes, the phone has 10 characters, and the confirmation matches |
| RegisterPage.MismatchShownOnConfirmation | src/pages/Register.tsx:20-23 | the mismatch message shows under the confirmation exactly when the passwords differ |
| RegisterPage.PasswordMessage | src/pages/Register.tsx:17 | a short password shows the length message; a long one lacking a class shows the pattern message |
| RegisterPage.PasswordChecksDecide | src/pages/Register.tsx:17 | when no other check reports under the password, the length check speaks first and the pattern check second |
| RegisterPage.PatternStopsAtLineBreak | src/pages/Register.tsx:17 | classes after a line break do not count |
| RegisterPage.SubmitRegister | src/pages/Register.tsx:38-49 | sends the sign-up; on success goes to the account page with the welcome toast and the profile signed in; on failure stays, shows the error and changes nothing |
| ChangePasswordPage.ChangePasswordIssues | src/pages/ChangePassword.tsx:14-21 | accepted exactly when a current password is given, the new one has 6 characters, and the confirmation matches |
| ChangePasswordPage.ChangePasswordMessages | src/pages/ChangePassword.tsx:14-21 | each field's message shows exactly when its rule fails |
| ChangePasswordPage.NoCharacterClassRule | src/pages/ChangePassword.tsx:16 | six lower-case letters are accepted here but refused at sign-up |
| ChangePasswordPage.ChangePasswordScreen | src/pages/ChangePassword.tsx:37-40 | a redirect to login exactly when signed out; the form otherwise |
| ChangePasswordPage.SubmitChangePassword | src/pages/ChangePassword.tsx:42-53 | sends the change; on success goes to the account page with its toast; on failure stays and shows the message or the fallback |
| ProductDetails.AllImages | src/pages/ProductDetails.tsx:76 | the cover, then the other images |
| ProductDetails.ShowArrows | src/pages/ProductDetails.tsx:142 | the arrows are drawn exactly when the product has images besides its cover |
| ProductDetails.Rem | src/pages/ProductDetails.tsx:106 | the remainder is below the divisor |
| ProductDetails.RemIsRemainder | src/pages/ProductDetails.tsx:106 | the dividend is a whole multiple of the divisor plus the remainder, which with the bound fixes the remainder |
| ProductDetails.JsRemainder | src/pages/ProductDetails.tsx:106 | `%` is the remainder of the magnitudes with the dividend's sign: below the divisor and non-negative for a non-negative dividend, its negation for a negative one |
| ProductDetails.NextIndex | src/pages/ProductDetails.tsx:105-107 | `(i + 1) % n` names an image for every index not below -1 |
| ProductDetails.PrevIndex | src/pages/ProductDetails.tsx:109-111 | `(i - 1 + n) % n` names an image for every index not below 1 - n |
| ProductDetails.CarouselStepsInRange | src/pages/ProductDetails.tsx:105-111 | from a shown image, next and previous lead to shown images, wrap at the ends, and undo each other |
| ProductDetails.RemSuccessor | src/pages/ProductDetails.tsx:106 | stepping after a remainder is the remainder of the step |
| ProductDetails.PressNextCycles | src/pages/ProductDetails.tsx:105-107 | k presses of next move k places round the images; as many presses as images return to the start |
| ProductDetails.StaleIndexNamesNoImage | src/pages/ProductDetails.tsx:25-52 | an example: keeping the index across products can leave it naming no image, with no arrows to move it back |
| ProductDetails.IndexAfterNavigation | src/pages/ProductDetails.tsx:25-52 | the corrected index names an image of the new product: its cover |
| ProductDetails.DisplayedPrice | src/pages/ProductDetails.tsx:196 | the discounted price when it is truthy, else the list price |
| ProductDetails.StockLabel | src/pages/ProductDetails.tsx:232 | `Out of Stock` exactly for a quantity of 0 or less |
| ProductDetails.StockLabelNamesQuantity | src/pages/ProductDetails.tsx:232 | the in-stock label names its quantity: two positive quantities with the same label are equal |
| ProductDetails.Related | src/pages/ProductDetails.tsx:42 | the first four of the answer's products other than the current one, or all of them when there are fewer: none is the current product, all are from the answer, in the answer's order |
| ProductDetails.RelatedQuery | src/pages/ProductDetails.tsx:38-41 | the `{ category, limit: 5 }` query of the related products, in that order; see ProductView.Load |
| ProductDetails.ProductView.constructor | src/pages/ProductDetails.tsx:22-25 | no product, no related ones, loading, index 0 |
| ProductDetails.ProductView.Load | src/pages/ProductDetails.tsx:27-52 | no slug: nothing; otherwise fetches the product and, when it has a category, up to 5 of that category for the related list; a failure keeps what was shown; loading ends; the image index is left as it was, even when it is beyond the new product's images |
| ProductDetails.ProductView.LoadFromCover | src/pages/ProductDetails.tsx:27-52 | corrected: as `Load`, and a loaded product is shown from its cover, so the index always names a shown image |
| ProductDetails.ProductView.NextImage | src/pages/ProductDetails.tsx:105-107 | from any non-negative index, even a stale one, the index lands on a shown image; from a shown image it moves to the next one, wrapping from the last to the first |
| ProductDetails.ProductView.PrevImage | src/pages/ProductDetails.tsx:109-111 | from any non-negative index the index lands on a shown image; from a shown image it moves to the previous one, wrapping from the first to the last |
| ProductDetails.ProductView.AddToCart | src/pages/ProductDetails.tsx:78-90 | signed out: only a sign-in toast; otherwise the cart's add, reported as added or failed; the cart then has the answer's lines and id, or keeps both when the add is refused or fails |
| ProductDetails.ProductView.ToggleWishlist | src/pages/ProductDetails.tsx:92-103 | signed out: only a sign-in toast; otherwise the wishlist toggle with a toast only when it fails, and the toggle's requests and resulting lists: removal gives the server's ids and the records without the product, addition gives the refreshed records in step with the ids, a failure keeps both lists |
| MockData.ProductIdsDistinct | src/data/mockData.ts:73-246 | no two products share an id |
| MockData.ProductSlugsDistinct | src/data/mockData.ts:73-246 | no two products share a slug |
| MockData.TableKeysDistinct | src/data/mockData.ts:3-71 | no two categories and no two brands share an id or a slug |
| MockData.CatalogueIntegrity | src/data/mockData.ts:73-246 | every product's category and brand exist; every struck-through price is above the price asked |
| MockData.ProductById | src/data/mockData.ts:249-250 | a product with that id from the table; none exactly when no product has it |
| MockData.ProductBySlug | src/data/mockData.ts:252-253 | a product with that slug; none exactly when no product has it |
| MockData.CategoryById | src/data/mockData.ts:255-256 | a category with that id; none exactly when none has it |
| MockData.CategoryBySlug | src/data/mockData.ts:258-259 | a category with that slug; none exactly when none has it |
| MockData.BrandById | src/data/mockData.ts:261-262 | a brand with that id; none exactly when none has it |
| MockData.BrandBySlug | src/data/mockData.ts:264-265 | a brand with that slug; none exactly when none has it |
| MockData.ProductLookupsRoundTrip | src/data/mockData.ts:249-253 | looking up a product's own id or slug finds that product |
| MockData.CategoryLookupsRoundTrip | src/data/mockData.ts:255-259 | looking up a category's own id or slug finds that category |
| MockData.BrandLookupsRoundTrip | src/data/mockData.ts:261-265 | looking up a brand's own id or slug finds that brand |
| MockData.ProductReferencesLookUp | src/data/mockData.ts:255-262 | every product's category and brand can be looked up |
| MockData.ProductsByCategory | src/data/mockData.ts:267-268 | only and all the table's products of that category |
| MockData.ProductsByBrand | src/data/mockData.ts:270-271 | only and all the table's products of that brand |
| MockData.FeaturedProducts | src/data/mockData.ts:273-274 | only and all the featured products |
| MockData.ProductsOccurOnce | src/data/mockData.ts:73-246 | no product occurs twice in the table |
| MockData.FiltersListEachMatchOnce | src/data/mockData.ts:267-274 | each matching product is listed exactly as often as in the table, and no other |
| MockData.FiltersKeepTableOrder | src/data/mockData.ts:267-274 | the lists keep table order over any split of the table |

## Left out

These parts of the source are not modelled, one per line:

- **Environment and data types:**
  - The network, `fetch`, HTTP status codes and JSON decoding of answers. Each call's outcome is an input (`Common.Response`).
  - The ordering and interleaving of asynchronous calls and React re-renders. Each operation runs to completion.
  - Floating point. Prices and counts are integers, as in the catalogue and the cart answers.
  - Strings are sequences of code points. JavaScript's UTF-16 lengths (the `min` checks) differ for characters outside the Basic Multilingual Plane.
- **Encoding:**
  - Percent-encoding by `URLSearchParams` and `encodeURIComponent`. Query pairs are joined as given. The checkout-session call takes the already encoded return URL.
  - `Number.prototype.toString` is modelled for integers only. The exponent form for very large magnitudes is not.
  - `JSON.parse` of a stored profile is a parameter `parse`. Its one concrete instance, `ProfileJson.ParseUser`, reads exactly the texts `EncodeUser` writes. It is not a full JSON parser.
- **Auth and storage:**
  - `AuthContext.AuthStore.Init`: `verifyToken` is not awaited in the source. The model applies its outcome before loading ends and does not model the interval in between.
  - API operations with no caller in the modelled code: `verifyResetCode`, `resetPassword`, the category, subcategory and brand `getById`, `getSubcategories`, the order lists and the address operations.
  - Zod's `.email()` check is a boolean parameter `emailValid`. Its address grammar is not modelled.
  - The object-level `refine` is taken to run even when a field check fails. Field checks only mark a parse dirty; they do not abort it.
- **Pages:**
  - The products page's handling of the product list's answer and its filter lists (`setProducts`, `setTotalResults`, categories and brands). It only stores what arrives. The query it sends is modelled.
  - The page-local `isLoading` flags of the register and change-password pages. They only disable the submit button.
  - Pages and components that only render data: `Orders.tsx`, the account, about, brand, category, wishlist and forgot-password pages, the product cards and grids, the layout, and `App.tsx`.
- **Mock catalogue:**
  - Descriptions, image URLs and colours. No lookup or filter reads them.
  - `MockData.FeaturedProducts` is not evaluated to a concrete list. Its contract and `MockData.FiltersListEachMatchOnce` state which products it holds and how often.

## Findings

| source | as written | input that shows it | evidently intended | confidence | as-written member | corrected member |
|---|---|---|---|---|---|---|
| src/pages/ProductDetails.tsx:25-52 | `currentImageIndex` is set to 0 only once, when the page mounts. Following a related product's link keeps the page mounted and runs the effect again for the new slug, and the index carries over. | Show the third image of a product with three images (index 2), then open a related product with only a cover. The index 2 names no image, and with one image no arrows are drawn to move it. | The carousel starts at the cover of each product it loads. | not executed | ProductDetails.ProductView.Load (shown by ProductDetails.StaleIndexNamesNoImage) | ProductDetails.ProductView.LoadFromCover (with ProductDetails.IndexAfterNavigation) |
