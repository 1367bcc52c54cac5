# Storefront front-end rules, modelled in Dafny

This project models the small sequential rules inside the React components
of an e-commerce storefront front end:

- **ProductList**: the catalogue carousel. The product list is cut into
  pages of three. Every page after the first is padded with empty cards to
  three slots. One CSS keyframe rule `page{i}to{j}` is made for every
  ordered pair of distinct pages. A page change shows the new page and
  plays `page{old}to{new}`.
- **Checkout**: the checkout page. The cart holds one entry per unit. It is
  folded into a per-product count table. The order is purchasable when the
  cart is non-empty and no count exceeds the product's stock. The page also
  computes the total and the member discount, runs "reduce one" (drop the
  first entry of a product), and builds the order payload.
- **AdminProducts**: the admin console's search and pagination state. A
  search dispatches on the live search kind. A page change dispatches on
  the committed search. Only the "all" kind is served. Pages hold five
  products.
- **ShoppingCart**: the cart drawer's rows, total, count badge and drawer
  buttons.
- **Notices**: the notice accordion's single expanded id.
- **Payment**: the messages that the payment intent's status and a
  confirmation error select, and the submit sequence.
- **App**: the shell's one drawer value, the wishlist and the cart.

Each component's state becomes a class whose methods are the component's
handlers and effects. Pure rules become functions and lemmas. Every backend
or payment SDK call is a `Fetch<T>` parameter: `Ok(data)` or
`Failed(message)`. Each handler runs atomically on that outcome. A handler
returns the request it issues (page number, payload, delete or wishlist
call), so "no request is made" can be stated.

`Math.round` is modelled on exact reals as `floor(x + 1/2)`, which is
JavaScript's rounding rule (halves round up). Prices are integers.
Animation names such as `page2to3` are the structured value
`Transition(2, 3)`, not strings.

Behaviour modelled as the code has it:

- The admin page serves only the "all" kind. Name, stock-range and category
  searches are errors ("No Search Found.") and make no request.
- No response is rejected as stale. A successful search does not clear an
  earlier error message.
- An empty category list sets the selected category to `undefined`
  (`None`).
- When the checkout page's load fails, its loading flag stays set, so
  Confirm stays disabled.
- "Reduce one" on a product that is not in the cart throws inside the
  handler. The handler swallows the error: no delete call is made and the
  cart is unchanged.
- On the notice page, the route-sync effect sets the expanded id to
  `Number(noticeId)`. With no parameter this is `NaN`, not `null`. Both
  expand nothing, and the model keeps the two apart.
- `src/App.tsx` renders `ShoppingCart` without its `handleDeleteItem`
  prop. The drawer is modelled from `ShoppingCart.tsx` alone.
- The root route's outlet context (`src/App.tsx:57-59,63`) holds only
  `handleAddWishItem`. The checkout and notice pages read more from it,
  and the model makes each missing entry a constructor argument instead of
  assuming the declared context type:
  - `userId` is an `Option<int>`. With the root route it is `None`
    (`undefined`), and the order payload then has no user id.
  - `deleteWired` says whether `handleDeleteCart` exists. Without it, the
    call in "reduce one" throws before the cart is filtered, the handler
    swallows the error, and the cart is unchanged. "Move to wishlist" still
    requests the wishlist entry.
  - `errorWired` says whether `setError` exists. Without it, a failed
    notice load reports nothing to the parent.

## Model

| member | source | states |
|---|---|---|
| Types.Round | src/Component/CheckoutPage.tsx:160-162 | the result is the nearest integer to x, halves rounded up |
| Types.EffectivePriceBounds | src/Component/Sub-Component/ShoppingCart.tsx:64-66 | with a non-negative list price and a discount in 0..1, the price charged lies between 0 and the list price |
| Types.EffectivePrice | src/Component/CheckoutPage.tsx:159-165 | the list price when not on sale; a discount factor of 1 charges the list price, one of 0 charges nothing (the cart drawer's rows use the same rule) |
| Types.DiscountBelowPrice | src/Component/CheckoutPage.tsx:168-170 | rounding amount·discount with a discount in 0..1 stays within 0..amount |
| Types.CeilDiv | src/Component/Admin-Sub/AdminProductPage.tsx:61 | r is the least integer with a <= r·b; it is 0 exactly for a = 0 |
| ProductList.ShiftPercent | src/Component/Sub-Component/ProductList.tsx:77 | only page 1 is unshifted, and no page from 1 on is shifted rightwards |
| ProductList.ShiftOrdered | src/Component/Sub-Component/ProductList.tsx:45-47 | pages q and p differ in shift by (q−p)·100 percent, so a later page is always shifted further |
| ProductList.ChunksAppend | src/Component/Sub-Component/ProductList.tsx:25-35 | cutting the list at a multiple of three cuts the grouping at the same place |
| ProductList.ChunksFlush | src/Component/Sub-Component/ProductList.tsx:30-38 | flushing a buffer of 1 to 3 products after whole pages adds exactly that buffer as one page |
| ProductList.DivideIntoPages | src/Component/Sub-Component/ProductList.tsx:25-38 | the counter-and-buffer loop produces exactly the groups of three (Chunks) |
| ProductList.FlattenChunks | src/Component/Sub-Component/ProductList.tsx:25-38 | concatenating the groups in order gives back the product list |
| ProductList.ChunkSizes | src/Component/Sub-Component/ProductList.tsx:30-38 | every group has 1 to 3 products, and every group but the last has exactly 3 |
| ProductList.ChunkCount | src/Component/Sub-Component/ProductList.tsx:36-38 | the number of pages is ceil(n/3), so an empty list has no pages |
| ProductList.PadGroup | src/Component/Sub-Component/ProductList.tsx:63-70 | the group's products in order, followed by placeholders up to 3 slots unless the page index is 0 |
| ProductList.PaddedPageShape | src/Component/Sub-Component/ProductList.tsx:63-70 | every page after the first has exactly 3 slots; the first page has no placeholder |
| ProductList.GenerateKeyframes | src/Component/Sub-Component/ProductList.tsx:40-51 | the nested loops with `continue` on i = j produce AllKeyframes(pages) |
| ProductList.KeyframeCount | src/Component/Sub-Component/ProductList.tsx:42-51 | there are pages·(pages−1) keyframe rules |
| ProductList.KeyframesExactly | src/Component/Sub-Component/ProductList.tsx:42-51 | a rule is generated iff it is `page{i}to{j}` with i ≠ j both in 1..pages, moving from page i's shift to page j's |
| ProductList.TransitionHasKeyframe | src/Component/Sub-Component/ProductList.tsx:20-51 | the animation a page change names has a rule iff both pages exist and differ |
| ProductList.Render | src/Component/Sub-Component/ProductList.tsx:18-97 | a missing list renders nothing; otherwise ceil(n/3) pages, each a padded group, every page after the first with 3 slots, and all keyframe rules |
| ProductList.ProductListView.constructor | src/Component/Sub-Component/ProductList.tsx:15-16 | the carousel starts on page 1 with no animation |
| ProductList.ProductListView.Shift | src/Component/Sub-Component/ProductList.tsx:77 | the pages are unshifted exactly while page 1 is shown |
| ProductList.ProductListView.HandleChange | src/Component/Sub-Component/ProductList.tsx:20-23 | the current page becomes the new value and the animation becomes `page{old}to{new}`, ending at the new page's shift |
| Checkout.FirstIndex | src/Component/CheckoutPage.tsx:76 | none iff no entry has the product; otherwise the index of the first entry that has it |
| Checkout.FirstIndexIs | src/Component/CheckoutPage.tsx:76 | an entry of the product with none before it is the one the search finds |
| Checkout.Aggregate | src/Component/CheckoutPage.tsx:99-106 | the aggregation loop builds the table Tally(cart) |
| Checkout.TallyCounts | src/Component/CheckoutPage.tsx:99-106 | the table has a line iff the product is in the cart; its count is the product's number of entries; its record comes from the product's first entry |
| Checkout.TallyAmounts | src/Component/CheckoutPage.tsx:99-106 | a line exists iff the count is positive, and it holds the product's number of entries |
| Checkout.TallyFirstProduct | src/Component/CheckoutPage.tsx:99-106 | a line's product record is the one carried by the product's first entry |
| Checkout.TallyStepUnits | src/Component/CheckoutPage.tsx:100-105 | each entry visited adds exactly one unit to the table |
| Checkout.CountPositive | src/Component/CheckoutPage.tsx:99-106 | a product's count is positive iff some entry carries it |
| Checkout.TotalUnitsRemove | src/Component/CheckoutPage.tsx:99-106 | the sum of the table's counts does not depend on which line is taken first |
| Checkout.TotalUnitsIsCartLength | src/Component/CheckoutPage.tsx:99-106 | the table's counts add up to the cart length |
| Checkout.PurchasableOnCart | src/Component/CheckoutPage.tsx:108-112 | purchasable iff the cart is non-empty and no product has more entries than its stock value |
| Checkout.Purchasable | src/Component/CheckoutPage.tsx:108-190 | a purchasable cart is non-empty and every line of its table is within that product's stock |
| Checkout.IsAblePurchase | src/Component/CheckoutPage.tsx:108-190 | the flag cleared by an over-stock line and then by an empty cart equals Purchasable(cart) |
| Checkout.CartTotalAppend | src/Component/CheckoutPage.tsx:157-166 | the total of two carts joined is the sum of their totals |
| Checkout.CartTotalNonNegative | src/Component/CheckoutPage.tsx:157-166 | with non-negative prices and discounts in 0..1 the total is never negative |
| Checkout.TotalAmount | src/Component/CheckoutPage.tsx:157-166 | the accumulator equals the sum over every cart entry of its effective price |
| Checkout.DiscountedAmount | src/Component/CheckoutPage.tsx:168-170 | 0 without a user record; with a discount in 0..1 it stays between 0 and the total; a discount of 1 charges the total |
| Checkout.FindCartId | src/Component/CheckoutPage.tsx:75-78 | none iff no entry has the product; otherwise the entry id of the first entry that has it |
| Checkout.WithoutEntry | src/Component/CheckoutPage.tsx:93 | an entry is kept iff it is in the cart and its id differs from the removed id; the cart shrinks when some entry has that id |
| Checkout.WithoutEntryAppend | src/Component/CheckoutPage.tsx:93 | filtering a joined cart filters each part in place, so the kept entries stay in cart order |
| Checkout.WithoutEntryAt | src/Component/CheckoutPage.tsx:93 | with unique entry ids, removing the id at index i leaves cart[..i] + cart[i+1..] |
| Checkout.RemoveAtCount | src/Component/CheckoutPage.tsx:93 | dropping one entry lowers its product's count by one and no other count |
| Checkout.RemoveAtTotal | src/Component/CheckoutPage.tsx:93 | dropping one entry lowers the total by its price |
| Checkout.ReduceOneRemovesFirst | src/Component/CheckoutPage.tsx:89-93 | when entry ids are unique in the cart, reduce-one drops exactly the first entry of the product and keeps the rest in order; counts and total move accordingly; an absent product leaves the cart unchanged |
| Checkout.ReduceOne | src/Component/CheckoutPage.tsx:89-93 | an absent product leaves the cart unchanged; otherwise the cart shrinks and keeps exactly the entries whose id differs from the first matching entry's id |
| Checkout.ProductIds | src/Component/CheckoutPage.tsx:174 | the product id of each entry, in cart order |
| Checkout.ProductIdsMatchTable | src/Component/CheckoutPage.tsx:174 | each product occurs in the id list as often as the table counts it |
| Checkout.ConfirmPayload | src/Component/CheckoutPage.tsx:172-180 | the payload carries the page's user id (none when the context has none), the address, the ids in cart order and the discounted total |
| Checkout.ConfirmRoute | src/Component/CheckoutPage.tsx:181-184 | a successful order goes to its own page; a failure goes home |
| Checkout.CheckoutPage.constructor | src/Component/CheckoutPage.tsx:51-56 | empty cart, no user, empty address, not loading; the user id and whether the delete callback exists come from the parent route's context |
| Checkout.CheckoutPage.ConfirmDisabled | src/Component/CheckoutPage.tsx:255 | Confirm is disabled while loading; when enabled the cart is non-empty and within stock |
| Checkout.CheckoutPage.Load | src/Component/CheckoutPage.tsx:59-73 | the user is requested only after the cart arrives; both are stored only when both succeed; otherwise loading stays set and Confirm stays disabled |
| Checkout.CheckoutPage.SetAddress | src/Component/CheckoutPage.tsx:242 | the address becomes the typed value |
| Checkout.CheckoutPage.HandleReduceAmount | src/Component/CheckoutPage.tsx:89-97 | with the delete callback wired, the delete call gets the first entry's id, if any, and the cart becomes ReduceOne(cart, product); without it no delete call is made and the cart is unchanged |
| Checkout.CheckoutPage.HandleCartToWish | src/Component/CheckoutPage.tsx:80-87 | reduce one as HandleReduceAmount does (nothing changes when the delete callback is missing), then always request a wishlist entry for the product |
| Checkout.CheckoutPage.HandleConfirm | src/Component/CheckoutPage.tsx:172-186 | posts the payload with the ids in cart order and the discounted total, then navigates as ConfirmRoute says |
| AdminProducts.AdminProductPage.constructor | src/Component/Admin-Sub/AdminProductPage.tsx:28-37 | the initial state: kind "name", page 0 of 0, no committed search, no error |
| AdminProducts.AdminProductPage.ShowsPagination | src/Component/Admin-Sub/AdminProductPage.tsx:157 | the pager is shown exactly while there is at least one page |
| AdminProducts.AdminProductPage.LoadCategories | src/Component/Admin-Sub/AdminProductPage.tsx:38-52 | on success the categories are stored and the first becomes selected (undefined for an empty list); on failure the category error is set; loading ends false |
| AdminProducts.AdminProductPage.SetKind | src/Component/Admin-Sub/AdminProductPage.tsx:126 | only the live kind changes |
| AdminProducts.AdminProductPage.SetSearchInput | src/Component/Admin-Sub/AdminProductPage.tsx:138 | only the live input changes |
| AdminProducts.AdminProductPage.SelectCategory | src/Component/Admin-Sub/AdminProductPage.tsx:145 | only the selected category changes |
| AdminProducts.AdminProductPage.HandleSearch | src/Component/Admin-Sub/AdminProductPage.tsx:55-74 | "all" requests page 1; on success the products are shown, totalPage = ceil(count/5), the page is 1 and {kind, input} is committed, and the pager shows iff count > 0; any other kind sets "No Search Found." without a request; a failure sets its message; otherwise nothing changes; loading ends false |
| AdminProducts.AdminProductPage.HandleChange | src/Component/Admin-Sub/AdminProductPage.tsx:76-98 | dispatches on the committed search: under "all" it requests the new page and on success shows it; otherwise the page error is set without a request; the page count and committed search never change; loading ends false |
| AdminProducts.PageChangeIgnoresLiveInput | src/Component/Admin-Sub/AdminProductPage.tsx:82 | editing the live kind and input before a page change does not alter what it requests |
| ShoppingCart.Rows | src/Component/Sub-Component/ShoppingCart.tsx:35-70 | one row per entry in order: primary style iff the index is even, the effective price, and a delete with (entry id, "cart") |
| ShoppingCart.RowStylesAlternate | src/Component/Sub-Component/ShoppingCart.tsx:38-41 | neighbouring rows never share a style |
| ShoppingCart.RowsPrefix | src/Component/Sub-Component/ShoppingCart.tsx:35 | the rows of a cart prefix are a prefix of the rows |
| ShoppingCart.TotalAmount | src/Component/Sub-Component/ShoppingCart.tsx:72-78 | the accumulated total is the sum of the prices the rows show, and equals the checkout total |
| ShoppingCart.DrawerTotalIsCheckoutTotal | src/Component/Sub-Component/ShoppingCart.tsx:63-78 | the drawer's displayed sum equals the checkout page's total for the same cart |
| ShoppingCart.Badge | src/Component/Sub-Component/ShoppingCart.tsx:89-93 | the badge shows iff the cart is non-empty, and it displays the cart length |
| ShoppingCart.Effects | src/Component/Sub-Component/ShoppingCart.tsx:27-107 | every button first sets the drawer: to "cart" for the cart icon, to null otherwise; going to a product or to checkout then navigates there |
| ShoppingCart.DrawerAfterEvent | src/Component/Sub-Component/ShoppingCart.tsx:96-107 | after any button only the cart icon leaves a drawer open, whatever was open before |
| Notices.NumberOf | src/Component/Notice-Sub/NoticePage.tsx:34 | `Number` of a route parameter is never null; of undefined it is NaN; of "" it is 0 |
| Notices.InitialRef | src/Component/Notice-Sub/NoticePage.tsx:13-15 | a missing or empty parameter starts collapsed (null); any other starts as Number(noticeId) |
| Notices.Toggle | src/Component/Notice-Sub/NoticePage.tsx:38 | the new value is null exactly when x was the expanded id; otherwise it is x; it is never NaN |
| Notices.Expanded | src/Component/Notice-Sub/NoticePage.tsx:45 | a notice is expanded only when the expanded value is that notice's number; null and NaN expand nothing |
| Notices.DecimalString | src/Component/Notice-Sub/NoticePage.tsx:34 | a rendered id is a non-empty digit string without a leading zero |
| Notices.DecimalRoundTrip | src/Component/Notice-Sub/NoticePage.tsx:13-34 | Number of an id's decimal rendering is that id, both as the initial value and on route change, so a rendered id expands that notice |
| Notices.ToggleFlips | src/Component/Notice-Sub/NoticePage.tsx:38 | toggling x expands x iff it was collapsed, and collapses every other notice |
| Notices.ExpandedFlags | src/Component/Notice-Sub/NoticePage.tsx:41-45 | a notice is rendered expanded iff its id equals the expanded id |
| Notices.AtMostOneExpanded | src/Component/Notice-Sub/NoticePage.tsx:41-45 | with unique ids at most one notice is expanded, and none is for null or NaN |
| Notices.DisplayDate | src/Component/Notice-Sub/NoticePage.tsx:52 | the shown date is the first ten characters of createdAt (all of it when shorter) |
| Notices.NoticePage.constructor | src/Component/Notice-Sub/NoticePage.tsx:11-15 | empty list, expanded id from the route as InitialRef says; whether the parent's error callback exists comes from the route's context |
| Notices.NoticePage.LoadNotices | src/Component/Notice-Sub/NoticePage.tsx:18-31 | on success the list is stored; on failure the list is kept, and the parent gets the back-home error only when its error callback is wired |
| Notices.NoticePage.RouteChanged | src/Component/Notice-Sub/NoticePage.tsx:33-35 | the expanded id becomes Number(noticeId); with no parameter that is NaN and nothing is expanded |
| Notices.NoticePage.HandleExpand | src/Component/Notice-Sub/NoticePage.tsx:37-39 | the expanded id is toggled: x becomes expanded iff it was not, and every other notice is collapsed |
| Payment.IntentMessage | src/Component/Payment-Sub/Payment.tsx:32-45 | each of the three statuses maps to its message; any other status or a missing intent maps to "Something went wrong." |
| Payment.IntentMessageDistinguishes | src/Component/Payment-Sub/Payment.tsx:32-45 | each fixed message is shown iff its own status was retrieved |
| Payment.ErrorMessage | src/Component/Payment-Sub/Payment.tsx:62-67 | card and validation errors show their own non-empty message, else leave the message; any other type shows "An unexpected error occurred." |
| Payment.StatusCheck | src/Component/Payment-Sub/Payment.tsx:19-50 | without the SDK, a client secret or a resolved retrieval the message is unchanged; otherwise it is the status's message |
| Payment.SubmitDisabled | src/Component/Payment-Sub/Payment.tsx:84 | the button is enabled iff not loading and both the SDK and its elements are present |
| Payment.PaymentForm.constructor | src/Component/Payment-Sub/Payment.tsx:15-16 | no message, not loading |
| Payment.PaymentForm.CheckStatus | src/Component/Payment-Sub/Payment.tsx:19-50 | the message becomes what StatusCheck selects |
| Payment.PaymentForm.HandleSubmit | src/Component/Payment-Sub/Payment.tsx:52-76 | nothing without the SDK and elements; otherwise the message follows ErrorMessage, loading ends false, and mark-paid is requested whether or not an error was reported |
| App.OpenDrawers | src/App.tsx:22 | a drawer value opens at most one drawer, and none exactly for null |
| App.AppState.constructor | src/App.tsx:25-28 | user 2, empty wishlist and cart, no drawer |
| App.AppState.AtMostOneOpen | src/App.tsx:62-71 | no two of the nav, wish and cart flags hold at once |
| App.AppState.NavOpen | src/App.tsx:62 | the navigation drawer is open only when the drawer value opens exactly one drawer, which is neither the wishlist nor the cart |
| App.AppState.WishOpen | src/App.tsx:65 | the wishlist drawer is open only when the drawer value opens exactly one drawer, which is neither the navigation nor the cart |
| App.AppState.CartOpen | src/App.tsx:71 | the cart drawer is open only when the drawer value opens exactly one drawer, which is neither the navigation nor the wishlist |
| App.AppState.SetDrawer | src/App.tsx:28 | the drawer becomes the given value |
| App.AppState.Load | src/App.tsx:30-42 | the cart is requested only after the wishlist arrived and was stored; a failure stops the sequence |
| App.AppState.HandleAddWishItem | src/App.tsx:44-55 | on success the wishlist becomes prev ++ [data] and the wish drawer opens; on failure nothing changes |
| App.InitialLoad | src/App.tsx:26-42 | from the initial state, a failed wishlist fetch leaves the wishlist and the cart empty, and no drawer opens |

## Left out

- All HTTP calls, the payment SDK and the identity provider: each call is an outcome parameter. A slow or never-resolving call, and two handlers whose calls interleave, are not modelled; each handler is atomic.
- Types.Round: works on exact reals; IEEE double rounding of `price * discount` is not modelled.
- Rendering, CSS classes, keyframe text and React re-render timing: only the values the markup is built from are modelled.
- The `isLoading = true` moment inside a handler: atomic handlers only show the state after the handler ends.
- Object.values order in the checkout table (ascending product id): only the order-insensitive purchasability flag reads it.
- The discount rows of the checkout table, shown when a user's discount is below 1: presentation only.
- The page reload after the order is marked paid, and the mark-paid outcome: both only affect the browser window.
- Notices.NumberOf: parses only digit strings (empty gives 0). Other numerals JavaScript accepts (signs, spaces, fractions, exponents, hex) give NaN here.
- The request URLs of the checkout load (`/cart/info/{userId}`, `/user/{userId}`): the load is given its two outcomes, so a URL built from an undefined user id is not modelled.
- The notice slide, navigation bar and wishlist drawer components: they are not part of this model.
- `src/index.tsx`, `GoogleMap.tsx` and `ProductCard.tsx`: route and provider configuration, a maps embedding and pure presentation.
- Stale-response rejection, stock-range validation, and name/category/stock searches: the code does not implement them.
