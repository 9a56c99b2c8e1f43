# Storefront core in Dafny

A model of the core of a small full-stack storefront. The model has four parts:

- **The data-access layer** (`DatabaseStorage`). Users, categories, products, reviews, cart rows,
  wishlist rows, orders, order items and coupons are each kept in in-memory tables, held by the
  class `Storage.Store`.
- **The request handlers** of the HTTP API (`Routes`):
  - admin gating;
  - the caller-scoped writes;
  - the cart quantity guard;
  - order read scoping and the per-order access check;
  - the coupon validity cascade;
  - order placement.
- **The client's price arithmetic** and the checkout page: subtotal, shipping, 8% tax, the
  shipping → payment → review → success step machine, and the payload it posts (`Pricing`,
  `ShoppingCart`, `Checkout`).
- **The small client helpers**:
  - the product page's quantity clamp, wishlist toggle, savings line, related products and review
    guard;
  - the product card's average rating, discount and stars;
  - the admin order table's search filter and badges;
  - the order history's status colours and labels.

How the model works:

- **Tables** are sequences of rows in insertion order. Each serial column is a counter.
- **SQL shapes:**
  - `WHERE` is `Collections.Filter`.
  - `ORDER BY createdAt DESC` is `Collections.Reverse` of insertion order.
  - An inner join with `products` drops rows whose product is gone.
- **Store invariant.** `Store.Valid` holds the table invariants every write keeps:
  - user ids are unique;
  - there is at most one cart row per (userId, productId);
  - ids ascend;
  - every id lies below its counter.
- **Inputs.** The caller's subject id, the clock, the generated order number and each schema
  validator are parameters. A validator is a predicate on the record it would accept.
- **Money** is exact `real`.

One place where the code's behaviour differs from the description of the coupon route:

- The description says the limit applies whenever `maxUses` "is set".
- The code tests `coupon.maxUses && ...`, so a `maxUses` of 0 also means unlimited.
- The model follows the code (`Routes.LimitReached`, `Routes.NoLimitWithoutMaxUses`).

## Model

| member | source | states |
|---|---|---|
| `Collections.Filter` | client/src/components/admin/order-management.tsx:132-140 | The result is no longer than the input. Every kept element satisfies the predicate and comes from the input. Every input element that satisfies it is kept. |
| `Collections.FirstIndex` | server/storage.ts:363-366 | The index of an element satisfying the predicate, with no earlier one satisfying it; none exactly when no element does. |
| `Collections.Find` | client/src/pages/product-detail.tsx:127-130 | The element found satisfies the predicate and is in the sequence; none exactly when nothing satisfies it. |
| `Collections.Reverse` | server/storage.ts:327-332 | Newest-first order: same length, and position i holds the element inserted i-th from the end. |
| `Collections.ReverseElements` | server/storage.ts:426-431 | Reading newest first loses and adds no row. |
| `Collections.FilterIsSubseq` | client/src/components/admin/order-management.tsx:132 | A filtered list is a subsequence of the original, in its order. |
| `Collections.FilterAppend` | server/storage.ts:477-486 | Filtering distributes over an append. |
| `Collections.FilterAll` | client/src/components/admin/order-management.tsx:133-137 | A filter that every element passes keeps the sequence unchanged. |
| `Collections.FilterNone` | server/storage.ts:396-398 | A filter that no element passes yields nothing. |
| `Collections.FilterPairwise` | server/storage.ts:392-398 | Deleting rows keeps any relation that held between every earlier and later row, such as ascending ids and one row per pair. |
| `Collections.FilterReverse` | server/storage.ts:497-501 | Filtering commutes with the newest-first order. |
| `Collections.PairwiseAppend` | server/storage.ts:376-379 | Appending a row that relates to every earlier row keeps the relation. |
| `Text.TrimStart` | client/src/pages/checkout.tsx:172 | The leading white space in the JavaScript sense is removed, nothing else; the result does not start with white space. |
| `Text.TrimEnd` | client/src/pages/checkout.tsx:172 | The trailing white space is removed, nothing else; the result does not end with white space. |
| `Text.TrimEmptyIff` | client/src/pages/checkout.tsx:172 | `s.trim()` is empty exactly when every character of `s` is white space. |
| `Text.ToLower` | client/src/components/admin/order-management.tsx:101 | Same length; each character lower-cased. |
| `Text.ToUpper` | server/routes.ts:406 | Same length; each character upper-cased. |
| `Text.ToLowerIdempotent` | client/src/components/admin/order-management.tsx:101 | Lower-casing twice is lower-casing once. |
| `Text.ToUpperIdempotent` | server/routes.ts:406 | Upper-casing twice is upper-casing once. |
| `Text.ContainsEmpty` | client/src/components/admin/order-management.tsx:134 | Every string includes the empty query. |
| `Text.DigitChar` | client/src/pages/product-detail.tsx:171 | A digit is rendered as a character from '0' to '9'. |
| `Text.NatToString` | client/src/pages/product-detail.tsx:171 | `n.toString()` is non-empty and consists of decimal digits. |
| `Text.NatToStringRoundTrip` | client/src/pages/product-detail.tsx:171 | Reading back the decimal digits written for n gives n. |
| `Pricing.CartSubtotal` | client/src/pages/checkout.tsx:151-156 | The subtotal is 0 before the cart loads and for an empty cart. |
| `Pricing.SubtotalSingleton` | client/src/components/shopping-cart.tsx:154-159 | One line contributes its price times its quantity. |
| `Pricing.SubtotalAppend` | client/src/components/shopping-cart.tsx:154-159 | The subtotal of two carts put together is the sum of their subtotals. With the singleton lemma, this makes it Σ price × quantity. |
| `Pricing.SubtotalNonNegative` | client/src/pages/checkout.tsx:151-156 | Non-negative prices and quantities give a non-negative subtotal. |
| `Pricing.Shipping` | client/src/pages/checkout.tsx:158-161 | Shipping is 0 exactly when the subtotal is strictly above 50, and otherwise 9.99. |
| `Pricing.ThresholdIsStrict` | client/src/components/shopping-cart.tsx:161-164 | A subtotal of exactly 50 pays 9.99 shipping; every amount above 50 ships free. |
| `ShoppingCart.QuantityUpdate` | client/src/components/shopping-cart.tsx:137-142 | No update is sent when current + delta < 1; otherwise exactly current + delta is requested, which is at least 1. |
| `ShoppingCart.EnabledDecrementUpdates` | client/src/components/shopping-cart.tsx:274 | An enabled minus button always sends an update, for one less. |
| `ShoppingCart.EnabledIncrementWithinStock` | client/src/components/shopping-cart.tsx:286 | An enabled plus button sends an update for one more, and never beyond the stock. |
| `ShoppingCart.CartTotal` | client/src/components/shopping-cart.tsx:166-168 | The drawer total is the subtotal above 50, and the subtotal plus 9.99 otherwise; no tax. |
| `ShoppingCart.FreeShippingHint` | client/src/components/shopping-cart.tsx:349-352 | The hint is shown exactly when shipping is charged, and it gives the non-negative distance 50 − subtotal. |
| `ShoppingCart.HintAtThreshold` | client/src/components/shopping-cart.tsx:349-352 | At exactly 50 the hint asks for $0.00 more although shipping is still charged. |
| `Checkout.TotalClosedForm` | client/src/pages/checkout.tsx:163-169 | The total is subtotal × 1.08 above the threshold, and subtotal × 1.08 + 9.99 at or below it. |
| `Checkout.TotalIsDrawerTotalPlusTax` | client/src/pages/checkout.tsx:167-169 | The checkout total is the cart drawer's total plus the 8% tax. |
| `Checkout.TotalNotMonotone` | client/src/pages/checkout.tsx:158-169 | A larger cart can cost less: 50.00 totals 63.99, while 50.01 totals 54.0108. |
| `Checkout.ValidShippingAddressIff` | client/src/pages/checkout.tsx:171-173 | The address passes exactly when each of its five fields holds a character that is not white space. |
| `Checkout.FilledIff` | client/src/pages/checkout.tsx:172 | `value.trim() !== ''` exactly when the value has a character that is not white space. |
| `Checkout.ValidPaymentMethodIff` | client/src/pages/checkout.tsx:175-180 | The payment form passes exactly when the card number, expiry and CVV have at least 16, 5 and 3 characters and the cardholder name holds a character that is not white space. The payment kind plays no part. |
| `Checkout.NextStep` | client/src/pages/checkout.tsx:182-206 | Next reaches payment only from shipping with a valid address, reaches review only from payment with a valid payment, and otherwise stays put. |
| `Checkout.PreviousStep` | client/src/pages/checkout.tsx:208-214 | Previous goes from payment to shipping and from review to payment; it does nothing on shipping. |
| `Checkout.PreviousUndoesNext` | client/src/pages/checkout.tsx:182-214 | After a Next that moved, Previous returns to the step it started from. |
| `Checkout.OrderPayload` | client/src/pages/checkout.tsx:106-114 | The posted order carries the checkout total and the shipping address. Billing equals shipping under `useSameAddress`. Status and payment status are 'pending', and there is no user id or order number. |
| `Checkout.ItemsPayload` | client/src/pages/checkout.tsx:115-119 | One item per cart line, copying its product id, quantity and the product's current price; empty before the cart loads. |
| `Checkout.ItemsPayloadSubtotal` | client/src/pages/checkout.tsx:115-119 | The posted items add up to exactly the cart's subtotal. |
| `Checkout.CheckoutForm.constructor` | client/src/pages/checkout.tsx:48-70 | The page starts on the shipping step with `useSameAddress` on, blank addresses in the US and a blank card form. |
| `Checkout.CheckoutForm.HandleNextStep` | client/src/pages/checkout.tsx:182-206 | The step becomes NextStep of the old step and the current form's validity. The order is submitted exactly when on review. A submission puts a request in flight. |
| `Checkout.CheckoutForm.HandlePreviousStep` | client/src/pages/checkout.tsx:208-214 | The step becomes PreviousStep of the old step; nothing else changes. |
| `Checkout.CheckoutForm.OrderPlaced` | client/src/pages/checkout.tsx:126-128 | A successful placement moves to the success step and ends the request. |
| `Checkout.CheckoutForm.OrderFailed` | client/src/pages/checkout.tsx:131-149 | A failed placement ends the request and keeps the step. |
| `Checkout.CheckoutForm.Payload` | client/src/pages/checkout.tsx:104-124 | The submission posts the order payload and the items payload of the current form. |
| `Checkout.ReviewNeedsValidForms` | client/src/pages/checkout.tsx:182-214 | Over any sequence of Next and Previous presses, the page never reaches success without a successful placement. It is on review only with a valid payment, and it leaves shipping only with a valid address. |
| `ProductCard.AverageRating` | client/src/components/product-card.tsx:94-98 | Without reviews the average is 0. Otherwise the average times the count is the sum of the ratings. The product page's copy (product-detail.tsx 252-256) is the same expression. |
| `ProductCard.SumBounds` | client/src/components/product-card.tsx:96-97 | Ratings between lo and hi sum to between lo and hi times their number. |
| `ProductCard.AverageWithinScale` | client/src/components/product-card.tsx:94-98 | With every rating from 1 to 5, the average lies from 1 to 5. |
| `ProductCard.Round` | client/src/components/product-card.tsx:148 | `Math.round` gives the integer within half a unit, rounding halves up. |
| `ProductCard.DiscountPercentage` | client/src/components/product-card.tsx:147-149 | 0 without a discount. Otherwise it is the saving over the original price times 100, rounded to the nearest integer. It lies from 0 to 100. |
| `ProductCard.Stars` | client/src/components/product-card.tsx:100-110 | Five stars; star k is filled exactly when k ≤ rating. |
| `ProductCard.StarsArePrefix` | client/src/components/product-card.tsx:103-106 | Filled stars come before empty ones. The number filled is the rating rounded down, kept within 0 to 5. |
| `ProductDetail.StockCap` | client/src/pages/product-detail.tsx:204 | `product?.stock \|\| 1`: the stock, except that a missing product or a stock of 0 caps at 1. |
| `ProductDetail.ClampQuantity` | client/src/pages/product-detail.tsx:203-205 | The new quantity is at least 1 and at most the cap. It is exactly prev + delta when that lies in range, and the cap when prev + delta is above it. It is 1 when prev + delta is below 1, and 1 when a negative stock makes the cap negative. |
| `ProductDetail.OutOfStockPinsQuantity` | client/src/pages/product-detail.tsx:203-205 | With stock 0, or no product, the quantity is always 1. |
| `ProductDetail.ToggleRequest` | client/src/pages/product-detail.tsx:125-135 | When not wishlisted, the toggle adds the product. When wishlisted, it deletes the first wishlist row for the product, or sends nothing when there is none. |
| `ProductDetail.ProductDetailView.constructor` | client/src/pages/product-detail.tsx:35-39 | The page starts with quantity 1, not wishlisted, and a 5-star empty review form. |
| `ProductDetail.ProductDetailView.HandleQuantityChange` | client/src/pages/product-detail.tsx:203-205 | The quantity becomes the clamp of old + delta. It stays at least 1, and within the stock when the stock is at least 1. |
| `ProductDetail.ProductDetailView.SyncWishlisted` | client/src/pages/product-detail.tsx:71-76 | Once both are loaded, the flag is true exactly when some wishlist row has the product's id; otherwise it is left as it was. |
| `ProductDetail.ProductDetailView.ToggleSucceeded` | client/src/pages/product-detail.tsx:137-138 | A successful toggle negates the flag. |
| `ProductDetail.ProductDetailView.ReviewSucceeded` | client/src/pages/product-detail.tsx:174-181 | A posted review resets the form to 5 stars and an empty comment. |
| `ProductDetail.Savings` | client/src/pages/product-detail.tsx:375-385 | The savings line appears exactly when the original price exceeds the price, and shows the positive difference. |
| `ProductDetail.RelatedProducts` | client/src/pages/product-detail.tsx:527-529 | At most 4 products, none of them the current one, all from the fetched list. They are a prefix of the list without the current product, and as long as it allows up to 4. |
| `ProductDetail.RelatedProductsInOrder` | client/src/pages/product-detail.tsx:527-529 | The strip keeps the fetched order. |
| `ProductDetail.PrefixIsSubseq` | client/src/pages/product-detail.tsx:529 | Cutting a subsequence to its first entries keeps it a subsequence. |
| `ProductDetail.ReviewSubmission` | client/src/pages/product-detail.tsx:229-250 | A signed-out visitor is asked to log in. A comment blank after trimming is refused. Otherwise the review is sent with the rating and comment as given. |
| `ProductDetail.ReviewTitleNamesRating` | client/src/pages/product-detail.tsx:167-172 | The title is "<rating> star review", and its leading digits read back as the rating. |
| `OrderManagement.FilteredOrders` | client/src/components/admin/order-management.tsx:132-140 | Nothing before the orders load. Afterwards an order is shown exactly when it matches the search (order number includes the query ignoring case, or the id includes it) and the status filter ('all' or equal). |
| `OrderManagement.FilteredOrdersInOrder` | client/src/components/admin/order-management.tsx:132 | The filtered table is a subsequence of the fetched orders. |
| `OrderManagement.EmptySearchShowsAll` | client/src/components/admin/order-management.tsx:133-137 | An empty search with the 'all' filter shows every order. |
| `OrderManagement.IntToStringChars` | client/src/components/admin/order-management.tsx:134 | `order.id.toString()` consists of digits and '-' only. |
| `OrderManagement.OccurrenceChars` | client/src/components/admin/order-management.tsx:134 | A query that occurs in a string is made of that string's characters at that place. |
| `OrderManagement.SearchCaseInsensitive` | client/src/components/admin/order-management.tsx:133-135 | The search gives the same verdict for a query and its lower-cased form. The id test cannot match a query that has a letter. |
| `OrderManagement.StatusVariant` | client/src/components/admin/order-management.tsx:100-115 | Ignoring case, shipped gives outline and cancelled gives destructive. Processing and delivered give default. Pending and any other value give secondary. |
| `OrderManagement.PaymentStatusVariant` | client/src/components/admin/order-management.tsx:117-130 | Ignoring case, completed gives default, failed gives destructive and refunded gives outline. Pending and any other value give secondary. |
| `OrderManagement.VariantsIgnoreCase` | client/src/components/admin/order-management.tsx:101 | Both badge mappings give a status the same variant as its lower-cased form. |
| `OrderManagement.ItemCountLabel` | client/src/components/admin/order-management.tsx:256 | The label starts with the count in decimal. |
| `OrderManagement.ItemCountLabelPlural` | client/src/components/admin/order-management.tsx:256 | The label ends in 's' exactly when the count is not 1, and one item reads "1 item". |
| `OrdersPage.StatusClass` | client/src/pages/orders.tsx:27-42 | Ignoring case, each of the five known statuses gets its own colour (yellow, blue, purple, green, red), and exactly the other statuses get gray. |
| `OrdersPage.StatusClassIgnoresCase` | client/src/pages/orders.tsx:28 | A status, its lower-cased form and its upper-cased form get the same colour. |
| `OrdersPage.LowerOfUpper` | client/src/pages/orders.tsx:28 | Lower-casing forgets a prior upper-casing. |
| `OrdersPage.CapitalizeStatus` | client/src/pages/orders.tsx:86 | Only the first character is upper-cased; the length and the remaining characters are unchanged, and the empty status stays empty. |
| `OrdersPage.CapitalizeStatusIdempotent` | client/src/pages/orders.tsx:86 | Capitalising twice is capitalising once, and the label keeps its status's badge colour. |
| `OrdersPage.LineTotalPerUnit` | client/src/pages/orders.tsx:116 | The line total (the price recorded on the item times its quantity) is 0 for no units and grows by one price per unit. |
| `Storage.PairQuantityAppend` | server/storage.ts:376-379 | Appending a row adds its quantity to its own pair's total and to no other pair's. |
| `Storage.PairQuantityUpdate` | server/storage.ts:368-375 | Rewriting one row's quantity changes its pair's total by the difference and no other pair's. |
| `Storage.MergeAccumulates` | server/storage.ts:361-381 | `addToCart` raises the named (userId, productId) pair's total by exactly the added quantity and leaves every other pair's total as it was. |
| `Storage.MergeIntoExistingRow` | server/storage.ts:363-375 | When the pair already has a row, no row is added. That row's quantity becomes existing + added, and every other row is unchanged. |
| `Storage.MergeIntoNewRow` | server/storage.ts:376-379 | When the pair has no row, exactly one row is appended, with the given quantity and the next serial id. |
| `Storage.MergeKeepsCartsValid` | server/storage.ts:361-381 | `addToCart` adds at most one row. It keeps at most one row per pair, ascending ids, and every id below the counter. |
| `Storage.MergeLeavesOneRow` | server/storage.ts:361-381 | After `addToCart` the pair it names has exactly one row. |
| `Storage.WithQuantity` | server/storage.ts:383-390 | Only the row with the id gets the new quantity; every other row and every other field stays. |
| `Storage.CartRowsOf` | server/storage.ts:345-358 | The cart rows behind a joined listing, one per entry. |
| `Storage.CartRowsOfAppend` | server/storage.ts:345-358 | Projecting the rows distributes over an append. |
| `Storage.WishlistRowsOf` | server/storage.ts:401-413 | The wishlist rows behind a joined listing. |
| `Storage.WishlistRowsOfAppend` | server/storage.ts:401-413 | Projecting distributes over an append. |
| `Storage.ItemRowsOf` | server/storage.ts:435-447 | The order items behind a joined listing. |
| `Storage.ItemRowsOfAppend` | server/storage.ts:435-447 | Projecting distributes over an append. |
| `Storage.JoinCart` | server/storage.ts:345-358 | Every joined entry pairs a cart row with the product of that row's product id. |
| `Storage.JoinCartRows` | server/storage.ts:345-358 | The inner join keeps exactly the rows whose product exists, in order. |
| `Storage.JoinWishlist` | server/storage.ts:401-413 | Every joined entry pairs a wishlist row with its product. |
| `Storage.JoinWishlistRows` | server/storage.ts:401-413 | The join keeps exactly the wishlist rows whose product exists, in order. |
| `Storage.JoinOrderItems` | server/storage.ts:435-447 | Every joined entry pairs an order item with its product. |
| `Storage.JoinOrderItemsRows` | server/storage.ts:435-447 | The join keeps exactly the items whose product exists, in order. |
| `Storage.JoinOrderItemsComplete` | server/storage.ts:435-447 | When every item's product exists, the join drops nothing. |
| `Storage.WithItems` | server/storage.ts:434-450 | An order shown with its items: every item listed belongs to that order. |
| `Storage.AttachItems` | server/storage.ts:433-451 | Each order of the listing, in order, with its own items. |
| `Storage.AttachItemsFilter` | server/storage.ts:426-454 | Selecting one user's orders commutes with attaching the items. |
| `Storage.AttachItemsCons` | server/storage.ts:433-451 | Attaching items is done order by order. |
| `Storage.StampItems` | server/storage.ts:481-483 | The inserted items are the supplied ones, in order, each with the new order's id, its productId, quantity and price, and consecutive serial ids. |
| `Storage.NewOrderItemsAreStamped` | server/storage.ts:477-486 | Right after `createOrder`, the items of the new order are exactly the stamped ones. |
| `Storage.WithStatus` | server/storage.ts:488-495 | Only the order with the id gets the new status. |
| `Storage.RevenueBounds` | server/storage.ts:547-550 | With non-negative amounts, the revenue is non-negative and at most the sum of all amounts. |
| `Storage.RevenueAppend` | server/storage.ts:547-550 | A new order adds its amount to the revenue exactly when it is already paid. |
| `Storage.RevenueIgnoresStatus` | server/storage.ts:488-495 | Changing an order's fulfilment status never changes the revenue. |
| `Storage.Patched` | server/storage.ts:313-320 | The patched product keeps its id, and an empty patch changes nothing. |
| `Storage.PatchIdempotent` | server/storage.ts:313-320 | Applying the same partial update twice is applying it once. |
| `Storage.WithPatch` | server/storage.ts:313-320 | Only the product with the id takes the patch's fields (any of name, slug, price, original price, category, stock and the two flags); every other row stays. |
| `Storage.UpsertKeepsIdsUnique` | server/storage.ts:107-120 | Upserting keeps user ids unique, and afterwards the user is found by id. |
| `Storage.Store.constructor` | server/storage.ts:100 | The store starts with empty tables and every counter at 1, satisfying the invariant. |
| `Storage.Store.GetUser` | server/storage.ts:102-105 | The user found has the id; none exactly when no user has it. |
| `Storage.Store.UpsertUser` | server/storage.ts:107-120 | The row with the user's id is replaced, or the user is appended. Ids stay unique, and the user is then found by id. |
| `Storage.Store.CreateCategory` | server/storage.ts:132-135 | One category is appended with the next id. |
| `Storage.Store.GetProduct` | server/storage.ts:226-265 | The product found has the id; none exactly when no product has it. |
| `Storage.Store.CreateProduct` | server/storage.ts:308-311 | One product is appended with the next id and the given fields. |
| `Storage.Store.UpdateProduct` | server/storage.ts:313-320 | Only the product with the id is patched, in any of the fields the partial schema accepts; the updated row, or none, is returned. |
| `Storage.Store.DeleteProduct` | server/storage.ts:322-324 | Exactly the product with the id is removed, and it is no longer found. |
| `Storage.Store.ReviewsByProduct` | server/storage.ts:327-333 | The product's reviews, newest first, and only those. |
| `Storage.Store.CreateReview` | server/storage.ts:335-338 | One review is appended with the next id. |
| `Storage.Store.CartByUser` | server/storage.ts:345-359 | The user's rows whose product exists, newest first, each with its product; no other user's rows. |
| `Storage.Store.FindCartRow` | server/storage.ts:363-366 | The first cart row of the pair, found by a scan; none exactly when there is none. |
| `Storage.Store.AddToCart` | server/storage.ts:361-381 | The cart becomes the merge of the old cart with the item. The counter advances only when a row was inserted. The row written is the pair's row. The invariant of one row per pair is kept. |
| `Storage.Store.UpdateCartItem` | server/storage.ts:383-390 | Only the quantity of row id changes. The updated row is returned, with the new quantity, or none. |
| `Storage.Store.RemoveFromCart` | server/storage.ts:392-394 | Exactly the row with the id goes; every other row stays, in order. |
| `Storage.Store.ClearCart` | server/storage.ts:396-398 | Exactly the user's rows go, and every other user's rows stay in order. The user's cart then reads empty. |
| `Storage.Store.WishlistByUser` | server/storage.ts:401-414 | The user's wishlist rows whose product exists, newest first, each with its product. |
| `Storage.Store.AddToWishlist` | server/storage.ts:416-419 | A row is always appended, even for a product already in the user's wishlist. |
| `Storage.Store.RemoveFromWishlist` | server/storage.ts:421-423 | Exactly the row with the id goes. |
| `Storage.Store.OrdersByUser` | server/storage.ts:426-454 | Only the user's orders, and every one of them, newest first, each with its items. |
| `Storage.Store.AllOrders` | server/storage.ts:497-525 | Every order, newest first, each with its items. |
| `Storage.Store.UserViewIsFilteredAdminView` | server/storage.ts:426-525 | A user's own listing is the all-orders listing restricted to that user. |
| `Storage.Store.ItemsOf` | server/storage.ts:460-473 | The order's items whose product exists, each with its product. |
| `Storage.Store.GetOrderById` | server/storage.ts:456-475 | The order with the id and its items; none exactly when no order has the id. |
| `Storage.Store.CreateOrder` | server/storage.ts:477-486 | One order header is appended with the next id. On success, exactly the supplied items are appended, stamped with that id. If the item insert fails, the header stays without items. |
| `Storage.Store.UpdateOrderStatus` | server/storage.ts:488-495 | Only that order's status changes. The updated row, or none, is returned. The revenue is unchanged. |
| `Storage.Store.GetCouponByCode` | server/storage.ts:527-533 | An active coupon with exactly that code; none exactly when there is none. |
| `Storage.Store.CreateCoupon` | server/storage.ts:535-538 | One coupon is appended with the next id. |
| `Storage.Store.DashboardStats` | server/storage.ts:541-571 | The revenue sums the amounts of the paid orders, and the order and user counts are the table sizes. The product count counts the active products only. |
| `Routes.CartQuantity` | server/routes.ts:230-234 | The quantity is accepted exactly when it is a number of at least 1. |
| `Routes.OrderStatus` | server/routes.ts:390-392 | The status is accepted exactly when it is a non-empty string. |
| `Routes.OrderAccess` | server/routes.ts:333-342 | A missing order gives 404 before any ownership check. A caller who is neither owner nor admin gets 403. Otherwise the reply is 200 with the order. |
| `Routes.CouponCheck` | server/routes.ts:409-423 | 404 when not found. Then 400 "expired" when strictly past expiry, then 400 "limit reached" when a non-zero `maxUses` is used up, else 200 with the coupon. |
| `Routes.ExpiryCheckedFirst` | server/routes.ts:414-421 | A coupon both expired and used up is answered "expired". |
| `Routes.NoLimitWithoutMaxUses` | server/routes.ts:419 | A `maxUses` of null or 0 never limits, however often the coupon was used. |
| `Routes.GetCart` | server/routes.ts:197-206 | 200 with exactly the caller's cart listing (`getCartByUser`), whose rows are all the caller's. |
| `Routes.GetWishlist` | server/routes.ts:267-276 | 200 with exactly the caller's wishlist listing, whose rows are all the caller's. |
| `Routes.GetOrders` | server/routes.ts:309-325 | An admin gets every order. Anyone else gets only their own orders. |
| `Routes.OrdersScopedToCaller` | server/routes.ts:312-320 | A non-admin's listing is the admin listing restricted to that caller. |
| `Routes.GetOrder` | server/routes.ts:327-349 | 404 exactly when no order has the id. The reply is 200 with the order and its items exactly when the caller is its owner or an admin; any other caller gets 403. |
| `Routes.GetCoupon` | server/routes.ts:404-427 | The code is upper-cased before the lookup. 404 exactly when no active coupon has that code. A found coupon past its expiry gives 400 "expired"; one not expired but used up gives 400 "limit reached". Otherwise 200 with the coupon. |
| `Routes.CouponCodeCaseInsensitive` | server/routes.ts:406 | The lookup gives the same answer for a code and its upper-cased form. |
| `Routes.GetDashboardStats` | server/routes.ts:456-471 | 403 exactly for a non-admin. Otherwise 200 with all four aggregates: paid revenue, order count, active product count and user count. |
| `Routes.PostCategory` | server/routes.ts:44-63 | A non-admin gets 403, and invalid data gets 400; both leave the store untouched. Otherwise the category is created and returned with 201. It writes only the categories table and its counter; every other table and counter stays as it was. |
| `Routes.PostProduct` | server/routes.ts:101-120 | A non-admin gets 403, and invalid data gets 400, with the store untouched. Otherwise the product built from the body with the next id is appended and returned with 201. It writes only the products table and its counter; every other table and counter stays as it was. |
| `Routes.PutProduct` | server/routes.ts:122-142 | A non-admin gets 403, and an invalid patch gets 400, with the store untouched. Otherwise only that product is patched and the updated row is returned. It writes only the products table; every other table and counter stays as it was. |
| `Routes.DeleteProduct` | server/routes.ts:144-161 | A non-admin gets 403 with the store untouched. Otherwise exactly that product goes, and the reply is 204. It writes only the products table; every other table and counter stays as it was. |
| `Routes.PutOrderStatus` | server/routes.ts:379-401 | A non-admin gets 403, and a bad status gets 400, with the store untouched. Otherwise only that order's status changes. It writes only the orders table; every other table and counter stays as it was. |
| `Routes.PostCoupon` | server/routes.ts:430-453 | A non-admin gets 403 and a missing code 500, both with the store untouched. The code is upper-cased before validation. Invalid data gets 400; otherwise the coupon built from the body with the next id is appended and returned with 201. It writes only the coupons table and its counter; every other table and counter stays as it was. |
| `Routes.PostCart` | server/routes.ts:208-225 | The session's user id replaces the body's. Invalid data gets 400 with the store untouched. Otherwise the item is merged into that user's cart and the row written, which is in the cart, is returned with 201. It writes only the carts table and its counter; every other table and counter stays as it was. |
| `Routes.PutCart` | server/routes.ts:227-242 | A quantity that is not a number, or is below 1, gets 400 and does not touch the store. Otherwise row id gets the quantity, with no ownership check. It writes only the carts table; every other table and counter stays as it was. |
| `Routes.DeleteCartItem` | server/routes.ts:244-253 | Row id is removed with no ownership check; the reply is 204. It writes only the carts table; every other table and counter stays as it was. |
| `Routes.DeleteCart` | server/routes.ts:255-264 | The caller's own cart is emptied; the reply is 204. It writes only the carts table; every other table and counter stays as it was. |
| `Routes.PostWishlist` | server/routes.ts:278-295 | The session's user id replaces the body's. Invalid data gets 400; otherwise a row is appended. It writes only the wishlists table and its counter; every other table and counter stays as it was. |
| `Routes.DeleteWishlistItem` | server/routes.ts:297-306 | Row id is removed with no ownership check. It writes only the wishlists table; every other table and counter stays as it was. |
| `Routes.PostReview` | server/routes.ts:174-194 | The path's product id and the session's user id replace the body's. Invalid data gets 400; otherwise the review is appended. It writes only the reviews table and its counter; every other table and counter stays as it was. |
| `Routes.OrderHeader` | server/routes.ts:356-360 | The validated header takes the session's user id and the generated order number, and the client's other fields. |
| `Routes.PostOrder` | server/routes.ts:351-377 | Header and items are both validated before any write; either invalid gives 400 with the store untouched. Then the order is written. A failed item insert gives 500 and keeps the cart. Otherwise the items are stamped, the caller's cart is cleared and the reply is 201 with the order. It writes only the orders and order items tables, their counters and the carts table; every other table and counter stays as it was. |

## Left out

- Case mapping covers the ASCII letters only. `toLowerCase` and `toUpperCase` on other letters are not modelled, including those whose case mapping changes the string's length.
- String lengths are counted in code points. JavaScript counts UTF-16 units, so `cardNumber.length` can differ for characters outside the BMP.
- Money is exact `real`. `parseFloat`, IEEE rounding, `toFixed`, `toLocaleString` and the edge cases of `Math.round` on floats are not modelled.
- Numbers in request bodies are integers in `Routes.JsonValue`. `typeof quantity === 'number'` also accepts 1.5 and NaN, which the model cannot express.
- `parseInt` of path ids is not modelled: the handlers take an integer id.
- The database itself is not modelled: foreign keys, unique constraints and thrown query errors, and the consumption of serial ids by failed inserts. A storage call that throws, answered with 500, is modelled only for the item insert of `createOrder`.
- `ORDER BY createdAt DESC` is reverse insertion order. Rows created in the same instant, which the database may return in any order, are not modelled.
- `Storage.Store.AddToCart` takes the first matching row in insertion order as `[existingItem]`. With the invariant there is only one.
- An empty item list: `values([])` of the query builder throws, but the model inserts nothing and succeeds.
- `getProducts`, `getCategories`, `getCategoryBySlug`, `updateCategory`, `deleteCategory`, `getProductBySlug` and `deleteReview` are not modelled. Neither are the category and review joins of `getProductById`: they depend on SQL `LIKE` and on how the query builder combines filters.
- Storage.Store.UpsertUser: replaces the whole user row. The source's conflict update writes only the keys its caller passes, so an upsert without `isAdmin` would keep the stored flag; the callers of `upsertUser` are not part of this model.
- Authentication and session handling are not modelled: the caller's subject id is a parameter.
- The clock and the generated order number are parameters, and order numbers are not assumed unique.
- Concurrency is not modelled: the read-then-write race in `addToCart`, and the two separate writes of `createOrder` (modelled as its `itemsInsertFails` outcome).
- `clearCart` failing after the order was written is not modelled.
- An `order` missing from the body of `POST /api/orders` is not modelled.
- `updatedAt` timestamps are not modelled.
- The dashboard's `Number(...) || 0` conversions are not modelled.
- The Zod schemas are parameters: each is a predicate on the record it would accept.
- Rendering, toasts, query-cache invalidation, redirects and timers are not modelled.
- ProductCard.DiscountPercentage: requires a non-negative price. With a negative price the saving can exceed the original price, and the 0 to 100 bound would not hold; the page's value is then only the rounded expression.
- Checkout.CheckoutForm.HandleNextStep: the disabled state of the Next button while an order is pending is `NextEnabled`, a separate predicate, rather than a guard inside the method.
