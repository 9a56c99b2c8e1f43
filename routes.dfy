/** The request handlers of the HTTP API. The caller's subject id comes from
    the session and is a parameter; the clock, the generated order number and
    each schema validator are parameters too (a validator is a predicate on
    the record it would accept). A storage call that throws is not modelled,
    except the item insert of `createOrder`. */
module Routes {
  import opened Collections
  import opened Text
  import opened Schema
  import opened Storage

  /** What a handler sends: a JSON body with a status, an empty 204, or a
      `{ message }` error body. */
  datatype Response<T> = Json(status: int, value: T) | NoContent | Error(status: int, message: string)
  {
    function Status(): int {
      match this
      case Json(s, _) => s
      case NoContent => 204
      case Error(s, _) => s
    }
  }

  /** A JSON value as it arrives in a request body, where the handler looks at
      its type (`typeof`). Numbers are integers here. */
  datatype JsonValue = JNull | JBool(b: bool) | JNum(n: int) | JStr(s: string) | JOther

  const AdminRequired: string := "Admin access required"

  /** `user?.isAdmin`: an unknown user is not an admin. */
  predicate IsAdmin(user: Option<User>) {
    user.Some? && user.value.isAdmin
  }

  // ---------------------------------------------------------------------------
  // Straight-line decisions

  /** The guard of `PUT /api/cart/:id`: the quantity to write, or none when the
      body's quantity is not a number or is below 1 (answered with 400). */
  function CartQuantity(quantity: JsonValue): (r: Option<int>)
    ensures r.Some? <==> quantity.JNum? && quantity.n >= 1
    ensures r.Some? ==> r.value == quantity.n && r.value >= 1
  {
    match quantity
    case JNum(n) => if n < 1 then None else Some(n)
    case _ => None
  }

  /** The guard of `PUT /api/orders/:id/status`: a status is accepted only when
      it is a non-empty string (`!status` rejects the empty string). */
  function OrderStatus(status: JsonValue): (r: Option<string>)
    ensures r.Some? <==> status.JStr? && status.s != ""
    ensures r.Some? ==> r.value == status.s
  {
    if status.JStr? && status.s != "" then Some(status.s) else None
  }

  /** Whether the caller may read an order: its owner or an admin. */
  predicate MayRead(o: Order, userId: UserId, user: Option<User>) {
    o.userId == userId || IsAdmin(user)
  }

  /** `GET /api/orders/:id` once the order has been looked up: 404 when it does
      not exist (before any ownership check), then 403 for a caller who is
      neither its owner nor an admin. */
  function OrderAccess(found: Option<OrderWithItems>, userId: UserId, user: Option<User>): (r: Response<OrderWithItems>)
    ensures found.None? ==> r == Error(404, "Order not found")
    ensures found.Some? && !MayRead(found.value.order, userId, user) ==> r == Error(403, "Access denied")
    ensures r.Json? <==> found.Some? && MayRead(found.value.order, userId, user)
    ensures r.Json? ==> r == Json(200, found.value)
  {
    match found
    case None => Error(404, "Order not found")
    case Some(o) =>
      if o.order.userId != userId && !IsAdmin(user) then Error(403, "Access denied")
      else Json(200, o)
  }

  /** `coupon.expiresAt && now > coupon.expiresAt`: expired strictly after the instant. */
  predicate Expired(c: Coupon, now: int) {
    c.expiresAt.Some? && now > c.expiresAt.value
  }

  /** `coupon.maxUses && coupon.usedCount >= coupon.maxUses`: a `maxUses` of
      null or 0 is falsy and so never limits. */
  predicate LimitReached(c: Coupon) {
    c.maxUses.Some? && c.maxUses.value != 0 && c.usedCount >= c.maxUses.value
  }

  /** The validity cascade of `GET /api/coupons/:code`: not found, then
      expired, then usage limit reached, else the coupon. */
  function CouponCheck(found: Option<Coupon>, now: int): (r: Response<Coupon>)
    ensures found.None? ==> r == Error(404, "Coupon not found")
    ensures found.Some? && Expired(found.value, now) ==> r == Error(400, "Coupon has expired")
    ensures found.Some? && !Expired(found.value, now) && LimitReached(found.value)
            ==> r == Error(400, "Coupon usage limit reached")
    ensures r.Json? <==> found.Some? && !Expired(found.value, now) && !LimitReached(found.value)
    ensures r.Json? ==> r == Json(200, found.value)
  {
    match found
    case None => Error(404, "Coupon not found")
    case Some(c) =>
      if c.expiresAt.Some? && now > c.expiresAt.value then Error(400, "Coupon has expired")
      else if c.maxUses.Some? && c.maxUses.value != 0 && c.usedCount >= c.maxUses.value then Error(400, "Coupon usage limit reached")
      else Json(200, c)
  }

  /** Expiry is reported before the usage limit: a coupon that is both expired
      and used up is answered "expired". */
  lemma ExpiryCheckedFirst(c: Coupon, now: int)
    requires Expired(c, now) && LimitReached(c)
    ensures CouponCheck(Some(c), now) == Error(400, "Coupon has expired")
  {
  }

  /** A coupon without `maxUses`, or with `maxUses` 0, is never used up,
      however often it has been used. */
  lemma NoLimitWithoutMaxUses(c: Coupon, now: int)
    requires c.maxUses == None || c.maxUses == Some(0)
    requires !Expired(c, now)
    ensures CouponCheck(Some(c), now) == Json(200, c)
  {
  }

  // ---------------------------------------------------------------------------
  // Read-only handlers

  /** `GET /api/cart`. */
  function GetCart(store: Store, userId: UserId): (r: Response<seq<CartItemWithProduct>>)
    reads store
    ensures r.Json? && r.status == 200
    ensures r.value == store.CartByUser(userId)
    ensures forall i :: 0 <= i < |r.value| ==> r.value[i].row.userId == userId
  {
    Json(200, store.CartByUser(userId))
  }

  /** `GET /api/wishlist`. */
  function GetWishlist(store: Store, userId: UserId): (r: Response<seq<WishlistItemWithProduct>>)
    reads store
    ensures r.Json? && r.status == 200
    ensures r.value == store.WishlistByUser(userId)
    ensures forall i :: 0 <= i < |r.value| ==> r.value[i].row.userId == userId
  {
    Json(200, store.WishlistByUser(userId))
  }

  /** `GET /api/orders`: every order for an admin, otherwise only the caller's. */
  function GetOrders(store: Store, userId: UserId): (r: Response<seq<OrderWithItems>>)
    reads store
    ensures r.Json? && r.status == 200
    ensures IsAdmin(store.GetUser(userId)) ==> r.value == store.AllOrders()
    ensures !IsAdmin(store.GetUser(userId)) ==> r.value == store.OrdersByUser(userId)
    ensures !IsAdmin(store.GetUser(userId)) ==> forall i :: 0 <= i < |r.value| ==> r.value[i].order.userId == userId
  {
    if IsAdmin(store.GetUser(userId)) then Json(200, store.AllOrders())
    else Json(200, store.OrdersByUser(userId))
  }

  /** A non-admin's listing is the admin listing restricted to that caller. */
  lemma OrdersScopedToCaller(store: Store, userId: UserId, admin: UserId)
    requires !IsAdmin(store.GetUser(userId)) && IsAdmin(store.GetUser(admin))
    ensures GetOrders(store, userId).value == Filter(WithItemsOf(userId), GetOrders(store, admin).value)
  {
    store.UserViewIsFilteredAdminView(userId);
  }

  /** `GET /api/orders/:id`. */
  function GetOrder(store: Store, userId: UserId, orderId: int): (r: Response<OrderWithItems>)
    reads store
    ensures r.Json? ==> r.value.order.id == orderId && r.value.order in store.orders
    ensures r.Json? ==> r.value.order.userId == userId || IsAdmin(store.GetUser(userId))
    ensures r == Error(404, "Order not found") <==> forall i :: 0 <= i < |store.orders| ==> store.orders[i].id != orderId
    ensures r.Json? <==>
      store.GetOrderById(orderId).Some? && MayRead(store.GetOrderById(orderId).value.order, userId, store.GetUser(userId))
    ensures r.Json? ==> r.value == store.GetOrderById(orderId).value
    ensures store.GetOrderById(orderId).Some? && !r.Json? ==> r == Error(403, "Access denied")
  {
    OrderAccess(store.GetOrderById(orderId), userId, store.GetUser(userId))
  }

  /** `GET /api/coupons/:code`: the code is upper-cased before the lookup. */
  function GetCoupon(store: Store, code: string, now: int): (r: Response<Coupon>)
    reads store
    ensures r.Json? ==> r.value.code == ToUpper(code) && r.value.isActive && r.value in store.coupons
    ensures r.Json? ==> !Expired(r.value, now) && !LimitReached(r.value)
    ensures r == Error(404, "Coupon not found") <==> store.GetCouponByCode(ToUpper(code)).None?
    ensures var c := store.GetCouponByCode(ToUpper(code));
      c.Some? && Expired(c.value, now) ==> r == Error(400, "Coupon has expired")
    ensures var c := store.GetCouponByCode(ToUpper(code));
      c.Some? && !Expired(c.value, now) && LimitReached(c.value) ==> r == Error(400, "Coupon usage limit reached")
    ensures var c := store.GetCouponByCode(ToUpper(code));
      r.Json? <==> c.Some? && !Expired(c.value, now) && !LimitReached(c.value)
    ensures r.Json? ==> r.value == store.GetCouponByCode(ToUpper(code)).value
  {
    CouponCheck(store.GetCouponByCode(ToUpper(code)), now)
  }

  /** The coupon lookup ignores the case of the code the client typed. */
  lemma CouponCodeCaseInsensitive(store: Store, code: string, now: int)
    ensures GetCoupon(store, code, now) == GetCoupon(store, ToUpper(code), now)
  {
    ToUpperIdempotent(code);
  }

  /** `GET /api/dashboard/stats`. */
  function GetDashboardStats(store: Store, userId: UserId): (r: Response<Stats>)
    reads store
    ensures !IsAdmin(store.GetUser(userId)) <==> r == Error(403, AdminRequired)
    ensures r.Json? ==> r.value.totalRevenue == Revenue(store.orders) && r.value.totalOrders == |store.orders|
    ensures r.Json? ==> r == Json(200, store.DashboardStats())
    ensures r.Json? ==> r.value.totalUsers == |store.users| && r.value.totalProducts == |Filter(ProductIsActive(), store.products)|
  {
    if !IsAdmin(store.GetUser(userId)) then Error(403, AdminRequired)
    else Json(200, store.DashboardStats())
  }

  // ---------------------------------------------------------------------------
  // Admin-only writes: a caller who is not an admin gets 403 and the store is untouched

  /** `POST /api/categories`. */
  method PostCategory(store: Store, userId: UserId, body: CategoryData, valid: CategoryData -> bool)
    returns (r: Response<Category>)
    requires store.Valid()
    modifies store`categories, store`nextCategoryId
    ensures store.Valid()
    ensures !IsAdmin(old(store.GetUser(userId))) ==> r == Error(403, AdminRequired) && unchanged(store)
    ensures IsAdmin(old(store.GetUser(userId))) && !valid(body) ==> r == Error(400, "Invalid category data") && unchanged(store)
    ensures IsAdmin(old(store.GetUser(userId))) && valid(body) ==>
      r == Json(201, Category(old(store.nextCategoryId), body.name, body.slug))
      && store.categories == old(store.categories) + [r.value]
  {
    if !IsAdmin(store.GetUser(userId)) {
      return Error(403, AdminRequired);
    }
    if !valid(body) {
      return Error(400, "Invalid category data");
    }
    var c := store.CreateCategory(body);
    r := Json(201, c);
  }

  /** `POST /api/products`. */
  method PostProduct(store: Store, userId: UserId, body: ProductData, valid: ProductData -> bool)
    returns (r: Response<Product>)
    requires store.Valid()
    modifies store`products, store`nextProductId
    ensures store.Valid()
    ensures !IsAdmin(old(store.GetUser(userId))) ==> r == Error(403, AdminRequired) && unchanged(store)
    ensures IsAdmin(old(store.GetUser(userId))) && !valid(body) ==> r == Error(400, "Invalid product data") && unchanged(store)
    ensures IsAdmin(old(store.GetUser(userId))) && valid(body) ==>
      r == Json(201, Product(old(store.nextProductId), body.name, body.slug, body.price, body.originalPrice,
                             body.categoryId, body.stock, body.isActive, body.isFeatured))
      && store.products == old(store.products) + [r.value]
  {
    if !IsAdmin(store.GetUser(userId)) {
      return Error(403, AdminRequired);
    }
    if !valid(body) {
      return Error(400, "Invalid product data");
    }
    var p := store.CreateProduct(body);
    r := Json(201, p);
  }

  /** `PUT /api/products/:id` with a partial product. */
  method PutProduct(store: Store, userId: UserId, id: int, patch: ProductPatch, valid: ProductPatch -> bool)
    returns (r: Response<Option<Product>>)
    requires store.Valid()
    modifies store`products
    ensures store.Valid()
    ensures !IsAdmin(old(store.GetUser(userId))) ==> r == Error(403, AdminRequired) && unchanged(store)
    ensures IsAdmin(old(store.GetUser(userId))) && !valid(patch) ==> r == Error(400, "Invalid product data") && unchanged(store)
    ensures IsAdmin(old(store.GetUser(userId))) && valid(patch) ==>
      store.products == WithPatch(old(store.products), id, patch)
      && r == Json(200, Find(ProductIdIs(id), store.products))
  {
    if !IsAdmin(store.GetUser(userId)) {
      return Error(403, AdminRequired);
    }
    if !valid(patch) {
      return Error(400, "Invalid product data");
    }
    var p := store.UpdateProduct(id, patch);
    r := Json(200, p);
  }

  /** `DELETE /api/products/:id`. */
  method DeleteProduct(store: Store, userId: UserId, id: int) returns (r: Response<()>)
    requires store.Valid()
    modifies store`products
    ensures store.Valid()
    ensures !IsAdmin(old(store.GetUser(userId))) ==> r == Error(403, AdminRequired) && unchanged(store)
    ensures IsAdmin(old(store.GetUser(userId))) ==>
      r == NoContent && store.products == Filter(ProductIdIsNot(id), old(store.products))
  {
    if !IsAdmin(store.GetUser(userId)) {
      return Error(403, AdminRequired);
    }
    store.DeleteProduct(id);
    r := NoContent;
  }

  /** `PUT /api/orders/:id/status`. */
  method PutOrderStatus(store: Store, userId: UserId, orderId: int, status: JsonValue)
    returns (r: Response<Option<Order>>)
    requires store.Valid()
    modifies store`orders
    ensures store.Valid()
    ensures !IsAdmin(old(store.GetUser(userId))) ==> r == Error(403, AdminRequired) && unchanged(store)
    ensures IsAdmin(old(store.GetUser(userId))) && OrderStatus(status).None? ==> r == Error(400, "Invalid status") && unchanged(store)
    ensures IsAdmin(old(store.GetUser(userId))) && OrderStatus(status).Some? ==>
      store.orders == WithStatus(old(store.orders), orderId, status.s)
      && r == Json(200, Find(OrderIdIs(orderId), store.orders))
  {
    if !IsAdmin(store.GetUser(userId)) {
      return Error(403, AdminRequired);
    }
    match OrderStatus(status)
    case None =>
      return Error(400, "Invalid status");
    case Some(s) =>
      var o := store.UpdateOrderStatus(orderId, s);
      r := Json(200, o);
  }

  /** `POST /api/coupons`. The code is upper-cased before validation; a body
      without a string `code` makes that call throw, which is answered with 500. */
  method PostCoupon(store: Store, userId: UserId, code: Option<string>, fields: NewCoupon, valid: NewCoupon -> bool)
    returns (r: Response<Coupon>)
    requires store.Valid()
    modifies store`coupons, store`nextCouponId
    ensures store.Valid()
    ensures !IsAdmin(old(store.GetUser(userId))) ==> r == Error(403, AdminRequired) && unchanged(store)
    ensures IsAdmin(old(store.GetUser(userId))) && code.None? ==> r == Error(500, "Failed to create coupon") && unchanged(store)
    ensures IsAdmin(old(store.GetUser(userId))) && code.Some? && !valid(fields.(code := ToUpper(code.value))) ==>
      r == Error(400, "Invalid coupon data") && unchanged(store)
    ensures IsAdmin(old(store.GetUser(userId))) && code.Some? && valid(fields.(code := ToUpper(code.value))) ==>
      r == Json(201, Coupon(old(store.nextCouponId), ToUpper(code.value), fields.discountType, fields.discountValue,
                            fields.minOrderAmount, fields.maxUses, fields.usedCount, fields.isActive, fields.expiresAt))
      && store.coupons == old(store.coupons) + [r.value]
  {
    if !IsAdmin(store.GetUser(userId)) {
      return Error(403, AdminRequired);
    }
    if code.None? {
      return Error(500, "Failed to create coupon");
    }
    var data := fields.(code := ToUpper(code.value));
    if !valid(data) {
      return Error(400, "Invalid coupon data");
    }
    var c := store.CreateCoupon(data);
    r := Json(201, c);
  }

  // ---------------------------------------------------------------------------
  // Caller-scoped writes: the session's subject id overrides any `userId` in the body

  datatype CartBody = CartBody(userId: Option<UserId>, productId: int, quantity: int)
  datatype WishlistBody = WishlistBody(userId: Option<UserId>, productId: int)
  datatype ReviewBody = ReviewBody(productId: Option<int>, userId: Option<UserId>, rating: int, title: string, comment: string)

  /** `POST /api/cart`: `{ ...body, userId }`, validated, then `addToCart`. */
  method PostCart(store: Store, userId: UserId, body: CartBody, valid: NewCart -> bool)
    returns (r: Response<CartRow>)
    requires store.Valid()
    modifies store`carts, store`nextCartId
    ensures store.Valid()
    ensures !valid(NewCart(userId, body.productId, body.quantity)) ==> r == Error(400, "Invalid cart data") && unchanged(store)
    ensures valid(NewCart(userId, body.productId, body.quantity)) ==>
      store.carts == MergeIntoCart(old(store.carts), NewCart(userId, body.productId, body.quantity), old(store.nextCartId))
      && r.Json? && r.status == 201 && r.value.userId == userId && r.value.productId == body.productId
      && r.value in store.carts
  {
    var item := NewCart(userId, body.productId, body.quantity);
    if !valid(item) {
      return Error(400, "Invalid cart data");
    }
    var row := store.AddToCart(item);
    r := Json(201, row);
  }

  /** `PUT /api/cart/:id`: the quantity guard, then `updateCartItem`. The row is
      not checked to belong to the caller; a missing row is answered 200 with no body. */
  method PutCart(store: Store, id: int, quantity: JsonValue) returns (r: Response<Option<CartRow>>)
    requires store.Valid()
    modifies store`carts
    ensures store.Valid()
    ensures CartQuantity(quantity).None? ==> r == Error(400, "Invalid quantity") && unchanged(store)
    ensures CartQuantity(quantity).Some? ==>
      store.carts == WithQuantity(old(store.carts), id, quantity.n)
      && r == Json(200, Find(CartIdIs(id), store.carts))
  {
    match CartQuantity(quantity)
    case None =>
      return Error(400, "Invalid quantity");
    case Some(q) =>
      var row := store.UpdateCartItem(id, q);
      r := Json(200, row);
  }

  /** `DELETE /api/cart/:id`, with no ownership check. */
  method DeleteCartItem(store: Store, id: int) returns (r: Response<()>)
    requires store.Valid()
    modifies store`carts
    ensures store.Valid()
    ensures r == NoContent && store.carts == Filter(CartIdIsNot(id), old(store.carts))
  {
    store.RemoveFromCart(id);
    r := NoContent;
  }

  /** `DELETE /api/cart`: empties the caller's own cart. */
  method DeleteCart(store: Store, userId: UserId) returns (r: Response<()>)
    requires store.Valid()
    modifies store`carts
    ensures store.Valid()
    ensures r == NoContent && store.carts == Filter(CartNotOf(userId), old(store.carts))
  {
    store.ClearCart(userId);
    r := NoContent;
  }

  /** `POST /api/wishlist`. */
  method PostWishlist(store: Store, userId: UserId, body: WishlistBody, valid: NewWishlist -> bool)
    returns (r: Response<WishlistRow>)
    requires store.Valid()
    modifies store`wishlists, store`nextWishlistId
    ensures store.Valid()
    ensures !valid(NewWishlist(userId, body.productId)) ==> r == Error(400, "Invalid wishlist data") && unchanged(store)
    ensures valid(NewWishlist(userId, body.productId)) ==>
      r == Json(201, WishlistRow(old(store.nextWishlistId), userId, body.productId))
      && store.wishlists == old(store.wishlists) + [r.value]
  {
    var item := NewWishlist(userId, body.productId);
    if !valid(item) {
      return Error(400, "Invalid wishlist data");
    }
    var row := store.AddToWishlist(item);
    r := Json(201, row);
  }

  /** `DELETE /api/wishlist/:id`, with no ownership check. */
  method DeleteWishlistItem(store: Store, id: int) returns (r: Response<()>)
    requires store.Valid()
    modifies store`wishlists
    ensures store.Valid()
    ensures r == NoContent && store.wishlists == Filter(WishlistIdIsNot(id), old(store.wishlists))
  {
    store.RemoveFromWishlist(id);
    r := NoContent;
  }

  /** `POST /api/products/:id/reviews`: the path's product id and the session's
      user id override the body's. */
  method PostReview(store: Store, userId: UserId, productId: int, body: ReviewBody, valid: NewReview -> bool)
    returns (r: Response<Review>)
    requires store.Valid()
    modifies store`reviews, store`nextReviewId
    ensures store.Valid()
    ensures !valid(NewReview(productId, userId, body.rating, body.title, body.comment)) ==>
      r == Error(400, "Invalid review data") && unchanged(store)
    ensures valid(NewReview(productId, userId, body.rating, body.title, body.comment)) ==>
      r == Json(201, Review(old(store.nextReviewId), productId, userId, body.rating, body.title, body.comment))
      && store.reviews == old(store.reviews) + [r.value]
  {
    var data := NewReview(productId, userId, body.rating, body.title, body.comment);
    if !valid(data) {
      return Error(400, "Invalid review data");
    }
    var review := store.CreateReview(data);
    r := Json(201, review);
  }

  /** The order header `POST /api/orders` validates: the client's fields with
      the session's user id and the generated order number. */
  function OrderHeader(data: OrderData, userId: UserId, orderNumber: string): (o: NewOrder)
    ensures o.userId == userId && o.orderNumber == orderNumber
    ensures o.totalAmount == data.totalAmount && o.shippingAddress == data.shippingAddress
    ensures o.billingAddress == data.billingAddress && o.paymentMethod == data.paymentMethod
    ensures o.paymentStatus == data.paymentStatus && o.status == data.status
  {
    NewOrder(userId, orderNumber, data.totalAmount, data.shippingAddress, data.billingAddress,
             data.paymentMethod, data.paymentStatus, data.status)
  }

  /** `z.array(itemSchema).parse(items)`: an array whose every element validates. */
  predicate ItemsValid(items: Option<seq<NewOrderItem>>, valid: NewOrderItem -> bool) {
    items.Some? && forall i :: 0 <= i < |items.value| ==> valid(items.value[i])
  }

  /** `POST /api/orders`: validate the header, then the items, before any
      write; create the order; then clear the caller's cart. A failure of the
      item insert leaves the header written, skips the cart clear and is
      answered with 500. */
  method PostOrder(store: Store, userId: UserId, data: OrderData, items: Option<seq<NewOrderItem>>,
                   orderNumber: string, orderValid: NewOrder -> bool, itemValid: NewOrderItem -> bool,
                   itemsInsertFails: bool)
    returns (r: Response<Order>)
    requires store.Valid()
    modifies store`orders, store`nextOrderId, store`orderItems, store`nextOrderItemId, store`carts
    ensures store.Valid()
    ensures !orderValid(OrderHeader(data, userId, orderNumber)) || !ItemsValid(items, itemValid) ==>
      r == Error(400, "Invalid order data") && unchanged(store)
    ensures orderValid(OrderHeader(data, userId, orderNumber)) && ItemsValid(items, itemValid) ==>
      store.orders == old(store.orders) + [Order(old(store.nextOrderId), userId, orderNumber, data.totalAmount,
                                                 data.shippingAddress, data.billingAddress, data.paymentMethod,
                                                 data.paymentStatus, data.status)]
    ensures orderValid(OrderHeader(data, userId, orderNumber)) && ItemsValid(items, itemValid) && itemsInsertFails ==>
      r == Error(500, "Failed to create order") && store.carts == old(store.carts) && store.orderItems == old(store.orderItems)
    ensures orderValid(OrderHeader(data, userId, orderNumber)) && ItemsValid(items, itemValid) && !itemsInsertFails ==>
      r == Json(201, store.orders[|store.orders| - 1])
      && store.orderItems == old(store.orderItems) + StampItems(items.value, old(store.nextOrderId), old(store.nextOrderItemId))
    ensures orderValid(OrderHeader(data, userId, orderNumber)) && ItemsValid(items, itemValid) && !itemsInsertFails ==>
      store.carts == Filter(CartNotOf(userId), old(store.carts))
    ensures orderValid(OrderHeader(data, userId, orderNumber)) && ItemsValid(items, itemValid) && !itemsInsertFails ==>
      store.CartByUser(userId) == []
  {
    var header := OrderHeader(data, userId, orderNumber);
    if !orderValid(header) || !ItemsValid(items, itemValid) {
      return Error(400, "Invalid order data");
    }
    var o, ok := store.CreateOrder(header, items.value, itemsInsertFails);
    if !ok {
      return Error(500, "Failed to create order");
    }
    store.ClearCart(userId);
    r := Json(201, o);
  }
}
