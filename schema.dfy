/** The rows of the storefront's tables and the payloads that travel between
    the client pages and the request handlers. The shared schema module that
    declares them in the repository (`@shared/schema`) is not part of this
    model; the fields kept here are the ones the modelled code reads or writes.
    Timestamps are dropped: tables are sequences in insertion order. */
module Schema {
  import opened Collections

  /** Decimal money columns (`decimal(10, 2)`), read as exact reals; the
      client parses them with `parseFloat`. */
  type Money = real

  /** The identity provider's subject id. */
  type UserId = string

  datatype User = User(id: UserId, isAdmin: bool)

  datatype Category = Category(id: int, name: string, slug: string)
  datatype CategoryData = CategoryData(name: string, slug: string)

  datatype Product = Product(
    id: int, name: string, slug: string, price: Money, originalPrice: Option<Money>,
    categoryId: Option<int>, stock: int, isActive: bool, isFeatured: bool)

  datatype ProductData = ProductData(
    name: string, slug: string, price: Money, originalPrice: Option<Money>,
    categoryId: Option<int>, stock: int, isActive: bool, isFeatured: bool)

  /** `insertProductSchema.partial()`: only the fields that are present are written. */
  datatype ProductPatch = ProductPatch(
    name: Option<string>, slug: Option<string>, price: Option<Money>, originalPrice: Option<Option<Money>>,
    categoryId: Option<Option<int>>, stock: Option<int>, isActive: Option<bool>, isFeatured: Option<bool>)

  datatype Review = Review(id: int, productId: int, userId: UserId, rating: int, title: string, comment: string)
  datatype NewReview = NewReview(productId: int, userId: UserId, rating: int, title: string, comment: string)

  datatype CartRow = CartRow(id: int, userId: UserId, productId: int, quantity: int)
  datatype NewCart = NewCart(userId: UserId, productId: int, quantity: int)

  datatype WishlistRow = WishlistRow(id: int, userId: UserId, productId: int)
  datatype NewWishlist = NewWishlist(userId: UserId, productId: int)

  datatype Address = Address(street: string, city: string, state: string, zipCode: string, country: string)

  datatype Order = Order(
    id: int, userId: UserId, orderNumber: string, totalAmount: Money,
    shippingAddress: Address, billingAddress: Address,
    paymentMethod: string, paymentStatus: string, status: string)

  datatype NewOrder = NewOrder(
    userId: UserId, orderNumber: string, totalAmount: Money,
    shippingAddress: Address, billingAddress: Address,
    paymentMethod: string, paymentStatus: string, status: string)

  datatype OrderItem = OrderItem(id: int, orderId: int, productId: int, quantity: int, price: Money)
  datatype NewOrderItem = NewOrderItem(productId: int, quantity: int, price: Money)

  datatype Coupon = Coupon(
    id: int, code: string, discountType: string, discountValue: Money,
    minOrderAmount: Option<Money>, maxUses: Option<int>, usedCount: int,
    isActive: bool, expiresAt: Option<int>)

  datatype NewCoupon = NewCoupon(
    code: string, discountType: string, discountValue: Money,
    minOrderAmount: Option<Money>, maxUses: Option<int>, usedCount: int,
    isActive: bool, expiresAt: Option<int>)

  /** A cart row joined with its product, as `GET /api/cart` returns it. */
  datatype CartItemWithProduct = CartItemWithProduct(row: CartRow, product: Product)

  /** A wishlist row joined with its product. */
  datatype WishlistItemWithProduct = WishlistItemWithProduct(row: WishlistRow, product: Product)

  /** An order item joined with its product. */
  datatype OrderItemWithProduct = OrderItemWithProduct(item: OrderItem, product: Product)

  /** An order row with its items, as the order endpoints return it. */
  datatype OrderWithItems = OrderWithItems(order: Order, items: seq<OrderItemWithProduct>)

  /** The `order` object the checkout page posts. A body may carry `userId`
      and `orderNumber` keys of its own; the server overrides both. */
  datatype OrderData = OrderData(
    userId: Option<UserId>, orderNumber: Option<string>, totalAmount: Money,
    shippingAddress: Address, billingAddress: Address,
    paymentMethod: string, paymentStatus: string, status: string)

  /** The dashboard aggregates. */
  datatype Stats = Stats(totalRevenue: real, totalOrders: nat, totalProducts: nat, totalUsers: nat)
}
