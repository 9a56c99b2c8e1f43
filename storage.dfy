/** The data-access layer (`DatabaseStorage`) over in-memory tables.

    Each table is a sequence of rows in insertion order and each serial
    column a counter holding the id the next inserted row receives. A
    `SELECT ... WHERE` is a `Filter`, `ORDER BY createdAt DESC` is `Reverse`
    of insertion order, an inner join with `products` drops the rows whose
    product is gone, an `UPDATE ... WHERE` rewrites the matching rows in
    place and a `DELETE ... WHERE` keeps the others. */
module Storage {
  import opened Collections
  import opened Schema

  // ---------------------------------------------------------------------------
  // Row predicates (named, so that the same filter is the same value everywhere)

  function CartOf(userId: UserId): CartRow -> bool { (r: CartRow) => r.userId == userId }
  function CartFor(userId: UserId, productId: int): CartRow -> bool {
    (r: CartRow) => r.userId == userId && r.productId == productId
  }
  function CartIdIs(id: int): CartRow -> bool { (r: CartRow) => r.id == id }
  function CartIdIsNot(id: int): CartRow -> bool { (r: CartRow) => r.id != id }
  function CartNotOf(userId: UserId): CartRow -> bool { (r: CartRow) => r.userId != userId }
  function WishlistOf(userId: UserId): WishlistRow -> bool { (r: WishlistRow) => r.userId == userId }
  function WishlistIdIsNot(id: int): WishlistRow -> bool { (r: WishlistRow) => r.id != id }
  function OrderOf(userId: UserId): Order -> bool { (o: Order) => o.userId == userId }
  function OrderIdIs(id: int): Order -> bool { (o: Order) => o.id == id }
  function ItemOfOrder(orderId: int): OrderItem -> bool { (it: OrderItem) => it.orderId == orderId }
  function ProductIdIs(id: int): Product -> bool { (p: Product) => p.id == id }
  function ProductIdIsNot(id: int): Product -> bool { (p: Product) => p.id != id }
  function ProductIsActive(): Product -> bool { (p: Product) => p.isActive }
  function ReviewOf(productId: int): Review -> bool { (r: Review) => r.productId == productId }
  function UserIdIs(id: UserId): User -> bool { (u: User) => u.id == id }
  function ActiveCouponWithCode(code: string): Coupon -> bool { (c: Coupon) => c.code == code && c.isActive }

  // ---------------------------------------------------------------------------
  // Table invariants

  /** Two cart rows, the first inserted earlier: ascending serial ids, and never
      the same (userId, productId) pair. */
  function CartRowsCompatible(a: CartRow, b: CartRow): bool {
    a.id < b.id && !(a.userId == b.userId && a.productId == b.productId)
  }

  function IdsAscending(a: Order, b: Order): bool { a.id < b.id }

  function UserIdsDiffer(a: User, b: User): bool { a.id != b.id }

  // ---------------------------------------------------------------------------
  // Cart reconciliation

  /** The cart table after `addToCart(item)`: an existing row for the same
      (userId, productId) has its quantity raised by `item.quantity`;
      otherwise a new row with serial id `newId` is appended. */
  function MergeIntoCart(rows: seq<CartRow>, item: NewCart, newId: int): seq<CartRow> {
    match FirstIndex(CartFor(item.userId, item.productId), rows)
    case Some(k) => rows[k := rows[k].(quantity := rows[k].quantity + item.quantity)]
    case None => rows + [CartRow(newId, item.userId, item.productId, item.quantity)]
  }

  /** Total quantity the rows hold for (userId, productId). */
  function PairQuantity(rows: seq<CartRow>, userId: UserId, productId: int): int
    decreases |rows|
  {
    if rows == [] then 0
    else (if rows[0].userId == userId && rows[0].productId == productId then rows[0].quantity else 0)
         + PairQuantity(rows[1..], userId, productId)
  }

  lemma {:induction false} PairQuantityAppend(rows: seq<CartRow>, r: CartRow, userId: UserId, productId: int)
    ensures PairQuantity(rows + [r], userId, productId)
         == PairQuantity(rows, userId, productId) + (if r.userId == userId && r.productId == productId then r.quantity else 0)
    decreases |rows|
  {
    if rows != [] {
      assert (rows + [r])[1..] == rows[1..] + [r];
      PairQuantityAppend(rows[1..], r, userId, productId);
    } else {
      assert [r][1..] == [];
    }
  }

  lemma {:induction false} PairQuantityUpdate(rows: seq<CartRow>, k: nat, q: int, userId: UserId, productId: int)
    requires k < |rows|
    ensures PairQuantity(rows[k := rows[k].(quantity := q)], userId, productId)
         == PairQuantity(rows, userId, productId)
            + (if rows[k].userId == userId && rows[k].productId == productId then q - rows[k].quantity else 0)
    decreases |rows|
  {
    var t := rows[k := rows[k].(quantity := q)];
    if k == 0 {
      assert t[1..] == rows[1..];
    } else {
      assert t[1..] == rows[1..][k - 1 := rows[k].(quantity := q)];
      PairQuantityUpdate(rows[1..], k - 1, q, userId, productId);
    }
  }

  /** `addToCart` accumulates: the pair it names gains exactly the added
      quantity, and every other (userId, productId) pair keeps its total. */
  lemma MergeAccumulates(rows: seq<CartRow>, item: NewCart, newId: int, userId: UserId, productId: int)
    ensures PairQuantity(MergeIntoCart(rows, item, newId), userId, productId)
         == PairQuantity(rows, userId, productId)
            + (if userId == item.userId && productId == item.productId then item.quantity else 0)
  {
    match FirstIndex(CartFor(item.userId, item.productId), rows)
    case Some(k) =>
      PairQuantityUpdate(rows, k, rows[k].quantity + item.quantity, userId, productId);
    case None =>
      PairQuantityAppend(rows, CartRow(newId, item.userId, item.productId, item.quantity), userId, productId);
  }

  /** With a row for the pair already present, `addToCart` adds no row and
      raises exactly that row's quantity by the added amount. */
  lemma MergeIntoExistingRow(rows: seq<CartRow>, item: NewCart, newId: int)
    requires Pairwise(rows, CartRowsCompatible)
    requires exists i :: 0 <= i < |rows| && CartFor(item.userId, item.productId)(rows[i])
    ensures var r := MergeIntoCart(rows, item, newId);
      && |r| == |rows|
      && forall i :: 0 <= i < |rows| ==>
           r[i] == if CartFor(item.userId, item.productId)(rows[i])
                   then rows[i].(quantity := rows[i].quantity + item.quantity) else rows[i]
  {
    var f := CartFor(item.userId, item.productId);
    var k := FirstIndex(f, rows).value;
    forall i | 0 <= i < |rows| && i != k ensures !f(rows[i]) {
      if i < k { assert CartRowsCompatible(rows[i], rows[k]); }
      else { assert CartRowsCompatible(rows[k], rows[i]); }
    }
  }

  /** Without a row for the pair, `addToCart` appends exactly one row, with the
      given quantity and the next serial id, and changes nothing else. */
  lemma MergeIntoNewRow(rows: seq<CartRow>, item: NewCart, newId: int)
    requires forall i :: 0 <= i < |rows| ==> !CartFor(item.userId, item.productId)(rows[i])
    ensures MergeIntoCart(rows, item, newId) == rows + [CartRow(newId, item.userId, item.productId, item.quantity)]
  {
  }

  /** `addToCart` keeps at most one row per (userId, productId) and ascending
      ids, provided the new serial id exceeds every existing one. */
  lemma MergeKeepsCartsValid(rows: seq<CartRow>, item: NewCart, newId: int)
    requires CartsValid(rows, newId)
    ensures var r := MergeIntoCart(rows, item, newId);
      && |rows| <= |r| <= |rows| + 1
      && CartsValid(r, newId + |r| - |rows|)
  {
    var r := MergeIntoCart(rows, item, newId);
    match FirstIndex(CartFor(item.userId, item.productId), rows)
    case Some(k) =>
      forall i, j | 0 <= i < j < |r| ensures CartRowsCompatible(r[i], r[j]) {
        assert CartRowsCompatible(rows[i], rows[j]);
      }
      assert forall i :: 0 <= i < |r| ==> r[i].id == rows[i].id;
    case None =>
      var row := CartRow(newId, item.userId, item.productId, item.quantity);
      PairwiseAppend(rows, row, CartRowsCompatible);
      assert forall i :: 0 <= i < |rows| ==> r[i] == rows[i];
      assert r[|rows|] == row;
  }

  /** After `addToCart` the pair it names has exactly one row. */
  lemma MergeLeavesOneRow(rows: seq<CartRow>, item: NewCart, newId: int)
    requires Pairwise(rows, CartRowsCompatible)
    ensures var r := MergeIntoCart(rows, item, newId);
      exists k :: 0 <= k < |r| && CartFor(item.userId, item.productId)(r[k])
        && forall j :: 0 <= j < |r| && j != k ==> !CartFor(item.userId, item.productId)(r[j])
  {
    var r := MergeIntoCart(rows, item, newId);
    var f := CartFor(item.userId, item.productId);
    match FirstIndex(f, rows)
    case Some(k) =>
      assert f(r[k]);
      forall j | 0 <= j < |r| && j != k ensures !f(r[j]) {
        if j < k { assert CartRowsCompatible(rows[j], rows[k]); }
        else { assert CartRowsCompatible(rows[k], rows[j]); }
      }
    case None =>
      assert f(r[|rows|]);
  }

  /** The cart table after `updateCartItem(id, quantity)`. */
  function WithQuantity(rows: seq<CartRow>, id: int, quantity: int): (r: seq<CartRow>)
    ensures |r| == |rows|
    ensures forall i :: 0 <= i < |rows| ==> r[i] == (if rows[i].id == id then rows[i].(quantity := quantity) else rows[i])
  {
    seq(|rows|, i requires 0 <= i < |rows| => if rows[i].id == id then rows[i].(quantity := quantity) else rows[i])
  }

  // ---------------------------------------------------------------------------
  // Inner joins with the products table

  predicate HasProduct(products: seq<Product>, id: int) {
    Find(ProductIdIs(id), products).Some?
  }

  function CartRowHasProduct(products: seq<Product>): CartRow -> bool {
    (x: CartRow) => HasProduct(products, x.productId)
  }
  function WishlistRowHasProduct(products: seq<Product>): WishlistRow -> bool {
    (x: WishlistRow) => HasProduct(products, x.productId)
  }
  function ItemHasProduct(products: seq<Product>): OrderItem -> bool {
    (x: OrderItem) => HasProduct(products, x.productId)
  }

  function CartRowsOf(items: seq<CartItemWithProduct>): (r: seq<CartRow>)
    ensures |r| == |items|
    ensures forall i :: 0 <= i < |items| ==> r[i] == items[i].row
  {
    seq(|items|, i requires 0 <= i < |items| => items[i].row)
  }

  lemma CartRowsOfAppend(a: seq<CartItemWithProduct>, b: seq<CartItemWithProduct>)
    ensures CartRowsOf(a + b) == CartRowsOf(a) + CartRowsOf(b)
  {
    assert forall i :: 0 <= i < |a + b| ==> CartRowsOf(a + b)[i] == (CartRowsOf(a) + CartRowsOf(b))[i];
  }

  function WishlistRowsOf(items: seq<WishlistItemWithProduct>): (r: seq<WishlistRow>)
    ensures |r| == |items|
    ensures forall i :: 0 <= i < |items| ==> r[i] == items[i].row
  {
    seq(|items|, i requires 0 <= i < |items| => items[i].row)
  }

  lemma WishlistRowsOfAppend(a: seq<WishlistItemWithProduct>, b: seq<WishlistItemWithProduct>)
    ensures WishlistRowsOf(a + b) == WishlistRowsOf(a) + WishlistRowsOf(b)
  {
    assert forall i :: 0 <= i < |a + b| ==> WishlistRowsOf(a + b)[i] == (WishlistRowsOf(a) + WishlistRowsOf(b))[i];
  }

  function ItemRowsOf(items: seq<OrderItemWithProduct>): (r: seq<OrderItem>)
    ensures |r| == |items|
    ensures forall i :: 0 <= i < |items| ==> r[i] == items[i].item
  {
    seq(|items|, i requires 0 <= i < |items| => items[i].item)
  }

  lemma ItemRowsOfAppend(a: seq<OrderItemWithProduct>, b: seq<OrderItemWithProduct>)
    ensures ItemRowsOf(a + b) == ItemRowsOf(a) + ItemRowsOf(b)
  {
    assert forall i :: 0 <= i < |a + b| ==> ItemRowsOf(a + b)[i] == (ItemRowsOf(a) + ItemRowsOf(b))[i];
  }

  /** `innerJoin(products, eq(products.id, row.productId))` over cart rows. */
  function JoinCart(rows: seq<CartRow>, products: seq<Product>): (r: seq<CartItemWithProduct>)
    ensures forall i :: 0 <= i < |r| ==> r[i].row in rows
    ensures forall i :: 0 <= i < |r| ==> r[i].product in products && r[i].product.id == r[i].row.productId
    decreases |rows|
  {
    if rows == [] then []
    else
      (match Find(ProductIdIs(rows[0].productId), products)
       case None => []
       case Some(p) => [CartItemWithProduct(rows[0], p)])
      + JoinCart(rows[1..], products)
  }

  /** The joined listing holds exactly the rows whose product still exists, in order. */
  lemma {:induction false} JoinCartRows(rows: seq<CartRow>, products: seq<Product>)
    ensures CartRowsOf(JoinCart(rows, products)) == Filter(CartRowHasProduct(products), rows)
    decreases |rows|
  {
    if rows != [] {
      JoinCartRows(rows[1..], products);
      var head := match Find(ProductIdIs(rows[0].productId), products)
        case None => []
        case Some(p) => [CartItemWithProduct(rows[0], p)];
      var tail := JoinCart(rows[1..], products);
      assert JoinCart(rows, products) == head + tail;
      CartRowsOfAppend(head, tail);
      assert CartRowsOf(head) == if CartRowHasProduct(products)(rows[0]) then [rows[0]] else [];
    }
  }

  /** The same inner join over wishlist rows. */
  function JoinWishlist(rows: seq<WishlistRow>, products: seq<Product>): (r: seq<WishlistItemWithProduct>)
    ensures forall i :: 0 <= i < |r| ==> r[i].row in rows
    ensures forall i :: 0 <= i < |r| ==> r[i].product in products && r[i].product.id == r[i].row.productId
    decreases |rows|
  {
    if rows == [] then []
    else
      (match Find(ProductIdIs(rows[0].productId), products)
       case None => []
       case Some(p) => [WishlistItemWithProduct(rows[0], p)])
      + JoinWishlist(rows[1..], products)
  }

  lemma {:induction false} JoinWishlistRows(rows: seq<WishlistRow>, products: seq<Product>)
    ensures WishlistRowsOf(JoinWishlist(rows, products)) == Filter(WishlistRowHasProduct(products), rows)
    decreases |rows|
  {
    if rows != [] {
      JoinWishlistRows(rows[1..], products);
      var head := match Find(ProductIdIs(rows[0].productId), products)
        case None => []
        case Some(p) => [WishlistItemWithProduct(rows[0], p)];
      var tail := JoinWishlist(rows[1..], products);
      assert JoinWishlist(rows, products) == head + tail;
      WishlistRowsOfAppend(head, tail);
      assert WishlistRowsOf(head) == if WishlistRowHasProduct(products)(rows[0]) then [rows[0]] else [];
    }
  }

  /** The same inner join over order items. */
  function JoinOrderItems(items: seq<OrderItem>, products: seq<Product>): (r: seq<OrderItemWithProduct>)
    ensures forall i :: 0 <= i < |r| ==> r[i].item in items
    ensures forall i :: 0 <= i < |r| ==> r[i].product in products && r[i].product.id == r[i].item.productId
    decreases |items|
  {
    if items == [] then []
    else
      (match Find(ProductIdIs(items[0].productId), products)
       case None => []
       case Some(p) => [OrderItemWithProduct(items[0], p)])
      + JoinOrderItems(items[1..], products)
  }

  lemma {:induction false} JoinOrderItemsRows(items: seq<OrderItem>, products: seq<Product>)
    ensures ItemRowsOf(JoinOrderItems(items, products)) == Filter(ItemHasProduct(products), items)
    decreases |items|
  {
    if items != [] {
      JoinOrderItemsRows(items[1..], products);
      var head := match Find(ProductIdIs(items[0].productId), products)
        case None => []
        case Some(p) => [OrderItemWithProduct(items[0], p)];
      var tail := JoinOrderItems(items[1..], products);
      assert JoinOrderItems(items, products) == head + tail;
      ItemRowsOfAppend(head, tail);
      assert ItemRowsOf(head) == if ItemHasProduct(products)(items[0]) then [items[0]] else [];
    }
  }

  /** When every item's product exists, the join drops nothing. */
  lemma JoinOrderItemsComplete(items: seq<OrderItem>, products: seq<Product>)
    requires forall i :: 0 <= i < |items| ==> HasProduct(products, items[i].productId)
    ensures ItemRowsOf(JoinOrderItems(items, products)) == items
  {
    JoinOrderItemsRows(items, products);
    FilterAll(ItemHasProduct(products), items);
  }

  /** One order with its items (`{ ...order, orderItems: items }`). */
  function WithItems(o: Order, items: seq<OrderItem>, products: seq<Product>): (r: OrderWithItems)
    ensures r.order == o
    ensures forall i :: 0 <= i < |r.items| ==> r.items[i].item.orderId == o.id && r.items[i].item in items
  {
    OrderWithItems(o, JoinOrderItems(Filter(ItemOfOrder(o.id), items), products))
  }

  /** Each order with its items. */
  function AttachItems(os: seq<Order>, items: seq<OrderItem>, products: seq<Product>): (r: seq<OrderWithItems>)
    ensures |r| == |os|
    ensures forall i :: 0 <= i < |os| ==> r[i] == WithItems(os[i], items, products)
  {
    seq(|os|, i requires 0 <= i < |os| => WithItems(os[i], items, products))
  }

  function WithItemsOf(userId: UserId): OrderWithItems -> bool { (x: OrderWithItems) => x.order.userId == userId }

  /** Selecting one user's orders commutes with attaching the items. */
  lemma {:induction false} AttachItemsFilter(os: seq<Order>, items: seq<OrderItem>, products: seq<Product>, userId: UserId)
    ensures Filter(WithItemsOf(userId), AttachItems(os, items, products))
         == AttachItems(Filter(OrderOf(userId), os), items, products)
    decreases |os|
  {
    if os != [] {
      AttachItemsFilter(os[1..], items, products, userId);
      AttachItemsCons(os, items, products);
      var ft := Filter(OrderOf(userId), os[1..]);
      if os[0].userId == userId {
        var fs := Filter(OrderOf(userId), os);
        assert fs == [os[0]] + ft;
        assert fs[0] == os[0] && fs[1..] == ft;
        AttachItemsCons(fs, items, products);
      } else {
        assert Filter(OrderOf(userId), os) == ft;
      }
    }
  }

  lemma AttachItemsCons(os: seq<Order>, items: seq<OrderItem>, products: seq<Product>)
    requires os != []
    ensures AttachItems(os, items, products) == [WithItems(os[0], items, products)] + AttachItems(os[1..], items, products)
  {
    var a := AttachItems(os, items, products);
    assert a[1..] == AttachItems(os[1..], items, products);
  }

  // ---------------------------------------------------------------------------
  // Orders

  /** The item rows `createOrder` inserts: the supplied items, each stamped with
      the new order's id and given consecutive serial ids from `firstId`. */
  function StampItems(items: seq<NewOrderItem>, orderId: int, firstId: int): (r: seq<OrderItem>)
    ensures |r| == |items|
    ensures forall i :: 0 <= i < |items| ==>
      r[i] == OrderItem(firstId + i, orderId, items[i].productId, items[i].quantity, items[i].price)
  {
    seq(|items|, i requires 0 <= i < |items| =>
      OrderItem(firstId + i, orderId, items[i].productId, items[i].quantity, items[i].price))
  }

  /** Right after `createOrder`, the items of the new order are exactly the
      stamped items, in order: no earlier item can point at the new id. */
  lemma NewOrderItemsAreStamped(existing: seq<OrderItem>, items: seq<NewOrderItem>, orderId: int, firstId: int)
    requires forall i :: 0 <= i < |existing| ==> existing[i].orderId < orderId
    ensures Filter(ItemOfOrder(orderId), existing + StampItems(items, orderId, firstId)) == StampItems(items, orderId, firstId)
  {
    FilterNone(ItemOfOrder(orderId), existing);
    FilterAll(ItemOfOrder(orderId), StampItems(items, orderId, firstId));
    FilterAppend(ItemOfOrder(orderId), existing, StampItems(items, orderId, firstId));
  }

  /** The order table after `updateOrderStatus(id, status)`. */
  function WithStatus(os: seq<Order>, id: int, status: string): (r: seq<Order>)
    ensures |r| == |os|
    ensures forall i :: 0 <= i < |os| ==> r[i] == (if os[i].id == id then os[i].(status := status) else os[i])
  {
    seq(|os|, i requires 0 <= i < |os| => if os[i].id == id then os[i].(status := status) else os[i])
  }

  /** `SUM(totalAmount) WHERE paymentStatus = 'completed'` (0 when no row matches). */
  function Revenue(os: seq<Order>): real
    decreases |os|
  {
    if os == [] then 0.0
    else (if os[0].paymentStatus == "completed" then os[0].totalAmount else 0.0) + Revenue(os[1..])
  }

  /** With non-negative order amounts the revenue is non-negative and at most
      the sum of all amounts: unpaid orders never count. */
  lemma {:induction false} RevenueBounds(os: seq<Order>)
    requires forall i :: 0 <= i < |os| ==> os[i].totalAmount >= 0.0
    ensures 0.0 <= Revenue(os) <= TotalAmount(os)
    decreases |os|
  {
    if os != [] {
      RevenueBounds(os[1..]);
    }
  }

  /** The sum of every order's amount, paid or not. */
  function TotalAmount(os: seq<Order>): real
    decreases |os|
  {
    if os == [] then 0.0 else os[0].totalAmount + TotalAmount(os[1..])
  }

  /** A new order adds its amount to the revenue exactly when it is already paid. */
  lemma {:induction false} RevenueAppend(os: seq<Order>, o: Order)
    ensures Revenue(os + [o]) == Revenue(os) + (if o.paymentStatus == "completed" then o.totalAmount else 0.0)
    decreases |os|
  {
    if os == [] {
      assert [o][1..] == [];
    } else {
      assert (os + [o])[1..] == os[1..] + [o];
      RevenueAppend(os[1..], o);
    }
  }

  /** Changing an order's fulfilment status never changes the revenue, which
      depends on the payment status only. */
  lemma {:induction false} RevenueIgnoresStatus(os: seq<Order>, id: int, status: string)
    ensures Revenue(WithStatus(os, id, status)) == Revenue(os)
    decreases |os|
  {
    if os != [] {
      assert WithStatus(os, id, status)[1..] == WithStatus(os[1..], id, status);
      RevenueIgnoresStatus(os[1..], id, status);
    }
  }

  /** `updateProduct`: the fields present in the patch overwrite the row's. */
  function Patched(p: Product, patch: ProductPatch): (r: Product)
    ensures r.id == p.id
    ensures patch == ProductPatch(None, None, None, None, None, None, None, None) ==> r == p
  {
    p.(name := if patch.name.Some? then patch.name.value else p.name,
       slug := if patch.slug.Some? then patch.slug.value else p.slug,
       price := if patch.price.Some? then patch.price.value else p.price,
       originalPrice := if patch.originalPrice.Some? then patch.originalPrice.value else p.originalPrice,
       categoryId := if patch.categoryId.Some? then patch.categoryId.value else p.categoryId,
       stock := if patch.stock.Some? then patch.stock.value else p.stock,
       isActive := if patch.isActive.Some? then patch.isActive.value else p.isActive,
       isFeatured := if patch.isFeatured.Some? then patch.isFeatured.value else p.isFeatured)
  }

  /** Applying the same patch twice is applying it once. */
  lemma PatchIdempotent(p: Product, patch: ProductPatch)
    ensures Patched(Patched(p, patch), patch) == Patched(p, patch)
  {
  }

  function WithPatch(ps: seq<Product>, id: int, patch: ProductPatch): (r: seq<Product>)
    ensures |r| == |ps|
    ensures forall i :: 0 <= i < |ps| ==> r[i] == (if ps[i].id == id then Patched(ps[i], patch) else ps[i])
  {
    seq(|ps|, i requires 0 <= i < |ps| => if ps[i].id == id then Patched(ps[i], patch) else ps[i])
  }

  /** `upsertUser`: the row with the same id is replaced, or the user is added. */
  function Upserted(users: seq<User>, u: User): seq<User> {
    match FirstIndex(UserIdIs(u.id), users)
    case Some(k) => users[k := u]
    case None => users + [u]
  }

  /** Upserting keeps user ids unique, and afterwards the user is found by id. */
  lemma UpsertKeepsIdsUnique(users: seq<User>, u: User)
    requires Pairwise(users, UserIdsDiffer)
    ensures Pairwise(Upserted(users, u), UserIdsDiffer)
    ensures Find(UserIdIs(u.id), Upserted(users, u)) == Some(u)
  {
    var t := Upserted(users, u);
    match FirstIndex(UserIdIs(u.id), users)
    case Some(k) =>
      forall i, j | 0 <= i < j < |t| ensures UserIdsDiffer(t[i], t[j]) {
        assert UserIdsDiffer(users[i], users[j]);
      }
      forall j | 0 <= j < |t| && j != k ensures !UserIdIs(u.id)(t[j]) {
        if j < k { assert UserIdsDiffer(users[j], users[k]); }
        else { assert UserIdsDiffer(users[k], users[j]); }
      }
      assert UserIdIs(u.id)(t[k]);
      assert FirstIndex(UserIdIs(u.id), t) == Some(k);
    case None =>
      PairwiseAppend(users, u, UserIdsDiffer);
      assert forall j :: 0 <= j < |users| ==> t[j] == users[j];
      assert UserIdIs(u.id)(t[|users|]);
      assert FirstIndex(UserIdIs(u.id), t) == Some(|users|);
  }

  ghost predicate CartsValid(carts: seq<CartRow>, nextCartId: int) {
    && Pairwise(carts, CartRowsCompatible)
    && (forall i :: 0 <= i < |carts| ==> carts[i].id < nextCartId)
    && 1 <= nextCartId
  }

  ghost predicate WishlistsValid(wishlists: seq<WishlistRow>, nextWishlistId: int) {
    && (forall i :: 0 <= i < |wishlists| ==> wishlists[i].id < nextWishlistId)
    && 1 <= nextWishlistId
  }

  ghost predicate OrdersValid(orders: seq<Order>, orderItems: seq<OrderItem>, nextOrderId: int, nextOrderItemId: int) {
    && Pairwise(orders, IdsAscending)
    && (forall i :: 0 <= i < |orders| ==> orders[i].id < nextOrderId)
    && (forall i :: 0 <= i < |orderItems| ==> orderItems[i].id < nextOrderItemId && orderItems[i].orderId < nextOrderId)
    && 1 <= nextOrderId && 1 <= nextOrderItemId
  }

  // ---------------------------------------------------------------------------

  class Store {
    var users: seq<User>
    var categories: seq<Category>
    var products: seq<Product>
    var reviews: seq<Review>
    var carts: seq<CartRow>
    var wishlists: seq<WishlistRow>
    var orders: seq<Order>
    var orderItems: seq<OrderItem>
    var coupons: seq<Coupon>

    // Serial counters: the id the next inserted row of each table receives.
    var nextCategoryId: int
    var nextProductId: int
    var nextReviewId: int
    var nextCartId: int
    var nextWishlistId: int
    var nextOrderId: int
    var nextOrderItemId: int
    var nextCouponId: int

    /** The table invariants the operations keep: one row per user id; cart rows
        in ascending id order with at most one row per (userId, productId); order
        ids ascending; every serial id below its counter; every order item
        pointing at an order id already handed out. */
    ghost predicate Valid()
      reads this
    {
      && Pairwise(users, UserIdsDiffer)
      && CartsValid(carts, nextCartId)
      && WishlistsValid(wishlists, nextWishlistId)
      && OrdersValid(orders, orderItems, nextOrderId, nextOrderItemId)
    }

    constructor ()
      ensures Valid()
      ensures users == [] && categories == [] && products == [] && reviews == []
      ensures carts == [] && wishlists == [] && orders == [] && orderItems == [] && coupons == []
      ensures nextCategoryId == 1 && nextProductId == 1 && nextReviewId == 1 && nextCartId == 1
      ensures nextWishlistId == 1 && nextOrderId == 1 && nextOrderItemId == 1 && nextCouponId == 1
    {
      users, categories, products, reviews := [], [], [], [];
      carts, wishlists, orders, orderItems, coupons := [], [], [], [], [];
      nextCategoryId, nextProductId, nextReviewId, nextCartId := 1, 1, 1, 1;
      nextWishlistId, nextOrderId, nextOrderItemId, nextCouponId := 1, 1, 1, 1;
    }

    // ----- users

    /** `getUser(id)`. */
    function GetUser(id: UserId): (r: Option<User>)
      reads this
      ensures r.Some? ==> r.value in users && r.value.id == id
      ensures r.None? <==> forall i :: 0 <= i < |users| ==> users[i].id != id
    {
      Find(UserIdIs(id), users)
    }

    /** `upsertUser(user)`: insert, or on a conflicting id overwrite that row. */
    method UpsertUser(u: User) returns (r: User)
      requires Valid()
      modifies this`users
      ensures Valid()
      ensures users == Upserted(old(users), u) && r == u
      ensures GetUser(u.id) == Some(u)
    {
      UpsertKeepsIdsUnique(users, u);
      r := u;
      match FirstIndex(UserIdIs(u.id), users)
      case Some(k) =>
        users := users[k := u];
      case None =>
        users := users + [u];
    }

    // ----- categories and products

    /** `createCategory(data)`. */
    method CreateCategory(data: CategoryData) returns (c: Category)
      requires Valid()
      modifies this`categories, this`nextCategoryId
      ensures Valid()
      ensures c == Category(old(nextCategoryId), data.name, data.slug)
      ensures categories == old(categories) + [c] && nextCategoryId == old(nextCategoryId) + 1
    {
      c := Category(nextCategoryId, data.name, data.slug);
      categories := categories + [c];
      nextCategoryId := nextCategoryId + 1;
    }

    /** `getProductById(id)` without the category and review joins. */
    function GetProduct(id: int): (r: Option<Product>)
      reads this
      ensures r.Some? ==> r.value in products && r.value.id == id
      ensures r.None? <==> forall i :: 0 <= i < |products| ==> products[i].id != id
    {
      Find(ProductIdIs(id), products)
    }

    /** `createProduct(data)`. */
    method CreateProduct(data: ProductData) returns (p: Product)
      requires Valid()
      modifies this`products, this`nextProductId
      ensures Valid()
      ensures p == Product(old(nextProductId), data.name, data.slug, data.price, data.originalPrice,
                           data.categoryId, data.stock, data.isActive, data.isFeatured)
      ensures products == old(products) + [p] && nextProductId == old(nextProductId) + 1
    {
      p := Product(nextProductId, data.name, data.slug, data.price, data.originalPrice,
                   data.categoryId, data.stock, data.isActive, data.isFeatured);
      products := products + [p];
      nextProductId := nextProductId + 1;
    }

    /** `updateProduct(id, patch)`: the row with that id takes the patch's
        fields; the returned row is the updated one, or none if no row has the id. */
    method UpdateProduct(id: int, patch: ProductPatch) returns (r: Option<Product>)
      requires Valid()
      modifies this`products
      ensures Valid()
      ensures products == WithPatch(old(products), id, patch)
      ensures r == Find(ProductIdIs(id), products)
    {
      products := WithPatch(products, id, patch);
      r := Find(ProductIdIs(id), products);
    }

    /** `deleteProduct(id)`. */
    method DeleteProduct(id: int)
      requires Valid()
      modifies this`products
      ensures Valid()
      ensures products == Filter(ProductIdIsNot(id), old(products))
      ensures GetProduct(id).None?
    {
      products := Filter(ProductIdIsNot(id), products);
    }

    // ----- reviews

    /** `getReviewsByProduct(productId)`, newest first. */
    function ReviewsByProduct(productId: int): (r: seq<Review>)
      reads this
      ensures r == Reverse(Filter(ReviewOf(productId), reviews))
      ensures forall i :: 0 <= i < |r| ==> r[i].productId == productId && r[i] in reviews
    {
      Reverse(Filter(ReviewOf(productId), reviews))
    }

    /** `createReview(data)`. */
    method CreateReview(data: NewReview) returns (r: Review)
      requires Valid()
      modifies this`reviews, this`nextReviewId
      ensures Valid()
      ensures r == Review(old(nextReviewId), data.productId, data.userId, data.rating, data.title, data.comment)
      ensures reviews == old(reviews) + [r] && nextReviewId == old(nextReviewId) + 1
    {
      r := Review(nextReviewId, data.productId, data.userId, data.rating, data.title, data.comment);
      reviews := reviews + [r];
      nextReviewId := nextReviewId + 1;
    }

    // ----- cart

    /** `getCartByUser(userId)`: that user's rows joined with their products, newest first. */
    function CartByUser(userId: UserId): (r: seq<CartItemWithProduct>)
      reads this
      ensures CartRowsOf(r) == Filter(CartRowHasProduct(products), Reverse(Filter(CartOf(userId), carts)))
      ensures forall i :: 0 <= i < |r| ==> r[i].row.userId == userId && r[i].row in carts
      ensures forall i :: 0 <= i < |r| ==> r[i].product in products && r[i].product.id == r[i].row.productId
    {
      var mine := Reverse(Filter(CartOf(userId), carts));
      JoinCartRows(mine, products);
      JoinCart(mine, products)
    }

    /** The `SELECT` at the start of `addToCart`: the first cart row of
        (userId, productId), if any. */
    method FindCartRow(userId: UserId, productId: int) returns (k: Option<nat>)
      ensures k.Some? ==> k.value < |carts| && carts[k.value].userId == userId && carts[k.value].productId == productId
      ensures k.Some? ==> forall j :: 0 <= j < k.value ==> !(carts[j].userId == userId && carts[j].productId == productId)
      ensures k.None? ==> forall j :: 0 <= j < |carts| ==> !(carts[j].userId == userId && carts[j].productId == productId)
      ensures k == FirstIndex(CartFor(userId, productId), carts)
    {
      var i := 0;
      while i < |carts|
        invariant 0 <= i <= |carts|
        invariant forall j :: 0 <= j < i ==> !(carts[j].userId == userId && carts[j].productId == productId)
      {
        if carts[i].userId == userId && carts[i].productId == productId {
          return Some(i);
        }
        i := i + 1;
      }
      return None;
    }

    /** `addToCart(item)`: check for a row of the same (userId, productId), then
        either raise its quantity or insert a new row. Returns the row written. */
    method AddToCart(item: NewCart) returns (row: CartRow)
      requires Valid()
      modifies this`carts, this`nextCartId
      ensures Valid()
      ensures carts == MergeIntoCart(old(carts), item, old(nextCartId))
      ensures nextCartId == old(nextCartId) + |carts| - |old(carts)|
      ensures row in carts && row.userId == item.userId && row.productId == item.productId
    {
      MergeKeepsCartsValid(carts, item, nextCartId);
      var existing := FindCartRow(item.userId, item.productId);
      match existing
      case Some(k) =>
        row := carts[k].(quantity := carts[k].quantity + item.quantity);
        carts := carts[k := row];
        assert carts[k] == row;
      case None =>
        row := CartRow(nextCartId, item.userId, item.productId, item.quantity);
        carts := carts + [row];
        assert carts[|carts| - 1] == row;
        nextCartId := nextCartId + 1;
    }

    /** `updateCartItem(id, quantity)`: only the quantity of the row with that id
        changes; the returned row is the updated one, or none if no row has the id. */
    method UpdateCartItem(id: int, quantity: int) returns (r: Option<CartRow>)
      requires Valid()
      modifies this`carts
      ensures Valid()
      ensures carts == WithQuantity(old(carts), id, quantity)
      ensures r == Find(CartIdIs(id), carts)
      ensures r.Some? ==> r.value.quantity == quantity
    {
      var updated := WithQuantity(carts, id, quantity);
      forall i, j | 0 <= i < j < |updated| ensures CartRowsCompatible(updated[i], updated[j]) {
        assert CartRowsCompatible(carts[i], carts[j]);
      }
      carts := updated;
      r := Find(CartIdIs(id), carts);
    }

    /** `removeFromCart(id)`: exactly the row with that id goes. */
    method RemoveFromCart(id: int)
      requires Valid()
      modifies this`carts
      ensures Valid()
      ensures carts == Filter(CartIdIsNot(id), old(carts))
      ensures forall r :: r in carts <==> r in old(carts) && r.id != id
    {
      FilterPairwise(CartIdIsNot(id), carts, CartRowsCompatible);
      carts := Filter(CartIdIsNot(id), carts);
    }

    /** `clearCart(userId)`: exactly that user's rows go; every other user's rows stay, in order. */
    method ClearCart(userId: UserId)
      requires Valid()
      modifies this`carts
      ensures Valid()
      ensures carts == Filter(CartNotOf(userId), old(carts))
      ensures forall r :: r in carts <==> r in old(carts) && r.userId != userId
      ensures CartByUser(userId) == []
    {
      FilterPairwise(CartNotOf(userId), carts, CartRowsCompatible);
      carts := Filter(CartNotOf(userId), carts);
      FilterNone(CartOf(userId), carts);
    }

    // ----- wishlist

    /** `getWishlistByUser(userId)`: that user's rows joined with their products, newest first. */
    function WishlistByUser(userId: UserId): (r: seq<WishlistItemWithProduct>)
      reads this
      ensures WishlistRowsOf(r) == Filter(WishlistRowHasProduct(products), Reverse(Filter(WishlistOf(userId), wishlists)))
      ensures forall i :: 0 <= i < |r| ==> r[i].row.userId == userId && r[i].row in wishlists
      ensures forall i :: 0 <= i < |r| ==> r[i].product in products && r[i].product.id == r[i].row.productId
    {
      var mine := Reverse(Filter(WishlistOf(userId), wishlists));
      JoinWishlistRows(mine, products);
      JoinWishlist(mine, products)
    }

    /** `addToWishlist(item)`: always inserts, even when the user already has a
        row for the product. */
    method AddToWishlist(item: NewWishlist) returns (row: WishlistRow)
      requires Valid()
      modifies this`wishlists, this`nextWishlistId
      ensures Valid()
      ensures row == WishlistRow(old(nextWishlistId), item.userId, item.productId)
      ensures wishlists == old(wishlists) + [row] && nextWishlistId == old(nextWishlistId) + 1
    {
      row := WishlistRow(nextWishlistId, item.userId, item.productId);
      wishlists := wishlists + [row];
      nextWishlistId := nextWishlistId + 1;
    }

    /** `removeFromWishlist(id)`. */
    method RemoveFromWishlist(id: int)
      requires Valid()
      modifies this`wishlists
      ensures Valid()
      ensures wishlists == Filter(WishlistIdIsNot(id), old(wishlists))
      ensures forall w :: w in wishlists <==> w in old(wishlists) && w.id != id
    {
      wishlists := Filter(WishlistIdIsNot(id), wishlists);
    }

    // ----- orders

    /** `getOrdersByUser(userId)`: that user's orders, newest first, each with its items. */
    function OrdersByUser(userId: UserId): (r: seq<OrderWithItems>)
      reads this
      ensures r == AttachItems(Reverse(Filter(OrderOf(userId), orders)), orderItems, products)
      ensures forall i :: 0 <= i < |r| ==> r[i].order.userId == userId && r[i].order in orders
      ensures forall o :: o in orders && o.userId == userId ==> exists i :: 0 <= i < |r| && r[i].order == o
    {
      ReverseElements(Filter(OrderOf(userId), orders));
      AttachItems(Reverse(Filter(OrderOf(userId), orders)), orderItems, products)
    }

    /** `getAllOrders()`: every order, newest first, each with its items. */
    function AllOrders(): (r: seq<OrderWithItems>)
      reads this
      ensures r == AttachItems(Reverse(orders), orderItems, products)
      ensures |r| == |orders|
      ensures forall i :: 0 <= i < |r| ==> r[i].order == orders[|orders| - 1 - i]
    {
      AttachItems(Reverse(orders), orderItems, products)
    }

    /** A user's own view is the all-orders view restricted to that user. */
    lemma UserViewIsFilteredAdminView(userId: UserId)
      ensures OrdersByUser(userId) == Filter(WithItemsOf(userId), AllOrders())
    {
      AttachItemsFilter(Reverse(orders), orderItems, products, userId);
      FilterReverse(OrderOf(userId), orders);
    }

    /** The items of order `orderId` joined with their products (inner join). */
    function ItemsOf(orderId: int): (r: seq<OrderItemWithProduct>)
      reads this
      ensures ItemRowsOf(r) == Filter(ItemHasProduct(products), Filter(ItemOfOrder(orderId), orderItems))
      ensures forall i :: 0 <= i < |r| ==> r[i].item.orderId == orderId && r[i].item in orderItems
    {
      var mine := Filter(ItemOfOrder(orderId), orderItems);
      JoinOrderItemsRows(mine, products);
      JoinOrderItems(mine, products)
    }

    /** `getOrderById(id)`: the order with that id and its items, or none. */
    function GetOrderById(id: int): (r: Option<OrderWithItems>)
      reads this
      ensures r.Some? ==> r.value.order in orders && r.value.order.id == id && r.value.items == ItemsOf(id)
      ensures r.None? <==> forall i :: 0 <= i < |orders| ==> orders[i].id != id
    {
      match Find(OrderIdIs(id), orders)
      case None => None
      case Some(o) => Some(OrderWithItems(o, ItemsOf(o.id)))
    }

    /** `createOrder(order, items)`: insert the header row, then the item rows
        stamped with its id. When the second insert fails (`itemsInsertFails`),
        the header stays in the table without items and `ok` is false. */
    method CreateOrder(order: NewOrder, items: seq<NewOrderItem>, itemsInsertFails: bool) returns (o: Order, ok: bool)
      requires Valid()
      modifies this`orders, this`nextOrderId, this`orderItems, this`nextOrderItemId
      ensures Valid()
      ensures o == Order(old(nextOrderId), order.userId, order.orderNumber, order.totalAmount,
                         order.shippingAddress, order.billingAddress, order.paymentMethod,
                         order.paymentStatus, order.status)
      ensures orders == old(orders) + [o] && nextOrderId == old(nextOrderId) + 1
      ensures ok == !itemsInsertFails
      ensures ok ==> orderItems == old(orderItems) + StampItems(items, o.id, old(nextOrderItemId))
                     && nextOrderItemId == old(nextOrderItemId) + |items|
      ensures !ok ==> orderItems == old(orderItems) && nextOrderItemId == old(nextOrderItemId)
    {
      o := Order(nextOrderId, order.userId, order.orderNumber, order.totalAmount,
                 order.shippingAddress, order.billingAddress, order.paymentMethod,
                 order.paymentStatus, order.status);
      PairwiseAppend(orders, o, IdsAscending);
      orders := orders + [o];
      nextOrderId := nextOrderId + 1;
      if itemsInsertFails {
        ok := false;
      } else {
        orderItems := orderItems + StampItems(items, o.id, nextOrderItemId);
        nextOrderItemId := nextOrderItemId + |items|;
        ok := true;
      }
    }

    /** `updateOrderStatus(id, status)`: only that order's status changes; the
        returned row is the updated one, or none if no order has the id. */
    method UpdateOrderStatus(id: int, status: string) returns (r: Option<Order>)
      requires Valid()
      modifies this`orders
      ensures Valid()
      ensures orders == WithStatus(old(orders), id, status)
      ensures r == Find(OrderIdIs(id), orders)
      ensures r.Some? ==> r.value.status == status
      ensures Revenue(orders) == Revenue(old(orders))
    {
      var updated := WithStatus(orders, id, status);
      forall i, j | 0 <= i < j < |updated| ensures IdsAscending(updated[i], updated[j]) {
        assert IdsAscending(orders[i], orders[j]);
      }
      RevenueIgnoresStatus(orders, id, status);
      orders := updated;
      r := Find(OrderIdIs(id), orders);
    }

    // ----- coupons

    /** `getCouponByCode(code)`: the active coupon with exactly that code. */
    function GetCouponByCode(code: string): (r: Option<Coupon>)
      reads this
      ensures r.Some? ==> r.value in coupons && r.value.code == code && r.value.isActive
      ensures r.None? <==> forall i :: 0 <= i < |coupons| ==> !(coupons[i].code == code && coupons[i].isActive)
    {
      Find(ActiveCouponWithCode(code), coupons)
    }

    /** `createCoupon(data)`. */
    method CreateCoupon(data: NewCoupon) returns (c: Coupon)
      requires Valid()
      modifies this`coupons, this`nextCouponId
      ensures Valid()
      ensures c == Coupon(old(nextCouponId), data.code, data.discountType, data.discountValue,
                          data.minOrderAmount, data.maxUses, data.usedCount, data.isActive, data.expiresAt)
      ensures coupons == old(coupons) + [c] && nextCouponId == old(nextCouponId) + 1
    {
      c := Coupon(nextCouponId, data.code, data.discountType, data.discountValue,
                  data.minOrderAmount, data.maxUses, data.usedCount, data.isActive, data.expiresAt);
      coupons := coupons + [c];
      nextCouponId := nextCouponId + 1;
    }

    // ----- dashboard

    /** `getDashboardStats()`: revenue of the paid orders, and the numbers of
        orders, active products and users. */
    function DashboardStats(): (r: Stats)
      reads this
      ensures r.totalRevenue == Revenue(orders)
      ensures r.totalOrders == |orders| && r.totalUsers == |users|
      ensures r.totalProducts == |Filter(ProductIsActive(), products)| && r.totalProducts <= |products|
    {
      Stats(Revenue(orders), |orders|, |Filter(ProductIsActive(), products)|, |users|)
    }
  }
}
