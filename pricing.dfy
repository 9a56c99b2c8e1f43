/** The price arithmetic the cart drawer and the checkout page both carry
    (each page defines its own copy; the two copies agree): the subtotal
    `reduce`, and the free-shipping rule. */
module Pricing {
  import opened Collections
  import opened Schema

  /** Shipping is free only for a subtotal strictly above this amount. */
  const FreeShippingThreshold: real := 50.0

  /** Shipping charged otherwise. */
  const ShippingFee: real := 9.99

  /** `parseFloat(item.product.price) * item.quantity`. */
  function LineTotal(price: Money, quantity: int): real {
    price * quantity as real
  }

  /** `items.reduce((total, item) => total + price × quantity, 0)`. */
  function Subtotal(items: seq<CartItemWithProduct>): real
    decreases |items|
  {
    if items == [] then 0.0
    else LineTotal(items[0].product.price, items[0].row.quantity) + Subtotal(items[1..])
  }

  /** `calculateSubtotal`: 0 while the cart has not been fetched. */
  function CartSubtotal(cart: Option<seq<CartItemWithProduct>>): (r: real)
    ensures cart.None? ==> r == 0.0
    ensures cart.Some? && cart.value == [] ==> r == 0.0
  {
    match cart
    case None => 0.0
    case Some(items) => Subtotal(items)
  }

  /** One line contributes its price times its quantity. */
  lemma SubtotalSingleton(x: CartItemWithProduct)
    ensures Subtotal([x]) == x.product.price * x.row.quantity as real
  {
    assert [x][1..] == [];
  }

  /** The subtotal of two carts put together is the sum of their subtotals;
      with `SubtotalSingleton` this pins the subtotal down as Σ price × quantity,
      whatever the order of the lines. */
  lemma {:induction false} SubtotalAppend(a: seq<CartItemWithProduct>, b: seq<CartItemWithProduct>)
    ensures Subtotal(a + b) == Subtotal(a) + Subtotal(b)
    decreases |a|
  {
    if a == [] {
      assert a + b == b;
    } else {
      assert (a + b)[1..] == a[1..] + b;
      SubtotalAppend(a[1..], b);
    }
  }

  /** Prices and quantities that are not negative give a subtotal that is not negative. */
  lemma {:induction false} SubtotalNonNegative(items: seq<CartItemWithProduct>)
    requires forall i :: 0 <= i < |items| ==> items[i].product.price >= 0.0 && items[i].row.quantity >= 0
    ensures Subtotal(items) >= 0.0
    decreases |items|
  {
    if items != [] {
      SubtotalNonNegative(items[1..]);
    }
  }

  /** `subtotal > 50 ? 0 : 9.99`. */
  function Shipping(subtotal: real): (r: real)
    ensures r == 0.0 <==> subtotal > FreeShippingThreshold
    ensures r != 0.0 ==> r == ShippingFee
  {
    if subtotal > FreeShippingThreshold then 0.0 else ShippingFee
  }

  /** A subtotal of exactly 50 still pays shipping; any amount above it ships free. */
  lemma ThresholdIsStrict()
    ensures Shipping(50.0) == 9.99
    ensures forall s: real :: s > 50.0 ==> Shipping(s) == 0.0
  {
  }
}
