/** The cart drawer: the quantity buttons and the totals it shows (no tax). */
module ShoppingCart {
  import opened Collections
  import opened Schema
  import opened Pricing

  /** `handleQuantityChange(id, current, delta)`: the quantity to request, or
      none when it would fall below 1 (no request is sent). */
  function QuantityUpdate(current: int, delta: int): (r: Option<int>)
    ensures r.None? <==> current + delta < 1
    ensures r.Some? ==> r.value == current + delta && r.value >= 1
  {
    var q := current + delta;
    if q < 1 then None else Some(q)
  }

  /** The minus button: disabled at quantity 1 or below, or while an update is in flight. */
  predicate DecrementDisabled(quantity: int, updatePending: bool) {
    quantity <= 1 || updatePending
  }

  /** The plus button: disabled once the quantity reaches the stock, or while an update is in flight. */
  predicate IncrementDisabled(quantity: int, stock: int, updatePending: bool) {
    quantity >= stock || updatePending
  }

  /** An enabled minus button always sends an update, for one less. */
  lemma EnabledDecrementUpdates(quantity: int)
    requires !DecrementDisabled(quantity, false)
    ensures QuantityUpdate(quantity, -1) == Some(quantity - 1)
  {
  }

  /** An enabled plus button asks for at most the stock. */
  lemma EnabledIncrementWithinStock(quantity: int, stock: int)
    requires !IncrementDisabled(quantity, stock, false) && quantity >= 0
    ensures QuantityUpdate(quantity, 1) == Some(quantity + 1)
    ensures quantity + 1 <= stock
  {
  }

  /** `calculateTotal` of the drawer: subtotal plus shipping. */
  function CartTotal(cart: Option<seq<CartItemWithProduct>>): (r: real)
    ensures CartSubtotal(cart) > FreeShippingThreshold ==> r == CartSubtotal(cart)
    ensures CartSubtotal(cart) <= FreeShippingThreshold ==> r == CartSubtotal(cart) + ShippingFee
  {
    CartSubtotal(cart) + Shipping(CartSubtotal(cart))
  }

  /** The "Add $x more for free shipping!" hint: shown exactly when shipping is
      charged, with the distance to the threshold. */
  function FreeShippingHint(subtotal: real): (r: Option<real>)
    ensures r.Some? <==> Shipping(subtotal) > 0.0
    ensures r.Some? ==> r.value == FreeShippingThreshold - subtotal && r.value >= 0.0
  {
    if Shipping(subtotal) > 0.0 then Some(FreeShippingThreshold - subtotal) else None
  }

  /** At a subtotal of exactly 50 the hint asks for $0.00 more, although only
      an amount above 50 ships free. */
  lemma HintAtThreshold()
    ensures FreeShippingHint(50.0) == Some(0.0)
    ensures Shipping(50.0 + 0.0) > 0.0
  {
  }
}
