/** The checkout page: its totals (with 8% tax), the address and payment
    checks, the shipping → payment → review → success step machine, and the
    order it posts. */
module Checkout {
  import opened Collections
  import opened Text
  import opened Schema
  import opened Pricing
  import ShoppingCart

  const TaxRate: real := 0.08

  /** `calculateTax`. */
  function Tax(subtotal: real): real {
    subtotal * TaxRate
  }

  /** `calculateTotal`: subtotal, shipping and tax. */
  function Total(subtotal: real): real {
    subtotal + Shipping(subtotal) + Tax(subtotal)
  }

  /** The total in closed form on each side of the free-shipping threshold. */
  lemma TotalClosedForm(subtotal: real)
    ensures subtotal > FreeShippingThreshold ==> Total(subtotal) == subtotal * 1.08
    ensures subtotal <= FreeShippingThreshold ==> Total(subtotal) == subtotal * 1.08 + 9.99
  {
  }

  /** The checkout total is the drawer's total plus the tax: both pages charge
      the same shipping for the same cart. */
  lemma TotalIsDrawerTotalPlusTax(cart: Option<seq<CartItemWithProduct>>)
    ensures Total(CartSubtotal(cart)) == ShoppingCart.CartTotal(cart) + Tax(CartSubtotal(cart))
  {
  }

  /** Because shipping drops to 0 above the threshold, a larger cart can cost
      less: 50.00 totals 63.99, 50.01 totals 54.0108. */
  lemma TotalNotMonotone()
    ensures Total(50.0) == 63.99 && Total(50.01) == 54.0108
    ensures Total(50.01) < Total(50.0)
  {
  }

  /** `value.trim() !== ''`. */
  predicate Filled(s: string) {
    Trim(s) != []
  }

  /** `validateShippingAddress`: every field of the address is non-blank. */
  predicate ValidShippingAddress(a: Address) {
    Filled(a.street) && Filled(a.city) && Filled(a.state) && Filled(a.zipCode) && Filled(a.country)
  }

  predicate HasNonSpace(s: string) {
    exists i :: 0 <= i < |s| && !IsSpace(s[i])
  }

  /** An address passes exactly when each of its five fields holds a character
      that is not white space. */
  lemma ValidShippingAddressIff(a: Address)
    ensures ValidShippingAddress(a) <==>
      HasNonSpace(a.street) && HasNonSpace(a.city) && HasNonSpace(a.state)
      && HasNonSpace(a.zipCode) && HasNonSpace(a.country)
  {
    FilledIff(a.street);
    FilledIff(a.city);
    FilledIff(a.state);
    FilledIff(a.zipCode);
    FilledIff(a.country);
  }

  lemma FilledIff(s: string)
    ensures Filled(s) <==> HasNonSpace(s)
  {
    TrimEmptyIff(s);
  }

  /** The payment form; `kind` is `type` in the page ('card' by default). */
  datatype PaymentMethod = PaymentMethod(kind: string, cardNumber: string, expiryDate: string, cvv: string, cardholderName: string)

  /** `validatePaymentMethod`: lengths at least 16, 5 and 3, and a non-blank
      cardholder name. The card fields are checked whatever the payment kind. */
  predicate ValidPaymentMethod(p: PaymentMethod) {
    |p.cardNumber| >= 16 && |p.expiryDate| >= 5 && |p.cvv| >= 3 && Filled(p.cardholderName)
  }

  /** The payment form passes exactly when its card fields have at least 16, 5
      and 3 characters and the cardholder name holds a character that is not
      white space; the payment kind plays no part. */
  lemma ValidPaymentMethodIff(p: PaymentMethod, kind: string)
    ensures ValidPaymentMethod(p) <==>
      |p.cardNumber| >= 16 && |p.expiryDate| >= 5 && |p.cvv| >= 3 && HasNonSpace(p.cardholderName)
    ensures ValidPaymentMethod(p.(kind := kind)) == ValidPaymentMethod(p)
  {
    FilledIff(p.cardholderName);
  }

  datatype Step = ShippingStep | PaymentStep | ReviewStep | SuccessStep

  /** `handleNextStep` on the step alone: forward from shipping when the address
      is valid, forward from payment when the payment is valid, and otherwise
      stay (on review the order is submitted instead). */
  function NextStep(step: Step, addressValid: bool, paymentValid: bool): (r: Step)
    ensures r == PaymentStep <==> (step == ShippingStep && addressValid) || (step == PaymentStep && !paymentValid)
    ensures r == ReviewStep <==> (step == PaymentStep && paymentValid) || step == ReviewStep
    ensures r == SuccessStep <==> step == SuccessStep
    ensures r == ShippingStep <==> step == ShippingStep && !addressValid
  {
    match step
    case ShippingStep => if addressValid then PaymentStep else ShippingStep
    case PaymentStep => if paymentValid then ReviewStep else PaymentStep
    case ReviewStep => ReviewStep
    case SuccessStep => SuccessStep
  }

  /** `handlePreviousStep`: back from payment and from review; nothing on
      shipping (or success). */
  function PreviousStep(step: Step): (r: Step)
    ensures step == PaymentStep ==> r == ShippingStep
    ensures step == ReviewStep ==> r == PaymentStep
    ensures step == ShippingStep || step == SuccessStep ==> r == step
  {
    match step
    case PaymentStep => ShippingStep
    case ReviewStep => PaymentStep
    case _ => step
  }

  /** Previous undoes a Next that moved. */
  lemma PreviousUndoesNext(step: Step, addressValid: bool, paymentValid: bool)
    requires NextStep(step, addressValid, paymentValid) != step
    ensures PreviousStep(NextStep(step, addressValid, paymentValid)) == step
  {
  }

  /** The order object the page posts. */
  function OrderPayload(cart: Option<seq<CartItemWithProduct>>, shipping: Address, billing: Address,
                        useSameAddress: bool, payment: PaymentMethod): (o: OrderData)
    ensures o.userId.None? && o.orderNumber.None?
    ensures o.totalAmount == Total(CartSubtotal(cart))
    ensures o.shippingAddress == shipping
    ensures o.billingAddress == if useSameAddress then shipping else billing
    ensures o.paymentMethod == payment.kind && o.paymentStatus == "pending" && o.status == "pending"
  {
    OrderData(None, None, Total(CartSubtotal(cart)), shipping,
              if useSameAddress then shipping else billing, payment.kind, "pending", "pending")
  }

  /** The item list the page posts: one item per cart line with its product id,
      quantity and the product's current price; empty before the cart loads. */
  function ItemsPayload(cart: Option<seq<CartItemWithProduct>>): (r: seq<NewOrderItem>)
    ensures cart.None? ==> r == []
    ensures cart.Some? ==> |r| == |cart.value|
    ensures cart.Some? ==> forall i :: 0 <= i < |r| ==>
      r[i] == NewOrderItem(cart.value[i].row.productId, cart.value[i].row.quantity, cart.value[i].product.price)
  {
    match cart
    case None => []
    case Some(items) =>
      seq(|items|, i requires 0 <= i < |items| =>
        NewOrderItem(items[i].row.productId, items[i].row.quantity, items[i].product.price))
  }

  /** Σ price × quantity over a list of order items. */
  function ItemsSubtotal(items: seq<NewOrderItem>): real
    decreases |items|
  {
    if items == [] then 0.0 else LineTotal(items[0].price, items[0].quantity) + ItemsSubtotal(items[1..])
  }

  /** The posted items carry exactly the cart's subtotal: prices are captured
      as they were shown. */
  lemma {:induction false} ItemsPayloadSubtotal(items: seq<CartItemWithProduct>)
    ensures ItemsSubtotal(ItemsPayload(Some(items))) == Subtotal(items)
    decreases |items|
  {
    if items != [] {
      ItemsPayloadSubtotal(items[1..]);
      assert ItemsPayload(Some(items))[1..] == ItemsPayload(Some(items[1..]));
    }
  }

  /** The page's state. */
  class CheckoutForm {
    var step: Step
    var shippingAddress: Address
    var billingAddress: Address
    var useSameAddress: bool
    var payment: PaymentMethod
    /** A placement request is in flight (`placeOrderMutation.isPending`). */
    var pending: bool

    constructor ()
      ensures step == ShippingStep && useSameAddress && !pending
      ensures shippingAddress == Address("", "", "", "", "US") && billingAddress == Address("", "", "", "", "US")
      ensures payment == PaymentMethod("card", "", "", "", "")
    {
      step := ShippingStep;
      shippingAddress := Address("", "", "", "", "US");
      billingAddress := Address("", "", "", "", "US");
      useSameAddress := true;
      payment := PaymentMethod("card", "", "", "", "");
      pending := false;
    }

    /** The Previous button is disabled on the shipping step. */
    predicate PreviousEnabled()
      reads this
    {
      step != ShippingStep
    }

    /** The Next button is disabled while an order is being placed. */
    predicate NextEnabled()
      reads this
    {
      !pending
    }

    /** `handleNextStep`. Returns whether the order was submitted, which
        happens on the review step only. */
    method HandleNextStep() returns (submitted: bool)
      modifies this`step, this`pending
      ensures step == NextStep(old(step), ValidShippingAddress(shippingAddress), ValidPaymentMethod(payment))
      ensures submitted <==> old(step) == ReviewStep
      ensures pending == (old(pending) || submitted)
    {
      submitted := false;
      if step == ShippingStep {
        if !ValidShippingAddress(shippingAddress) {
          return;
        }
        step := PaymentStep;
      } else if step == PaymentStep {
        if !ValidPaymentMethod(payment) {
          return;
        }
        step := ReviewStep;
      } else if step == ReviewStep {
        submitted := true;
        pending := true;
      }
    }

    /** `handlePreviousStep`. */
    method HandlePreviousStep()
      modifies this`step
      ensures step == PreviousStep(old(step))
    {
      if step == PaymentStep {
        step := ShippingStep;
      } else if step == ReviewStep {
        step := PaymentStep;
      }
    }

    /** `onSuccess` of the placement: the page shows the confirmation. */
    method OrderPlaced()
      modifies this`step, this`pending
      ensures step == SuccessStep && !pending
    {
      step := SuccessStep;
      pending := false;
    }

    /** `onError` of the placement: the page stays where it is. */
    method OrderFailed()
      modifies this`pending
      ensures !pending
    {
      pending := false;
    }

    /** What the page posts when the order is submitted. */
    function Payload(cart: Option<seq<CartItemWithProduct>>): (r: (OrderData, seq<NewOrderItem>))
      reads this
      ensures r.0 == OrderPayload(cart, shippingAddress, billingAddress, useSameAddress, payment)
      ensures r.1 == ItemsPayload(cart)
    {
      (OrderPayload(cart, shippingAddress, billingAddress, useSameAddress, payment), ItemsPayload(cart))
    }
  }

  /** A user action on the page. */
  datatype Action = Next | Previous | Succeeded

  /** The step after a sequence of actions, with fixed form contents. */
  function Run(step: Step, actions: seq<Action>, addressValid: bool, paymentValid: bool): Step
    decreases |actions|
  {
    if actions == [] then step
    else
      var s := match actions[0]
        case Next => NextStep(step, addressValid, paymentValid)
        case Previous => PreviousStep(step)
        case Succeeded => SuccessStep;
      Run(s, actions[1..], addressValid, paymentValid)
  }

  /** Without a successful placement the page never shows the confirmation;
      it is on review only with a valid payment (review is entered from
      payment only when the payment is valid); and it leaves the shipping step
      only with a valid address. */
  lemma {:induction false} ReviewNeedsValidForms(step: Step, actions: seq<Action>, addressValid: bool, paymentValid: bool)
    requires step != SuccessStep
    requires step == ReviewStep ==> paymentValid
    requires forall i :: 0 <= i < |actions| ==> actions[i] != Succeeded
    ensures Run(step, actions, addressValid, paymentValid) != SuccessStep
    ensures Run(step, actions, addressValid, paymentValid) == ReviewStep ==> paymentValid
    ensures step == ShippingStep && Run(step, actions, addressValid, paymentValid) != ShippingStep ==> addressValid
    decreases |actions|
  {
    if actions != [] {
      var s := match actions[0]
        case Next => NextStep(step, addressValid, paymentValid)
        case Previous => PreviousStep(step)
        case Succeeded => SuccessStep;
      assert forall i :: 0 <= i < |actions[1..]| ==> actions[1..][i] == actions[i + 1];
      ReviewNeedsValidForms(s, actions[1..], addressValid, paymentValid);
    }
  }
}
