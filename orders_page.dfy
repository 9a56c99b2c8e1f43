/** The customer's order history: the status badge colours, the status
    label, and the per-item line total. */
module OrdersPage {
  import opened Text
  import opened Schema
  import opened Pricing

  const Yellow: string := "bg-yellow-100 text-yellow-800"
  const Blue: string := "bg-blue-100 text-blue-800"
  const Purple: string := "bg-purple-100 text-purple-800"
  const Green: string := "bg-green-100 text-green-800"
  const Red: string := "bg-red-100 text-red-800"
  const Gray: string := "bg-gray-100 text-gray-800"

  /** The five statuses the page knows, in lower case. */
  predicate KnownStatus(s: string) {
    s in ["pending", "processing", "shipped", "delivered", "cancelled"]
  }

  /** The `switch` of `getStatusColor`, on an already lower-cased status. */
  function ClassOfLower(lower: string): string {
    match lower
    case "pending" => Yellow
    case "processing" => Blue
    case "shipped" => Purple
    case "delivered" => Green
    case "cancelled" => Red
    case _ => Gray
  }

  /** `getStatusColor` of the order history: the switch on `status.toLowerCase()`. */
  function StatusClass(status: string): (r: string)
    ensures r == Yellow <==> ToLower(status) == "pending"
    ensures r == Blue <==> ToLower(status) == "processing"
    ensures r == Purple <==> ToLower(status) == "shipped"
    ensures r == Green <==> ToLower(status) == "delivered"
    ensures r == Red <==> ToLower(status) == "cancelled"
    ensures r == Gray <==> !KnownStatus(ToLower(status))
  {
    ClassOfLower(ToLower(status))
  }

  /** The colour depends on the status only up to case: every spelling of a
      status gets the colour of its lower-case form. */
  lemma StatusClassIgnoresCase(status: string)
    ensures StatusClass(ToLower(status)) == StatusClass(status)
    ensures StatusClass(ToUpper(status)) == StatusClass(status)
  {
    ToLowerIdempotent(status);
    LowerOfUpper(status);
    assert StatusClass(ToLower(status)) == ClassOfLower(ToLower(status));
    assert StatusClass(ToUpper(status)) == ClassOfLower(ToLower(status));
  }

  /** Lower-casing forgets a prior upper-casing. */
  lemma LowerOfUpper(s: string)
    ensures ToLower(ToUpper(s)) == ToLower(s)
  {
    assert forall i :: 0 <= i < |s| ==> ToLower(ToUpper(s))[i] == LowerChar(UpperChar(s[i]));
  }

  /** `status.charAt(0).toUpperCase() + status.slice(1)`. */
  function CapitalizeStatus(status: string): (r: string)
    ensures |r| == |status|
    ensures status != [] ==> r[0] == UpperChar(status[0]) && r[1..] == status[1..]
    ensures status == [] ==> r == []
  {
    if status == [] then [] else [UpperChar(status[0])] + status[1..]
  }

  /** Capitalising twice is capitalising once, and the capitalised label
      gets the same badge colour as the status it shows. */
  lemma CapitalizeStatusIdempotent(status: string)
    ensures CapitalizeStatus(CapitalizeStatus(status)) == CapitalizeStatus(status)
    ensures StatusClass(CapitalizeStatus(status)) == StatusClass(status)
  {
    var c := CapitalizeStatus(status);
    assert ToLower(c) == ToLower(status) by {
      assert forall i :: 0 <= i < |status| ==> ToLower(c)[i] == ToLower(status)[i] by {
        assert forall i :: 1 <= i < |status| ==> c[i] == status[i];
      }
    }
  }

  /** The item line total, `parseFloat(item.price) * item.quantity` (the
      price recorded on the item, not the product's current one), grows by
      one price per unit and is 0 for no units. */
  lemma LineTotalPerUnit(price: Money, quantity: int)
    ensures LineTotal(price, 0) == 0.0
    ensures LineTotal(price, quantity + 1) == LineTotal(price, quantity) + price
  {
  }
}
