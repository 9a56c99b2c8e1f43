/** The product page: the quantity picker, the wishlist heart, the savings
    line, the related products strip and the review form. */
module ProductDetail {
  import opened Collections
  import opened Text
  import opened Schema
  import Storage

  /** `product?.stock || 1`: no product, or a stock of 0, caps at 1. */
  function StockCap(stock: Option<int>): (c: int)
    ensures stock.Some? && stock.value != 0 ==> c == stock.value
    ensures stock.None? || stock.value == 0 ==> c == 1
  {
    if stock.Some? && stock.value != 0 then stock.value else 1
  }

  /** `Math.max(1, Math.min(product?.stock || 1, prev + delta))`. */
  function ClampQuantity(prev: int, delta: int, stock: Option<int>): (q: int)
    ensures q >= 1
    ensures StockCap(stock) >= 1 ==> q <= StockCap(stock)
    ensures 1 <= prev + delta <= StockCap(stock) ==> q == prev + delta
    ensures prev + delta > StockCap(stock) >= 1 ==> q == StockCap(stock)
    ensures prev + delta < 1 || StockCap(stock) < 1 ==> q == 1
  {
    var m := if StockCap(stock) < prev + delta then StockCap(stock) else prev + delta;
    if m < 1 then 1 else m
  }

  /** With nothing in stock the quantity is pinned to 1. */
  lemma OutOfStockPinsQuantity(prev: int, delta: int)
    ensures ClampQuantity(prev, delta, Some(0)) == 1
    ensures ClampQuantity(prev, delta, None) == 1
  {
  }

  /** `wishlist.some(item => item.productId === product.id)`. */
  predicate InWishlist(wishlist: seq<WishlistItemWithProduct>, productId: int) {
    exists i :: 0 <= i < |wishlist| && wishlist[i].row.productId == productId
  }

  function WishlistFor(productId: int): WishlistItemWithProduct -> bool {
    (w: WishlistItemWithProduct) => w.row.productId == productId
  }

  /** The request the wishlist heart sends. */
  datatype WishlistRequest = DeleteWishlistItem(id: int) | AddWishlistItem(productId: int) | NoRequest

  /** The toggle's `mutationFn`: when the product is shown as wishlisted,
      delete the first wishlist row for it (nothing when none is found);
      otherwise add one. */
  function ToggleRequest(isWishlisted: bool, wishlist: Option<seq<WishlistItemWithProduct>>, productId: int): (r: WishlistRequest)
    ensures !isWishlisted ==> r == AddWishlistItem(productId)
    ensures isWishlisted && (wishlist.None? || !InWishlist(wishlist.value, productId)) ==> r == NoRequest
    ensures isWishlisted && wishlist.Some? && InWishlist(wishlist.value, productId) ==>
      var k := FirstIndex(WishlistFor(productId), wishlist.value).value;
      r == DeleteWishlistItem(wishlist.value[k].row.id)
      && wishlist.value[k].row.productId == productId
      && forall j :: 0 <= j < k ==> wishlist.value[j].row.productId != productId
  {
    if !isWishlisted then AddWishlistItem(productId)
    else if wishlist.None? then NoRequest
    else match Find(WishlistFor(productId), wishlist.value)
      case None => NoRequest
      case Some(w) => DeleteWishlistItem(w.row.id)
  }

  /** The page's own state. */
  class ProductDetailView {
    var quantity: int
    var isWishlisted: bool
    var reviewRating: int
    var reviewComment: string

    /** The quantity shown is never below 1. */
    predicate Valid()
      reads this
    {
      quantity >= 1
    }

    constructor ()
      ensures Valid()
      ensures quantity == 1 && !isWishlisted && reviewRating == 5 && reviewComment == ""
    {
      quantity := 1;
      isWishlisted := false;
      reviewRating := 5;
      reviewComment := "";
    }

    /** `handleQuantityChange(delta)`. */
    method HandleQuantityChange(delta: int, stock: Option<int>)
      requires Valid()
      modifies this`quantity
      ensures Valid()
      ensures quantity == ClampQuantity(old(quantity), delta, stock)
      ensures stock.Some? && stock.value >= 1 ==> 1 <= quantity <= stock.value
    {
      quantity := ClampQuantity(quantity, delta, stock);
    }

    /** The effect that syncs the heart with the fetched wishlist. */
    method SyncWishlisted(wishlist: Option<seq<WishlistItemWithProduct>>, productId: Option<int>)
      modifies this`isWishlisted
      ensures wishlist.Some? && productId.Some? ==> (isWishlisted <==> InWishlist(wishlist.value, productId.value))
      ensures wishlist.None? || productId.None? ==> isWishlisted == old(isWishlisted)
    {
      if wishlist.Some? && productId.Some? {
        isWishlisted := InWishlist(wishlist.value, productId.value);
      }
    }

    /** `onSuccess` of the toggle. */
    method ToggleSucceeded()
      modifies this`isWishlisted
      ensures isWishlisted == !old(isWishlisted)
    {
      isWishlisted := !isWishlisted;
    }

    /** `onSuccess` of the review form: the form is reset. */
    method ReviewSucceeded()
      modifies this`reviewRating, this`reviewComment
      ensures reviewRating == 5 && reviewComment == ""
    {
      reviewRating := 5;
      reviewComment := "";
    }
  }

  /** `Save $x`: shown only when the original price exceeds the price, and
      then the difference. */
  function Savings(price: real, originalPrice: Option<real>): (r: Option<real>)
    ensures r.Some? <==> originalPrice.Some? && originalPrice.value > price
    ensures r.Some? ==> r.value > 0.0 && r.value + price == originalPrice.value
  {
    if originalPrice.Some? && originalPrice.value > price then Some(originalPrice.value - price) else None
  }

  /** The related products strip: the fetched list without the product being
      shown, cut to its first four. */
  function RelatedProducts(related: seq<Product>, currentId: int): (r: seq<Product>)
    ensures |r| <= 4
    ensures forall i :: 0 <= i < |r| ==> r[i].id != currentId && r[i] in related
    ensures r <= Filter(Storage.ProductIdIsNot(currentId), related)
    ensures |r| == if |Filter(Storage.ProductIdIsNot(currentId), related)| < 4 then |Filter(Storage.ProductIdIsNot(currentId), related)| else 4
  {
    var others := Filter(Storage.ProductIdIsNot(currentId), related);
    if |others| <= 4 then others else others[..4]
  }

  /** The strip keeps the fetched order. */
  lemma RelatedProductsInOrder(related: seq<Product>, currentId: int)
    ensures IsSubseq(RelatedProducts(related, currentId), related)
  {
    var others := Filter(Storage.ProductIdIsNot(currentId), related);
    FilterIsSubseq(Storage.ProductIdIsNot(currentId), related);
    PrefixIsSubseq(RelatedProducts(related, currentId), others, related);
  }

  /** A prefix of a subsequence is a subsequence. */
  lemma {:induction false} PrefixIsSubseq(p: seq<Product>, a: seq<Product>, b: seq<Product>)
    requires p <= a && IsSubseq(a, b)
    ensures IsSubseq(p, b)
    decreases |b|
  {
    if p != [] && b != [] {
      if a[0] == b[0] {
        assert p[1..] <= a[1..];
        PrefixIsSubseq(p[1..], a[1..], b[1..]);
      } else {
        PrefixIsSubseq(p, a, b[1..]);
      }
    }
  }

  /** The review POST body the page sends. */
  datatype ReviewPost = ReviewPost(rating: int, comment: string, title: string)

  datatype ReviewOutcome = LoginRequired | CommentRequired | SubmitReview(body: ReviewPost)

  /** `handleSubmitReview`: a signed-out visitor is asked to log in; a comment
      that is blank after trimming is refused; otherwise the review is sent
      with the title "<rating> star review". */
  function ReviewSubmission(signedIn: bool, rating: int, comment: string): (r: ReviewOutcome)
    ensures !signedIn ==> r == LoginRequired
    ensures signedIn && Trim(comment) == [] ==> r == CommentRequired
    ensures r.SubmitReview? <==> signedIn && Trim(comment) != []
    ensures r.SubmitReview? ==> r.body.rating == rating && r.body.comment == comment
  {
    if !signedIn then LoginRequired
    else if Trim(comment) == [] then CommentRequired
    else SubmitReview(ReviewPost(rating, comment, IntToString(rating) + " star review"))
  }

  /** The submitted title begins with the rating written in decimal, which
      reads back as the rating, and ends with " star review". */
  lemma ReviewTitleNamesRating(signedIn: bool, rating: nat, comment: string)
    requires ReviewSubmission(signedIn, rating, comment).SubmitReview?
    ensures var t := ReviewSubmission(signedIn, rating, comment).body.title;
      var d := NatToString(rating);
      && t == d + " star review"
      && DigitsValue(t[..|d|]) == rating
  {
    var t := ReviewSubmission(signedIn, rating, comment).body.title;
    var d := NatToString(rating);
    assert t[..|d|] == d;
    NatToStringRoundTrip(rating);
  }
}
