/** The product card: average rating, discount badge and star row. */
module ProductCard {
  import opened Collections

  function Sum(ratings: seq<int>): int
    decreases |ratings|
  {
    if ratings == [] then 0 else ratings[0] + Sum(ratings[1..])
  }

  /** `calculateAverageRating`: 0 without reviews (or before they load),
      otherwise the sum of the ratings over their number. */
  function AverageRating(ratings: Option<seq<int>>): (r: real)
    ensures ratings.None? || ratings.value == [] ==> r == 0.0
    ensures ratings.Some? && ratings.value != [] ==> r * |ratings.value| as real == Sum(ratings.value) as real
  {
    if ratings.None? || ratings.value == [] then 0.0
    else Sum(ratings.value) as real / |ratings.value| as real
  }

  /** Ratings between `lo` and `hi` sum to between `lo` and `hi` times their number. */
  lemma {:induction false} SumBounds(ratings: seq<int>, lo: int, hi: int)
    requires forall i :: 0 <= i < |ratings| ==> lo <= ratings[i] <= hi
    ensures lo * |ratings| <= Sum(ratings) <= hi * |ratings|
    decreases |ratings|
  {
    if ratings != [] {
      SumBounds(ratings[1..], lo, hi);
    }
  }

  /** With every rating on the 1 to 5 scale, the average is on it too. */
  lemma AverageWithinScale(ratings: seq<int>)
    requires ratings != []
    requires forall i :: 0 <= i < |ratings| ==> 1 <= ratings[i] <= 5
    ensures 1.0 <= AverageRating(Some(ratings)) <= 5.0
  {
    SumBounds(ratings, 1, 5);
    var n := |ratings| as real;
    var avg := AverageRating(Some(ratings));
    var total := Sum(ratings);
    assert |ratings| <= total <= 5 * |ratings|;
    assert n <= total as real <= 5.0 * n;
    QuotientBounds(total as real, n, 1.0, 5.0);
  }

  lemma QuotientBounds(a: real, n: real, lo: real, hi: real)
    requires n > 0.0 && lo * n <= a <= hi * n
    ensures lo <= a / n <= hi
  {
    var q := a / n;
    assert q * n == a;
    assert (q - lo) * n == a - lo * n;
    assert (hi - q) * n == hi * n - a;
  }

  /** `hasDiscount`: an original price is set and exceeds the price. */
  predicate HasDiscount(price: real, originalPrice: Option<real>) {
    originalPrice.Some? && originalPrice.value > price
  }

  /** `Math.round`: the nearest integer, halves rounded up. */
  function Round(x: real): (r: int)
    ensures r as real - 0.5 <= x < r as real + 0.5
  {
    (x + 0.5).Floor
  }

  /** `discountPercentage`: the saving as a whole percentage of the original
      price, 0 without a discount. */
  function DiscountPercentage(price: real, originalPrice: Option<real>): (r: int)
    requires price >= 0.0
    ensures !HasDiscount(price, originalPrice) ==> r == 0
    ensures HasDiscount(price, originalPrice) ==>
      var exact := (originalPrice.value - price) / originalPrice.value * 100.0;
      r as real - 0.5 <= exact < r as real + 0.5
    ensures 0 <= r <= 100
  {
    if HasDiscount(price, originalPrice) then
      var o := originalPrice.value;
      PercentageWithinRange(price, o);
      Round((o - price) / o * 100.0)
    else 0
  }

  lemma PercentageWithinRange(price: real, o: real)
    requires 0.0 <= price < o
    ensures 0.0 < (o - price) / o * 100.0 <= 100.0
  {
    assert (o - price) / o <= 1.0;
  }

  /** Star `star` (1 to 5) is drawn filled when it does not exceed the rating. */
  predicate StarFilled(star: int, rating: real) {
    star as real <= rating
  }

  /** The five stars of `renderStars`, first to last. */
  function Stars(rating: real): (r: seq<bool>)
    ensures |r| == 5
    ensures forall k :: 0 <= k < 5 ==> r[k] == StarFilled(k + 1, rating)
  {
    seq(5, k requires 0 <= k < 5 => StarFilled(k + 1, rating))
  }

  /** Filled stars come first: the row is some filled stars followed by empty
      ones, and the number filled is the rating rounded down, kept within 0 to 5. */
  lemma StarsArePrefix(rating: real)
    ensures forall j, k :: 0 <= j < k < 5 && Stars(rating)[k] ==> Stars(rating)[j]
    ensures var n := if rating < 0.0 then 0 else if rating >= 5.0 then 5 else rating.Floor;
      forall k :: 0 <= k < 5 ==> (Stars(rating)[k] <==> k < n)
  {
  }
}
