/** The product tile (`components/ProductCard.jsx`): the rounded average rating
 *  and the stock label.
 */
module ProductCard {
  import opened Common
  import opened Catalog

  function SumOf(s: seq<int>): int
  {
    if s == [] then 0 else SumOf(s[..|s| - 1]) + s[|s| - 1]
  }

  /** `rating?.length ? Math.round(sum / length) : 0`, where `Math.round` rounds
   *  halves up: the nearest integer to the mean, `floor(mean + 1/2)`. */
  function AverageRating(ratings: Option<seq<int>>): (r: int)
    ensures ratings.None? || ratings.value == [] ==> r == 0
    ensures ratings.Some? && ratings.value != [] ==>
      var n, s := |ratings.value|, SumOf(ratings.value);
      2 * n * r <= 2 * s + n < 2 * n * r + 2 * n
  {
    if ratings.None? || ratings.value == [] then 0
    else
      var n, s := |ratings.value|, SumOf(ratings.value);
      DivBounds(2 * s + n, 2 * n);
      (2 * s + n) / (2 * n)
  }

  lemma DivBounds(x: int, d: int)
    requires d > 0
    ensures d * (x / d) <= x < d * (x / d) + d
  {
  }

  /** Every rating between `lo` and `hi` puts the sum between `n * lo` and `n * hi`. */
  lemma {:induction false} SumBounds(s: seq<int>, lo: int, hi: int)
    requires forall i :: 0 <= i < |s| ==> lo <= s[i] <= hi
    ensures |s| * lo <= SumOf(s) <= |s| * hi
  {
    if s != [] {
      SumBounds(s[..|s| - 1], lo, hi);
    }
  }

  /** With ratings from 1 to 5 the displayed average is also from 1 to 5. */
  lemma RatingInRange(ratings: seq<int>)
    requires ratings != []
    requires forall i :: 0 <= i < |ratings| ==> 1 <= ratings[i] <= 5
    ensures 1 <= AverageRating(Some(ratings)) <= 5
  {
    var n, s, r := |ratings|, SumOf(ratings), AverageRating(Some(ratings));
    SumBounds(ratings, 1, 5);
    assert 2 * n * r <= 2 * s + n < 2 * n * r + 2 * n;
    assert n * (2 * r + 2) == 2 * n * r + 2 * n;
    assert n * (2 * r) == 2 * n * r;
    assert n * 3 <= 2 * s + n <= n * 11;
    MulCancelLess(n, 3, 2 * r + 2);
    MulCancelLe(n, 2 * r, 11);
  }

  /** Equal ratings average to themselves. */
  lemma {:induction false} UniformRating(v: int, n: nat)
    requires n > 0
    ensures AverageRating(Some(seq(n, _ => v))) == v
  {
    var s := seq(n, _ => v);
    UniformSum(v, n);
    var r := AverageRating(Some(s));
    assert n * (2 * r) <= n * (2 * v + 1);
    MulCancelLe(n, 2 * r, 2 * v + 1);
    assert n * (2 * v + 1) < n * (2 * r + 2);
    MulCancelLess(n, 2 * v + 1, 2 * r + 2);
  }

  lemma MulCancelLess(n: int, a: int, b: int)
    requires n > 0 && n * a < n * b
    ensures a < b
  {
    assert n * (b - a) > 0;
  }

  lemma MulCancelLe(n: int, a: int, b: int)
    requires n > 0 && n * a <= n * b
    ensures a <= b
  {
    assert n * (b - a) >= 0;
  }

  lemma {:induction false} UniformSum(v: int, n: nat)
    ensures SumOf(seq(n, _ => v)) == n * v
  {
    if n > 0 {
      assert seq(n, _ => v)[..n - 1] == seq(n - 1, _ => v);
      UniformSum(v, n - 1);
    }
  }

  datatype StockLabel = InStock | OnlyLeft(count: int) | OutOfStock
  {
    function Text(): string
    {
      match this
      case InStock => "Instock"
      case OnlyLeft(n) => "Only " + IntToString(n) + " left in stock - order soon."
      case OutOfStock => "Out of Stock"
    }
  }

  /** The stock tiers: above 5, from 1 to 5, and the rest (null counting as 0). */
  function LabelFor(stock: Option<int>): (l: StockLabel)
    ensures l == InStock <==> NumOrZero(stock) > 5
    ensures l.OnlyLeft? <==> 0 < NumOrZero(stock) <= 5
    ensures l.OnlyLeft? ==> l.count == stock.value
    ensures l == OutOfStock <==> NumOrZero(stock) <= 0
  {
    if NumOrZero(stock) > 5 then InStock
    else if NumOrZero(stock) > 0 then OnlyLeft(stock.value)
    else OutOfStock
  }
}
