/** The storefront's "Best Selling" strip: the eight products that are not
 *  archived with the most ratings, and a caption counting the whole list.
 */
module BestSelling {
  import opened Common
  import opened Catalog
  import opened ProductSelection

  const DisplayQuantity := 8

  /** `rating?.length || 0`: the number of ratings, 0 when the list is missing. */
  function RatingCount(p: Product): (r: int)
    ensures r >= 0 && (p.ratings.None? ==> r == 0)
    ensures p.ratings.Some? ==> r == |p.ratings.value|
  {
    if p.ratings.Some? then |p.ratings.value| else 0
  }

  /** The products the strip shows. */
  function Shown(products: seq<Product>): seq<Product>
  {
    Select(products, RatingCount, DisplayQuantity)
  }

  /** The strip shows at most eight products, none archived, none more often than
   *  the list has it, with non-increasing rating counts; no hidden product has more
   *  ratings than a shown one, and among products with the same count the earliest
   *  in the list are shown. */
  lemma ShownSpec(products: seq<Product>)
    ensures var r := Shown(products);
      && |r| == Min(DisplayQuantity, |NotArchived(products)|)
      && (forall i :: 0 <= i < |r| ==> r[i].status != Archived && r[i] in products)
      && (forall i, j :: 0 <= i < j < |r| ==> RatingCount(r[i]) >= RatingCount(r[j]))
      && (forall p, q :: p in NotArchived(products) && p !in r && q in r ==> RatingCount(q) >= RatingCount(p))
      && multiset(r) <= multiset(NotArchived(products))
      && (forall v :: WithKey(r, RatingCount, v) <= WithKey(NotArchived(products), RatingCount, v))
  {
    SelectSpec(products, RatingCount, DisplayQuantity);
  }

  /** When every live product fits in the strip, the products sharing a rating count
   *  appear in list order. */
  lemma ShownKeepsTies(products: seq<Product>, c: int)
    requires |NotArchived(products)| <= DisplayQuantity
    ensures WithKey(Shown(products), RatingCount, c) == WithKey(NotArchived(products), RatingCount, c)
  {
    SelectKeepsTieOrder(products, RatingCount, DisplayQuantity, c);
  }

  /** The caption's first number, `Min(|products|, DisplayQuantity)`, is never
   *  smaller than the number of products shown, and equal to it when no product
   *  is archived. */
  lemma DescriptionBoundsShown(products: seq<Product>)
    ensures |Shown(products)| <= Min(|products|, DisplayQuantity)
    ensures |NotArchived(products)| == |products| ==> |Shown(products)| == Min(|products|, DisplayQuantity)
  {
    SelectSpec(products, RatingCount, DisplayQuantity);
  }
}
