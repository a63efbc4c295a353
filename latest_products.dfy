/** The storefront's "Latest Products" strip: the five newest products that are
 *  not archived, and a caption counting the whole list.
 */
module LatestProducts {
  import opened Common
  import opened Catalog
  import opened ProductSelection

  const DisplayQuantity := 5

  /** `created_at || createdAt` as a time; a product with neither is placed at 0. */
  function DateKey(p: Product): (r: int)
    ensures p.createdAt.Some? ==> r == p.createdAt.value
    ensures p.createdAt.None? && p.createdAtAlt.Some? ==> r == p.createdAtAlt.value
  {
    if p.createdAt.Some? then p.createdAt.value
    else if p.createdAtAlt.Some? then p.createdAtAlt.value
    else 0
  }

  /** The products the strip shows. */
  function Shown(products: seq<Product>): seq<Product>
  {
    Select(products, DateKey, DisplayQuantity)
  }

  /** The strip shows at most five products, none archived, none more often than
   *  the list has it, newest first; no hidden product is newer than a shown one,
   *  and among products with the same time the earliest in the list are shown. */
  lemma ShownSpec(products: seq<Product>)
    ensures var r := Shown(products);
      && |r| == Min(DisplayQuantity, |NotArchived(products)|)
      && (forall i :: 0 <= i < |r| ==> r[i].status != Archived && r[i] in products)
      && (forall i, j :: 0 <= i < j < |r| ==> DateKey(r[i]) >= DateKey(r[j]))
      && (forall p, q :: p in NotArchived(products) && p !in r && q in r ==> DateKey(q) >= DateKey(p))
      && multiset(r) <= multiset(NotArchived(products))
      && (forall v :: WithKey(r, DateKey, v) <= WithKey(NotArchived(products), DateKey, v))
  {
    SelectSpec(products, DateKey, DisplayQuantity);
  }

  /** When every live product fits in the strip, the products sharing a time
   *  appear in list order. */
  lemma ShownKeepsTies(products: seq<Product>, t: int)
    requires |NotArchived(products)| <= DisplayQuantity
    ensures WithKey(Shown(products), DateKey, t) == WithKey(NotArchived(products), DateKey, t)
  {
    SelectKeepsTieOrder(products, DateKey, DisplayQuantity, t);
  }

  /** The caption's first number, `Min(|products|, DisplayQuantity)`, is never
   *  smaller than the number of products shown, and equal to it when no product
   *  is archived. */
  lemma DescriptionBoundsShown(products: seq<Product>)
    ensures |Shown(products)| <= Min(|products|, DisplayQuantity)
    ensures |NotArchived(products)| == |products| ==> |Shown(products)| == Min(|products|, DisplayQuantity)
  {
    SelectSpec(products, DateKey, DisplayQuantity);
  }
}
