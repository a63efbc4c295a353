/** Products as the store's `product.list` holds them, with the fields the
 *  storefront components read. Timestamps are integer milliseconds; a stock of
 *  `None` is a null column.
 */
module Catalog {
  import opened Common

  datatype Product = Product(
    id: string,
    stock: Option<int>,
    status: string,
    /** The `rating` list's rating values, or `None` when the list is missing. */
    ratings: Option<seq<int>>,
    /** `created_at`, `None` when absent or empty. */
    createdAt: Option<int>,
    /** The alternative `createdAt` field. */
    createdAtAlt: Option<int>)

  /** A nullable number as JavaScript's relational operators read it: null is 0. */
  function NumOrZero(v: Option<int>): int
  {
    if v.Some? then v.value else 0
  }

  /** `products.find(p => p.id === id)`: the first product with that id. */
  function Find(products: seq<Product>, id: string): Option<nat>
  {
    FindBy(products, (p: Product) => p.id, id)
  }

}
