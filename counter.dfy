/** The quantity stepper (`components/Counter.jsx`): `+` dispatches `addToCart`
 *  only below the product's stock, `-` always dispatches `removeFromCart`.
 */
module Counter {
  import opened Common
  import opened Catalog
  import CartSlice

  /** `product?.stock || 0` for the product with this id. */
  function StockFor(products: seq<Product>, id: string): (s: int)
    ensures Find(products, id).None? ==> s == 0
    ensures Find(products, id).Some? ==> s == NumOrZero(products[Find(products, id).value].stock)
  {
    var i := Find(products, id);
    if i.None? then 0 else NumOrZero(products[i.value].stock)
  }

  /** `cartItems[id] < stock`: false when the product is not in the cart. */
  predicate CanAdd(items: CartSlice.Items, id: string, stock: int)
  {
    id in items && items[id] < stock
  }

  /** `cartItems[id] >= stock`: also false when the product is not in the cart. */
  predicate PlusDisabled(items: CartSlice.Items, id: string, stock: int)
  {
    id in items && items[id] >= stock
  }

  /** The cart after a click on `+`. */
  function PlusClick(items: CartSlice.Items, total: int, products: seq<Product>, id: string): (r: (CartSlice.Items, int))
    ensures CanAdd(items, id, StockFor(products, id)) ==> r == (CartSlice.Added(items, id), total + 1)
    ensures !CanAdd(items, id, StockFor(products, id)) ==> r == (items, total)
  {
    if CanAdd(items, id, StockFor(products, id)) then (CartSlice.Added(items, id), total + 1) else (items, total)
  }

  /** For a product in the cart, `+` is disabled exactly when it would do nothing. */
  lemma PlusDisabledIff(items: CartSlice.Items, id: string, stock: int)
    requires id in items
    ensures PlusDisabled(items, id, stock) <==> !CanAdd(items, id, stock)
  {
  }

  /** A product that is unknown or has no stock is never added. */
  lemma NoStockNoAdd(items: CartSlice.Items, total: int, products: seq<Product>, id: string)
    requires Find(products, id).None? || NumOrZero(products[Find(products, id).value].stock) <= 0
    requires forall k :: k in items ==> items[k] >= 0
    ensures PlusClick(items, total, products, id) == (items, total)
  {
  }

  /** `+` never takes a quantity above the stock. */
  lemma PlusRespectsStock(items: CartSlice.Items, total: int, products: seq<Product>, id: string)
    requires id in items && 0 <= items[id] <= StockFor(products, id)
    ensures var (items', _) := PlusClick(items, total, products, id);
      id in items' && items'[id] <= StockFor(products, id)
  {
  }

  /** `-` has no lower bound of its own: it is `removeFromCart` unguarded, so the
   *  quantities follow that reducer while the total drops even for an item that
   *  is not in the cart. */
  function MinusClick(items: CartSlice.Items, total: int, id: string): (r: (CartSlice.Items, int))
    ensures r.0 == CartSlice.Removed(items, id)
    ensures r.1 == total - 1
    ensures !CartSlice.Has(items, id) ==> r.0 == items
  {
    (CartSlice.Removed(items, id), total - 1)
  }
}
