/** The product page's buy area (`components/ProductDetails.jsx`): the stock
 *  label, the quantity stepper's visibility and the main button's state, label
 *  and click.
 */
module ProductDetails {
  import opened Common
  import opened Catalog
  import CartSlice
  import ProductCard

  /** The page's stock label; its tiers are the product tile's. */
  function StockLabel(stock: Option<int>): (l: ProductCard.StockLabel)
    ensures l == ProductCard.LabelFor(stock)
  {
    if NumOrZero(stock) > 5 then ProductCard.InStock
    else if NumOrZero(stock) > 0 then ProductCard.OnlyLeft(stock.value)
    else ProductCard.OutOfStock
  }

  /** What `addToCartHandler` dispatches. */
  datatype AddAction = OpenLoginModal | AddToCart(productId: string)

  function AddHandler(isAuthenticated: bool, id: string): (a: AddAction)
    ensures a == OpenLoginModal <==> !isAuthenticated
  {
    if !isAuthenticated then OpenLoginModal else AddToCart(id)
  }

  /** `stock <= 0`, with null read as 0. */
  predicate NoStock(stock: Option<int>)
  {
    NumOrZero(stock) <= 0
  }

  /** The main button is disabled: no stock and not in the cart. */
  predicate ButtonDisabled(stock: Option<int>, cart: CartSlice.Items, id: string)
  {
    NoStock(stock) && !CartSlice.Has(cart, id)
  }

  datatype ButtonLabel = OutOfStockLabel | AddToCartLabel | ViewCartLabel

  function Label(stock: Option<int>, cart: CartSlice.Items, id: string): (l: ButtonLabel)
    ensures l == OutOfStockLabel <==> ButtonDisabled(stock, cart, id)
    ensures l == ViewCartLabel <==> CartSlice.Has(cart, id)
  {
    if ButtonDisabled(stock, cart, id) then OutOfStockLabel
    else if !CartSlice.Has(cart, id) then AddToCartLabel
    else ViewCartLabel
  }

  /** What a click on the main button does. */
  datatype ClickEffect = NoEffect | Dispatch(action: AddAction) | GoToCart

  function Click(stock: Option<int>, cart: CartSlice.Items, id: string, isAuthenticated: bool): (e: ClickEffect)
    ensures NoStock(stock) ==> e == NoEffect
    ensures !NoStock(stock) && !CartSlice.Has(cart, id) ==> e == Dispatch(AddHandler(isAuthenticated, id))
    ensures !NoStock(stock) && CartSlice.Has(cart, id) ==> e == GoToCart
  {
    if NumOrZero(stock) > 0 then
      if !CartSlice.Has(cart, id) then Dispatch(AddHandler(isAuthenticated, id)) else GoToCart
    else NoEffect
  }

  /** The quantity stepper is shown exactly when the product is in the cart. */
  predicate CounterShown(cart: CartSlice.Items, id: string)
  {
    CartSlice.Has(cart, id)
  }

  /** Out of stock but in the cart, the button reads "View Cart" and is enabled, yet a
   *  click does nothing. */
  lemma ViewCartInertWithoutStock(stock: Option<int>, cart: CartSlice.Items, id: string, isAuthenticated: bool)
    requires NoStock(stock) && CartSlice.Has(cart, id)
    ensures Label(stock, cart, id) == ViewCartLabel && !ButtonDisabled(stock, cart, id)
    ensures Click(stock, cart, id, isAuthenticated) == NoEffect
    ensures CounterShown(cart, id)
  {
  }

  /** A signed-in shopper adding an in-stock product puts exactly one in the cart;
   *  a signed-out one gets the login dialog and the cart is untouched. */
  lemma AddFromPage(stock: Option<int>, cart: CartSlice.Items, id: string, isAuthenticated: bool)
    requires !NoStock(stock) && !CartSlice.Has(cart, id)
    ensures isAuthenticated ==>
      Click(stock, cart, id, isAuthenticated) == Dispatch(AddToCart(id)) && CartSlice.Added(cart, id)[id] == 1
    ensures !isAuthenticated ==> Click(stock, cart, id, isAuthenticated) == Dispatch(OpenLoginModal)
  {
  }

  /** An enabled button whose click does something always shows a label that
   *  matches it: "Add to Cart" adds (or asks to log in), "View Cart" navigates. */
  lemma LabelMatchesClick(stock: Option<int>, cart: CartSlice.Items, id: string, isAuthenticated: bool)
    requires !NoStock(stock)
    ensures Label(stock, cart, id) == AddToCartLabel <==> Click(stock, cart, id, isAuthenticated).Dispatch?
    ensures Label(stock, cart, id) == ViewCartLabel <==> Click(stock, cart, id, isAuthenticated) == GoToCart
  {
  }
}
