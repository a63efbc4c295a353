/** The cart slice of the Redux store (`lib/features/cart/cartSlice.js`):
 *  a map from product id to quantity and a running `total`.
 *
 *  `CartStore` holds the slice's state and its reducers as methods; the maps
 *  the reducers produce are the functions `Added`, `Removed` and `Deleted`,
 *  about which the lemmas below speak. A quantity is "truthy" when present and
 *  not 0, as in `if (state.cartItems[productId])`.
 */
module CartSlice {
  import opened Common

  type Items = map<string, int>

  /** `cartItems[id]` is truthy. */
  predicate Has(items: Items, id: string)
  {
    id in items && items[id] != 0
  }

  /** The sum of the quantities, `Object.values(items).reduce((a, q) => a + q, 0)`. */
  ghost function Sum(items: Items): int
    decreases |items|
  {
    if items == map[] then 0
    else
      var k :| k in items;
      items[k] + Sum(items - {k})
  }

  /** Any key may be taken out first. */
  lemma {:induction false} SumRemove(items: Items, k: string)
    requires k in items
    ensures Sum(items) == items[k] + Sum(items - {k})
    decreases |items|
  {
    var j :| j in items && Sum(items) == items[j] + Sum(items - {j});
    if j != k {
      assert items - {j} - {k} == items - {k} - {j};
      SumRemove(items - {j}, k);
      SumRemove(items - {k}, j);
    }
  }

  /** Changing one key's quantity changes the sum by the difference. */
  lemma SumUpdate(items: Items, k: string, q: int)
    ensures Sum(items[k := q]) == Sum(items) - (if k in items then items[k] else 0) + q
  {
    SumRemove(items[k := q], k);
    assert items[k := q] - {k} == items - {k};
    if k in items {
      SumRemove(items, k);
    } else {
      assert items - {k} == items;
    }
  }

  /** The quantities after `addToCart`. */
  function Added(items: Items, id: string): (r: Items)
    ensures id in r && r[id] == (if Has(items, id) then items[id] + 1 else 1)
    ensures forall k :: k != id ==> (k in r <==> k in items) && (k in items ==> r[k] == items[k])
  {
    items[id := if Has(items, id) then items[id] + 1 else 1]
  }

  /** The quantities after `removeFromCart`: a truthy entry is decremented and
   *  deleted when it reaches 0; otherwise nothing changes. */
  function Removed(items: Items, id: string): (r: Items)
    ensures Has(items, id) && items[id] != 1 ==> id in r && r[id] == items[id] - 1
    ensures Has(items, id) && items[id] == 1 ==> id !in r
    ensures !Has(items, id) ==> r == items
    ensures forall k :: k != id ==> (k in r <==> k in items) && (k in items ==> r[k] == items[k])
  {
    if !Has(items, id) then items
    else if items[id] - 1 == 0 then items - {id}
    else items[id := items[id] - 1]
  }

  /** The quantities after `deleteItemFromCart`: the key is gone, all others stay. */
  function Deleted(items: Items, id: string): (r: Items)
    ensures id !in r
    ensures forall k :: k != id ==> (k in r <==> k in items) && (k in items ==> r[k] == items[k])
  {
    items - {id}
  }

  /** What `deleteItemFromCart` subtracts from the total. */
  function DeletedQuantity(items: Items, id: string): int
  {
    if Has(items, id) then items[id] else 0
  }

  /** `total` agrees with the quantities. */
  ghost predicate Consistent(items: Items, total: int)
  {
    total == Sum(items)
  }

  /** Every stored quantity is positive. */
  predicate AllPositive(items: Items)
  {
    forall k :: k in items ==> items[k] > 0
  }

  /** Adding keeps the total in step with the quantities. */
  lemma AddKeepsTotal(items: Items, total: int, id: string)
    requires Consistent(items, total)
    ensures Consistent(Added(items, id), total + 1)
  {
    SumUpdate(items, id, if Has(items, id) then items[id] + 1 else 1);
  }

  /** Deleting keeps the total in step with the quantities. */
  lemma DeleteKeepsTotal(items: Items, total: int, id: string)
    requires Consistent(items, total)
    ensures Consistent(Deleted(items, id), total - DeletedQuantity(items, id))
  {
    if id in items {
      SumRemove(items, id);
    } else {
      assert items - {id} == items;
    }
  }

  /** Removing a product that is in the cart keeps the total in step. */
  lemma RemovePresentKeepsTotal(items: Items, total: int, id: string)
    requires Consistent(items, total) && Has(items, id)
    ensures Consistent(Removed(items, id), total - 1)
  {
    SumRemove(items, id);
    if items[id] != 1 {
      SumUpdate(items, id, items[id] - 1);
    }
  }

  /** Removing a product that is not in the cart still takes 1 off the total, so the
   *  total drifts below the sum: from the empty cart it becomes -1. */
  lemma RemoveAbsentDrifts(items: Items, total: int, id: string)
    requires Consistent(items, total) && !Has(items, id)
    ensures Removed(items, id) == items
    ensures !Consistent(Removed(items, id), total - 1)
    ensures items == map[] ==> total - 1 == -1
  {
  }

  /** The reducers that store quantities keep them all positive. */
  lemma ReducersKeepPositive(items: Items, id: string)
    requires AllPositive(items)
    ensures AllPositive(Added(items, id)) && AllPositive(Removed(items, id)) && AllPositive(Deleted(items, id))
  {
  }

  /** What the `fetchCart` query gave: an error with its code and message, or the
   *  row (absent or with a possibly null `items`). */
  datatype CartQuery = QueryError(code: string, message: string) | QueryRow(row: Option<Option<Items>>)

  /** The thunk's outcome: fulfilled with a payload (null when no cart), or rejected
   *  with the error message. */
  datatype FetchOutcome = Fulfilled(payload: Option<Items>) | Rejected(message: string)

  const NotFoundCode := "PGRST116"

  function FetchCart(q: CartQuery): (r: FetchOutcome)
    ensures q.QueryError? ==> (r == Fulfilled(None) <==> q.code == NotFoundCode)
    ensures r.Rejected? <==> q.QueryError? && q.code != NotFoundCode
    ensures q.QueryRow? && q.row.Some? ==> r == Fulfilled(q.row.value)
    ensures q == QueryRow(None) ==> r == Fulfilled(None)
  {
    match q
    case QueryError(code, message) => if code == NotFoundCode then Fulfilled(None) else Rejected(message)
    case QueryRow(row) => Fulfilled(if row.Some? then row.value else None)
  }

  class CartStore {
    var items: Items
    var total: int
    var isLoading: bool
    var error: Option<string>

    constructor()
      ensures items == map[] && total == 0 && !isLoading && error.None?
      ensures Consistent(items, total)
    {
      items := map[];
      total := 0;
      isLoading := false;
      error := None;
    }

    method AddToCart(id: string)
      modifies this
      ensures items == Added(old(items), id) && total == old(total) + 1
      ensures isLoading == old(isLoading) && error == old(error)
    {
      if Has(items, id) {
        items := items[id := items[id] + 1];
      } else {
        items := items[id := 1];
      }
      total := total + 1;
    }

    method RemoveFromCart(id: string)
      modifies this
      ensures items == Removed(old(items), id) && total == old(total) - 1
      ensures isLoading == old(isLoading) && error == old(error)
    {
      if Has(items, id) {
        items := items[id := items[id] - 1];
        if items[id] == 0 {
          items := items - {id};
        }
      }
      total := total - 1;
    }

    method DeleteItemFromCart(id: string)
      modifies this
      ensures items == Deleted(old(items), id) && total == old(total) - DeletedQuantity(old(items), id)
      ensures isLoading == old(isLoading) && error == old(error)
    {
      total := total - (if Has(items, id) then items[id] else 0);
      items := items - {id};
    }

    method ClearCart()
      modifies this
      ensures items == map[] && total == 0 && Consistent(items, total)
      ensures isLoading == old(isLoading) && error == old(error)
    {
      items := map[];
      total := 0;
    }

    /** `setCart`: adopt the payload and recompute the total as its sum. */
    method SetCart(payload: Items)
      modifies this
      ensures items == payload && Consistent(items, total)
      ensures isLoading == old(isLoading) && error == old(error)
    {
      var rest := payload;
      var acc := 0;
      while rest != map[]
        invariant acc + Sum(rest) == Sum(payload)
        invariant isLoading == old(isLoading) && error == old(error)
        decreases |rest|
      {
        var k :| k in rest;
        SumRemove(rest, k);
        acc := acc + rest[k];
        rest := rest - {k};
      }
      items := payload;
      total := acc;
    }

    /** `fetchCart.fulfilled`: a null payload changes nothing. */
    method FetchFulfilled(payload: Option<Items>)
      modifies this
      ensures payload.Some? ==> items == payload.value && Consistent(items, total)
      ensures payload.None? ==> items == old(items) && total == old(total)
      ensures isLoading == old(isLoading) && error == old(error)
    {
      if payload.Some? {
        SetCart(payload.value);
      }
    }
  }
}
