/** The product slice of the Redux store (`lib/features/product/productSlice.js`):
 *  the product list, the status of the last `fetchProducts`, and its error.
 */
module ProductSlice {
  import opened Common
  import opened Catalog

  const Idle := "idle"
  const Loading := "loading"
  const Succeeded := "succeeded"
  const Failed := "failed"

  /** What the products query returned: an error, or rows that may be null. */
  datatype ProductQuery = QueryError(message: string) | QueryRows(data: Option<seq<Product>>)

  /** How the `fetchProducts` thunk settles. */
  datatype FetchOutcome = Fulfilled(payload: seq<Product>) | Rejected(message: string)

  /** `if (error) throw error; return data || []`. */
  function FetchProducts(q: ProductQuery): (r: FetchOutcome)
    ensures r.Rejected? <==> q.QueryError?
    ensures q.QueryError? ==> r.message == q.message
    ensures q.QueryRows? && q.data.None? ==> r == Fulfilled([])
    ensures q.QueryRows? && q.data.Some? ==> r == Fulfilled(q.data.value)
  {
    match q
    case QueryError(message) => Rejected(message)
    case QueryRows(data) => Fulfilled(if data.Some? then data.value else [])
  }

  class ProductStore {
    var list: seq<Product>
    var status: string
    var error: Option<string>

    constructor()
      ensures list == [] && status == Idle && error.None?
    {
      list := [];
      status := Idle;
      error := None;
    }

    /** `setProduct`. */
    method SetProduct(payload: seq<Product>)
      modifies this
      ensures list == payload && status == old(status) && error == old(error)
    {
      list := payload;
    }

    /** `clearProduct`. */
    method ClearProduct()
      modifies this
      ensures list == [] && status == old(status) && error == old(error)
    {
      list := [];
    }

    /** `fetchProducts.pending`: the list stays while loading. */
    method FetchPending()
      modifies this
      ensures status == Loading && list == old(list) && error == old(error)
    {
      status := Loading;
    }

    /** How the thunk settles: fulfilled replaces the list, rejected keeps it and
     *  records the message; neither clears an earlier error. */
    method FetchSettled(outcome: FetchOutcome)
      modifies this
      ensures outcome.Fulfilled? ==> status == Succeeded && list == outcome.payload && error == old(error)
      ensures outcome.Rejected? ==> status == Failed && list == old(list) && error == Some(outcome.message)
    {
      match outcome
      case Fulfilled(payload) =>
        status := Succeeded;
        list := payload;
      case Rejected(message) =>
        status := Failed;
        error := Some(message);
    }
  }

  /** A failed fetch followed by a successful one leaves the old message in
   *  `error` beside the status "succeeded". */
  method StaleErrorAfterRetry(store: ProductStore, message: string, rows: seq<Product>)
    modifies store
    ensures store.status == Succeeded && store.list == rows && store.error == Some(message)
  {
    store.FetchPending();
    store.FetchSettled(FetchProducts(QueryError(message)));
    store.FetchPending();
    store.FetchSettled(FetchProducts(QueryRows(Some(rows))));
  }
}
