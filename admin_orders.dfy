/** The admin orders page (`app/admin/orders/page.jsx`): confirming an order
 *  takes each item's quantity off the product's stock, cancelling a confirmed
 *  order puts it back, and the row's action button follows the order status.
 *
 *  The database is the page's state: `orders` is the orders table (which the page
 *  re-reads after every change) and `stock` maps a product id to its nullable
 *  `stock` column; a product id without a row is absent. Which database calls fail
 *  is given as parameters: `fetchFails` and `updateFails` hold the positions of
 *  the items whose stock read or stock write returns an error, `statusFails` says
 *  whether the order's status update does.
 */
module AdminOrders {
  import opened Common
  import opened Catalog

  /** An entry of an order's `items` list. */
  datatype Item = Item(id: string, name: string, quantity: int)

  /** The `items` column as stored: a list, a JSON text, or anything else (null). */
  datatype ItemsField = ItemArray(list: seq<Item>) | ItemText(text: string) | OtherValue

  datatype Order = Order(id: string, status: string, items: ItemsField)

  type Stock = map<string, Option<int>>

  const Pending := "pending"
  const Confirmed := "confirmed"
  const Delivered := "delivered"
  const Cancelled := "cancelled"

  /** The toast a handler ends with (`NotFound` only logs). */
  datatype Notice = NotFound | NoItems | FetchError | UpdateError | StatusError | Done

  /** `orders.find(o => o.id === orderId)`. */
  function FindOrder(orders: seq<Order>, id: string): Option<nat>
  {
    FindBy(orders, (o: Order) => o.id, id)
  }


  /** `update({ status }).eq("id", id)`: every order with that id gets the status. */
  function SetStatus(orders: seq<Order>, id: string, status: string): (r: seq<Order>)
    ensures |r| == |orders|
    ensures forall k :: 0 <= k < |r| && orders[k].id == id ==> r[k] == orders[k].(status := status)
    ensures forall k :: 0 <= k < |r| && orders[k].id != id ==> r[k] == orders[k]
  {
    seq(|orders|, k requires 0 <= k < |orders| =>
      if orders[k].id == id then orders[k].(status := status) else orders[k])
  }

  /** Confirming reads `items` only when it is a list. */
  function ItemsForConfirm(f: ItemsField): seq<Item>
  {
    if f.ItemArray? then f.list else []
  }

  /** `Math.max(0, (stock || 0) - quantity)`. */
  function Decrement(s: Option<int>, quantity: int): (r: int)
    ensures r >= 0 && r >= NumOrZero(s) - quantity
    ensures r == NumOrZero(s) - quantity || (r == 0 && NumOrZero(s) < quantity)
  {
    Max(0, NumOrZero(s) - quantity)
  }

  /** `(stock || 0) + quantity`. */
  function Restore(s: Option<int>, quantity: int): int
  {
    NumOrZero(s) + quantity
  }

  /** Some item from position `from` on names product `k`. */
  predicate Mentions(items: seq<Item>, from: nat, k: string)
  {
    exists j :: from <= j < |items| && items[j].id == k
  }

  predicate DistinctIds(items: seq<Item>)
  {
    forall i, j :: 0 <= i < j < |items| ==> items[i].id != items[j].id
  }

  datatype Run = Run(stock: Stock, outcome: Notice)

  /** The confirm loop from item `from` on: a failed read or write stops it with
   *  the stock written so far; a product without a row is skipped. */
  function ConfirmFrom(stock: Stock, items: seq<Item>, from: nat, fetchFails: set<nat>, updateFails: set<nat>): (r: Run)
    ensures r.stock.Keys == stock.Keys
    ensures r.outcome == Done || r.outcome == FetchError || r.outcome == UpdateError
    decreases |items| - from
  {
    if from >= |items| then Run(stock, Done)
    else if from in fetchFails then Run(stock, FetchError)
    else if items[from].id !in stock then ConfirmFrom(stock, items, from + 1, fetchFails, updateFails)
    else if from in updateFails then Run(stock, UpdateError)
    else
      var id := items[from].id;
      ConfirmFrom(stock[id := Some(Decrement(stock[id], items[from].quantity))], items, from + 1, fetchFails, updateFails)
  }

  /** The restore loop from item `from` on: failed reads and writes are skipped
   *  (only logged), as is a product without a row. */
  function CancelFrom(stock: Stock, items: seq<Item>, from: nat, fetchFails: set<nat>, updateFails: set<nat>): (r: Stock)
    ensures r.Keys == stock.Keys
    decreases |items| - from
  {
    if from >= |items| then stock
    else if from in fetchFails || items[from].id !in stock || from in updateFails then
      CancelFrom(stock, items, from + 1, fetchFails, updateFails)
    else
      var id := items[from].id;
      CancelFrom(stock[id := Some(Restore(stock[id], items[from].quantity))], items, from + 1, fetchFails, updateFails)
  }

  /** The confirm loop runs to the end exactly when no item's read fails and no
   *  existing product's write fails. */
  lemma {:induction false} ConfirmCompletesIff(stock: Stock, items: seq<Item>, from: nat, fetchFails: set<nat>, updateFails: set<nat>)
    ensures ConfirmFrom(stock, items, from, fetchFails, updateFails).outcome == Done <==>
      forall j :: from <= j < |items| ==> j !in fetchFails && (items[j].id in stock ==> j !in updateFails)
    decreases |items| - from
  {
    if from < |items| && from !in fetchFails {
      var id := items[from].id;
      if id !in stock {
        ConfirmCompletesIff(stock, items, from + 1, fetchFails, updateFails);
      } else if from !in updateFails {
        var next := stock[id := Some(Decrement(stock[id], items[from].quantity))];
        ConfirmCompletesIff(next, items, from + 1, fetchFails, updateFails);
        assert forall k :: k in next <==> k in stock;
      }
    }
  }

  /** Without failures, confirming sets each listed product's stock to the clamped
   *  difference and leaves every other product alone. */
  lemma {:induction false} ConfirmEffect(stock: Stock, items: seq<Item>, from: nat)
    requires DistinctIds(items)
    ensures var r := ConfirmFrom(stock, items, from, {}, {});
      && r.outcome == Done
      && (forall j :: from <= j < |items| && items[j].id in stock ==>
            r.stock[items[j].id] == Some(Decrement(stock[items[j].id], items[j].quantity)))
      && (forall k :: k in stock && !Mentions(items, from, k) ==> r.stock[k] == stock[k])
    decreases |items| - from
  {
    if from < |items| {
      var id := items[from].id;
      var next := if id in stock then stock[id := Some(Decrement(stock[id], items[from].quantity))] else stock;
      ConfirmEffect(next, items, from + 1);
      forall j | from < j < |items| && items[j].id in stock
        ensures next[items[j].id] == stock[items[j].id]
      {
        assert items[j].id != id;
      }
    }
  }

  /** Without failures, restoring adds each listed product's quantity back and
   *  leaves every other product alone. */
  lemma {:induction false} CancelEffect(stock: Stock, items: seq<Item>, from: nat)
    requires DistinctIds(items)
    ensures var r := CancelFrom(stock, items, from, {}, {});
      && (forall j :: from <= j < |items| && items[j].id in stock ==>
            r[items[j].id] == Some(Restore(stock[items[j].id], items[j].quantity)))
      && (forall k :: k in stock && !Mentions(items, from, k) ==> r[k] == stock[k])
    decreases |items| - from
  {
    if from < |items| {
      var id := items[from].id;
      var next := if id in stock then stock[id := Some(Restore(stock[id], items[from].quantity))] else stock;
      CancelEffect(next, items, from + 1);
      forall j | from < j < |items| && items[j].id in stock
        ensures next[items[j].id] == stock[items[j].id]
      {
        assert items[j].id != id;
      }
    }
  }

  /** Confirming and then cancelling, without failures, gives every listed product
   *  its old stock back (a null stock comes back as 0) provided no quantity was
   *  clamped at 0. */
  lemma ConfirmThenCancelRestores(stock: Stock, items: seq<Item>)
    requires DistinctIds(items)
    requires forall j :: 0 <= j < |items| && items[j].id in stock ==> NumOrZero(stock[items[j].id]) >= items[j].quantity
    ensures var r := CancelFrom(ConfirmFrom(stock, items, 0, {}, {}).stock, items, 0, {}, {});
      && r.Keys == stock.Keys
      && forall k :: k in stock ==> r[k] == (if Mentions(items, 0, k) then Some(NumOrZero(stock[k])) else stock[k])
  {
    var mid := ConfirmFrom(stock, items, 0, {}, {}).stock;
    ConfirmEffect(stock, items, 0);
    CancelEffect(mid, items, 0);
    var r := CancelFrom(mid, items, 0, {}, {});
    forall k | k in stock
      ensures r[k] == (if Mentions(items, 0, k) then Some(NumOrZero(stock[k])) else stock[k])
    {
      if Mentions(items, 0, k) {
        var j :| 0 <= j < |items| && items[j].id == k;
        assert mid[k] == Some(Decrement(stock[k], items[j].quantity));
      }
    }
  }

  /** When the stock is smaller than the quantity, the round trip does not give
   *  the old stock back: confirming clamps it to 0 and cancelling then restores
   *  the whole quantity, more than there was. */
  lemma ClampingBreaksRoundTrip(id: string, name: string, inStock: int, quantity: int)
    requires 0 <= inStock < quantity
    ensures var stock := map[id := Some(inStock)];
      var items := [Item(id, name, quantity)];
      CancelFrom(ConfirmFrom(stock, items, 0, {}, {}).stock, items, 0, {}, {}) == map[id := Some(quantity)]
      && map[id := Some(quantity)] != stock
  {
    var stock := map[id := Some(inStock)];
    var items := [Item(id, name, quantity)];
    assert Decrement(stock[id], quantity) == 0;
    var cleared := stock[id := Some(0)];
    assert ConfirmFrom(cleared, items, 1, {}, {}) == Run(cleared, Done);
    assert cleared == map[id := Some(0)];
    assert CancelFrom(cleared[id := Some(Restore(cleared[id], quantity))], items, 1, {}, {})
        == cleared[id := Some(Restore(cleared[id], quantity))];
    assert map[id := Some(quantity)][id] != stock[id];
  }

  /** A failed read of the second item stops the loop after the first item's stock
   *  was already written: confirming is not atomic. */
  lemma FailureLeavesEarlierWrites(stock: Stock, a: Item, b: Item)
    requires a.id in stock
    ensures var r := ConfirmFrom(stock, [a, b], 0, {1}, {});
      r.outcome == FetchError && r.stock == stock[a.id := Some(Decrement(stock[a.id], a.quantity))]
  {
    var next := stock[a.id := Some(Decrement(stock[a.id], a.quantity))];
    assert ConfirmFrom(next, [a, b], 1, {1}, {}) == Run(next, FetchError);
  }

  /** The tables after a handler, and its toast. */
  datatype Outcome = Outcome(orders: seq<Order>, stock: Stock, notice: Notice)

  /** `handleConfirmOrder`. */
  function ConfirmOrder(orders: seq<Order>, stock: Stock, id: string,
                        fetchFails: set<nat>, updateFails: set<nat>, statusFails: bool): Outcome
  {
    var found := FindOrder(orders, id);
    if found.None? then Outcome(orders, stock, NotFound)
    else
      var items := ItemsForConfirm(orders[found.value].items);
      if items == [] then Outcome(orders, stock, NoItems)
      else
        var run := ConfirmFrom(stock, items, 0, fetchFails, updateFails);
        if run.outcome != Done then Outcome(orders, run.stock, run.outcome)
        else if statusFails then Outcome(orders, run.stock, StatusError)
        else Outcome(SetStatus(orders, id, Confirmed), run.stock, Done)
  }

  /** An unknown order, or one whose `items` is not a non-empty list, changes
   *  nothing. */
  lemma ConfirmWithoutItemsChangesNothing(orders: seq<Order>, stock: Stock, id: string,
                                          fetchFails: set<nat>, updateFails: set<nat>, statusFails: bool)
    requires FindOrder(orders, id).None? || ItemsForConfirm(orders[FindOrder(orders, id).value].items) == []
    ensures var o := ConfirmOrder(orders, stock, id, fetchFails, updateFails, statusFails);
      o.orders == orders && o.stock == stock && (o.notice == NotFound || o.notice == NoItems)
  {
  }

  /** An order whose `items` column holds JSON text cannot be confirmed: the
   *  handler reads it as an empty list. */
  lemma TextItemsCannotBeConfirmed(orders: seq<Order>, stock: Stock, id: string, text: string,
                                   fetchFails: set<nat>, updateFails: set<nat>, statusFails: bool)
    requires FindOrder(orders, id).Some? && orders[FindOrder(orders, id).value].items == ItemText(text)
    ensures ConfirmOrder(orders, stock, id, fetchFails, updateFails, statusFails) == Outcome(orders, stock, NoItems)
  {
  }

  /** The order becomes "confirmed" exactly when it was found with items, every
   *  item's stock was read and (for existing products) written, and the status
   *  update went through; otherwise no order changes. */
  lemma ConfirmedOnlyAfterEveryItem(orders: seq<Order>, stock: Stock, id: string,
                                    fetchFails: set<nat>, updateFails: set<nat>, statusFails: bool)
    ensures var o := ConfirmOrder(orders, stock, id, fetchFails, updateFails, statusFails);
      var found := FindOrder(orders, id);
      && (o.notice == Done <==>
            found.Some? && ItemsForConfirm(orders[found.value].items) != [] && !statusFails
            && var items := ItemsForConfirm(orders[found.value].items);
               forall j :: 0 <= j < |items| ==> j !in fetchFails && (items[j].id in stock ==> j !in updateFails))
      && (o.notice == Done ==> o.orders == SetStatus(orders, id, Confirmed))
      && (o.notice != Done ==> o.orders == orders)
  {
    var found := FindOrder(orders, id);
    if found.Some? {
      ConfirmCompletesIff(stock, ItemsForConfirm(orders[found.value].items), 0, fetchFails, updateFails);
    }
  }

  /** `handleDeliveredOrder`: the status becomes "delivered" unless the update fails. */
  function DeliverOrder(orders: seq<Order>, stock: Stock, id: string, statusFails: bool): (r: Outcome)
    ensures r.stock == stock
    ensures statusFails ==> r.orders == orders && r.notice == StatusError
    ensures !statusFails ==> r.notice == Done && |r.orders| == |orders|
    ensures !statusFails ==> forall k :: 0 <= k < |orders| ==>
      r.orders[k].status == (if orders[k].id == id then Delivered else orders[k].status)
  {
    if statusFails then Outcome(orders, stock, StatusError)
    else Outcome(SetStatus(orders, id, Delivered), stock, Done)
  }

  /** `handleCancelOrder`: the stock is restored only for an order that was
   *  "confirmed"; the status becomes "cancelled" unless that update fails. */
  function CancelOrder(orders: seq<Order>, stock: Stock, id: string, currentStatus: string, items: seq<Item>,
                       fetchFails: set<nat>, updateFails: set<nat>, statusFails: bool): Outcome
  {
    var restored := if currentStatus == Confirmed then CancelFrom(stock, items, 0, fetchFails, updateFails) else stock;
    if statusFails then Outcome(orders, restored, StatusError)
    else Outcome(SetStatus(orders, id, Cancelled), restored, Done)
  }

  /** Cancelling an order that was not confirmed leaves the stock alone; a
   *  successful cancel marks every order with that id "cancelled". */
  lemma CancelRestoresOnlyConfirmed(orders: seq<Order>, stock: Stock, id: string, currentStatus: string, items: seq<Item>,
                                    fetchFails: set<nat>, updateFails: set<nat>, statusFails: bool)
    ensures var o := CancelOrder(orders, stock, id, currentStatus, items, fetchFails, updateFails, statusFails);
      && (currentStatus != Confirmed ==> o.stock == stock)
      && o.stock.Keys == stock.Keys
      && (o.notice == Done <==> !statusFails)
      && (!statusFails ==> forall k :: 0 <= k < |orders| && orders[k].id == id ==> o.orders[k].status == Cancelled)
      && (statusFails ==> o.orders == orders)
  {
  }

  /** A failed stock read or write while restoring skips that item and the loop
   *  goes on with the next one. */
  lemma CancelSkipsFailedItem(stock: Stock, a: Item, b: Item)
    requires a.id != b.id && a.id in stock && b.id in stock
    ensures CancelFrom(stock, [a, b], 0, {0}, {}) == stock[b.id := Some(Restore(stock[b.id], b.quantity))]
  {
    var next := stock[b.id := Some(Restore(stock[b.id], b.quantity))];
    assert CancelFrom(next, [a, b], 2, {0}, {}) == next;
  }

  /** The row's action button. */
  datatype Action = ConfirmButton | DeliveredButton | DeliveredDisabled | CancelledDisabled
  {
    function Label(): string
    {
      match this
      case ConfirmButton => "Confirm"
      case DeliveredButton => "Delivered"
      case DeliveredDisabled => "Delivered"
      case CancelledDisabled => "Cancelled"
    }

    predicate Enabled()
    {
      this == ConfirmButton || this == DeliveredButton
    }
  }

  function ActionFor(status: string): (r: Action)
    ensures r == ConfirmButton <==> status == Pending
    ensures r == DeliveredButton <==> status == Confirmed
    ensures r.Enabled() <==> status == Pending || status == Confirmed
    ensures r == CancelledDisabled <==> status != Pending && status != Confirmed && status != Delivered
  {
    if status == Pending then ConfirmButton
    else if status == Confirmed then DeliveredButton
    else if status == Delivered then DeliveredDisabled
    else CancelledDisabled
  }

  /** The status badge, shared by the list and the details dialog: any status
   *  other than confirmed, delivered and cancelled reads "Pending". */
  function StatusLabel(status: string): (r: string)
    ensures r == "Confirmed" <==> status == Confirmed
    ensures r == "Delivered" <==> status == Delivered
    ensures r == "Cancelled" <==> status == Cancelled
    ensures r == "Pending" <==> status != Confirmed && status != Delivered && status != Cancelled
  {
    if status == Confirmed then "Confirmed"
    else if status == Delivered then "Delivered"
    else if status == Cancelled then "Cancelled"
    else "Pending"
  }

  /** A disabled button labelled "Cancelled" may sit on a row whose badge does not
   *  say "Cancelled": an order with any status outside the four known ones, such
   *  as "failed", shows "Pending" beside it. */
  lemma FailedOrderLabels(status: string)
    requires status != Pending && status != Confirmed && status != Delivered && status != Cancelled
    ensures ActionFor(status) == CancelledDisabled && StatusLabel(status) == "Pending"
    ensures ActionFor("failed") == CancelledDisabled && StatusLabel("failed") == "Pending"
  {
  }

  class OrdersPage {
    var orders: seq<Order>
    var stock: Stock
    /** The id of the order open in the details dialog. */
    var selectedOrder: Option<string>

    constructor(orders: seq<Order>, stock: Stock)
      ensures this.orders == orders && this.stock == stock && selectedOrder.None?
    {
      this.orders := orders;
      this.stock := stock;
      selectedOrder := None;
    }

    method Confirm(id: string, fetchFails: set<nat>, updateFails: set<nat>, statusFails: bool) returns (notice: Notice)
      modifies this
      ensures Outcome(orders, stock, notice) == ConfirmOrder(old(orders), old(stock), id, fetchFails, updateFails, statusFails)
      ensures selectedOrder == old(selectedOrder)
    {
      var found := FindOrder(orders, id);
      if found.None? {
        return NotFound;
      }
      var items := ItemsForConfirm(orders[found.value].items);
      if |items| == 0 {
        return NoItems;
      }
      var i := 0;
      while i < |items|
        invariant 0 <= i <= |items|
        invariant ConfirmFrom(stock, items, i, fetchFails, updateFails) == ConfirmFrom(old(stock), items, 0, fetchFails, updateFails)
        invariant orders == old(orders) && selectedOrder == old(selectedOrder)
      {
        if i in fetchFails {
          return FetchError;
        }
        var itemId := items[i].id;
        if itemId in stock {
          if i in updateFails {
            return UpdateError;
          }
          stock := stock[itemId := Some(Decrement(stock[itemId], items[i].quantity))];
        }
        i := i + 1;
      }
      if statusFails {
        return StatusError;
      }
      orders := SetStatus(orders, id, Confirmed);
      notice := Done;
    }

    method Deliver(id: string, statusFails: bool) returns (notice: Notice)
      modifies this
      ensures Outcome(orders, stock, notice) == DeliverOrder(old(orders), old(stock), id, statusFails)
      ensures selectedOrder == old(selectedOrder)
    {
      if statusFails {
        return StatusError;
      }
      orders := SetStatus(orders, id, Delivered);
      notice := Done;
    }

    /** Cancelling closes the details dialog only when it succeeds. */
    method Cancel(id: string, currentStatus: string, items: seq<Item>,
                  fetchFails: set<nat>, updateFails: set<nat>, statusFails: bool) returns (notice: Notice)
      modifies this
      ensures Outcome(orders, stock, notice) == CancelOrder(old(orders), old(stock), id, currentStatus, items, fetchFails, updateFails, statusFails)
      ensures selectedOrder == if notice == Done then None else old(selectedOrder)
    {
      if currentStatus == Confirmed {
        var i := 0;
        while i < |items|
          invariant 0 <= i <= |items|
          invariant CancelFrom(stock, items, i, fetchFails, updateFails) == CancelFrom(old(stock), items, 0, fetchFails, updateFails)
          invariant orders == old(orders) && selectedOrder == old(selectedOrder)
        {
          var itemId := items[i].id;
          if i !in fetchFails && itemId in stock && i !in updateFails {
            stock := stock[itemId := Some(Restore(stock[itemId], items[i].quantity))];
          }
          i := i + 1;
        }
      }
      if statusFails {
        return StatusError;
      }
      orders := SetStatus(orders, id, Cancelled);
      selectedOrder := None;
      notice := Done;
    }

    /** "Cancel Order" in the details dialog of `order`: once the browser's confirm
     *  dialog is accepted, the cancel handler runs with the dialog's items and the
     *  dialog closes afterwards whatever the outcome; refused, nothing happens. */
    method CancelFromDialog(order: Order, items: seq<Item>, accepted: bool,
                            fetchFails: set<nat>, updateFails: set<nat>, statusFails: bool) returns (notice: Option<Notice>)
      modifies this
      ensures notice.Some? <==> accepted
      ensures !accepted ==> orders == old(orders) && stock == old(stock) && selectedOrder == old(selectedOrder)
      ensures accepted ==>
        Outcome(orders, stock, notice.value) ==
          CancelOrder(old(orders), old(stock), order.id, order.status, items, fetchFails, updateFails, statusFails)
      ensures accepted ==> selectedOrder.None?
    {
      if !accepted {
        return None;
      }
      var n := Cancel(order.id, order.status, items, fetchFails, updateFails, statusFails);
      selectedOrder := None;
      notice := Some(n);
    }
  }
}
