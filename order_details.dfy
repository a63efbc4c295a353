/** The order details dialog of the admin orders page
 *  (`app/admin/orders/OrderDetailsModal.jsx`): how it reads an order's items, when
 *  it offers "Cancel Order", and what a click on it passes to the page.
 *
 *  `JSON.parse` is a parameter: it yields the parsed list, or `None` when it
 *  throws (the dialog then fails to render).
 */
module OrderDetails {
  import opened Common
  import opened Catalog
  import opened AdminOrders

  /** A list is used as is, text is parsed with "" read as "[]", anything else is
   *  the empty list. */
  function NormaliseItems(f: ItemsField, parse: string -> Option<seq<Item>>): (r: Option<seq<Item>>)
    ensures f.ItemArray? ==> r == Some(f.list)
    ensures f.OtherValue? ==> r == Some([])
    ensures f.ItemText? && f.text != "" ==> r == parse(f.text)
    ensures f.ItemText? && f.text == "" ==> r == parse("[]")
  {
    match f
    case ItemArray(list) => Some(list)
    case ItemText(text) => parse(if text == "" then "[]" else text)
    case OtherValue => Some([])
  }

  /** The list page's "item(s)" count, `JSON.parse(items || "[]").length` for text. */
  function ListItemCount(f: ItemsField, parse: string -> Option<seq<Item>>): (r: Option<nat>)
  {
    match f
    case ItemArray(list) => Some(|list|)
    case ItemText(text) =>
      var parsed := parse(if text == "" then "[]" else text);
      if parsed.Some? then Some(|parsed.value|) else None
    case OtherValue => Some(0)
  }

  /** The list's count is the number of items the dialog shows, and for a list
   *  the number the confirm handler works through; stored text is counted by
   *  the list and the dialog but not by the confirm handler. */
  lemma ItemCountsAgree(f: ItemsField, parse: string -> Option<seq<Item>>)
    ensures ListItemCount(f, parse).Some? <==> NormaliseItems(f, parse).Some?
    ensures NormaliseItems(f, parse).Some? ==> ListItemCount(f, parse).value == |NormaliseItems(f, parse).value|
    ensures !f.ItemText? ==> NormaliseItems(f, parse) == Some(ItemsForConfirm(f))
    ensures f.ItemText? ==> ItemsForConfirm(f) == []
  {
  }

  /** "Cancel Order" is offered unless the order is cancelled or delivered. */
  function CancelShown(status: string): (r: bool)
    ensures r <==> status != Cancelled && status != Delivered
  {
    status != Cancelled && status != Delivered
  }

  /** Every order whose row still has an active button can be cancelled, and so can
   *  one in any status outside pending, confirmed, delivered and cancelled. */
  lemma CancelShownBeyondActions(status: string)
    ensures ActionFor(status).Enabled() ==> CancelShown(status)
    ensures CancelShown(status) && !ActionFor(status).Enabled() ==> ActionFor(status) == CancelledDisabled && StatusLabel(status) == "Pending"
    ensures !CancelShown(status) <==> StatusLabel(status) == "Cancelled" || StatusLabel(status) == "Delivered"
  {
  }

  /** What a click on "Cancel Order" hands to the page's cancel handler. */
  datatype CancelCall = CancelCall(id: string, status: string, items: seq<Item>)

  /** The page's handler runs only when the browser's confirm dialog is accepted. */
  function CancelClick(order: Order, items: seq<Item>, accepted: bool): (r: Option<CancelCall>)
    ensures r.Some? <==> accepted
    ensures r.Some? ==> r.value.id == order.id && r.value.status == order.status && r.value.items == items
  {
    if accepted then Some(CancelCall(order.id, order.status, items)) else None
  }

  /** Confirming an order whose items are a list with distinct products, then
   *  cancelling it from the dialog, all without failures, gives back every
   *  product's stock when no quantity was clamped, and leaves the order
   *  "cancelled". */
  lemma ConfirmThenCancelFromDialog(orders: seq<Order>, stock: Stock, id: string, parse: string -> Option<seq<Item>>)
    requires FindOrder(orders, id).Some?
    requires orders[FindOrder(orders, id).value].items.ItemArray?
    requires var items := orders[FindOrder(orders, id).value].items.list;
      items != [] && DistinctIds(items) &&
      forall j :: 0 <= j < |items| && items[j].id in stock ==> NumOrZero(stock[items[j].id]) >= items[j].quantity
    ensures var i := FindOrder(orders, id).value;
      var confirmed := ConfirmOrder(orders, stock, id, {}, {}, false);
      var order := confirmed.orders[i];
      var items := NormaliseItems(order.items, parse).value;
      var call := CancelClick(order, items, true).value;
      var cancelled := CancelOrder(confirmed.orders, confirmed.stock, call.id, call.status, call.items, {}, {}, false);
      && confirmed.notice == Done
      && order.status == Confirmed
      && cancelled.stock.Keys == stock.Keys
      && (forall k :: k in stock ==> cancelled.stock[k] == (if Mentions(items, 0, k) then Some(NumOrZero(stock[k])) else stock[k]))
      && cancelled.orders[i].status == Cancelled
  {
    var i := FindOrder(orders, id).value;
    var items := orders[i].items.list;
    ConfirmEffect(stock, items, 0);
    ConfirmThenCancelRestores(stock, items);
  }
}
