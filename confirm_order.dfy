/**
 * The order review page (frontend/src/pages/ConfirmOrder.jsx): the batch
 * being built and the confirmed batches of the selected table, the table's
 * running total, and the confirm button, which sends the open batch to the
 * order ledger and only then marks it confirmed in the cart.
 */
module ConfirmOrder {
  import opened Base
  import opened Grouping
  import opened Cart
  import OrderLedger

  predicate IsConfirmed(b: CartBatch) {
    b.confirmed
  }

  predicate IsOpen(b: CartBatch) {
    !b.confirmed
  }

  /** `orders.find((b) => !b.confirmed)`. */
  function ActiveBatch(orders: seq<CartBatch>): (r: Option<CartBatch>)
    ensures r.None? <==> forall k :: 0 <= k < |orders| ==> orders[k].confirmed
    ensures r.Some? ==> exists k :: 0 <= k < |orders| && orders[k] == r.value && !r.value.confirmed &&
                                    forall j :: 0 <= j < k ==> orders[j].confirmed
  {
    match OpenIndex(orders)
    case Some(i) => Some(orders[i])
    case None => None
  }

  /** `orders.filter((b) => b.confirmed)`. */
  function ConfirmedBatches(orders: seq<CartBatch>): (r: seq<CartBatch>)
    ensures forall b :: b in r <==> b in orders && b.confirmed
    ensures |r| <= |orders|
  {
    Filter(orders, IsConfirmed)
  }

  function BatchAmount(b: CartBatch): real {
    Amount(b.items)
  }

  /** `calcTotal`: price times quantity over every item of every batch. */
  function CalcTotal(orders: seq<CartBatch>): real {
    Total(orders, BatchAmount)
  }

  /** The table total is the confirmed batches' total plus the open batches' total. */
  lemma {:induction false} TotalSplits(orders: seq<CartBatch>)
    ensures CalcTotal(orders) == CalcTotal(ConfirmedBatches(orders)) + CalcTotal(Filter(orders, IsOpen))
  {
    if orders != [] {
      var init, last := orders[..|orders| - 1], orders[|orders| - 1];
      TotalSplits(init);
      var single := if IsConfirmed(last) then [last] else [];
      var rest := if IsOpen(last) then [last] else [];
      TotalAppend(Filter(init, IsConfirmed), single, BatchAmount);
      TotalAppend(Filter(init, IsOpen), rest, BatchAmount);
      assert Total(single, BatchAmount) + Total(rest, BatchAmount) == BatchAmount(last);
    }
  }

  /** One line of the `createOrder` payload: the cart item with an empty size sent as null. */
  function ItemPayload(i: CartItem): (r: OrderLedger.ItemInput)
    ensures r.name == Some(i.entry.name) && r.price == Some(i.entry.price) && r.quantity == Some(i.quantity)
    ensures r.menuItem == Some(i.entry.id) && r.menuId.None?
    ensures r.subCategory.Some? <==> Truthy(i.entry.subCategory)
    ensures r.subCategory.Some? ==> r.subCategory == i.entry.subCategory
  {
    OrderLedger.ItemInput(Some(i.entry.name), OrNull(i.entry.subCategory), Some(i.quantity), Some(i.entry.price),
                          Some(i.entry.id), None)
  }

  /** `Object.values(activeBatch.items).map(...)`: one payload line per cart item, in order. */
  function Payload(items: seq<CartItem>): (r: seq<OrderLedger.ItemInput>)
    ensures |r| == |items|
    ensures forall k :: 0 <= k < |items| ==> r[k] == ItemPayload(items[k])
  {
    if items == [] then [] else [ItemPayload(items[0])] + Payload(items[1..])
  }

  /** The ledger stores the payload exactly when every dish in it has a name. */
  lemma PayloadStorable(items: seq<CartItem>)
    ensures OrderLedger.AllStorable(Payload(items)) <==> forall k :: 0 <= k < |items| ==> items[k].entry.name != ""
  {
  }

  /** The cart after `confirmOrder`: the open batch, if any, marked confirmed. */
  function Confirmed(orders: seq<CartBatch>): (r: seq<CartBatch>)
    ensures |r| == |orders|
    ensures forall k :: 0 <= k < |r| ==> r[k].id == orders[k].id && r[k].items == orders[k].items
    ensures OpenIndex(orders).Some? ==> r == orders[OpenIndex(orders).value := orders[OpenIndex(orders).value].(confirmed := true)]
    ensures OpenIndex(orders).None? ==> r == orders
  {
    match OpenIndex(orders)
    case Some(i) => orders[i := orders[i].(confirmed := true)]
    case None => orders
  }

  /** With at most one open batch, confirming leaves none open. */
  lemma ConfirmedHasNoOpen(orders: seq<CartBatch>)
    requires OneOpen(orders)
    ensures OpenIndex(Confirmed(orders)).None?
  {
    var r := Confirmed(orders);
    if OpenIndex(orders).Some? {
      var i := OpenIndex(orders).value;
      forall k | 0 <= k < |r| ensures r[k].confirmed {
        if k > i {
          assert orders[i].confirmed || orders[k].confirmed;
        }
      }
    }
  }

  /**
   * `handleConfirm` for the selected table: a non-empty open batch is sent
   * to the ledger first; when the ledger refuses it the cart is left as it
   * was so that the customer can try again. Otherwise (nothing to send, or
   * sent and stored) the open batch is marked confirmed.
   */
  method HandleConfirm(cart: CartState, store: OrderLedger.OrderStore, tableName: string, now: int)
    returns (sent: Option<Result<OrderLedger.Order>>)
    requires tableName != "" && tableName in cart.tables
    requires cart.Valid() && store.Valid()
    modifies cart, store
    ensures cart.Valid() && store.Valid()
    ensures var active := ActiveBatch(old(cart.tables)[tableName].orders);
            (sent.None? <==> active.None? || active.value.items == []) &&
            (sent.None? ==> store.orders == old(store.orders)) &&
            (sent.Some? ==> (sent.value.Ok? <==> OrderLedger.AllStorable(Payload(active.value.items))))
    ensures sent.Some? && sent.value.Err? ==> store.orders == old(store.orders)
    ensures var active := ActiveBatch(old(cart.tables)[tableName].orders);
            sent.Some? && sent.value.Ok? ==>
              var b := OrderLedger.NewBatch(old(store.nextId), Payload(active.value.items));
              var open := OrderLedger.FindOpen(old(store.orders), tableName);
              (open.Some? ==>
                 store.orders == old(store.orders)[open.value := old(store.orders)[open.value].(batches := old(store.orders)[open.value].batches + [b])] &&
                 sent.value.value == store.orders[open.value]) &&
              (open.None? ==>
                 store.orders == old(store.orders) + [OrderLedger.Order(old(store.nextId) + |active.value.items| + 1, tableName, [b], false, now)] &&
                 sent.value.value == store.orders[|store.orders| - 1])
    ensures sent.Some? && sent.value.Err? ==> cart.tables == old(cart.tables)
    ensures sent.None? || sent.value.Ok? ==>
              cart.tables == old(cart.tables)[tableName := TableCart(Confirmed(old(cart.tables)[tableName].orders))] &&
              OpenIndex(cart.tables[tableName].orders).None?
  {
    var orders := cart.tables[tableName].orders;
    var active := ActiveBatch(orders);
    ConfirmedHasNoOpen(orders);
    if active.Some? && active.value.items != [] {
      var r := store.ConfirmBatch(Some(tableName), Payload(active.value.items), now);
      sent := Some(r);
      if r.Err? {
        return;
      }
    } else {
      sent := None;
    }
    cart.ConfirmOrder(tableName);
  }
}
