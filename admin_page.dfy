/**
 * The kitchen admin page (frontend/src/pages/Admin.jsx): the running total of
 * an order, the "add dish" menu filter, serving a table (mark the order
 * served, then raise a PENDING bill from its items) and adding one dish to an
 * order's last batch.
 */
module AdminPage {
  import opened Base
  import opened Grouping
  import opened BillModel
  import opened Cart
  import opened OrderLedger
  import Billing

  function LineAmount(i: OrderItem): real {
    i.price * (i.quantity as real)
  }

  function BatchTotal(b: Batch): real {
    Total(b.items, LineAmount)
  }

  /** `calcTotal`: price times quantity over every item of every batch. */
  function CalcTotal(o: Order): real {
    Total(o.batches, BatchTotal)
  }

  /** `order.batches.flatMap((b) => b.items)`. */
  function RawItems(batches: seq<Batch>): seq<OrderItem> {
    if batches == [] then [] else RawItems(batches[..|batches| - 1]) + batches[|batches| - 1].items
  }

  /** Flattening loses and invents no item: an item is listed exactly when some batch holds it. */
  lemma {:induction false} RawItemsMembers(batches: seq<Batch>)
    ensures forall x :: x in RawItems(batches) <==> exists k :: 0 <= k < |batches| && x in batches[k].items
  {
    if batches != [] {
      var init := batches[..|batches| - 1];
      RawItemsMembers(init);
      forall x | x in RawItems(batches) ensures exists k :: 0 <= k < |batches| && x in batches[k].items {
        if x in RawItems(init) {
          var k :| 0 <= k < |init| && x in init[k].items;
          assert batches[k] == init[k];
        }
      }
      forall x | exists k :: 0 <= k < |batches| && x in batches[k].items ensures x in RawItems(batches) {
        var k :| 0 <= k < |batches| && x in batches[k].items;
        if k < |batches| - 1 {
          assert init[k] == batches[k];
        }
      }
    }
  }

  /** The flattened items add up to the order total. */
  lemma {:induction false} RawItemsTotal(batches: seq<Batch>)
    ensures Total(RawItems(batches), LineAmount) == Total(batches, BatchTotal)
  {
    if batches != [] {
      var init := batches[..|batches| - 1];
      RawItemsTotal(init);
      TotalAppend(RawItems(init), batches[|batches| - 1].items, LineAmount);
    }
  }

  /** One bill line; `Number(x) || 0` leaves a stored number unchanged. */
  function BillLine(it: OrderItem): Billing.BillItemInput {
    Billing.BillItemInput(Some(it.name), Some(it.price), Some(it.quantity))
  }

  function BillLines(items: seq<OrderItem>): (r: seq<Billing.BillItemInput>)
    ensures |r| == |items|
    ensures forall k :: 0 <= k < |items| ==>
              (r[k].name == Some(items[k].name) && r[k].price == Some(items[k].price) &&
               r[k].quantity == Some(items[k].quantity))
  {
    if items == [] then [] else [BillLine(items[0])] + BillLines(items[1..])
  }

  /** The `createBillAPI` body for a served order. */
  function BillRequestFor(orderId: nat, tableName: string, order: Order): (r: Billing.BillRequest)
    ensures r.tableName == Some(tableName) && r.relatedOrders == Some([orderId]) && r.status == Some("PENDING")
    ensures r.totalAmount == Some(CalcTotal(order))
    ensures r.items.Some? && |r.items.value| == |RawItems(order.batches)|
    ensures r.paymentMethod.None? && r.discount.None? && r.serviceCharge.None? && r.customerName.None?
  {
    var raw := RawItems(order.batches);
    RawItemsTotal(order.batches);
    Billing.BillRequest(Some(tableName), Some(BillLines(raw)), Some(Total(raw, LineAmount)), Some([orderId]),
                        None, Some("PENDING"), None, None, None)
  }

  /** The bill service accepts the request exactly when the table is named, the order holds items and each has a name. */
  lemma BillRequestAccepted(orderId: nat, tableName: string, order: Order)
    ensures Billing.RequestError(BillRequestFor(orderId, tableName, order)).None? <==>
              tableName != "" && RawItems(order.batches) != [] &&
              forall k :: 0 <= k < |RawItems(order.batches)| ==> RawItems(order.batches)[k].name != ""
  {
    var req := BillRequestFor(orderId, tableName, order);
    var raw := RawItems(order.batches);
    assert Billing.MethodOf(None) == Some(Cash);
    assert forall k :: 0 <= k < |raw| ==> (Billing.CleanLine(req.items.value[k]) <==> raw[k].name != "");
  }

  /** The admin's order list without the served order. */
  function Unlisted(listed: seq<Order>, orderId: nat): (r: seq<Order>)
    ensures forall o :: o in r <==> o in listed && o.id != orderId
    ensures |r| <= |listed|
  {
    Filter(listed, (o: Order) => o.id != orderId)
  }

  /**
   * `handleServeSingleTable`: marks the order served, then raises a PENDING
   * bill for its items and total, then drops it from the page's list. A
   * failing step ends the handler: an unknown order changes nothing, and a
   * refused bill leaves the order served with no bill and still listed.
   */
  method HandleServeSingleTable(store: OrderStore, ledger: Billing.BillLedger, listed: seq<Order>, orderId: nat,
                                tableName: string, order: Order, year: nat, now: int)
    returns (shown: seq<Order>)
    requires store.Valid() && ledger.Valid()
    modifies store, ledger, ledger.counters
    ensures store.Valid() && ledger.Valid()
    ensures FindOrder(old(store.orders), orderId).None? ==>
              shown == listed && store.orders == old(store.orders) && ledger.bills == old(ledger.bills) &&
              ledger.counters.lastNumber == old(ledger.counters.lastNumber)
    ensures FindOrder(old(store.orders), orderId).Some? ==>
              var i := FindOrder(old(store.orders), orderId).value;
              store.orders == old(store.orders)[i := old(store.orders)[i].(served := true)]
    ensures FindOrder(old(store.orders), orderId).Some? &&
            Billing.RequestError(BillRequestFor(orderId, tableName, order)).Some? ==>
              shown == listed && ledger.bills == old(ledger.bills) &&
              ledger.counters.lastNumber == old(ledger.counters.lastNumber)
    ensures FindOrder(old(store.orders), orderId).Some? &&
            Billing.RequestError(BillRequestFor(orderId, tableName, order)).None? ==>
              shown == Unlisted(listed, orderId) &&
              ledger.counters.lastNumber == Advance(old(ledger.counters.lastNumber), year) &&
              |ledger.bills| == |old(ledger.bills)| + 1 && ledger.bills[..|old(ledger.bills)|] == old(ledger.bills) &&
              var b := ledger.bills[|old(ledger.bills)|];
              b.status == Pending && b.tableName == tableName && b.totalAmount == CalcTotal(order) &&
              b.relatedOrders == [orderId] && |b.items| == |RawItems(order.batches)| &&
              b.invoiceNumber == InvoiceNumber(year, ledger.counters.lastNumber[year]) && b.createdAt == now &&
              forall k :: 0 <= k < |b.items| ==>
                b.items[k] == BillItem(RawItems(order.batches)[k].name, RawItems(order.batches)[k].price,
                                       RawItems(order.batches)[k].quantity)
  {
    var served := store.MarkServed(orderId);
    if served.Err? {
      return listed;
    }
    var req := BillRequestFor(orderId, tableName, order);
    var bill := ledger.CreateBill(req, year, now);
    if bill.Err? {
      return listed;
    }
    assert ledger.bills[..|old(ledger.bills)|] == old(ledger.bills);
    shown := Unlisted(listed, orderId);
  }

  /** JavaScript's `trim` removes these; a search of only these is no search. */
  predicate IsSpace(c: char) {
    c == ' ' || c == '\t' || c == '\n' || c == '\r' || c == '\U{000B}' || c == '\U{000C}'
  }

  predicate Blank(s: string) {
    forall k :: 0 <= k < |s| ==> IsSpace(s[k])
  }

  /** The lower-cased (untrimmed) search occurs in the name, the size or the category. */
  function SearchHit(item: MenuEntry, q: string): bool {
    Includes(Lower(item.name), q) ||
    (item.subCategory.Some? && Includes(Lower(item.subCategory.value), q)) ||
    Includes(Lower(item.category), q)
  }

  predicate Offered(item: MenuEntry, selectedCategory: string, search: string) {
    item.isAvailable != Some(false) &&
    (selectedCategory == "All" || Lower(item.category) == Lower(selectedCategory)) &&
    (Blank(search) || SearchHit(item, Lower(search)))
  }

  /**
   * `filteredMenu`: items not marked unavailable, in the chosen category
   * (ignoring case) unless it is "All", matching a non-blank search.
   */
  function FilteredMenu(items: seq<MenuEntry>, selectedCategory: string, search: string): (r: seq<MenuEntry>)
    ensures forall x :: x in r <==>
              x in items && x.isAvailable != Some(false) &&
              (selectedCategory == "All" || Lower(x.category) == Lower(selectedCategory)) &&
              (Blank(search) ||
               Contains(Lower(x.name), Lower(search)) ||
               (x.subCategory.Some? && Contains(Lower(x.subCategory.value), Lower(search))) ||
               Contains(Lower(x.category), Lower(search)))
    ensures forall x :: multiset(r)[x] <= multiset(items)[x]
  {
    Filter(items, (x: MenuEntry) => Offered(x, selectedCategory, search))
  }

  /** A search for the exact name of an available dish in its own category finds it. */
  lemma FindsByOwnName(items: seq<MenuEntry>, x: MenuEntry)
    requires x in items && x.isAvailable != Some(false)
    ensures x in FilteredMenu(items, x.category, x.name)
  {
    assert OccursAt(Lower(x.name), Lower(x.name), 0);
  }

  /** The "add dish" body: the menu item, an empty size for none, one unit. */
  function AddDishPayload(item: MenuEntry): (r: ItemInput)
    ensures r.name == Some(item.name) && r.price == Some(item.price) && r.quantity == Some(1)
    ensures r.subCategory == Some(OrElse(item.subCategory, ""))
    ensures r.menuItem.None? && r.menuId.None?
  {
    ItemInput(Some(item.name), Some(OrElse(item.subCategory, "")), Some(1), Some(item.price), None, None)
  }

  /** The stored dish is one unit of the menu item, and the empty size comes back as no size. */
  lemma AddDishStored(id: nat, item: MenuEntry)
    requires item.name != ""
    ensures Storable(AddDishPayload(item))
    ensures var it := AddedItem(id, AddDishPayload(item));
            it.quantity == 1 && it.name == item.name && it.price == item.price &&
            (it.subCategory.Some? <==> Truthy(item.subCategory)) &&
            (it.subCategory.Some? ==> it.subCategory == item.subCategory)
  {
  }

  /**
   * `handleAddDish`: without an order or an item nothing is sent; otherwise
   * the dish goes to the order's last batch (no batch id is sent). An order
   * without batches gets one new empty confirmed batch instead, and the dish
   * is lost.
   */
  method HandleAddDish(store: OrderStore, orderId: Option<nat>, item: Option<MenuEntry>) returns (r: Option<Result<Order>>)
    requires store.Valid()
    modifies store
    ensures store.Valid()
    ensures orderId.None? || item.None? ==> r.None? && store.orders == old(store.orders)
    ensures orderId.Some? && item.Some? && FindOrder(old(store.orders), orderId.value).None? ==>
              r == Some(Err(NotFound)) && store.orders == old(store.orders)
    ensures orderId.Some? && item.Some? && FindOrder(old(store.orders), orderId.value).Some? ==>
              var i := FindOrder(old(store.orders), orderId.value).value;
              var o := old(store.orders)[i];
              (o.batches != [] && item.value.name == "" ==>
                 r == Some(Err(ServerError)) && store.orders == old(store.orders)) &&
              (o.batches == [] || item.value.name != "" ==>
                 |store.orders| == |old(store.orders)| && r == Some(Ok(store.orders[i])) &&
                 (forall j :: 0 <= j < |store.orders| && j != i ==> store.orders[j] == old(store.orders)[j]) &&
                 store.orders[i].id == o.id && store.orders[i].tableName == o.tableName &&
                 store.orders[i].served == o.served && store.orders[i].createdAt == o.createdAt) &&
              (o.batches != [] && item.value.name != "" ==>
                 var it := AddedItem(old(store.nextId), AddDishPayload(item.value));
                 it.quantity == 1 &&
                 store.orders[i].batches == o.batches[|o.batches| - 1 := AppendToBatch(o.batches[|o.batches| - 1], it)]) &&
              (o.batches == [] ==> store.orders[i].batches == [Batch(old(store.nextId) + 1, true, [])])
  {
    if orderId.None? || item.None? {
      return None;
    }
    var payload := AddDishPayload(item.value);
    var res := store.AddItem(orderId.value, None, Some(payload));
    r := Some(res);
  }
}
