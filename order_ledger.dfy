/**
 * The kitchen-side order ledger (backend/routes/orderRoutes.js over the
 * records of backend/models/Order.js). Each table has at most one open
 * (unserved) order; confirming a cart appends a batch of items to it, or
 * opens it. Orders are later marked served, and single items are added to or
 * removed from a batch.
 *
 * Document ids (orders, batches, items) are natural numbers handed out from a
 * counter; the creation time of a new order is a parameter.
 */
module OrderLedger {
  import opened Base
  import opened Sorting

  datatype OrderItem = OrderItem(
    id: nat,
    name: string,
    subCategory: Option<string>,
    price: real,
    quantity: int,
    menuItem: Option<string>)

  datatype Batch = Batch(id: nat, confirmed: bool, items: seq<OrderItem>)

  datatype Order = Order(id: nat, tableName: string, batches: seq<Batch>, served: bool, createdAt: int)

  /** An item as a client sends it; any field may be missing. */
  datatype ItemInput = ItemInput(
    name: Option<string>,
    subCategory: Option<string>,
    quantity: Option<int>,
    price: Option<real>,
    menuItem: Option<string>,
    menuId: Option<string>)

  /** The item schema requires a non-empty name and a price. */
  predicate Storable(i: ItemInput) {
    Truthy(i.name) && i.price.Some?
  }

  predicate AllStorable(xs: seq<ItemInput>) {
    forall k | 0 <= k < |xs| :: Storable(xs[k])
  }

  // ---------------------------------------------------------------------
  // Confirming a batch
  // ---------------------------------------------------------------------

  /**
   * One item of a confirmed batch: name, quantity and price copied (a
   * missing quantity takes the schema default 1), `subCategory || null`,
   * and `menuItem || _id`.
   */
  function ConfirmedItem(id: nat, i: ItemInput): OrderItem
    requires Storable(i)
  {
    OrderItem(id, i.name.value, OrNull(i.subCategory), i.price.value, i.quantity.GetOr(1), OrOpt(i.menuItem, i.menuId))
  }

  function ConfirmedItems(next: nat, xs: seq<ItemInput>): seq<OrderItem>
    requires AllStorable(xs)
    decreases |xs|
  {
    if xs == [] then [] else [ConfirmedItem(next, xs[0])] + ConfirmedItems(next + 1, xs[1..])
  }

  /** The batch a confirm request stores: confirmed, items in request order. */
  function NewBatch(id: nat, xs: seq<ItemInput>): Batch
    requires AllStorable(xs)
  {
    Batch(id, true, ConfirmedItems(id + 1, xs))
  }

  /** Each stored item copies the request item at the same position. */
  lemma {:induction false} ConfirmedItemsAt(next: nat, xs: seq<ItemInput>, k: nat)
    requires AllStorable(xs) && k < |xs|
    ensures |ConfirmedItems(next, xs)| == |xs|
    ensures ConfirmedItems(next, xs)[k] == ConfirmedItem(next + k, xs[k])
    decreases |xs|
  {
    if k > 0 {
      ConfirmedItemsAt(next + 1, xs[1..], k - 1);
    } else if |xs| > 1 {
      ConfirmedItemsAt(next + 1, xs[1..], 0);
    }
  }

  /** The field-by-field meaning of a confirmed item. */
  lemma NewBatchItem(id: nat, xs: seq<ItemInput>, k: nat)
    requires AllStorable(xs) && k < |xs|
    ensures NewBatch(id, xs).confirmed && |NewBatch(id, xs).items| == |xs|
    ensures NewBatch(id, xs).items[k].name == xs[k].name.value
    ensures NewBatch(id, xs).items[k].price == xs[k].price.value
    ensures NewBatch(id, xs).items[k].quantity == if xs[k].quantity.Some? then xs[k].quantity.value else 1
    ensures NewBatch(id, xs).items[k].subCategory == if Truthy(xs[k].subCategory) then xs[k].subCategory else None
    ensures NewBatch(id, xs).items[k].menuItem == if Truthy(xs[k].menuItem) then xs[k].menuItem else xs[k].menuId
  {
    ConfirmedItemsAt(id + 1, xs, k);
  }

  /** At most one unserved order per table. */
  ghost predicate OneOpenPerTable(os: seq<Order>) {
    forall i, j :: 0 <= i < j < |os| && !os[i].served && !os[j].served ==> os[i].tableName != os[j].tableName
  }

  /** `findOne({tableName, served: false})`. */
  function FindOpen(os: seq<Order>, table: string): (r: Option<nat>)
    ensures r.Some? ==> r.value < |os| && os[r.value].tableName == table && !os[r.value].served
    ensures r.None? ==> forall k :: 0 <= k < |os| ==> os[k].tableName != table || os[k].served
  {
    FirstIndex(os, (o: Order) => o.tableName == table && !o.served)
  }

  /** `findById`. */
  function FindOrder(os: seq<Order>, id: nat): (r: Option<nat>)
    ensures r.Some? ==> r.value < |os| && os[r.value].id == id
    ensures r.None? ==> forall k :: 0 <= k < |os| ==> os[k].id != id
  {
    FirstIndex(os, (o: Order) => o.id == id)
  }

  /** `order.batches.id(batchId)`. */
  function FindBatch(bs: seq<Batch>, id: nat): (r: Option<nat>)
    ensures r.Some? ==> r.value < |bs| && bs[r.value].id == id
    ensures r.None? ==> forall k :: 0 <= k < |bs| ==> bs[k].id != id
  {
    FirstIndex(bs, (b: Batch) => b.id == id)
  }

  /** `batch.items.id(itemId)`. */
  function FindItem(items: seq<OrderItem>, id: nat): (r: Option<nat>)
    ensures r.Some? ==> r.value < |items| && items[r.value].id == id
    ensures r.None? ==> forall k :: 0 <= k < |items| ==> items[k].id != id
  {
    FirstIndex(items, (i: OrderItem) => i.id == id)
  }

  /** Opening a new order for a table that has none open keeps one open order per table. */
  lemma {:induction false} OpenOrderKeepsOneOpen(os: seq<Order>, o: Order)
    requires OneOpenPerTable(os)
    requires FindOpen(os, o.tableName).None?
    ensures OneOpenPerTable(os + [o])
  {
    var os' := os + [o];
    forall i, j | 0 <= i < j < |os'| && !os'[i].served && !os'[j].served
      ensures os'[i].tableName != os'[j].tableName
    {
      if j == |os| {
        assert os'[i] == os[i];
      }
    }
  }

  /** Any change that keeps every order's table name and never reopens an order keeps the invariant. */
  lemma {:induction false} UpdateKeepsOneOpen(os: seq<Order>, i: nat, o: Order)
    requires OneOpenPerTable(os) && i < |os|
    requires o.tableName == os[i].tableName && (o.served || !os[i].served)
    ensures OneOpenPerTable(os[i := o])
  {
  }

  // ---------------------------------------------------------------------
  // Listing unserved orders
  // ---------------------------------------------------------------------

  function CreatedKey(o: Order): real {
    o.createdAt as real
  }

  // ---------------------------------------------------------------------
  // The item added by `add-item`
  // ---------------------------------------------------------------------

  /** `{name, subCategory || null, price, quantity || 1}`: a missing or zero quantity becomes 1. */
  function AddedItem(id: nat, i: ItemInput): OrderItem
    requires Storable(i)
  {
    OrderItem(id, i.name.value, OrNull(i.subCategory), i.price.value,
              if i.quantity.Some? && i.quantity.value != 0 then i.quantity.value else 1, None)
  }

  /** The batch `add-item` writes to: the one named, else the last one; none if that does not exist. */
  function TargetBatch(bs: seq<Batch>, batchId: Option<nat>): (r: Option<nat>)
    ensures r.Some? ==> r.value < |bs|
    ensures batchId.Some? ==> r == FindBatch(bs, batchId.value)
    ensures batchId.None? ==> r == if bs == [] then None else Some(|bs| - 1)
  {
    if batchId.Some? then FindBatch(bs, batchId.value)
    else if bs == [] then None
    else Some(|bs| - 1)
  }

  function AppendToBatch(b: Batch, it: OrderItem): (r: Batch)
    ensures r.id == b.id && r.confirmed == b.confirmed && r.items == b.items + [it]
  {
    b.(items := b.items + [it])
  }

  /** The stored orders: a sequence of order documents. */
  class OrderStore {
    var orders: seq<Order>
    var nextId: nat

    ghost predicate Valid()
      reads this
    {
      OneOpenPerTable(orders)
    }

    constructor ()
      ensures Valid() && orders == []
    {
      orders := [];
      nextId := 0;
    }

    /**
     * POST /api/orders: validates, then appends one confirmed batch to the
     * table's open order, or opens an order whose only batch is the new one.
     * A failing item schema (missing name or price) stores nothing.
     */
    method ConfirmBatch(tableName: Option<string>, items: seq<ItemInput>, now: int) returns (r: Result<Order>)
      requires Valid()
      modifies this
      ensures Valid()
      ensures !Truthy(tableName) || items == [] ==> r == Err(BadRequest) && orders == old(orders)
      ensures Truthy(tableName) && items != [] && !AllStorable(items) ==> r == Err(ServerError) && orders == old(orders)
      ensures Truthy(tableName) && items != [] && AllStorable(items) ==>
                var b := NewBatch(old(nextId), items);
                var open := FindOpen(old(orders), tableName.value);
                r.Ok? &&
                (open.Some? ==>
                   orders == old(orders)[open.value := old(orders)[open.value].(batches := old(orders)[open.value].batches + [b])]
                   && r.value == orders[open.value]) &&
                (open.None? ==>
                   orders == old(orders) + [Order(old(nextId) + |items| + 1, tableName.value, [b], false, now)]
                   && r.value == orders[|orders| - 1])
    {
      if !Truthy(tableName) || items == [] {
        return Err(BadRequest);
      }
      if !AllStorable(items) {
        return Err(ServerError);
      }
      var table := tableName.value;
      var b := NewBatch(nextId, items);
      var open := FindOpen(orders, table);
      if open.Some? {
        var i := open.value;
        var o := orders[i].(batches := orders[i].batches + [b]);
        UpdateKeepsOneOpen(orders, i, o);
        orders := orders[i := o];
        r := Ok(o);
      } else {
        var o := Order(nextId + |items| + 1, table, [b], false, now);
        OpenOrderKeepsOneOpen(orders, o);
        orders := orders + [o];
        r := Ok(o);
      }
      nextId := nextId + |items| + 2;
    }

    /** GET /api/orders: exactly the unserved orders, oldest first. */
    function ActiveOrders(): (r: seq<Order>)
      reads this
      ensures forall o :: o in r <==> o in orders && !o.served
      ensures forall o :: multiset(r)[o] == if o.served then 0 else multiset(orders)[o]
      ensures SortedByKey(r, CreatedKey)
    {
      var u := Filter(orders, (o: Order) => !o.served);
      var r := SortByKey(u, CreatedKey);
      assert forall o :: o in r <==> o in u by {
        forall o ensures o in r <==> o in u {
          assert o in r <==> o in multiset(r);
          assert o in u <==> o in multiset(u);
        }
      }
      r
    }

    /**
     * PATCH /api/orders/:orderId/served: sets `served` and nothing else; an unknown id
     * is a 404. Marking an order that is already served changes nothing.
     */
    method MarkServed(orderId: nat) returns (r: Result<Order>)
      requires Valid()
      modifies this
      ensures Valid()
      ensures FindOrder(old(orders), orderId).None? ==> r == Err(NotFound) && orders == old(orders)
      ensures FindOrder(old(orders), orderId).Some? ==>
                var i := FindOrder(old(orders), orderId).value;
                orders == old(orders)[i := old(orders)[i].(served := true)] && r == Ok(orders[i])
      ensures FindOrder(old(orders), orderId).Some? && old(orders)[FindOrder(old(orders), orderId).value].served ==>
                orders == old(orders)
    {
      var found := FindOrder(orders, orderId);
      if found.None? {
        return Err(NotFound);
      }
      var i := found.value;
      var o := orders[i].(served := true);
      UpdateKeepsOneOpen(orders, i, o);
      orders := orders[i := o];
      r := Ok(o);
    }

    /**
     * PATCH /api/orders/:orderId/add-item: appends one item to the batch named by
     * `batchId`, or to the last batch when no id is given. A missing item (a
     * TypeError) stores nothing. When the batch exists, an item failing the
     * item schema stores nothing either. When it does not exist, a new empty
     * confirmed batch is stored and the item is pushed only onto the plain
     * object that was copied into it, so the item is neither stored nor
     * validated.
     */
    method AddItem(orderId: nat, batchId: Option<nat>, item: Option<ItemInput>) returns (r: Result<Order>)
      requires Valid()
      modifies this
      ensures Valid()
      ensures FindOrder(old(orders), orderId).None? ==> r == Err(NotFound) && orders == old(orders)
      ensures FindOrder(old(orders), orderId).Some? && item.None? ==> r == Err(ServerError) && orders == old(orders)
      ensures FindOrder(old(orders), orderId).Some? && item.Some? && !Storable(item.value) &&
              TargetBatch(old(orders)[FindOrder(old(orders), orderId).value].batches, batchId).Some? ==>
                r == Err(ServerError) && orders == old(orders)
      ensures FindOrder(old(orders), orderId).Some? && item.Some? &&
              (Storable(item.value) || TargetBatch(old(orders)[FindOrder(old(orders), orderId).value].batches, batchId).None?) ==>
                var i := FindOrder(old(orders), orderId).value;
                var o := old(orders)[i];
                var target := TargetBatch(o.batches, batchId);
                |orders| == |old(orders)| && r == Ok(orders[i]) &&
                (forall j :: 0 <= j < |orders| && j != i ==> orders[j] == old(orders)[j]) &&
                orders[i].id == o.id && orders[i].tableName == o.tableName &&
                orders[i].served == o.served && orders[i].createdAt == o.createdAt &&
                (target.Some? ==>
                   orders[i].batches == o.batches[target.value := AppendToBatch(o.batches[target.value], AddedItem(old(nextId), item.value))]) &&
                (target.None? ==>
                   orders[i].batches == o.batches + [Batch(old(nextId) + 1, true, [])])
    {
      var found := FindOrder(orders, orderId);
      if found.None? {
        return Err(NotFound);
      }
      if item.None? {
        return Err(ServerError);
      }
      var i := found.value;
      var o := orders[i];
      var target := TargetBatch(o.batches, batchId);
      var batches;
      if target.Some? {
        if !Storable(item.value) {
          return Err(ServerError);
        }
        var k := target.value;
        batches := o.batches[k := AppendToBatch(o.batches[k], AddedItem(nextId, item.value))];
      } else {
        batches := o.batches + [Batch(nextId + 1, true, [])];
      }
      var o' := o.(batches := batches);
      UpdateKeepsOneOpen(orders, i, o');
      orders := orders[i := o'];
      nextId := nextId + 2;
      r := Ok(o');
    }

    /**
     * PATCH /api/orders/:orderId/remove-item: 404 for a missing order, batch or item;
     * otherwise exactly that item leaves its batch, and the batch stays even
     * when it becomes empty.
     */
    method RemoveItem(orderId: nat, batchId: Option<nat>, itemId: Option<nat>) returns (r: Result<Order>)
      requires Valid()
      modifies this
      ensures Valid()
      ensures r.Err? ==> r.error == NotFound && orders == old(orders)
      ensures FindOrder(old(orders), orderId).None? ==> r.Err?
      ensures r.Ok? <==>
                var found := FindOrder(old(orders), orderId);
                found.Some? && batchId.Some? && itemId.Some? &&
                var bs := old(orders)[found.value].batches;
                FindBatch(bs, batchId.value).Some? &&
                FindItem(bs[FindBatch(bs, batchId.value).value].items, itemId.value).Some?
      ensures r.Ok? ==>
                var i := FindOrder(old(orders), orderId).value;
                var o := old(orders)[i];
                var k := FindBatch(o.batches, batchId.value).value;
                var j := FindItem(o.batches[k].items, itemId.value).value;
                orders == old(orders)[i := o.(batches := o.batches[k := o.batches[k].(items := RemoveAt(o.batches[k].items, j))])]
                && r == Ok(orders[i])
    {
      var found := FindOrder(orders, orderId);
      if found.None? {
        return Err(NotFound);
      }
      var i := found.value;
      var o := orders[i];
      if batchId.None? {
        return Err(NotFound);
      }
      var bk := FindBatch(o.batches, batchId.value);
      if bk.None? {
        return Err(NotFound);
      }
      var k := bk.value;
      if itemId.None? {
        return Err(NotFound);
      }
      var ij := FindItem(o.batches[k].items, itemId.value);
      if ij.None? {
        return Err(NotFound);
      }
      var j := ij.value;
      var o' := o.(batches := o.batches[k := o.batches[k].(items := RemoveAt(o.batches[k].items, j))]);
      UpdateKeepsOneOpen(orders, i, o');
      orders := orders[i := o'];
      r := Ok(o');
    }
  }
}
