/**
 * Stock records (backend/controllers/inventoryController.js over
 * backend/models/Inventory.js): validated insertion, the full listing and the
 * low-stock query.
 */
module Inventory {
  import opened Base

  datatype StockItem = StockItem(
    id: nat,
    itemName: string,
    category: string,
    unit: string,
    quantityAvailable: real,
    reorderLevel: real)

  /** The body of POST /api/inventory/add; `None` is a missing field. */
  datatype StockInput = StockInput(
    itemName: Option<string>,
    category: Option<string>,
    unit: Option<string>,
    quantityAvailable: Option<real>,
    reorderLevel: Option<real>)

  /** A quantity is truthy unless it is missing or zero. */
  predicate TruthyNumber(x: Option<real>) {
    x.Some? && x.value != 0.0
  }

  /** The 400 check: every required field present and truthy; a quantity of zero counts as missing. */
  predicate Acceptable(body: StockInput) {
    Truthy(body.itemName) && Truthy(body.category) && Truthy(body.unit) && TruthyNumber(body.quantityAvailable)
  }

  /** The record `Inventory.create` stores, with the reorder level defaulting to 5. */
  function NewStockItem(id: nat, body: StockInput): (r: StockItem)
    requires Acceptable(body)
    ensures Some(r.itemName) == body.itemName && Some(r.category) == body.category && Some(r.unit) == body.unit
    ensures Some(r.quantityAvailable) == body.quantityAvailable && r.quantityAvailable != 0.0
    ensures r.reorderLevel == (if body.reorderLevel.Some? then body.reorderLevel.value else 5.0)
    ensures r.id == id
  {
    StockItem(id, body.itemName.value, body.category.value, body.unit.value, body.quantityAvailable.value,
              body.reorderLevel.GetOr(5.0))
  }

  /** `$lte: ["$quantityAvailable", "$reorderLevel"]`: at or below the reorder level. */
  predicate IsLow(x: StockItem) {
    x.quantityAvailable <= x.reorderLevel
  }

  /** The low-stock items of `items`, in stored order. */
  function LowStock(items: seq<StockItem>): (r: seq<StockItem>)
    ensures forall x :: x in r <==> x in items && x.quantityAvailable <= x.reorderLevel
    ensures forall x :: multiset(r)[x] == if IsLow(x) then multiset(items)[x] else 0
  {
    Filter(items, IsLow)
  }

  /** Adding an item extends the low-stock list by that item exactly when it is low. */
  lemma {:induction false} LowStockAppend(items: seq<StockItem>, x: StockItem)
    ensures LowStock(items + [x]) == LowStock(items) + (if IsLow(x) then [x] else [])
  {
    assert (items + [x])[..|items + [x]| - 1] == items;
  }

  /** The inventory collection. */
  class StockRoom {
    var items: seq<StockItem>
    var nextId: nat

    constructor ()
      ensures items == []
    {
      items := [];
      nextId := 0;
    }

    /** POST /api/inventory/add: a missing or falsy required field is a 400 and stores nothing; otherwise exactly one record is added. */
    method AddInventoryItem(body: StockInput) returns (r: Result<StockItem>)
      modifies this
      ensures !Acceptable(body) ==> r == Err(BadRequest) && items == old(items)
      ensures Acceptable(body) ==> r == Ok(NewStockItem(old(nextId), body)) && items == old(items) + [r.value]
      ensures Acceptable(body) ==> LowStock(items) == LowStock(old(items)) + (if IsLow(r.value) then [r.value] else [])
    {
      if !Acceptable(body) {
        return Err(BadRequest);
      }
      var x := NewStockItem(nextId, body);
      LowStockAppend(items, x);
      items := items + [x];
      nextId := nextId + 1;
      r := Ok(x);
    }

    /** GET /api/inventory: every record, unfiltered. */
    function GetInventory(): (r: seq<StockItem>)
      reads this
      ensures r == items
    {
      items
    }

    /** GET /api/inventory/low-stock: exactly the records at or below their reorder level. */
    function LowStockItems(): (r: seq<StockItem>)
      reads this
      ensures forall x :: x in r <==> x in items && IsLow(x)
      ensures |r| <= |items|
    {
      LowStock(items)
    }
  }
}
