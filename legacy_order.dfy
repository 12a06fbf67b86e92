/**
 * The older list-based order page (frontend/src/pages/Order.jsx): a cart of
 * menu dishes, each held once with a quantity, grown with "+", shrunk with
 * "-", cleared per dish with the bin, and totalled.
 */
module LegacyOrder {
  import opened Base
  import opened Grouping

  /** A dish of the page's fixed menu. */
  datatype Dish = Dish(id: int, name: string, price: real)

  /** A cart entry: the dish's fields and a quantity (`{ ...item, quantity }`). */
  datatype Line = Line(id: int, name: string, price: real, quantity: int)

  function LineId(c: Line): int {
    c.id
  }

  /** The cart as the page keeps it: one entry per dish id, each with at least one unit. */
  ghost predicate Valid(cart: seq<Line>) {
    (forall i, j :: 0 <= i < j < |cart| ==> cart[i].id != cart[j].id) &&
    (forall i :: 0 <= i < |cart| ==> cart[i].quantity >= 1)
  }

  /** `cart.find((c) => c.id === item.id)`, as a position. */
  function Find(cart: seq<Line>, id: int): (r: Option<nat>)
    ensures r.Some? ==> r.value < |cart| && cart[r.value].id == id && forall k :: 0 <= k < r.value ==> cart[k].id != id
    ensures r.None? ==> forall k :: 0 <= k < |cart| ==> cart[k].id != id
  {
    FirstIndex(cart, (c: Line) => c.id == id)
  }

  /** The quantity shown for a dish: that of its first entry, 0 without one. */
  function QuantityOf(cart: seq<Line>, id: int): int {
    match Find(cart, id)
    case Some(k) => cart[k].quantity
    case None => 0
  }

  /** `cart.map((c) => c.id === id ? { ...c, quantity: c.quantity + delta } : c)`. */
  function Stepped(cart: seq<Line>, id: int, delta: int): (r: seq<Line>)
    ensures |r| == |cart|
    ensures forall i :: 0 <= i < |cart| ==>
              r[i] == if cart[i].id == id then cart[i].(quantity := cart[i].quantity + delta) else cart[i]
  {
    if cart == [] then []
    else
      var last := cart[|cart| - 1];
      Stepped(cart[..|cart| - 1], id, delta) + [if last.id == id then last.(quantity := last.quantity + delta) else last]
  }

  /** `cart.filter((c) => c.id !== id)`. */
  function Without(cart: seq<Line>, id: int): (r: seq<Line>)
    ensures forall c :: c in r <==> c in cart && c.id != id
  {
    if cart == [] then []
    else
      var init, last := cart[..|cart| - 1], cart[|cart| - 1];
      assert cart == init + [last];
      Without(init, id) + if last.id != id then [last] else []
  }

  /**
   * `handleAdd`: without a selected table the cart stays as it is (the page
   * only alerts); otherwise the dish's entry gains one unit, or the dish is
   * appended with one unit. Entries of other dishes are untouched.
   */
  function HandleAdd(selectedTable: string, cart: seq<Line>, item: Dish): (r: seq<Line>)
    ensures selectedTable == "" ==> r == cart
    ensures selectedTable != "" ==> QuantityOf(r, item.id) == QuantityOf(cart, item.id) + 1
    ensures selectedTable != "" && Find(cart, item.id).None? ==> r == cart + [Line(item.id, item.name, item.price, 1)]
    ensures selectedTable != "" && Find(cart, item.id).Some? ==> |r| == |cart|
    ensures forall id :: id != item.id ==> Where(r, LineId, id) == Where(cart, LineId, id)
  {
    if selectedTable == "" then cart
    else if Find(cart, item.id).Some? then
      forall other | other != item.id
        ensures Where(Stepped(cart, item.id, 1), LineId, other) == Where(cart, LineId, other)
      {
        SteppedElsewhere(cart, item.id, 1, other);
      }
      Stepped(cart, item.id, 1)
    else
      forall id | id != item.id ensures Where(cart + [Line(item.id, item.name, item.price, 1)], LineId, id) == Where(cart, LineId, id) {
        assert (cart + [Line(item.id, item.name, item.price, 1)])[..|cart|] == cart;
      }
      cart + [Line(item.id, item.name, item.price, 1)]
  }

  /**
   * `handleMinus`: a dish with no entry makes the handler throw (`exist` is
   * undefined), which changes nothing and is modelled as no result. An
   * entry whose first occurrence is at one unit is removed, otherwise every
   * entry of the dish loses one unit. Entries of other dishes are untouched.
   */
  function HandleMinus(cart: seq<Line>, item: Dish): (r: Option<seq<Line>>)
    ensures r.None? <==> Find(cart, item.id).None?
    ensures r.Some? && QuantityOf(cart, item.id) == 1 ==> forall c :: c in r.value ==> c.id != item.id
    ensures r.Some? && QuantityOf(cart, item.id) != 1 ==> QuantityOf(r.value, item.id) == QuantityOf(cart, item.id) - 1
    ensures r.Some? ==> forall id :: id != item.id ==> Where(r.value, LineId, id) == Where(cart, LineId, id)
  {
    match Find(cart, item.id)
    case None => None
    case Some(k) =>
      if cart[k].quantity == 1 then
        forall other | other != item.id
          ensures Where(Without(cart, item.id), LineId, other) == Where(cart, LineId, other)
        {
          WithoutElsewhere(cart, item.id, other);
        }
        Some(Without(cart, item.id))
      else
        forall other | other != item.id
          ensures Where(Stepped(cart, item.id, -1), LineId, other) == Where(cart, LineId, other)
        {
          SteppedElsewhere(cart, item.id, -1, other);
        }
        Some(Stepped(cart, item.id, -1))
  }

  /** `handleDelete`: every entry of the dish goes; the rest keep their order. */
  function HandleDelete(cart: seq<Line>, item: Dish): (r: seq<Line>)
    ensures forall c :: c in r <==> c in cart && c.id != item.id
    ensures forall id :: id != item.id ==> Where(r, LineId, id) == Where(cart, LineId, id)
  {
    forall other | other != item.id
      ensures Where(Without(cart, item.id), LineId, other) == Where(cart, LineId, other)
    {
      WithoutElsewhere(cart, item.id, other);
    }
    Without(cart, item.id)
  }

  function LineUnits(c: Line): real {
    c.quantity as real
  }

  function LineCost(c: Line): real {
    c.price * (c.quantity as real)
  }

  /** `totalQuantity`: the units over all entries. */
  function TotalQuantity(cart: seq<Line>): real {
    Total(cart, LineUnits)
  }

  /** `totalCost` before `toFixed(2)`: price times quantity over all entries. */
  function TotalCost(cart: seq<Line>): real {
    Total(cart, LineCost)
  }

  // ---------------------------------------------------------------------
  // Helper facts
  // ---------------------------------------------------------------------

  lemma {:induction false} SteppedElsewhere(cart: seq<Line>, id: int, delta: int, other: int)
    requires other != id
    ensures Where(Stepped(cart, id, delta), LineId, other) == Where(cart, LineId, other)
  {
    if cart != [] {
      var init := cart[..|cart| - 1];
      SteppedElsewhere(init, id, delta, other);
      assert Stepped(cart, id, delta)[..|cart| - 1] == Stepped(init, id, delta);
    }
  }

  lemma {:induction false} WithoutElsewhere(cart: seq<Line>, id: int, other: int)
    requires other != id
    ensures Where(Without(cart, id), LineId, other) == Where(cart, LineId, other)
  {
    if cart != [] {
      var init, last := cart[..|cart| - 1], cart[|cart| - 1];
      WithoutElsewhere(init, id, other);
      var tail := if last.id != id then [last] else [];
      var w := Without(init, id) + tail;
      if tail != [] {
        assert w[..|w| - 1] == Without(init, id);
      } else {
        assert w == Without(init, id);
      }
    }
  }

  /** Removing a dish's entries removes exactly their share of any per-entry total. */
  lemma {:induction false} WithoutTotal(cart: seq<Line>, id: int, val: Line -> real)
    ensures Total(Without(cart, id), val) == Total(cart, val) - SumWhere(cart, LineId, val, id)
  {
    if cart != [] {
      var init := cart[..|cart| - 1];
      WithoutTotal(init, id, val);
      var last := cart[|cart| - 1];
      TotalAppend(Without(init, id), if last.id != id then [last] else [], val);
    }
  }

  /** In a valid cart a dish's share of a total is that of its one entry. */
  lemma {:induction false} SumWhereUnique(cart: seq<Line>, k: nat, val: Line -> real)
    requires Valid(cart) && k < |cart|
    ensures SumWhere(cart, LineId, val, cart[k].id) == val(cart[k])
  {
    var init, last := cart[..|cart| - 1], cart[|cart| - 1];
    if k < |cart| - 1 {
      assert init[k] == cart[k];
      SumWhereUnique(init, k, val);
    } else {
      forall i | 0 <= i < |init| ensures init[i].id != last.id {
        assert init[i] == cart[i];
      }
      SumWhereNone(init, last.id, val);
    }
  }

  lemma {:induction false} SumWhereNone(cart: seq<Line>, id: int, val: Line -> real)
    requires forall i :: 0 <= i < |cart| ==> cart[i].id != id
    ensures SumWhere(cart, LineId, val, id) == 0.0
  {
    if cart != [] {
      SumWhereNone(cart[..|cart| - 1], id, val);
    }
  }

  /** In a valid cart the map over a present dish changes its one entry only. */
  lemma SteppedIsUpdate(cart: seq<Line>, k: nat, delta: int)
    requires Valid(cart) && k < |cart|
    ensures Stepped(cart, cart[k].id, delta) == cart[k := cart[k].(quantity := cart[k].quantity + delta)]
  {
  }

  // ---------------------------------------------------------------------
  // Properties
  // ---------------------------------------------------------------------

  /** "+" keeps one entry per dish, each with at least one unit. */
  lemma AddKeepsValid(selectedTable: string, cart: seq<Line>, item: Dish)
    requires Valid(cart)
    ensures Valid(HandleAdd(selectedTable, cart, item))
  {
  }

  /** "-" keeps one entry per dish, each with at least one unit. */
  lemma MinusKeepsValid(cart: seq<Line>, item: Dish)
    requires Valid(cart)
    ensures HandleMinus(cart, item).Some? ==> Valid(HandleMinus(cart, item).value)
  {
    if HandleMinus(cart, item).Some? && cart[Find(cart, item.id).value].quantity == 1 {
      WithoutKeepsValid(cart, item.id);
    }
  }

  /** The bin keeps one entry per dish, each with at least one unit. */
  lemma DeleteKeepsValid(cart: seq<Line>, item: Dish)
    requires Valid(cart)
    ensures Valid(HandleDelete(cart, item))
  {
    WithoutKeepsValid(cart, item.id);
  }

  lemma {:induction false} WithoutKeepsValid(cart: seq<Line>, id: int)
    requires Valid(cart)
    ensures Valid(Without(cart, id))
  {
    if cart != [] {
      var init, last := cart[..|cart| - 1], cart[|cart| - 1];
      WithoutKeepsValid(init, id);
      var w := Without(init, id);
      forall i | 0 <= i < |w| ensures w[i].id != last.id {
        assert w[i] in init;
        var p :| 0 <= p < |init| && init[p] == w[i];
        assert cart[p] == w[i];
      }
    }
  }

  /**
   * With a table selected, "+" adds one unit and one dish price to the
   * totals (an entry carries its dish's price).
   */
  lemma AddTotals(selectedTable: string, cart: seq<Line>, item: Dish)
    requires Valid(cart) && selectedTable != ""
    requires forall i :: 0 <= i < |cart| && cart[i].id == item.id ==> cart[i].price == item.price
    ensures TotalQuantity(HandleAdd(selectedTable, cart, item)) == TotalQuantity(cart) + 1.0
    ensures TotalCost(HandleAdd(selectedTable, cart, item)) == TotalCost(cart) + item.price
  {
    var line := Line(item.id, item.name, item.price, 1);
    match Find(cart, item.id)
    case None =>
      TotalAppend(cart, [line], LineUnits);
      TotalAppend(cart, [line], LineCost);
    case Some(k) =>
      SteppedIsUpdate(cart, k, 1);
      StepTotals(cart, k, 1);
  }

  /** "-" on a dish in the cart takes one unit and that entry's price off the totals. */
  lemma MinusTotals(cart: seq<Line>, item: Dish)
    requires Valid(cart) && Find(cart, item.id).Some?
    ensures TotalQuantity(HandleMinus(cart, item).value) == TotalQuantity(cart) - 1.0
    ensures TotalCost(HandleMinus(cart, item).value) == TotalCost(cart) - cart[Find(cart, item.id).value].price
  {
    var k := Find(cart, item.id).value;
    if cart[k].quantity == 1 {
      MinusLastUnit(cart, k);
    } else {
      MinusOneUnit(cart, k);
    }
  }

  lemma MinusLastUnit(cart: seq<Line>, k: nat)
    requires Valid(cart) && k < |cart| && cart[k].quantity == 1
    ensures TotalQuantity(Without(cart, cart[k].id)) == TotalQuantity(cart) - 1.0
    ensures TotalCost(Without(cart, cart[k].id)) == TotalCost(cart) - cart[k].price
  {
    WithoutTotal(cart, cart[k].id, LineUnits);
    WithoutTotal(cart, cart[k].id, LineCost);
    SumWhereUnique(cart, k, LineUnits);
    SumWhereUnique(cart, k, LineCost);
  }

  lemma MinusOneUnit(cart: seq<Line>, k: nat)
    requires Valid(cart) && k < |cart|
    ensures TotalQuantity(Stepped(cart, cart[k].id, -1)) == TotalQuantity(cart) - 1.0
    ensures TotalCost(Stepped(cart, cart[k].id, -1)) == TotalCost(cart) - cart[k].price
  {
    SteppedIsUpdate(cart, k, -1);
    StepDownTotals(cart, k);
  }

  lemma StepDownTotals(cart: seq<Line>, k: nat)
    requires k < |cart|
    ensures TotalQuantity(cart[k := cart[k].(quantity := cart[k].quantity + -1)]) == TotalQuantity(cart) - 1.0
    ensures TotalCost(cart[k := cart[k].(quantity := cart[k].quantity + -1)]) == TotalCost(cart) - cart[k].price
  {
    StepTotals(cart, k, -1);
    assert (-1 as real) * cart[k].price == -cart[k].price;
  }

  /** Changing one entry's quantity by delta moves the totals by delta units and delta prices. */
  lemma StepTotals(cart: seq<Line>, k: nat, delta: int)
    requires k < |cart|
    ensures TotalQuantity(cart[k := cart[k].(quantity := cart[k].quantity + delta)]) == TotalQuantity(cart) + delta as real
    ensures TotalCost(cart[k := cart[k].(quantity := cart[k].quantity + delta)]) ==
              TotalCost(cart) + (delta as real) * cart[k].price
  {
    var c' := cart[k].(quantity := cart[k].quantity + delta);
    TotalUpdate(cart, k, c', LineUnits);
    TotalUpdate(cart, k, c', LineCost);
    UnitCost(cart[k], delta);
  }

  lemma UnitCost(c: Line, delta: int)
    ensures LineCost(c.(quantity := c.quantity + delta)) == LineCost(c) + (delta as real) * c.price
  {
  }

  /** The bin takes the dish's units and cost off the totals, and nothing else. */
  lemma DeleteTotals(cart: seq<Line>, item: Dish)
    ensures TotalQuantity(HandleDelete(cart, item)) == TotalQuantity(cart) - SumWhere(cart, LineId, LineUnits, item.id)
    ensures TotalCost(HandleDelete(cart, item)) == TotalCost(cart) - SumWhere(cart, LineId, LineCost, item.id)
  {
    WithoutTotal(cart, item.id, LineUnits);
    WithoutTotal(cart, item.id, LineCost);
  }

  /** With a table selected, "-" right after "+" gives back the cart as it was. */
  lemma MinusUndoesAdd(selectedTable: string, cart: seq<Line>, item: Dish)
    requires Valid(cart) && selectedTable != ""
    ensures HandleMinus(HandleAdd(selectedTable, cart, item), item) == Some(cart)
  {
    var added := HandleAdd(selectedTable, cart, item);
    match Find(cart, item.id)
    case None =>
      assert Find(added, item.id) == Some(|cart|);
      var w := Without(added, item.id);
      WithoutAppended(cart, Line(item.id, item.name, item.price, 1));
    case Some(k) =>
      assert Find(added, item.id) == Some(k);
      assert Stepped(added, item.id, -1) == cart;
  }

  lemma {:induction false} WithoutAppended(cart: seq<Line>, line: Line)
    requires forall k :: 0 <= k < |cart| ==> cart[k].id != line.id
    ensures Without(cart + [line], line.id) == cart
  {
    assert (cart + [line])[..|cart|] == cart;
    WithoutNone(cart, line.id);
  }

  lemma {:induction false} WithoutNone(cart: seq<Line>, id: int)
    requires forall k :: 0 <= k < |cart| ==> cart[k].id != id
    ensures Without(cart, id) == cart
  {
    if cart != [] {
      var init := cart[..|cart| - 1];
      WithoutNone(init, id);
      assert init + [cart[|cart| - 1]] == cart;
    }
  }
}
