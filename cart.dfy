/**
 * The client-side cart (frontend/src/context/CartContext.jsx). Each table
 * name maps to a list of batches; a batch holds its items keyed by
 * `_id::subCategory` in insertion order and is either still being filled
 * (unconfirmed) or sent to the kitchen (confirmed). The batch ids that
 * `Date.now()` supplies are parameters.
 */
module Cart {
  import opened Base

  /** A menu item as the client receives it (only the fields the pages read). */
  datatype MenuEntry = MenuEntry(
    id: string,
    name: string,
    price: real,
    category: string,
    subCategory: Option<string>,
    isAvailable: Option<bool>)

  datatype CartItem = CartItem(entry: MenuEntry, quantity: int, key: string)

  /** A batch; `items` is the item object, one entry per key, in insertion order. */
  datatype CartBatch = CartBatch(id: int, items: seq<CartItem>, confirmed: bool)

  datatype TableCart = TableCart(orders: seq<CartBatch>)

  // ---------------------------------------------------------------------
  // Item keys
  // ---------------------------------------------------------------------

  /** `getItemKey`: the menu id, "::", and the lower-cased variant (default "regular"). */
  function ItemKey(e: MenuEntry): (r: string)
    ensures r == e.id + "::" + Lower(OrElse(e.subCategory, "regular"))
    ensures |r| == |e.id| + 2 + |OrElse(e.subCategory, "regular")|
  {
    e.id + "::" + Lower(OrElse(e.subCategory, "regular"))
  }

  /** Two variants whose names differ only in letter case share a key. */
  lemma KeyIgnoresCase(a: MenuEntry, b: MenuEntry)
    requires a.id == b.id && Lower(OrElse(a.subCategory, "regular")) == Lower(OrElse(b.subCategory, "regular"))
    ensures ItemKey(a) == ItemKey(b)
  {
  }

  predicate NoColon(s: string) {
    forall k :: 0 <= k < |s| ==> s[k] != ':'
  }

  /** In the key of an id without a colon, the first colon sits right after the id. */
  lemma ColonAfterId(e: MenuEntry)
    requires NoColon(e.id)
    ensures ItemKey(e)[|e.id|] == ':'
    ensures forall k :: 0 <= k < |e.id| ==> ItemKey(e)[k] != ':'
  {
    assert forall k :: 0 <= k < |e.id| ==> ItemKey(e)[k] == e.id[k];
  }

  /** For ids without a colon, equal keys mean the same menu id and the same lower-cased variant. */
  lemma {:induction false} KeyDeterminesItem(a: MenuEntry, b: MenuEntry)
    requires NoColon(a.id) && NoColon(b.id)
    requires ItemKey(a) == ItemKey(b)
    ensures a.id == b.id
    ensures Lower(OrElse(a.subCategory, "regular")) == Lower(OrElse(b.subCategory, "regular"))
  {
    var ka, kb := ItemKey(a), ItemKey(b);
    var sa, sb := Lower(OrElse(a.subCategory, "regular")), Lower(OrElse(b.subCategory, "regular"));
    ColonAfterId(a);
    ColonAfterId(b);
    assert |a.id| == |b.id|;
    assert a.id == ka[..|a.id|] && b.id == kb[..|b.id|];
    assert sa == ka[|a.id| + 2..] && sb == kb[|b.id| + 2..];
  }

  // ---------------------------------------------------------------------
  // The item object of one batch
  // ---------------------------------------------------------------------

  function KeyIndex(items: seq<CartItem>, key: string): Option<nat> {
    FirstIndex(items, (c: CartItem) => c.key == key)
  }

  ghost predicate UniqueKeys(items: seq<CartItem>) {
    forall i, j :: 0 <= i < j < |items| ==> items[i].key != items[j].key
  }

  /** A well-formed item object: one entry per key, every stored quantity at least 1. */
  ghost predicate ValidItems(items: seq<CartItem>) {
    UniqueKeys(items) && forall i :: 0 <= i < |items| ==> items[i].quantity >= 1
  }

  /** The number of units in an item object. */
  function Units(items: seq<CartItem>): int {
    if items == [] then 0 else Units(items[..|items| - 1]) + items[|items| - 1].quantity
  }

  lemma {:induction false} UnitsAppend(a: seq<CartItem>, b: seq<CartItem>)
    ensures Units(a + b) == Units(a) + Units(b)
  {
    if b == [] {
      assert a + b == a;
    } else {
      assert (a + b)[..|a + b| - 1] == a + b[..|b| - 1];
      UnitsAppend(a, b[..|b| - 1]);
    }
  }

  lemma UnitsSplit(items: seq<CartItem>, i: nat)
    requires i < |items|
    ensures Units(items) == Units(items[..i]) + items[i].quantity + Units(items[i + 1..])
  {
    assert items == items[..i] + [items[i]] + items[i + 1..];
    UnitsAppend(items[..i] + [items[i]], items[i + 1..]);
    UnitsAppend(items[..i], [items[i]]);
    assert Units([items[i]]) == Units([]) + items[i].quantity by {
      assert [items[i]][..0] == [];
    }
  }

  lemma UnitsUpdate(items: seq<CartItem>, i: nat, x: CartItem)
    requires i < |items|
    ensures Units(items[i := x]) == Units(items) - items[i].quantity + x.quantity
  {
    UnitsSplit(items, i);
    UnitsSplit(items[i := x], i);
    assert items[i := x][..i] == items[..i] && items[i := x][i + 1..] == items[i + 1..];
  }

  lemma UnitsRemoveAt(items: seq<CartItem>, i: nat)
    requires i < |items|
    ensures Units(RemoveAt(items, i)) == Units(items) - items[i].quantity
  {
    UnitsSplit(items, i);
    assert RemoveAt(items, i) == items[..i] + items[i + 1..];
    UnitsAppend(items[..i], items[i + 1..]);
  }

  /** The amount of an item object: the sum of price times quantity. */
  function Amount(items: seq<CartItem>): real {
    if items == [] then 0.0
    else Amount(items[..|items| - 1]) + items[|items| - 1].entry.price * (items[|items| - 1].quantity as real)
  }

  /** `items[key]?.quantity || 0`. */
  function QuantityOf(items: seq<CartItem>, key: string): int {
    match KeyIndex(items, key)
    case Some(i) => items[i].quantity
    case None => 0
  }

  /**
   * One more unit of `added.key`: the stored entry's quantity grows by one,
   * or `added` is added at the end when the key is absent.
   */
  function Bump(items: seq<CartItem>, added: CartItem): seq<CartItem> {
    match KeyIndex(items, added.key)
    case Some(i) => items[i := items[i].(quantity := items[i].quantity + 1)]
    case None => items + [added]
  }

  /** One unit fewer of `key`: decrement above 1, delete the key at 1; an absent key changes nothing. */
  function Drop(items: seq<CartItem>, key: string): seq<CartItem> {
    match KeyIndex(items, key)
    case Some(i) => if items[i].quantity > 1 then items[i := items[i].(quantity := items[i].quantity - 1)] else RemoveAt(items, i)
    case None => items
  }

  /** `delete items[key]`. */
  function Delete(items: seq<CartItem>, key: string): seq<CartItem> {
    match KeyIndex(items, key)
    case Some(i) => RemoveAt(items, i)
    case None => items
  }

  lemma UniqueKeysRemoveAt(items: seq<CartItem>, i: nat)
    requires i < |items| && ValidItems(items)
    ensures ValidItems(RemoveAt(items, i))
  {
    var r := RemoveAt(items, i);
    forall a, b | 0 <= a < b < |r| ensures r[a].key != r[b].key {
      var a', b' := if a < i then a else a + 1, if b < i then b else b + 1;
      assert r[a] == items[a'] && r[b] == items[b'];
    }
  }

  /** The first entry with `key` is at `i`. */
  lemma KeyIndexAt(items: seq<CartItem>, key: string, i: nat)
    requires i < |items| && items[i].key == key
    requires forall k :: 0 <= k < i ==> items[k].key != key
    ensures KeyIndex(items, key) == Some(i)
  {
  }

  /** Adding a unit keeps the item object well formed and adds exactly one unit; the key is then present. */
  lemma BumpFacts(items: seq<CartItem>, added: CartItem)
    requires ValidItems(items) && added.quantity == 1
    ensures ValidItems(Bump(items, added))
    ensures Units(Bump(items, added)) == Units(items) + 1
    ensures KeyIndex(Bump(items, added), added.key).Some?
    ensures |Bump(items, added)| == |items| + (if KeyIndex(items, added.key).Some? then 0 else 1)
  {
    match KeyIndex(items, added.key)
    case Some(i) => BumpPresent(items, added, i);
    case None => BumpAbsent(items, added);
  }

  lemma BumpPresent(items: seq<CartItem>, added: CartItem, i: nat)
    requires ValidItems(items) && KeyIndex(items, added.key) == Some(i)
    ensures Bump(items, added) == items[i := items[i].(quantity := items[i].quantity + 1)]
    ensures ValidItems(Bump(items, added))
    ensures Units(Bump(items, added)) == Units(items) + 1
    ensures KeyIndex(Bump(items, added), added.key) == Some(i)
  {
    var b := items[i := items[i].(quantity := items[i].quantity + 1)];
    BumpAt(items, added, i);
    UnitsUpdate(items, i, b[i]);
    forall k | 0 <= k < |b| ensures b[k].key == items[k].key && b[k].quantity >= items[k].quantity {
    }
    forall x, y | 0 <= x < y < |b| ensures b[x].key != b[y].key {
      assert items[x].key != items[y].key;
    }
    KeyIndexAt(b, added.key, i);
  }

  lemma BumpAt(items: seq<CartItem>, added: CartItem, i: nat)
    requires KeyIndex(items, added.key) == Some(i)
    ensures Bump(items, added) == items[i := items[i].(quantity := items[i].quantity + 1)]
  {
  }

  lemma BumpAbsent(items: seq<CartItem>, added: CartItem)
    requires ValidItems(items) && KeyIndex(items, added.key).None? && added.quantity == 1
    ensures Bump(items, added) == items + [added]
    ensures ValidItems(Bump(items, added))
    ensures Units(Bump(items, added)) == Units(items) + 1
    ensures KeyIndex(Bump(items, added), added.key) == Some(|items|)
  {
    assert forall k :: 0 <= k < |items| ==> items[k].key != added.key;
    AppendNewKey(items, added);
    UnitsAppendOne(items, added);
  }

  /** An entry under a new key goes last and keeps the item object well formed. */
  lemma AppendNewKey(items: seq<CartItem>, added: CartItem)
    requires ValidItems(items) && added.quantity >= 1
    requires forall k :: 0 <= k < |items| ==> items[k].key != added.key
    ensures ValidItems(items + [added])
    ensures KeyIndex(items + [added], added.key) == Some(|items|)
  {
    var b := items + [added];
    forall x, y | 0 <= x < y < |b| ensures b[x].key != b[y].key {
      assert b[x] == items[x];
      if y < |items| {
        assert b[y] == items[y];
      }
    }
    KeyIndexAt(b, added.key, |items|);
  }

  lemma UnitsAppendOne(items: seq<CartItem>, added: CartItem)
    ensures Units(items + [added]) == Units(items) + added.quantity
  {
    assert (items + [added])[..|items|] == items;
  }

  /** Adding a unit raises the key's quantity by exactly one, from 0 when it was absent. */
  lemma BumpQuantity(items: seq<CartItem>, added: CartItem)
    requires ValidItems(items) && added.quantity == 1
    ensures QuantityOf(Bump(items, added), added.key) == QuantityOf(items, added.key) + 1
  {
    var b := Bump(items, added);
    match KeyIndex(items, added.key)
    case Some(i) =>
      assert forall k :: 0 <= k < |b| ==> b[k].key == items[k].key;
      KeyIndexAt(b, added.key, i);
    case None =>
      assert forall k :: 0 <= k < |items| ==> b[k] == items[k] && items[k].key != added.key;
      KeyIndexAt(b, added.key, |items|);
  }

  /** Removing a unit lowers the key's quantity by one, never below 0. */
  lemma DropQuantity(items: seq<CartItem>, key: string)
    requires ValidItems(items)
    ensures QuantityOf(Drop(items, key), key) == if QuantityOf(items, key) > 0 then QuantityOf(items, key) - 1 else 0
  {
    var d := Drop(items, key);
    match KeyIndex(items, key)
    case Some(i) =>
      if items[i].quantity > 1 {
        assert forall k :: 0 <= k < |d| ==> d[k].key == items[k].key;
        KeyIndexAt(d, key, i);
      } else {
        assert forall k :: 0 <= k < |d| ==> d[k].key != key by {
          forall k | 0 <= k < |d| ensures d[k].key != key {
            if k < i { assert d[k] == items[k]; } else { assert d[k] == items[k + 1]; }
          }
        }
      }
    case None =>
  }

  /** Removing a unit keeps the item object well formed and removes one unit exactly when the key was present. */
  lemma DropFacts(items: seq<CartItem>, key: string)
    requires ValidItems(items)
    ensures ValidItems(Drop(items, key))
    ensures Units(Drop(items, key)) == Units(items) - (if KeyIndex(items, key).Some? then 1 else 0)
  {
    match KeyIndex(items, key)
    case Some(i) =>
      if items[i].quantity > 1 {
        UnitsUpdate(items, i, items[i].(quantity := items[i].quantity - 1));
      } else {
        UnitsRemoveAt(items, i);
        UniqueKeysRemoveAt(items, i);
      }
    case None =>
  }

  /** After `delete`, the key is gone and every other entry is kept, in order. */
  lemma DeleteFacts(items: seq<CartItem>, key: string)
    requires ValidItems(items)
    ensures ValidItems(Delete(items, key))
    ensures forall c :: c in Delete(items, key) <==> c in items && c.key != key
  {
    match KeyIndex(items, key)
    case Some(i) =>
      UniqueKeysRemoveAt(items, i);
      var r := RemoveAt(items, i);
      forall c ensures c in r <==> c in items && c.key != key {
        if c in r {
          var k :| 0 <= k < |r| && r[k] == c;
          if k < i { assert items[k] == c; } else { assert items[k + 1] == c; }
        }
        if c in items && c.key != key {
          var k :| 0 <= k < |items| && items[k] == c;
          if k < i { assert r[k] == c; } else { assert k != i; assert r[k - 1] == c; }
        }
      }
    case None =>
  }

  /** Adding one unit and taking it away again gives back the same item object. */
  lemma DropUndoesBump(items: seq<CartItem>, added: CartItem)
    requires ValidItems(items) && added.quantity == 1
    ensures Drop(Bump(items, added), added.key) == items
  {
    var key := added.key;
    var b := Bump(items, added);
    match KeyIndex(items, key)
    case Some(i) =>
      assert forall k :: 0 <= k < |b| ==> b[k].key == items[k].key;
      KeyIndexAt(b, key, i);
      assert b[i := b[i].(quantity := b[i].quantity - 1)] == items;
    case None =>
      assert forall k :: 0 <= k < |items| ==> b[k] == items[k] && items[k].key != key;
      KeyIndexAt(b, key, |items|);
      assert RemoveAt(b, |items|) == items;
  }

  // ---------------------------------------------------------------------
  // The batches of one table
  // ---------------------------------------------------------------------

  /** `orders.find(b => !b.confirmed)`: the batch still being filled. */
  function OpenIndex(orders: seq<CartBatch>): Option<nat> {
    FirstIndex(orders, (b: CartBatch) => !b.confirmed)
  }

  ghost predicate OneOpen(orders: seq<CartBatch>) {
    forall i, j :: 0 <= i < j < |orders| ==> orders[i].confirmed || orders[j].confirmed
  }

  ghost predicate DistinctIds(orders: seq<CartBatch>) {
    forall i, j :: 0 <= i < j < |orders| ==> orders[i].id != orders[j].id
  }

  /** At most one unconfirmed batch, batch ids distinct, every item object well formed. */
  ghost predicate ValidOrders(orders: seq<CartBatch>) {
    OneOpen(orders) && DistinctIds(orders) && forall k :: 0 <= k < |orders| ==> ValidItems(orders[k].items)
  }

  /** `orders.map(b => b.id === nb.id ? nb : b)`. */
  function ReplaceById(orders: seq<CartBatch>, nb: CartBatch): (r: seq<CartBatch>)
    ensures |r| == |orders|
    ensures forall k :: 0 <= k < |orders| ==> r[k] == if orders[k].id == nb.id then nb else orders[k]
  {
    seq(|orders|, k requires 0 <= k < |orders| => if orders[k].id == nb.id then nb else orders[k])
  }

  /** With distinct ids, replacing by id touches only the batch that carries the id. */
  lemma ReplaceByIdAt(orders: seq<CartBatch>, i: nat, nb: CartBatch)
    requires DistinctIds(orders) && i < |orders| && nb.id == orders[i].id
    ensures ReplaceById(orders, nb) == orders[i := nb]
  {
    var r := ReplaceById(orders, nb);
    forall k | 0 <= k < |orders| ensures r[k] == orders[i := nb][k] {
      if k != i {
        assert orders[k].id != orders[i].id by {
          if k < i { assert orders[k].id != orders[i].id; } else { assert orders[i].id != orders[k].id; }
        }
      }
    }
  }

  predicate IdUnused(orders: seq<CartBatch>, id: int) {
    forall k :: 0 <= k < |orders| ==> orders[k].id != id
  }

  /** Batches with the same ids and flags as well-formed ones, and well-formed item objects, are well formed. */
  lemma SameShapeValid(orders: seq<CartBatch>, r: seq<CartBatch>)
    requires ValidOrders(orders) && |r| == |orders|
    requires forall k :: 0 <= k < |r| ==> r[k].id == orders[k].id && r[k].confirmed == orders[k].confirmed
    requires forall k :: 0 <= k < |r| ==> ValidItems(r[k].items)
    ensures ValidOrders(r)
  {
    forall i, j | 0 <= i < j < |r| ensures r[i].confirmed || r[j].confirmed {
      assert orders[i].confirmed || orders[j].confirmed;
    }
    forall i, j | 0 <= i < j < |r| ensures r[i].id != r[j].id {
      assert orders[i].id != orders[j].id;
    }
  }

  /** Appending a batch with an unused id and a well-formed item object keeps the batches well formed, if it is confirmed or none is open. */
  lemma AppendValid(orders: seq<CartBatch>, b: CartBatch)
    requires ValidOrders(orders) && IdUnused(orders, b.id) && ValidItems(b.items)
    requires b.confirmed || OpenIndex(orders).None?
    ensures ValidOrders(orders + [b])
  {
    var r := orders + [b];
    forall i, j | 0 <= i < j < |r| ensures r[i].confirmed || r[j].confirmed {
      if j < |orders| { assert orders[i].confirmed || orders[j].confirmed; }
      else if !b.confirmed { assert orders[i].confirmed; }
    }
    forall i, j | 0 <= i < j < |r| ensures r[i].id != r[j].id {
      if j < |orders| { assert orders[i].id != orders[j].id; }
    }
  }

  /** The batches after `addToCart` put one unit of `added.key` into the open batch, opening one if needed. */
  function AddedToOpen(orders: seq<CartBatch>, added: CartItem, newId: int): seq<CartBatch> {
    match OpenIndex(orders)
    case Some(i) => ReplaceById(orders, orders[i].(items := Bump(orders[i].items, added)))
    case None => orders + [CartBatch(newId, Bump([], added), false)]
  }

  /** The first unconfirmed batch is at `i`. */
  lemma OpenIndexAt(orders: seq<CartBatch>, i: nat)
    requires i < |orders| && !orders[i].confirmed
    requires forall k :: 0 <= k < i ==> orders[k].confirmed
    ensures OpenIndex(orders) == Some(i)
  {
  }

  /**
   * `addToCart` on well-formed batches: only the open batch changes, by one
   * more unit of the key; with no open batch exactly one is appended.
   */
  lemma AddedToOpenShape(orders: seq<CartBatch>, added: CartItem, newId: int)
    requires ValidOrders(orders) && added.quantity == 1
    ensures var r := AddedToOpen(orders, added, newId);
            OpenIndex(r).Some? &&
            Units(r[OpenIndex(r).value].items) ==
              (if OpenIndex(orders).Some? then Units(orders[OpenIndex(orders).value].items) else 0) + 1 &&
            |r| == |orders| + (if OpenIndex(orders).Some? then 0 else 1) &&
            (forall k :: 0 <= k < |orders| && orders[k].confirmed ==> r[k] == orders[k])
  {
    match OpenIndex(orders)
    case Some(i) => AddedToOpenBatchShape(orders, added, i);
    case None =>
      var r := AddedToOpen(orders, added, newId);
      BumpFacts([], added);
      assert forall k :: 0 <= k < |orders| ==> r[k] == orders[k];
      OpenIndexAt(r, |orders|);
  }

  lemma AddedToOpenBatchShape(orders: seq<CartBatch>, added: CartItem, i: nat)
    requires ValidOrders(orders) && added.quantity == 1 && OpenIndex(orders) == Some(i)
    ensures var r := ReplaceById(orders, orders[i].(items := Bump(orders[i].items, added)));
            OpenIndex(r) == Some(i) && Units(r[i].items) == Units(orders[i].items) + 1 &&
            |r| == |orders| && (forall k :: 0 <= k < |orders| && k != i ==> r[k] == orders[k])
  {
    var nb := orders[i].(items := Bump(orders[i].items, added));
    ReplaceByIdAt(orders, i, nb);
    BumpFacts(orders[i].items, added);
    OpenIndexAt(orders[i := nb], i);
  }

  /** `addToCart` keeps the batches well formed whenever it reuses the open batch or the new id is unused. */
  lemma AddedToOpenValid(orders: seq<CartBatch>, added: CartItem, newId: int)
    requires ValidOrders(orders) && added.quantity == 1
    requires OpenIndex(orders).Some? || IdUnused(orders, newId)
    ensures ValidOrders(AddedToOpen(orders, added, newId))
  {
    match OpenIndex(orders)
    case Some(i) => AddedToOpenBatchValid(orders, added, i);
    case None =>
      BumpFacts([], added);
      AppendValid(orders, CartBatch(newId, Bump([], added), false));
  }

  lemma AddedToOpenBatchValid(orders: seq<CartBatch>, added: CartItem, i: nat)
    requires ValidOrders(orders) && added.quantity == 1 && i < |orders|
    ensures ValidOrders(ReplaceById(orders, orders[i].(items := Bump(orders[i].items, added))))
  {
    var nb := orders[i].(items := Bump(orders[i].items, added));
    ReplaceByIdAt(orders, i, nb);
    BumpFacts(orders[i].items, added);
    var r := orders[i := nb];
    forall k | 0 <= k < |r| ensures ValidItems(r[k].items) && r[k].id == orders[k].id && r[k].confirmed == orders[k].confirmed {
      if k != i {
        assert r[k] == orders[k];
      }
    }
    SameShapeValid(orders, r);
  }

  /** The batches after `addItemByAdmin`: into the last batch if it is confirmed, otherwise into a new confirmed batch. */
  function AddedByAdmin(orders: seq<CartBatch>, added: CartItem, newId: int): seq<CartBatch> {
    if orders == [] || !orders[|orders| - 1].confirmed then orders + [CartBatch(newId, Bump([], added), true)]
    else orders[|orders| - 1 := orders[|orders| - 1].(items := Bump(orders[|orders| - 1].items, added))]
  }

  /** An admin addition lands in a confirmed last batch and never touches the open batch. */
  lemma AddedByAdminShape(orders: seq<CartBatch>, added: CartItem, newId: int)
    ensures var r := AddedByAdmin(orders, added, newId);
            r[|r| - 1].confirmed && |r| >= |orders| &&
            forall k :: 0 <= k < |orders| && !orders[k].confirmed ==> r[k] == orders[k]
  {
  }

  /** An admin addition keeps the batches well formed whenever it reuses the last batch or the new id is unused. */
  lemma AddedByAdminValid(orders: seq<CartBatch>, added: CartItem, newId: int)
    requires ValidOrders(orders) && added.quantity == 1
    requires (orders != [] && orders[|orders| - 1].confirmed) || IdUnused(orders, newId)
    ensures ValidOrders(AddedByAdmin(orders, added, newId))
  {
    var r := AddedByAdmin(orders, added, newId);
    if orders != [] && orders[|orders| - 1].confirmed {
      BumpFacts(orders[|orders| - 1].items, added);
      SameShapeValid(orders, r);
    } else {
      BumpFacts([], added);
      AppendValid(orders, CartBatch(newId, Bump([], added), true));
    }
  }

  /** The batches after `removeFromCart`: one unit fewer of `key` in the open batch; nothing else changes. */
  function RemovedFromOpen(orders: seq<CartBatch>, key: string): seq<CartBatch> {
    match OpenIndex(orders)
    case Some(i) => orders[i := orders[i].(items := Drop(orders[i].items, key))]
    case None => orders
  }

  /** Removing from the open batch keeps the batches well formed and every confirmed batch as it was. */
  lemma RemovedFromOpenFacts(orders: seq<CartBatch>, key: string)
    requires ValidOrders(orders)
    ensures ValidOrders(RemovedFromOpen(orders, key))
    ensures |RemovedFromOpen(orders, key)| == |orders|
    ensures forall k :: 0 <= k < |orders| && orders[k].confirmed ==> RemovedFromOpen(orders, key)[k] == orders[k]
  {
    if OpenIndex(orders).Some? {
      DropFacts(orders[OpenIndex(orders).value].items, key);
    }
  }

  /** `removeFromCart` followed by `addToCart` of the same item in an open batch restores it. */
  lemma RemoveUndoesAdd(orders: seq<CartBatch>, added: CartItem, newId: int)
    requires ValidOrders(orders) && added.quantity == 1 && OpenIndex(orders).Some?
    ensures RemovedFromOpen(AddedToOpen(orders, added, newId), added.key) == orders
  {
    var i := OpenIndex(orders).value;
    var nb := orders[i].(items := Bump(orders[i].items, added));
    ReplaceByIdAt(orders, i, nb);
    var r := orders[i := nb];
    assert OpenIndex(r) == Some(i) by {
      assert forall k :: 0 <= k < i ==> r[k] == orders[k];
      assert !r[i].confirmed;
    }
    DropUndoesBump(orders[i].items, added);
  }

  /** Every batch with `key` deleted, as `removeItemByAdmin` leaves them. */
  function DeletedEverywhere(orders: seq<CartBatch>, key: string): (r: seq<CartBatch>)
    ensures |r| == |orders|
    ensures forall k :: 0 <= k < |orders| ==> r[k] == orders[k].(items := Delete(orders[k].items, key))
  {
    seq(|orders|, k requires 0 <= k < |orders| => orders[k].(items := Delete(orders[k].items, key)))
  }

  /** After deleting a key everywhere no batch holds it, every other entry is kept, and the batches stay well formed. */
  lemma DeletedEverywhereFacts(orders: seq<CartBatch>, key: string)
    requires ValidOrders(orders)
    ensures ValidOrders(DeletedEverywhere(orders, key))
    ensures forall k, c :: 0 <= k < |orders| ==>
              (c in DeletedEverywhere(orders, key)[k].items <==> c in orders[k].items && c.key != key)
  {
    forall k | 0 <= k < |orders| {
      DeleteFacts(orders[k].items, key);
    }
  }

  // ---------------------------------------------------------------------
  // The cart
  // ---------------------------------------------------------------------

  /** The `tables` state of the cart context. */
  class CartState {
    var tables: map<string, TableCart>

    ghost predicate Valid()
      reads this
    {
      forall t :: t in tables ==> ValidOrders(tables[t].orders)
    }

    /** A fresh context, or one after `resetAllOrders`: no table. */
    constructor ()
      ensures Valid() && tables == map[]
    {
      tables := map[];
    }

    /** The batches of a table, an absent table having none. */
    function Orders(tableName: string): seq<CartBatch>
      reads this
    {
      if tableName in tables then tables[tableName].orders else []
    }

    /**
     * `addToCart`: the table entry is created if absent; one unit of the
     * item's key goes into the open batch (a new one, id `newId`, if there is
     * none); a new entry starts at quantity 1 with variant "regular" by
     * default. Other tables are untouched.
     */
    method AddToCart(tableName: string, item: MenuEntry, newId: int)
      requires Valid()
      modifies this
      ensures var added := CartItem(item.(subCategory := Some(OrElse(item.subCategory, "regular"))), 1, ItemKey(item));
              tables == old(tables)[tableName := TableCart(AddedToOpen(old(Orders(tableName)), added, newId))]
      ensures OpenIndex(old(Orders(tableName))).Some? || IdUnused(old(Orders(tableName)), newId) ==> Valid()
    {
      var added := CartItem(item.(subCategory := Some(OrElse(item.subCategory, "regular"))), 1, ItemKey(item));
      var orders := Orders(tableName);
      AddedToOpenShape(orders, added, newId);
      if OpenIndex(orders).Some? || IdUnused(orders, newId) {
        AddedToOpenValid(orders, added, newId);
      }
      tables := tables[tableName := TableCart(AddedToOpen(orders, added, newId))];
    }

    /** `removeFromCart`: one unit fewer in the open batch; an unknown table, no open batch or an absent key changes nothing. */
    method RemoveFromCart(tableName: string, item: MenuEntry)
      requires Valid()
      modifies this
      ensures Valid()
      ensures tableName !in old(tables) ==> tables == old(tables)
      ensures tableName in old(tables) ==>
                tables == old(tables)[tableName := TableCart(RemovedFromOpen(old(tables)[tableName].orders, ItemKey(item)))]
    {
      if tableName !in tables {
        return;
      }
      var orders := tables[tableName].orders;
      RemovedFromOpenFacts(orders, ItemKey(item));
      tables := tables[tableName := TableCart(RemovedFromOpen(orders, ItemKey(item)))];
    }

    /** `confirmOrder`: the open batch becomes confirmed, in place; nothing else changes. */
    method ConfirmOrder(tableName: string)
      requires Valid()
      modifies this
      ensures Valid()
      ensures tableName !in old(tables) || OpenIndex(old(tables)[tableName].orders).None? ==> tables == old(tables)
      ensures tableName in old(tables) && OpenIndex(old(tables)[tableName].orders).Some? ==>
                var orders := old(tables)[tableName].orders;
                var i := OpenIndex(orders).value;
                tables == old(tables)[tableName := TableCart(orders[i := orders[i].(confirmed := true)])]
      ensures tableName in tables ==> OpenIndex(tables[tableName].orders).None?
    {
      if tableName !in tables {
        return;
      }
      var orders := tables[tableName].orders;
      var found := OpenIndex(orders);
      if found.None? {
        return;
      }
      var i := found.value;
      orders := orders[i := orders[i].(confirmed := true)];
      assert forall k :: 0 <= k < |orders| ==> orders[k].confirmed;
      tables := tables[tableName := TableCart(orders)];
    }

    /**
     * `addItemByAdmin`: an unknown table changes nothing; otherwise one unit
     * of the item's key goes into the last batch when it is confirmed, or into
     * a new confirmed batch (id `newId`) appended after it.
     */
    method AddItemByAdmin(tableName: string, item: MenuEntry, newId: int)
      requires Valid()
      modifies this
      ensures tableName !in old(tables) ==> tables == old(tables)
      ensures tableName in old(tables) ==>
                tables == old(tables)[tableName := TableCart(AddedByAdmin(old(tables)[tableName].orders,
                                                                          CartItem(item, 1, ItemKey(item)), newId))]
      ensures tableName in old(tables) ==>
                var orders := old(tables)[tableName].orders;
                (orders != [] && orders[|orders| - 1].confirmed) || IdUnused(orders, newId) ==> Valid()
      ensures tableName !in old(tables) ==> Valid()
    {
      if tableName !in tables {
        return;
      }
      var orders := tables[tableName].orders;
      if (orders != [] && orders[|orders| - 1].confirmed) || IdUnused(orders, newId) {
        AddedByAdminValid(orders, CartItem(item, 1, ItemKey(item)), newId);
      }
      tables := tables[tableName := TableCart(AddedByAdmin(orders, CartItem(item, 1, ItemKey(item)), newId))];
    }

    /** `removeItemByAdmin`: the key is deleted from every batch of the table, one batch at a time. */
    method RemoveItemByAdmin(tableName: string, key: string)
      requires Valid()
      modifies this
      ensures Valid()
      ensures tableName !in old(tables) ==> tables == old(tables)
      ensures tableName in old(tables) ==>
                tables == old(tables)[tableName := TableCart(DeletedEverywhere(old(tables)[tableName].orders, key))]
    {
      if tableName !in tables {
        return;
      }
      var orders := tables[tableName].orders;
      ghost var before := orders;
      DeletedEverywhereFacts(before, key);
      for k := 0 to |orders|
        invariant |orders| == |before|
        invariant forall j :: 0 <= j < k ==> orders[j] == before[j].(items := Delete(before[j].items, key))
        invariant forall j :: k <= j < |orders| ==> orders[j] == before[j]
      {
        orders := orders[k := orders[k].(items := Delete(orders[k].items, key))];
      }
      assert orders == DeletedEverywhere(before, key);
      tables := tables[tableName := TableCart(orders)];
    }

    /** `clearTable`: only that table's entry disappears. */
    method ClearTable(tableName: string)
      requires Valid()
      modifies this
      ensures Valid()
      ensures tables == old(tables) - {tableName}
    {
      tables := tables - {tableName};
    }

    /** `resetAllOrders`: every table's entry disappears. */
    method ResetAllOrders()
      modifies this
      ensures Valid() && tables == map[]
    {
      tables := map[];
    }
  }
}
