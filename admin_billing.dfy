/**
 * The cashier page (frontend/src/pages/AdminBilling.jsx): the PENDING bills,
 * one card per table with the lines of its bills merged, and "print & pay",
 * which marks every bill of the card paid and then removes the card and
 * clears the table's cart.
 */
module AdminBilling {
  import opened Base
  import opened Grouping
  import opened BillModel
  import Cart
  import Billing

  predicate IsPending(b: Bill) {
    b.status == Pending
  }

  /** `filter((b) => b.status === "PENDING")`. */
  function PendingBills(bills: seq<Bill>): (r: seq<Bill>)
    ensures forall b :: b in r <==> b in bills && b.status == Pending
    ensures forall b :: multiset(r)[b] == if IsPending(b) then multiset(bills)[b] else 0
  {
    Filter(bills, IsPending)
  }

  /** `bill.tableName || "Unknown Table"`. */
  function GroupName(b: Bill): (r: string)
    ensures r != ""
    ensures b.tableName != "" ==> r == b.tableName
    ensures b.tableName == "" ==> r == "Unknown Table"
  {
    if b.tableName == "" then "Unknown Table" else b.tableName
  }

  /** The lines of the bills, bill by bill, in order. */
  function Lines(bills: seq<Bill>): seq<BillItem> {
    if bills == [] then [] else Lines(bills[..|bills| - 1]) + bills[|bills| - 1].items
  }

  // ---------------------------------------------------------------------
  // Merging lines
  // ---------------------------------------------------------------------

  /**
   * What identifies a merged line: the name alone as the page has it
   * (`byPrice` false), or the name together with the unit price.
   */
  function Key(x: BillItem, byPrice: bool): (string, real) {
    (x.name, if byPrice then x.price else 0.0)
  }

  function Find(m: seq<BillItem>, k: (string, real), byPrice: bool): (r: Option<nat>)
    ensures r.Some? ==> r.value < |m| && Key(m[r.value], byPrice) == k
    ensures r.None? ==> forall j :: 0 <= j < |m| ==> Key(m[j], byPrice) != k
  {
    FirstIndex(m, (x: BillItem) => Key(x, byPrice) == k)
  }

  /** One step of the merge map's `forEach`: add to the line of the same key, or append a new line. */
  function Step(m: seq<BillItem>, x: BillItem, byPrice: bool): (r: seq<BillItem>)
    ensures Find(m, Key(x, byPrice), byPrice).Some? ==>
              var j := Find(m, Key(x, byPrice), byPrice).value;
              r == m[j := m[j].(quantity := m[j].quantity + x.quantity)]
    ensures Find(m, Key(x, byPrice), byPrice).None? ==> r == m + [x]
  {
    match Find(m, Key(x, byPrice), byPrice)
    case Some(j) => m[j := m[j].(quantity := m[j].quantity + x.quantity)]
    case None => m + [x]
  }

  /** The merge map's `forEach` over all lines: the first line of a key is kept and later quantities are added to it. */
  function Merge(lines: seq<BillItem>, byPrice: bool): seq<BillItem> {
    if lines == [] then [] else Step(Merge(lines[..|lines| - 1], byPrice), lines[|lines| - 1], byPrice)
  }

  /** The quantity ordered under key `k`. */
  function QtyOf(lines: seq<BillItem>, byPrice: bool, k: (string, real)): int {
    if lines == [] then 0
    else QtyOf(lines[..|lines| - 1], byPrice, k) + (if Key(lines[|lines| - 1], byPrice) == k then lines[|lines| - 1].quantity else 0)
  }

  lemma {:induction false} QtyOfAbsent(lines: seq<BillItem>, byPrice: bool, k: (string, real))
    requires forall i :: 0 <= i < |lines| ==> Key(lines[i], byPrice) != k
    ensures QtyOf(lines, byPrice, k) == 0
  {
    if lines != [] {
      QtyOfAbsent(lines[..|lines| - 1], byPrice, k);
    }
  }

  /** A step keeps the existing lines' keys, names and prices. */
  lemma StepKeeps(m: seq<BillItem>, x: BillItem, byPrice: bool)
    ensures |m| <= |Step(m, x, byPrice)| <= |m| + 1
    ensures forall j :: 0 <= j < |m| ==>
              Step(m, x, byPrice)[j].name == m[j].name && Step(m, x, byPrice)[j].price == m[j].price
    ensures exists j :: 0 <= j < |Step(m, x, byPrice)| && Key(Step(m, x, byPrice)[j], byPrice) == Key(x, byPrice)
    ensures |Step(m, x, byPrice)| == |m| + 1 ==> Step(m, x, byPrice)[|m|] == x
  {
    var r := Step(m, x, byPrice);
    if Find(m, Key(x, byPrice), byPrice).None? {
      assert r[|m|] == x;
    }
  }

  /** No two merged lines share a key. */
  ghost predicate DistinctKeys(m: seq<BillItem>, byPrice: bool) {
    forall i, j :: 0 <= i < j < |m| ==> Key(m[i], byPrice) != Key(m[j], byPrice)
  }

  /** Every line's key has a line in `m`. */
  ghost predicate Covers(m: seq<BillItem>, lines: seq<BillItem>, byPrice: bool) {
    forall i :: 0 <= i < |lines| ==> exists j :: 0 <= j < |m| && Key(m[j], byPrice) == Key(lines[i], byPrice)
  }

  /** Every line of `m` has the name and price of a line of `lines`. */
  ghost predicate FromLines(m: seq<BillItem>, lines: seq<BillItem>) {
    forall j :: 0 <= j < |m| ==> exists i :: 0 <= i < |lines| && lines[i].name == m[j].name && lines[i].price == m[j].price
  }

  /** A step adds to the line of its key or appends a line of a new key, so keys stay distinct. */
  lemma StepDistinct(m: seq<BillItem>, x: BillItem, byPrice: bool)
    requires DistinctKeys(m, byPrice)
    ensures DistinctKeys(Step(m, x, byPrice), byPrice)
  {
    var r := Step(m, x, byPrice);
    match Find(m, Key(x, byPrice), byPrice)
    case Some(_) =>
      forall i, j | 0 <= i < j < |r| ensures Key(r[i], byPrice) != Key(r[j], byPrice) {
        assert Key(r[i], byPrice) == Key(m[i], byPrice) && Key(r[j], byPrice) == Key(m[j], byPrice);
      }
    case None =>
      forall i, j | 0 <= i < j < |r| ensures Key(r[i], byPrice) != Key(r[j], byPrice) {
        assert r[i] == m[i];
        if j < |m| {
          assert r[j] == m[j];
        } else {
          assert r[j] == x;
        }
      }
  }

  /** The merged lines have distinct keys, and every line's key has a merged line. */
  lemma {:induction false} MergeKeys(lines: seq<BillItem>, byPrice: bool)
    ensures DistinctKeys(Merge(lines, byPrice), byPrice)
    ensures Covers(Merge(lines, byPrice), lines, byPrice)
  {
    if lines != [] {
      var init, x := lines[..|lines| - 1], lines[|lines| - 1];
      var m := Merge(init, byPrice);
      MergeKeys(init, byPrice);
      StepKeeps(m, x, byPrice);
      StepDistinct(m, x, byPrice);
      var r := Merge(lines, byPrice);
      assert forall j :: 0 <= j < |m| ==> Key(r[j], byPrice) == Key(m[j], byPrice);
      forall i | 0 <= i < |lines| ensures exists j :: 0 <= j < |r| && Key(r[j], byPrice) == Key(lines[i], byPrice) {
        if i < |init| {
          assert lines[i] == init[i];
          var j :| 0 <= j < |m| && Key(m[j], byPrice) == Key(init[i], byPrice);
          assert Key(r[j], byPrice) == Key(lines[i], byPrice);
        }
      }
    }
  }

  /** Each merged line has the name and price of some line. */
  lemma {:induction false} MergeFromLines(lines: seq<BillItem>, byPrice: bool)
    ensures FromLines(Merge(lines, byPrice), lines)
  {
    if lines != [] {
      var init, x := lines[..|lines| - 1], lines[|lines| - 1];
      var m := Merge(init, byPrice);
      MergeFromLines(init, byPrice);
      StepKeeps(m, x, byPrice);
      var r := Merge(lines, byPrice);
      forall j | 0 <= j < |r| ensures exists i :: 0 <= i < |lines| && lines[i].name == r[j].name && lines[i].price == r[j].price {
        if j < |m| {
          assert r[j].name == m[j].name && r[j].price == m[j].price;
          var i :| 0 <= i < |init| && init[i].name == m[j].name && init[i].price == m[j].price;
          assert lines[i] == init[i];
        } else {
          assert lines[|lines| - 1] == r[j];
        }
      }
    }
  }

  /** Each merged line carries the whole quantity ordered under its key. */
  lemma {:induction false} MergeQuantities(lines: seq<BillItem>, byPrice: bool)
    ensures forall j :: 0 <= j < |Merge(lines, byPrice)| ==>
              Merge(lines, byPrice)[j].quantity == QtyOf(lines, byPrice, Key(Merge(lines, byPrice)[j], byPrice))
  {
    if lines != [] {
      var init, x := lines[..|lines| - 1], lines[|lines| - 1];
      var m := Merge(init, byPrice);
      MergeQuantities(init, byPrice);
      MergeKeys(init, byPrice);
      var r := Merge(lines, byPrice);
      var kx := Key(x, byPrice);
      var found := Find(m, kx, byPrice);
      if found.Some? {
        forall j | 0 <= j < |r| ensures r[j].quantity == QtyOf(lines, byPrice, Key(r[j], byPrice)) {
          assert Key(r[j], byPrice) == Key(m[j], byPrice);
        }
      } else {
        forall i | 0 <= i < |init| ensures Key(init[i], byPrice) != kx {
          var j :| 0 <= j < |m| && Key(m[j], byPrice) == Key(init[i], byPrice);
        }
        QtyOfAbsent(init, byPrice, kx);
        forall j | 0 <= j < |r| ensures r[j].quantity == QtyOf(lines, byPrice, Key(r[j], byPrice)) {
          if j < |m| {
            assert r[j] == m[j];
          }
        }
      }
    }
  }

  function LineAmount(x: BillItem): real {
    x.price * (x.quantity as real)
  }

  /** Price times quantity, summed. */
  function Amount(xs: seq<BillItem>): real {
    Total(xs, LineAmount)
  }

  /** Every line of a key has the same unit price. */
  ghost predicate OnePricePerKey(lines: seq<BillItem>, byPrice: bool) {
    forall i, j :: 0 <= i < |lines| && 0 <= j < |lines| && Key(lines[i], byPrice) == Key(lines[j], byPrice) ==>
      lines[i].price == lines[j].price
  }

  /** Adding a line's quantity to a line of the same price adds that line's amount. */
  lemma AddLine(y: BillItem, x: BillItem)
    requires y.price == x.price
    ensures LineAmount(y.(quantity := y.quantity + x.quantity)) == LineAmount(y) + LineAmount(x)
  {
    var p, q, e := y.price, y.quantity as real, x.quantity as real;
    assert p * (q + e) == p * q + p * e;
  }

  /** Under one price per key, the line a step adds to has the new line's price. */
  lemma StepPrice(lines: seq<BillItem>, byPrice: bool, j: nat)
    requires lines != [] && OnePricePerKey(lines, byPrice)
    requires j < |Merge(lines[..|lines| - 1], byPrice)|
    requires Key(Merge(lines[..|lines| - 1], byPrice)[j], byPrice) == Key(lines[|lines| - 1], byPrice)
    ensures Merge(lines[..|lines| - 1], byPrice)[j].price == lines[|lines| - 1].price
  {
    var init := lines[..|lines| - 1];
    var m := Merge(init, byPrice);
    MergeFromLines(init, byPrice);
    var i :| 0 <= i < |init| && init[i].name == m[j].name && init[i].price == m[j].price;
    assert lines[i] == init[i];
    assert Key(lines[i], byPrice) == Key(lines[|lines| - 1], byPrice);
  }

  lemma OnePricePerKeyInit(lines: seq<BillItem>, byPrice: bool)
    requires lines != [] && OnePricePerKey(lines, byPrice)
    ensures OnePricePerKey(lines[..|lines| - 1], byPrice)
  {
    var init := lines[..|lines| - 1];
    forall i, j | 0 <= i < |init| && 0 <= j < |init| && Key(init[i], byPrice) == Key(init[j], byPrice)
      ensures init[i].price == init[j].price
    {
      assert lines[i] == init[i] && lines[j] == init[j];
    }
  }

  /** Under one price per key, each step of the merge adds exactly the new line's amount. */
  lemma StepAmount(lines: seq<BillItem>, byPrice: bool)
    requires lines != [] && OnePricePerKey(lines, byPrice)
    ensures Amount(Merge(lines, byPrice)) == Amount(Merge(lines[..|lines| - 1], byPrice)) + LineAmount(lines[|lines| - 1])
  {
    var init, x := lines[..|lines| - 1], lines[|lines| - 1];
    var m := Merge(init, byPrice);
    var found := Find(m, Key(x, byPrice), byPrice);
    if found.Some? {
      var j := found.value;
      StepPrice(lines, byPrice, j);
      var added := m[j].(quantity := m[j].quantity + x.quantity);
      assert Merge(lines, byPrice) == m[j := added];
      TotalUpdate(m, j, added, LineAmount);
      AddLine(m[j], x);
    } else {
      assert Merge(lines, byPrice) == m + [x];
      assert (m + [x])[..|m|] == m;
    }
  }

  /** When each key has one price, merging keeps the amount. */
  lemma {:induction false} MergeKeepsAmount(lines: seq<BillItem>, byPrice: bool)
    requires OnePricePerKey(lines, byPrice)
    ensures Amount(Merge(lines, byPrice)) == Amount(lines)
  {
    if lines != [] {
      var init, x := lines[..|lines| - 1], lines[|lines| - 1];
      OnePricePerKeyInit(lines, byPrice);
      MergeKeepsAmount(init, byPrice);
      StepAmount(lines, byPrice);
      assert Amount(lines) == Amount(init) + LineAmount(x);
    }
  }

  /** Keyed by name and price, as intended, the merged card always totals the bills' lines. */
  lemma MergeByPriceKeepsAmount(lines: seq<BillItem>)
    ensures Amount(Merge(lines, true)) == Amount(lines)
  {
    MergeKeepsAmount(lines, true);
  }

  /** Keyed by name only, as written, two sizes of one dish collapse onto the first size's price. */
  lemma MergeByNameLosesSizePrice()
    ensures var lines := [BillItem("Coffee", 100.0, 1), BillItem("Coffee", 150.0, 1)];
            Merge(lines, false) == [BillItem("Coffee", 100.0, 2)] &&
            Amount(Merge(lines, false)) == 200.0 && Amount(lines) == 250.0
  {
    var small, large := BillItem("Coffee", 100.0, 1), BillItem("Coffee", 150.0, 1);
    var lines := [small, large];
    assert lines[..1] == [small];
    assert [small][..0] == [];
    assert Merge([small], false) == Step([], small, false);
    assert Step([], small, false) == [small];
    assert Find([small], Key(large, false), false) == Some(0);
    assert Merge(lines, false) == Step([small], large, false);
    assert Step([small], large, false) == [BillItem("Coffee", 100.0, 2)];
    assert [BillItem("Coffee", 100.0, 2)][..0] == [];
  }

  /**
   * The merge loop over the card's lines: a map from the item name to the
   * merged line, filled in order, so the first line of a name keeps its
   * price and later lines of that name add their quantity to it.
   */
  method MergeItems(lines: seq<BillItem>) returns (merged: seq<BillItem>)
    ensures merged == Merge(lines, false)
    ensures DistinctKeys(merged, false) && Covers(merged, lines, false)
    ensures forall j :: 0 <= j < |merged| ==> merged[j].quantity == QtyOf(lines, false, Key(merged[j], false))
    ensures OnePricePerKey(lines, false) ==> Amount(merged) == Amount(lines)
  {
    merged := [];
    for i := 0 to |lines|
      invariant merged == Merge(lines[..i], false)
    {
      var x := lines[i];
      assert lines[..i + 1][..i] == lines[..i];
      var found := Find(merged, Key(x, false), false);
      if found.Some? {
        var j := found.value;
        merged := merged[j := merged[j].(quantity := merged[j].quantity + x.quantity)];
      } else {
        merged := merged + [x];
      }
      assert merged == Step(Merge(lines[..i], false), x, false);
    }
    assert lines[..|lines|] == lines;
    MergeKeys(lines, false);
    MergeQuantities(lines, false);
    if OnePricePerKey(lines, false) {
      MergeKeepsAmount(lines, false);
    }
  }

  // ---------------------------------------------------------------------
  // Cards
  // ---------------------------------------------------------------------

  datatype BillGroup = BillGroup(tableName: string, bills: seq<Bill>, items: seq<BillItem>, totalAmount: real)

  /** The card of one table as the page builds it: its bills in order, their lines merged by name, and the merged amount. */
  function CardOf(bills: seq<Bill>, name: string): BillGroup {
    var mine := Where(bills, GroupName, name);
    BillGroup(name, mine, Merge(Lines(mine), false), Amount(Merge(Lines(mine), false)))
  }

  /**
   * A card holds exactly its table's bills and one line per item name,
   * carrying everything ordered under that name; its total equals the
   * bills' lines only when each name is sold at one price.
   */
  lemma CardFacts(bills: seq<Bill>, name: string)
    ensures forall b :: b in CardOf(bills, name).bills <==> b in bills && GroupName(b) == name
    ensures DistinctKeys(CardOf(bills, name).items, false)
    ensures Covers(CardOf(bills, name).items, Lines(CardOf(bills, name).bills), false)
    ensures forall j :: 0 <= j < |CardOf(bills, name).items| ==>
              CardOf(bills, name).items[j].quantity ==
              QtyOf(Lines(CardOf(bills, name).bills), false, Key(CardOf(bills, name).items[j], false))
    ensures OnePricePerKey(Lines(CardOf(bills, name).bills), false) ==>
              CardOf(bills, name).totalAmount == Amount(Lines(CardOf(bills, name).bills))
  {
    var lines := Lines(Where(bills, GroupName, name));
    WhereMembers(bills, GroupName, name);
    MergeKeys(lines, false);
    MergeQuantities(lines, false);
    if OnePricePerKey(lines, false) {
      MergeKeepsAmount(lines, false);
    }
  }

  /** As written, a table's one bill with a 100 and a 150 "Coffee" gets a card totalling 200, not 250. */
  lemma CardLosesSizePrice(b: Bill)
    requires b.tableName == "T1" && b.items == [BillItem("Coffee", 100.0, 1), BillItem("Coffee", 150.0, 1)]
    ensures CardOf([b], "T1").bills == [b]
    ensures CardOf([b], "T1").items == [BillItem("Coffee", 100.0, 2)]
    ensures CardOf([b], "T1").totalAmount == 200.0 && Amount(Lines(CardOf([b], "T1").bills)) == 250.0
  {
    assert [b][..0] == [];
    assert Where([b], GroupName, "T1") == [b];
    assert Lines([b]) == b.items;
    MergeByNameLosesSizePrice();
  }

  /** The intended card: the same bills, their lines merged by name and unit price. */
  function CardOfByPrice(bills: seq<Bill>, name: string): BillGroup {
    var mine := Where(bills, GroupName, name);
    BillGroup(name, mine, Merge(Lines(mine), true), Amount(Merge(Lines(mine), true)))
  }

  /** The intended card holds exactly its table's bills and always totals their lines. */
  lemma CardByPriceFacts(bills: seq<Bill>, name: string)
    ensures forall b :: b in CardOfByPrice(bills, name).bills <==> b in bills && GroupName(b) == name
    ensures DistinctKeys(CardOfByPrice(bills, name).items, true)
    ensures CardOfByPrice(bills, name).totalAmount == Amount(Lines(CardOfByPrice(bills, name).bills))
  {
    var lines := Lines(Where(bills, GroupName, name));
    WhereMembers(bills, GroupName, name);
    MergeKeys(lines, true);
    MergeByPriceKeepsAmount(lines);
  }

  /** Every bill is on exactly one card: the cards' sizes add up to the number of bills. */
  lemma CardsPartition(bills: seq<Bill>)
    ensures CountOver(bills, GroupName, GroupKeys(bills, GroupName)) == |bills|
  {
    GroupsPartition(bills, GroupName);
  }

  /** One card from a table's bills: their lines merged by the page's loop, and the merged amount. */
  method BuildCard(mine: seq<Bill>, name: string) returns (card: BillGroup)
    ensures card == BillGroup(name, mine, Merge(Lines(mine), false), Amount(Merge(Lines(mine), false)))
  {
    var items := MergeItems(Lines(mine));
    card := BillGroup(name, mine, items, Amount(items));
  }

  /** `groupedBills`: one card per table, in order of the table's first bill. */
  method GroupedBills(bills: seq<Bill>) returns (groups: seq<BillGroup>)
    ensures |groups| == |GroupKeys(bills, GroupName)|
    ensures forall g :: 0 <= g < |groups| ==> groups[g] == CardOf(bills, GroupKeys(bills, GroupName)[g])
  {
    var keys, lists := GroupLists(bills, GroupName);
    groups := [];
    for g := 0 to |keys|
      invariant |groups| == g
      invariant forall h :: 0 <= h < g ==> groups[h] == CardOf(bills, keys[h])
    {
      var card := BuildCard(lists[keys[g]], keys[g]);
      assert card == CardOf(bills, keys[g]);
      ghost var prev := groups;
      groups := groups + [card];
      forall h | 0 <= h < g + 1 ensures groups[h] == CardOf(bills, keys[h]) {
        if h < g { assert groups[h] == prev[h]; }
      }
    }
  }

  // ---------------------------------------------------------------------
  // Print & pay
  // ---------------------------------------------------------------------

  function Ids(bills: seq<Bill>): (r: seq<nat>)
    ensures |r| == |bills|
    ensures forall k :: 0 <= k < |bills| ==> r[k] == bills[k].id
  {
    if bills == [] then [] else Ids(bills[..|bills| - 1]) + [bills[|bills| - 1].id]
  }

  /** One `markPaid` request: the first bill with that id becomes PAID. */
  function PayOne(bills: seq<Bill>, id: nat): (r: seq<Bill>)
    ensures |r| == |bills|
  {
    match Billing.FindBill(bills, id)
    case Some(i) => bills[i := bills[i].(status := Paid)]
    case None => bills
  }

  /** The ledger after one `markPaid` request per id. */
  function PayAll(bills: seq<Bill>, ids: seq<nat>): (r: seq<Bill>)
    ensures |r| == |bills|
  {
    if ids == [] then bills else PayOne(PayAll(bills, ids[..|ids| - 1]), ids[|ids| - 1])
  }

  ghost predicate DistinctBillIds(bills: seq<Bill>) {
    forall i, j :: 0 <= i < j < |bills| ==> bills[i].id != bills[j].id
  }

  /** Paying changes statuses only. */
  lemma {:induction false} PayAllKeepsIds(bills: seq<Bill>, ids: seq<nat>)
    ensures |PayAll(bills, ids)| == |bills|
    ensures forall k :: 0 <= k < |bills| ==> PayAll(bills, ids)[k].(status := bills[k].status) == bills[k]
  {
    if ids != [] {
      PayAllKeepsIds(bills, ids[..|ids| - 1]);
    }
  }

  /** With distinct bill ids, exactly the bills whose ids were sent are PAID afterwards; the rest keep their status. */
  lemma {:induction false} PayAllMarksExactly(bills: seq<Bill>, ids: seq<nat>)
    requires DistinctBillIds(bills)
    ensures forall k :: 0 <= k < |bills| ==>
              PayAll(bills, ids)[k] == if bills[k].id in ids then bills[k].(status := Paid) else bills[k]
  {
    PayAllKeepsIds(bills, ids);
    if ids != [] {
      var init, id := ids[..|ids| - 1], ids[|ids| - 1];
      PayAllMarksExactly(bills, init);
      PayAllKeepsIds(bills, init);
      var before := PayAll(bills, init);
      forall k | 0 <= k < |bills|
        ensures PayAll(bills, ids)[k] == if bills[k].id in ids then bills[k].(status := Paid) else bills[k]
      {
        assert bills[k].id in ids <==> bills[k].id in init || bills[k].id == id by {
          assert ids == init + [id];
        }
        match Billing.FindBill(before, id)
        case Some(i) =>
          assert before[i].id == bills[i].id;
          if k != i {
            assert bills[k].id != bills[i].id by {
              if k < i { assert 0 <= k < i < |bills|; } else { assert 0 <= i < k < |bills|; }
            }
          }
        case None =>
          assert before[k].id == bills[k].id;
      }
    }
  }

  /** The cards still shown: every bill of another table. */
  function OtherTables(shown: seq<Bill>, tableName: string): (r: seq<Bill>)
    ensures forall b :: b in r <==> b in shown && b.tableName != tableName
    ensures |r| <= |shown|
  {
    Filter(shown, (b: Bill) => b.tableName != tableName)
  }

  /** Every id names a bill of the ledger. */
  ghost predicate AllKnown(bills: seq<Bill>, ids: seq<nat>) {
    forall j :: 0 <= j < |ids| ==> exists k :: 0 <= k < |bills| && bills[k].id == ids[j]
  }

  lemma AllKnownStep(bills: seq<Bill>, ids: seq<nat>, i: nat)
    requires i < |ids|
    ensures AllKnown(bills, ids[..i + 1]) <==> AllKnown(bills, ids[..i]) && exists k :: 0 <= k < |bills| && bills[k].id == ids[i]
  {
    assert forall j :: 0 <= j < i ==> ids[..i + 1][j] == ids[..i][j];
    assert ids[..i + 1][i] == ids[i];
  }

  lemma PayAllStep(bills: seq<Bill>, ids: seq<nat>, i: nat)
    requires i < |ids|
    ensures PayAll(bills, ids[..i + 1]) == PayOne(PayAll(bills, ids[..i]), ids[i])
  {
    assert ids[..i + 1][..i] == ids[..i];
  }

  /** A bill id is found after paying exactly when it was there before. */
  lemma FindAfterPay(bills: seq<Bill>, ids: seq<nat>, id: nat)
    ensures Billing.FindBill(PayAll(bills, ids), id).None? <==> forall k :: 0 <= k < |bills| ==> bills[k].id != id
  {
    PayAllKeepsIds(bills, ids);
    var after := PayAll(bills, ids);
    assert forall k :: 0 <= k < |bills| ==> after[k].id == bills[k].id;
  }

  /**
   * `handlePrintAndPay` after printing: one `markPaid` request per bill of
   * the card, all of them sent. When every one succeeds the table's bills
   * leave the page and the table's cart is cleared; when any fails the page
   * and the cart stay as they were, while the requests that did succeed
   * have still marked their bills paid.
   */
  method HandlePrintAndPay(ledger: Billing.BillLedger, cart: Cart.CartState, shown: seq<Bill>, group: BillGroup)
    returns (remaining: seq<Bill>, ok: bool)
    requires ledger.Valid() && cart.Valid()
    modifies ledger, cart
    ensures ledger.Valid() && cart.Valid()
    ensures ledger.bills == PayAll(old(ledger.bills), Ids(group.bills))
    ensures ok <==> AllKnown(old(ledger.bills), Ids(group.bills))
    ensures ok ==> remaining == OtherTables(shown, group.tableName) && cart.tables == old(cart.tables) - {group.tableName}
    ensures !ok ==> remaining == shown && cart.tables == old(cart.tables)
  {
    var ids := Ids(group.bills);
    ghost var start := ledger.bills;
    ok := true;
    for i := 0 to |ids|
      invariant ledger.Valid()
      invariant ledger.bills == PayAll(start, ids[..i])
      invariant ok <==> AllKnown(start, ids[..i])
      invariant cart.tables == old(cart.tables)
    {
      PayAllStep(start, ids, i);
      FindAfterPay(start, ids[..i], ids[i]);
      AllKnownStep(start, ids, i);
      var r := ledger.MarkBillPaid(ids[i]);
      if r.Err? {
        ok := false;
      }
    }
    assert ids[..|ids|] == ids;
    if ok {
      remaining := OtherTables(shown, group.tableName);
      cart.ClearTable(group.tableName);
    } else {
      remaining := shown;
    }
  }
}
