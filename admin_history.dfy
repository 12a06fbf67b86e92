/**
 * The history dashboard (frontend/src/pages/AdminHistory.jsx): the figures
 * recomputed on the page from the listed bills — revenue, bill count,
 * average bill, the five best-selling items, and revenue per UTC day.
 */
module AdminHistory {
  import opened Base
  import opened Sorting
  import opened Grouping
  import opened BillModel
  import opened History

  /** One row of the best-sellers table. */
  datatype TopItem = TopItem(itemName: string, quantitySold: real, revenue: real)

  datatype PageSummary = PageSummary(totalRevenue: real, totalOrders: nat, avgOrderValue: real, topItems: seq<TopItem>)

  /** `(Number(item.quantity) || 0) * (Number(item.price) || 0)`. */
  function LineRevenue(it: BillItem): real {
    (it.quantity as real) * it.price
  }

  /** `Object.entries(itemStats)`: each item name with its summed quantity and revenue, in order of first appearance. */
  function ItemRows(lines: seq<BillItem>): (r: seq<TopItem>)
    ensures |r| == |GroupKeys(lines, LineName)|
    ensures forall i :: 0 <= i < |r| ==>
              r[i].itemName == GroupKeys(lines, LineName)[i] &&
              r[i].quantitySold == SumWhere(lines, LineName, LineQty, r[i].itemName) &&
              r[i].revenue == SumWhere(lines, LineName, LineRevenue, r[i].itemName)
  {
    var names := GroupKeys(lines, LineName);
    seq(|names|, i requires 0 <= i < |names| =>
      TopItem(names[i], SumWhere(lines, LineName, LineQty, names[i]), SumWhere(lines, LineName, LineRevenue, names[i])))
  }

  function NegSold(t: TopItem): real {
    -t.quantitySold
  }

  /** `.sort((a, b) => b.quantitySold - a.quantitySold).slice(0, 5)`. */
  function TopItems(lines: seq<BillItem>): seq<TopItem> {
    var sorted := SortByKey(ItemRows(lines), NegSold);
    SortByKeyLength(ItemRows(lines), NegSold);
    sorted[..if |sorted| < 5 then |sorted| else 5]
  }

  /** The rows of the best-sellers table are one per item name. */
  lemma ItemRowsDistinct(lines: seq<BillItem>)
    ensures Distinct(ItemRows(lines))
  {
    GroupKeysFacts(lines, LineName);
  }

  /** Every best seller is a row of the item statistics. */
  lemma TopFromRows(lines: seq<BillItem>)
    ensures forall i :: 0 <= i < |TopItems(lines)| ==>
              exists p :: 0 <= p < |ItemRows(lines)| && ItemRows(lines)[p] == TopItems(lines)[i]
  {
    var rows := ItemRows(lines);
    var sorted := SortByKey(rows, NegSold);
    SortByKeyLength(rows, NegSold);
    forall i | 0 <= i < |TopItems(lines)| ensures exists p :: 0 <= p < |rows| && rows[p] == TopItems(lines)[i] {
      assert TopItems(lines)[i] == sorted[i];
      assert sorted[i] in multiset(rows);
    }
  }

  /** The best sellers run from the largest quantity down and name no item twice. */
  lemma TopOrdered(lines: seq<BillItem>)
    ensures forall i, j :: 0 <= i < j < |TopItems(lines)| ==>
              TopItems(lines)[i].quantitySold >= TopItems(lines)[j].quantitySold &&
              TopItems(lines)[i] != TopItems(lines)[j]
  {
    var rows := ItemRows(lines);
    var sorted := SortByKey(rows, NegSold);
    SortByKeyLength(rows, NegSold);
    ItemRowsDistinct(lines);
    DistinctPermutation(rows, sorted);
    var top := TopItems(lines);
    forall i, j | 0 <= i < j < |top| ensures top[i].quantitySold >= top[j].quantitySold && top[i] != top[j] {
      assert top[i] == sorted[i] && top[j] == sorted[j];
      assert NegSold(sorted[i]) <= NegSold(sorted[j]);
    }
  }

  /** A row of the item statistics that did not make the cut sold no more than any best seller. */
  lemma TopExcluded(lines: seq<BillItem>, x: TopItem)
    requires x in ItemRows(lines) && x !in TopItems(lines)
    ensures forall i :: 0 <= i < |TopItems(lines)| ==> x.quantitySold <= TopItems(lines)[i].quantitySold
  {
    var rows := ItemRows(lines);
    var sorted := SortByKey(rows, NegSold);
    SortByKeyLength(rows, NegSold);
    var top := TopItems(lines);
    assert x in multiset(sorted);
    var q :| 0 <= q < |sorted| && sorted[q] == x;
    assert top == sorted[..|top|];
    assert q >= |top|;
    forall i | 0 <= i < |top| ensures x.quantitySold <= top[i].quantitySold {
      assert top[i] == sorted[i];
      assert NegSold(sorted[i]) <= NegSold(sorted[q]);
    }
  }

  /**
   * The best sellers are at most five distinct item names of the listed
   * bills, each with its summed quantity and revenue, by quantity from the
   * largest; every item name left out sold no more than any listed one.
   */
  lemma TopItemsAreBest(lines: seq<BillItem>)
    ensures var n := |GroupKeys(lines, LineName)|;
            |TopItems(lines)| == if n < 5 then n else 5
    ensures forall i :: 0 <= i < |TopItems(lines)| ==>
              TopItems(lines)[i].itemName in GroupKeys(lines, LineName) &&
              TopItems(lines)[i].quantitySold == SumWhere(lines, LineName, LineQty, TopItems(lines)[i].itemName) &&
              TopItems(lines)[i].revenue == SumWhere(lines, LineName, LineRevenue, TopItems(lines)[i].itemName)
    ensures forall i, j :: 0 <= i < j < |TopItems(lines)| ==>
              TopItems(lines)[i].quantitySold >= TopItems(lines)[j].quantitySold &&
              TopItems(lines)[i].itemName != TopItems(lines)[j].itemName
    ensures forall name, i :: name in GroupKeys(lines, LineName) && 0 <= i < |TopItems(lines)| &&
                              (forall k :: 0 <= k < |TopItems(lines)| ==> TopItems(lines)[k].itemName != name) ==>
              SumWhere(lines, LineName, LineQty, name) <= TopItems(lines)[i].quantitySold
  {
    SortByKeyLength(ItemRows(lines), NegSold);
    TopNamed(lines);
    TopOrdered(lines);
    TopNamesDistinct(lines);
    TopLeftOut(lines);
  }

  /** Every best seller is a listed item name with its own sums. */
  lemma TopNamed(lines: seq<BillItem>)
    ensures forall i :: 0 <= i < |TopItems(lines)| ==>
              TopItems(lines)[i].itemName in GroupKeys(lines, LineName) &&
              TopItems(lines)[i].quantitySold == SumWhere(lines, LineName, LineQty, TopItems(lines)[i].itemName) &&
              TopItems(lines)[i].revenue == SumWhere(lines, LineName, LineRevenue, TopItems(lines)[i].itemName)
  {
    var rows := ItemRows(lines);
    var top := TopItems(lines);
    TopFromRows(lines);
    forall i | 0 <= i < |top|
      ensures top[i].itemName in GroupKeys(lines, LineName) &&
              top[i].quantitySold == SumWhere(lines, LineName, LineQty, top[i].itemName) &&
              top[i].revenue == SumWhere(lines, LineName, LineRevenue, top[i].itemName)
    {
      var p :| 0 <= p < |rows| && rows[p] == top[i];
    }
  }

  /** No item name is among the best sellers twice. */
  lemma TopNamesDistinct(lines: seq<BillItem>)
    ensures forall i, j :: 0 <= i < j < |TopItems(lines)| ==> TopItems(lines)[i].itemName != TopItems(lines)[j].itemName
  {
    var rows := ItemRows(lines);
    var names := GroupKeys(lines, LineName);
    var top := TopItems(lines);
    GroupKeysFacts(lines, LineName);
    TopFromRows(lines);
    TopOrdered(lines);
    forall i, j | 0 <= i < j < |top| ensures top[i].itemName != top[j].itemName {
      var p :| 0 <= p < |rows| && rows[p] == top[i];
      var q :| 0 <= q < |rows| && rows[q] == top[j];
      assert names[p] == top[i].itemName && names[q] == top[j].itemName;
    }
  }

  /** An item name left out of the best sellers sold no more than any of them. */
  lemma TopLeftOut(lines: seq<BillItem>)
    ensures forall name, i :: name in GroupKeys(lines, LineName) && 0 <= i < |TopItems(lines)| &&
                              (forall k :: 0 <= k < |TopItems(lines)| ==> TopItems(lines)[k].itemName != name) ==>
              SumWhere(lines, LineName, LineQty, name) <= TopItems(lines)[i].quantitySold
  {
    var rows := ItemRows(lines);
    var names := GroupKeys(lines, LineName);
    var top := TopItems(lines);
    forall name, i | name in names && 0 <= i < |top| && (forall k :: 0 <= k < |top| ==> top[k].itemName != name)
      ensures SumWhere(lines, LineName, LineQty, name) <= top[i].quantitySold
    {
      var p :| 0 <= p < |names| && names[p] == name;
      assert rows[p] !in top;
      TopExcluded(lines, rows[p]);
    }
  }

  function DayKey(d: int): real {
    d as real
  }

  /** The points of the trend chart, from the day sums, earliest day first. */
  function TrendOf(days: seq<int>, sums: map<int, real>): (r: seq<TrendPoint>)
    requires forall i :: 0 <= i < |days| ==> days[i] in sums
    ensures |r| == |days| && forall i :: 0 <= i < |r| ==> r[i] == TrendPoint(days[i], sums[days[i]])
  {
    seq(|days|, i requires 0 <= i < |days| => TrendPoint(days[i], sums[days[i]]))
  }

  /** Distinct days in ascending order of their key are strictly ascending and are the same days. */
  lemma SortedDays(days: seq<int>, ordered: seq<int>)
    requires Distinct(days) && multiset(ordered) == multiset(days) && SortedByKey(ordered, DayKey)
    ensures forall i, j :: 0 <= i < j < |ordered| ==> ordered[i] < ordered[j]
    ensures forall d :: d in ordered <==> d in days
  {
    DistinctPermutation(days, ordered);
    forall d ensures d in ordered <==> d in days {
      assert d in ordered <==> d in multiset(ordered);
      assert d in days <==> d in multiset(days);
    }
    forall i, j | 0 <= i < j < |ordered| ensures ordered[i] < ordered[j] {
      assert DayKey(ordered[i]) <= DayKey(ordered[j]);
    }
  }

  /** The trend built from the day sums in ascending day order has the promised shape. */
  lemma TrendFacts(bills: seq<Bill>, ordered: seq<int>, sums: map<int, real>)
    requires multiset(ordered) == multiset(GroupKeys(bills, BillDay)) && SortedByKey(ordered, DayKey)
    requires forall d :: d in sums <==> d in GroupKeys(bills, BillDay)
    requires forall d :: d in sums ==> sums[d] == SumWhere(bills, BillDay, Amount, d)
    ensures forall i :: 0 <= i < |ordered| ==> ordered[i] in sums
    ensures var trend := TrendOf(ordered, sums);
            (forall i, j :: 0 <= i < j < |trend| ==> trend[i].day < trend[j].day) &&
            (forall b :: b in bills ==> BillDay(b) in TrendDays(trend)) &&
            (forall d :: d in TrendDays(trend) ==> exists b :: b in bills && BillDay(b) == d) &&
            (forall i :: 0 <= i < |trend| ==> trend[i].revenue == SumWhere(bills, BillDay, Amount, trend[i].day))
  {
    var days := GroupKeys(bills, BillDay);
    GroupKeysFacts(bills, BillDay);
    SortedDays(days, ordered);
    var trend := TrendOf(ordered, sums);
    assert TrendDays(trend) == ordered;
    forall d | d in ordered ensures exists b :: b in bills && BillDay(b) == d {
      var i :| 0 <= i < |bills| && BillDay(bills[i]) == d;
    }
  }

  /**
   * The `trendMap` of the page, entries sorted by date: one point per UTC
   * day on which a listed bill was created, earliest first, each with the
   * sum of that day's bill totals.
   */
  method DailyTrend(bills: seq<Bill>) returns (trend: seq<TrendPoint>)
    ensures forall i, j :: 0 <= i < j < |trend| ==> trend[i].day < trend[j].day
    ensures forall b :: b in bills ==> BillDay(b) in TrendDays(trend)
    ensures forall d :: d in TrendDays(trend) ==> exists b :: b in bills && BillDay(b) == d
    ensures forall i :: 0 <= i < |trend| ==> trend[i].revenue == SumWhere(bills, BillDay, Amount, trend[i].day)
  {
    var days, sums := GroupSum(bills, BillDay, Amount);
    var ordered := SortByKey(days, DayKey);
    TrendFacts(bills, ordered, sums);
    trend := TrendOf(ordered, sums);
  }

  /** `totalOrders ? totalRevenue / totalOrders : 0`: the amount that, per bill, makes up the revenue. */
  function Average(total: real, n: nat): (r: real)
    ensures n == 0 ==> r == 0.0
    ensures n > 0 ==> r * (n as real) == total
  {
    if n > 0 then total / (n as real) else 0.0
  }

  /** `totalRevenue += amt` over the listed bills. */
  method Revenue(bills: seq<Bill>) returns (revenue: real)
    ensures revenue == Total(bills, Amount)
  {
    revenue := 0.0;
    for i := 0 to |bills|
      invariant revenue == Total(bills[..i], Amount)
    {
      assert bills[..i + 1][..i] == bills[..i];
      revenue := revenue + Amount(bills[i]);
    }
    assert bills[..|bills|] == bills;
  }

  /** The `itemStats` pass over the bill lines, then the top five rows by quantity. */
  method BestSellers(lines: seq<BillItem>) returns (top: seq<TopItem>)
    ensures top == TopItems(lines)
  {
    var names, qty := GroupSum(lines, LineName, LineQty);
    var _, sold := GroupSum(lines, LineName, LineRevenue);
    var rows := seq(|names|, i requires 0 <= i < |names| => TopItem(names[i], qty[names[i]], sold[names[i]]));
    assert rows == ItemRows(lines);
    var sorted := SortByKey(rows, NegSold);
    SortByKeyLength(rows, NegSold);
    top := sorted[..if |sorted| < 5 then |sorted| else 5];
  }

  /**
   * `recomputeSummaryAndTrend`: revenue and count of the listed bills, the
   * average bill (0 without bills), the best sellers, and one trend point
   * per UTC day on which a listed bill was created, in ascending day order,
   * holding that day's revenue.
   */
  method Recompute(bills: seq<Bill>) returns (summary: PageSummary, trend: seq<TrendPoint>)
    ensures summary.totalOrders == |bills|
    ensures summary.totalRevenue == Total(bills, Amount)
    ensures summary.avgOrderValue == Average(summary.totalRevenue, |bills|)
    ensures summary.topItems == TopItems(Lines(bills))
    ensures forall i, j :: 0 <= i < j < |trend| ==> trend[i].day < trend[j].day
    ensures forall b :: b in bills ==> BillDay(b) in TrendDays(trend)
    ensures forall d :: d in TrendDays(trend) ==> exists b :: b in bills && BillDay(b) == d
    ensures forall i :: 0 <= i < |trend| ==> trend[i].revenue == SumWhere(bills, BillDay, Amount, trend[i].day)
  {
    var revenue := Revenue(bills);
    var count := |bills|;
    var avg := Average(revenue, count);
    var top := BestSellers(Lines(bills));
    summary := PageSummary(revenue, count, avg, top);

    trend := DailyTrend(bills);
  }
}
