/**
 * Billing history (backend/controllers/historyController.js): the filtered
 * bill list, the summary of PAID bills over a date window, and the per-day
 * revenue trend. The clock and the start of a named range (today, week,
 * month, ...) are parameters; a UTC calendar day is identified by its day
 * number since the epoch.
 */
module History {
  import opened Base
  import opened Sorting
  import opened Grouping
  import opened BillModel

  // ---------------------------------------------------------------------
  // Filter construction
  // ---------------------------------------------------------------------

  /** The query string; `from` and `to` are already read as instants. */
  datatype HistoryQuery = HistoryQuery(
    range: Option<string>,
    from: Option<int>,
    to: Option<int>,
    search: Option<string>,
    payment: Option<string>,
    status: Option<string>)

  /** The document-store filter: each present part is one constraint. */
  datatype BillFilter = BillFilter(
    status: Option<string>,
    payment: Option<string>,
    search: Option<string>,
    createdAt: Option<(int, int)>)

  const NamedRanges: set<string> := {"today", "week", "month", "quarter", "half-year", "year"}

  /** What the store does with a filter: every present constraint must hold (bounds inclusive). */
  predicate Matches(f: BillFilter, b: Bill) {
    (f.status.None? || StatusName(b.status) == f.status.value) &&
    (f.payment.None? || MethodName(b.paymentMethod) == f.payment.value) &&
    (f.search.None? ||
       IncludesIgnoreCase(b.invoiceNumber, f.search.value) ||
       IncludesIgnoreCase(b.tableName, f.search.value) ||
       IncludesIgnoreCase(b.customerName, f.search.value)) &&
    (f.createdAt.None? || f.createdAt.value.0 <= b.createdAt <= f.createdAt.value.1)
  }

  /** The date-window part of a query, as the handlers document it. */
  predicate InWindow(range: Option<string>, from: Option<int>, to: Option<int>, start: int, now: int, b: Bill) {
    (range.Some? && range.value in NamedRanges ==> start <= b.createdAt <= now) &&
    (range == Some("custom") && from.Some? && to.Some? ==> from.value <= b.createdAt <= to.value)
  }

  /**
   * The bills the history list should show: "ALL" or a missing status or
   * payment imposes nothing, any other value must match exactly; a search
   * must occur, ignoring case, in the invoice number, table name or
   * customer name; and the date window applies.
   */
  ghost predicate Wanted(q: HistoryQuery, start: int, now: int, b: Bill) {
    (!Truthy(q.status) || q.status.value == "ALL" || StatusName(b.status) == q.status.value) &&
    (!Truthy(q.payment) || q.payment.value == "ALL" || MethodName(b.paymentMethod) == q.payment.value) &&
    (!Truthy(q.search) ||
       Contains(Lower(b.invoiceNumber), Lower(q.search.value)) ||
       Contains(Lower(b.tableName), Lower(q.search.value)) ||
       Contains(Lower(b.customerName), Lower(q.search.value))) &&
    InWindow(q.range, q.from, q.to, start, now, b)
  }

  /**
   * The `switch (range)`: a named range runs from its computed start to now,
   * "custom" uses [from, to] only when both are given, anything else (an
   * unknown or missing range) gives no window.
   */
  function Window(range: Option<string>, from: Option<int>, to: Option<int>, start: int, now: int): (w: Option<(int, int)>)
    ensures forall b: Bill :: (w.None? || w.value.0 <= b.createdAt <= w.value.1) <==> InWindow(range, from, to, start, now, b)
    ensures w.Some? <==> range.Some? && (range.value in NamedRanges || (range.value == "custom" && from.Some? && to.Some?))
  {
    if range.Some? && range.value in NamedRanges then Some((start, now))
    else if range == Some("custom") && from.Some? && to.Some? then Some((from.value, to.value))
    else None
  }

  /** Builds the filter of getHistoryBills one constraint at a time; it selects exactly the wanted bills. */
  method BuildFilter(q: HistoryQuery, start: int, now: int) returns (f: BillFilter)
    ensures forall b: Bill :: Matches(f, b) <==> Wanted(q, start, now, b)
  {
    f := BillFilter(None, None, None, None);
    if Truthy(q.status) && q.status.value != "ALL" {
      f := f.(status := q.status);
    }
    if Truthy(q.payment) && q.payment.value != "ALL" {
      f := f.(payment := q.payment);
    }
    if Truthy(q.search) {
      f := f.(search := q.search);
    }
    f := f.(createdAt := Window(q.range, q.from, q.to, start, now));
  }

  /** `Bill.find(filter)`. */
  function Selected(bills: seq<Bill>, f: BillFilter): (r: seq<Bill>)
    ensures forall b :: b in r <==> b in bills && Matches(f, b)
    ensures forall b :: multiset(r)[b] == if Matches(f, b) then multiset(bills)[b] else 0
  {
    Filter(bills, (b: Bill) => Matches(f, b))
  }

  function NewestFirst(b: Bill): real {
    -(b.createdAt as real)
  }

  /** GET /api/history/bills: exactly the wanted bills, each once, newest first. */
  method HistoryBills(bills: seq<Bill>, q: HistoryQuery, start: int, now: int) returns (r: seq<Bill>)
    ensures forall b :: b in r <==> b in bills && Wanted(q, start, now, b)
    ensures forall b :: multiset(r)[b] == if Wanted(q, start, now, b) then multiset(bills)[b] else 0
    ensures forall i, j :: 0 <= i < j < |r| ==> r[i].createdAt >= r[j].createdAt
  {
    var f := BuildFilter(q, start, now);
    var selected := Selected(bills, f);
    r := SortByKey(selected, NewestFirst);
    assert SortedByKey(r, NewestFirst);
    assert forall b :: b in r <==> b in multiset(selected);
  }

  // ---------------------------------------------------------------------
  // Summary
  // ---------------------------------------------------------------------

  datatype Summary = Summary(totalRevenue: real, totalOrders: nat, avgOrderValue: real, bestItem: string)

  function Amount(b: Bill): real {
    b.totalAmount
  }

  /** The item lines of the given bills, bill after bill. */
  function Lines(bills: seq<Bill>): (r: seq<BillItem>)
    ensures forall b :: b in bills ==> forall it :: it in b.items ==> it in r
  {
    if bills == [] then [] else Lines(bills[..|bills| - 1]) + bills[|bills| - 1].items
  }

  function LineName(it: BillItem): string {
    it.name
  }

  function LineQty(it: BillItem): real {
    it.quantity as real
  }

  function NegQty(e: (string, real)): real {
    -e.1
  }

  /** `Object.entries(itemStats).sort((a, b) => b[1] - a[1])[0]?.[0] || "-"`. */
  function BestItem(entries: seq<(string, real)>): string {
    var sorted := SortByKey(entries, NegQty);
    if sorted == [] then "-" else OrElse(Some(sorted[0].0), "-")
  }

  /**
   * The best item is the entry with the largest quantity, the earliest one
   * on ties, and "-" when there are no entries.
   */
  lemma BestItemIsFirstMax(entries: seq<(string, real)>)
    ensures entries == [] ==> BestItem(entries) == "-"
    ensures entries != [] ==>
              exists p :: 0 <= p < |entries| &&
                BestItem(entries) == (if entries[p].0 == "" then "-" else entries[p].0) &&
                (forall j :: 0 <= j < |entries| ==> entries[j].1 <= entries[p].1) &&
                (forall j :: 0 <= j < p ==> entries[j].1 < entries[p].1)
  {
    if entries != [] {
      SortByKeyHead(entries, NegQty);
      var sorted := SortByKey(entries, NegQty);
      var p :| 0 <= p < |entries| && entries[p] == sorted[0] &&
                (forall j :: 0 <= j < |entries| ==> NegQty(entries[p]) <= NegQty(entries[j])) &&
                (forall j :: 0 <= j < p ==> NegQty(entries[j]) > NegQty(entries[p]));
      assert BestItem(entries) == OrElse(Some(entries[p].0), "-");
      forall j | 0 <= j < |entries| ensures entries[j].1 <= entries[p].1 {
        assert NegQty(entries[p]) <= NegQty(entries[j]);
      }
      forall j | 0 <= j < p ensures entries[j].1 < entries[p].1 {
        assert NegQty(entries[j]) > NegQty(entries[p]);
      }
    }
  }

  /** The summary's filter: `{status: "PAID"}` plus the date window. */
  function SummaryFilter(range: Option<string>, from: Option<int>, to: Option<int>, start: int, now: int): (f: BillFilter)
    ensures forall b: Bill :: Matches(f, b) <==> b.status == Paid && InWindow(range, from, to, start, now, b)
  {
    BillFilter(Some("PAID"), None, None, Window(range, from, to, start, now))
  }

  /** Each distinct item name with its summed quantity, in order of first appearance. */
  function ItemStats(items: seq<BillItem>): (r: seq<(string, real)>)
    ensures |r| == |GroupKeys(items, LineName)|
    ensures forall i :: 0 <= i < |r| ==>
              r[i] == (GroupKeys(items, LineName)[i], SumWhere(items, LineName, LineQty, GroupKeys(items, LineName)[i]))
  {
    var names := GroupKeys(items, LineName);
    seq(|names|, i requires 0 <= i < |names| => (names[i], SumWhere(items, LineName, LineQty, names[i])))
  }

  /** There are item statistics exactly when there are items. */
  lemma ItemStatsEmpty(items: seq<BillItem>)
    ensures ItemStats(items) == [] <==> items == []
  {
    if items != [] {
      GroupKeysFacts(items, LineName);
      assert LineName(items[0]) in GroupKeys(items, LineName);
    }
  }

  /**
   * GET /api/history/summary over the PAID bills in the window: revenue is their
   * total, orders their count, the average revenue per bill (0 without
   * bills), and the best item that of the item statistics.
   */
  method HistorySummary(bills: seq<Bill>, range: Option<string>, from: Option<int>, to: Option<int>, start: int, now: int)
    returns (s: Summary)
    ensures var sel := Selected(bills, SummaryFilter(range, from, to, start, now));
            s.totalOrders == |sel| &&
            s.totalRevenue == Total(sel, Amount) &&
            s.avgOrderValue == (if |sel| == 0 then 0.0 else s.totalRevenue / (|sel| as real)) &&
            s.bestItem == BestItem(ItemStats(Lines(sel)))
  {
    var sel := Selected(bills, SummaryFilter(range, from, to, start, now));
    var revenue := Total(sel, Amount);
    var count := |sel|;
    var avg := if count > 0 then revenue / (count as real) else 0.0;
    var items := Lines(sel);
    var names, stats := GroupSum(items, LineName, LineQty);
    var entries := seq(|names|, i requires 0 <= i < |names| => (names[i], stats[names[i]]));
    assert entries == ItemStats(items);
    s := Summary(revenue, count, avg, BestItem(entries));
  }

  // ---------------------------------------------------------------------
  // Trend
  // ---------------------------------------------------------------------

  datatype TrendPoint = TrendPoint(day: int, revenue: real)

  const MillisPerDay: int := 86400000

  /** The UTC calendar day of an instant (what `toISOString().slice(0, 10)` names). */
  function Day(ms: int): int {
    ms / MillisPerDay
  }

  lemma DayMonotone(a: int, b: int)
    requires a <= b
    ensures Day(a) <= Day(b)
  {
  }

  function BillDay(b: Bill): int {
    Day(b.createdAt)
  }

  function Created(b: Bill): real {
    b.createdAt as real
  }

  predicate IsPaid(b: Bill) {
    b.status == Paid
  }

  function TrendDays(trend: seq<TrendPoint>): (r: seq<int>)
    ensures |r| == |trend| && forall i :: 0 <= i < |trend| ==> r[i] == trend[i].day
  {
    seq(|trend|, i requires 0 <= i < |trend| => trend[i].day)
  }

  lemma SortedDaysAscending(sorted: seq<Bill>)
    requires SortedByKey(sorted, Created)
    ensures forall i, j :: 0 <= i < j < |sorted| ==> BillDay(sorted[i]) <= BillDay(sorted[j])
  {
    forall i, j | 0 <= i < j < |sorted| ensures BillDay(sorted[i]) <= BillDay(sorted[j]) {
      DayMonotone(sorted[i].createdAt, sorted[j].createdAt);
    }
  }

  /** The days of a reordering of the PAID bills are exactly the days of the PAID bills. */
  lemma TrendDaysCover(bills: seq<Bill>, sorted: seq<Bill>)
    requires multiset(sorted) == multiset(Filter(bills, IsPaid))
    ensures forall b :: b in bills && IsPaid(b) ==> BillDay(b) in GroupKeys(sorted, BillDay)
    ensures forall d :: d in GroupKeys(sorted, BillDay) ==> exists b :: b in bills && IsPaid(b) && BillDay(b) == d
  {
    PaidDaysListed(bills, sorted);
    ListedDaysPaid(bills, sorted);
  }

  lemma PaidDaysListed(bills: seq<Bill>, sorted: seq<Bill>)
    requires multiset(sorted) == multiset(Filter(bills, IsPaid))
    ensures forall b :: b in bills && IsPaid(b) ==> BillDay(b) in GroupKeys(sorted, BillDay)
  {
    GroupKeysFacts(sorted, BillDay);
    forall b | b in bills && IsPaid(b) ensures BillDay(b) in GroupKeys(sorted, BillDay) {
      assert b in Filter(bills, IsPaid);
      assert b in multiset(sorted);
      var k :| 0 <= k < |sorted| && sorted[k] == b;
    }
  }

  lemma ListedDaysPaid(bills: seq<Bill>, sorted: seq<Bill>)
    requires multiset(sorted) == multiset(Filter(bills, IsPaid))
    ensures forall d :: d in GroupKeys(sorted, BillDay) ==> exists b :: b in bills && IsPaid(b) && BillDay(b) == d
  {
    GroupKeysFacts(sorted, BillDay);
    forall d | d in GroupKeys(sorted, BillDay) ensures exists b :: b in bills && IsPaid(b) && BillDay(b) == d {
      var k :| 0 <= k < |sorted| && BillDay(sorted[k]) == d;
      assert sorted[k] in multiset(Filter(bills, IsPaid));
      assert sorted[k] in Filter(bills, IsPaid);
    }
  }

  /**
   * GET /api/history/trend: one point per UTC day on which a PAID bill was
   * created, in ascending day order, each with the sum of that day's PAID
   * bill totals.
   */
  method HistoryTrend(bills: seq<Bill>) returns (trend: seq<TrendPoint>)
    ensures forall i, j :: 0 <= i < j < |trend| ==> trend[i].day < trend[j].day
    ensures forall b :: b in bills && IsPaid(b) ==> BillDay(b) in TrendDays(trend)
    ensures forall d :: d in TrendDays(trend) ==> exists b :: b in bills && IsPaid(b) && BillDay(b) == d
    ensures forall i :: 0 <= i < |trend| ==>
              trend[i].revenue == SumWhere(Filter(bills, IsPaid), BillDay, Amount, trend[i].day)
  {
    var paid := Filter(bills, IsPaid);
    var sorted := SortByKey(paid, Created);
    SortedDaysAscending(sorted);
    var days, revenue := GroupSum(sorted, BillDay, Amount);
    GroupKeysAscending(sorted, BillDay);
    TrendDaysCover(bills, sorted);
    trend := seq(|days|, i requires 0 <= i < |days| => TrendPoint(days[i], revenue[days[i]]));
    assert TrendDays(trend) == days;
    forall i | 0 <= i < |trend|
      ensures trend[i].revenue == SumWhere(paid, BillDay, Amount, trend[i].day)
    {
      SumWhereMultiset(sorted, paid, BillDay, Amount, days[i]);
    }
  }
}
