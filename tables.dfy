/**
 * Café tables (backend/controllers/tableController.js over
 * backend/models/CafeTable.js): adding a table with its occupancy reset,
 * clearing a table after billing, and the table list annotated with each
 * table's latest bill.
 */
module Tables {
  import opened Base
  import opened Sorting
  import opened BillModel

  datatype TableStatus = Free | Occupied | BillingPending | Reserved

  datatype CafeTable = CafeTable(
    id: nat,
    name: string,
    capacity: int,
    status: TableStatus,
    customers: int,
    activeSince: Option<int>,
    lastBillId: Option<nat>,
    servedBy: Option<string>,
    autoClearAfterBilling: bool)

  /** The request body of POST /api/tables; any field may be missing. */
  datatype TableInput = TableInput(
    name: Option<string>,
    capacity: Option<int>,
    status: Option<string>,
    customers: Option<int>,
    activeSince: Option<int>,
    lastBillId: Option<nat>,
    servedBy: Option<string>,
    autoClearAfterBilling: Option<bool>)

  /**
   * `{...req.body, status: "FREE", customers: 0, activeSince: null}`: the
   * occupancy fields are forced whatever the body says; the rest comes from
   * the body or the schema defaults (capacity 2, no last bill, auto-clear on).
   */
  function NewTable(id: nat, body: TableInput): (t: CafeTable)
    requires Truthy(body.name)
    ensures t.status == Free && t.customers == 0 && t.activeSince == None
    ensures t.id == id && t.name == body.name.value
    ensures t.capacity == (if body.capacity.Some? then body.capacity.value else 2)
    ensures t.lastBillId == body.lastBillId && t.servedBy == body.servedBy
    ensures t.autoClearAfterBilling == (body.autoClearAfterBilling != Some(false))
  {
    CafeTable(id, body.name.value, body.capacity.GetOr(2), Free, 0, None, body.lastBillId, body.servedBy,
              body.autoClearAfterBilling.GetOr(true))
  }

  /** The four fields `clearTable` resets; everything else is kept. */
  function Cleared(t: CafeTable): (r: CafeTable)
    ensures r.status == Free && r.customers == 0 && r.activeSince == None && r.lastBillId == None
    ensures r.id == t.id && r.name == t.name && r.capacity == t.capacity && r.servedBy == t.servedBy
    ensures r.autoClearAfterBilling == t.autoClearAfterBilling
  {
    t.(status := Free, customers := 0, activeSince := None, lastBillId := None)
  }

  /** Clearing twice leaves the table as clearing once. */
  lemma ClearedIdempotent(t: CafeTable)
    ensures Cleared(Cleared(t)) == Cleared(t)
  {
  }

  // ---------------------------------------------------------------------
  // Latest bill of a table
  // ---------------------------------------------------------------------

  /**
   * `Bill.findOne({tableName}).sort({createdAt: -1})`: the table's bill with
   * the latest creation time; of bills created at the same instant, the
   * earlier stored one.
   */
  function LatestBill(bills: seq<Bill>, name: string): Option<Bill> {
    if bills == [] then None
    else
      var prev := LatestBill(bills[..|bills| - 1], name);
      var b := bills[|bills| - 1];
      if b.tableName != name then prev
      else if prev.Some? && prev.value.createdAt >= b.createdAt then prev
      else Some(b)
  }

  /** The latest bill is a bill of that table created no earlier than any other; there is none only when the table has no bill. */
  lemma {:induction false} LatestBillIsLatest(bills: seq<Bill>, name: string)
    ensures LatestBill(bills, name).None? <==> forall b :: b in bills ==> b.tableName != name
    ensures LatestBill(bills, name).Some? ==>
              var l := LatestBill(bills, name).value;
              l in bills && l.tableName == name &&
              forall b :: b in bills && b.tableName == name ==> b.createdAt <= l.createdAt
  {
    if bills != [] {
      var init := bills[..|bills| - 1];
      LatestBillIsLatest(init, name);
      assert bills == init + [bills[|bills| - 1]];
    }
  }

  datatype TableView = TableView(table: CafeTable, lastBill: Option<Bill>)

  function TableName(t: CafeTable): string {
    t.name
  }

  function ViewTables(views: seq<TableView>): (r: seq<CafeTable>)
    ensures |r| == |views| && forall k :: 0 <= k < |views| ==> r[k] == views[k].table
  {
    seq(|views|, k requires 0 <= k < |views| => views[k].table)
  }

  lemma ViewTablesOf(views: seq<TableView>, tables: seq<CafeTable>)
    requires |views| == |tables| && forall k :: 0 <= k < |views| ==> views[k].table == tables[k]
    ensures ViewTables(views) == tables
  {
  }

  /** The table documents. */
  class TableStore {
    var tables: seq<CafeTable>
    var nextId: nat

    constructor ()
      ensures tables == []
    {
      tables := [];
      nextId := 0;
    }

    /** POST /api/tables: a table without a name fails the schema and nothing is stored. */
    method AddTable(body: TableInput) returns (r: Result<CafeTable>)
      modifies this
      ensures !Truthy(body.name) ==> r == Err(ServerError) && tables == old(tables)
      ensures Truthy(body.name) ==> r == Ok(NewTable(old(nextId), body)) && tables == old(tables) + [r.value]
    {
      if !Truthy(body.name) {
        return Err(ServerError);
      }
      var t := NewTable(nextId, body);
      tables := tables + [t];
      nextId := nextId + 1;
      r := Ok(t);
    }

    /**
     * `clearTable`: an unknown id is a 404 and changes nothing; otherwise only
     * that table is cleared. The table routes do not mount this handler.
     */
    method ClearTable(id: nat) returns (r: Result<CafeTable>)
      modifies this
      ensures FirstIndex(old(tables), (t: CafeTable) => t.id == id).None? ==> r == Err(NotFound) && tables == old(tables)
      ensures FirstIndex(old(tables), (t: CafeTable) => t.id == id).Some? ==>
                var i := FirstIndex(old(tables), (t: CafeTable) => t.id == id).value;
                tables == old(tables)[i := Cleared(old(tables)[i])] && r == Ok(tables[i])
    {
      var found := FirstIndex(tables, (t: CafeTable) => t.id == id);
      if found.None? {
        return Err(NotFound);
      }
      var i := found.value;
      var t := Cleared(tables[i]);
      tables := tables[i := t];
      r := Ok(t);
    }

    /** GET /api/tables: every table once, by name, each with its latest bill. */
    method GetTables(bills: seq<Bill>) returns (views: seq<TableView>)
      ensures multiset(ViewTables(views)) == multiset(tables)
      ensures SortedByText(ViewTables(views), TableName)
      ensures forall k :: 0 <= k < |views| ==> views[k].lastBill == LatestBill(bills, views[k].table.name)
    {
      var sorted := SortByText(tables, TableName);
      views := [];
      for i := 0 to |sorted|
        invariant |views| == i
        invariant forall k :: 0 <= k < i ==> views[k].table == sorted[k]
        invariant forall k :: 0 <= k < i ==> views[k].lastBill == LatestBill(bills, views[k].table.name)
      {
        views := views + [TableView(sorted[i], LatestBill(bills, sorted[i].name))];
      }
      ViewTablesOf(views, sorted);
    }
  }
}
