/**
 * Bill creation, listing and settlement (backend/controllers/billingController.js).
 * A created bill is always PENDING; its invoice number comes from the
 * per-year counter through the save hook of the bill model. The current year
 * and time are parameters.
 */
module Billing {
  import opened Base
  import opened Sorting
  import opened BillModel

  /** A bill line as the client sends it; `None` stands for a missing or non-numeric value. */
  datatype BillItemInput = BillItemInput(name: Option<string>, price: Option<real>, quantity: Option<int>)

  /** The body of POST /api/billing/create. `status` is accepted and ignored. */
  datatype BillRequest = BillRequest(
    tableName: Option<string>,
    items: Option<seq<BillItemInput>>,
    totalAmount: Option<real>,
    relatedOrders: Option<seq<nat>>,
    paymentMethod: Option<string>,
    status: Option<string>,
    discount: Option<real>,
    serviceCharge: Option<real>,
    customerName: Option<string>)

  /** The bill-line schema: a non-empty name and numeric price and quantity. */
  predicate CleanLine(i: BillItemInput) {
    Truthy(i.name) && i.price.Some? && i.quantity.Some?
  }

  /** `paymentMethod || "CASH"`, then the enum check. */
  function MethodOf(m: Option<string>): (r: Option<PaymentMethod>)
    ensures !Truthy(m) ==> r == Some(Cash)
    ensures Truthy(m) && r.Some? ==> MethodName(r.value) == m.value
    ensures Truthy(m) && m.value in {"CASH", "UPI", "CARD", "ONLINE"} ==> r.Some?
  {
    ParseMethod(OrElse(m, "CASH"))
  }

  /**
   * Why a request is refused, if it is: 400 for a missing table name or a
   * missing or empty item list; 500 when the bill schema rejects the record
   * (a line without name, price or quantity, a non-numeric total, a payment
   * method outside the enum).
   */
  function RequestError(req: BillRequest): (r: Option<Error>)
    ensures !Truthy(req.tableName) ==> r == Some(BadRequest)
    ensures Truthy(req.tableName) && (req.items.None? || req.items.value == []) ==> r == Some(BadRequest)
    ensures r.None? <==>
              Truthy(req.tableName) && req.items.Some? && req.items.value != [] &&
              (forall k :: 0 <= k < |req.items.value| ==> CleanLine(req.items.value[k])) &&
              req.totalAmount.Some? && MethodOf(req.paymentMethod).Some?
    ensures r.Some? ==> r.value in {BadRequest, ServerError}
  {
    if !Truthy(req.tableName) then Some(BadRequest)
    else if req.items.None? || req.items.value == [] then Some(BadRequest)
    else if !(forall k | 0 <= k < |req.items.value| :: CleanLine(req.items.value[k])) then Some(ServerError)
    else if req.totalAmount.None? || MethodOf(req.paymentMethod).None? then Some(ServerError)
    else None
  }

  /** One cleaned line: `{name, Number(price), Number(quantity)}`. */
  function Line(i: BillItemInput): BillItem
    requires CleanLine(i)
  {
    BillItem(i.name.value, i.price.value, i.quantity.value)
  }

  /** `cleanItems`: only name, price and quantity survive, in input order. */
  function CleanItems(xs: seq<BillItemInput>): (r: seq<BillItem>)
    requires forall k :: 0 <= k < |xs| ==> CleanLine(xs[k])
    ensures |r| == |xs|
    ensures forall k :: 0 <= k < |xs| ==>
              xs[k].name == Some(r[k].name) && xs[k].price == Some(r[k].price) && xs[k].quantity == Some(r[k].quantity)
  {
    seq(|xs|, k requires 0 <= k < |xs| && CleanLine(xs[k]) => Line(xs[k]))
  }

  function NumberOr0(x: Option<real>): real {
    if x.Some? && x.value != 0.0 then x.value else 0.0
  }

  /**
   * The bill `createBill` stores for an accepted request: status forced to
   * PENDING, the caller's total kept as given, and the documented defaults
   * for the optional fields.
   */
  function NewBill(req: BillRequest, id: nat, invoice: string, now: int): (r: Bill)
    requires RequestError(req).None?
    ensures r.status == Pending
    ensures r.tableName == req.tableName.value
    ensures r.items == CleanItems(req.items.value) && |r.items| == |req.items.value|
    ensures r.totalAmount == req.totalAmount.value
    ensures r.relatedOrders == (if req.relatedOrders.Some? then req.relatedOrders.value else [])
    ensures !Truthy(req.paymentMethod) ==> r.paymentMethod == Cash
    ensures Truthy(req.paymentMethod) ==> MethodName(r.paymentMethod) == req.paymentMethod.value
    ensures (req.discount.None? || req.discount.value == 0.0) ==> r.discount == 0.0
    ensures req.discount.Some? ==> r.discount == req.discount.value
    ensures req.serviceCharge.Some? ==> r.serviceCharge == req.serviceCharge.value
    ensures req.serviceCharge.None? ==> r.serviceCharge == 0.0
    ensures r.customerName == (if Truthy(req.customerName) then req.customerName.value else "")
    ensures r.invoiceNumber == invoice && r.id == id && r.createdAt == now
  {
    Bill(id, req.tableName.value, CleanItems(req.items.value), req.totalAmount.value, invoice,
         MethodOf(req.paymentMethod).value, Pending, NumberOr0(req.discount), NumberOr0(req.serviceCharge),
         req.relatedOrders.GetOr([]), OrElse(req.customerName, ""), now)
  }

  /** Every stored invoice number is well formed and no larger than its year's counter. */
  ghost predicate CountedFor(bills: seq<Bill>, counters: map<nat, nat>) {
    forall i :: 0 <= i < |bills| ==>
      ParseInvoiceNumber(bills[i].invoiceNumber).Some? &&
      ParseInvoiceNumber(bills[i].invoiceNumber).value.1 <= LastNumber(counters, ParseInvoiceNumber(bills[i].invoiceNumber).value.0)
  }

  ghost predicate DistinctInvoices(bills: seq<Bill>) {
    forall i, j :: 0 <= i < j < |bills| ==> bills[i].invoiceNumber != bills[j].invoiceNumber
  }

  /** The next number of a year is larger than every number already issued, so it is new. */
  lemma {:induction false} NextInvoiceIsFresh(bills: seq<Bill>, counters: map<nat, nat>, year: nat)
    requires CountedFor(bills, counters)
    ensures forall i :: 0 <= i < |bills| ==>
              bills[i].invoiceNumber != InvoiceNumber(year, LastNumber(counters, year) + 1)
  {
    var next := InvoiceNumber(year, LastNumber(counters, year) + 1);
    InvoiceRoundTrip(year, LastNumber(counters, year) + 1);
    forall i | 0 <= i < |bills| ensures bills[i].invoiceNumber != next {
      var p := ParseInvoiceNumber(bills[i].invoiceNumber);
      assert p.value.1 <= LastNumber(counters, p.value.0);
    }
  }

  /** Advancing a counter never invalidates the numbers already issued. */
  lemma {:induction false} AdvanceKeepsCounted(bills: seq<Bill>, counters: map<nat, nat>, year: nat)
    requires CountedFor(bills, counters)
    ensures CountedFor(bills, Advance(counters, year))
  {
    forall i | 0 <= i < |bills|
      ensures ParseInvoiceNumber(bills[i].invoiceNumber).value.1
              <= LastNumber(Advance(counters, year), ParseInvoiceNumber(bills[i].invoiceNumber).value.0)
    {
    }
  }

  /** Appending a bill numbered from the advanced counter keeps the numbers counted and unique. */
  lemma AppendFreshInvoice(bills: seq<Bill>, counters: map<nat, nat>, year: nat, b: Bill)
    requires CountedFor(bills, counters) && DistinctInvoices(bills)
    requires b.invoiceNumber == InvoiceNumber(year, LastNumber(counters, year) + 1)
    ensures CountedFor(bills + [b], Advance(counters, year))
    ensures DistinctInvoices(bills + [b])
  {
    NextInvoiceIsFresh(bills, counters, year);
    AdvanceKeepsCounted(bills, counters, year);
    InvoiceRoundTrip(year, LastNumber(counters, year) + 1);
    var s := bills + [b];
    forall i | 0 <= i < |s|
      ensures ParseInvoiceNumber(s[i].invoiceNumber).Some? &&
              ParseInvoiceNumber(s[i].invoiceNumber).value.1
              <= LastNumber(Advance(counters, year), ParseInvoiceNumber(s[i].invoiceNumber).value.0)
    {
      if i < |bills| {
        assert s[i] == bills[i];
      }
    }
    forall i, j | 0 <= i < j < |s| ensures s[i].invoiceNumber != s[j].invoiceNumber {
      assert s[i] == bills[i];
      if j < |bills| {
        assert s[j] == bills[j];
      }
    }
  }

  function NewestFirstKey(b: Bill): real {
    -(b.createdAt as real)
  }

  /** `findById`: the position of the bill with that id, if there is one. */
  function FindBill(bills: seq<Bill>, id: nat): (r: Option<nat>)
    ensures r.Some? ==> r.value < |bills| && bills[r.value].id == id &&
                        forall k :: 0 <= k < r.value ==> bills[k].id != id
    ensures r.None? ==> forall k :: 0 <= k < |bills| ==> bills[k].id != id
  {
    FirstIndex(bills, (b: Bill) => b.id == id)
  }

  /** The bills collection together with the invoice counters it numbers from. */
  class BillLedger {
    var bills: seq<Bill>
    var nextId: nat
    const counters: InvoiceCounters

    /** Sequentially issued invoice numbers are unique and accounted for by the counters. */
    ghost predicate Valid()
      reads this, counters
    {
      CountedFor(bills, counters.lastNumber) && DistinctInvoices(bills)
    }

    constructor (counters: InvoiceCounters)
      requires counters.lastNumber == map[]
      ensures Valid() && bills == [] && this.counters == counters
    {
      bills := [];
      nextId := 0;
      this.counters := counters;
    }

    /**
     * POST /api/billing/create: a refused request stores nothing and leaves the
     * counters alone; an accepted one advances the year's counter by one and
     * appends exactly one PENDING bill carrying the new invoice number.
     */
    method CreateBill(req: BillRequest, year: nat, now: int) returns (r: Result<Bill>)
      requires Valid()
      modifies this, counters
      ensures Valid()
      ensures RequestError(req).Some? ==>
                r == Err(RequestError(req).value) && bills == old(bills) &&
                counters.lastNumber == old(counters.lastNumber)
      ensures RequestError(req).None? ==>
                counters.lastNumber == Advance(old(counters.lastNumber), year) &&
                r == Ok(NewBill(req, old(nextId), InvoiceNumber(year, counters.lastNumber[year]), now)) &&
                bills == old(bills) + [r.value]
    {
      var err := RequestError(req);
      if err.Some? {
        return Err(err.value);
      }
      ghost var before := counters.lastNumber;
      var invoice := counters.NumberOnSave(None, year);
      var b := NewBill(req, nextId, invoice, now);
      AppendFreshInvoice(bills, before, year, b);
      bills := bills + [b];
      nextId := nextId + 1;
      r := Ok(b);
    }

    /** GET /api/billing/all: every bill, newest first. */
    function AllBills(): (r: seq<Bill>)
      reads this
      ensures multiset(r) == multiset(bills)
      ensures forall i, j :: 0 <= i < j < |r| ==> r[i].createdAt >= r[j].createdAt
    {
      var r := SortByKey(bills, NewestFirstKey);
      assert SortedByKey(r, NewestFirstKey);
      r
    }

    /** PATCH /api/billing/markPaid/:id: status becomes PAID from any prior status, nothing else changes; unknown id is a 404. */
    method MarkBillPaid(id: nat) returns (r: Result<Bill>)
      requires Valid()
      modifies this
      ensures Valid()
      ensures FindBill(old(bills), id).None? ==> r == Err(NotFound) && bills == old(bills)
      ensures FindBill(old(bills), id).Some? ==>
                var i := FindBill(old(bills), id).value;
                bills == old(bills)[i := old(bills)[i].(status := Paid)] && r == Ok(bills[i])
    {
      var found := FindBill(bills, id);
      if found.None? {
        return Err(NotFound);
      }
      var i := found.value;
      var b := bills[i].(status := Paid);
      bills := bills[i := b];
      r := Ok(b);
    }
  }
}
