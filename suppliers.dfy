/**
 * Supplier ledger (backend/controllers/supplierController.js over
 * backend/models/Supplier.js): logging a purchase, paying a supplier with the
 * outstanding balance clamped at zero, and the supplier list by name. The
 * purchase date is a parameter.
 */
module Suppliers {
  import opened Base
  import opened Sorting
  import opened Grouping

  datatype PurchaseLine = PurchaseLine(itemName: Option<string>, quantity: Option<real>, unit: Option<string>,
                                       pricePerUnit: Option<real>)

  /** One `purchaseHistory` entry. Its `paymentStatus` is free text. */
  datatype Purchase = Purchase(date: int, items: seq<PurchaseLine>, totalAmount: real, paymentStatus: Option<string>)

  datatype Supplier = Supplier(
    id: nat,
    supplierName: string,
    categoriesSupplied: seq<string>,
    contactNo: Option<string>,
    shopAddress: Option<string>,
    lastOrderAmount: real,
    outstandingAmount: real,
    totalAmountPurchased: real,
    paymentStatus: Option<string>,
    purchaseHistory: seq<Purchase>,
    rating: real)

  const PENDING := "Pending"
  const PAID := "Paid"
  const PARTIALLY_PAID := "Partially Paid"

  /** The supplier's `paymentStatus` enum; an absent value is not checked. */
  predicate StatusAllowed(s: Option<string>) {
    s.None? || s.value in {PENDING, PAID, PARTIALLY_PAID}
  }

  /** What a purchase adds to the outstanding balance: all of it, half of it, or nothing. */
  function Owed(total: real, status: Option<string>): (r: real)
    ensures status == Some(PENDING) ==> r == total
    ensures status == Some(PARTIALLY_PAID) ==> r * 2.0 == total
    ensures status != Some(PENDING) && status != Some(PARTIALLY_PAID) ==> r == 0.0
  {
    if status == Some(PENDING) then total
    else if status == Some(PARTIALLY_PAID) then total / 2.0
    else 0.0
  }

  /** The supplier after `addPurchase` has updated it in memory. */
  function Purchased(s: Supplier, items: seq<PurchaseLine>, total: real, status: Option<string>, now: int): (r: Supplier)
    ensures r.purchaseHistory == s.purchaseHistory + [Purchase(now, items, total, status)]
    ensures r.lastOrderAmount == total && r.paymentStatus == status
    ensures r.totalAmountPurchased == s.totalAmountPurchased + total
    ensures r.outstandingAmount == s.outstandingAmount + Owed(total, status)
    ensures r.(purchaseHistory := s.purchaseHistory, lastOrderAmount := s.lastOrderAmount,
               totalAmountPurchased := s.totalAmountPurchased, outstandingAmount := s.outstandingAmount,
               paymentStatus := s.paymentStatus) == s
  {
    s.(purchaseHistory := s.purchaseHistory + [Purchase(now, items, total, status)],
       lastOrderAmount := total,
       totalAmountPurchased := s.totalAmountPurchased + total,
       paymentStatus := status,
       outstandingAmount := s.outstandingAmount + Owed(total, status))
  }

  function PurchaseTotal(p: Purchase): real {
    p.totalAmount
  }

  /** How far the running purchase total is ahead of the recorded history. */
  function Untracked(s: Supplier): real {
    s.totalAmountPurchased - Total(s.purchaseHistory, PurchaseTotal)
  }

  /** A purchase moves the running total and the history by the same amount. */
  lemma PurchaseKeepsTotalInStep(s: Supplier, items: seq<PurchaseLine>, total: real, status: Option<string>, now: int)
    ensures Untracked(Purchased(s, items, total, status, now)) == Untracked(s)
  {
    var r := Purchased(s, items, total, status, now);
    assert r.purchaseHistory[..|r.purchaseHistory| - 1] == s.purchaseHistory;
  }

  /** The balance and status after paying `paid` off `outstanding`. */
  function Settle(outstanding: real, paid: real): (r: (real, string))
    ensures r.0 >= 0.0
    ensures outstanding - paid <= 0.0 ==> r == (0.0, PAID)
    ensures outstanding - paid > 0.0 ==> r == (outstanding - paid, PARTIALLY_PAID)
  {
    var left := outstanding - paid;
    if left <= 0.0 then (0.0, PAID) else (left, PARTIALLY_PAID)
  }

  /** Two non-negative payments leave the same balance and status as one payment of their sum. */
  lemma PaymentsCompose(outstanding: real, a: real, b: real)
    requires a >= 0.0 && b >= 0.0
    ensures Settle(Settle(outstanding, a).0, b) == Settle(outstanding, a + b)
  {
  }

  /** The balance never grows through a non-negative payment. */
  lemma PaymentNeverRaisesBalance(outstanding: real, paid: real)
    requires outstanding >= 0.0 && paid >= 0.0
    ensures Settle(outstanding, paid).0 <= outstanding
  {
  }

  function SupplierName(s: Supplier): string {
    s.supplierName
  }

  /** The supplier documents. */
  class SupplierBook {
    var suppliers: seq<Supplier>

    constructor ()
      ensures suppliers == []
    {
      suppliers := [];
    }

    /**
     * `addPurchase`: an unknown supplier is a 404, a status outside the
     * supplier enum fails validation on save; either way nothing changes.
     * Otherwise only that supplier changes, by exactly one purchase.
     */
    method AddPurchase(supplierId: nat, items: seq<PurchaseLine>, total: real, status: Option<string>, now: int)
      returns (r: Result<Supplier>)
      modifies this
      ensures FirstIndex(old(suppliers), (s: Supplier) => s.id == supplierId).None? ==>
                r == Err(NotFound) && suppliers == old(suppliers)
      ensures FirstIndex(old(suppliers), (s: Supplier) => s.id == supplierId).Some? && !StatusAllowed(status) ==>
                r == Err(ServerError) && suppliers == old(suppliers)
      ensures FirstIndex(old(suppliers), (s: Supplier) => s.id == supplierId).Some? && StatusAllowed(status) ==>
                var i := FirstIndex(old(suppliers), (s: Supplier) => s.id == supplierId).value;
                suppliers == old(suppliers)[i := Purchased(old(suppliers)[i], items, total, status, now)] &&
                r == Ok(suppliers[i]) && Untracked(suppliers[i]) == Untracked(old(suppliers)[i])
    {
      var found := FirstIndex(suppliers, (s: Supplier) => s.id == supplierId);
      if found.None? {
        return Err(NotFound);
      }
      if !StatusAllowed(status) {
        return Err(ServerError);
      }
      var i := found.value;
      PurchaseKeepsTotalInStep(suppliers[i], items, total, status, now);
      var s := Purchased(suppliers[i], items, total, status, now);
      suppliers := suppliers[i := s];
      r := Ok(s);
    }

    /**
     * `paySupplier`: an unknown supplier is a 404 and changes nothing; otherwise
     * the balance drops by the payment, clamped at zero, and the status says
     * whether anything is still owed. Nothing else changes.
     */
    method PaySupplier(supplierId: nat, paid: real) returns (r: Result<Supplier>)
      modifies this
      ensures FirstIndex(old(suppliers), (s: Supplier) => s.id == supplierId).None? ==>
                r == Err(NotFound) && suppliers == old(suppliers)
      ensures FirstIndex(old(suppliers), (s: Supplier) => s.id == supplierId).Some? ==>
                var i := FirstIndex(old(suppliers), (s: Supplier) => s.id == supplierId).value;
                var before := old(suppliers)[i];
                var settled := Settle(before.outstandingAmount, paid);
                suppliers == old(suppliers)[i := before.(outstandingAmount := settled.0, paymentStatus := Some(settled.1))] &&
                r == Ok(suppliers[i]) && suppliers[i].outstandingAmount >= 0.0 &&
                (suppliers[i].paymentStatus == Some(PAID) <==> before.outstandingAmount - paid <= 0.0)
    {
      var found := FirstIndex(suppliers, (s: Supplier) => s.id == supplierId);
      if found.None? {
        return Err(NotFound);
      }
      var i := found.value;
      var settled := Settle(suppliers[i].outstandingAmount, paid);
      var s := suppliers[i].(outstandingAmount := settled.0, paymentStatus := Some(settled.1));
      suppliers := suppliers[i := s];
      r := Ok(s);
    }

    /** `getSuppliers`: every supplier, by name. */
    function Listing(): (r: seq<Supplier>)
      reads this
      ensures multiset(r) == multiset(suppliers)
      ensures forall i, j :: 0 <= i < j < |r| ==> TextLe(r[i].supplierName, r[j].supplierName)
    {
      var r := SortByText(suppliers, SupplierName);
      assert SortedByText(r, SupplierName);
      r
    }
  }
}
