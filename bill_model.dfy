/**
 * The bill record (backend/models/Bill.js): its status and payment-method
 * enumerations with their defaults, the invoice-number format
 * `CAF-<year>-<number padded to 5 digits>`, and the per-year invoice counter
 * that the save hook advances.
 */
module BillModel {
  import opened Base

  // ---------------------------------------------------------------------
  // Enumerations
  // ---------------------------------------------------------------------

  datatype BillStatus = Pending | Paid | Cancelled | Refunded
  datatype PaymentMethod = Cash | Upi | Card | Online

  const DefaultStatus: BillStatus := Pending
  const DefaultPaymentMethod: PaymentMethod := Cash

  function StatusName(s: BillStatus): string {
    match s
    case Pending => "PENDING"
    case Paid => "PAID"
    case Cancelled => "CANCELLED"
    case Refunded => "REFUNDED"
  }

  /** The schema's enum check: only the four listed spellings are accepted. */
  function ParseStatus(s: string): (r: Option<BillStatus>)
    ensures r.Some? ==> StatusName(r.value) == s
  {
    if s == "PENDING" then Some(Pending)
    else if s == "PAID" then Some(Paid)
    else if s == "CANCELLED" then Some(Cancelled)
    else if s == "REFUNDED" then Some(Refunded)
    else None
  }

  lemma StatusRoundTrip(s: BillStatus)
    ensures ParseStatus(StatusName(s)) == Some(s)
  {
  }

  function MethodName(m: PaymentMethod): string {
    match m
    case Cash => "CASH"
    case Upi => "UPI"
    case Card => "CARD"
    case Online => "ONLINE"
  }

  function ParseMethod(s: string): (r: Option<PaymentMethod>)
    ensures r.Some? ==> MethodName(r.value) == s
  {
    if s == "CASH" then Some(Cash)
    else if s == "UPI" then Some(Upi)
    else if s == "CARD" then Some(Card)
    else if s == "ONLINE" then Some(Online)
    else None
  }

  lemma MethodRoundTrip(m: PaymentMethod)
    ensures ParseMethod(MethodName(m)) == Some(m)
  {
  }

  // ---------------------------------------------------------------------
  // Records
  // ---------------------------------------------------------------------

  /** A bill line: a snapshot of name, unit price and quantity. */
  datatype BillItem = BillItem(name: string, price: real, quantity: int)

  datatype Bill = Bill(
    id: nat,
    tableName: string,
    items: seq<BillItem>,
    totalAmount: real,
    invoiceNumber: string,
    paymentMethod: PaymentMethod,
    status: BillStatus,
    discount: real,
    serviceCharge: real,
    relatedOrders: seq<nat>,
    customerName: string,
    createdAt: int)

  // ---------------------------------------------------------------------
  // Invoice-number format
  // ---------------------------------------------------------------------

  predicate IsDigit(c: char) { '0' <= c <= '9' }

  ghost predicate AllDigits(s: string) {
    forall i :: 0 <= i < |s| ==> IsDigit(s[i])
  }

  function DigitChar(d: nat): (c: char)
    requires d < 10
    ensures IsDigit(c)
  {
    ('0' as int + d) as char
  }

  function DigitValue(c: char): nat
    requires IsDigit(c)
  {
    c as int - '0' as int
  }

  /** `String(n)` for a natural number: its decimal digits, no leading zero. */
  function Decimal(n: nat): (r: string)
    ensures |r| >= 1 && AllDigits(r)
    ensures r[0] == '0' ==> n == 0
  {
    if n < 10 then [DigitChar(n)] else Decimal(n / 10) + [DigitChar(n % 10)]
  }

  /** The value of a digit string (the empty string counts as 0). */
  function DigitsValue(s: string): nat
    requires AllDigits(s)
  {
    if s == [] then 0 else DigitsValue(s[..|s| - 1]) * 10 + DigitValue(s[|s| - 1])
  }

  lemma {:induction false} DecimalRoundTrip(n: nat)
    ensures DigitsValue(Decimal(n)) == n
  {
    if n >= 10 {
      var d := Decimal(n);
      assert d[..|d| - 1] == Decimal(n / 10);
      DecimalRoundTrip(n / 10);
    }
  }

  function Repeat(c: char, k: nat): (r: string)
    ensures |r| == k && forall i :: 0 <= i < k ==> r[i] == c
  {
    if k == 0 then [] else [c] + Repeat(c, k - 1)
  }

  /** `s.padStart(width, c)`: left-pads, never truncates. */
  function PadStart(s: string, width: nat, c: char): (r: string)
    ensures |s| >= width ==> r == s
    ensures |s| < width ==> r == Repeat(c, width - |s|) + s
  {
    if |s| >= width then s else Repeat(c, width - |s|) + s
  }

  lemma {:induction false} LeadingZeros(k: nat, s: string)
    requires AllDigits(s)
    ensures AllDigits(Repeat('0', k) + s)
    ensures DigitsValue(Repeat('0', k) + s) == DigitsValue(s)
    decreases k + |s|
  {
    var t := Repeat('0', k) + s;
    if s == [] {
      assert t == Repeat('0', k);
      if k > 0 {
        assert t[..|t| - 1] == Repeat('0', k - 1) + [];
        LeadingZeros(k - 1, []);
      }
    } else {
      assert t[..|t| - 1] == Repeat('0', k) + s[..|s| - 1];
      LeadingZeros(k, s[..|s| - 1]);
    }
  }

  /** The zero-padded counter suffix of an invoice number. */
  function Padded(n: nat): (r: string)
    ensures AllDigits(r)
  {
    var d := Decimal(n);
    if |d| < 5 then
      LeadingZeros(5 - |d|, d);
      PadStart(d, 5, '0')
    else PadStart(d, 5, '0')
  }

  function InvoiceNumber(year: nat, n: nat): string {
    "CAF-" + Decimal(year) + "-" + Padded(n)
  }

  /** The suffix is at least five characters and always ends with all of `n`'s digits. */
  lemma PaddedShape(n: nat)
    ensures |Padded(n)| == if |Decimal(n)| < 5 then 5 else |Decimal(n)|
    ensures Padded(n)[|Padded(n)| - |Decimal(n)|..] == Decimal(n)
    ensures n < 100000 ==> |Padded(n)| == 5
    ensures n >= 100000 ==> Padded(n) == Decimal(n)
  {
    var d := Decimal(n);
    DecimalLength(n, 5);
    assert Pow10(5) == 100000;
    if |d| < 5 {
      var z := Repeat('0', 5 - |d|);
      assert Padded(n) == z + d;
      assert (z + d)[|z|..] == d;
    }
  }

  function Pow10(k: nat): (p: nat)
    ensures p >= 1
  {
    if k == 0 then 1 else 10 * Pow10(k - 1)
  }

  /** `n` has more than k digits exactly when it is at least 10^k. */
  lemma {:induction false} DecimalLength(n: nat, k: nat)
    ensures n >= Pow10(k) ==> |Decimal(n)| > k
    ensures n < Pow10(k) && k >= 1 ==> |Decimal(n)| <= k
  {
    if k >= 1 {
      var p := Pow10(k - 1);
      assert Pow10(k) == 10 * p;
      if n >= 10 {
        var q := n / 10;
        assert n == 10 * q + n % 10;
        assert |Decimal(n)| == |Decimal(q)| + 1;
        DecimalLength(q, k - 1);
      }
    }
  }

  /** The index of the first '-' in `s`, or |s| when there is none. */
  function DashIndex(s: string): (k: nat)
    ensures k <= |s|
    ensures k < |s| ==> s[k] == '-'
    ensures forall i :: 0 <= i < k ==> s[i] != '-'
  {
    if s == [] then 0 else if s[0] == '-' then 0 else 1 + DashIndex(s[1..])
  }

  lemma {:induction false} DashIndexAfterDigits(d: string, rest: string)
    requires AllDigits(d)
    ensures DashIndex(d + "-" + rest) == |d|
  {
    if d != [] {
      assert (d + "-" + rest)[1..] == d[1..] + "-" + rest;
      DashIndexAfterDigits(d[1..], rest);
    }
  }

  predicate IsDigits(s: string)
    ensures IsDigits(s) ==> AllDigits(s)
  {
    forall i | 0 <= i < |s| :: IsDigit(s[i])
  }

  /** Reads `CAF-<year>-<number>` back into its year and counter value. */
  function ParseInvoiceNumber(s: string): Option<(nat, nat)> {
    if |s| < 4 || s[..4] != "CAF-" then None
    else
      var rest := s[4..];
      var k := DashIndex(rest);
      if k == |rest| then None
      else
        var y, n := rest[..k], rest[k + 1..];
        if y == [] || n == [] || !IsDigits(y) || !IsDigits(n) then None
        else Some((DigitsValue(y), DigitsValue(n)))
  }

  /** Formatting then parsing an invoice number gives back the year and the counter value. */
  lemma InvoiceRoundTrip(year: nat, n: nat)
    ensures ParseInvoiceNumber(InvoiceNumber(year, n)) == Some((year, n))
  {
    var s := InvoiceNumber(year, n);
    var d, p := Decimal(year), Padded(n);
    assert s[..4] == "CAF-";
    var rest := s[4..];
    assert rest == d + "-" + p;
    DashIndexAfterDigits(d, p);
    assert rest[..|d|] == d;
    assert rest[|d| + 1..] == p;
    DecimalRoundTrip(year);
    DecimalRoundTrip(n);
    var dn := Decimal(n);
    if |dn| < 5 { LeadingZeros(5 - |dn|, dn); }
  }

  /** Distinct (year, counter) pairs never share an invoice number. */
  lemma InvoiceNumberInjective(y1: nat, n1: nat, y2: nat, n2: nat)
    ensures (y1, n1) != (y2, n2) ==> InvoiceNumber(y1, n1) != InvoiceNumber(y2, n2)
  {
    InvoiceRoundTrip(y1, n1);
    InvoiceRoundTrip(y2, n2);
  }

  // ---------------------------------------------------------------------
  // The per-year counter (backend/models/InvoiceCounter.js) and save hook
  // ---------------------------------------------------------------------

  /** The `lastNumber` of a year; a year without a counter reads as 0. */
  function LastNumber(counters: map<nat, nat>, year: nat): nat {
    if year in counters then counters[year] else 0
  }

  /** One numbering: the year's counter (created at 0 if missing) goes up by one. */
  function Advance(counters: map<nat, nat>, year: nat): (r: map<nat, nat>)
    ensures year in r && r[year] == LastNumber(counters, year) + 1
    ensures forall y :: y != year ==> LastNumber(r, y) == LastNumber(counters, y)
  {
    counters[year := LastNumber(counters, year) + 1]
  }

  /** The counters after numbering one bill per entry of `years`, in order. */
  function AdvanceAll(counters: map<nat, nat>, years: seq<nat>): map<nat, nat> {
    if years == [] then counters else Advance(AdvanceAll(counters, years[..|years| - 1]), years[|years| - 1])
  }

  /** The counter values handed out to those bills, in order. */
  function Numbering(counters: map<nat, nat>, years: seq<nat>): (r: seq<nat>)
    ensures |r| == |years|
  {
    if years == [] then []
    else
      var y := years[|years| - 1];
      Numbering(counters, years[..|years| - 1]) + [LastNumber(AdvanceAll(counters, years[..|years| - 1]), y) + 1]
  }

  lemma {:induction false} AdvanceAllCounts(counters: map<nat, nat>, years: seq<nat>, y: nat)
    ensures LastNumber(AdvanceAll(counters, years), y) == LastNumber(counters, y) + multiset(years)[y]
  {
    if years != [] {
      var init := years[..|years| - 1];
      assert years == init + [years[|years| - 1]];
      AdvanceAllCounts(counters, init, y);
    }
  }

  /**
   * Numbered one after another, the bill at position i gets the counter value
   * base + k, where k counts the bills of its year up to and including it:
   * the k-th bill of a year whose counter started at 0 gets number k.
   */
  lemma {:induction false} NumberingAt(counters: map<nat, nat>, years: seq<nat>, i: nat)
    requires i < |years|
    ensures Numbering(counters, years)[i] == LastNumber(counters, years[i]) + multiset(years[..i + 1])[years[i]]
  {
    var init := years[..|years| - 1];
    if i == |years| - 1 {
      AdvanceAllCounts(counters, init, years[i]);
      assert years[..i + 1] == init + [years[i]];
    } else {
      NumberingAt(counters, init, i);
      assert init[..i + 1] == years[..i + 1];
    }
  }

  /** Bills numbered one after another never share an invoice number. */
  lemma NumberingDistinct(counters: map<nat, nat>, years: seq<nat>, i: nat, j: nat)
    requires i < j < |years|
    ensures InvoiceNumber(years[i], Numbering(counters, years)[i])
            != InvoiceNumber(years[j], Numbering(counters, years)[j])
  {
    var numbers := Numbering(counters, years);
    if years[i] == years[j] {
      NumberingAt(counters, years, i);
      NumberingAt(counters, years, j);
      PrefixCountGrows(years, i, j);
      assert numbers[i] < numbers[j];
    }
    InvoiceNumberInjective(years[i], numbers[i], years[j], numbers[j]);
  }

  /** A later bill of the same year has counted more bills of that year. */
  lemma PrefixCountGrows(years: seq<nat>, i: nat, j: nat)
    requires i < j < |years| && years[i] == years[j]
    ensures multiset(years[..i + 1])[years[i]] < multiset(years[..j + 1])[years[j]]
  {
    assert years[..j + 1] == years[..i + 1] + years[i + 1..j] + [years[j]];
  }

  /** The stored invoice counters, one per year. */
  class InvoiceCounters {
    var lastNumber: map<nat, nat>

    constructor ()
      ensures lastNumber == map[]
    {
      lastNumber := map[];
    }

    /**
     * The `pre("save")` hook: a bill that already carries an invoice number
     * keeps it and leaves the counters alone; otherwise the current year's
     * counter is created if needed, advanced by one, and formatted.
     */
    method NumberOnSave(existing: Option<string>, year: nat) returns (invoice: string)
      modifies this
      ensures Truthy(existing) ==> invoice == existing.value && lastNumber == old(lastNumber)
      ensures !Truthy(existing) ==> lastNumber == Advance(old(lastNumber), year)
      ensures !Truthy(existing) ==> invoice == InvoiceNumber(year, lastNumber[year])
    {
      if Truthy(existing) {
        return existing.value;
      }
      if year !in lastNumber {
        lastNumber := lastNumber[year := 0];
      }
      lastNumber := lastNumber[year := lastNumber[year] + 1];
      invoice := InvoiceNumber(year, lastNumber[year]);
    }
  }
}
