/** Bill generation and payment: the totals and the day-scoped id that
    generateBill computes from the cart, and the cash / UPI outcomes that
    completePayment attaches. */
module Billing {
  import opened Records
  import opened Text
  import opened Ledger
  import Cart

  /** `now.toISOString().split('T')[0].replace(/-/g, '')`: yyyymmdd. */
  function CompactDate(now: string): string {
    WithoutDashes(DatePart(now))
  }

  /** "BILL-" + dateStr: the prefix every id of that day starts with. */
  function DayPrefix(dateStr: string): string {
    "BILL-" + dateStr
  }

  /** 1 + the number of logged bills whose id starts with the day's prefix. */
  function BillNumber(bills: seq<Bill>, dateStr: string): nat {
    |Select(bills, IdStartsWith(DayPrefix(dateStr)))| + 1
  }

  /** `BILL-${dateStr}-${n.toString().padStart(3, '0')}` */
  function BillId(dateStr: string, n: nat): string {
    DayPrefix(dateStr) + "-" + PadStart(Decimal(n), 3, '0')
  }

  /** Subtotal, tax and total agree with the items the bill carries. */
  predicate Balanced(b: Bill) {
    b.subtotal == Subtotal(b.items) && b.total == b.subtotal + b.tax
  }

  /** generateBill: refuses an empty cart; otherwise a pending bill holding a
      copy of the cart, its totals at the current tax rate, and the next id of
      the day. */
  function GenerateBill(cart: seq<CartLine>, settings: Settings, bills: seq<Bill>, now: string): Result<Bill> {
    if cart == [] then Err(EmptyCart)
    else
      var subtotal := Subtotal(cart);
      var tax := Cart.TaxOn(subtotal, settings.taxPercentage);
      var dateStr := CompactDate(now);
      Ok(Bill(BillId(dateStr, BillNumber(bills, dateStr)), now, cart, subtotal, tax, subtotal + tax,
              None, None, Pending, None))
  }

  /** completePayment on the current bill. Cash is refused when the amount is
      missing (NaN), zero, or below the total; UPI uses the typed id or, when
      that is blank, the shop's default id. */
  function CompletePayment(bill: Bill, via: PaymentMethod, cashInput: Option<real>, upiInput: string,
                           settings: Settings, now: string): Result<Bill>
  {
    match via
    case Cash =>
      if cashInput.None? || cashInput.value == 0.0 || cashInput.value < bill.total then Err(InsufficientCash)
      else
        var cash := cashInput.value;
        Ok(bill.(paymentMethod := Some(Cash),
                 paymentDetails := Some(CashDetails(cash, cash - bill.total)),
                 paymentStatus := Completed,
                 completedAt := Some(now)))
    case Upi =>
      var typed := Trim(upiInput);
      var upiId := if typed != "" then typed else settings.defaultUpiId;
      Ok(bill.(paymentMethod := Some(Upi),
               paymentDetails := Some(UpiDetails(upiId)),
               paymentStatus := Completed,
               completedAt := Some(now)))
  }

  // ---- generation ----

  /** An empty cart leaves nothing to bill. Otherwise the bill is pending,
      carries the cart as its items, is balanced, charges the tax rate on the
      subtotal, is stamped with `now`, and its id is that day's next number. */
  lemma GenerateBillEffect(cart: seq<CartLine>, settings: Settings, bills: seq<Bill>, now: string)
    ensures GenerateBill(cart, settings, bills, now).Err? <==> cart == []
    ensures cart == [] ==> GenerateBill(cart, settings, bills, now) == Err(EmptyCart)
    ensures cart != [] ==>
      var b := GenerateBill(cart, settings, bills, now).value;
      b.items == cart && Balanced(b) && b.paymentStatus == Pending && b.paymentMethod == None &&
      b.tax * 100.0 == b.subtotal * settings.taxPercentage && b.date == now &&
      b.id == BillId(CompactDate(now), BillNumber(bills, CompactDate(now)))
  {
  }

  lemma StartsWithConcat(a: string, b: string)
    ensures StartsWith(a + b, a)
  {
    assert (a + b)[..|a|] == a;
  }

  /** Every id of a day starts with that day's prefix. */
  lemma BillIdHasDayPrefix(dateStr: string, n: nat)
    ensures StartsWith(BillId(dateStr, n), DayPrefix(dateStr))
  {
    var suffix := "-" + PadStart(Decimal(n), 3, '0');
    assert BillId(dateStr, n) == DayPrefix(dateStr) + suffix;
    StartsWithConcat(DayPrefix(dateStr), suffix);
  }

  /** Logging a bill of the same day raises that day's next number by one;
      a bill of another prefix leaves it alone. */
  lemma BillNumberAfterLogging(b: Bill, bills: seq<Bill>, dateStr: string)
    ensures StartsWith(b.id, DayPrefix(dateStr)) ==> BillNumber([b] + bills, dateStr) == BillNumber(bills, dateStr) + 1
    ensures !StartsWith(b.id, DayPrefix(dateStr)) ==> BillNumber([b] + bills, dateStr) == BillNumber(bills, dateStr)
  {
    assert ([b] + bills)[1..] == bills;
  }

  /** Two bills generated back to back on one day, the first completed and
      logged in between, get consecutive numbers. */
  lemma ConsecutiveBillIds(first: seq<CartLine>, second: seq<CartLine>, settings: Settings,
                           bills: seq<Bill>, now1: string, now2: string, logged: Bill)
    requires first != [] && second != []
    requires CompactDate(now1) == CompactDate(now2)
    requires logged.id == GenerateBill(first, settings, bills, now1).value.id
    ensures var d := CompactDate(now1);
      var n := BillNumber(bills, d);
      GenerateBill(first, settings, bills, now1).value.id == BillId(d, n) &&
      GenerateBill(second, settings, [logged] + bills, now2).value.id == BillId(d, n + 1)
  {
    var d := CompactDate(now1);
    GenerateBillEffect(first, settings, bills, now1);
    GenerateBillEffect(second, settings, [logged] + bills, now2);
    BillIdHasDayPrefix(d, BillNumber(bills, d));
    BillNumberAfterLogging(logged, bills, d);
  }

  /** Numbering restarts at 001 on a day with no logged bill. */
  lemma FirstBillOfDay(bills: seq<Bill>, dateStr: string)
    requires forall b :: b in bills ==> !StartsWith(b.id, DayPrefix(dateStr))
    ensures BillNumber(bills, dateStr) == 1
    ensures BillId(dateStr, BillNumber(bills, dateStr)) == "BILL-" + dateStr + "-001"
  {
    SelectNone(bills, IdStartsWith(DayPrefix(dateStr)));
    FirstId(dateStr);
  }

  /** Number 1 of a day is written with suffix "001". */
  lemma FirstId(dateStr: string)
    ensures BillId(dateStr, 1) == "BILL-" + dateStr + "-001"
  {
    assert Decimal(1) == "1";
    assert PadStart("1", 3, '0') == PadStart("01", 3, '0') == "001";
  }

  /** Different numbers of one day never give the same id. */
  lemma BillIdInjective(dateStr: string, m: nat, n: nat)
    requires BillId(dateStr, m) == BillId(dateStr, n)
    ensures m == n
  {
    var k := |DayPrefix(dateStr) + "-"|;
    var pm := PadStart(Decimal(m), 3, '0');
    var pn := PadStart(Decimal(n), 3, '0');
    assert BillId(dateStr, m)[k..] == pm;
    assert BillId(dateStr, n)[k..] == pn;
    PaddedDecimalValue(m, 3);
    PaddedDecimalValue(n, 3);
  }

  // ---- payment ----

  /** Cash: refused exactly when the amount is missing, zero or short of the
      total; accepted, the change is the excess over the total and is never
      negative. UPI is always accepted. */
  lemma CashPaymentRule(bill: Bill, cashInput: Option<real>, upiInput: string, settings: Settings, now: string)
    ensures var r := CompletePayment(bill, Cash, cashInput, upiInput, settings, now);
      (r.Err? <==> cashInput.None? || cashInput.value == 0.0 || cashInput.value < bill.total) &&
      (r.Err? ==> r.error == InsufficientCash) &&
      (r.Ok? ==> r.value.paymentDetails.value.changeGiven >= 0.0 &&
                 r.value.paymentDetails.value.cashReceived == cashInput.value &&
                 r.value.paymentDetails.value.cashReceived == r.value.total + r.value.paymentDetails.value.changeGiven)
    ensures CompletePayment(bill, Upi, cashInput, upiInput, settings, now).Ok?
  {
  }

  /** The UPI id recorded is the typed one, trimmed, or the default when the
      typed one is blank. */
  lemma UpiFallback(bill: Bill, cashInput: Option<real>, upiInput: string, settings: Settings, now: string)
    ensures var d := CompletePayment(bill, Upi, cashInput, upiInput, settings, now).value.paymentDetails.value;
      d.UpiDetails? &&
      (Trim(upiInput) == "" ==> d.upiId == settings.defaultUpiId) &&
      (Trim(upiInput) != "" ==> d.upiId == Trim(upiInput))
  {
  }

  /** A successful payment marks the bill completed at `now` with the method
      used and touches nothing else: id, date, items and totals are kept, so a
      balanced bill stays balanced and its id still counts for its day. */
  lemma PaymentKeepsBill(bill: Bill, via: PaymentMethod, cashInput: Option<real>, upiInput: string,
                         settings: Settings, now: string)
    requires CompletePayment(bill, via, cashInput, upiInput, settings, now).Ok?
    ensures var p := CompletePayment(bill, via, cashInput, upiInput, settings, now).value;
      p.paymentStatus == Completed && p.paymentMethod == Some(via) && p.completedAt == Some(now) &&
      p.paymentDetails.Some? && (via == Cash <==> p.paymentDetails.value.CashDetails?) &&
      p.id == bill.id && p.date == bill.date && p.items == bill.items &&
      p.subtotal == bill.subtotal && p.tax == bill.tax && p.total == bill.total &&
      (Balanced(bill) ==> Balanced(p))
  {
  }

  // ---- the worked example: Idly 30 x 2 and Vada 25 x 1 at 5% tax ----

  function ExampleCart(): seq<CartLine> {
    [CartLine(MenuItem("idly", "Idly", "\U{B87}\U{B9F}\U{BCD}\U{BB2}\U{BBF}", 30.0, "idly.jpg"), 2),
     CartLine(MenuItem("vada", "Vada", "\U{BB5}\U{B9F}\U{BC8}", 25.0, "vada.jpg"), 1)]
  }

  /** Subtotal 85, tax 4.25, total 89.25; 100 in cash gives 10.75 change and
      80 in cash is refused. */
  lemma WorkedExample(bills: seq<Bill>, now: string)
    ensures var r := GenerateBill(ExampleCart(), DefaultSettings(), bills, now);
      r.Ok? && r.value.subtotal == 85.0 && r.value.tax == 4.25 && r.value.total == 89.25 &&
      CompletePayment(r.value, Cash, Some(100.0), "", DefaultSettings(), now).value.paymentDetails.value.changeGiven == 10.75 &&
      CompletePayment(r.value, Cash, Some(80.0), "", DefaultSettings(), now) == Err(InsufficientCash)
  {
    var c := ExampleCart();
    assert Subtotal(c) == 60.0 + Subtotal(c[1..]);
    assert Subtotal(c[1..]) == 25.0 + Subtotal(c[2..]);
  }
}
