/** The bill history screen: the filter chain behind the list, the counts
    behind the payment chart, and the reset of today's bills. */
module History {
  import opened Records
  import opened Text
  import opened Ledger

  /** The payment-method select: 'all', 'cash' or 'upi'. */
  datatype MethodFilter = AnyMethod | OnlyMethod(via: PaymentMethod)

  /** The values of the filter inputs (an empty date means unset). */
  datatype BillFilter = BillFilter(startDate: string, endDate: string, payment: MethodFilter, search: string)

  /** filterBills: the date range only when both dates are set, then the
      method unless it is 'all', then the lowercased search term when it is
      not empty. */
  function FilterBills(bills: seq<Bill>, f: BillFilter): seq<Bill> {
    var byDate := if f.startDate != "" && f.endDate != "" then Select(bills, DayBetween(f.startDate, f.endDate)) else bills;
    var byMethod := if f.payment.OnlyMethod? then Select(byDate, PaidBy(f.payment.via)) else byDate;
    var term := Lower(f.search);
    if term != "" then Select(byMethod, IdMentions(term)) else byMethod
  }

  /** What a listed bill satisfies, stated on its own fields. */
  predicate Listed(f: BillFilter, b: Bill) {
    (f.startDate != "" && f.endDate != "" ==>
       AtMost(f.startDate, DatePart(b.date)) && AtMost(DatePart(b.date), f.endDate)) &&
    (f.payment.OnlyMethod? ==> b.paymentMethod == Some(f.payment.via)) &&
    Includes(Lower(b.id), Lower(f.search))
  }

  /** The criteria the filter chain applies, in order. */
  function Criteria(f: BillFilter): seq<Criterion> {
    (if f.startDate != "" && f.endDate != "" then [DayBetween(f.startDate, f.endDate)] else []) +
    (if f.payment.OnlyMethod? then [PaidBy(f.payment.via)] else []) +
    (if Lower(f.search) != "" then [IdMentions(Lower(f.search))] else [])
  }

  lemma HoldsAllConcat(a: seq<Criterion>, c: seq<Criterion>, b: Bill)
    ensures HoldsAll(a + c, b) <==> HoldsAll(a, b) && HoldsAll(c, b)
  {
    if HoldsAll(a, b) && HoldsAll(c, b) {
      forall i | 0 <= i < |a + c|
        ensures Holds((a + c)[i], b)
      {
        if i >= |a| {
          assert (a + c)[i] == c[i - |a|];
        }
      }
    }
    if HoldsAll(a + c, b) {
      forall i | 0 <= i < |a|
        ensures Holds(a[i], b)
      {
        assert (a + c)[i] == a[i];
      }
      forall i | 0 <= i < |c|
        ensures Holds(c[i], b)
      {
        assert (a + c)[|a| + i] == c[i];
      }
    }
  }

  lemma CriteriaMeaning(f: BillFilter, b: Bill)
    ensures HoldsAll(Criteria(f), b) <==> Listed(f, b)
  {
    var c1: seq<Criterion> := if f.startDate != "" && f.endDate != "" then [DayBetween(f.startDate, f.endDate)] else [];
    var c2: seq<Criterion> := if f.payment.OnlyMethod? then [PaidBy(f.payment.via)] else [];
    var c3: seq<Criterion> := if Lower(f.search) != "" then [IdMentions(Lower(f.search))] else [];
    assert Criteria(f) == c1 + c2 + c3;
    HoldsAllConcat(c1, c2, b);
    HoldsAllConcat(c1 + c2, c3, b);
    assert c1 != [] ==> (HoldsAll(c1, b) <==> Holds(c1[0], b));
    assert c2 != [] ==> (HoldsAll(c2, b) <==> Holds(c2[0], b));
    assert c3 != [] ==> (HoldsAll(c3, b) <==> Holds(c3[0], b));
    assert Lower(f.search) == [] ==> StartsWith(Lower(b.id), Lower(f.search));
  }

  /** The filter chain is one order-preserving pass that keeps exactly the
      bills meeting every active condition; with no condition set it keeps
      the whole log. */
  lemma FilterBillsMeaning(bills: seq<Bill>, f: BillFilter)
    ensures FilterBills(bills, f) == SelectEvery(bills, Criteria(f))
    ensures forall b :: b in FilterBills(bills, f) <==> b in bills && Listed(f, b)
    ensures IsSubsequence(FilterBills(bills, f), bills)
    ensures f.startDate == "" && f.payment == AnyMethod && f.search == "" ==> FilterBills(bills, f) == bills
  {
    var c1: seq<Criterion> := if f.startDate != "" && f.endDate != "" then [DayBetween(f.startDate, f.endDate)] else [];
    var c2: seq<Criterion> := if f.payment.OnlyMethod? then [PaidBy(f.payment.via)] else [];
    var c3: seq<Criterion> := if Lower(f.search) != "" then [IdMentions(Lower(f.search))] else [];
    SelectEveryNothing(bills);
    var byDate := if f.startDate != "" && f.endDate != "" then Select(bills, DayBetween(f.startDate, f.endDate)) else bills;
    if c1 != [] {
      SelectAfterSelectEvery(bills, [], c1[0]);
      assert [] + [c1[0]] == c1;
    }
    assert byDate == SelectEvery(bills, c1);
    var byMethod := if f.payment.OnlyMethod? then Select(byDate, PaidBy(f.payment.via)) else byDate;
    if c2 != [] {
      SelectAfterSelectEvery(bills, c1, c2[0]);
      assert c1 + [c2[0]] == c1 + c2;
    } else {
      assert c1 + c2 == c1;
    }
    assert byMethod == SelectEvery(bills, c1 + c2);
    if c3 != [] {
      SelectAfterSelectEvery(bills, c1 + c2, c3[0]);
      assert (c1 + c2) + [c3[0]] == c1 + c2 + c3;
    } else {
      assert c1 + c2 + c3 == c1 + c2;
    }
    assert Criteria(f) == c1 + c2 + c3;
    SelectEveryMeaning(bills, Criteria(f));
    forall b | b in bills
      ensures HoldsAll(Criteria(f), b) <==> Listed(f, b)
    {
      CriteriaMeaning(f, b);
    }
  }

  // ---- payment chart ----

  /** updatePaymentChart's counts: UPI bills, cash bills, all bills. */
  datatype PaymentCounts = PaymentCounts(upi: nat, cash: nat, total: nat)

  function CountPayments(bills: seq<Bill>): PaymentCounts {
    PaymentCounts(|Select(bills, PaidBy(Upi))|, |Select(bills, PaidBy(Cash))|, |bills|)
  }

  /** Each bill is counted at most once, so the two slices never exceed the
      whole; when every bill has a method they are the whole. */
  lemma {:induction false} PaymentCountsCover(bills: seq<Bill>)
    ensures CountPayments(bills).upi + CountPayments(bills).cash <= CountPayments(bills).total
    ensures (forall b :: b in bills ==> b.paymentMethod.Some?) ==>
              CountPayments(bills).upi + CountPayments(bills).cash == CountPayments(bills).total
  {
    if bills != [] {
      assert forall b :: b in bills[1..] ==> b in bills;
      PaymentCountsCover(bills[1..]);
      PaymentCountsStep(bills);
    }
  }

  /** The first bill is counted on at most one side, and on one exactly when
      it has a method. */
  lemma PaymentCountsStep(bills: seq<Bill>)
    requires bills != []
    ensures var du := |Select(bills, PaidBy(Upi))| - |Select(bills[1..], PaidBy(Upi))|;
      var dc := |Select(bills, PaidBy(Cash))| - |Select(bills[1..], PaidBy(Cash))|;
      0 <= du && 0 <= dc && du + dc <= 1 && (bills[0].paymentMethod.Some? ==> du + dc == 1)
  {
    SelectFirst(bills, PaidBy(Upi));
    SelectFirst(bills, PaidBy(Cash));
    if bills[0].paymentMethod.Some? {
      var m := bills[0].paymentMethod.value;
      assert m == Upi || m == Cash;
    }
  }

  // ---- reset today ----

  /** resetData('today'): keep the bills whose date does not start with today. */
  function ResetToday(bills: seq<Bill>, today: string): seq<Bill> {
    Select(bills, NotDatedWithin(today))
  }

  /** Reset keeps, in order, exactly the bills not dated today; none of them
      is on today's date any more; and what was dropped plus what was kept is
      the whole log, by count and by sales. */
  lemma ResetTodayEffect(bills: seq<Bill>, today: string)
    ensures forall b :: b in ResetToday(bills, today) <==> b in bills && !StartsWith(b.date, today)
    ensures IsSubsequence(ResetToday(bills, today), bills)
    ensures Select(ResetToday(bills, today), OnDay(today)) == []
    ensures |ResetToday(bills, today)| + |Select(bills, DatedWithin(today))| == |bills|
    ensures SalesTotal(ResetToday(bills, today)) + SalesTotal(Select(bills, DatedWithin(today))) == SalesTotal(bills)
  {
    var kept := ResetToday(bills, today);
    SelectMeaning(bills, NotDatedWithin(today));
    forall b | b in kept
      ensures !Holds(OnDay(today), b)
    {
      DatePartShape(b.date);
    }
    SelectNone(kept, OnDay(today));
    DatedSplit(bills, today);
  }

  /** The dashboard's today slice lies inside its month slice when today is
      in that month. */
  lemma TodayWithinMonth(bills: seq<Bill>, today: string, currentMonth: string)
    requires StartsWith(today, currentMonth)
    ensures |Select(bills, OnDay(today))| <= |Select(bills, DatedWithin(currentMonth))|
    ensures (forall b :: b in bills ==> b.total >= 0.0) ==>
              SalesTotal(Select(bills, OnDay(today))) <= SalesTotal(Select(bills, DatedWithin(currentMonth)))
  {
    forall b | Holds(OnDay(today), b)
      ensures Holds(DatedWithin(currentMonth), b)
    {
      DatePartShape(b.date);
      StartsWithTransitive(b.date, today, currentMonth);
    }
    SelectImplied(bills, OnDay(today), DatedWithin(currentMonth));
  }

  /** The dashboard takes today from the UTC date but the month from the
      local one, so today need not lie in that month. When it does not, a
      bill of today counts towards today's figures and not the month's. */
  lemma TodayOutsideMonth(b: Bill, today: string, currentMonth: string)
    requires DatePart(b.date) == today
    requires |currentMonth| <= |today| && !StartsWith(today, currentMonth)
    ensures Select([b], OnDay(today)) == [b]
    ensures Select([b], DatedWithin(currentMonth)) == []
    ensures SalesTotal(Select([b], OnDay(today))) == b.total
  {
    DatePartShape(b.date);
    assert b.date[..|currentMonth|] == today[..|currentMonth|];
    SelectFirst([b], OnDay(today));
    SelectFirst([b], DatedWithin(currentMonth));
    SalesTotalCons(b, []);
  }

  /** The dates of the example below: the UTC date of the bill is 31
      January and the local month is February. */
  lemma BoundaryDates()
    ensures DatePart("2024-01-31T21:30:00.000Z") == "2024-01-31"
    ensures |"2024-02"| <= |"2024-01-31"| && !StartsWith("2024-01-31", "2024-02")
  {
    assert "2024-01-31T21:30:00.000Z" == "2024-01-31" + "T" + "21:30:00.000Z";
    DatePartOfStamp("2024-01-31", "21:30:00.000Z");
    assert "2024-01-31"[..7][6] != "2024-02"[6];
  }

  /** At UTC+5:30 shortly after midnight on 1 February the UTC date is still
      31 January: a bill generated then is one of today's bills and is
      missing from the month of February. */
  lemma MonthBoundaryExample(b: Bill)
    requires b.date == "2024-01-31T21:30:00.000Z" && b.total > 0.0
    ensures |Select([b], OnDay("2024-01-31"))| == 1
    ensures |Select([b], DatedWithin("2024-02"))| == 0
    ensures SalesTotal(Select([b], OnDay("2024-01-31"))) > SalesTotal(Select([b], DatedWithin("2024-02")))
  {
    BoundaryDates();
    TodayOutsideMonth(b, "2024-01-31", "2024-02");
  }
}
