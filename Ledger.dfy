/** Queries over the bill log. Every place the app narrows `state.bills` with
    `filter` (the history filters, the dashboard's today and month partitions,
    the reset of today's bills, the count behind bill numbering) is one
    `Select` with the criterion that place tests. */
module Ledger {
  import opened Records
  import opened Text

  datatype Criterion =
    | DayBetween(start: string, end: string)   // start <= date part <= end
    | PaidBy(via: PaymentMethod)               // bill.paymentMethod === method
    | IdMentions(term: string)                 // bill.id.toLowerCase().includes(term)
    | OnDay(day: string)                       // bill.date.split('T')[0] === day
    | DatedWithin(prefix: string)              // bill.date.startsWith(prefix)
    | NotDatedWithin(prefix: string)           // !bill.date.startsWith(prefix)
    | IdStartsWith(prefix: string)             // bill.id.startsWith(prefix)

  predicate Holds(c: Criterion, b: Bill) {
    match c
    case DayBetween(start, end) => AtMost(start, DatePart(b.date)) && AtMost(DatePart(b.date), end)
    case PaidBy(m) => b.paymentMethod == Some(m)
    case IdMentions(term) => Includes(Lower(b.id), term)
    case OnDay(day) => DatePart(b.date) == day
    case DatedWithin(prefix) => StartsWith(b.date, prefix)
    case NotDatedWithin(prefix) => !StartsWith(b.date, prefix)
    case IdStartsWith(prefix) => StartsWith(b.id, prefix)
  }

  /** `bills.filter(b => Holds(c, b))` */
  function Select(bills: seq<Bill>, c: Criterion): (r: seq<Bill>)
    ensures |r| <= |bills|
  {
    if bills == [] then []
    else (if Holds(c, bills[0]) then [bills[0]] else []) + Select(bills[1..], c)
  }

  /** Select keeps exactly the bills the criterion accepts, in their order. */
  lemma {:induction false} SelectMeaning(bills: seq<Bill>, c: Criterion)
    ensures forall b :: b in Select(bills, c) <==> b in bills && Holds(c, b)
    ensures IsSubsequence(Select(bills, c), bills)
  {
    if bills != [] {
      SelectMeaning(bills[1..], c);
      var rest := Select(bills[1..], c);
      if Holds(c, bills[0]) {
        assert ([bills[0]] + rest)[1..] == rest;
      } else {
        assert [] + rest == rest;
      }
      assert bills == [bills[0]] + bills[1..];
    }
  }

  /** One step of the filter: the first bill, if accepted, then the rest filtered. */
  lemma SelectFirst(bills: seq<Bill>, c: Criterion)
    requires bills != []
    ensures Select(bills, c) == (if Holds(c, bills[0]) then [bills[0]] else []) + Select(bills[1..], c)
  {
  }

  /** Filtering a concatenation filters each part. */
  lemma {:induction false} SelectAppend(a: seq<Bill>, b: seq<Bill>, c: Criterion)
    ensures Select(a + b, c) == Select(a, c) + Select(b, c)
  {
    if a == [] {
      assert a + b == b;
    } else {
      SelectAppend(a[1..], b, c);
      SelectAppendStep(a, b, c);
      ConcatAssoc(if Holds(c, a[0]) then [a[0]] else [], Select(a[1..], c), Select(b, c));
    }
  }

  lemma ConcatAssoc(x: seq<Bill>, y: seq<Bill>, z: seq<Bill>)
    ensures x + (y + z) == (x + y) + z
  {
  }

  /** The first bill of a non-empty front part is filtered first. */
  lemma SelectAppendStep(a: seq<Bill>, b: seq<Bill>, c: Criterion)
    requires a != []
    ensures Select(a + b, c) == (if Holds(c, a[0]) then [a[0]] else []) + Select(a[1..] + b, c)
    ensures Select(a, c) == (if Holds(c, a[0]) then [a[0]] else []) + Select(a[1..], c)
  {
    assert (a + b)[0] == a[0];
    assert (a + b)[1..] == a[1..] + b;
    SelectFirst(a + b, c);
    SelectFirst(a, c);
  }

  /** No bill accepted: the result is empty. */
  lemma {:induction false} SelectNone(bills: seq<Bill>, c: Criterion)
    requires forall b :: b in bills ==> !Holds(c, b)
    ensures Select(bills, c) == []
  {
    if bills != [] {
      assert forall b :: b in bills[1..] ==> b in bills;
      SelectNone(bills[1..], c);
    }
  }

  /** Each bill accepted by c is also accepted by d: c keeps no more bills
      than d, and (totals being non-negative) no more sales. */
  lemma {:induction false} SelectImplied(bills: seq<Bill>, c: Criterion, d: Criterion)
    requires forall b :: Holds(c, b) ==> Holds(d, b)
    ensures |Select(bills, c)| <= |Select(bills, d)|
    ensures (forall b :: b in bills ==> b.total >= 0.0) ==> SalesTotal(Select(bills, c)) <= SalesTotal(Select(bills, d))
  {
    if bills != [] {
      assert forall b :: b in bills[1..] ==> b in bills;
      SelectImplied(bills[1..], c, d);
      SelectImpliedStep(bills, c, d);
    }
  }

  /** The first bill adds no more to c's side than to d's. */
  lemma SelectImpliedStep(bills: seq<Bill>, c: Criterion, d: Criterion)
    requires bills != []
    requires Holds(c, bills[0]) ==> Holds(d, bills[0])
    ensures |Select(bills, c)| - |Select(bills[1..], c)| <= |Select(bills, d)| - |Select(bills[1..], d)|
    ensures bills[0].total >= 0.0 ==>
      SalesTotal(Select(bills, c)) - SalesTotal(Select(bills[1..], c)) <=
      SalesTotal(Select(bills, d)) - SalesTotal(Select(bills[1..], d))
  {
    var b := bills[0];
    var rc := Select(bills[1..], c);
    var rd := Select(bills[1..], d);
    SelectFirst(bills, c);
    SelectFirst(bills, d);
    SalesTotalCons(b, rc);
    SalesTotalCons(b, rd);
    if Holds(c, b) {
      assert Select(bills, c) == [b] + rc && Select(bills, d) == [b] + rd;
    } else if Holds(d, b) {
      assert Select(bills, c) == rc && Select(bills, d) == [b] + rd;
    } else {
      assert Select(bills, c) == rc && Select(bills, d) == rd;
    }
  }

  /** The bills dated within a prefix and the others split the log: counts
      and sales add up to the whole. */
  lemma {:induction false} DatedSplit(bills: seq<Bill>, prefix: string)
    ensures |Select(bills, DatedWithin(prefix))| + |Select(bills, NotDatedWithin(prefix))| == |bills|
    ensures SalesTotal(Select(bills, DatedWithin(prefix))) + SalesTotal(Select(bills, NotDatedWithin(prefix))) == SalesTotal(bills)
  {
    if bills != [] {
      DatedSplit(bills[1..], prefix);
      DatedSplitStep(bills, prefix);
    }
  }

  /** The first bill goes to exactly one side of the split. */
  lemma DatedSplitStep(bills: seq<Bill>, prefix: string)
    requires bills != []
    ensures |Select(bills, DatedWithin(prefix))| + |Select(bills, NotDatedWithin(prefix))| ==
            1 + |Select(bills[1..], DatedWithin(prefix))| + |Select(bills[1..], NotDatedWithin(prefix))|
    ensures SalesTotal(Select(bills, DatedWithin(prefix))) + SalesTotal(Select(bills, NotDatedWithin(prefix))) ==
            bills[0].total + SalesTotal(Select(bills[1..], DatedWithin(prefix))) + SalesTotal(Select(bills[1..], NotDatedWithin(prefix)))
  {
    var b := bills[0];
    var rin := Select(bills[1..], DatedWithin(prefix));
    var rout := Select(bills[1..], NotDatedWithin(prefix));
    SelectFirst(bills, DatedWithin(prefix));
    SelectFirst(bills, NotDatedWithin(prefix));
    if Holds(DatedWithin(prefix), b) {
      SalesTotalCons(b, rin);
      assert Select(bills, DatedWithin(prefix)) == [b] + rin;
      assert Select(bills, NotDatedWithin(prefix)) == rout;
    } else {
      SalesTotalCons(b, rout);
      assert Select(bills, DatedWithin(prefix)) == rin;
      assert Select(bills, NotDatedWithin(prefix)) == [b] + rout;
    }
  }

  // ---- several criteria in one pass ----

  /** Every criterion of cs accepts b. */
  predicate HoldsAll(cs: seq<Criterion>, b: Bill) {
    forall i :: 0 <= i < |cs| ==> Holds(cs[i], b)
  }

  /** One pass over the log keeping the bills every criterion of cs accepts. */
  function SelectEvery(bills: seq<Bill>, cs: seq<Criterion>): (r: seq<Bill>)
    ensures |r| <= |bills|
  {
    if bills == [] then []
    else (if HoldsAll(cs, bills[0]) then [bills[0]] else []) + SelectEvery(bills[1..], cs)
  }

  lemma {:induction false} SelectEveryMeaning(bills: seq<Bill>, cs: seq<Criterion>)
    ensures forall b :: b in SelectEvery(bills, cs) <==> b in bills && HoldsAll(cs, b)
    ensures IsSubsequence(SelectEvery(bills, cs), bills)
  {
    if bills != [] {
      SelectEveryMeaning(bills[1..], cs);
      var rest := SelectEvery(bills[1..], cs);
      if HoldsAll(cs, bills[0]) {
        assert ([bills[0]] + rest)[1..] == rest;
      } else {
        assert [] + rest == rest;
      }
      assert bills == [bills[0]] + bills[1..];
    }
  }

  /** With no criterion nothing is dropped. */
  lemma {:induction false} SelectEveryNothing(bills: seq<Bill>)
    ensures SelectEvery(bills, []) == bills
  {
    if bills != [] {
      SelectEveryNothing(bills[1..]);
    }
  }

  /** Filtering a one-pass result once more is one pass with the extra
      criterion: a chain of `filter` calls is a single filter. */
  lemma {:induction false} SelectAfterSelectEvery(bills: seq<Bill>, cs: seq<Criterion>, c: Criterion)
    ensures Select(SelectEvery(bills, cs), c) == SelectEvery(bills, cs + [c])
  {
    if bills != [] {
      SelectAfterSelectEvery(bills[1..], cs, c);
      var b := bills[0];
      assert HoldsAll(cs + [c], b) <==> HoldsAll(cs, b) && Holds(c, b) by {
        assert forall i :: 0 <= i < |cs| ==> (cs + [c])[i] == cs[i];
        assert (cs + [c])[|cs|] == c;
      }
      var rest := SelectEvery(bills[1..], cs);
      if HoldsAll(cs, b) {
        assert ([b] + rest)[1..] == rest;
      } else {
        assert [] + rest == rest;
      }
    }
  }
}
