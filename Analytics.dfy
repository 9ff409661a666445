/** The dashboard figures and the per-day sales behind the bar chart:
    today's and this month's sales, the average bill, the best-selling item,
    and the sales of each day in date order. */
module Analytics {
  import opened Records
  import opened Text
  import opened Ledger

  // ---- accumulating quantities per item name ----

  /** `itemSales`: item names in the order they were first met, each with the
      quantity accumulated so far. */
  type Tally = seq<(string, int)>

  function Names(t: Tally): (r: seq<string>)
    ensures |r| == |t|
    ensures forall i :: 0 <= i < |t| ==> r[i] == t[i].0
  {
    seq(|t|, i requires 0 <= i < |t| => t[i].0)
  }

  function LineNames(lines: seq<CartLine>): (r: seq<string>)
    ensures |r| == |lines|
    ensures forall i :: 0 <= i < |lines| ==> r[i] == lines[i].item.english
  {
    seq(|lines|, i requires 0 <= i < |lines| => lines[i].item.english)
  }

  /** The lines of all bills, bill after bill, in the order they are visited. */
  function AllLines(bills: seq<Bill>): seq<CartLine> {
    if bills == [] then [] else AllLines(bills[..|bills| - 1]) + bills[|bills| - 1].items
  }

  /** Reference: the total quantity sold under a name over the lines. */
  function QtySold(lines: seq<CartLine>, name: string): int {
    if lines == [] then 0
    else
      var n := |lines| - 1;
      QtySold(lines[..n], name) + (if lines[n].item.english == name then lines[n].quantity else 0)
  }

  /** `itemSales[name] += qty`, the entry being created at 0 when missing. */
  function Bump(t: Tally, name: string, qty: int): Tally {
    var k := IndexOf(Names(t), name);
    if k == -1 then t + [(name, qty)] else t[k := (name, t[k].1 + qty)]
  }

  /** The tally after visiting the lines in order. */
  function TallyOf(lines: seq<CartLine>): Tally {
    if lines == [] then []
    else
      var n := |lines| - 1;
      Bump(TallyOf(lines[..n]), lines[n].item.english, lines[n].quantity)
  }

  /** What a tally of the lines holds: each name once, exactly the names of
      the lines, each with its total, in order of first appearance. */
  ghost predicate TallyFacts(lines: seq<CartLine>, t: Tally) {
    Distinct(Names(t)) &&
    (forall name :: name in Names(t) <==> name in LineNames(lines)) &&
    (forall i :: 0 <= i < |t| ==> t[i].1 == QtySold(lines, t[i].0)) &&
    (forall i, j :: 0 <= i < j < |t| ==> IndexOf(LineNames(lines), t[i].0) < IndexOf(LineNames(lines), t[j].0))
  }

  /** Extending a sequence does not move the first occurrence of a key it
      already holds. */
  lemma IndexOfExtended(s: seq<string>, u: seq<string>, key: string)
    requires key in s
    ensures IndexOf(s + u, key) == IndexOf(s, key)
  {
    var p := IndexOf(s, key);
    assert (s + u)[..p] == s[..p];
    assert (s + u)[p] == key;
  }

  /** A key appended to a sequence without it is first found at the end. */
  lemma IndexOfAppended(s: seq<string>, key: string)
    requires key !in s
    ensures IndexOf(s + [key], key) == |s|
  {
    assert (s + [key])[..|s|] == s;
  }

  lemma QtySoldAbsent(lines: seq<CartLine>, name: string)
    requires name !in LineNames(lines)
    ensures QtySold(lines, name) == 0
  {
    if lines != [] {
      var n := |lines| - 1;
      assert LineNames(lines[..n]) == LineNames(lines)[..n];
      QtySoldAbsent(lines[..n], name);
    }
  }

  lemma LineNamesSnoc(pre: seq<CartLine>, l: CartLine)
    ensures LineNames(pre + [l]) == LineNames(pre) + [l.item.english]
    ensures (pre + [l])[..|pre|] == pre
  {
  }

  /** A name already tallied: its total rises, nothing else moves. */
  lemma BumpExisting(pre: seq<CartLine>, t: Tally, l: CartLine)
    requires TallyFacts(pre, t)
    requires l.item.english in Names(t)
    ensures TallyFacts(pre + [l], Bump(t, l.item.english, l.quantity))
  {
    var name := l.item.english;
    LineNamesSnoc(pre, l);
    var k := IndexOf(Names(t), name);
    var r := Bump(t, name, l.quantity);
    assert r == t[k := (name, t[k].1 + l.quantity)];
    assert Names(r) == Names(t);
    BumpExistingTotals(pre, t, l);
    assert forall i :: 0 <= i < |t| ==> t[i].0 in LineNames(pre) by {
      forall i | 0 <= i < |t|
        ensures t[i].0 in LineNames(pre)
      {
        assert Names(t)[i] == t[i].0;
      }
    }
    BumpExistingOrder(pre, t, l);
  }

  /** The bumped entry gains the line's quantity; the others keep theirs. */
  lemma BumpExistingTotals(pre: seq<CartLine>, t: Tally, l: CartLine)
    requires TallyFacts(pre, t)
    requires l.item.english in Names(t)
    ensures var r := Bump(t, l.item.english, l.quantity);
      forall i :: 0 <= i < |r| ==> r[i].1 == QtySold(pre + [l], r[i].0)
  {
    var lines := pre + [l];
    var name := l.item.english;
    LineNamesSnoc(pre, l);
    var k := IndexOf(Names(t), name);
    var r := Bump(t, name, l.quantity);
    assert r == t[k := (name, t[k].1 + l.quantity)];
    forall i | 0 <= i < |r|
      ensures r[i].1 == QtySold(lines, r[i].0)
    {
      if i != k {
        assert Names(t)[i] != Names(t)[k];
      }
    }
  }

  /** Bumping moves no entry, and a later line does not change where the
      tallied names were first met. */
  lemma BumpExistingOrder(pre: seq<CartLine>, t: Tally, l: CartLine)
    requires forall i :: 0 <= i < |t| ==> t[i].0 in LineNames(pre)
    requires forall i, j :: 0 <= i < j < |t| ==> IndexOf(LineNames(pre), t[i].0) < IndexOf(LineNames(pre), t[j].0)
    requires l.item.english in Names(t)
    ensures var r := Bump(t, l.item.english, l.quantity);
      forall i, j :: 0 <= i < j < |r| ==> IndexOf(LineNames(pre + [l]), r[i].0) < IndexOf(LineNames(pre + [l]), r[j].0)
  {
    var lines := pre + [l];
    var name := l.item.english;
    LineNamesSnoc(pre, l);
    var k := IndexOf(Names(t), name);
    var r := Bump(t, name, l.quantity);
    assert r == t[k := (name, t[k].1 + l.quantity)];
    forall i, j | 0 <= i < j < |r|
      ensures IndexOf(LineNames(lines), r[i].0) < IndexOf(LineNames(lines), r[j].0)
    {
      assert r[i].0 == t[i].0 && r[j].0 == t[j].0 by {
        assert Names(t)[k] == t[k].0;
      }
      IndexOfExtended(LineNames(pre), [name], t[i].0);
      IndexOfExtended(LineNames(pre), [name], t[j].0);
    }
  }

  /** A new name: its total is the line's quantity, the others keep theirs. */
  lemma BumpNewTotals(pre: seq<CartLine>, t: Tally, l: CartLine)
    requires TallyFacts(pre, t)
    requires l.item.english !in Names(t)
    ensures var r := Bump(t, l.item.english, l.quantity);
      forall i :: 0 <= i < |r| ==> r[i].1 == QtySold(pre + [l], r[i].0)
  {
    var lines := pre + [l];
    var name := l.item.english;
    LineNamesSnoc(pre, l);
    var r := Bump(t, name, l.quantity);
    assert r == t + [(name, l.quantity)];
    QtySoldAbsent(pre, name);
    forall i | 0 <= i < |r|
      ensures r[i].1 == QtySold(lines, r[i].0)
    {
      if i < |t| {
        assert r[i] == t[i];
        assert t[i].0 == Names(t)[i];
      }
    }
  }

  /** A new name goes last, and it is also the last name first met. */
  lemma BumpNewOrder(pre: seq<CartLine>, t: Tally, l: CartLine)
    requires forall i :: 0 <= i < |t| ==> t[i].0 in LineNames(pre)
    requires forall i, j :: 0 <= i < j < |t| ==> IndexOf(LineNames(pre), t[i].0) < IndexOf(LineNames(pre), t[j].0)
    requires l.item.english !in Names(t) && l.item.english !in LineNames(pre)
    ensures var r := Bump(t, l.item.english, l.quantity);
      forall i, j :: 0 <= i < j < |r| ==> IndexOf(LineNames(pre + [l]), r[i].0) < IndexOf(LineNames(pre + [l]), r[j].0)
  {
    var lines := pre + [l];
    var name := l.item.english;
    LineNamesSnoc(pre, l);
    var r := Bump(t, name, l.quantity);
    assert r == t + [(name, l.quantity)];
    IndexOfAppended(LineNames(pre), name);
    forall i, j | 0 <= i < j < |r|
      ensures IndexOf(LineNames(lines), r[i].0) < IndexOf(LineNames(lines), r[j].0)
    {
      assert r[i] == t[i];
      IndexOfExtended(LineNames(pre), [name], t[i].0);
      if j < |t| {
        assert r[j] == t[j];
        IndexOfExtended(LineNames(pre), [name], t[j].0);
      } else {
        assert r[j].0 == name;
      }
    }
  }

  /** A new name: appended with the line's quantity as its total. */
  lemma BumpNew(pre: seq<CartLine>, t: Tally, l: CartLine)
    requires TallyFacts(pre, t)
    requires l.item.english !in Names(t)
    ensures TallyFacts(pre + [l], Bump(t, l.item.english, l.quantity))
  {
    var name := l.item.english;
    LineNamesSnoc(pre, l);
    var r := Bump(t, name, l.quantity);
    assert Names(r) == Names(t) + [name];
    BumpNewTotals(pre, t, l);
    assert forall i :: 0 <= i < |t| ==> t[i].0 in LineNames(pre) by {
      forall i | 0 <= i < |t|
        ensures t[i].0 in LineNames(pre)
      {
        assert Names(t)[i] == t[i].0;
      }
    }
    BumpNewOrder(pre, t, l);
  }

  /** Accumulating line by line builds a tally meeting TallyFacts. */
  lemma {:induction false} TallyMeaning(lines: seq<CartLine>)
    ensures TallyFacts(lines, TallyOf(lines))
  {
    if lines != [] {
      var n := |lines| - 1;
      var pre := lines[..n];
      TallyMeaning(pre);
      assert lines == pre + [lines[n]];
      if lines[n].item.english in Names(TallyOf(pre)) {
        BumpExisting(pre, TallyOf(pre), lines[n]);
      } else {
        BumpNew(pre, TallyOf(pre), lines[n]);
      }
    }
  }

  /** The strict-maximum scan over a tally, as its loop leaves it: every
      total is at most topQty; a positive topQty sits at index lead, ahead of
      which every total is smaller. */
  lemma TopSellerFacts(lines: seq<CartLine>, t: Tally, top: string, topQty: int, lead: int)
    requires TallyFacts(lines, t)
    requires topQty >= 0
    requires forall i :: 0 <= i < |t| ==> t[i].1 <= topQty
    requires topQty > 0 ==> 0 <= lead < |t| && t[lead] == (top, topQty) && forall i :: 0 <= i < lead ==> t[i].1 < topQty
    ensures forall name :: name in LineNames(lines) ==> QtySold(lines, name) <= topQty
    ensures topQty > 0 ==> top in LineNames(lines) && QtySold(lines, top) == topQty
    ensures topQty > 0 ==> forall name :: name in LineNames(lines) && QtySold(lines, name) == topQty ==>
              IndexOf(LineNames(lines), top) <= IndexOf(LineNames(lines), name)
  {
    forall name | name in LineNames(lines)
      ensures QtySold(lines, name) <= topQty
    {
      var k := IndexOf(Names(t), name);
      assert t[k].0 == name;
    }
    if topQty > 0 {
      assert Names(t)[lead] == top;
      forall name | name in LineNames(lines) && QtySold(lines, name) == topQty
        ensures IndexOf(LineNames(lines), top) <= IndexOf(LineNames(lines), name)
      {
        var k := IndexOf(Names(t), name);
        assert t[k].0 == name;
        if k > lead {
          assert t[lead].0 == top;
        }
      }
    }
  }

  // ---- the dashboard ----

  datatype Dashboard = Dashboard(
    todaySales: real, todayBills: nat,
    monthSales: real, monthBills: nat,
    avgBill: real,
    topItem: string, topItemQty: int)

  lemma SliceSnoc(before: seq<CartLine>, items: seq<CartLine>, j: nat)
    requires j < |items|
    ensures before + items[..j + 1] == (before + items[..j]) + [items[j]]
  {
    assert items[..j + 1] == items[..j] + [items[j]];
  }

  /** One more line bumps its name's entry. */
  lemma TallyOfSnoc(seen: seq<CartLine>, l: CartLine)
    ensures TallyOf(seen + [l]) == Bump(TallyOf(seen), l.item.english, l.quantity)
  {
    assert (seen + [l])[..|seen|] == seen;
  }

  /** The inner loop of updateDashboard's accumulation: each item of one
      bill, in order, adds its quantity to its name's entry. */
  method TallyBillItems(itemSales: Tally, ghost before: seq<CartLine>, items: seq<CartLine>) returns (t: Tally)
    requires itemSales == TallyOf(before)
    ensures t == TallyOf(before + items)
  {
    t := itemSales;
    var j := 0;
    assert before + items[..0] == before;
    while j < |items|
      invariant 0 <= j <= |items|
      invariant t == TallyOf(before + items[..j])
    {
      SliceSnoc(before, items, j);
      TallyOfSnoc(before + items[..j], items[j]);
      t := Bump(t, items[j].item.english, items[j].quantity);
      j := j + 1;
    }
    assert items[..j] == items;
  }

  /** The accumulation loop of updateDashboard: every line of every bill, in
      order, adds its quantity to its item name's entry. */
  method AccumulateItemSales(bills: seq<Bill>) returns (itemSales: Tally)
    ensures itemSales == TallyOf(AllLines(bills))
    ensures TallyFacts(AllLines(bills), itemSales)
  {
    itemSales := [];
    var i := 0;
    while i < |bills|
      invariant 0 <= i <= |bills|
      invariant itemSales == TallyOf(AllLines(bills[..i]))
    {
      assert bills[..i + 1][..i] == bills[..i];
      itemSales := TallyBillItems(itemSales, AllLines(bills[..i]), bills[i].items);
      i := i + 1;
    }
    assert bills[..i] == bills;
    TallyMeaning(AllLines(bills));
  }

  /** The scan of updateDashboard: the leader starts as '-' with 0 and is
      replaced only by a strictly greater total, so it ends as the first
      entry holding the largest total (or '-' when no total is positive). */
  method TopItem(itemSales: Tally) returns (top: string, topQty: int, ghost lead: int)
    ensures topQty >= 0
    ensures forall i :: 0 <= i < |itemSales| ==> itemSales[i].1 <= topQty
    ensures topQty == 0 ==> top == "-"
    ensures topQty > 0 ==> 0 <= lead < |itemSales| && itemSales[lead] == (top, topQty) &&
                           forall i :: 0 <= i < lead ==> itemSales[i].1 < topQty
  {
    top := "-";
    topQty := 0;
    lead := -1;
    var k := 0;
    while k < |itemSales|
      invariant 0 <= k <= |itemSales|
      invariant topQty >= 0
      invariant forall i :: 0 <= i < k ==> itemSales[i].1 <= topQty
      invariant topQty == 0 ==> top == "-"
      invariant topQty > 0 ==> 0 <= lead < k && itemSales[lead] == (top, topQty) &&
                               forall i :: 0 <= i < lead ==> itemSales[i].1 < topQty
    {
      if itemSales[k].1 > topQty {
        top := itemSales[k].0;
        topQty := itemSales[k].1;
        lead := k;
      }
      k := k + 1;
    }
  }

  /** updateDashboard: today's bills are those whose date part is today, the
      month's those whose date starts with "yyyy-mm"; the average guards an
      empty log; the top item is the name with the largest total quantity,
      the earliest met among equals, or '-' with 0 when nothing sold. */
  method UpdateDashboard(bills: seq<Bill>, today: string, currentMonth: string) returns (d: Dashboard)
    ensures d.todayBills == |Select(bills, OnDay(today))| && d.todaySales == SalesTotal(Select(bills, OnDay(today)))
    ensures d.monthBills == |Select(bills, DatedWithin(currentMonth))| &&
            d.monthSales == SalesTotal(Select(bills, DatedWithin(currentMonth)))
    ensures d.avgBill == if |bills| > 0 then SalesTotal(bills) / (|bills| as real) else 0.0
    ensures d.topItemQty >= 0
    ensures d.topItemQty == 0 ==> d.topItem == "-"
    ensures forall name :: name in LineNames(AllLines(bills)) ==> QtySold(AllLines(bills), name) <= d.topItemQty
    ensures d.topItemQty > 0 ==> d.topItem in LineNames(AllLines(bills)) && QtySold(AllLines(bills), d.topItem) == d.topItemQty
    ensures d.topItemQty > 0 ==> forall name :: name in LineNames(AllLines(bills)) && QtySold(AllLines(bills), name) == d.topItemQty ==>
              IndexOf(LineNames(AllLines(bills)), d.topItem) <= IndexOf(LineNames(AllLines(bills)), name)
  {
    var todayBills := Select(bills, OnDay(today));
    var monthBills := Select(bills, DatedWithin(currentMonth));
    var avgBill := if |bills| > 0 then SalesTotal(bills) / (|bills| as real) else 0.0;
    var itemSales := AccumulateItemSales(bills);
    var top, topQty, lead := TopItem(itemSales);
    TopSellerFacts(AllLines(bills), itemSales, top, topQty, lead);
    d := Dashboard(SalesTotal(todayBills), |todayBills|, SalesTotal(monthBills), |monthBills|, avgBill, top, topQty);
  }

  // ---- sales per day, in date order ----

  /** Day keys with their summed totals. */
  type DaySales = seq<(string, real)>

  function Days(s: DaySales): (r: seq<string>)
    ensures |r| == |s|
    ensures forall i :: 0 <= i < |s| ==> r[i] == s[i].0
  {
    if s == [] then [] else [s[0].0] + Days(s[1..])
  }

  /** The date parts of the bills. */
  function BillDays(bills: seq<Bill>): (r: seq<string>)
    ensures |r| == |bills|
    ensures forall i :: 0 <= i < |bills| ==> r[i] == DatePart(bills[i].date)
  {
    seq(|bills|, i requires 0 <= i < |bills| => DatePart(bills[i].date))
  }

  /** Keys in strictly increasing string order, as `Object.keys(...).sort()`
      lists distinct keys. */
  predicate Ascending(keys: seq<string>) {
    forall i, j :: 0 <= i < j < |keys| ==> Less(keys[i], keys[j])
  }

  /** The amount recorded for a day (0 for a day with no entry). */
  function SaleOn(s: DaySales, day: string): real {
    if s == [] then 0.0 else if s[0].0 == day then s[0].1 else SaleOn(s[1..], day)
  }

  /** `salesByDate[date] += total`, keeping the keys in sorted position. */
  function AddSale(s: DaySales, day: string, amount: real): DaySales {
    if s == [] then [(day, amount)]
    else if s[0].0 == day then [(day, s[0].1 + amount)] + s[1..]
    else if Less(day, s[0].0) then [(day, amount)] + s
    else [s[0]] + AddSale(s[1..], day, amount)
  }

  lemma {:induction false} AddSaleKeys(s: DaySales, day: string, amount: real)
    ensures forall x :: x in Days(AddSale(s, day, amount)) <==> x in Days(s) || x == day
  {
    if s == [] {
      assert Days([(day, amount)]) == [day];
    } else if s[0].0 == day {
      assert Days([(day, s[0].1 + amount)] + s[1..]) == Days(s);
    } else if Less(day, s[0].0) {
      assert Days([(day, amount)] + s) == [day] + Days(s);
    } else {
      AddSaleKeys(s[1..], day, amount);
      var r := AddSale(s[1..], day, amount);
      assert Days([s[0]] + r) == [s[0].0] + Days(r);
      assert Days(s) == [s[0].0] + Days(s[1..]);
    }
  }

  lemma {:induction false} SaleOnAbsent(s: DaySales, day: string)
    requires day !in Days(s)
    ensures SaleOn(s, day) == 0.0
  {
    if s != [] {
      assert Days(s) == [s[0].0] + Days(s[1..]);
      SaleOnAbsent(s[1..], day);
    }
  }

  /** Adding a sale raises that day's amount and no other. */
  lemma {:induction false} AddSaleAmounts(s: DaySales, day: string, amount: real)
    requires Ascending(Days(s))
    ensures forall x :: SaleOn(AddSale(s, day, amount), x) == SaleOn(s, x) + (if x == day then amount else 0.0)
  {
    var r := AddSale(s, day, amount);
    if s == [] {
    } else if s[0].0 == day {
      assert r[1..] == s[1..];
    } else if Less(day, s[0].0) {
      assert r[1..] == s;
      assert day !in Days(s) by {
        forall j | 0 <= j < |s|
          ensures Days(s)[j] != day
        {
          if j > 0 {
            assert Less(Days(s)[0], Days(s)[j]);
            LessTransitive(day, s[0].0, s[j].0);
          }
          LessIrreflexive(day);
        }
      }
      SaleOnAbsent(s, day);
    } else {
      assert Ascending(Days(s[1..]));
      AddSaleAmounts(s[1..], day, amount);
      assert r[1..] == AddSale(s[1..], day, amount);
    }
  }

  /** A key below every key of an ascending sequence can go in front. */
  lemma AscendingCons(k: string, keys: seq<string>)
    requires Ascending(keys)
    requires forall j :: 0 <= j < |keys| ==> Less(k, keys[j])
    ensures Ascending([k] + keys)
  {
    var r := [k] + keys;
    forall i, j | 0 <= i < j < |r|
      ensures Less(r[i], r[j])
    {
      assert r[j] == keys[j - 1];
      if i > 0 {
        assert r[i] == keys[i - 1];
      }
    }
  }

  /** A day below the first key is below every key. */
  lemma BelowFirst(day: string, keys: seq<string>)
    requires Ascending(keys) && keys != [] && Less(day, keys[0])
    ensures forall j :: 0 <= j < |keys| ==> Less(day, keys[j])
  {
    forall j | 0 < j < |keys|
      ensures Less(day, keys[j])
    {
      LessTransitive(day, keys[0], keys[j]);
    }
  }

  lemma {:induction false} AddSaleAscending(s: DaySales, day: string, amount: real)
    requires Ascending(Days(s))
    ensures Ascending(Days(AddSale(s, day, amount)))
  {
    if s == [] {
    } else if s[0].0 == day {
      assert Days(AddSale(s, day, amount)) == Days(s);
    } else if Less(day, s[0].0) {
      assert ([(day, amount)] + s)[1..] == s;
      BelowFirst(day, Days(s));
      AscendingCons(day, Days(s));
    } else {
      LessTotal(day, s[0].0);
      assert Ascending(Days(s[1..]));
      AddSaleAscending(s[1..], day, amount);
      var rest := AddSale(s[1..], day, amount);
      assert ([s[0]] + rest)[1..] == rest;
      AboveFirst(s, day, amount);
      AscendingCons(s[0].0, Days(rest));
    }
  }

  /** The first key stays below every key of a later insertion. */
  lemma AboveFirst(s: DaySales, day: string, amount: real)
    requires Ascending(Days(s)) && s != [] && Less(s[0].0, day)
    ensures forall j :: 0 <= j < |Days(AddSale(s[1..], day, amount))| ==> Less(s[0].0, Days(AddSale(s[1..], day, amount))[j])
  {
    AddSaleKeys(s[1..], day, amount);
    var rest := AddSale(s[1..], day, amount);
    forall j | 0 <= j < |Days(rest)|
      ensures Less(s[0].0, Days(rest)[j])
    {
      if Days(rest)[j] != day {
        assert Days(rest)[j] in Days(s[1..]);
        var m :| 0 <= m < |s[1..]| && Days(s[1..])[m] == Days(rest)[j];
        assert Days(s)[m + 1] == Days(rest)[j];
      }
    }
  }

  /** With keys in order, the amount looked up for a listed day is the one
      stored beside it. */
  lemma {:induction false} SaleOnEntry(s: DaySales, i: int)
    requires Ascending(Days(s))
    requires 0 <= i < |s|
    ensures SaleOn(s, s[i].0) == s[i].1
  {
    if i > 0 {
      assert Less(Days(s)[0], Days(s)[i]);
      LessIrreflexive(s[0].0);
      assert Ascending(Days(s[1..]));
      SaleOnEntry(s[1..], i - 1);
    }
  }

  lemma BillDaysSnoc(pre: seq<Bill>, b: Bill)
    ensures BillDays(pre + [b]) == BillDays(pre) + [DatePart(b.date)]
  {
  }

  /** One more bill adds its total to its own day's sales only. */
  lemma DaySalesSnoc(pre: seq<Bill>, b: Bill, day: string)
    ensures SalesTotal(Select(pre + [b], OnDay(day))) ==
            SalesTotal(Select(pre, OnDay(day))) + (if day == DatePart(b.date) then b.total else 0.0)
  {
    SelectAppend(pre, [b], OnDay(day));
    SalesTotalAppend(Select(pre, OnDay(day)), Select([b], OnDay(day)));
    assert [b][1..] == [];
  }

  /** The grouping of updateSalesChart: one entry per day that has a bill,
      days in order, each holding the sum of that day's totals. */
  method SalesByDate(bills: seq<Bill>) returns (daily: DaySales)
    ensures Ascending(Days(daily))
    ensures forall day :: day in Days(daily) <==> day in BillDays(bills)
    ensures forall day :: SaleOn(daily, day) == SalesTotal(Select(bills, OnDay(day)))
    ensures forall i :: 0 <= i < |daily| ==> daily[i].1 == SalesTotal(Select(bills, OnDay(daily[i].0)))
  {
    daily := [];
    var i := 0;
    while i < |bills|
      invariant 0 <= i <= |bills|
      invariant Ascending(Days(daily))
      invariant forall day :: day in Days(daily) <==> day in BillDays(bills[..i])
      invariant forall day :: SaleOn(daily, day) == SalesTotal(Select(bills[..i], OnDay(day)))
    {
      var date := DatePart(bills[i].date);
      AddSaleKeys(daily, date, bills[i].total);
      AddSaleAmounts(daily, date, bills[i].total);
      AddSaleAscending(daily, date, bills[i].total);
      daily := AddSale(daily, date, bills[i].total);
      assert bills[..i + 1] == bills[..i] + [bills[i]];
      BillDaysSnoc(bills[..i], bills[i]);
      forall day
        ensures SalesTotal(Select(bills[..i + 1], OnDay(day))) ==
                SalesTotal(Select(bills[..i], OnDay(day))) + (if day == date then bills[i].total else 0.0)
      {
        DaySalesSnoc(bills[..i], bills[i], day);
      }
      i := i + 1;
    }
    assert bills[..i] == bills;
    forall i | 0 <= i < |daily|
      ensures daily[i].1 == SalesTotal(Select(bills, OnDay(daily[i].0)))
    {
      SaleOnEntry(daily, i);
    }
  }
}
