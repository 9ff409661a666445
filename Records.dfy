/** The records the billing app keeps in its state object: catalog items, cart
    lines, bills with their payment outcome, and the shop settings. Money is an
    exact `real`; display rounding (toFixed) is not part of the model. */
module Records {

  datatype Option<+T> = None | Some(value: T)

  /** Why an operation refused to change the state (each is a toast in the app). */
  datatype Error =
    | EmptyCart          // "Cart is empty"
    | InsufficientCash   // "Please enter sufficient cash amount"
    | InvalidFields      // "Please fill all fields correctly"
    | DuplicateItem      // "Item with this name already exists"
    | LastItem           // "Cannot remove the last menu item"
    | NoCurrentBill      // completePayment with no bill: returns silently

  datatype Result<+T> = Ok(value: T) | Err(error: Error)

  /** A catalog entry: slug id, English and Tamil names, unit price, image path. */
  datatype MenuItem = MenuItem(id: string, english: string, tamil: string, price: real, image: string)

  /** A cart line: a copy of the menu item taken when it was first added (its
      price is frozen there) and the quantity ordered. */
  datatype CartLine = CartLine(item: MenuItem, quantity: int)

  datatype PaymentMethod = Cash | Upi

  datatype PaymentDetails =
    | CashDetails(cashReceived: real, changeGiven: real)
    | UpiDetails(upiId: string)

  datatype PaymentStatus = Pending | Completed

  /** A bill: generated pending from the cart, completed by a payment. */
  datatype Bill = Bill(
    id: string,
    date: string,                 // ISO timestamp of generation
    items: seq<CartLine>,         // copy of the cart at generation
    subtotal: real,
    tax: real,
    total: real,
    paymentMethod: Option<PaymentMethod>,
    paymentDetails: Option<PaymentDetails>,
    paymentStatus: PaymentStatus,
    completedAt: Option<string>)

  datatype Settings = Settings(
    shopName: string,
    shopAddress: string,
    taxPercentage: real,
    defaultUpiId: string,
    currency: string)

  /** getDefaultSettings */
  function DefaultSettings(): Settings {
    Settings("Tiffin Shop", "Chennai, Tamil Nadu", 5.0, "shop@upi", "\U{20B9}")
  }

  /** Price of a cart line: unit price times quantity. */
  function LineTotal(l: CartLine): real {
    l.item.price * l.quantity as real
  }

  /** Sum of the line totals, accumulated as `reduce` does. */
  function Subtotal(lines: seq<CartLine>): real {
    if lines == [] then 0.0 else LineTotal(lines[0]) + Subtotal(lines[1..])
  }

  /** Sum of the bill totals. */
  function SalesTotal(bills: seq<Bill>): real {
    if bills == [] then 0.0 else bills[0].total + SalesTotal(bills[1..])
  }

  lemma {:induction false} SubtotalAppend(a: seq<CartLine>, b: seq<CartLine>)
    ensures Subtotal(a + b) == Subtotal(a) + Subtotal(b)
  {
    if a == [] {
      assert a + b == b;
    } else {
      assert (a + b)[1..] == a[1..] + b;
      SubtotalAppend(a[1..], b);
    }
  }

  lemma SalesTotalCons(b: Bill, rest: seq<Bill>)
    ensures SalesTotal([b] + rest) == b.total + SalesTotal(rest)
  {
    assert ([b] + rest)[1..] == rest;
  }

  lemma {:induction false} SalesTotalAppend(a: seq<Bill>, b: seq<Bill>)
    ensures SalesTotal(a + b) == SalesTotal(a) + SalesTotal(b)
  {
    if a == [] {
      assert a + b == b;
    } else {
      assert (a + b)[1..] == a[1..] + b;
      SalesTotalAppend(a[1..], b);
    }
  }

  /** `items.findIndex(x => x.id === key)` over the ids: the first position
      holding key, or -1 when there is none. */
  function IndexOf(s: seq<string>, key: string): (r: int)
    ensures -1 <= r < |s|
    ensures r == -1 <==> key !in s
    ensures r >= 0 ==> s[r] == key && key !in s[..r]
  {
    if s == [] then -1
    else if s[0] == key then 0
    else
      var k := IndexOf(s[1..], key);
      assert k >= 0 ==> s[..k + 1] == [s[0]] + s[1..][..k];
      if k == -1 then -1 else k + 1
  }

  /** No id occurs twice. */
  predicate Distinct(s: seq<string>) {
    forall i, j :: 0 <= i < j < |s| ==> s[i] != s[j]
  }

  /** a can be obtained from b by deleting elements (order kept). */
  predicate IsSubsequence<T(==)>(a: seq<T>, b: seq<T>) {
    a == [] || (b != [] && ((a[0] == b[0] && IsSubsequence(a[1..], b[1..])) || IsSubsequence(a, b[1..])))
  }

  /** Every sequence is a subsequence of itself. */
  lemma {:induction false} SubsequenceRefl<T>(s: seq<T>)
    ensures IsSubsequence(s, s)
  {
    if s != [] {
      SubsequenceRefl(s[1..]);
    }
  }
}
