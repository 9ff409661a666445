/** The order (cart) manager: what addToCart, removeFromCart,
    updateCartQuantity and updateCartSummary do to the list of cart lines, and
    what stays true of that list. */
module Cart {
  import opened Records

  /** The ids of the cart lines, in cart order. */
  function LineIds(cart: seq<CartLine>): (r: seq<string>)
    ensures |r| == |cart|
    ensures forall i :: 0 <= i < |cart| ==> r[i] == cart[i].item.id
  {
    seq(|cart|, i requires 0 <= i < |cart| => cart[i].item.id)
  }

  /** The cart's invariant: at most one line per id, every quantity at least 1. */
  predicate CartValid(cart: seq<CartLine>) {
    Distinct(LineIds(cart)) && forall i :: 0 <= i < |cart| ==> cart[i].quantity >= 1
  }

  /** addToCart: bump the line for this id, or append a new line of one. */
  function AddedToCart(cart: seq<CartLine>, item: MenuItem): seq<CartLine> {
    var i := IndexOf(LineIds(cart), item.id);
    if i >= 0 then cart[i := cart[i].(quantity := cart[i].quantity + 1)]
    else cart + [CartLine(item, 1)]
  }

  /** removeFromCart: `cart.filter(l => l.id !== id)`. */
  function RemovedFromCart(cart: seq<CartLine>, id: string): seq<CartLine> {
    if cart == [] then []
    else (if cart[0].item.id == id then [] else [cart[0]]) + RemovedFromCart(cart[1..], id)
  }

  /** updateCartQuantity: below 1 removes the line; otherwise the line for
      this id (if any) takes the new quantity. */
  function QuantityUpdated(cart: seq<CartLine>, id: string, n: int): seq<CartLine> {
    if n < 1 then RemovedFromCart(cart, id)
    else
      var i := IndexOf(LineIds(cart), id);
      if i >= 0 then cart[i := cart[i].(quantity := n)] else cart
  }

  datatype CartSummary = CartSummary(lineCount: nat, subtotal: real, tax: real, total: real)

  /** `subtotal * (taxPercentage / 100)` */
  function TaxOn(subtotal: real, taxPercentage: real): real {
    subtotal * (taxPercentage / 100.0)
  }

  /** updateCartSummary: line count, subtotal, tax and total, recomputed from
      the lines each time. */
  function Summarize(cart: seq<CartLine>, taxPercentage: real): CartSummary {
    var subtotal := Subtotal(cart);
    var tax := TaxOn(subtotal, taxPercentage);
    CartSummary(|cart|, subtotal, tax, subtotal + tax)
  }

  // ---- lemmas ----

  /** Distributivity for one line: a new quantity moves its total by the unit
      price times the change. */
  lemma LineTotalDelta(l: CartLine, n: int)
    ensures LineTotal(l.(quantity := n)) == LineTotal(l) + l.item.price * (n - l.quantity) as real
  {
    var p, q := l.item.price, l.quantity as real;
    calc {
      LineTotal(l.(quantity := n));
      p * n as real;
      p * (q + (n - l.quantity) as real);
      { assert p * (q + (n - l.quantity) as real) == p * q + p * (n - l.quantity) as real; }
      p * q + p * (n - l.quantity) as real;
    }
  }

  lemma {:induction false} SubtotalUpdate(cart: seq<CartLine>, i: nat, l: CartLine)
    requires i < |cart|
    ensures Subtotal(cart[i := l]) == Subtotal(cart) - LineTotal(cart[i]) + LineTotal(l)
  {
    if i > 0 {
      assert cart[i := l][1..] == cart[1..][i - 1 := l];
      SubtotalUpdate(cart[1..], i - 1, l);
    }
  }

  /** Setting the quantity of line k moves the subtotal by that line's unit
      price times the change. */
  lemma SubtotalRequantified(cart: seq<CartLine>, k: nat, n: int)
    requires k < |cart|
    ensures Subtotal(cart[k := cart[k].(quantity := n)])
         == Subtotal(cart) + cart[k].item.price * (n - cart[k].quantity) as real
  {
    SubtotalUpdate(cart, k, cart[k].(quantity := n));
    LineTotalDelta(cart[k], n);
  }

  /** With distinct ids, the line holding an id is the first one holding it. */
  lemma DistinctIndex(ids: seq<string>, k: nat)
    requires Distinct(ids) && k < |ids|
    ensures IndexOf(ids, ids[k]) == k
  {
  }

  /** addToCart, line by line: when a line with the item's id exists, every
      line keeps its item and only that line's quantity rises by one (the
      length is unchanged); otherwise one line of quantity 1 is appended. */
  lemma AddToCartEffect(cart: seq<CartLine>, item: MenuItem)
    requires CartValid(cart)
    ensures var r := AddedToCart(cart, item);
      if item.id in LineIds(cart) then
        |r| == |cart| &&
        forall k :: 0 <= k < |cart| ==>
          r[k].item == cart[k].item &&
          r[k].quantity == cart[k].quantity + (if cart[k].item.id == item.id then 1 else 0)
      else r == cart + [CartLine(item, 1)]
  {
    var ids := LineIds(cart);
    var i := IndexOf(ids, item.id);
    if i >= 0 {
      forall k | 0 <= k < |cart| && cart[k].item.id == item.id ensures k == i {
        DistinctIndex(ids, k);
      }
    }
  }

  /** Adding keeps the invariant. */
  lemma AddToCartValid(cart: seq<CartLine>, item: MenuItem)
    requires CartValid(cart)
    ensures CartValid(AddedToCart(cart, item))
  {
    var r := AddedToCart(cart, item);
    var ids := LineIds(cart);
    if item.id in ids {
      assert LineIds(r) == ids;
    } else {
      assert LineIds(r) == ids + [item.id];
    }
  }

  lemma AddExistingBumps(cart: seq<CartLine>, item: MenuItem, k: nat)
    requires CartValid(cart) && k < |cart| && cart[k].item.id == item.id
    ensures AddedToCart(cart, item) == cart[k := cart[k].(quantity := cart[k].quantity + 1)]
  {
    DistinctIndex(LineIds(cart), k);
  }

  lemma SubtotalBumped(cart: seq<CartLine>, k: nat)
    requires k < |cart|
    ensures Subtotal(cart[k := cart[k].(quantity := cart[k].quantity + 1)]) == Subtotal(cart) + cart[k].item.price
  {
    SubtotalRequantified(cart, k, cart[k].quantity + 1);
    assert (cart[k].quantity + 1 - cart[k].quantity) as real == 1.0;
  }

  /** Adding an item already in the cart raises the subtotal by the unit price
      frozen in its line (not the item's current price). */
  lemma AddExistingSubtotal(cart: seq<CartLine>, item: MenuItem, k: nat)
    requires CartValid(cart) && k < |cart| && cart[k].item.id == item.id
    ensures Subtotal(AddedToCart(cart, item)) == Subtotal(cart) + cart[k].item.price
  {
    AddExistingBumps(cart, item, k);
    SubtotalBumped(cart, k);
  }

  /** Adding a new item raises the subtotal by its price. */
  lemma AddNewSubtotal(cart: seq<CartLine>, item: MenuItem)
    requires item.id !in LineIds(cart)
    ensures Subtotal(AddedToCart(cart, item)) == Subtotal(cart) + item.price
  {
    assert AddedToCart(cart, item) == cart + [CartLine(item, 1)];
    SubtotalAppend(cart, [CartLine(item, 1)]);
    assert Subtotal([CartLine(item, 1)]) == LineTotal(CartLine(item, 1)) + Subtotal([]);
  }

  /** removeFromCart keeps exactly the lines with another id. */
  lemma {:induction false} RemoveFromCartMembers(cart: seq<CartLine>, id: string)
    ensures forall l :: l in RemovedFromCart(cart, id) <==> l in cart && l.item.id != id
  {
    if cart != [] {
      RemoveFromCartMembers(cart[1..], id);
      assert cart == [cart[0]] + cart[1..];
    }
  }

  /** ... in their order ... */
  lemma {:induction false} RemoveFromCartOrder(cart: seq<CartLine>, id: string)
    ensures IsSubsequence(RemovedFromCart(cart, id), cart)
  {
    if cart != [] {
      RemoveFromCartOrder(cart[1..], id);
      var rest := RemovedFromCart(cart[1..], id);
      if cart[0].item.id != id {
        assert ([cart[0]] + rest)[1..] == rest;
      } else {
        assert [] + rest == rest;
      }
    }
  }

  /** ... and an id that is not in the cart changes nothing. */
  lemma {:induction false} RemoveUnknownLine(cart: seq<CartLine>, id: string)
    requires id !in LineIds(cart)
    ensures RemovedFromCart(cart, id) == cart
  {
    if cart != [] {
      assert LineIds(cart)[0] == cart[0].item.id;
      assert id !in LineIds(cart[1..]) by {
        forall k | 0 <= k < |cart[1..]| ensures LineIds(cart[1..])[k] != id {
          assert LineIds(cart[1..])[k] == LineIds(cart)[k + 1];
        }
      }
      RemoveUnknownLine(cart[1..], id);
    }
  }

  /** Removing lines never brings in an id that was absent. */
  lemma {:induction false} RemoveKeepsAbsent(cart: seq<CartLine>, id: string, x: string)
    requires x !in LineIds(cart)
    ensures x !in LineIds(RemovedFromCart(cart, id))
  {
    if cart != [] {
      assert LineIds(cart) == [cart[0].item.id] + LineIds(cart[1..]);
      RemoveKeepsAbsent(cart[1..], id, x);
      var rest := RemovedFromCart(cart[1..], id);
      if cart[0].item.id != id {
        assert LineIds([cart[0]] + rest) == [cart[0].item.id] + LineIds(rest);
      } else {
        assert [] + rest == rest;
      }
    }
  }

  /** Removal keeps the cart's invariant. */
  lemma {:induction false} RemoveKeepsValid(cart: seq<CartLine>, id: string)
    requires CartValid(cart)
    ensures CartValid(RemovedFromCart(cart, id))
  {
    if cart != [] {
      CartValidSplit(cart);
      RemoveKeepsValid(cart[1..], id);
      RemoveValidStep(cart, id);
    }
  }

  lemma RemoveValidStep(cart: seq<CartLine>, id: string)
    requires cart != [] && cart[0].quantity >= 1 && cart[0].item.id !in LineIds(cart[1..])
    requires CartValid(RemovedFromCart(cart[1..], id))
    ensures CartValid(RemovedFromCart(cart, id))
  {
    var rest := RemovedFromCart(cart[1..], id);
    if cart[0].item.id != id {
      assert RemovedFromCart(cart, id) == [cart[0]] + rest;
      RemoveKeepsAbsent(cart[1..], id, cart[0].item.id);
      CartValidJoin(cart[0], rest);
    } else {
      assert RemovedFromCart(cart, id) == [] + rest;
    }
  }

  /** With distinct ids, removing a present id drops exactly one line. */
  lemma {:induction false} RemoveCount(cart: seq<CartLine>, k: nat)
    requires CartValid(cart) && k < |cart|
    ensures |RemovedFromCart(cart, cart[k].item.id)| == |cart| - 1
  {
    if k == 0 {
      RemoveFirstLine(cart);
    } else {
      CartValidSplit(cart);
      assert cart[1..][k - 1] == cart[k];
      RemoveCount(cart[1..], k - 1);
      RemoveLaterLine(cart, k);
    }
  }

  /** A later line removed: the first line stays in front of what removal
      leaves of the rest. */
  lemma RemoveLaterLine(cart: seq<CartLine>, k: nat)
    requires CartValid(cart) && 0 < k < |cart|
    ensures RemovedFromCart(cart, cart[k].item.id) == [cart[0]] + RemovedFromCart(cart[1..], cart[k].item.id)
  {
    assert cart[0].item.id != cart[k].item.id by {
      assert LineIds(cart)[0] != LineIds(cart)[k];
    }
  }

  /** The first line removed: the rest is left as it was. */
  lemma RemoveFirstLine(cart: seq<CartLine>)
    requires CartValid(cart) && cart != []
    ensures RemovedFromCart(cart, cart[0].item.id) == cart[1..]
    ensures CartValid(cart[1..])
  {
    CartValidSplit(cart);
    RemoveUnknownLine(cart[1..], cart[0].item.id);
    assert RemovedFromCart(cart, cart[0].item.id) == [] + cart[1..];
  }

  /** With distinct ids, removing a present id drops exactly one line, keeps
      the invariant, and leaves the lines before and after it in place. */
  lemma RemoveFromCartShape(cart: seq<CartLine>, k: nat)
    requires CartValid(cart) && k < |cart|
    ensures var r := RemovedFromCart(cart, cart[k].item.id);
      |r| == |cart| - 1 && CartValid(r) &&
      r == (if k == 0 then cart[1..] else [cart[0]] + RemovedFromCart(cart[1..], cart[k].item.id))
  {
    RemoveKeepsValid(cart, cart[k].item.id);
    RemoveCount(cart, k);
    if k == 0 {
      RemoveFirstLine(cart);
    } else {
      RemoveLaterLine(cart, k);
    }
  }

  lemma {:induction false} RemoveFromCartSubtotal(cart: seq<CartLine>, k: nat)
    requires CartValid(cart) && k < |cart|
    ensures Subtotal(RemovedFromCart(cart, cart[k].item.id)) == Subtotal(cart) - LineTotal(cart[k])
  {
    RemoveFromCartShape(cart, k);
    if k > 0 {
      CartValidSplit(cart);
      assert cart[1..][k - 1] == cart[k];
      RemoveFromCartSubtotal(cart[1..], k - 1);
    }
  }

  /** The invariant, split at the first line. */
  lemma CartValidSplit(cart: seq<CartLine>)
    requires CartValid(cart) && cart != []
    ensures CartValid(cart[1..]) && cart[0].quantity >= 1
    ensures cart[0].item.id !in LineIds(cart[1..])
  {
    var tail := cart[1..];
    assert LineIds(cart) == [cart[0].item.id] + LineIds(tail);
  }

  /** The invariant, rebuilt from a first line and the rest. */
  lemma CartValidJoin(l: CartLine, rest: seq<CartLine>)
    requires CartValid(rest) && l.quantity >= 1 && l.item.id !in LineIds(rest)
    ensures CartValid([l] + rest)
  {
    var c := [l] + rest;
    forall i, j | 0 <= i < j < |c| ensures LineIds(c)[i] != LineIds(c)[j] {
      if i > 0 {
        assert LineIds(rest)[i - 1] != LineIds(rest)[j - 1];
      } else {
        assert LineIds(rest)[j - 1] == LineIds(c)[j];
      }
    }
  }

  /** updateCartQuantity: below 1 it is removeFromCart; at 1 or more only the
      matching line's quantity becomes n; an unknown id changes nothing. */
  lemma UpdateQuantityEffect(cart: seq<CartLine>, id: string, n: int)
    requires CartValid(cart)
    ensures n < 1 ==> QuantityUpdated(cart, id, n) == RemovedFromCart(cart, id)
    ensures n >= 1 ==>
      var r := QuantityUpdated(cart, id, n);
      |r| == |cart| &&
      forall k :: 0 <= k < |cart| ==>
        r[k].item == cart[k].item &&
        r[k].quantity == (if cart[k].item.id == id then n else cart[k].quantity)
    ensures id !in LineIds(cart) ==> QuantityUpdated(cart, id, n) == cart
    ensures CartValid(QuantityUpdated(cart, id, n))
  {
    var ids := LineIds(cart);
    if id !in ids {
      RemoveUnknownLine(cart, id);
    }
    if n >= 1 {
      var i := IndexOf(ids, id);
      if i >= 0 {
        forall k | 0 <= k < |cart| && cart[k].item.id == id ensures k == i {
          DistinctIndex(ids, k);
        }
        assert LineIds(QuantityUpdated(cart, id, n)) == ids;
      }
    } else if id in ids {
      var k :| 0 <= k < |cart| && ids[k] == id;
      RemoveFromCartShape(cart, k);
    }
  }

  /** Changing one line's quantity moves the subtotal by its unit price times
      the change, so the recomputed summary agrees with an incremental one. */
  lemma UpdateQuantitySubtotal(cart: seq<CartLine>, k: nat, n: int)
    requires CartValid(cart) && k < |cart| && n >= 1
    ensures Subtotal(QuantityUpdated(cart, cart[k].item.id, n))
         == Subtotal(cart) + cart[k].item.price * (n - cart[k].quantity) as real
  {
    DistinctIndex(LineIds(cart), k);
    assert QuantityUpdated(cart, cart[k].item.id, n) == cart[k := cart[k].(quantity := n)];
    SubtotalRequantified(cart, k, n);
  }

  lemma {:induction false} SubtotalNonNegative(cart: seq<CartLine>)
    requires forall l :: l in cart ==> l.item.price >= 0.0 && l.quantity >= 0
    ensures Subtotal(cart) >= 0.0
  {
    if cart != [] {
      assert forall l :: l in cart[1..] ==> l in cart;
      SubtotalNonNegative(cart[1..]);
    }
  }

  /** For every cart and rate the summary's subtotal is the sum of the line
      totals, its tax is the rate's share of the subtotal, its total is
      subtotal plus tax, that is the subtotal scaled by (100 + rate) / 100,
      and its line count is the number of lines. */
  lemma SummaryFigures(cart: seq<CartLine>, taxPercentage: real)
    ensures var s := Summarize(cart, taxPercentage);
      s.subtotal == Subtotal(cart) && s.tax * 100.0 == s.subtotal * taxPercentage &&
      s.total == s.subtotal + s.tax && s.total * 100.0 == s.subtotal * (100.0 + taxPercentage) &&
      s.lineCount == |cart|
  {
  }

  /** With non-negative prices and tax rate the summary is ordered
      0 <= subtotal <= total. */
  lemma SummaryBounds(cart: seq<CartLine>, taxPercentage: real)
    requires taxPercentage >= 0.0
    requires forall l :: l in cart ==> l.item.price >= 0.0 && l.quantity >= 0
    ensures var s := Summarize(cart, taxPercentage);
      0.0 <= s.subtotal <= s.total
  {
    SubtotalNonNegative(cart);
  }
}
