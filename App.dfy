/** The TiffinBillingApp state and the operations that change it. Each
    method updates the fields the way the script updates `this.state`, and
    states the new state through the functions of the other modules, whose
    lemmas carry the properties. Dialog answers (`confirm`) and the clock
    are parameters. */
module App {
  import opened Records
  import Cart
  import Billing
  import History
  import Catalog
  import Preferences

  class TiffinBillingApp {
    var cart: seq<CartLine>
    var currentBill: Option<Bill>
    var theme: string
    var settings: Settings
    var bills: seq<Bill>
    var menuItems: seq<MenuItem>

    /** What the operations keep: cart ids unique with quantities of at least
        one, and a current bill whose totals agree with its items. */
    predicate Valid()
      reads this
    {
      Cart.CartValid(cart) && (currentBill.Some? ==> Billing.Balanced(currentBill.value))
    }

    /** The initial state: empty cart, no bill, light theme, default
        settings and menu, empty log. */
    constructor()
      ensures cart == [] && currentBill == None && theme == "light"
      ensures settings == DefaultSettings() && bills == [] && menuItems == Catalog.DefaultMenu()
      ensures Valid() && Catalog.CatalogValid(menuItems)
    {
      cart := [];
      currentBill := None;
      theme := "light";
      settings := DefaultSettings();
      bills := [];
      menuItems := Catalog.DefaultMenu();
      Catalog.DefaultMenuFacts();
    }

    // ---- cart ----

    /** addToCart: bump the line holding the item, or append a line of one. */
    method AddToCart(item: MenuItem)
      modifies this
      ensures cart == Cart.AddedToCart(old(cart), item)
      ensures currentBill == old(currentBill) && bills == old(bills) && menuItems == old(menuItems)
      ensures settings == old(settings) && theme == old(theme)
      ensures old(Valid()) ==> Valid()
    {
      if Cart.CartValid(cart) {
        Cart.AddToCartValid(cart, item);
      }
      var k := IndexOf(Cart.LineIds(cart), item.id);
      if k >= 0 {
        cart := cart[k := cart[k].(quantity := cart[k].quantity + 1)];
      } else {
        cart := cart + [CartLine(item, 1)];
      }
    }

    /** removeFromCart: drop every line with the id. */
    method RemoveFromCart(id: string)
      modifies this
      ensures cart == Cart.RemovedFromCart(old(cart), id)
      ensures currentBill == old(currentBill) && bills == old(bills) && menuItems == old(menuItems)
      ensures settings == old(settings) && theme == old(theme)
      ensures old(Valid()) ==> Valid()
    {
      if Cart.CartValid(cart) {
        Cart.UpdateQuantityEffect(cart, id, 0);
      }
      cart := Cart.RemovedFromCart(cart, id);
    }

    /** updateCartQuantity: below one removes the line; otherwise the line
        with the id, if any, takes the new quantity. */
    method UpdateCartQuantity(id: string, n: int)
      modifies this
      ensures cart == Cart.QuantityUpdated(old(cart), id, n)
      ensures currentBill == old(currentBill) && bills == old(bills) && menuItems == old(menuItems)
      ensures settings == old(settings) && theme == old(theme)
      ensures old(Valid()) ==> Valid()
    {
      if n < 1 {
        RemoveFromCart(id);
        return;
      }
      if Cart.CartValid(cart) {
        Cart.UpdateQuantityEffect(cart, id, n);
      }
      var k := IndexOf(Cart.LineIds(cart), id);
      if k >= 0 {
        cart := cart[k := cart[k].(quantity := n)];
      }
    }

    /** clearCart: an empty cart is left alone; otherwise it is emptied when
        the user confirms. */
    method ClearCart(confirmed: bool)
      modifies this
      ensures cart == if old(cart) != [] && confirmed then [] else old(cart)
      ensures currentBill == old(currentBill) && bills == old(bills) && menuItems == old(menuItems)
      ensures settings == old(settings) && theme == old(theme)
      ensures old(Valid()) ==> Valid()
    {
      if |cart| == 0 {
        return;
      }
      if confirmed {
        cart := [];
      }
    }

    // ---- bill lifecycle ----

    /** generateBill: with an empty cart nothing changes; otherwise the
        current bill, pending or not, is replaced by a new pending bill for
        the cart. The cart itself is kept. */
    method GenerateBill(now: string) returns (refused: Option<Error>)
      modifies this
      ensures old(cart) == [] ==> refused == Some(EmptyCart) && currentBill == old(currentBill)
      ensures old(cart) != [] ==>
        refused == None && currentBill == Some(Billing.GenerateBill(old(cart), old(settings), old(bills), now).value)
      ensures cart == old(cart) && bills == old(bills) && menuItems == old(menuItems)
      ensures settings == old(settings) && theme == old(theme)
      ensures old(Valid()) ==> Valid()
    {
      Billing.GenerateBillEffect(cart, settings, bills, now);
      var r := Billing.GenerateBill(cart, settings, bills, now);
      if r.Err? {
        refused := Some(r.error);
        return;
      }
      currentBill := Some(r.value);
      refused := None;
    }

    /** completePayment: without a current bill nothing happens; a refused
        cash amount changes nothing; otherwise the current bill is completed
        and put at the front of the log. */
    method CompletePayment(via: PaymentMethod, cashInput: Option<real>, upiInput: string, now: string)
      returns (refused: Option<Error>)
      modifies this
      ensures old(currentBill).None? ==> refused == Some(NoCurrentBill) && bills == old(bills) && currentBill == old(currentBill)
      ensures old(currentBill).Some? ==>
        var r := Billing.CompletePayment(old(currentBill).value, via, cashInput, upiInput, old(settings), now);
        (r.Err? ==> refused == Some(r.error) && bills == old(bills) && currentBill == old(currentBill)) &&
        (r.Ok? ==> refused == None && currentBill == Some(r.value) && bills == [r.value] + old(bills) &&
                   |bills| == |old(bills)| + 1 && bills[1..] == old(bills))
      ensures cart == old(cart) && menuItems == old(menuItems)
      ensures settings == old(settings) && theme == old(theme)
      ensures old(Valid()) ==> Valid()
    {
      if currentBill.None? {
        refused := Some(NoCurrentBill);
        return;
      }
      var r := Billing.CompletePayment(currentBill.value, via, cashInput, upiInput, settings, now);
      if r.Err? {
        refused := Some(r.error);
        return;
      }
      Billing.PaymentKeepsBill(currentBill.value, via, cashInput, upiInput, settings, now);
      currentBill := Some(r.value);
      bills := [r.value] + bills;
      refused := None;
    }

    /** backToBilling: the bill is dropped, the cart kept for editing. */
    method BackToBilling()
      modifies this
      ensures currentBill == None
      ensures cart == old(cart) && bills == old(bills) && menuItems == old(menuItems)
      ensures settings == old(settings) && theme == old(theme)
      ensures old(Valid()) ==> Valid()
    {
      currentBill := None;
    }

    /** editBill: back to billing when the user confirms. */
    method EditBill(confirmed: bool)
      modifies this
      ensures currentBill == if confirmed then None else old(currentBill)
      ensures cart == old(cart) && bills == old(bills) && menuItems == old(menuItems)
      ensures settings == old(settings) && theme == old(theme)
      ensures old(Valid()) ==> Valid()
    {
      if confirmed {
        BackToBilling();
      }
    }

    /** resetForNewBill: cart and bill both cleared. */
    method ResetForNewBill()
      modifies this
      ensures cart == [] && currentBill == None
      ensures bills == old(bills) && menuItems == old(menuItems)
      ensures settings == old(settings) && theme == old(theme)
      ensures Valid()
    {
      cart := [];
      currentBill := None;
    }

    // ---- history ----

    /** resetData('today'): the bills dated today leave the log. */
    method ResetToday(today: string)
      modifies this
      ensures bills == History.ResetToday(old(bills), today)
      ensures cart == old(cart) && currentBill == old(currentBill) && menuItems == old(menuItems)
      ensures settings == old(settings) && theme == old(theme)
      ensures old(Valid()) ==> Valid()
    {
      bills := History.ResetToday(bills, today);
    }

    // ---- catalog ----

    /** addNewMenuItem: the item is appended unless the fields are invalid
        or its slug is taken. */
    method AddNewMenuItem(englishIn: string, tamilIn: string, priceIn: Option<real>, imageIn: string)
      returns (refused: Option<Error>)
      modifies this
      ensures var r := Catalog.AddMenuItem(old(menuItems), englishIn, tamilIn, priceIn, imageIn);
        (r.Ok? ==> refused == None && menuItems == r.value) &&
        (r.Err? ==> refused == Some(r.error) && menuItems == old(menuItems))
      ensures Catalog.CatalogValid(old(menuItems)) ==> Catalog.CatalogValid(menuItems)
      ensures cart == old(cart) && currentBill == old(currentBill) && bills == old(bills)
      ensures settings == old(settings) && theme == old(theme)
      ensures old(Valid()) ==> Valid()
    {
      var r := Catalog.AddMenuItem(menuItems, englishIn, tamilIn, priceIn, imageIn);
      if r.Err? {
        refused := Some(r.error);
        return;
      }
      if Catalog.CatalogValid(menuItems) {
        Catalog.AddMenuItemValid(menuItems, englishIn, tamilIn, priceIn, imageIn);
      }
      menuItems := r.value;
      refused := None;
    }

    /** updateMenuItemPrice: the item with the id takes the new price. */
    method UpdateMenuItemPrice(id: string, price: real)
      modifies this
      ensures menuItems == Catalog.PriceUpdated(old(menuItems), id, price)
      ensures Catalog.CatalogValid(old(menuItems)) ==> Catalog.CatalogValid(menuItems)
      ensures cart == old(cart) && currentBill == old(currentBill) && bills == old(bills)
      ensures settings == old(settings) && theme == old(theme)
      ensures old(Valid()) ==> Valid()
    {
      Catalog.PriceUpdatedEffect(menuItems, id, price);
      var k := IndexOf(Catalog.Ids(menuItems), id);
      if k != -1 {
        menuItems := menuItems[k := menuItems[k].(price := price)];
      }
    }

    /** removeMenuItem: refused at one item; otherwise, on confirmation,
        the items with the id leave the menu. */
    method RemoveMenuItem(id: string, confirmed: bool) returns (refused: Option<Error>)
      modifies this
      ensures var r := Catalog.RemoveMenuItem(old(menuItems), id, confirmed);
        (r.Ok? ==> refused == None && menuItems == r.value) &&
        (r.Err? ==> refused == Some(r.error) && menuItems == old(menuItems))
      ensures Catalog.CatalogValid(old(menuItems)) ==> Catalog.CatalogValid(menuItems)
      ensures cart == old(cart) && currentBill == old(currentBill) && bills == old(bills)
      ensures settings == old(settings) && theme == old(theme)
      ensures old(Valid()) ==> Valid()
    {
      Catalog.RemoveMenuItemEffect(menuItems, id, confirmed);
      var r := Catalog.RemoveMenuItem(menuItems, id, confirmed);
      if r.Err? {
        refused := Some(r.error);
        return;
      }
      menuItems := r.value;
      refused := None;
    }

    /** The menu part of loadFromStorage: the saved menu replaces the
        current one, then each item whose id is in the asset table has its
        image rewritten, one item at a time. */
    method LoadSavedMenu(saved: seq<MenuItem>)
      modifies this
      ensures menuItems == Catalog.Remapped(saved)
      ensures Catalog.CatalogValid(saved) ==> Catalog.CatalogValid(menuItems)
      ensures cart == old(cart) && currentBill == old(currentBill) && bills == old(bills)
      ensures settings == old(settings) && theme == old(theme)
      ensures old(Valid()) ==> Valid()
    {
      menuItems := saved;
      var i := 0;
      while i < |menuItems|
        invariant 0 <= i <= |menuItems| == |saved|
        invariant menuItems[..i] == Catalog.Remapped(saved)[..i]
        invariant menuItems[i..] == saved[i..]
        invariant cart == old(cart) && currentBill == old(currentBill) && bills == old(bills)
        invariant settings == old(settings) && theme == old(theme)
      {
        var path := Catalog.AssetFor(menuItems[i].id);
        if path.Some? {
          menuItems := menuItems[i := menuItems[i].(image := path.value)];
        }
        assert menuItems[i] == Catalog.RemapItem(saved[i]);
        i := i + 1;
      }
      Catalog.RemapEffect(saved);
    }

    // ---- settings and theme ----

    /** saveShopSettings: merged in when valid, refused otherwise. */
    method SaveShopSettings(nameIn: string, addressIn: string, taxIn: Option<real>, upiIn: string)
      returns (refused: Option<Error>)
      modifies this
      ensures var r := Preferences.SaveSettings(old(settings), nameIn, addressIn, taxIn, upiIn);
        (r.Ok? ==> refused == None && settings == r.value) &&
        (r.Err? ==> refused == Some(r.error) && settings == old(settings))
      ensures cart == old(cart) && currentBill == old(currentBill) && bills == old(bills)
      ensures menuItems == old(menuItems) && theme == old(theme)
      ensures old(Valid()) ==> Valid()
    {
      var r := Preferences.SaveSettings(settings, nameIn, addressIn, taxIn, upiIn);
      if r.Err? {
        refused := Some(r.error);
        return;
      }
      settings := r.value;
      refused := None;
    }

    /** toggleTheme: the next theme of the cycle. */
    method ToggleTheme()
      modifies this
      ensures theme == Preferences.NextTheme(old(theme))
      ensures theme in Preferences.Themes && theme != old(theme)
      ensures cart == old(cart) && currentBill == old(currentBill) && bills == old(bills)
      ensures menuItems == old(menuItems) && settings == old(settings)
      ensures old(Valid()) ==> Valid()
    {
      Preferences.ThemeCycle(theme);
      theme := Preferences.NextTheme(theme);
    }

    /** importData after confirmation: each key present in the backup
        replaces the matching part of the state; a declined confirmation
        changes nothing. */
    method ImportData(importedSettings: Option<Settings>, importedMenu: Option<seq<MenuItem>>,
                      importedBills: Option<seq<Bill>>, confirmed: bool)
      modifies this
      ensures settings == if confirmed && importedSettings.Some? then importedSettings.value else old(settings)
      ensures menuItems == if confirmed && importedMenu.Some? then importedMenu.value else old(menuItems)
      ensures bills == if confirmed && importedBills.Some? then importedBills.value else old(bills)
      ensures cart == old(cart) && currentBill == old(currentBill) && theme == old(theme)
      ensures old(Valid()) ==> Valid()
    {
      if !confirmed {
        return;
      }
      if importedSettings.Some? {
        settings := importedSettings.value;
      }
      if importedMenu.Some? {
        menuItems := importedMenu.value;
      }
      if importedBills.Some? {
        bills := importedBills.value;
      }
    }
  }
}
