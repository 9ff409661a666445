# Tiffin billing: a verified model of the billing core

The Tiffin Shop Billing app is a single-page point-of-sale app for a small
South-Indian tiffin shop. The cashier taps menu items into a cart. The app
then generates a bill with tax and a day-scoped id such as `BILL-20240115-003`.
It takes payment in cash (computing the change) or by UPI, and logs the
completed bill in a history. The history can be filtered, summarised on a
dashboard, grouped into daily sales, reset for the day, or replaced by an
import. The menu itself can be edited: items added, priced, removed, and
their images remapped to local assets.

This project models the state and the logic of the `TiffinBillingApp` class
in `script.js`:

- **`Records`**: the values the app stores: menu items, cart lines, bills,
  payment details and settings. It also has the sums the app computes over
  them: line total, subtotal and total sales.
- **`Text`**: the string operations the logic relies on: prefix and
  substring tests, ASCII lower-casing, trimming, the `YYYY-MM-DD` date part of
  an ISO timestamp, decimal rendering with zero padding, and the ordering of
  strings that `<`/`>=` give.
- **`Ledger`**: filtering the bill log by a criterion, and how such filters
  compose and partition the log.
- **`Cart`**: adding, removing and requantifying cart lines, and the cart
  summary (subtotal, tax, total).
- **`Billing`**: bill generation (totals and the next id of the day) and
  payment completion (the cash and UPI rules).
- **`History`**: the history filter, the payment-method counts of the
  payment chart, and "reset today's bills".
- **`Analytics`**: the dashboard figures, the top-selling item, and sales
  grouped by day in date order.
- **`Catalog`**: the menu: the slug id of a new item, adding, price edits,
  removal, the image remap applied on load, and the default menu.
- **`Preferences`**: saving shop settings and cycling the theme.
- **`App`**: the class `TiffinBillingApp`. Its fields are the app's state
  (cart, current bill, theme, settings, bill log, menu). Each method changes
  them the way the script does, and states the whole new state through the
  functions above.

The browser gives the app a clock and `confirm` dialogs; here they are
parameters (`now`, `today`, `currentMonth`, `confirmed`). A form field that
`parseFloat` reads is an `Option<real>`, where `None` stands for NaN. Money
is exact `real` arithmetic.

Some of what the script does is easy to misread. The model does what the
code of `script.js` does:

- `completePayment` checks only that a current bill exists. It does not check
  that the bill is still pending.
- Cash is refused when the amount is NaN, zero or below the total. Zero is
  refused even for a bill whose total is zero.
- The history's date-range filter applies only when both the start and the
  end date are set.
- A price edit is not validated. Any number is stored.

## Model

| member | source | states |
|---|---|---|
| Text.PaddedDecimalValue | script.js:698 | a number rendered in decimal and left-padded with zeros reads back as that number, so the suffix of a bill id determines the bill number |
| Text.LessTotal | script.js:1309 | two different date keys are always ordered one way or the other, so sorting the days by string comparison gives one order |
| Text.LessTransitive | script.js:1309 | string comparison is transitive, so the date ordering is a strict order |
| Text.StartsWithTransitive | script.js:1242-1248 | a bill dated within today also dates within a month that today starts with |
| Text.DatePartShape | script.js:1141 | the date part of a timestamp is the longest prefix holding no `T`, and the `T` follows it when the timestamp is longer |
| Records.IndexOf | script.js:450 | `findIndex`/`indexOf`: -1 exactly when the key is absent; otherwise the first position that holds the key |
| Ledger.SelectMeaning | script.js:1140-1157 | `Select`: each filter of the log keeps exactly the bills the criterion accepts, in their original order (a subsequence) |
| Ledger.SelectEveryMeaning | script.js:1133-1160 | filtering once by a list of criteria keeps exactly the bills that meet all of them, in order |
| Ledger.SelectAfterSelectEvery | script.js:1133-1160 | one more filter after a filter chain equals a single pass with the extra criterion added |
| Ledger.SelectImplied | script.js:1242-1248 | a weaker criterion selects at least as many bills and, for non-negative totals, at least as much in sales |
| Ledger.DatedSplit | script.js:1537-1540 | the bills dated within a prefix and those not dated within it split the log's count and its sales exactly |
| Cart.AddToCartEffect | script.js:531-546 | `AddedToCart`: adding an item already in the cart raises that line's quantity by one and changes nothing else; a new item is appended as a line of quantity one |
| Cart.AddToCartValid | script.js:531-546 | adding keeps cart ids unique and every quantity at least one |
| Cart.AddExistingSubtotal | script.js:531-546 | adding an item already in the cart raises the subtotal by its price |
| Cart.AddNewSubtotal | script.js:531-546 | adding a new item raises the subtotal by its price |
| Cart.RemoveFromCartMembers | script.js:551-555 | `RemovedFromCart`: removal keeps exactly the lines with a different id |
| Cart.RemoveFromCartOrder | script.js:551-555 | the remaining lines keep their order (a subsequence of the old cart) |
| Cart.RemoveUnknownLine | script.js:551-555 | removing an id that is not in the cart changes nothing |
| Cart.RemoveFromCartShape | script.js:551-555 | in a valid cart, removing a present id leaves one line fewer and a valid cart; removing the first line leaves the rest, removing a later one keeps the first line at the head |
| Cart.RemoveKeepsValid | script.js:551-555 | removal from a valid cart leaves a valid cart: ids stay unique and quantities at least one |
| Cart.RemoveCount | script.js:551-555 | in a valid cart, removing a present id leaves exactly one line fewer |
| Cart.RemoveFromCartSubtotal | script.js:551-555 | in a valid cart, removal lowers the subtotal by exactly the removed line's total |
| Cart.UpdateQuantityEffect | script.js:560-572 | `QuantityUpdated`: a new quantity below one removes the line; otherwise only that line's quantity changes; an unknown id changes nothing; cart validity is kept |
| Cart.UpdateQuantitySubtotal | script.js:560-572 | setting a present line to quantity n moves the subtotal by price times the change in quantity |
| Cart.SubtotalNonNegative | script.js:654 | with non-negative prices and quantities the subtotal is non-negative |
| Cart.SummaryFigures | script.js:653-657 | `Summarize`: for every cart and rate, the subtotal is the sum of the line totals, the tax is the rate's share of it, the total is subtotal plus tax (the subtotal scaled by 100 plus the rate, over 100), and the line count is the number of lines |
| Cart.SummaryBounds | script.js:653-657 | with non-negative prices and a non-negative tax rate, the subtotal is non-negative and the total is never below it |
| Billing.GenerateBillEffect | script.js:680-710 | `GenerateBill`: an empty cart is refused; otherwise the bill is pending and unpaid, holds the cart, is balanced, carries the rate's tax and the time `now`, and has the day's next id |
| Billing.BillNumberAfterLogging | script.js:693-696 | `BillNumber`: logging a bill with the day's prefix raises the next number of that day by one; any other bill leaves it unchanged |
| Billing.BillIdHasDayPrefix | script.js:692-698 | every generated id begins with `BILL-` and the day's date, the prefix the next-number count looks for |
| Billing.ConsecutiveBillIds | script.js:692-698 | two bills generated on the same day, with the first logged in between, get consecutive numbers |
| Billing.FirstBillOfDay | script.js:693-698 | on a day with no logged bill the number is 1 and the id is `BILL-<date>-001` |
| Billing.BillIdInjective | script.js:698 | `BillId`: different numbers on one day never give the same id |
| Billing.CashPaymentRule | script.js:815-836 | `CompletePayment`: cash is refused exactly when the amount is NaN, zero or short of the total; when accepted, the change is never negative and cash received equals total plus change; UPI is always accepted |
| Billing.UpiFallback | script.js:831-836 | the UPI id recorded is the typed one, trimmed, or the shop's default when the typed one is blank |
| Billing.PaymentKeepsBill | script.js:839-845 | a payment marks the bill completed at `now` with the method used, and keeps its id, date, items and totals, so a balanced bill stays balanced |
| Billing.WorkedExample | script.js:686-689 | two Idly at 30 and one Vada at 25 with 5% tax give subtotal 85, tax 4.25 and total 89.25; 100 in cash gives 10.75 change and 80 is refused |
| History.FilterBillsMeaning | script.js:1132-1161 | `FilterBills`: the history shows exactly the logged bills that pass the date range (when both ends are set), the method and the case-folded search, in log order; an empty filter shows every bill |
| History.PaymentCountsCover | script.js:1335-1338 | `CountPayments`: the UPI and cash counts never exceed the number of bills, and add up to it when every bill has a method |
| History.ResetTodayEffect | script.js:1536-1541 | `ResetToday`: resetting today keeps exactly the bills not dated today, in order; no bill of today remains; kept and dropped bills split the count and the sales |
| History.TodayWithinMonth | script.js:1237-1249 | when today's date lies in the current month, today's bill count never exceeds the month's, and for non-negative bill totals neither do today's sales |
| History.TodayOutsideMonth | script.js:1237-1249 | when today's date does not lie in the current month, a bill of today counts towards today's count and sales and not towards the month's |
| History.MonthBoundaryExample | script.js:1237-1239 | a bill stamped `2024-01-31T21:30:00.000Z`, seen with today `2024-01-31` and month `2024-02`, counts for today and not for the month, so today's sales exceed the month's |
| Analytics.TallyMeaning | script.js:1257-1265 | `TallyOf`: the item tally has one entry per item name sold, in first-sale order, each holding the total quantity sold under that name |
| Analytics.AccumulateItemSales | script.js:1257-1265 | the nested loops over bills and items build exactly that tally |
| Analytics.TallyBillItems | script.js:1259-1264 | the inner loop over one bill's items extends the tally of the lines seen so far by exactly those items |
| Analytics.TopItem | script.js:1267-1275 | the scan returns the first entry of greatest quantity, or `-` and 0 when no quantity is positive |
| Analytics.TopSellerFacts | script.js:1267-1275 | the top item sold the most; no name sold more; among names that sold as much, it is the first sold |
| Analytics.UpdateDashboard | script.js:1236-1276 | today's and this month's count and sales, the average bill (total sales over the bill count, 0 for an empty log), and the top seller with its quantity, as above |
| Analytics.AddSaleKeys | script.js:1301-1307 | `AddSale`: adding a sale to the daily table adds its day as a key, if it is not there already |
| Analytics.AddSaleAmounts | script.js:1301-1307 | adding a sale raises only its day's amount, by the bill's total |
| Analytics.AddSaleAscending | script.js:1309 | the daily table stays in ascending date order |
| Analytics.DaySalesSnoc | script.js:1301-1307 | one more logged bill raises its own day's sales by its total and leaves every other day's sales unchanged |
| Analytics.SalesByDate | script.js:1298-1309 | the days are those of the logged bills, in ascending order, each with the sum of that day's bill totals |
| Catalog.SlugShape | script.js:495 | `Slug`: the id of a new item holds no whitespace and no upper-case letter, and re-slugging it changes nothing |
| Catalog.AddMenuItemEffect | script.js:480-509 | `AddMenuItem`: an item with a blank name, a missing or non-positive price, or an id already on the menu is refused and nothing changes; otherwise exactly one item is appended, with the trimmed names, the slug id, and the trimmed image, or the default photo when the image is blank |
| Catalog.AddMenuItemValid | script.js:503-509 | adding keeps the menu's ids unique |
| Catalog.PriceUpdatedEffect | script.js:449-457 | `PriceUpdated`: a price edit changes the price of the item with that id and nothing else; an unknown id changes nothing |
| Catalog.WithoutItemDistinct | script.js:469 | `WithoutItem`: removing an item keeps the menu's ids unique |
| Catalog.WithoutItemCount | script.js:469 | with distinct ids, removal drops exactly one item when the id is on the menu and none otherwise |
| Catalog.WithoutItemOrder | script.js:469 | the items left after a removal keep their menu order (a subsequence of the old menu) |
| Catalog.RemoveMenuItemEffect | script.js:462-475 | `RemoveMenuItem`: the last item cannot be removed; an unconfirmed removal changes nothing; a confirmed one keeps exactly the other items, in order, and leaves a valid menu non-empty |
| Catalog.RemapEffect | script.js:149-166 | `Remapped`: on load only the images of the four remapped items change, the ids and order are kept, remapping twice is remapping once, and a valid menu stays valid |
| Catalog.DefaultMenuFacts | script.js:296-348 | the default menu has seven items with distinct ids and positive prices, and the load remap leaves it unchanged |
| Preferences.SaveSettingsEffect | script.js:1376-1392 | `SaveSettings`: saving is refused exactly when the name or address is blank or the tax is missing or negative; otherwise the fields hold the trimmed inputs and the currency is kept |
| Preferences.NextThemeTable | script.js:1611-1616 | `NextTheme`: light goes to dark, dark to high-contrast, high-contrast to light, and an unknown theme to light |
| Preferences.ThemeCycle | script.js:1611-1616 | toggling always gives one of the three themes and a different one; from one of the three themes, three toggles come back to it |
| App.TiffinBillingApp.constructor | script.js:13-21 | the app starts with an empty cart, no current bill, the light theme, the default settings and menu, and an empty log, which is a valid state with a valid menu |
| App.TiffinBillingApp.AddToCart | script.js:531-546 | the cart becomes the added-to cart, everything else is kept, and validity is preserved |
| App.TiffinBillingApp.RemoveFromCart | script.js:551-555 | the cart loses the line with that id, everything else is kept, and validity is preserved |
| App.TiffinBillingApp.UpdateCartQuantity | script.js:560-572 | the cart takes the new quantity, or loses the line when it is below one; everything else is kept |
| App.TiffinBillingApp.ClearCart | script.js:577-586 | a confirmed clear of a non-empty cart empties it; otherwise nothing changes |
| App.TiffinBillingApp.GenerateBill | script.js:680-722 | an empty cart is refused and the current bill is kept; otherwise the generated bill becomes current; cart, log and menu are kept |
| App.TiffinBillingApp.CompletePayment | script.js:814-855 | with no current bill nothing changes; a refused payment changes nothing; an accepted one replaces the current bill by the paid bill and puts it at the head of the log |
| App.TiffinBillingApp.BackToBilling | script.js:1066-1069 | the current bill is dropped and nothing else changes |
| App.TiffinBillingApp.EditBill | script.js:904-908 | a confirmed edit drops the current bill; otherwise nothing changes |
| App.TiffinBillingApp.ResetForNewBill | script.js:1074-1080 | the cart is emptied and the current bill dropped, giving a valid state |
| App.TiffinBillingApp.ResetToday | script.js:1536-1541 | the log keeps only the bills not dated today; nothing else changes |
| App.TiffinBillingApp.AddNewMenuItem | script.js:480-522 | the menu becomes the result of adding the item, or is kept when the addition is refused, and the refusal is reported; a valid menu stays valid |
| App.TiffinBillingApp.UpdateMenuItemPrice | script.js:449-457 | the menu takes the edited price; a valid menu stays valid |
| App.TiffinBillingApp.RemoveMenuItem | script.js:462-475 | the menu becomes the result of the removal, or is kept when it is refused, and the refusal is reported; a valid menu stays valid |
| App.TiffinBillingApp.LoadSavedMenu | script.js:149-166 | the loop leaves the loaded menu remapped item by item; a valid saved menu gives a valid menu |
| App.TiffinBillingApp.SaveShopSettings | script.js:1376-1401 | the settings become the saved ones, or are kept when saving is refused; everything else is kept |
| App.TiffinBillingApp.ToggleTheme | script.js:1611-1622 | the theme moves to the next in the cycle, which is one of the three and differs from the old one |
| App.TiffinBillingApp.ImportData | script.js:1507-1510 | a confirmed import replaces the settings, the menu and the log, each only when the file holds it; cart, current bill and theme are kept |

## Left out

- The service worker (`sw.js`) is not part of this model. Offline caching has no effect on billing state.
- Rendering, the DOM, toasts, modals, printing, and the UPI payment link and QR code are left out. They only display the state.
- `localStorage`/`sessionStorage` persistence, JSON parsing, and export through a Blob and file download are left out. `loadFromStorage` is modelled only for the menu remap (`LoadSavedMenu`). Its merge of saved settings over the defaults is not modelled. Import is modelled from the already-parsed object on.
- The session restore of the cart is left out. A restored cart is not checked, so it need not satisfy `Valid`.
- `resetData('all')` is not modelled. It empties everything and resets settings, which is storage handling.
- The chart drawing is left out: pie-slice percentages, bar heights and the labels' formatting. The counts and the daily sums it draws are modelled.
- Floating-point rounding and `toFixed` formatting are left out. Money is exact, so `0.1 + 0.2`-style drift is not captured.
- NaN from `parseInt`/`parseFloat` in the price and quantity editors is not modelled. `UpdateMenuItemPrice` and `UpdateCartQuantity` take a number.
- Case folding covers ASCII letters only. Non-ASCII upper-case letters in an item name or a search term are not folded.
- Lookups in the plain objects used as tables (the remap table, `itemSales`, `salesByDate`) are modelled as exact key matches. Inherited keys such as `constructor` are not.
- The order of `Object.entries` is taken as insertion order. JavaScript lists integer-like keys first; item names are not expected to be integer-like.
- `Analytics.SalesByDate`: builds the table in sorted order directly rather than grouping in insertion order and sorting afterwards. The result is the same.
- `App.TiffinBillingApp.CompletePayment`: the paid bill is stored twice as separate values. In the script, `currentBill` and the head of `bills` are one object, so a second completion also rewrites the logged bill.
- The month of `updateDashboard` is computed in local time, but today's date and the bill dates are ISO (UTC). Here `today` and `currentMonth` are parameters, and the time zone is not modelled.
- `History.TodayWithinMonth`: holds only when today's date lies in the current month. Near a month boundary the UTC date and the local month can disagree (east of UTC just after local midnight on the 1st), and then today's figures can exceed the month's; `History.TodayOutsideMonth` and `History.MonthBoundaryExample` state that case.
- `Cart.SummaryBounds`: orders subtotal and total only for non-negative prices and rate. A price edit stores any number, so a cart holding a negatively priced item can have a total below its subtotal; `Cart.SummaryFigures` holds for every cart.
- `Catalog.RemoveMenuItemEffect`: promises a non-empty menu after removal only for a menu with distinct ids. An imported menu may hold duplicate ids, and removing one id then removes every item with it.
