# Quick-Bites order tracker, modelled in Dafny

This project models the order bookkeeping of the Quick-Bites restaurant tracker
(`quickBiteRestaurant.java`). It keeps a menu, a list of orders and a list of
daily collection reports in memory. A user can place an order, cancel an order
or track the collection of a day. File loading and console I/O are removed.
Each operation takes the input it would have read.

Modules:

- `Wrappers` (`wrappers.dfy`, support): `Option`.
- `JavaInt` (`java_int.dfy`, support for `java.lang.Integer`): Java `int` range and wrap-around, `Integer.parseInt`
  (radix 10) as `ParseInt`, and `Integer.toString` as `FormatInt`.
- `Entities` (`entities.dfy`): `MenuItem`, `CollectionReport` and `Date` as
  datatypes. `Order` is a class whose fields are updated in place. Its
  `totalBillAmount` is recomputed by a loop (`CalculateTotalBillAmount`) whenever
  the items or the quantities are replaced. `BillTotal` is the sum that loop
  must reach. `OrderView` is a snapshot of one order's fields.
- `FileData` (`file_data.dfy`): `getMenuItemsByIds` and `getQuantities` as
  methods with loops. They are proved against the functions `Resolve` (the
  first match of each id, with unmatched ids skipped) and `ParseAll`.
- `OrderBook` (`order_book.dfy`): functions on the order list as values. These
  are `MaxOrderId`, `NextOrderId`, `CancelFirst` and `Collection` (the sum of
  totals of `"Placed"` orders on a date). The lemmas about them live here too.
- `Restaurant` (`restaurant_app.dfy`): `RestaurantApp` is a class over the menu,
  the order objects and the reports. A ghost `ledger` holds the orders' current
  values, and `Valid()` ties it to the objects. Each operation's `ensures` gives
  the new ledger and report list in terms of the old ones.

Money is integer cents. A date is a `(year, month, day)` value. A date string
that `SimpleDateFormat` rejects arrives as `None`. An uncaught Java exception
ends the program. Here it is the outcome `Crashed(...)`, and the lists are left
as they were.

Two points of the code's behaviour are worth stating:

- The total loop (quickBiteRestaurant.java:95-97) needs at least as many
  quantities as items and ignores any extra ones
  (`BillTotalIgnoresExtraQuantities`); the two lists need not have the same
  length.
- The running maximum in `getLastOrderID` (quickBiteRestaurant.java:294-302)
  starts at 0, so the next id is `max(0, ids) + 1`, which is 1 when every id
  is negative.

## Model

| member | source | states |
|---|---|---|
| `Entities.Order.constructor` | quickBiteRestaurant.java:52-59 | the new order holds the given id, items, quantities, date and status, and its total is the sum of price × quantity over its items |
| `Entities.Order.SetMenuItems` | quickBiteRestaurant.java:75-78 | replaces the items and recomputes the total from the new items and the current quantities; no other field changes |
| `Entities.Order.SetQuantities` | quickBiteRestaurant.java:84-87 | replaces the quantities and recomputes the total from the current items and the new quantities; no other field changes |
| `Entities.Order.SetStatus` | quickBiteRestaurant.java:113-115 | changes the status and nothing else |
| `Entities.Order.CalculateTotalBillAmount` | quickBiteRestaurant.java:93-99 | the loop's running sum ends at the sum over the item positions i of price(items[i]) × quantities[i]; only the total field changes, so the order's total is consistent again |
| `Entities.BillTotalIgnoresExtraQuantities` | quickBiteRestaurant.java:95-97 | quantities past the last item never change the bill |
| `Entities.BillTotalConcat` | quickBiteRestaurant.java:93-99 | the bill of two runs of lines laid end to end is the sum of their bills |
| `Entities.BillTotalNonNegative` | quickBiteRestaurant.java:93-99 | with no negative price and no negative quantity the bill is not negative |
| `JavaInt.ParseInt` | quickBiteRestaurant.java:205 | a parsed value is a Java `int` from a non-empty token; a leading `-` gives a value ≤ 0, otherwise ≥ 0; without a sign the token is all digits, and with a leading `-` or `+` at least one character follows and all that follow are digits, so a bare sign or a sign before a non-digit is rejected |
| `JavaInt.ParseIntUnsigned` | quickBiteRestaurant.java:205 | a non-empty digit string, bare or after `+`, parses to its decimal value when that is at most 2147483647 and is rejected otherwise |
| `JavaInt.ParseIntNegative` | quickBiteRestaurant.java:205 | a non-empty digit string after `-` parses to minus its decimal value when that is at least -2147483648 and is rejected otherwise |
| `JavaInt.ParseFormatRoundTrip` | quickBiteRestaurant.java:205 | for every Java `int` n, parsing the decimal text of n gives back n |
| `FileData.ParseAll` | quickBiteRestaurant.java:202-208 | succeeds exactly when every token parses; then it has one value per token, in token order |
| `FileData.GetQuantities` | quickBiteRestaurant.java:202-208 | returns the i-th token's integer at position i and the same length as its input, or fails as a whole when any token is malformed |
| `FileData.FirstMatch` | quickBiteRestaurant.java:192-197 | a found item is in the menu and carries the id; nothing is found exactly when no menu item has the id |
| `FileData.FirstMatchAt` | quickBiteRestaurant.java:192-197 | the item at the first menu position carrying the id is the one found, so the first match wins over later duplicates |
| `FileData.Resolve` | quickBiteRestaurant.java:187-200 | the result is no longer than the id list and every item in it comes from the menu |
| `FileData.ResolveConcat` | quickBiteRestaurant.java:190-198 | each id is resolved on its own, in order: resolving two id lists laid end to end lays their results end to end |
| `FileData.ResolveSkipsUnknown` | quickBiteRestaurant.java:192-197 | an id that no menu item carries adds nothing, wherever it stands in the list |
| `FileData.ResolveAllMatched` | quickBiteRestaurant.java:187-200 | when every id has a match, the i-th result is the first menu item carrying the i-th id |
| `FileData.GetMenuItemsByIds` | quickBiteRestaurant.java:187-200 | fails as a whole when an id token is malformed; otherwise returns the first match of each id in id order, with unmatched ids skipped |
| `FileData.ResolveExample` | quickBiteRestaurant.java:187-200 | with Pizza as item 1 and Coffee as item 2, ids 1, 99 resolve to Pizza alone |
| `OrderBook.MaxOrderId` | quickBiteRestaurant.java:294-302 | the result is ≥ 0 and ≥ every order id, and it is 0 or the id of some order |
| `OrderBook.NextOrderId` | quickBiteRestaurant.java:288-289 | the new id is greater than every existing id, and is 1 when there are no orders |
| `OrderBook.NextOrderIdAsWritten` | quickBiteRestaurant.java:288-289 | `getLastOrderID() + 1` evaluated in Java `int` is always a Java `int` |
| `OrderBook.NextOrderIdAsWrittenAgrees` | quickBiteRestaurant.java:288-289 | below the largest `int`, the Java expression gives the same id as the corrected one |
| `OrderBook.NextOrderIdAsWrittenWraps` | quickBiteRestaurant.java:288-289 | an order with id 2147483647 makes the next id -2147483648, smaller than an existing id |
| `OrderBook.CancelFirst` | quickBiteRestaurant.java:309-318 | same length; each order is unchanged or, carrying the id, has its status set to "Cancelled" |
| `OrderBook.CancelFirstAt` | quickBiteRestaurant.java:309-318 | only the first order with the id changes, and only its status |
| `OrderBook.CancelFirstAbsent` | quickBiteRestaurant.java:317-322 | when no order has the id, nothing changes |
| `OrderBook.CancelFirstIdempotent` | quickBiteRestaurant.java:304-323 | cancelling the same id twice leaves the same orders as cancelling it once |
| `OrderBook.CancelFirstConsistent` | quickBiteRestaurant.java:317-318 | cancelling keeps every order's total consistent with its lines |
| `OrderBook.CollectionAppend` | quickBiteRestaurant.java:337-341 | a new order raises the collection of a date by its total if it is "Placed" on that date, and by nothing otherwise |
| `OrderBook.CollectionUpdate` | quickBiteRestaurant.java:337-341 | replacing one order changes a date's collection by the difference of the two orders' contributions |
| `OrderBook.CollectionAfterCancel` | quickBiteRestaurant.java:336-341 | cancelling an order removes its contribution from every date's collection |
| `OrderBook.CollectionWithoutPlaced` | quickBiteRestaurant.java:336-341 | a date whose orders are all cancelled (none "Placed") collects 0 |
| `Restaurant.RestaurantApp.constructor` | quickBiteRestaurant.java:229-231 | the session starts with the loaded menu, orders and reports, and the ledger shows each loaded order |
| `Restaurant.RestaurantApp.GetLastOrderID` | quickBiteRestaurant.java:294-302 | returns the largest order id, or 0 when there is none larger; the result is ≥ every order id |
| `Restaurant.RestaurantApp.PlaceOrder` | quickBiteRestaurant.java:264-292 | a malformed id or quantity token crashes, an invalid date aborts, more items than quantities crashes, and in each of these cases nothing changes; otherwise exactly one fresh "Placed" order is appended. Its id exceeds every existing id, and its items, quantities, date and total are the resolved ones. Earlier orders and the reports are untouched |
| `Restaurant.RestaurantApp.AddPlacedOrder` | quickBiteRestaurant.java:288-290 | appends one fresh order with id max + 1, status "Placed" and a consistent total; prior orders are unchanged |
| `Restaurant.RestaurantApp.AppendOrder` | quickBiteRestaurant.java:290 | the order list grows by exactly the given order at its end |
| `Restaurant.RestaurantApp.CancelOrder` | quickBiteRestaurant.java:304-323 | reports whether some order has the id; the orders become CancelFirst of the old ones; the list of orders and the reports are the same as before |
| `Restaurant.RestaurantApp.MarkCancelled` | quickBiteRestaurant.java:317-318 | exactly one order's status becomes "Cancelled"; every other order is as it was |
| `Restaurant.RestaurantApp.TrackCollections` | quickBiteRestaurant.java:325-346 | an invalid date changes nothing; otherwise returns the sum of the totals of the "Placed" orders of that date and appends exactly one report with that date and sum; the orders are untouched |
| `Restaurant.SkippedIdShiftsQuantities` | quickBiteRestaurant.java:271-276 | with ids 1, 99, 2 and quantities 1, 1, 5, Coffee is billed at quantity 1: a skipped id leaves the later items paired with the wrong quantities |
| `Restaurant.ExampleSession` | quickBiteRestaurant.java:245-254 | choices 1, 3, 2, 3 on a two-item menu: order 1 is placed, the day collects 23.00, and after cancelling it the day collects 0.00 |

## Findings

| source | as written | input that shows it | evidently intended | confidence | as-written member | corrected member |
|---|---|---|---|---|---|---|
| quickBiteRestaurant.java:288-289 | `getLastOrderID() + 1` is Java `int` arithmetic and wraps past 2147483647 | an orders file holding an order with id 2147483647; placing an order then gives id -2147483648, smaller than an existing id | a new order id is greater than every existing id | not executed | `OrderBook.NextOrderIdAsWrittenWraps` | `OrderBook.NextOrderId` |

`RestaurantApp.PlaceOrder` uses the corrected `NextOrderId`, so its ids are unbounded integers.

## Left out

- File loading (`getMenuItems`, `getOrderDetails`, `getCollectionReports`) and its log-and-continue error handling are not modelled. These are file I/O. `RestaurantApp`'s constructor takes the already-loaded menu, `Order` objects and reports instead.
- `getMenuItemsByIds` re-reads `menu_items.csv` on every call. The model resolves ids against the menu loaded at start-up, which is the same as long as the file does not change during the session.
- The `Scanner` loop in `main`, reading the menu choice and the order id to cancel, and all printing are not modelled. These are console I/O. `ExampleSession` runs one sequence of choices through the operations.
- Splitting input lines with `String.split(",")` and `split(";")` is not modelled. Operations take the token lists.
- `SimpleDateFormat` parsing, including its lenient roll-over of out-of-range days, is not modelled. It is a library call. A date arrives already parsed, or as `None` when parsing failed.
- `double` prices and totals are modelled as integer cents. Floating-point rounding is not modelled.
- `JavaInt.ParseInt` accepts ASCII digits only. `Integer.parseInt` also accepts other Unicode decimal digits.
- `Restaurant.RestaurantApp.PlaceOrder`: the new order id is `lastOrderID + 1` in unbounded integers, without Java `int` wrap-around past 2147483647 (see Findings).
- `Restaurant.RestaurantApp.AddPlacedOrder`: computes `lastOrderID + 1` in unbounded integers, without Java `int` wrap-around past 2147483647 (see Findings).
- An uncaught exception (`NumberFormatException`, `IndexOutOfBoundsException`) is the outcome `Crashed`, with the lists unchanged. The model does not capture that the program then terminates.
- `Entities.Order.constructor`: requires at least as many quantities as items. Java's total loop throws an uncaught `IndexOutOfBoundsException` otherwise. `PlaceOrder` checks the lengths and reports that crash.
- `Entities.Order.SetMenuItems`: requires at least as many quantities as the new items. Java throws `IndexOutOfBoundsException` otherwise, after the list has already been replaced; that partial update is not modelled.
- `Entities.Order.SetQuantities`: requires at least as many new quantities as items. Java throws `IndexOutOfBoundsException` otherwise, after the list has already been replaced; that partial update is not modelled.
- The trivial getters, `setOrderID` and `setDate` on `Order`, and all setters of `MenuItem` and `CollectionReport` are not modelled. The core does not use them. Fields are read directly.
- Java list aliasing between an `Order` and its callers is not modelled. Items and quantities are value sequences.
