/**
 * The workflow controller: the menu, the orders and the collection reports
 * held in memory for a session, and the three operations on them. Console
 * reading and printing are left out; each operation takes its already-read
 * input, and a date that failed to parse arrives as None.
 */
module Restaurant {
  import opened Wrappers
  import opened JavaInt
  import opened Entities
  import opened FileData
  import opened OrderBook

  /** The uncaught exception that ends the program. */
  datatype Fault = NumberFormat | IndexOutOfBounds

  /** How an attempt to place an order ends. */
  datatype PlaceOutcome = Placed(orderID: int) | InvalidDate | Crashed(fault: Fault)

  class RestaurantApp {
    const menuItems: seq<MenuItem>
    var orders: seq<Order>
    var collectionReports: seq<CollectionReport>
    /** The orders as values, position by position. */
    ghost var ledger: seq<OrderView>

    /**
     * Each order's total is in step with its lines, the ledger shows every
     * order's current state, and no order object appears twice.
     */
    ghost predicate Valid()
      reads this, orders
      ensures Valid() ==> forall i :: 0 <= i < |ledger| ==> Consistent(ledger[i])
    {
      |ledger| == |orders| &&
      (forall i :: 0 <= i < |orders| ==> orders[i].Valid() && orders[i].View() == ledger[i]) &&
      (forall i, j :: 0 <= i < j < |orders| ==> orders[i] != orders[j])
    }

    /** The session state as loaded at start-up. */
    constructor (menu: seq<MenuItem>, loaded: seq<Order>, reports: seq<CollectionReport>)
      requires forall i :: 0 <= i < |loaded| ==> loaded[i].Valid()
      requires forall i, j :: 0 <= i < j < |loaded| ==> loaded[i] != loaded[j]
      ensures Valid()
      ensures menuItems == menu && orders == loaded && collectionReports == reports
      ensures |ledger| == |loaded| && forall i :: 0 <= i < |loaded| ==> ledger[i] == loaded[i].View()
    {
      menuItems := menu;
      orders := loaded;
      collectionReports := reports;
      ledger := seq(|loaded|, i requires 0 <= i < |loaded| reads loaded => loaded[i].View());
    }

    /** `getLastOrderID`: the running maximum of the order ids, starting from 0. */
    method GetLastOrderID() returns (lastOrderID: int)
      requires Valid()
      ensures lastOrderID == MaxOrderId(ledger)
      ensures lastOrderID >= 0
      ensures forall i :: 0 <= i < |ledger| ==> ledger[i].orderID <= lastOrderID
      ensures |ledger| == 0 ==> lastOrderID == 0
    {
      lastOrderID := 0;
      for k := 0 to |orders|
        invariant lastOrderID == MaxOrderId(ledger[..k])
      {
        assert ledger[..k + 1][..k] == ledger[..k];
        if orders[k].orderID > lastOrderID {
          lastOrderID := orders[k].orderID;
        }
      }
      assert ledger[..|orders|] == ledger;
    }

    /**
     * `placeOrder`: resolves the ids against the menu, parses the quantities,
     * and, when the date is valid, appends one new "Placed" order whose id is
     * one past the largest existing id.
     */
    method PlaceOrder(menuIDs: seq<string>, quantityTokens: seq<string>, date: Option<Date>)
      returns (outcome: PlaceOutcome)
      requires Valid()
      modifies this
      ensures Valid()
      ensures collectionReports == old(collectionReports)
      ensures outcome == Crashed(NumberFormat) <==>
        ParseAll(menuIDs).None? || ParseAll(quantityTokens).None?
      ensures outcome == InvalidDate <==>
        ParseAll(menuIDs).Some? && ParseAll(quantityTokens).Some? && date.None?
      ensures outcome == Crashed(IndexOutOfBounds) <==>
        ParseAll(menuIDs).Some? && ParseAll(quantityTokens).Some? && date.Some? &&
        |Resolve(menuItems, ParseAll(menuIDs).value)| > |ParseAll(quantityTokens).value|
      ensures outcome.Placed? <==>
        ParseAll(menuIDs).Some? && ParseAll(quantityTokens).Some? && date.Some? &&
        |Resolve(menuItems, ParseAll(menuIDs).value)| <= |ParseAll(quantityTokens).value|
      ensures !outcome.Placed? ==> orders == old(orders) && ledger == old(ledger)
      ensures outcome.Placed? ==>
        var items := Resolve(menuItems, ParseAll(menuIDs).value);
        var quantities := ParseAll(quantityTokens).value;
        |items| <= |quantities| &&
        outcome.orderID == NextOrderId(old(ledger)) &&
        (forall i :: 0 <= i < |old(ledger)| ==> old(ledger)[i].orderID < outcome.orderID) &&
        |orders| == |old(orders)| + 1 && orders[..|old(orders)|] == old(orders) &&
        fresh(orders[|old(orders)|]) &&
        ledger == old(ledger) + [OrderView(outcome.orderID, items, quantities,
                                           BillTotal(items, quantities), date.value, PLACED)]
    {
      var selected := GetMenuItemsByIds(menuItems, menuIDs);
      if selected.None? {
        return Crashed(NumberFormat);
      }
      var quantities := GetQuantities(quantityTokens);
      if quantities.None? {
        return Crashed(NumberFormat);
      }
      if date.None? {
        return InvalidDate;
      }
      if |selected.value| > |quantities.value| {
        return Crashed(IndexOutOfBounds);
      }
      var orderID := AddPlacedOrder(selected.value, quantities.value, date.value);
      outcome := Placed(orderID);
    }

    /**
     * The tail of `placeOrder`: a new "Placed" order with the next id,
     * appended to the orders.
     */
    method AddPlacedOrder(items: seq<MenuItem>, quantities: seq<int>, date: Date) returns (orderID: int)
      requires Valid() && |items| <= |quantities|
      modifies this
      ensures Valid()
      ensures collectionReports == old(collectionReports)
      ensures orderID == NextOrderId(old(ledger))
      ensures |orders| == |old(orders)| + 1 && orders[..|old(orders)|] == old(orders)
      ensures fresh(orders[|old(orders)|])
      ensures ledger == old(ledger) + [OrderView(orderID, items, quantities, BillTotal(items, quantities), date, PLACED)]
    {
      var lastOrderID := GetLastOrderID();
      var order := new Order(lastOrderID + 1, items, quantities, date, PLACED);
      AppendOrder(order);
      assert orders[..|old(orders)|] == old(orders);
      orderID := order.orderID;
    }

    /** `orders.add(order)`, with the ledger following. */
    method AppendOrder(order: Order)
      requires Valid() && order.Valid() && order !in orders
      modifies this
      ensures Valid()
      ensures orders == old(orders) + [order] && ledger == old(ledger) + [order.View()]
      ensures collectionReports == old(collectionReports)
    {
      orders := orders + [order];
      ledger := ledger + [order.View()];
    }

    /**
     * `cancelOrder`: marks the first order with the id as "Cancelled" and
     * reports whether there was one; every other order stays as it was.
     */
    method CancelOrder(orderID: int) returns (cancelled: bool)
      requires Valid()
      modifies this, orders
      ensures Valid()
      ensures orders == old(orders) && collectionReports == old(collectionReports)
      ensures cancelled <==> exists i :: 0 <= i < |old(ledger)| && old(ledger)[i].orderID == orderID
      ensures ledger == CancelFirst(old(ledger), orderID)
    {
      var k := 0;
      while k < |orders| && orders[k].orderID != orderID
        invariant 0 <= k <= |orders|
        invariant forall i :: 0 <= i < k ==> ledger[i].orderID != orderID
      {
        k := k + 1;
      }
      if k < |orders| {
        CancelFirstAt(ledger, orderID, k);
        MarkCancelled(k);
        cancelled := true;
      } else {
        CancelFirstAbsent(ledger, orderID);
        cancelled := false;
      }
    }

    /** `orderToCancel.setStatus("Cancelled")` on the order at position `k`. */
    method MarkCancelled(k: int)
      requires Valid() && 0 <= k < |orders|
      modifies this, orders[k]
      ensures Valid()
      ensures orders == old(orders) && collectionReports == old(collectionReports)
      ensures ledger == old(ledger)[k := old(ledger)[k].(status := CANCELLED)]
    {
      var order := orders[k];
      order.SetStatus(CANCELLED);
      ledger := ledger[k := order.View()];
      assert forall i :: 0 <= i < |orders| && i != k ==> orders[i] != order;
    }

    /**
     * `trackCollections`: for a valid date, sums the totals of the "Placed"
     * orders of that date and appends one report; the orders are untouched.
     */
    method TrackCollections(date: Option<Date>) returns (totalCollection: Option<int>)
      requires Valid()
      modifies this
      ensures Valid()
      ensures orders == old(orders) && ledger == old(ledger)
      ensures date.None? ==> totalCollection == None && collectionReports == old(collectionReports)
      ensures date.Some? ==>
        totalCollection == Some(Collection(ledger, date.value)) &&
        collectionReports == old(collectionReports) + [CollectionReport(date.value, Collection(ledger, date.value))]
    {
      if date.None? {
        return None;
      }
      var day := date.value;
      var sum := 0;
      for k := 0 to |orders|
        invariant sum == Collection(ledger[..k], day)
      {
        assert ledger[..k + 1][..k] == ledger[..k];
        if orders[k].date == day && orders[k].status == PLACED {
          sum := sum + orders[k].totalBillAmount;
        }
      }
      assert ledger[..|orders|] == ledger;
      collectionReports := collectionReports + [CollectionReport(day, sum)];
      totalCollection := Some(sum);
    }
  }

  /**
   * A skipped id does not take its quantity with it: with ids 1, 99, 2 and
   * quantities 1, 1, 5, Coffee is billed at the quantity typed for id 99.
   */
  lemma SkippedIdShiftsQuantities(pizza: MenuItem, coffee: MenuItem)
    requires pizza.menuID == 1 && pizza.price == 1000
    requires coffee.menuID == 2 && coffee.price == 300
    ensures Resolve([pizza, coffee], [1, 99, 2]) == [pizza, coffee]
    ensures BillTotal([pizza, coffee], [1, 1, 5]) == 1300
    ensures BillTotal([pizza, coffee], [1, 1, 5]) != pizza.price * 1 + coffee.price * 5
  {
    var menu := [pizza, coffee];
    ResolveSkipsUnknown(menu, [1], 99, [2]);
    assert [1] + [99] + [2] == [1, 99, 2] && [1] + [2] == [1, 2];
    ResolveSnoc(menu, [1], 2);
    ResolveSnoc(menu, [], 1);
    assert [] + [1] == [1];
    assert BillTotal([pizza], [1, 1, 5]) == 1000 by {
      assert [pizza][..0] == [];
    }
    assert [pizza, coffee][..1] == [pizza];
  }

  /** The lines of the example order, resolved and billed. */
  lemma ExampleOrder(pizza: MenuItem, coffee: MenuItem)
    requires pizza.menuID == 1 && pizza.price == 1000
    requires coffee.menuID == 2 && coffee.price == 300
    ensures Resolve([pizza, coffee], [1, 2]) == [pizza, coffee]
    ensures BillTotal([pizza, coffee], [2, 1]) == 2300
  {
    ResolveSnoc([pizza, coffee], [1], 2);
    ResolveSnoc([pizza, coffee], [], 1);
    assert [] + [1] == [1];
    assert BillTotal([pizza], [2, 1]) == 2000 by {
      assert [pizza][..0] == [];
    }
    assert [pizza, coffee][..1] == [pizza];
  }

  /**
   * One session through the menu: with Pizza (item 1, 10.00) and Coffee
   * (item 2, 3.00) on the menu, place ids `1,2` with quantities `2,1` on
   * some day, track that day, cancel the order, track the day again.
   * The tokens are any that parse to those numbers, `"1"` and `"2"` among them.
   */
  method ExampleSession(pizza: MenuItem, coffee: MenuItem, day: Date,
                        menuIDs: seq<string>, quantityTokens: seq<string>)
    returns (placed: PlaceOutcome, collected: Option<int>, afterCancel: Option<int>)
    requires pizza.menuID == 1 && pizza.price == 1000
    requires coffee.menuID == 2 && coffee.price == 300
    requires ParseAll(menuIDs) == Some([1, 2]) && ParseAll(quantityTokens) == Some([2, 1])
    ensures placed == Placed(1)
    ensures collected == Some(2300)
    ensures afterCancel == Some(0)
  {
    var app := new RestaurantApp([pizza, coffee], [], []);
    ghost var order := OrderView(1, [pizza, coffee], [2, 1], 2300, day, PLACED);
    placed := ExamplePlace(app, pizza, coffee, day, menuIDs, quantityTokens);
    collected := app.TrackCollections(Some(day));
    assert Collection([order], day) == 2300 by {
      assert [order][..0] == [];
    }
    var found := app.CancelOrder(1);
    assert app.ledger == [order.(status := CANCELLED)] by {
      CancelFirstAt([order], 1, 0);
    }
    afterCancel := app.TrackCollections(Some(day));
    assert Collection([order.(status := CANCELLED)], day) == 0 by {
      assert [order.(status := CANCELLED)][..0] == [];
    }
  }

  /** The placing step of the example session, on a session with no orders yet. */
  method ExamplePlace(app: RestaurantApp, pizza: MenuItem, coffee: MenuItem, day: Date,
                      menuIDs: seq<string>, quantityTokens: seq<string>)
    returns (placed: PlaceOutcome)
    requires app.Valid() && app.ledger == [] && app.menuItems == [pizza, coffee]
    requires pizza.menuID == 1 && pizza.price == 1000
    requires coffee.menuID == 2 && coffee.price == 300
    requires ParseAll(menuIDs) == Some([1, 2]) && ParseAll(quantityTokens) == Some([2, 1])
    modifies app
    ensures app.Valid() && |app.orders| == 1 && fresh(app.orders[0])
    ensures placed == Placed(1)
    ensures app.ledger == [OrderView(1, [pizza, coffee], [2, 1], 2300, day, PLACED)]
  {
    ExampleOrder(pizza, coffee);
    assert NextOrderId([]) == 1;
    placed := app.PlaceOrder(menuIDs, quantityTokens, Some(day));
  }

  /** The digit strings of the example do parse to the example's numbers. */
  lemma ExampleTokens()
    ensures ParseAll(["1", "2"]) == Some([1, 2]) && ParseAll(["2", "1"]) == Some([2, 1])
  {
    assert ParseInt("1") == Some(1) && ParseInt("2") == Some(2);
    ParseAllExample("1", 1, "2", 2);
    ParseAllExample("2", 2, "1", 1);
  }
}
