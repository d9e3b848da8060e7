/**
 * The tracker's entities: menu items, orders and collection reports.
 * Money is held in integer cents; a date is a calendar day.
 */
module Entities {

  /** A day as `yyyy-MM-dd` names it; two dates are equal when all three parts are. */
  datatype Date = Date(year: int, month: int, day: int)

  /** A menu entry; `price` is in cents. */
  datatype MenuItem = MenuItem(menuID: int, name: string, price: int)

  /** The collection recorded for one date; the amount is in cents. */
  datatype CollectionReport = CollectionReport(date: Date, totalCollectionAmount: int)

  const PLACED: string := "Placed"
  const CANCELLED: string := "Cancelled"

  /**
   * The bill of an order: the sum of price times quantity over the first
   * |items| positions, items and quantities aligned by position. Quantities
   * past the last item take no part.
   */
  function BillTotal(items: seq<MenuItem>, quantities: seq<int>): int
    requires |items| <= |quantities|
  {
    if items == [] then 0
    else BillTotal(items[..|items| - 1], quantities) + items[|items| - 1].price * quantities[|items| - 1]
  }

  /** Quantities past the last item never change the bill. */
  lemma {:induction false} BillTotalIgnoresExtraQuantities(items: seq<MenuItem>, quantities: seq<int>)
    requires |items| <= |quantities|
    ensures BillTotal(items, quantities) == BillTotal(items, quantities[..|items|])
  {
    if items != [] {
      var front := items[..|items| - 1];
      BillTotalIgnoresExtraQuantities(front, quantities);
      BillTotalIgnoresExtraQuantities(front, quantities[..|items|]);
      assert quantities[..|items|][..|front|] == quantities[..|front|];
    }
  }

  /** Splitting the line items in two splits the bill in two. */
  lemma {:induction false} BillTotalConcat(a: seq<MenuItem>, qa: seq<int>, b: seq<MenuItem>, qb: seq<int>)
    requires |a| == |qa| && |b| <= |qb|
    ensures BillTotal(a + b, qa + qb) == BillTotal(a, qa) + BillTotal(b, qb)
  {
    if b == [] {
      assert a + b == a;
      BillTotalIgnoresExtraQuantities(a, qa + qb);
      assert (qa + qb)[..|a|] == qa;
    } else {
      var front := b[..|b| - 1];
      BillTotalConcat(a, qa, front, qb);
      assert (a + b)[..|a + b| - 1] == a + front;
    }
  }

  /** With no negative prices and no negative quantities the bill is not negative. */
  lemma {:induction false} BillTotalNonNegative(items: seq<MenuItem>, quantities: seq<int>)
    requires |items| <= |quantities|
    requires forall i :: 0 <= i < |items| ==> items[i].price >= 0 && quantities[i] >= 0
    ensures BillTotal(items, quantities) >= 0
  {
    if items != [] {
      BillTotalNonNegative(items[..|items| - 1], quantities);
    }
  }

  /** The state of an order at one moment, field by field. */
  datatype OrderView = OrderView(
    orderID: int,
    menuItems: seq<MenuItem>,
    quantities: seq<int>,
    totalBillAmount: int,
    date: Date,
    status: string)

  /** The total of an order agrees with its items and quantities. */
  predicate Consistent(v: OrderView) {
    |v.menuItems| <= |v.quantities| && v.totalBillAmount == BillTotal(v.menuItems, v.quantities)
  }

  /**
   * An order. Its total is derived: every change of the items or the
   * quantities recomputes it.
   */
  class Order {
    var orderID: int
    var menuItems: seq<MenuItem>
    var quantities: seq<int>
    var totalBillAmount: int
    var date: Date
    var status: string

    function View(): OrderView
      reads this
    {
      OrderView(orderID, menuItems, quantities, totalBillAmount, date, status)
    }

    ghost predicate Valid()
      reads this
    {
      Consistent(View())
    }

    /** A new order whose total is computed from the given lines. */
    constructor (orderID: int, menuItems: seq<MenuItem>, quantities: seq<int>, date: Date, status: string)
      requires |menuItems| <= |quantities|
      ensures Valid()
      ensures View() == OrderView(orderID, menuItems, quantities, BillTotal(menuItems, quantities), date, status)
    {
      this.orderID := orderID;
      this.menuItems := menuItems;
      this.quantities := quantities;
      this.date := date;
      this.status := status;
      new;
      CalculateTotalBillAmount();
    }

    /** Replaces the items and recomputes the total. */
    method SetMenuItems(menuItems: seq<MenuItem>)
      requires |menuItems| <= |quantities|
      modifies this
      ensures Valid()
      ensures View() == old(View()).(menuItems := menuItems, totalBillAmount := BillTotal(menuItems, old(quantities)))
    {
      this.menuItems := menuItems;
      CalculateTotalBillAmount();
    }

    /** Replaces the quantities and recomputes the total. */
    method SetQuantities(quantities: seq<int>)
      requires |menuItems| <= |quantities|
      modifies this
      ensures Valid()
      ensures View() == old(View()).(quantities := quantities, totalBillAmount := BillTotal(old(menuItems), quantities))
    {
      this.quantities := quantities;
      CalculateTotalBillAmount();
    }

    method SetStatus(status: string)
      modifies this`status
      ensures View() == old(View()).(status := status)
    {
      this.status := status;
    }

    /** Sums price times quantity over the items, in order, into the total. */
    method CalculateTotalBillAmount()
      requires |menuItems| <= |quantities|
      modifies this`totalBillAmount
      ensures Valid()
      ensures totalBillAmount == BillTotal(menuItems, quantities)
    {
      var billAmount := 0;
      for i := 0 to |menuItems|
        invariant billAmount == BillTotal(menuItems[..i], quantities)
      {
        assert menuItems[..i + 1][..i] == menuItems[..i];
        billAmount := billAmount + menuItems[i].price * quantities[i];
      }
      assert menuItems[..|menuItems|] == menuItems;
      totalBillAmount := billAmount;
    }
  }
}
