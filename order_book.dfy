/**
 * Functions on the list of orders, seen as values: the largest id, the next
 * id, cancelling the first order with an id, and the collection of a date.
 * The restaurant's methods are proved against them.
 */
module OrderBook {
  import opened JavaInt
  import opened Entities

  /** The largest order id, or 0 when there is none larger (the running maximum starts at 0). */
  function MaxOrderId(orders: seq<OrderView>): (r: int)
    ensures r >= 0
    ensures forall i :: 0 <= i < |orders| ==> orders[i].orderID <= r
    ensures r == 0 || exists i :: 0 <= i < |orders| && orders[i].orderID == r
  {
    if orders == [] then 0
    else
      var m := MaxOrderId(orders[..|orders| - 1]);
      var id := orders[|orders| - 1].orderID;
      if id > m then id else m
  }

  /** The id a newly placed order receives: one past the largest, so 1 for the first order. */
  function NextOrderId(orders: seq<OrderView>): (r: int)
    ensures r >= 1
    ensures forall i :: 0 <= i < |orders| ==> orders[i].orderID < r
    ensures orders == [] ==> r == 1
  {
    MaxOrderId(orders) + 1
  }

  /** The next id as the Java `int` expression `getLastOrderID() + 1` computes it. */
  function NextOrderIdAsWritten(orders: seq<OrderView>): (r: int)
    requires forall i :: 0 <= i < |orders| ==> IsInt(orders[i].orderID)
    ensures IsInt(r)
  {
    Wrap(MaxOrderId(orders) + 1)
  }

  /** Below the largest `int`, the Java expression agrees with the unbounded one. */
  lemma NextOrderIdAsWrittenAgrees(orders: seq<OrderView>)
    requires forall i :: 0 <= i < |orders| ==> IsInt(orders[i].orderID)
    requires MaxOrderId(orders) < MAX_VALUE
    ensures NextOrderIdAsWritten(orders) == NextOrderId(orders)
  {
  }

  /**
   * Once an order carries the largest `int` id, the next id wraps around to
   * the smallest `int` and is no longer fresh.
   */
  lemma NextOrderIdAsWrittenWraps(v: OrderView)
    requires v.orderID == MAX_VALUE
    ensures NextOrderIdAsWritten([v]) == MIN_VALUE
    ensures NextOrderIdAsWritten([v]) < v.orderID
  {
  }

  /** Whether `k` is the first position holding an order with id `id`. */
  predicate IsFirstWithId(orders: seq<OrderView>, id: int, k: int) {
    0 <= k < |orders| && orders[k].orderID == id &&
    forall i :: 0 <= i < k ==> orders[i].orderID != id
  }

  /** The list with the first order of id `id` marked cancelled; the list itself if none has it. */
  function CancelFirst(orders: seq<OrderView>, id: int): (r: seq<OrderView>)
    ensures |r| == |orders|
    ensures forall i :: 0 <= i < |orders| ==>
      r[i] == orders[i] || (orders[i].orderID == id && r[i] == orders[i].(status := CANCELLED))
  {
    if orders == [] then []
    else if orders[0].orderID == id then [orders[0].(status := CANCELLED)] + orders[1..]
    else [orders[0]] + CancelFirst(orders[1..], id)
  }

  /** Cancelling changes the status of the first order with the id and nothing else. */
  lemma {:induction false} CancelFirstAt(orders: seq<OrderView>, id: int, k: int)
    requires IsFirstWithId(orders, id, k)
    ensures CancelFirst(orders, id) == orders[k := orders[k].(status := CANCELLED)]
  {
    var c := orders[k].(status := CANCELLED);
    if k == 0 {
      assert [c] + orders[1..] == orders[k := c];
    } else {
      CancelFirstAt(orders[1..], id, k - 1);
      assert [orders[0]] + orders[1..][k - 1 := c] == orders[k := c];
    }
  }

  /** Cancelling an id no order has changes nothing. */
  lemma CancelFirstAbsent(orders: seq<OrderView>, id: int)
    requires forall i :: 0 <= i < |orders| ==> orders[i].orderID != id
    ensures CancelFirst(orders, id) == orders
  {
  }

  /** Cancelling twice leaves the same list as cancelling once. */
  lemma {:induction false} CancelFirstIdempotent(orders: seq<OrderView>, id: int)
    ensures CancelFirst(CancelFirst(orders, id), id) == CancelFirst(orders, id)
  {
    if orders != [] && orders[0].orderID != id {
      CancelFirstIdempotent(orders[1..], id);
    }
  }

  /** Cancelling keeps every order's total consistent with its lines. */
  lemma CancelFirstConsistent(orders: seq<OrderView>, id: int)
    requires forall i :: 0 <= i < |orders| ==> Consistent(orders[i])
    ensures forall i :: 0 <= i < |orders| ==> Consistent(CancelFirst(orders, id)[i])
  {
  }

  /** What one order adds to the collection of `date`: its total if placed on that date. */
  function Contribution(v: OrderView, date: Date): int {
    if v.date == date && v.status == PLACED then v.totalBillAmount else 0
  }

  /** The sum of the totals of the orders placed on `date` whose status is exactly "Placed". */
  function Collection(orders: seq<OrderView>, date: Date): int {
    if orders == [] then 0
    else Collection(orders[..|orders| - 1], date) + Contribution(orders[|orders| - 1], date)
  }

  /** A new order adds its contribution to the collection and nothing more. */
  lemma CollectionAppend(orders: seq<OrderView>, v: OrderView, date: Date)
    ensures Collection(orders + [v], date) == Collection(orders, date) + Contribution(v, date)
  {
  }

  /** Replacing one order changes the collection by the difference of the two contributions. */
  lemma {:induction false} CollectionUpdate(orders: seq<OrderView>, k: int, v: OrderView, date: Date)
    requires 0 <= k < |orders|
    ensures Collection(orders[k := v], date)
         == Collection(orders, date) - Contribution(orders[k], date) + Contribution(v, date)
  {
    var n := |orders|;
    if k < n - 1 {
      CollectionUpdate(orders[..n - 1], k, v, date);
      assert orders[k := v][..n - 1] == orders[..n - 1][k := v];
    } else {
      assert orders[k := v][..n - 1] == orders[..n - 1];
    }
  }

  /** Cancelling an order takes its contribution out of the collection of every date. */
  lemma CollectionAfterCancel(orders: seq<OrderView>, id: int, k: int, date: Date)
    requires IsFirstWithId(orders, id, k)
    ensures Collection(CancelFirst(orders, id), date) == Collection(orders, date) - Contribution(orders[k], date)
  {
    CancelFirstAt(orders, id, k);
    CollectionUpdate(orders, k, orders[k].(status := CANCELLED), date);
  }

  /** When no order of `date` has the status "Placed", that date collects nothing. */
  lemma {:induction false} CollectionWithoutPlaced(orders: seq<OrderView>, date: Date)
    requires forall i :: 0 <= i < |orders| && orders[i].date == date ==> orders[i].status != PLACED
    ensures Collection(orders, date) == 0
  {
    if orders != [] {
      CollectionWithoutPlaced(orders[..|orders| - 1], date);
    }
  }
}
