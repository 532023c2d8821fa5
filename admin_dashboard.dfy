/** The admin dashboard's headline figures: number of orders, revenue, pending
    orders, and the product and customer counts. */
module AdminDashboard {
  import opened Common
  import opened Store

  /** `orderStats?.length || 0`: no data reads as 0. */
  function TotalOrders(data: Option<seq<Order>>): (n: nat)
    ensures data.None? ==> n == 0
    ensures data.Some? ==> n == |data.value|
  {
    if data.None? then 0 else |data.value|
  }

  /** The reduce of the order totals, from 0. */
  function Revenue(orders: seq<Order>): real
  {
    if orders == [] then 0.0 else Revenue(orders[..|orders| - 1]) + orders[|orders| - 1].totalAmount
  }

  /** `orderStats?.reduce(...) || 0`. */
  function TotalRevenue(data: Option<seq<Order>>): (r: real)
    ensures data.None? ==> r == 0.0
    ensures data.Some? ==> r == Revenue(data.value)
  {
    if data.None? then 0.0 else Revenue(data.value)
  }

  /** The orders whose status is exactly "pending". */
  function Pending(orders: seq<Order>): (n: nat)
    ensures n <= |orders|
  {
    if orders == [] then 0
    else Pending(orders[..|orders| - 1]) + (if orders[|orders| - 1].status == "pending" then 1 else 0)
  }

  function PendingOrders(data: Option<seq<Order>>): (n: nat)
    ensures data.None? ==> n == 0
    ensures data.Some? ==> n == Pending(data.value)
  {
    if data.None? then 0 else Pending(data.value)
  }

  /** `count || 0` for the product and customer cards. */
  function CountOrZero(count: Option<nat>): (n: nat)
    ensures count.Some? ==> n == count.value
    ensures count.None? ==> n == 0
  {
    if count.None? then 0 else count.value
  }

  /** Pending orders never outnumber all orders. */
  lemma PendingAtMostTotal(data: Option<seq<Order>>)
    ensures PendingOrders(data) <= TotalOrders(data)
  {
  }

  /** Pending is a count of exactly the rows with that status: all rows
      pending gives the total, none pending gives 0. */
  lemma {:induction false} PendingExtremes(orders: seq<Order>)
    ensures (forall i :: 0 <= i < |orders| ==> orders[i].status == "pending") ==> Pending(orders) == |orders|
    ensures (forall i :: 0 <= i < |orders| ==> orders[i].status != "pending") ==> Pending(orders) == 0
  {
    if orders != [] {
      var front := orders[..|orders| - 1];
      PendingExtremes(front);
    }
  }

  /** Revenue adds up over concatenation: it is the sum of the totals. */
  lemma {:induction false} RevenueAppend(a: seq<Order>, b: seq<Order>)
    ensures Revenue(a + b) == Revenue(a) + Revenue(b)
    decreases |b|
  {
    if b == [] {
      assert a + b == a;
    } else {
      assert (a + b)[..|a + b| - 1] == a + b[..|b| - 1];
      RevenueAppend(a, b[..|b| - 1]);
    }
  }

  /** With non-negative order totals the revenue is non-negative and at least
      every single order's total. */
  lemma {:induction false} RevenueBounds(orders: seq<Order>, k: nat)
    requires forall i :: 0 <= i < |orders| ==> orders[i].totalAmount >= 0.0
    requires k < |orders|
    ensures Revenue(orders) >= orders[k].totalAmount >= 0.0
  {
    var front := orders[..|orders| - 1];
    RevenueNonNegative(front);
    if k < |orders| - 1 {
      RevenueBounds(front, k);
    }
  }

  lemma {:induction false} RevenueNonNegative(orders: seq<Order>)
    requires forall i :: 0 <= i < |orders| ==> orders[i].totalAmount >= 0.0
    ensures Revenue(orders) >= 0.0
  {
    if orders != [] {
      RevenueNonNegative(orders[..|orders| - 1]);
    }
  }
}
