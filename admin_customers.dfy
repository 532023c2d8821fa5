/** The admin customers page: one page of ten customers and, for each of
    them, the number of orders and the amount spent. The page arithmetic here
    is shared with the orders and products pages. */
module AdminCustomers {
  import opened Common

  const PageSize: nat := 10

  /** `Number(param) || 1`: a missing, non-numeric or zero parameter reads as
      page 1. `param` is the value of `Number(searchParams.page)`, which is
      `NaN` for a missing parameter. Negative numbers are not turned away. */
  function PageNumber(param: JsNumber): (page: int)
    ensures param.NaN? ==> page == 1
    ensures param.Num? && param.value == 0 ==> page == 1
    ensures param.Num? && param.value != 0 ==> page == param.value
  {
    if param.NaN? || param.value == 0 then 1 else param.value
  }

  /** First row index of a page. */
  function RangeFrom(page: int): int
  {
    (page - 1) * PageSize
  }

  /** Last row index of a page (inclusive). */
  function RangeTo(page: int): int
  {
    RangeFrom(page) + PageSize - 1
  }

  /** `count ? Math.ceil(count / 10) : 0`. */
  function TotalPages(count: Option<nat>): (pages: nat)
    ensures count.None? || count.value == 0 ==> pages == 0
    ensures count.Some? ==> pages * PageSize >= count.value
    ensures count.Some? && pages > 0 ==> (pages - 1) * PageSize < count.value
  {
    if count.None? || count.value == 0 then 0 else (count.value + PageSize - 1) / PageSize
  }

  /** Each page spans ten rows, and the next page starts right after it. */
  lemma PagesAreContiguous(page: int)
    ensures RangeTo(page) - RangeFrom(page) + 1 == 10
    ensures RangeFrom(page + 1) == RangeTo(page) + 1
  {
  }

  /** Every row of a result of `count` rows lies on exactly one of the pages
      1 to `TotalPages`. */
  lemma EveryRowOnOnePage(count: nat, k: nat)
    requires k < count
    ensures var p := k / PageSize + 1;
      1 <= p <= TotalPages(Some(count)) && RangeFrom(p) <= k <= RangeTo(p)
    ensures forall q :: RangeFrom(q) <= k <= RangeTo(q) ==> q == k / PageSize + 1
  {
  }

  /** A page number of at least 1 never gives a negative range; the parameter
      itself can still name a negative page. */
  lemma PageRange(param: JsNumber)
    ensures PageNumber(param) >= 1 ==> RangeFrom(PageNumber(param)) >= 0
    ensures param == Num(-1) ==> RangeFrom(PageNumber(param)) == -20
  {
  }

  /** The fields of a fetched order row that the stats read. */
  datatype OrderRow = OrderRow(userId: string, totalAmount: real)

  datatype Stats = Stats(orderCount: nat, totalSpent: real)

  /** The orders of `id`, counted. */
  function CountFor(orders: seq<OrderRow>, id: string): nat
  {
    if orders == [] then 0
    else CountFor(orders[..|orders| - 1], id) + (if orders[|orders| - 1].userId == id then 1 else 0)
  }

  /** The totals of the orders of `id`, summed. */
  function SpentFor(orders: seq<OrderRow>, id: string): real
  {
    if orders == [] then 0.0
    else SpentFor(orders[..|orders| - 1], id) + (if orders[|orders| - 1].userId == id then orders[|orders| - 1].totalAmount else 0.0)
  }

  /** The order query: rows of listed customers only, and skipped (no rows)
      when the page has no customers. */
  function CustomerOrders(customerIds: seq<string>, orders: seq<OrderRow>): (r: seq<OrderRow>)
    ensures customerIds == [] ==> r == []
    ensures forall o :: o in r <==> customerIds != [] && o in orders && o.userId in customerIds
  {
    if customerIds == [] then [] else Matching(orders, customerIds)
  }

  function Matching(orders: seq<OrderRow>, customerIds: seq<string>): (r: seq<OrderRow>)
    ensures forall o :: o in r <==> o in orders && o.userId in customerIds
  {
    if orders == [] then []
    else
      var last := orders[|orders| - 1];
      var front := Matching(orders[..|orders| - 1], customerIds);
      assert forall o :: o in orders <==> o in orders[..|orders| - 1] || o == last;
      if last.userId in customerIds then front + [last] else front
  }

  /** The two `forEach` loops: every listed customer starts at zero, then each
      fetched order of a listed customer adds one to its count and its total
      to its amount; other orders are skipped. */
  method CustomerStats(customerIds: seq<string>, orders: seq<OrderRow>) returns (stats: map<string, Stats>)
    ensures stats.Keys == set i | 0 <= i < |customerIds| :: customerIds[i]
    ensures forall id :: id in stats ==> stats[id] == Stats(CountFor(orders, id), SpentFor(orders, id))
  {
    stats := map[];
    var i := 0;
    while i < |customerIds|
      invariant 0 <= i <= |customerIds|
      invariant stats.Keys == set k | 0 <= k < i :: customerIds[k]
      invariant forall id :: id in stats ==> stats[id] == Stats(0, 0.0)
    {
      stats := stats[customerIds[i] := Stats(0, 0.0)];
      i := i + 1;
    }
    var j := 0;
    while j < |orders|
      invariant 0 <= j <= |orders|
      invariant stats.Keys == set k | 0 <= k < |customerIds| :: customerIds[k]
      invariant forall id :: id in stats ==> stats[id] == Stats(CountFor(orders[..j], id), SpentFor(orders[..j], id))
    {
      var o := orders[j];
      assert orders[..j + 1][..j] == orders[..j];
      if o.userId in stats {
        var s := stats[o.userId];
        stats := stats[o.userId := Stats(s.orderCount + 1, s.totalSpent + o.totalAmount)];
      }
      j := j + 1;
    }
    assert orders[..j] == orders;
  }

  /** A customer without orders shows 0 orders and 0 spent. */
  lemma {:induction false} NoOrdersNoStats(orders: seq<OrderRow>, id: string)
    requires forall k :: 0 <= k < |orders| ==> orders[k].userId != id
    ensures CountFor(orders, id) == 0 && SpentFor(orders, id) == 0.0
  {
    if orders != [] {
      NoOrdersNoStats(orders[..|orders| - 1], id);
    }
  }

  /** Orders of other users change neither the count nor the amount. */
  lemma {:induction false} OtherOrdersIgnored(orders: seq<OrderRow>, extra: OrderRow, id: string)
    requires extra.userId != id
    ensures CountFor(orders + [extra], id) == CountFor(orders, id)
    ensures SpentFor(orders + [extra], id) == SpentFor(orders, id)
  {
    assert (orders + [extra])[..|orders|] == orders;
  }

  /** The count is at most the number of fetched orders. */
  lemma {:induction false} CountAtMostOrders(orders: seq<OrderRow>, id: string)
    ensures CountFor(orders, id) <= |orders|
  {
    if orders != [] {
      CountAtMostOrders(orders[..|orders| - 1], id);
    }
  }

  /** The stats of a listed customer are the same over the filtered orders as
      over all of that customer's orders: the query loses none of them. */
  lemma {:induction false} FilterKeepsListedStats(orders: seq<OrderRow>, customerIds: seq<string>, id: string)
    requires id in customerIds
    ensures CountFor(CustomerOrders(customerIds, orders), id) == CountFor(orders, id)
    ensures SpentFor(CustomerOrders(customerIds, orders), id) == SpentFor(orders, id)
  {
    MatchingKeepsStats(orders, customerIds, id);
  }

  lemma {:induction false} MatchingKeepsStats(orders: seq<OrderRow>, customerIds: seq<string>, id: string)
    requires id in customerIds
    ensures CountFor(Matching(orders, customerIds), id) == CountFor(orders, id)
    ensures SpentFor(Matching(orders, customerIds), id) == SpentFor(orders, id)
    decreases |orders|
  {
    if orders != [] {
      var front := orders[..|orders| - 1];
      var last := orders[|orders| - 1];
      MatchingKeepsStats(front, customerIds, id);
      var m := Matching(front, customerIds);
      if last.userId in customerIds {
        assert (m + [last])[..|m|] == m;
      }
    }
  }
}
