/** The admin orders page: the status filter, the status badge colour and
    label, and the short order number. Its page arithmetic is the customers
    page's. */
module AdminOrders {
  import opened Common
  import opened Store
  import AdminCustomers

  /** The status constraint the query gets: only a non-empty parameter other
      than "all" adds one. */
  function StatusFilter(param: Option<string>): (r: Option<string>)
    ensures r.Some? <==> param.Some? && param.value != "" && param.value != "all"
    ensures r.Some? ==> r.value == param.value
  {
    var status := OrEmpty(param);
    if status != "" && status != "all" then Some(status) else None
  }

  /** The rows the status constraint keeps. */
  function WithStatus(orders: seq<Order>, filter: Option<string>): (r: seq<Order>)
    ensures filter.None? ==> r == orders
    ensures forall o :: o in r <==> o in orders && (filter.None? || o.status == filter.value)
  {
    if filter.None? || orders == [] then orders
    else if orders[0].status == filter.value then [orders[0]] + WithStatus(orders[1..], filter)
    else WithStatus(orders[1..], filter)
  }

  /** "all", an empty or a missing parameter all list every order. */
  lemma AllMeansNoFilter(orders: seq<Order>)
    ensures WithStatus(orders, StatusFilter(Some("all"))) == orders
    ensures WithStatus(orders, StatusFilter(Some(""))) == orders
    ensures WithStatus(orders, StatusFilter(None)) == orders
  {
  }

  /** `.range(from, to)` on the filtered orders: the rows `from` to `to` that
      exist. A page below 1 gives a negative offset, which the store refuses,
      so no rows arrive. */
  function PageRows(rows: seq<Order>, page: int): (r: Option<seq<Order>>)
    ensures r.None? <==> page < 1
    ensures r.Some? ==> |r.value| <= AdminCustomers.PageSize
    ensures r.Some? ==> |r.value| == AdminCustomers.PageSize || AdminCustomers.RangeFrom(page) + |r.value| >= |rows|
    ensures r.Some? ==> forall j :: 0 <= j < |r.value| ==>
      AdminCustomers.RangeFrom(page) + j < |rows| && r.value[j] == rows[AdminCustomers.RangeFrom(page) + j]
  {
    if page < 1 then None
    else
      var from := AdminCustomers.RangeFrom(page);
      if from >= |rows| then Some([])
      else
        var end := if from + AdminCustomers.PageSize <= |rows| then from + AdminCustomers.PageSize else |rows|;
        Some(rows[from..end])
  }

  /** Every order the status filter keeps is listed: the `k`-th one appears on
      page `k / 10 + 1`, which is within the page count the page shows, at
      position `k % 10`. */
  lemma OrderOnItsPage(orders: seq<Order>, filter: Option<string>, k: nat)
    requires k < |WithStatus(orders, filter)|
    ensures var rows := WithStatus(orders, filter);
      var p := k / AdminCustomers.PageSize + 1;
      && p <= AdminCustomers.TotalPages(Some(|rows|))
      && PageRows(rows, p).Some?
      && k % AdminCustomers.PageSize < |PageRows(rows, p).value|
      && PageRows(rows, p).value[k % AdminCustomers.PageSize] == rows[k]
  {
    var rows := WithStatus(orders, filter);
    var p := k / AdminCustomers.PageSize + 1;
    AdminCustomers.EveryRowOnOnePage(|rows|, k);
    assert AdminCustomers.RangeFrom(p) + k % AdminCustomers.PageSize == k;
  }

  const Gray := "bg-gray-100 text-gray-800"

  /** `getStatusColor`: a colour class per known status, gray otherwise. */
  function StatusColor(status: string): (c: string)
    ensures status == "pending" ==> c == "bg-yellow-100 text-yellow-800"
    ensures status == "processing" ==> c == "bg-blue-100 text-blue-800"
    ensures status == "shipped" ==> c == "bg-purple-100 text-purple-800"
    ensures status == "delivered" ==> c == "bg-green-100 text-green-800"
    ensures status == "cancelled" ==> c == "bg-red-100 text-red-800"
    ensures c == Gray <==> status !in {"pending", "processing", "shipped", "delivered", "cancelled"}
  {
    match status
    case "pending" => "bg-yellow-100 text-yellow-800"
    case "processing" => "bg-blue-100 text-blue-800"
    case "shipped" => "bg-purple-100 text-purple-800"
    case "delivered" => "bg-green-100 text-green-800"
    case "cancelled" => "bg-red-100 text-red-800"
    case _ => Gray
  }

  /** The five known statuses get five different colours. */
  lemma KnownStatusesDistinct(a: string, b: string)
    requires a in {"pending", "processing", "shipped", "delivered", "cancelled"}
    requires b in {"pending", "processing", "shipped", "delivered", "cancelled"}
    requires a != b
    ensures StatusColor(a) != StatusColor(b)
  {
  }

  /** The badge label: first character upper-cased, the rest unchanged. */
  function Capitalize(s: string): (r: string)
    ensures |r| == |s|
    ensures s != [] ==> r[0] == ToUpperAscii(s[0]) && r[1..] == s[1..]
  {
    if s == [] then [] else [ToUpperAscii(s[0])] + s[1..]
  }

  /** Capitalising twice is capitalising once, and a lower-case status gets
      an upper-case initial. */
  lemma CapitalizeProperties(s: string)
    ensures Capitalize(Capitalize(s)) == Capitalize(s)
    ensures s != [] && IsAsciiLower(s[0]) ==> IsAsciiUpper(Capitalize(s)[0])
  {
    if s != [] {
      assert Capitalize(s)[1..] == s[1..];
    }
  }

  /** `id.substring(0, 8)`: the first eight characters, or all of a shorter
      id. */
  function ShortId(id: string): (r: string)
    ensures |r| == if |id| < 8 then |id| else 8
    ensures r == id[..|r|]
  {
    if |id| < 8 then id else id[..8]
  }
}
