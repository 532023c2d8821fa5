/** The dashboard's top-selling list: each product's bar is its quantity as a
    percentage of the largest quantity in the list. */
module TopSelling {
  import opened Common

  datatype Item = Item(productId: nat, quantity: int)

  /** `Math.max` over the quantities, or 0 for an empty list. */
  function MaxQuantity(items: seq<Item>): (m: int)
    ensures items == [] ==> m == 0
    ensures forall i :: 0 <= i < |items| ==> items[i].quantity <= m
    ensures items != [] ==> exists i :: 0 <= i < |items| && items[i].quantity == m
  {
    if items == [] then 0
    else if |items| == 1 then items[0].quantity
    else
      var rest := MaxQuantity(items[1..]);
      assert forall i :: 1 <= i < |items| ==> items[i] == items[1..][i - 1];
      if items[0].quantity >= rest then items[0].quantity else rest
  }

  /** The bar length: quantity over the maximum, times 100; 0 when the
      maximum is not positive. */
  function Percentage(quantity: int, maxQuantity: int): real
  {
    if maxQuantity > 0 then quantity as real / maxQuantity as real * 100.0 else 0.0
  }

  /** The text shown instead of the list when it is empty. */
  function EmptyText(items: seq<Item>): (r: Option<string>)
    ensures r.Some? <==> items == []
    ensures r.Some? ==> r.value == "No product data available"
  {
    if items == [] then Some("No product data available") else None
  }

  /** With non-negative quantities every bar lies between 0 and 100, and an
      item with the largest quantity fills it. */
  lemma PercentageBounds(items: seq<Item>, k: nat)
    requires forall i :: 0 <= i < |items| ==> items[i].quantity >= 0
    requires k < |items|
    ensures 0.0 <= Percentage(items[k].quantity, MaxQuantity(items)) <= 100.0
    ensures MaxQuantity(items) > 0 && items[k].quantity == MaxQuantity(items) ==>
      Percentage(items[k].quantity, MaxQuantity(items)) == 100.0
  {
    var m := MaxQuantity(items);
    if m > 0 {
      RatioBounds(items[k].quantity as real, m as real);
    }
  }

  lemma RatioBounds(q: real, m: real)
    requires 0.0 <= q <= m && m > 0.0
    ensures 0.0 <= q / m * 100.0 <= 100.0
    ensures q == m ==> q / m * 100.0 == 100.0
  {
    var r := q / m;
    assert r * m == q;
  }

  /** When every quantity is 0 every bar is empty. */
  lemma AllZero(items: seq<Item>, k: nat)
    requires forall i :: 0 <= i < |items| ==> items[i].quantity == 0
    requires k < |items|
    ensures Percentage(items[k].quantity, MaxQuantity(items)) == 0.0
  {
  }
}
