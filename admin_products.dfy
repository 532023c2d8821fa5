/** The admin products page: the optional name and category constraints, the
    category label and the stock badge. Its page arithmetic is the customers
    page's. */
module AdminProducts {
  import opened Common
  import opened Store
  import AdminCustomers

  /** The constraints added to the query; each is present only when its
      parameter is non-empty. */
  datatype Constraints = Constraints(nameLike: Option<string>, categoryId: Option<string>)

  function QueryConstraints(search: Option<string>, category: Option<string>): (c: Constraints)
    ensures c.nameLike.Some? <==> OrEmpty(search) != ""
    ensures c.categoryId.Some? <==> OrEmpty(category) != ""
    ensures c.nameLike.Some? ==> c.nameLike.value == search.value
    ensures c.categoryId.Some? ==> c.categoryId.value == category.value
  {
    var s := OrEmpty(search);
    var k := OrEmpty(category);
    Constraints(if s != "" then Some(s) else None, if k != "" then Some(k) else None)
  }

  /** The category constraint on a product row. The name constraint is a
      server-side pattern match that is not part of this model. */
  predicate InCategory(p: Product, c: Constraints)
  {
    c.categoryId.None? || p.categoryId == c.categoryId
  }

  /** Without parameters every product is listed; with a category only that
      category's products are. */
  lemma CategoryConstraint(p: Product, category: string)
    ensures InCategory(p, QueryConstraints(None, None))
    ensures category != "" ==>
      (InCategory(p, QueryConstraints(None, Some(category))) <==> p.categoryId == Some(category))
  {
  }

  /** The page range and page count of the products list. */
  lemma ProductsPagination(param: JsNumber, count: Option<nat>)
    ensures AdminCustomers.PageNumber(param) == 1 ==> AdminCustomers.RangeFrom(1) == 0 && AdminCustomers.RangeTo(1) == 9
    ensures count.None? ==> AdminCustomers.TotalPages(count) == 0
    ensures count == Some(25) ==> AdminCustomers.TotalPages(count) == 3
  {
  }

  /** `categories?.name || "Uncategorized"`. */
  function CategoryLabel(name: Option<string>): (text: string)
    ensures text != ""
    ensures name.Some? && name.value != "" ==> text == name.value
    ensures name.None? ==> text == "Uncategorized"
  {
    OrElse(OrEmpty(name), "Uncategorized")
  }

  /** The stock badge. */
  function StockBadge(stock: int): (badge: string)
    ensures stock > 0 ==> badge == "In Stock (" + IntToString(stock) + ")"
    ensures stock <= 0 ==> badge == "Out of Stock"
  {
    if stock > 0 then "In Stock (" + IntToString(stock) + ")" else "Out of Stock"
  }

  /** The badge reads "In Stock" exactly when the stock is positive: zero and
      negative stock both read "Out of Stock". */
  lemma BadgeIffPositive(stock: int)
    ensures StartsWith(StockBadge(stock), "In Stock") <==> stock > 0
  {
    var b := StockBadge(stock);
    if stock > 0 {
      assert b[..8] == "In Stock";
    } else {
      assert b[0] == 'O';
    }
  }
}
