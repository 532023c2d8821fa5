/** The public product catalogue page: the shopper's cart quantities by
    product, the constraints the URL parameters put on the product query, and
    the largest listed price, which the page passes to the filter panel as
    `maxProductPrice`; the panel never reads it. */
module CatalogPage {
  import opened Common
  import opened Store

  /** A row of the shopper's cart as the page fetches it. */
  datatype CartEntry = CartEntry(productId: nat, quantity: int)

  /** A row of `categories`. */
  datatype Category = Category(id: string, name: string, slug: string)

  /** The page's URL parameters; an absent parameter is `None`. */
  datatype SearchParams = SearchParams(
    category: Option<string>,
    minPrice: Option<string>,
    maxPrice: Option<string>,
    search: Option<string>)

  /** The reduce into `cartItemsMap`: each entry writes its quantity under its
      product, in cart order. */
  function CartItemsMap(items: seq<CartEntry>): map<nat, int>
  {
    if items == [] then map[]
    else
      var last := items[|items| - 1];
      CartItemsMap(items[..|items| - 1])[last.productId := last.quantity]
  }

  /** `cartItemsMap[product.id] || 0`. */
  function CartQuantity(m: map<nat, int>, productId: nat): (q: int)
    ensures productId !in m ==> q == 0
    ensures productId in m ==> q == m[productId]
  {
    if productId in m then m[productId] else 0
  }

  /** The map has a key exactly for the products in the cart, and the value
      under a product is the quantity of its LAST cart entry: a later
      duplicate overwrites an earlier one. */
  lemma {:induction false} CartItemsMapLastWins(items: seq<CartEntry>, k: nat)
    requires k < |items|
    requires forall j :: k < j < |items| ==> items[j].productId != items[k].productId
    ensures items[k].productId in CartItemsMap(items)
    ensures CartItemsMap(items)[items[k].productId] == items[k].quantity
  {
    if k < |items| - 1 {
      CartItemsMapLastWins(items[..|items| - 1], k);
    }
  }

  /** A product without a cart entry has no key, so the page shows 0 for it. */
  lemma {:induction false} NotInCartShowsZero(items: seq<CartEntry>, productId: nat)
    requires forall j :: 0 <= j < |items| ==> items[j].productId != productId
    ensures productId !in CartItemsMap(items)
    ensures CartQuantity(CartItemsMap(items), productId) == 0
  {
    if items != [] {
      NotInCartShowsZero(items[..|items| - 1], productId);
    }
  }

  /** Number of categories with slug `slug`. */
  function CountSlug(categories: seq<Category>, slug: string): (n: nat)
    ensures n == 0 <==> forall i :: 0 <= i < |categories| ==> categories[i].slug != slug
  {
    if categories == [] then 0
    else (if categories[0].slug == slug then 1 else 0) + CountSlug(categories[1..], slug)
  }

  /** The id of the first category with slug `slug`. */
  function FirstWithSlug(categories: seq<Category>, slug: string): (r: Option<string>)
    ensures r.None? <==> CountSlug(categories, slug) == 0
    ensures r.Some? ==> exists i :: 0 <= i < |categories| && categories[i].slug == slug && categories[i].id == r.value
  {
    if categories == [] then None
    else if categories[0].slug == slug then Some(categories[0].id)
    else
      var r := FirstWithSlug(categories[1..], slug);
      if r.Some? then
        var i :| 0 <= i < |categories[1..]| && categories[1..][i].slug == slug && categories[1..][i].id == r.value;
        assert categories[i + 1] == categories[1..][i];
        r
      else r
  }

  /** The `.eq("slug", …).single()` lookup: an id only when exactly one
      category has the slug. Its `{ error }` is dropped, so a read that
      reports an error (`readFails`) gives no id either. */
  function CategoryBySlug(categories: seq<Category>, slug: string, readFails: bool): (r: Option<string>)
    ensures r.Some? <==> !readFails && CountSlug(categories, slug) == 1
    ensures r.Some? ==> exists i :: 0 <= i < |categories| && categories[i].slug == slug && categories[i].id == r.value
  {
    if !readFails && CountSlug(categories, slug) == 1 then FirstWithSlug(categories, slug) else None
  }

  /** The constraints the page adds to the product query. The name pattern is
      kept as the search text. */
  datatype Query = Query(
    categoryId: Option<string>,
    minPrice: Option<real>,
    maxPrice: Option<real>,
    nameLike: Option<string>)

  /** Builds the query from the URL: each parameter adds its constraint only
      when it is present and non-empty, and the category one only when its
      slug names a category and the category read succeeds. `parseFloat`
      stands for `Number.parseFloat`. */
  function BuildQuery(params: SearchParams, categories: seq<Category>, categoryReadFails: bool, parseFloat: string -> real): (q: Query)
    ensures q.categoryId.Some? <==> OrEmpty(params.category) != "" && !categoryReadFails && CountSlug(categories, params.category.value) == 1
    ensures q.minPrice.Some? <==> OrEmpty(params.minPrice) != ""
    ensures q.maxPrice.Some? <==> OrEmpty(params.maxPrice) != ""
    ensures q.nameLike.Some? <==> OrEmpty(params.search) != ""
    ensures q.minPrice.Some? ==> q.minPrice.value == parseFloat(params.minPrice.value)
    ensures q.maxPrice.Some? ==> q.maxPrice.value == parseFloat(params.maxPrice.value)
    ensures q.nameLike.Some? ==> q.nameLike.value == params.search.value
  {
    Query(
      if OrEmpty(params.category) != "" then CategoryBySlug(categories, params.category.value, categoryReadFails) else None,
      if OrEmpty(params.minPrice) != "" then Some(parseFloat(params.minPrice.value)) else None,
      if OrEmpty(params.maxPrice) != "" then Some(parseFloat(params.maxPrice.value)) else None,
      if OrEmpty(params.search) != "" then Some(params.search.value) else None)
  }

  /** The category and price constraints on a product row (`eq`, `gte`,
      `lte`). The name pattern is not part of this predicate. */
  predicate Listed(p: Product, q: Query)
  {
    && (q.categoryId.None? || p.categoryId == q.categoryId)
    && (q.minPrice.None? || p.price >= q.minPrice.value)
    && (q.maxPrice.None? || p.price <= q.maxPrice.value)
  }

  /** A category slug no category has adds no constraint: the page lists the
      products of every category. */
  lemma UnknownSlugAddsNoConstraint(params: SearchParams, categories: seq<Category>, categoryReadFails: bool, parseFloat: string -> real, p: Product)
    requires params.category.Some?
    requires forall i :: 0 <= i < |categories| ==> categories[i].slug != params.category.value
    requires params.minPrice.None? && params.maxPrice.None?
    ensures BuildQuery(params, categories, categoryReadFails, parseFloat).categoryId.None?
    ensures Listed(p, BuildQuery(params, categories, categoryReadFails, parseFloat))
  {
  }

  /** A category read that reports an error is treated like an unknown slug:
      the category filter is silently dropped and every category is listed,
      even for a slug that names a category. */
  lemma FailedCategoryReadDropsFilter(params: SearchParams, categories: seq<Category>, parseFloat: string -> real, p: Product)
    requires params.minPrice.None? && params.maxPrice.None?
    ensures BuildQuery(params, categories, true, parseFloat).categoryId.None?
    ensures Listed(p, BuildQuery(params, categories, true, parseFloat))
  {
  }

  /** When the category read succeeds, a known slug keeps exactly the products of that category, and price
      bounds keep exactly the products priced within them. */
  lemma ConstraintsMeanWhatTheySay(params: SearchParams, categories: seq<Category>, parseFloat: string -> real, p: Product, k: nat)
    requires k < |categories| && params.category == Some(categories[k].slug) && categories[k].slug != ""
    requires CountSlug(categories, categories[k].slug) == 1
    requires OrEmpty(params.minPrice) != "" && OrEmpty(params.maxPrice) != ""
    ensures Listed(p, BuildQuery(params, categories, false, parseFloat)) <==>
      && p.categoryId == Some(categories[k].id)
      && parseFloat(params.minPrice.value) <= p.price <= parseFloat(params.maxPrice.value)
  {
    var q := BuildQuery(params, categories, false, parseFloat);
    var i :| 0 <= i < |categories| && categories[i].slug == categories[k].slug && categories[i].id == q.categoryId.value;
    SlugsUnique(categories, categories[k].slug, i, k);
  }

  /** Two positions holding a slug that occurs once are the same position. */
  lemma {:induction false} SlugsUnique(categories: seq<Category>, slug: string, i: nat, k: nat)
    requires i < |categories| && k < |categories|
    requires categories[i].slug == slug && categories[k].slug == slug
    requires CountSlug(categories, slug) == 1
    ensures i == k
  {
    if i != 0 && k != 0 {
      SlugsUnique(categories[1..], slug, i - 1, k - 1);
    }
  }

  /** `maxProductPrice`: the largest listed price, or 1000 when nothing is
      listed. The filter panel ignores it and fixes its slider's end at 1000. */
  function MaxPrice(products: seq<Product>): (m: real)
    ensures products == [] ==> m == 1000.0
    ensures forall i :: 0 <= i < |products| ==> products[i].price <= m
    ensures products != [] ==> exists i :: 0 <= i < |products| && products[i].price == m
  {
    if products == [] then 1000.0
    else if |products| == 1 then products[0].price
    else
      var rest := MaxPrice(products[1..]);
      assert forall i :: 1 <= i < |products| ==> products[i] == products[1..][i - 1];
      if products[0].price >= rest then products[0].price else rest
  }
}
