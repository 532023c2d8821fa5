/** The server action `checkStockAvailability`: it reads the stock of every
    product in the cart in one query, builds a lookup table, and either returns
    `true` or throws one error naming every cart line that cannot be served. */
module StockActions {
  import opened Common
  import Store

  /** A cart line as the check sees it. */
  datatype CartLine = CartLine(productId: nat, quantity: int)

  /** A row returned by `select("id, name, stock_quantity")`. */
  datatype StockRow = StockRow(id: nat, name: string, stock: int)

  datatype StockInfo = StockInfo(name: string, stock: int)

  /** The lookup table built by reducing the fetched rows: a later row with the
      same id overwrites an earlier one. */
  function StockMap(rows: seq<StockRow>): (m: map<nat, StockInfo>)
    ensures forall id :: id in m <==> exists i :: 0 <= i < |rows| && rows[i].id == id
  {
    if rows == [] then map[]
    else
      var last := rows[|rows| - 1];
      var m := StockMap(rows[..|rows| - 1]);
      assert forall i :: 0 <= i < |rows| - 1 ==> rows[..|rows| - 1][i] == rows[i];
      m[last.id := StockInfo(last.name, last.stock)]
  }

  /** A line fails when its product was not returned or has less stock than
      requested; a request equal to the stock passes. */
  predicate OutOfStock(m: map<nat, StockInfo>, line: CartLine)
  {
    line.productId !in m || m[line.productId].stock < line.quantity
  }

  /** The failing lines, in cart order. */
  function OutOfStockItems(m: map<nat, StockInfo>, cart: seq<CartLine>): (r: seq<CartLine>)
    ensures |r| <= |cart|
    ensures forall line :: line in r <==> line in cart && OutOfStock(m, line)
  {
    if cart == [] then []
    else if OutOfStock(m, cart[0]) then [cart[0]] + OutOfStockItems(m, cart[1..])
    else OutOfStockItems(m, cart[1..])
  }

  /** The failing lines of a concatenation are those of each part, in order:
      together with `OutOfStockItemsSingle` this says the result is the
      in-order filter of the cart. */
  lemma {:induction false} OutOfStockItemsAppend(m: map<nat, StockInfo>, a: seq<CartLine>, b: seq<CartLine>)
    ensures OutOfStockItems(m, a + b) == OutOfStockItems(m, a) + OutOfStockItems(m, b)
  {
    if a != [] {
      assert (a + b)[0] == a[0];
      assert (a + b)[1..] == a[1..] + b;
      OutOfStockItemsAppend(m, a[1..], b);
    } else {
      assert a + b == b;
    }
  }

  /** One line is kept exactly when it fails. */
  lemma OutOfStockItemsSingle(m: map<nat, StockInfo>, line: CartLine)
    ensures OutOfStockItems(m, [line]) == if OutOfStock(m, line) then [line] else []
  {
    assert [line][1..] == [];
  }

  /** Duplicate lines are kept: a failing line occurs in the result as often
      as in the cart, and a passing one not at all. */
  lemma {:induction false} OutOfStockItemsCount(m: map<nat, StockInfo>, cart: seq<CartLine>, line: CartLine)
    ensures multiset(OutOfStockItems(m, cart))[line] == if OutOfStock(m, line) then multiset(cart)[line] else 0
  {
    if cart != [] {
      assert cart == [cart[0]] + cart[1..];
      OutOfStockItemsCount(m, cart[1..], line);
    }
  }

  /** How one failing line is reported. */
  function Describe(m: map<nat, StockInfo>, line: CartLine): string
  {
    if line.productId !in m then "Unknown product"
    else
      var p := m[line.productId];
      p.name + " (requested: " + IntToString(line.quantity) + ", available: " + IntToString(p.stock) + ")"
  }

  /** A missing product reads "Unknown product"; a known one starts with its
      name and the requested quantity's label. */
  lemma DescribeNamesProduct(m: map<nat, StockInfo>, line: CartLine)
    ensures line.productId !in m ==> Describe(m, line) == "Unknown product"
    ensures line.productId in m ==> StartsWith(Describe(m, line), m[line.productId].name + " (requested: ")
  {
    if line.productId in m {
      var p := m[line.productId];
      var head := p.name + " (requested: ";
      var tail := IntToString(line.quantity) + ", available: " + IntToString(p.stock) + ")";
      assert Describe(m, line) == head + tail;
      assert (head + tail)[..|head|] == head;
    }
  }

  /** A known product's report is its name, then the requested quantity and
      the stock in decimal, and each of the two numerals reads back as the
      number it renders. */
  lemma DescribeFormat(m: map<nat, StockInfo>, line: CartLine)
    requires line.productId in m
    ensures Describe(m, line) == m[line.productId].name + " (requested: " + IntToString(line.quantity)
                                 + ", available: " + IntToString(m[line.productId].stock) + ")"
    ensures ParseInt(IntToString(line.quantity)) == Num(line.quantity)
    ensures ParseInt(IntToString(m[line.productId].stock)) == Num(m[line.productId].stock)
  {
    ParseIntOfIntToString(line.quantity);
    ParseIntOfIntToString(m[line.productId].stock);
  }

  /** The failing lines' reports, in order. */
  function Descriptions(m: map<nat, StockInfo>, lines: seq<CartLine>): (r: seq<string>)
    ensures |r| == |lines|
  {
    if lines == [] then [] else [Describe(m, lines[0])] + Descriptions(m, lines[1..])
  }

  /** The report at position `i` is that of the `i`-th failing line. */
  lemma {:induction false} DescriptionAt(m: map<nat, StockInfo>, lines: seq<CartLine>, i: nat)
    requires i < |lines|
    ensures Descriptions(m, lines)[i] == Describe(m, lines[i])
  {
    if i > 0 {
      DescriptionAt(m, lines[1..], i - 1);
    }
  }

  const OutOfStockPrefix := "Some items are out of stock: "

  /** `checkStockAvailability(cartItems)` given the outcome of the stock query.
      A read error is reported before any line is examined; otherwise the check
      passes exactly when every line's product was returned with enough stock,
      and a failure lists the failing lines in cart order, joined by ", ". */
  function CheckStockAvailability(fetched: Result<seq<StockRow>>, cart: seq<CartLine>): (r: Result<bool>)
    ensures fetched.Err? ==> r == Err("Failed to check stock: " + fetched.message)
    ensures fetched.Ok? ==>
      (r.Ok? <==> forall i :: 0 <= i < |cart| ==>
         cart[i].productId in StockMap(fetched.value) && cart[i].quantity <= StockMap(fetched.value)[cart[i].productId].stock)
    ensures r.Ok? ==> r.value
    ensures fetched.Ok? && r.Err? ==>
      var m := StockMap(fetched.value);
      r.message == OutOfStockPrefix + Join(Descriptions(m, OutOfStockItems(m, cart)), ", ")
  {
    match fetched
    case Err(e) => Err("Failed to check stock: " + e)
    case Ok(rows) =>
      var m := StockMap(rows);
      var failing := OutOfStockItems(m, cart);
      if |failing| > 0 then
        assert failing[0] in cart;
        Err(OutOfStockPrefix + Join(Descriptions(m, failing), ", "))
      else
        assert forall i :: 0 <= i < |cart| ==> !OutOfStock(m, cart[i]) by {
          forall i | 0 <= i < |cart| ensures !OutOfStock(m, cart[i]) {
            assert cart[i] !in failing;
          }
        }
        Ok(true)
  }

  /** `rows` is what `.in("id", ids)` returns from the products table: only
      products with an id in `ids`, with their stored name and stock, and a row
      for every such product. */
  ghost predicate FetchedFrom(rows: seq<StockRow>, products: map<nat, Store.Product>, ids: set<nat>)
  {
    && RowsAgree(rows, products)
    && (forall i :: 0 <= i < |rows| ==> rows[i].id in ids)
    && (forall id :: id in ids && id in products ==> exists i :: 0 <= i < |rows| && rows[i].id == id)
  }

  /** Every fetched row carries its product's stored name and stock. */
  ghost predicate RowsAgree(rows: seq<StockRow>, products: map<nat, Store.Product>)
  {
    forall i :: 0 <= i < |rows| ==>
      rows[i].id in products && rows[i].name == products[rows[i].id].name && rows[i].stock == products[rows[i].id].stock
  }

  lemma {:induction false} StockMapAgreesWithStore(rows: seq<StockRow>, products: map<nat, Store.Product>, id: nat)
    requires RowsAgree(rows, products)
    requires id in StockMap(rows)
    ensures id in products && StockMap(rows)[id] == StockInfo(products[id].name, products[id].stock)
  {
    var last := rows[|rows| - 1];
    if last.id != id {
      var front := rows[..|rows| - 1];
      assert forall i :: 0 <= i < |front| ==> front[i] == rows[i];
      StockMapAgreesWithStore(front, products, id);
    }
  }

  function CartIds(cart: seq<CartLine>): set<nat>
  {
    set i | 0 <= i < |cart| :: cart[i].productId
  }

  /** Against the store: the check passes exactly when every cart line's
      product exists and has at least the requested stock. Several lines for
      one product are each compared with the full stock, not with their sum. */
  lemma StockCheckAgainstStore(rows: seq<StockRow>, products: map<nat, Store.Product>, cart: seq<CartLine>)
    requires FetchedFrom(rows, products, CartIds(cart))
    ensures CheckStockAvailability(Ok(rows), cart).Ok? <==>
      forall i :: 0 <= i < |cart| ==>
        cart[i].productId in products && cart[i].quantity <= products[cart[i].productId].stock
  {
    var m := StockMap(rows);
    forall i | 0 <= i < |cart|
      ensures (cart[i].productId in m && cart[i].quantity <= m[cart[i].productId].stock)
          <==> (cart[i].productId in products && cart[i].quantity <= products[cart[i].productId].stock)
    {
      var id := cart[i].productId;
      assert id in CartIds(cart);
      if id in m {
        StockMapAgreesWithStore(rows, products, id);
      }
    }
  }

  /** Stock 5 and a request for 3 passes. */
  lemma EnoughStockPasses()
    ensures CheckStockAvailability(Ok([StockRow(7, "Lamp", 5)]), [CartLine(7, 3)]) == Ok(true)
  {
    assert StockMap([StockRow(7, "Lamp", 5)]) == map[7 := StockInfo("Lamp", 5)];
  }

  /** A request equal to the available stock passes (the comparison is strict). */
  lemma ExactStockPasses(id: nat, name: string, stock: int)
    ensures CheckStockAvailability(Ok([StockRow(id, name, stock)]), [CartLine(id, stock)]) == Ok(true)
  {
    assert StockMap([StockRow(id, name, stock)]) == map[id := StockInfo(name, stock)];
  }

  /** Example: a lamp with 2 in stock, asked for 3, is reported as
      `Lamp (requested: 3, available: 2)`. */
  lemma LampDescription()
    ensures Describe(map[7 := StockInfo("Lamp", 2)], CartLine(7, 3)) == "Lamp (requested: 3, available: 2)"
  {
    NumeralsTwoAndThree();
    var m := map[7 := StockInfo("Lamp", 2)];
    assert Describe(m, CartLine(7, 3)) == "Lamp" + " (requested: " + "3" + ", available: " + "2" + ")";
    LampMessageLiteral();
  }

  lemma LampMessageLiteral()
    ensures "Lamp" + " (requested: " + "3" + ", available: " + "2" + ")" == "Lamp (requested: 3, available: 2)"
  {
  }

  lemma NumeralsTwoAndThree()
    ensures IntToString(3) == "3" && IntToString(2) == "2"
  {
  }

  /** Stock 2 and a request for 3 fails with an itemised message. */
  lemma ShortStockIsReported()
    ensures CheckStockAvailability(Ok([StockRow(7, "Lamp", 2)]), [CartLine(7, 3)])
         == Err(OutOfStockPrefix + "Lamp (requested: 3, available: 2)")
  {
    var m := StockMap([StockRow(7, "Lamp", 2)]);
    assert m == map[7 := StockInfo("Lamp", 2)];
    var d := Describe(m, CartLine(7, 3));
    LampDescription();
    assert OutOfStockItems(m, [CartLine(7, 3)]) == [CartLine(7, 3)];
    assert Descriptions(m, [CartLine(7, 3)]) == [d];
    assert Join([d], ", ") == d;
  }

  /** A product missing from the store is reported as "Unknown product". */
  lemma MissingProductIsUnknown(id: nat, quantity: int)
    ensures CheckStockAvailability(Ok([]), [CartLine(id, quantity)])
         == Err("Some items are out of stock: Unknown product")
  {
    assert OutOfStockItems(map[], [CartLine(id, quantity)]) == [CartLine(id, quantity)];
  }

  /** Two lines for one product, each within the stock, pass even though
      together they ask for more than the stock. */
  lemma DuplicateLinesCheckedSeparately()
    ensures CheckStockAvailability(Ok([StockRow(7, "Lamp", 5)]), [CartLine(7, 3), CartLine(7, 3)]) == Ok(true)
  {
    assert StockMap([StockRow(7, "Lamp", 5)]) == map[7 := StockInfo("Lamp", 5)];
  }
}
