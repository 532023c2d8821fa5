/** The server action `processOrder`: insert the order, snapshot the stored
    prices into its items, decrement every line's product stock clamped at
    zero, then clear the user's cart on a best-effort basis. Each store call
    may fail; a failure after the order insert is reported but nothing written
    before it is undone. */
module CheckoutActions {
  import opened Common
  import opened Store

  datatype OrderLine = OrderLine(productId: nat, quantity: int)

  datatype OrderRequest = OrderRequest(
    userId: string,
    items: seq<OrderLine>,
    shippingAddress: string,
    paymentMethod: string,
    totalAmount: real)

  /** Which store call, if any, reports an error. `line` counts the lines of
      the stock loop from 0. */
  datatype Fault =
    | NoFault
    | OrderInsertFails(message: string)
    | PriceReadFails(message: string)
    | ItemsInsertFails(message: string)
    | StockReadFails(line: nat, message: string)
    | StockWriteFails(line: nat, message: string)
    | CartClearFails

  /** The action's result record: `{ success: true, orderId }` or
      `{ success: false, error }`. */
  datatype OrderResult = Placed(orderId: nat) | Failed(error: string)

  /** The order row inserted first: already "processing" and "paid". */
  function NewOrder(id: nat, req: OrderRequest): (o: Order)
    ensures o.id == id && o.userId == req.userId
    ensures o.status == "processing" && o.paymentStatus == "paid"
    ensures o.totalAmount == req.totalAmount && o.shippingAddress == req.shippingAddress
    ensures o.paymentMethod == req.paymentMethod
    ensures o.trackingNumber.None? && o.notes.None?
  {
    Order(id, req.userId, "processing", "paid", req.totalAmount, req.shippingAddress, req.paymentMethod, None, None)
  }

  /** `priceMap[id] || 0`: the stored price, or 0 for a product the price
      query did not return. */
  function PriceAtPurchase(products: map<nat, Product>, productId: nat): (p: real)
    ensures productId in products ==> p == products[productId].price
    ensures productId !in products ==> p == 0.0
  {
    if productId in products then products[productId].price else 0.0
  }

  /** The item rows: one per request line, in order, each tied to the new
      order with the line's quantity and the stored price. */
  function PricedItems(orderId: nat, lines: seq<OrderLine>, products: map<nat, Product>): (items: seq<OrderItem>)
    ensures |items| == |lines|
    ensures forall i :: 0 <= i < |lines| ==>
      items[i] == OrderItem(orderId, lines[i].productId, lines[i].quantity, PriceAtPurchase(products, lines[i].productId))
  {
    if lines == [] then []
    else [OrderItem(orderId, lines[0].productId, lines[0].quantity, PriceAtPurchase(products, lines[0].productId))]
         + PricedItems(orderId, lines[1..], products)
  }

  /** One line of the stock loop without errors: `max(0, stock - quantity)`
      written where `id` matches; an update that matches no row changes
      nothing. */
  function Decrement(products: map<nat, Product>, line: OrderLine): (r: map<nat, Product>)
    ensures r.Keys == products.Keys
    ensures line.productId in products ==>
      r[line.productId] == products[line.productId].(stock := Max(0, products[line.productId].stock - line.quantity))
    ensures line.productId !in products ==> r == products
    ensures forall id :: id in products && id != line.productId ==> r[id] == products[id]
  {
    if line.productId in products then
      var p := products[line.productId];
      products[line.productId := p.(stock := Max(0, p.stock - line.quantity))]
    else products
  }

  /** The stock loop from line number `index` on: the products after the lines
      that completed, and the error that stopped it, if any. */
  function StockLoop(products: map<nat, Product>, lines: seq<OrderLine>, index: nat, fault: Fault): (r: (map<nat, Product>, Option<string>))
    ensures r.0.Keys == products.Keys
    decreases |lines|
  {
    if lines == [] then (products, None)
    else
      var id := lines[0].productId;
      if fault.StockReadFails? && fault.line == index then
        (products, Some("Failed to fetch product " + NatToString(id) + ": " + fault.message))
      else if id !in products then
        (products, Some("Product " + NatToString(id) + " not found"))
      else if fault.StockWriteFails? && fault.line == index then
        (products, Some("Failed to update stock for product " + NatToString(id) + ": " + fault.message))
      else
        StockLoop(Decrement(products, lines[0]), lines[1..], index + 1, fault)
  }

  /** The catch block: `error.message || "An unexpected error occurred"`. */
  function Caught(message: string): (e: string)
    ensures e != ""
  {
    OrElse(message, "An unexpected error occurred")
  }

  /** `processOrder(orderData)` as a function of the store before the call. */
  function PlaceOrder(t: Tables, req: OrderRequest, fault: Fault): (r: (Tables, OrderResult))
    ensures r.1.Failed? ==> r.1.error != ""
    ensures r.0.users == t.users
  {
    if fault.OrderInsertFails? then
      (t, Failed(Caught(OrElse(fault.message, "Failed to create order"))))
    else
      var id := t.nextId;
      var t1 := t.(orders := t.orders + [NewOrder(id, req)], nextId := id + 1);
      if fault.PriceReadFails? then
        (t1, Failed(Caught(OrElse(fault.message, "Failed to fetch product prices"))))
      else if fault.ItemsInsertFails? then
        (t1, Failed(Caught(OrElse(fault.message, "Failed to create order items"))))
      else
        var t2 := t1.(orderItems := t1.orderItems + PricedItems(id, req.items, t.products));
        var (products, error) := StockLoop(t2.products, req.items, 0, fault);
        var t3 := t2.(products := products);
        if error.Some? then
          (t3, Failed(Caught(error.value)))
        else if fault.CartClearFails? then
          (t3, Placed(id))
        else
          (t3.(cart := WithoutUser(t3.cart, req.userId)), Placed(id))
  }

  /** The price step: the item rows start at price 0 and the forEach over the
      fetched prices fills in each row whose product was returned. */
  method FillPrices(products: map<nat, Product>, orderId: nat, lines: seq<OrderLine>) returns (items: seq<OrderItem>)
    ensures items == PricedItems(orderId, lines, products)
  {
    items := seq(|lines|, i requires 0 <= i < |lines| =>
      OrderItem(orderId, lines[i].productId, lines[i].quantity, 0.0));
    var k := 0;
    while k < |items|
      invariant 0 <= k <= |items| == |lines|
      invariant forall i :: 0 <= i < k ==>
        items[i] == OrderItem(orderId, lines[i].productId, lines[i].quantity, PriceAtPurchase(products, lines[i].productId))
      invariant forall i :: k <= i < |items| ==>
        items[i] == OrderItem(orderId, lines[i].productId, lines[i].quantity, 0.0)
    {
      items := items[k := items[k].(priceAtPurchase := PriceAtPurchase(products, items[k].productId))];
      k := k + 1;
    }
  }

  /** The stock step: for each line in turn, read the product's current stock,
      write back `max(0, stock - quantity)`, and stop at the first error. Only
      the products table changes. */
  method UpdateStock(db: Db, lines: seq<OrderLine>, fault: Fault) returns (error: Option<string>)
    modifies db
    ensures db.Snapshot() == old(db.Snapshot()).(products := db.products)
    ensures (db.products, error) == StockLoop(old(db.products), lines, 0, fault)
  {
    ghost var p0 := db.products;
    var n := 0;
    while n < |lines|
      invariant 0 <= n <= |lines|
      invariant unchanged(db`cart, db`orders, db`orderItems, db`users, db`nextId)
      invariant db.products.Keys == p0.Keys
      invariant StockLoop(db.products, lines[n..], n, fault) == StockLoop(p0, lines, 0, fault)
    {
      var line := lines[n];
      assert lines[n..][0] == line && lines[n..][1..] == lines[n + 1..];
      var id := line.productId;
      if fault.StockReadFails? && fault.line == n {
        return Some("Failed to fetch product " + NatToString(id) + ": " + fault.message);
      }
      if id !in db.products {
        return Some("Product " + NatToString(id) + " not found");
      }
      if fault.StockWriteFails? && fault.line == n {
        return Some("Failed to update stock for product " + NatToString(id) + ": " + fault.message);
      }
      // The write of `max(0, stock - quantity)` read just before.
      db.products := Decrement(db.products, line);
      n := n + 1;
    }
    assert lines[n..] == [];
    return None;
  }

  /** The store-facing action: the order insert, the price read and items
      insert, the stock loop and the best-effort cart clear, in that order on
      `db`; the catch block turns the first error into `Failed`. */
  method ProcessOrder(db: Db, req: OrderRequest, fault: Fault) returns (result: OrderResult)
    requires db.Valid()
    modifies db
    ensures db.Valid()
    ensures (db.Snapshot(), result) == PlaceOrder(old(db.Snapshot()), req, fault)
  {
    PlaceOrderKeepsWellFormed(db.Snapshot(), req, fault);
    if fault.OrderInsertFails? {
      return Failed(Caught(OrElse(fault.message, "Failed to create order")));
    }
    var orderId := db.nextId;
    db.orders := db.orders + [NewOrder(orderId, req)];
    db.nextId := db.nextId + 1;
    if fault.PriceReadFails? {
      return Failed(Caught(OrElse(fault.message, "Failed to fetch product prices")));
    }
    var items := FillPrices(db.products, orderId, req.items);
    if fault.ItemsInsertFails? {
      return Failed(Caught(OrElse(fault.message, "Failed to create order items")));
    }
    db.orderItems := db.orderItems + items;
    var error := UpdateStock(db, req.items, fault);
    if error.Some? {
      return Failed(Caught(error.value));
    }
    // An error while clearing the cart is only logged.
    if !fault.CartClearFails? {
      db.cart := WithoutUser(db.cart, req.userId);
    }
    return Placed(orderId);
  }

  // ---------------------------------------------------------------------
  // Properties of the order flow

  /** The action keeps every id below the counter: the new order takes the
      counter's value, the stock loop keeps the product ids and the cart
      clear only removes rows. */
  lemma PlaceOrderKeepsWellFormed(t: Tables, req: OrderRequest, fault: Fault)
    requires WellFormed(t)
    ensures WellFormed(PlaceOrder(t, req, fault).0)
  {
    var r := PlaceOrder(t, req, fault).0;
    if !fault.OrderInsertFails? {
      assert r.nextId == t.nextId + 1;
      assert r.products.Keys == t.products.Keys;
      assert forall i :: 0 <= i < |r.cart| ==> r.cart[i] in t.cart;
    }
  }

  /** Whatever happens after the order insert, exactly one new order row
      exists, with the caller's data, status "processing" and payment "paid",
      and it is not removed when a later step fails. */
  lemma OrderRowPersists(t: Tables, req: OrderRequest, fault: Fault)
    requires !fault.OrderInsertFails?
    ensures PlaceOrder(t, req, fault).0.orders == t.orders + [NewOrder(t.nextId, req)]
  {
  }

  /** A failed order insert changes nothing. */
  lemma FailedInsertChangesNothing(t: Tables, req: OrderRequest, fault: Fault)
    requires fault.OrderInsertFails?
    ensures PlaceOrder(t, req, fault) == (t, Failed(OrElse(fault.message, "Failed to create order")))
  {
  }

  /** On success one item row per request line was added, each pointing at
      the new order, with the line's quantity and the price stored before the
      stock changed. */
  lemma PlacedOrderItems(t: Tables, req: OrderRequest, fault: Fault)
    requires PlaceOrder(t, req, fault).1.Placed?
    ensures var (t', r) := PlaceOrder(t, req, fault);
      && r.orderId == t.nextId
      && |t'.orderItems| == |t.orderItems| + |req.items|
      && t'.orderItems[..|t.orderItems|] == t.orderItems
      && forall i :: 0 <= i < |req.items| ==>
           var item := t'.orderItems[|t.orderItems| + i];
           && item.orderId == r.orderId
           && item.productId == req.items[i].productId
           && item.quantity == req.items[i].quantity
           && item.priceAtPurchase == PriceAtPurchase(t.products, req.items[i].productId)
  {
    var t' := PlaceOrder(t, req, fault).0;
    var items := PricedItems(t.nextId, req.items, t.products);
    assert t'.orderItems == t.orderItems + items;
  }

  /** The stock loop never produces a negative stock: every product it
      completes a line for ends at or above zero, so a store without negative
      stock keeps none. */
  lemma {:induction false} StockLoopKeepsStockNonNegative(products: map<nat, Product>, lines: seq<OrderLine>, index: nat, fault: Fault)
    requires StockNonNegative(products)
    ensures StockNonNegative(StockLoop(products, lines, index, fault).0)
    decreases |lines|
  {
    if lines != [] && lines[0].productId in products
       && !(fault.StockReadFails? && fault.line == index) && !(fault.StockWriteFails? && fault.line == index) {
      StockLoopKeepsStockNonNegative(Decrement(products, lines[0]), lines[1..], index + 1, fault);
    }
  }

  /** A product named by no line keeps its row unchanged. */
  lemma {:induction false} StockLoopLeavesOthers(products: map<nat, Product>, lines: seq<OrderLine>, index: nat, fault: Fault, id: nat)
    requires id in products
    requires forall i :: 0 <= i < |lines| ==> lines[i].productId != id
    ensures StockLoop(products, lines, index, fault).0[id] == products[id]
    decreases |lines|
  {
    if lines != [] && lines[0].productId in products
       && !(fault.StockReadFails? && fault.line == index) && !(fault.StockWriteFails? && fault.line == index) {
      StockLoopLeavesOthers(Decrement(products, lines[0]), lines[1..], index + 1, fault, id);
    }
  }

  /** Products not in the order keep their stock, and the user table is
      untouched, whatever the outcome. */
  lemma UntouchedProductsKeepStock(t: Tables, req: OrderRequest, fault: Fault, id: nat)
    requires id in t.products
    requires forall i :: 0 <= i < |req.items| ==> req.items[i].productId != id
    ensures id in PlaceOrder(t, req, fault).0.products
    ensures PlaceOrder(t, req, fault).0.products[id] == t.products[id]
  {
    if !fault.OrderInsertFails? && !fault.PriceReadFails? && !fault.ItemsInsertFails? {
      StockLoopLeavesOthers(t.products, req.items, 0, fault, id);
    }
  }

  /** Placing an order never makes a stock negative. */
  lemma PlaceOrderKeepsStockNonNegative(t: Tables, req: OrderRequest, fault: Fault)
    requires StockNonNegative(t.products)
    ensures StockNonNegative(PlaceOrder(t, req, fault).0.products)
  {
    StockLoopKeepsStockNonNegative(t.products, req.items, 0, fault);
  }

  /** A product on two lines is decremented once per line, each time from the
      stock the previous line left; for non-negative quantities that is the
      clamped difference of the stock and the sum of both. */
  lemma SameProductTwice(products: map<nat, Product>, id: nat, a: int, b: int)
    requires id in products && a >= 0 && b >= 0
    ensures var r := StockLoop(products, [OrderLine(id, a), OrderLine(id, b)], 0, NoFault);
      && r.1 == None
      && r.0[id].stock == Max(0, products[id].stock - a - b)
  {
    var lines := [OrderLine(id, a), OrderLine(id, b)];
    var p1 := Decrement(products, lines[0]);
    var p2 := Decrement(p1, lines[1]);
    assert lines[1..] == [OrderLine(id, b)];
    assert lines[1..][1..] == [];
    assert StockLoop(p2, [], 2, NoFault) == (p2, None);
    assert StockLoop(p1, lines[1..], 1, NoFault) == (p2, None);
    assert StockLoop(products, lines, 0, NoFault) == (p2, None);
  }

  /** Without errors and with every product present, each line's product
      ends at `max(0, stock - quantity)` when it is named by that line only. */
  lemma {:induction false} SingleLineStock(products: map<nat, Product>, lines: seq<OrderLine>, index: nat, j: nat)
    requires j < |lines|
    requires forall i :: 0 <= i < |lines| ==> lines[i].productId in products
    requires forall i :: 0 <= i < |lines| && i != j ==> lines[i].productId != lines[j].productId
    ensures var r := StockLoop(products, lines, index, NoFault);
      && r.1 == None
      && r.0[lines[j].productId].stock == Max(0, products[lines[j].productId].stock - lines[j].quantity)
    decreases |lines|
  {
    var id := lines[j].productId;
    var next := Decrement(products, lines[0]);
    if j == 0 {
      forall i | 0 <= i < |lines[1..]| ensures lines[1..][i].productId != id {
        assert lines[1..][i] == lines[i + 1];
      }
      StockLoopLeavesOthers(next, lines[1..], index + 1, NoFault, id);
      NoFaultCompletes(next, lines[1..], index + 1);
    } else {
      SingleLineStock(next, lines[1..], index + 1, j - 1);
    }
  }

  /** Without store errors the loop stops only at a missing product. */
  lemma {:induction false} NoFaultCompletes(products: map<nat, Product>, lines: seq<OrderLine>, index: nat)
    requires forall i :: 0 <= i < |lines| ==> lines[i].productId in products
    ensures StockLoop(products, lines, index, NoFault).1 == None
    decreases |lines|
  {
    if lines != [] {
      var next := Decrement(products, lines[0]);
      forall i | 0 <= i < |lines[1..]| ensures lines[1..][i].productId in next {
        assert lines[1..][i] == lines[i + 1];
      }
      NoFaultCompletes(next, lines[1..], index + 1);
    }
  }

  /** Cart rows of other users are never touched. */
  lemma OtherCartsUntouched(t: Tables, req: OrderRequest, fault: Fault, row: CartRow)
    requires row.userId != req.userId
    ensures row in PlaceOrder(t, req, fault).0.cart <==> row in t.cart
  {
  }

  /** On success without a cart error no row of the user is left in the cart;
      a cart error is only logged and the result is still a success. */
  lemma CartClearedOnSuccess(t: Tables, req: OrderRequest, fault: Fault)
    ensures var (t', r) := PlaceOrder(t, req, fault);
      r.Placed? && !fault.CartClearFails? ==> forall i :: 0 <= i < |t'.cart| ==> t'.cart[i].userId != req.userId
    ensures fault.CartClearFails? ==>
      var (t', r) := PlaceOrder(t, req, fault);
      var (u, s) := PlaceOrder(t, req, NoFault);
      r == s && t' == u.(cart := t.cart)
  {
    var (t', r) := PlaceOrder(t, req, fault);
    if r.Placed? && !fault.CartClearFails? {
      forall i | 0 <= i < |t'.cart| ensures t'.cart[i].userId != req.userId {
        assert t'.cart[i] in t'.cart;
      }
    }
    if fault.CartClearFails? {
      StockLoopIgnoresOtherFaults(t.products, req.items, 0);
    }
  }

  /** The stock loop consults only the stock faults. */
  lemma {:induction false} StockLoopIgnoresOtherFaults(products: map<nat, Product>, lines: seq<OrderLine>, index: nat)
    ensures StockLoop(products, lines, index, CartClearFails) == StockLoop(products, lines, index, NoFault)
    decreases |lines|
  {
    if lines != [] && lines[0].productId in products {
      StockLoopIgnoresOtherFaults(Decrement(products, lines[0]), lines[1..], index + 1);
    }
  }

  /** Example: stock 5, an order for 3: the order is placed and the stock
      becomes 2. */
  lemma OrderOfThreeFromStockOfFive(t: Tables, req: OrderRequest, p: Product)
    requires t.products == map[1 := p] && p.stock == 5
    requires req.items == [OrderLine(1, 3)]
    ensures var (t', r) := PlaceOrder(t, req, NoFault);
      r == Placed(t.nextId) && t'.products[1].stock == 2
  {
    assert req.items[1..] == [];
    var t1 := t.(orders := t.orders + [NewOrder(t.nextId, req)], nextId := t.nextId + 1);
    var t2 := t1.(orderItems := t1.orderItems + PricedItems(t.nextId, req.items, t.products));
    var p1 := Decrement(t.products, OrderLine(1, 3));
    assert p1[1].stock == 2;
    assert StockLoop(t2.products, req.items, 0, NoFault) == (p1, None);
  }

  /** A failed stock read at line `k` leaves the first `k` lines decremented,
      the order and its items in place, and reports the product. */
  lemma StockReadFailureKeepsEarlierWrites(t: Tables, req: OrderRequest, k: nat, message: string)
    requires k < |req.items|
    requires forall i :: 0 <= i < k ==> req.items[i].productId in t.products
    ensures var (t', r) := PlaceOrder(t, req, StockReadFails(k, message));
      && r == Failed("Failed to fetch product " + NatToString(req.items[k].productId) + ": " + message)
      && t'.orders == t.orders + [NewOrder(t.nextId, req)]
      && t'.orderItems == t.orderItems + PricedItems(t.nextId, req.items, t.products)
      && t'.cart == t.cart
      && t'.products == StockLoop(t.products, req.items[..k], 0, NoFault).0
  {
    StockLoopPrefix(t.products, req.items, 0, k, message);
  }

  lemma {:induction false} StockLoopPrefix(products: map<nat, Product>, lines: seq<OrderLine>, index: nat, k: nat, message: string)
    requires index <= k < index + |lines|
    requires forall i :: 0 <= i < k - index ==> lines[i].productId in products
    ensures StockLoop(products, lines, index, StockReadFails(k, message))
         == (StockLoop(products, lines[..k - index], index, NoFault).0,
             Some("Failed to fetch product " + NatToString(lines[k - index].productId) + ": " + message))
    decreases |lines|
  {
    if index < k {
      var next := Decrement(products, lines[0]);
      forall i | 0 <= i < k - (index + 1) ensures lines[1..][i].productId in next {
        assert lines[1..][i] == lines[i + 1];
      }
      StockLoopPrefix(next, lines[1..], index + 1, k, message);
      assert lines[..k - index][1..] == lines[1..][..k - (index + 1)];
    } else {
      assert lines[..0] == [];
    }
  }
}
