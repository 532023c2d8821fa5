/** The hosted database the storefront talks to, replaced by an in-memory store:
    one field per table, rows shaped as the table definitions shape them, and a
    counter that hands out the identifiers the database would generate. */
module Store {
  import opened Common

  /** A row of `products` (the columns the core reads or writes). */
  datatype Product = Product(
    name: string,
    slug: string,
    price: real,
    stock: int,
    categoryId: Option<string>,
    description: Option<string>,
    imageUrl: Option<string>)

  /** A row of `cart_items`. */
  datatype CartRow = CartRow(id: nat, userId: string, productId: nat, quantity: int)

  /** A row of `orders`. */
  datatype Order = Order(
    id: nat,
    userId: string,
    status: string,
    paymentStatus: string,
    totalAmount: real,
    shippingAddress: string,
    paymentMethod: string,
    trackingNumber: Option<string>,
    notes: Option<string>)

  /** A row of `order_items`. */
  datatype OrderItem = OrderItem(orderId: nat, productId: nat, quantity: int, priceAtPurchase: real)

  /** A row of `users` (profile data and role). */
  datatype User = User(email: string, fullName: Option<string>, address: Option<string>, phone: Option<string>, role: Option<string>)

  /** The whole store as a value. */
  datatype Tables = Tables(
    products: map<nat, Product>,
    cart: seq<CartRow>,
    orders: seq<Order>,
    orderItems: seq<OrderItem>,
    users: map<string, User>,
    nextId: nat)

  /** Every generated identifier in use lies below the counter, so the counter
      is always fresh. */
  ghost predicate WellFormed(t: Tables)
  {
    && (forall id :: id in t.products ==> id < t.nextId)
    && (forall i :: 0 <= i < |t.cart| ==> t.cart[i].id < t.nextId)
    && (forall i :: 0 <= i < |t.orders| ==> t.orders[i].id < t.nextId)
  }

  ghost predicate StockNonNegative(products: map<nat, Product>)
  {
    forall id :: id in products ==> products[id].stock >= 0
  }

  /** The store. Components and server actions change it through its fields. */
  class Db {
    var products: map<nat, Product>
    var cart: seq<CartRow>
    var orders: seq<Order>
    var orderItems: seq<OrderItem>
    var users: map<string, User>
    var nextId: nat

    function Snapshot(): Tables
      reads this
    {
      Tables(products, cart, orders, orderItems, users, nextId)
    }

    ghost predicate Valid()
      reads this
    {
      WellFormed(Snapshot())
    }

    constructor (t: Tables)
      requires WellFormed(t)
      ensures Snapshot() == t && Valid()
    {
      products, cart, orders, orderItems, users, nextId :=
        t.products, t.cart, t.orders, t.orderItems, t.users, t.nextId;
    }
  }

  predicate LineOf(r: CartRow, userId: string, productId: nat)
  {
    r.userId == userId && r.productId == productId
  }

  /** Number of cart rows of `userId` for `productId`. */
  function CountLines(cart: seq<CartRow>, userId: string, productId: nat): (n: nat)
    ensures n <= |cart|
    ensures n == 0 <==> forall i :: 0 <= i < |cart| ==> !LineOf(cart[i], userId, productId)
  {
    if cart == [] then 0
    else (if LineOf(cart[0], userId, productId) then 1 else 0) + CountLines(cart[1..], userId, productId)
  }

  /** Position of the first cart row of `userId` for `productId`. */
  function FirstLine(cart: seq<CartRow>, userId: string, productId: nat): (r: Option<nat>)
    ensures r.Some? ==> r.value < |cart| && LineOf(cart[r.value], userId, productId)
    ensures r.None? <==> CountLines(cart, userId, productId) == 0
  {
    if cart == [] then None
    else if LineOf(cart[0], userId, productId) then Some(0)
    else match FirstLine(cart[1..], userId, productId)
      case None => None
      case Some(i) => Some(i + 1)
  }

  /** A `.eq("user_id", u).eq("product_id", p).single()` read: the row when
      exactly one row matches, no data otherwise. */
  function SingleLine(cart: seq<CartRow>, userId: string, productId: nat): (r: Option<nat>)
    ensures r.Some? ==> r.value < |cart| && LineOf(cart[r.value], userId, productId)
    ensures r.Some? <==> CountLines(cart, userId, productId) == 1
  {
    if CountLines(cart, userId, productId) == 1 then FirstLine(cart, userId, productId) else None
  }

  /** A `.delete().eq("user_id", userId)` on `cart_items`: exactly the rows of
      other users remain, in their order. */
  function WithoutUser(cart: seq<CartRow>, userId: string): (r: seq<CartRow>)
    ensures |r| <= |cart|
    ensures forall row :: row in r <==> row in cart && row.userId != userId
  {
    if cart == [] then []
    else if cart[0].userId == userId then WithoutUser(cart[1..], userId)
    else [cart[0]] + WithoutUser(cart[1..], userId)
  }

  /** The rows of `cart` that belong to `userId`. */
  function LinesOf(cart: seq<CartRow>, userId: string): (r: seq<CartRow>)
    ensures forall row :: row in r <==> row in cart && row.userId == userId
  {
    if cart == [] then []
    else if cart[0].userId == userId then [cart[0]] + LinesOf(cart[1..], userId)
    else LinesOf(cart[1..], userId)
  }
}
