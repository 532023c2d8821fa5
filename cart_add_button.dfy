/** The product card's add-to-cart button. A signed-in user's cart gets one
    more of the product: the existing line's quantity goes up by one, or a
    line with quantity 1 is inserted. Store errors are not inspected. */
module CartAddButton {
  import opened Common
  import opened Store
  import CartItems

  /** The existing-line lookup: a `.single()` read whose `{ error }` is
      dropped, so a read that reports an error finds no line, as does one that
      matches no row or several. */
  function ExistingLine(cart: seq<CartRow>, userId: string, productId: nat, readFails: bool): (found: Option<nat>)
    ensures found.Some? ==> !readFails && CountLines(cart, userId, productId) == 1
    ensures !readFails && CountLines(cart, userId, productId) == 1 ==> found == FirstLine(cart, userId, productId)
  {
    if readFails then None else SingleLine(cart, userId, productId)
  }

  /** The cart after adding one of `productId` for `userId`: the line the
      lookup found gains one, otherwise a line with quantity 1 is inserted. */
  function AddOne(t: Tables, userId: string, productId: nat, readFails: bool): (r: Tables)
    ensures r.products == t.products && r.orders == t.orders && r.orderItems == t.orderItems && r.users == t.users
  {
    match ExistingLine(t.cart, userId, productId, readFails)
    case Some(i) => t.(cart := CartItems.SetRowQuantity(t.cart, t.cart[i].id, t.cart[i].quantity + 1))
    case None => t.(cart := t.cart + [CartRow(t.nextId, userId, productId, 1)], nextId := t.nextId + 1)
  }

  /** No two cart rows share an id. */
  ghost predicate UniqueCartIds(cart: seq<CartRow>)
  {
    forall i, j :: 0 <= i < j < |cart| ==> cart[i].id != cart[j].id
  }

  /** At most one line per user and product: the shape the buttons keep. */
  ghost predicate OneLinePerProduct(cart: seq<CartRow>)
  {
    forall userId, productId :: CountLines(cart, userId, productId) <= 1
  }

  /** With a line present, its quantity grows by exactly one and every other
      row, the length and the order stay; the counter is not used. */
  lemma AddToExistingLine(t: Tables, userId: string, productId: nat)
    requires UniqueCartIds(t.cart)
    requires CountLines(t.cart, userId, productId) == 1
    ensures var r := AddOne(t, userId, productId, false);
      var i := FirstLine(t.cart, userId, productId).value;
      && r.nextId == t.nextId
      && |r.cart| == |t.cart|
      && r.cart[i] == t.cart[i].(quantity := t.cart[i].quantity + 1)
      && forall j :: 0 <= j < |t.cart| && j != i ==> r.cart[j] == t.cart[j]
  {
  }

  /** Without a line, exactly one row with quantity 1 is appended under a
      fresh id, whether or not the read reports an error. */
  lemma AddNewLine(t: Tables, userId: string, productId: nat, readFails: bool)
    requires CountLines(t.cart, userId, productId) == 0
    ensures AddOne(t, userId, productId, readFails).cart == t.cart + [CartRow(t.nextId, userId, productId, 1)]
  {
  }

  lemma {:induction false} CountLinesAppend(cart: seq<CartRow>, row: CartRow, userId: string, productId: nat)
    ensures CountLines(cart + [row], userId, productId)
         == CountLines(cart, userId, productId) + (if LineOf(row, userId, productId) then 1 else 0)
  {
    if cart != [] {
      assert (cart + [row])[1..] == cart[1..] + [row];
      CountLinesAppend(cart[1..], row, userId, productId);
    } else {
      assert [row][1..] == [];
    }
  }

  /** Changing a quantity never changes how many lines a user has for a
      product. */
  lemma {:induction false} CountLinesSetQuantity(cart: seq<CartRow>, id: nat, quantity: int, userId: string, productId: nat)
    ensures CountLines(CartItems.SetRowQuantity(cart, id, quantity), userId, productId) == CountLines(cart, userId, productId)
  {
    if cart != [] {
      var r := CartItems.SetRowQuantity(cart, id, quantity);
      assert r[1..] == CartItems.SetRowQuantity(cart[1..], id, quantity);
      CountLinesSetQuantity(cart[1..], id, quantity, userId, productId);
    }
  }

  /** When the lookup succeeds, adding keeps the one-line-per-product shape:
      a second add increments the line the first one created instead of
      inserting another. */
  lemma AddKeepsOneLine(t: Tables, userId: string, productId: nat)
    requires OneLinePerProduct(t.cart)
    ensures OneLinePerProduct(AddOne(t, userId, productId, false).cart)
  {
    var found := SingleLine(t.cart, userId, productId);
    if found.Some? {
      IncrementLineKeepsOneLine(t, userId, productId, found.value);
    } else {
      NewLineKeepsOneLine(t, userId, productId);
    }
  }

  lemma IncrementLineKeepsOneLine(t: Tables, userId: string, productId: nat, i: nat)
    requires OneLinePerProduct(t.cart) && SingleLine(t.cart, userId, productId) == Some(i)
    ensures OneLinePerProduct(AddOne(t, userId, productId, false).cart)
  {
    var cart := CartItems.SetRowQuantity(t.cart, t.cart[i].id, t.cart[i].quantity + 1);
    assert AddOne(t, userId, productId, false).cart == cart;
    IncrementKeepsOneLine(t.cart, t.cart[i].id, t.cart[i].quantity + 1);
  }

  lemma NewLineKeepsOneLine(t: Tables, userId: string, productId: nat)
    requires OneLinePerProduct(t.cart) && SingleLine(t.cart, userId, productId).None?
    ensures OneLinePerProduct(AddOne(t, userId, productId, false).cart)
  {
    AppendKeepsOneLine(t.cart, CartRow(t.nextId, userId, productId, 1));
  }

  lemma IncrementKeepsOneLine(cart: seq<CartRow>, id: nat, quantity: int)
    requires OneLinePerProduct(cart)
    ensures OneLinePerProduct(CartItems.SetRowQuantity(cart, id, quantity))
  {
    forall u, p ensures CountLines(CartItems.SetRowQuantity(cart, id, quantity), u, p) <= 1 {
      CountLinesSetQuantity(cart, id, quantity, u, p);
    }
  }

  lemma AppendKeepsOneLine(cart: seq<CartRow>, row: CartRow)
    requires OneLinePerProduct(cart)
    requires CountLines(cart, row.userId, row.productId) == 0
    ensures OneLinePerProduct(cart + [row])
  {
    forall u, p ensures CountLines(cart + [row], u, p) <= 1 {
      CountLinesAppend(cart, row, u, p);
    }
  }

  /** When the lookup reports an error, the existing line is not found and a
      second line for the same product is inserted: a cart with one line per
      product loses that shape. */
  lemma FailedReadDuplicatesLine(t: Tables, userId: string, productId: nat)
    requires CountLines(t.cart, userId, productId) == 1
    ensures var r := AddOne(t, userId, productId, true);
      && r.cart == t.cart + [CartRow(t.nextId, userId, productId, 1)]
      && CountLines(r.cart, userId, productId) == 2
      && !OneLinePerProduct(r.cart)
  {
    CountLinesAppend(t.cart, CartRow(t.nextId, userId, productId, 1), userId, productId);
  }

  /** Rows of other users, or of other products, are untouched. */
  lemma AddLeavesOtherLines(t: Tables, userId: string, productId: nat, readFails: bool, row: CartRow)
    requires UniqueCartIds(t.cart)
    requires !LineOf(row, userId, productId)
    requires row in t.cart
    ensures row in AddOne(t, userId, productId, readFails).cart
  {
    var k :| 0 <= k < |t.cart| && t.cart[k] == row;
    match ExistingLine(t.cart, userId, productId, readFails)
    case Some(i) =>
      assert k != i;
      OtherRowKept(t.cart, i, k, t.cart[i].quantity + 1);
    case None =>
      assert (t.cart + [CartRow(t.nextId, userId, productId, 1)])[k] == row;
  }

  /** A quantity update by id leaves a row with another id as it was. */
  lemma OtherRowKept(cart: seq<CartRow>, i: nat, k: nat, quantity: int)
    requires UniqueCartIds(cart)
    requires i < |cart| && k < |cart| && i != k
    ensures CartItems.SetRowQuantity(cart, cart[i].id, quantity)[k] == cart[k]
  {
    assert cart[k].id != cart[i].id by {
      if k < i { } else { }
    }
  }

  /** Adding keeps every generated id below the counter. */
  lemma AddOneKeepsWellFormed(t: Tables, userId: string, productId: nat, readFails: bool)
    requires WellFormed(t)
    ensures WellFormed(AddOne(t, userId, productId, readFails))
  {
    match ExistingLine(t.cart, userId, productId, readFails)
    case Some(i) =>
      CartItems.SetRowQuantityKeepsIds(t, t.cart[i].id, t.cart[i].quantity + 1);
    case None =>
  }

  /** Adding keeps cart row ids unique: an update keeps every id, and an
      insert takes the counter, which lies above every id in use. */
  lemma AddOneKeepsUniqueIds(t: Tables, userId: string, productId: nat, readFails: bool)
    requires WellFormed(t) && UniqueCartIds(t.cart)
    ensures UniqueCartIds(AddOne(t, userId, productId, readFails).cart)
  {
    var r := AddOne(t, userId, productId, readFails).cart;
    match ExistingLine(t.cart, userId, productId, readFails)
    case Some(i) =>
      assert forall k :: 0 <= k < |r| ==> r[k].id == t.cart[k].id;
    case None =>
      assert forall k :: 0 <= k < |t.cart| ==> r[k].id == t.cart[k].id;
      assert r[|t.cart|].id == t.nextId;
  }

  /** The read of the user's line for the product, then the update of its
      quantity or the insert of a new line, on the tables' values. */
  method UpsertTables(t: Tables, userId: string, productId: nat, readFails: bool) returns (r: Tables)
    ensures r == AddOne(t, userId, productId, readFails)
  {
    var existing := if readFails then None else SingleLine(t.cart, userId, productId);
    if existing.Some? {
      var row := t.cart[existing.value];
      r := t.(cart := CartItems.SetRowQuantity(t.cart, row.id, row.quantity + 1));
    } else {
      r := t.(cart := t.cart + [CartRow(t.nextId, userId, productId, 1)], nextId := t.nextId + 1);
    }
  }

  /** The upsert applied to the store: only the cart and the id counter are
      written. */
  method Upsert(db: Db, userId: string, productId: nat, readFails: bool)
    requires db.Valid()
    modifies db
    ensures db.Valid()
    ensures db.Snapshot() == AddOne(old(db.Snapshot()), userId, productId, readFails)
  {
    var t := db.Snapshot();
    AddOneKeepsWellFormed(t, userId, productId, readFails);
    var r := UpsertTables(t, userId, productId, readFails);
    db.cart, db.nextId := r.cart, r.nextId;
    assert db.Snapshot() == r;
  }

  /** How a click ends: the sign-in redirect back to the product, or the
      "added" toast naming the product. */
  datatype Outcome = SignIn(url: string) | Added(description: string)

  /** The sign-in page, asked to come back to the product afterwards. */
  function SignInUrl(slug: string): (url: string)
    ensures StartsWith(url, "/auth/signin?redirect=/products/")
  {
    "/auth/signin?redirect=/products/" + slug
  }

  /** The "added" toast's text. */
  function AddedText(name: string): (text: string)
    ensures StartsWith(text, name)
  {
    name + " has been added to your cart."
  }

  /** `handleAddToCart` as a function of the store. `session` is the signed-in
      user's id, if any; `readFails` says the existing-line read reports an
      error, and `writeFails` says the ignored update or insert did not take
      effect. */
  function HandleAdd(t: Tables, session: Option<string>, productId: nat, slug: string, name: string, readFails: bool, writeFails: bool): (r: (Tables, Outcome))
    ensures session.None? ==> r == (t, SignIn(SignInUrl(slug)))
    ensures session.Some? ==> r.1 == Added(AddedText(name))
    ensures session.Some? && !writeFails ==> r.0 == AddOne(t, session.value, productId, readFails)
    ensures writeFails ==> r.0 == t
  {
    if session.None? then (t, SignIn(SignInUrl(slug)))
    else
      var t' := if writeFails then t else AddOne(t, session.value, productId, readFails);
      (t', Added(AddedText(name)))
  }

  /** The button: its loading flag and its "added" animation flag. */
  class Button {
    var isLoading: bool
    var isAdded: bool
    const productId: nat
    const slug: string
    const name: string

    constructor (productId: nat, slug: string, name: string)
      ensures !isLoading && !isAdded
      ensures this.productId == productId && this.slug == slug && this.name == name
    {
      isLoading, isAdded := false, false;
      this.productId, this.slug, this.name := productId, slug, name;
    }

    /** The click handler. The loading flag is set at the start and cleared
        in `finally`, also on the early sign-in return. */
    method HandleAddToCart(db: Db, session: Option<string>, readFails: bool, writeFails: bool) returns (outcome: Outcome)
      requires db.Valid()
      modifies this`isLoading, this`isAdded, db
      ensures db.Valid()
      ensures (db.Snapshot(), outcome) == HandleAdd(old(db.Snapshot()), session, productId, slug, name, readFails, writeFails)
      ensures !isLoading
      ensures isAdded == (if session.Some? then true else old(isAdded))
    {
      isLoading := true;
      if session.None? {
        isLoading := false;
        return SignIn(SignInUrl(slug));
      }
      if !writeFails {
        Upsert(db, session.value, productId, readFails);
      }
      isAdded := true;
      outcome := Added(AddedText(name));
      isLoading := false;
    }
  }
}
