/** The product page's add-to-cart button. Same upsert as the product card's
    button, but a store error on the update or insert is thrown, reported in
    an error toast, and the "added" toast is not shown. */
module AddButton {
  import opened Common
  import opened Store
  import CartAddButton
  import CartItems

  /** How a click ends: navigation to the sign-in page, the "added" toast, or
      the error toast with its description. */
  datatype Outcome = SignIn(url: string) | Added | Failed(description: string)

  /** `addToCart` as a function of the store. `readFails` says the
      existing-line read reports an error (dropped, so no line is found);
      `writeError` is the error the update or insert returned, if any. */
  function AddToCart(t: Tables, session: Option<string>, productId: nat, readFails: bool, writeError: Option<string>): (r: (Tables, Outcome))
    ensures session.None? ==> r == (t, SignIn("/signin"))
    ensures r.1.Added? <==> session.Some? && writeError.None?
    ensures r.1.Added? ==> r.0 == CartAddButton.AddOne(t, session.value, productId, readFails)
    ensures !r.1.Added? ==> r.0 == t
    ensures r.1.Failed? ==> r.1.description != ""
  {
    if session.None? then (t, SignIn("/signin"))
    else if writeError.Some? then (t, Failed(OrElse(writeError.value, "Failed to add item to cart.")))
    else (CartAddButton.AddOne(t, session.value, productId, readFails), Added)
  }

  /** An error with an empty message is reported with the fallback text. */
  lemma EmptyErrorUsesFallback(t: Tables, userId: string, productId: nat)
    ensures AddToCart(t, Some(userId), productId, false, Some("")).1 == Failed("Failed to add item to cart.")
  {
  }

  /** Two clicks whose reads and writes succeed, on a product not yet in the
      cart, leave one line with quantity 2. */
  lemma TwoClicksMakeQuantityTwo(t: Tables, userId: string, productId: nat)
    requires WellFormed(t)
    requires CountLines(t.cart, userId, productId) == 0
    ensures var t1 := AddToCart(t, Some(userId), productId, false, None).0;
      var t2 := AddToCart(t1, Some(userId), productId, false, None).0;
      && |t2.cart| == |t.cart| + 1
      && t2.cart[|t.cart|] == CartRow(t.nextId, userId, productId, 2)
      && t2.cart[..|t.cart|] == t.cart
  {
    var t1 := AddToCart(t, Some(userId), productId, false, None).0;
    FirstClickAppends(t, userId, productId);
    var t2 := AddToCart(t1, Some(userId), productId, false, None).0;
    assert t2.cart == CartItems.SetRowQuantity(t1.cart, t.nextId, 2);
    forall j | 0 <= j < |t.cart| ensures t2.cart[j] == t.cart[j] {
      assert t1.cart[j] == t.cart[j] && t.cart[j].id < t.nextId;
    }
  }

  /** The first click appends a line with quantity 1, and that line is then
      the only one for the product. */
  lemma FirstClickAppends(t: Tables, userId: string, productId: nat)
    requires CountLines(t.cart, userId, productId) == 0
    ensures var t1 := AddToCart(t, Some(userId), productId, false, None).0;
      && t1.cart == t.cart + [CartRow(t.nextId, userId, productId, 1)]
      && SingleLine(t1.cart, userId, productId) == Some(|t.cart|)
  {
    var row := CartRow(t.nextId, userId, productId, 1);
    var t1 := AddToCart(t, Some(userId), productId, false, None).0;
    assert t1.cart == t.cart + [row];
    CartAddButton.CountLinesAppend(t.cart, row, userId, productId);
    var i := FirstLine(t1.cart, userId, productId).value;
    assert i == |t.cart|;
  }

  /** The button: its loading flag. */
  class Button {
    var isLoading: bool
    const productId: nat

    constructor (productId: nat)
      ensures !isLoading && this.productId == productId
    {
      isLoading := false;
      this.productId := productId;
    }

    /** The click handler; `finally` clears the loading flag on every path. */
    method HandleAddToCart(db: Db, session: Option<string>, readFails: bool, writeError: Option<string>) returns (outcome: Outcome)
      requires db.Valid()
      modifies this`isLoading, db
      ensures db.Valid()
      ensures (db.Snapshot(), outcome) == AddToCart(old(db.Snapshot()), session, productId, readFails, writeError)
      ensures !isLoading
    {
      isLoading := true;
      if session.None? {
        isLoading := false;
        return SignIn("/signin");
      }
      if writeError.Some? {
        isLoading := false;
        return Failed(OrElse(writeError.value, "Failed to add item to cart."));
      }
      CartAddButton.Upsert(db, session.value, productId, readFails);
      outcome := Added;
      isLoading := false;
    }
  }
}
