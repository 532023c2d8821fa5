/** The cart page's item list. Changing a quantity or removing a line writes
    to the store, updates the local list at once (whatever the store
    answered), and flags the line as busy for the duration of the call. */
module CartItems {
  import opened Common
  import opened Store

  /** A line of the local list: the cart row's id, its product's price and
      the quantity shown. */
  datatype Entry = Entry(id: nat, productId: nat, price: real, quantity: int)

  /** The local `map`: every entry with that id gets the new quantity; the
      others, the length and the order stay as they were. */
  function WithQuantity(items: seq<Entry>, id: nat, quantity: int): (r: seq<Entry>)
    ensures |r| == |items|
    ensures forall i :: 0 <= i < |items| ==>
      r[i] == if items[i].id == id then items[i].(quantity := quantity) else items[i]
  {
    if items == [] then []
    else [if items[0].id == id then items[0].(quantity := quantity) else items[0]] + WithQuantity(items[1..], id, quantity)
  }

  /** The local `filter`: the entries with another id, in their order. */
  function Without(items: seq<Entry>, id: nat): (r: seq<Entry>)
    ensures |r| <= |items|
    ensures forall e :: e in r <==> e in items && e.id != id
  {
    if items == [] then []
    else if items[0].id == id then Without(items[1..], id)
    else [items[0]] + Without(items[1..], id)
  }

  /** The store update `.update({ quantity }).eq("id", itemId)`. */
  function SetRowQuantity(cart: seq<CartRow>, id: nat, quantity: int): (r: seq<CartRow>)
    ensures |r| == |cart|
    ensures forall i :: 0 <= i < |cart| ==>
      r[i] == if cart[i].id == id then cart[i].(quantity := quantity) else cart[i]
  {
    if cart == [] then []
    else [if cart[0].id == id then cart[0].(quantity := quantity) else cart[0]] + SetRowQuantity(cart[1..], id, quantity)
  }

  /** The store delete `.delete().eq("id", itemId)`. */
  function DeleteRow(cart: seq<CartRow>, id: nat): (r: seq<CartRow>)
    ensures |r| <= |cart|
    ensures forall row :: row in r <==> row in cart && row.id != id
  {
    if cart == [] then []
    else if cart[0].id == id then DeleteRow(cart[1..], id)
    else [cart[0]] + DeleteRow(cart[1..], id)
  }

  /** The guard as written, `if (quantity < 1) return`: a comparison with
      `NaN` is false, so `NaN` is not turned away. */
  predicate AcceptsAsWritten(quantity: JsNumber)
  {
    !(quantity.Num? && quantity.value < 1)
  }

  /** The guard as intended: only a parsed whole number of at least 1 goes
      through. */
  predicate Accepts(quantity: JsNumber)
  {
    quantity.Num? && quantity.value >= 1
  }

  /** Clearing the number field hands `parseInt("")`, which is `NaN`, to the
      guard, and the guard as written lets it through. */
  lemma EmptyFieldPassesGuardAsWritten()
    ensures ParseInt("") == NaN
    ensures AcceptsAsWritten(ParseInt(""))
    ensures !Accepts(ParseInt(""))
  {
    assert TrimStart("") == "";
    assert SignFree("") == "";
    assert DigitPrefix("") == 0;
  }

  /** The corrected guard differs from the written one only on `NaN`, and
      what it lets through is a quantity of at least 1. */
  lemma AcceptsAgreesOnNumbers(quantity: JsNumber)
    ensures quantity.Num? ==> (Accepts(quantity) <==> AcceptsAsWritten(quantity))
    ensures Accepts(quantity) ==> quantity.value >= 1
    ensures quantity.NaN? ==> !Accepts(quantity) && AcceptsAsWritten(quantity)
  {
  }

  /** Removing after a quantity change gives the same list as removing
      straight away. */
  lemma {:induction false} RemoveAfterUpdate(items: seq<Entry>, id: nat, quantity: int)
    ensures Without(WithQuantity(items, id, quantity), id) == Without(items, id)
  {
    if items != [] {
      RemoveAfterUpdate(items[1..], id, quantity);
      assert WithQuantity(items, id, quantity)[1..] == WithQuantity(items[1..], id, quantity);
    }
  }

  /** The filter keeps relative order: it distributes over concatenation. */
  lemma {:induction false} WithoutAppend(a: seq<Entry>, b: seq<Entry>, id: nat)
    ensures Without(a + b, id) == Without(a, id) + Without(b, id)
  {
    if a == [] {
      assert a + b == b;
    } else {
      assert (a + b)[1..] == a[1..] + b;
      WithoutAppend(a[1..], b, id);
    }
  }

  /** Removing twice is removing once. */
  lemma {:induction false} WithoutIdempotent(items: seq<Entry>, id: nat)
    ensures Without(Without(items, id), id) == Without(items, id)
  {
    if items != [] {
      WithoutIdempotent(items[1..], id);
    }
  }

  /** A quantity change leaves the store's ids as they were, so the store
      stays well formed. */
  lemma SetRowQuantityKeepsIds(t: Tables, id: nat, quantity: int)
    requires WellFormed(t)
    ensures WellFormed(t.(cart := SetRowQuantity(t.cart, id, quantity)))
  {
    var r := SetRowQuantity(t.cart, id, quantity);
    assert forall i :: 0 <= i < |r| ==> r[i].id == t.cart[i].id;
  }

  lemma DeleteRowKeepsIds(t: Tables, id: nat)
    requires WellFormed(t)
    ensures WellFormed(t.(cart := DeleteRow(t.cart, id)))
  {
    var r := DeleteRow(t.cart, id);
    forall i | 0 <= i < |r| ensures r[i].id < t.nextId {
      assert r[i] in t.cart;
    }
  }

  /** How the store call of a handler ends: it takes effect, it returns an
      `{ error }` that is ignored (nothing written), or it throws, which skips
      the rest of the `try` block and only shows the error toast. */
  datatype Write = Written | ErrorReturned | Thrown

  /** The component: the local list and the per-line busy flags. */
  class List {
    var items: seq<Entry>
    var isUpdating: map<nat, bool>

    constructor (initial: seq<Entry>)
      ensures items == initial && isUpdating == map[]
    {
      items := initial;
      isUpdating := map[];
    }

    /** `updateQuantity(itemId, quantity)`. A quantity the guard turns away
        changes nothing. Otherwise the store write is issued; unless it threw,
        the local list is updated whatever the store answered. The line's flag
        ends false either way (the `finally` block). */
    method UpdateQuantity(db: Db, itemId: nat, quantity: JsNumber, write: Write)
      requires db.Valid()
      modifies this, db
      ensures db.Valid()
      ensures !Accepts(quantity) ==>
        items == old(items) && isUpdating == old(isUpdating) && db.Snapshot() == old(db.Snapshot())
      ensures Accepts(quantity) ==>
        && items == (if write.Thrown? then old(items) else WithQuantity(old(items), itemId, quantity.value))
        && isUpdating == old(isUpdating)[itemId := false]
        && db.Snapshot() == (if write.Written? then old(db.Snapshot()).(cart := SetRowQuantity(old(db.cart), itemId, quantity.value))
                             else old(db.Snapshot()))
    {
      if !Accepts(quantity) {
        return;
      }
      isUpdating := isUpdating[itemId := true];
      if write.Written? {
        SetRowQuantityKeepsIds(db.Snapshot(), itemId, quantity.value);
        db.cart := SetRowQuantity(db.cart, itemId, quantity.value);
      }
      if !write.Thrown? {
        items := WithQuantity(items, itemId, quantity.value);
      }
      isUpdating := isUpdating[itemId := false];
    }

    /** `removeItem(itemId)`: the store delete, then (unless it threw) the
        local filter; the line's flag ends false either way. */
    method RemoveItem(db: Db, itemId: nat, write: Write)
      requires db.Valid()
      modifies this, db
      ensures db.Valid()
      ensures items == (if write.Thrown? then old(items) else Without(old(items), itemId))
      ensures isUpdating == old(isUpdating)[itemId := false]
      ensures db.Snapshot() == (if write.Written? then old(db.Snapshot()).(cart := DeleteRow(old(db.cart), itemId))
                                else old(db.Snapshot()))
    {
      isUpdating := isUpdating[itemId := true];
      if write.Written? {
        DeleteRowKeepsIds(db.Snapshot(), itemId);
        db.cart := DeleteRow(db.cart, itemId);
      }
      if !write.Thrown? {
        items := Without(items, itemId);
      }
      isUpdating := isUpdating[itemId := false];
    }
  }
}
