/** The admin's stock editor for one product: the typed text is parsed, a
    missing or negative number is refused, and otherwise the product's stock
    is set to exactly that number. */
module StockManagement {
  import opened Common
  import opened Store

  /** The new stock level the typed text stands for, or `None` when it is
      refused ("Invalid quantity"). `parseInt` reads a leading number, so
      trailing text after the digits is ignored. */
  function NewStockLevel(text: string): (r: Option<nat>)
    ensures r.None? <==> ParseInt(text).NaN? || ParseInt(text).value < 0
    ensures r.Some? ==> ParseInt(text) == Num(r.value)
  {
    match ParseInt(text)
    case NaN => None
    case Num(v) => if v < 0 then None else Some(v)
  }

  /** The update `.update({ stock_quantity }).eq("id", id)`: an absolute set
      on that one row; an unknown id matches no row. */
  function SetStock(products: map<nat, Product>, id: nat, level: int): (r: map<nat, Product>)
    ensures r.Keys == products.Keys
    ensures id in products ==> r[id] == products[id].(stock := level)
    ensures forall other :: other in products && other != id ==> r[other] == products[other]
  {
    if id in products then products[id := products[id].(stock := level)] else products
  }

  /** The field starts as the current stock's decimal text, and submitting it
      unchanged sets the stock it shows. */
  lemma InitialTextRoundTrip(stock: nat)
    ensures NewStockLevel(IntToString(stock)) == Some(stock)
  {
    ParseIntOfIntToString(stock);
  }

  /** Zero is accepted; any negative number is refused. */
  lemma ZeroAcceptedNegativeRefused(n: int)
    requires n < 0
    ensures NewStockLevel(IntToString(0)) == Some(0)
    ensures NewStockLevel(IntToString(n)) == None
  {
    ParseIntOfIntToString(0);
    ParseIntOfIntToString(n);
  }

  /** The set is absolute: the result does not depend on the previous stock,
      and setting the same level twice is setting it once. */
  lemma SetIsAbsolute(products: map<nat, Product>, id: nat, level: int, before: int)
    requires id in products
    ensures SetStock(products[id := products[id].(stock := before)], id, level) == SetStock(products, id, level)
    ensures SetStock(SetStock(products, id, level), id, level) == SetStock(products, id, level)
  {
  }

  /** How a submit ends: the "Invalid quantity" toast, the "Stock updated"
      toast, or the error toast. */
  datatype Outcome = Invalid | Updated(description: string) | Failed(description: string)

  /** The editor for one product. `quantity` is the text field; `updates`
      counts the calls of the `onUpdate` callback. */
  class Editor {
    var quantity: string
    var isLoading: bool
    var updates: nat
    const productId: nat
    const name: string

    constructor (productId: nat, name: string, stock: int)
      ensures quantity == IntToString(stock) && !isLoading && updates == 0
      ensures this.productId == productId && this.name == name
    {
      quantity := IntToString(stock);
      isLoading := false;
      updates := 0;
      this.productId := productId;
      this.name := name;
    }

    /** `handleUpdateStock`. A refused text writes nothing; a store error is
        reported and `onUpdate` is not called; `finally` clears the flag. */
    method HandleUpdateStock(db: Db, writeError: Option<string>) returns (outcome: Outcome)
      requires db.Valid()
      modifies this`isLoading, this`updates, db
      ensures db.Valid()
      ensures NewStockLevel(quantity).Some? ==> !isLoading
      ensures NewStockLevel(quantity).None? ==>
        outcome == Invalid && db.Snapshot() == old(db.Snapshot()) && updates == old(updates) && isLoading == old(isLoading)
      ensures NewStockLevel(quantity).Some? && writeError.Some? ==>
        && outcome == Failed(OrElse(writeError.value, "Failed to update stock."))
        && db.Snapshot() == old(db.Snapshot()) && updates == old(updates)
      ensures NewStockLevel(quantity).Some? && writeError.None? ==>
        && outcome == Updated("Stock for " + name + " has been updated to " + NatToString(NewStockLevel(quantity).value) + ".")
        && db.Snapshot() == old(db.Snapshot()).(products := SetStock(old(db.products), productId, NewStockLevel(quantity).value))
        && updates == old(updates) + 1
    {
      var level := NewStockLevel(quantity);
      if level.None? {
        return Invalid;
      }
      isLoading := true;
      if writeError.Some? {
        isLoading := false;
        return Failed(OrElse(writeError.value, "Failed to update stock."));
      }
      db.products := SetStock(db.products, productId, level.value);
      outcome := Updated("Stock for " + name + " has been updated to " + NatToString(level.value) + ".");
      updates := updates + 1;
      isLoading := false;
    }
  }
}
