/** The checkout page's order summary: the subtotal of the cart lines, a flat
    shipping fee waived from 100 on, a 10% tax and their total. The checkout
    form stores an order total computed by the same formula. */
module OrderSummary {

  /** A cart line as the summary reads it: the product's price and the
      quantity. */
  datatype Line = Line(price: real, quantity: int)

  /** The amount shown beside one line. */
  function LineAmount(l: Line): real
  {
    l.price * l.quantity as real
  }

  /** The reduce over the lines, starting from 0. */
  function Subtotal(lines: seq<Line>): (s: real)
    ensures lines == [] ==> s == 0.0
  {
    if lines == [] then 0.0 else Subtotal(lines[..|lines| - 1]) + LineAmount(lines[|lines| - 1])
  }

  const FreeShippingThreshold: real := 100.0
  const FlatShipping: real := 10.0
  const TaxRate: real := 0.1

  /** Shipping is free from a subtotal of 100 on and 10 below it. */
  function Shipping(subtotal: real): (fee: real)
    ensures fee == 0.0 <==> subtotal >= 100.0
    ensures fee != 0.0 ==> fee == 10.0
  {
    if subtotal >= FreeShippingThreshold then 0.0 else FlatShipping
  }

  function Tax(subtotal: real): (tax: real)
    ensures subtotal >= 0.0 ==> 0.0 <= tax <= subtotal
  {
    subtotal * TaxRate
  }

  datatype Summary = Summary(subtotal: real, shipping: real, tax: real, total: real)

  /** The state set by the effect. */
  function Summarize(lines: seq<Line>): (r: Summary)
    ensures r.subtotal == Subtotal(lines)
    ensures r.total == r.subtotal + r.shipping + r.tax
    ensures r.tax == r.subtotal / 10.0
    ensures r.shipping == (if r.subtotal >= 100.0 then 0.0 else 10.0)
  {
    var subtotal := Subtotal(lines);
    Summary(subtotal, Shipping(subtotal), Tax(subtotal), subtotal + Shipping(subtotal) + Tax(subtotal))
  }

  /** The reduce distributes over concatenation: the subtotal of two carts
      together is the sum of their subtotals. */
  lemma {:induction false} SubtotalAppend(a: seq<Line>, b: seq<Line>)
    ensures Subtotal(a + b) == Subtotal(a) + Subtotal(b)
    decreases |b|
  {
    if b == [] {
      assert a + b == a;
    } else {
      var front := b[..|b| - 1];
      assert (a + b)[..|a + b| - 1] == a + front;
      SubtotalAppend(a, front);
    }
  }

  /** Lines with non-negative prices and quantities give a non-negative
      subtotal. */
  lemma {:induction false} SubtotalNonNegative(lines: seq<Line>)
    requires forall i :: 0 <= i < |lines| ==> lines[i].price >= 0.0 && lines[i].quantity >= 0
    ensures Subtotal(lines) >= 0.0
  {
    if lines != [] {
      var front := lines[..|lines| - 1];
      SubtotalNonNegative(front);
    }
  }

  /** A single line's subtotal is its displayed amount. */
  lemma SingleLineSubtotal(l: Line)
    ensures Subtotal([l]) == l.price * l.quantity as real
  {
    assert [l][..0] == [];
  }

  /** Under 100 the customer pays 10 shipping on top; from 100 on the total is
      the subtotal plus 10% tax. */
  lemma TotalAroundThreshold(lines: seq<Line>)
    ensures Subtotal(lines) < 100.0 ==> Summarize(lines).total == Subtotal(lines) * 1.1 + 10.0
    ensures Subtotal(lines) >= 100.0 ==> Summarize(lines).total == Subtotal(lines) * 1.1
  {
  }

  /** For a non-negative subtotal the total lies between the subtotal plus
      tax and that amount plus the flat fee. */
  lemma TotalBounds(lines: seq<Line>)
    requires Subtotal(lines) >= 0.0
    ensures Subtotal(lines) * 1.1 <= Summarize(lines).total <= Subtotal(lines) * 1.1 + 10.0
  {
  }

  /** The total is not monotone in the subtotal: just below the threshold the
      fee outweighs the extra goods, so 99 costs more in total than 100. */
  lemma ThresholdDrop()
    ensures Summarize([Line(99.0, 1)]).total > Summarize([Line(100.0, 1)]).total
  {
    SingleLineSubtotal(Line(99.0, 1));
    SingleLineSubtotal(Line(100.0, 1));
  }
}
