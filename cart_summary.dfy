/** The cart page's summary card: subtotal, shipping and a total without tax,
    the hint towards free shipping and the checkout button's enablement. */
module CartSummary {
  import opened Common
  import OrderSummary

  /** The card's total: subtotal plus shipping. Unlike the checkout total, no
      tax is added. */
  function CartTotal(lines: seq<OrderSummary.Line>): (total: real)
    ensures total == OrderSummary.Subtotal(lines) + OrderSummary.Shipping(OrderSummary.Subtotal(lines))
    ensures total + OrderSummary.Tax(OrderSummary.Subtotal(lines)) == OrderSummary.Summarize(lines).total
  {
    var subtotal := OrderSummary.Subtotal(lines);
    subtotal + OrderSummary.Shipping(subtotal)
  }

  /** "Add X more to qualify for free shipping": shown only below 100, with the
      missing amount. */
  function FreeShippingHint(subtotal: real): (x: Option<real>)
    ensures x.Some? <==> subtotal < 100.0
    ensures x.Some? ==> x.value > 0.0 && subtotal + x.value == 100.0
  {
    if subtotal < OrderSummary.FreeShippingThreshold then Some(OrderSummary.FreeShippingThreshold - subtotal) else None
  }

  /** The checkout button is disabled while a checkout runs or when the list
      is empty. */
  predicate CheckoutDisabled(isCheckingOut: bool, itemCount: nat)
  {
    isCheckingOut || itemCount == 0
  }

  /** The hint is shown exactly when shipping is charged: adding the hinted
      amount reaches the threshold, and shipping becomes free. */
  lemma HintMatchesShipping(subtotal: real)
    ensures FreeShippingHint(subtotal).Some? <==> OrderSummary.Shipping(subtotal) == 10.0
    ensures FreeShippingHint(subtotal).Some? ==>
      OrderSummary.Shipping(subtotal + FreeShippingHint(subtotal).value) == 0.0
  {
  }

  /** The checking-out flag after a click: an enabled button runs
      `handleCheckout`, which sets it; a disabled button does not fire. */
  function AfterClick(isCheckingOut: bool, itemCount: nat): (r: bool)
    ensures r <==> isCheckingOut || itemCount > 0
  {
    if CheckoutDisabled(isCheckingOut, itemCount) then isCheckingOut else true
  }

  /** A click that starts a checkout disables the button, so a second click
      before the flag is cleared does nothing: no double checkout. */
  lemma ClickLocksButton(isCheckingOut: bool, itemCount: nat)
    requires !CheckoutDisabled(isCheckingOut, itemCount)
    ensures AfterClick(isCheckingOut, itemCount)
    ensures CheckoutDisabled(AfterClick(isCheckingOut, itemCount), itemCount)
    ensures AfterClick(AfterClick(isCheckingOut, itemCount), itemCount) == AfterClick(isCheckingOut, itemCount)
  {
  }

  /** The card's state: the checking-out flag and the number of lines. */
  class Summary {
    var isCheckingOut: bool
    const itemCount: nat

    constructor (itemCount: nat)
      ensures !isCheckingOut && this.itemCount == itemCount
    {
      isCheckingOut := false;
      this.itemCount := itemCount;
    }

    /** A click on the checkout button. The two-second timer that clears the
        flag again is not modelled. */
    method Click()
      modifies this
      ensures isCheckingOut == AfterClick(old(isCheckingOut), itemCount)
    {
      if !(isCheckingOut || itemCount == 0) {
        isCheckingOut := true;
      }
    }
  }
}
