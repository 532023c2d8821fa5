/** The client-side checkout form. Submitting it validates the required
    fields, optionally saves them to the user's profile, inserts a pending
    order with the computed total, inserts one item per cart line, marks the
    order processing and paid, clears the user's cart and navigates to the
    success page. Product stock is never touched on this path. */
module CheckoutForm {
  import opened Common
  import opened Store
  import OrderSummary

  datatype FormData = FormData(
    fullName: string,
    email: string,
    phone: string,
    address: string,
    city: string,
    country: string,
    postalCode: string,
    saveInfo: bool)

  /** The signed-in user's row as the checkout page reads it with
      `.single()`: its id and its columns. The page passes null when there is
      no row or the read fails. */
  datatype Profile = Profile(id: string, user: User)

  /** A cart line with its joined product: id, current price and quantity. */
  datatype CheckoutItem = CheckoutItem(productId: nat, price: real, quantity: int)

  /** Which store call, if any, reports an error. The profile update, the
      status update and the cart delete have their errors ignored, so for
      those a fault only means the write did not happen. */
  datatype Fault =
    | NoFault
    | ProfileUpdateFails
    | OrderInsertFails(message: string)
    | ItemsInsertFails(message: string)
    | StatusUpdateFails
    | CartClearFails

  /** What a submit ends in: the "Missing information" toast, navigation to a
      URL, or the error toast with its description. */
  datatype Outcome = MissingInformation | Navigated(url: string) | Failed(description: string)

  /** The TypeError messages V8 gives for reading `id` of a null profile and
      `reduce` of an absent `cartItems` prop. The catch shows them as the
      error toast's description. */
  const NullProfileError := "Cannot read properties of null (reading 'id')"
  const MissingCartError := "Cannot read properties of undefined (reading 'reduce')"

  /** The form's starting state: the profile's values or "", empty city,
      country and postal code, and "save info" ticked. */
  function InitialForm(profile: Option<Profile>): (f: FormData)
    ensures f.city == "" && f.country == "" && f.postalCode == "" && f.saveInfo
    ensures profile.None? ==> f.fullName == "" && f.email == "" && f.phone == "" && f.address == ""
    ensures profile.Some? ==> f.email == profile.value.user.email
    ensures profile.Some? ==> f.fullName == OrEmpty(profile.value.user.fullName)
    ensures profile.Some? ==> f.phone == OrEmpty(profile.value.user.phone) && f.address == OrEmpty(profile.value.user.address)
  {
    match profile
    case None => FormData("", "", "", "", "", "", "", true)
    case Some(p) =>
      FormData(OrEmpty(p.user.fullName), p.user.email, OrEmpty(p.user.phone), OrEmpty(p.user.address), "", "", "", true)
  }

  /** Full name, email, phone and address are required; city, country and
      postal code are not. */
  predicate Complete(f: FormData)
  {
    f.fullName != "" && f.email != "" && f.phone != "" && f.address != ""
  }

  /** The five-line shipping address stored with the order. */
  function ShippingAddress(f: FormData): (s: string)
    ensures StartsWith(s, f.fullName + "\n" + f.address + "\n")
    ensures |s| >= |"\nPhone: " + f.phone| && s[|s| - |"\nPhone: " + f.phone|..] == "\nPhone: " + f.phone
  {
    var head := f.fullName + "\n" + f.address + "\n";
    var s := head + f.city + ", " + f.postalCode + "\n" + f.country + "\nPhone: " + f.phone;
    assert s[..|head|] == head;
    s
  }

  function SummaryLines(items: seq<CheckoutItem>): (lines: seq<OrderSummary.Line>)
    ensures |lines| == |items|
    ensures forall i :: 0 <= i < |items| ==> lines[i] == OrderSummary.Line(items[i].price, items[i].quantity)
  {
    if items == [] then [] else [OrderSummary.Line(items[0].price, items[0].quantity)] + SummaryLines(items[1..])
  }

  /** The amount stored as `total_amount`: subtotal, shipping and tax as the
      order summary computes them. */
  function OrderTotal(items: seq<CheckoutItem>): (total: real)
    ensures total == OrderSummary.Summarize(SummaryLines(items)).total
  {
    var subtotal := OrderSummary.Subtotal(SummaryLines(items));
    subtotal + OrderSummary.Shipping(subtotal) + OrderSummary.Tax(subtotal)
  }

  /** The profile update on `users` where `id` matches: full name, address and
      phone are overwritten; no row matches for an unknown id. */
  function SaveProfile(users: map<string, User>, userId: string, f: FormData): (r: map<string, User>)
    ensures r.Keys == users.Keys
    ensures userId in users ==> r[userId] == users[userId].(fullName := Some(f.fullName), address := Some(f.address), phone := Some(f.phone))
    ensures forall u :: u in users && u != userId ==> r[u] == users[u]
  {
    if userId in users then
      users[userId := users[userId].(fullName := Some(f.fullName), address := Some(f.address), phone := Some(f.phone))]
    else users
  }

  /** The order items: one per cart line, with the cart's price. */
  function ItemRows(orderId: nat, items: seq<CheckoutItem>): (rows: seq<OrderItem>)
    ensures |rows| == |items|
    ensures forall i :: 0 <= i < |items| ==>
      rows[i] == OrderItem(orderId, items[i].productId, items[i].quantity, items[i].price)
  {
    if items == [] then [] else [OrderItem(orderId, items[0].productId, items[0].quantity, items[0].price)] + ItemRows(orderId, items[1..])
  }

  /** The status update on `orders` where `id` matches. */
  function MarkPaid(orders: seq<Order>, id: nat): (r: seq<Order>)
    ensures |r| == |orders|
    ensures forall i :: 0 <= i < |orders| ==>
      r[i] == if orders[i].id == id then orders[i].(status := "processing", paymentStatus := "paid") else orders[i]
  {
    if orders == [] then []
    else
      var o := orders[0];
      [if o.id == id then o.(status := "processing", paymentStatus := "paid") else o] + MarkPaid(orders[1..], id)
  }

  const SuccessPath := "/checkout/success?orderId="

  /** The optional profile save that runs first; its result is ignored. */
  function SaveStep(t: Tables, userId: string, f: FormData, fault: Fault): (t': Tables)
    ensures t' == t || t' == t.(users := SaveProfile(t.users, userId, f))
  {
    if f.saveInfo && !fault.ProfileUpdateFails? then t.(users := SaveProfile(t.users, userId, f)) else t
  }

  /** The writes after the profile save: the pending order, its items, the
      status update and the cart clear, or the first insert error. */
  function OrderSteps(t: Tables, userId: string, f: FormData, paymentMethod: string, items: seq<CheckoutItem>, fault: Fault): (r: (Tables, Outcome))
    ensures r.0.products == t.products && r.0.users == t.users
    ensures r.1.Failed? ==> r.1.description != ""
    ensures !r.1.MissingInformation?
  {
    if fault.OrderInsertFails? then (t, Failed(OrElse(fault.message, "Failed to process payment.")))
    else
      var id := t.nextId;
      var order := Order(id, userId, "pending", "pending", OrderTotal(items), ShippingAddress(f), paymentMethod, None, None);
      var t2 := t.(orders := t.orders + [order], nextId := id + 1);
      if fault.ItemsInsertFails? then (t2, Failed(OrElse(fault.message, "Failed to process payment.")))
      else
        var t3 := t2.(orderItems := t2.orderItems + ItemRows(id, items));
        var t4 := if fault.StatusUpdateFails? then t3 else t3.(orders := MarkPaid(t3.orders, id));
        var t5 := if fault.CartClearFails? then t4 else t4.(cart := WithoutUser(t4.cart, userId));
        (t5, Navigated(SuccessPath + NatToString(id)))
  }

  /** `handleSubmit` as a function of the store before the call. `profile`
      and `cart` are the component's props; `cart` is None when the prop is not
      passed. Neither is checked for null: `profile.id` (profile save, order
      insert) and `cartItems.reduce` (total) throw a TypeError that the catch
      turns into the error toast, and the writes done so far stay. */
  function Submit(t: Tables, profile: Option<Profile>, f: FormData, paymentMethod: string, cart: Option<seq<CheckoutItem>>, fault: Fault): (r: (Tables, Outcome))
    ensures r.0.products == t.products
    ensures r.1.Failed? ==> r.1.description != ""
    ensures r.1.Navigated? ==> profile.Some? && cart.Some?
    ensures profile.None? ==> r.0 == t
    ensures cart.None? ==> r.0.orders == t.orders && r.0.orderItems == t.orderItems && r.0.cart == t.cart
  {
    if !Complete(f) then (t, MissingInformation)
    else if f.saveInfo && profile.None? then (t, Failed(NullProfileError))
    else
      var t1 := if profile.Some? then SaveStep(t, profile.value.id, f, fault) else t;
      if cart.None? then (t1, Failed(MissingCartError))
      else if profile.None? then (t1, Failed(NullProfileError))
      else OrderSteps(t1, profile.value.id, f, paymentMethod, cart.value, fault)
  }

  /** The component: its form state, the chosen payment method, the
      processing flag, and the profile and cart props it was given (the
      checkout page passes only the profile, so there `cartItems` is None). */
  class Form {
    var formData: FormData
    var paymentMethod: string
    var isProcessing: bool
    const profile: Option<Profile>
    const cartItems: Option<seq<CheckoutItem>>

    constructor (profile: Option<Profile>, cartItems: Option<seq<CheckoutItem>>)
      ensures formData == InitialForm(profile) && paymentMethod == "mpesa" && !isProcessing
      ensures this.profile == profile && this.cartItems == cartItems
    {
      formData := InitialForm(profile);
      paymentMethod := "mpesa";
      isProcessing := false;
      this.profile := profile;
      this.cartItems := cartItems;
    }

    /** Validate, then run the writes in order. The processing flag is set
        after validation and reset only in the catch block, so it stays set
        when the page navigates away. */
    method HandleSubmit(db: Db, fault: Fault) returns (outcome: Outcome)
      requires db.Valid()
      modifies db, this`isProcessing
      ensures db.Valid()
      ensures (db.Snapshot(), outcome) == Submit(old(db.Snapshot()), profile, formData, paymentMethod, cartItems, fault)
      ensures isProcessing == (if outcome.MissingInformation? then old(isProcessing) else outcome.Navigated?)
    {
      if formData.fullName == "" || formData.email == "" || formData.phone == "" || formData.address == "" {
        return MissingInformation;
      }
      isProcessing := true;
      if formData.saveInfo {
        if profile.None? {
          isProcessing := false;
          return Failed(NullProfileError);
        }
        if !fault.ProfileUpdateFails? {
          db.users := SaveProfile(db.users, profile.value.id, formData);
        }
      }
      if cartItems.None? {
        isProcessing := false;
        return Failed(MissingCartError);
      }
      if profile.None? {
        isProcessing := false;
        return Failed(NullProfileError);
      }
      outcome := WriteOrder(db, profile.value.id, formData, paymentMethod, cartItems.value, fault);
      if outcome.Failed? {
        isProcessing := false;
      }
    }
  }

  /** The order writes of `handleSubmit`, run on the store one after the
      other; an insert error stops them. */
  method WriteOrder(db: Db, userId: string, f: FormData, paymentMethod: string, items: seq<CheckoutItem>, fault: Fault) returns (outcome: Outcome)
    requires db.Valid()
    modifies db
    ensures db.Valid()
    ensures (db.Snapshot(), outcome) == OrderSteps(old(db.Snapshot()), userId, f, paymentMethod, items, fault)
  {
    OrderStepsKeepsWellFormed(db.Snapshot(), userId, f, paymentMethod, items, fault);
    var total := OrderTotal(items);
    var address := ShippingAddress(f);
    if fault.OrderInsertFails? {
      return Failed(OrElse(fault.message, "Failed to process payment."));
    }
    var orderId := db.nextId;
    db.orders := db.orders + [Order(orderId, userId, "pending", "pending", total, address, paymentMethod, None, None)];
    db.nextId := db.nextId + 1;
    if fault.ItemsInsertFails? {
      return Failed(OrElse(fault.message, "Failed to process payment."));
    }
    db.orderItems := db.orderItems + ItemRows(orderId, items);
    if !fault.StatusUpdateFails? {
      db.orders := MarkPaid(db.orders, orderId);
    }
    if !fault.CartClearFails? {
      db.cart := WithoutUser(db.cart, userId);
    }
    return Navigated(SuccessPath + NatToString(orderId));
  }

  // ---------------------------------------------------------------------
  // Properties of the submit flow

  /** The order writes keep every id below the counter: the new order takes
      the counter's value and the counter moves past it. */
  lemma OrderStepsKeepsWellFormed(t: Tables, userId: string, f: FormData, paymentMethod: string, items: seq<CheckoutItem>, fault: Fault)
    requires WellFormed(t)
    ensures WellFormed(OrderSteps(t, userId, f, paymentMethod, items, fault).0)
  {
    var r := OrderSteps(t, userId, f, paymentMethod, items, fault).0;
    if !fault.OrderInsertFails? {
      assert r.nextId == t.nextId + 1;
      assert forall i :: 0 <= i < |r.orders| ==> r.orders[i].id <= t.nextId;
      assert forall i :: 0 <= i < |r.cart| ==> r.cart[i] in t.cart;
    }
  }

  /** A form missing any required field changes nothing in the store. */
  lemma IncompleteFormWritesNothing(t: Tables, profile: Profile, f: FormData, paymentMethod: string, items: seq<CheckoutItem>, fault: Fault)
    requires f.fullName == "" || f.email == "" || f.phone == "" || f.address == ""
    ensures Submit(t, Some(profile), f, paymentMethod, Some(items), fault) == (t, MissingInformation)
  {
  }

  /** The submit stops at "Missing information" exactly when a required
      field is empty; the other fields, the store and the faults never make it
      stop there. */
  lemma MissingInformationExactlyWhenIncomplete(t: Tables, profile: Profile, f: FormData, paymentMethod: string, items: seq<CheckoutItem>, fault: Fault)
    ensures Submit(t, Some(profile), f, paymentMethod, Some(items), fault).1.MissingInformation? <==> !Complete(f)
    ensures Submit(t, Some(profile), f.(city := "", country := "", postalCode := ""), paymentMethod, Some(items), fault).1.MissingInformation?
         == Submit(t, Some(profile), f, paymentMethod, Some(items), fault).1.MissingInformation?
  {
  }

  /** On a successful submit the order exists once, with the computed total
      and the shipping address, and ends "processing"/"paid" unless the
      ignored status update failed, in which case it stays "pending". The
      earlier orders are unchanged, because their ids are all below the new
      one. */
  lemma {:induction false} SubmittedOrder(t: Tables, profile: Profile, f: FormData, paymentMethod: string, items: seq<CheckoutItem>, fault: Fault)
    requires WellFormed(t)
    requires Submit(t, Some(profile), f, paymentMethod, Some(items), fault).1.Navigated?
    ensures var (t', _) := Submit(t, Some(profile), f, paymentMethod, Some(items), fault);
      var placed := Order(t.nextId, profile.id, "pending", "pending", OrderTotal(items), ShippingAddress(f), paymentMethod, None, None);
      t'.orders == t.orders + [if fault.StatusUpdateFails? then placed else placed.(status := "processing", paymentStatus := "paid")]
  {
    var id := t.nextId;
    var placed := Order(id, profile.id, "pending", "pending", OrderTotal(items), ShippingAddress(f), paymentMethod, None, None);
    if !fault.StatusUpdateFails? {
      var all := t.orders + [placed];
      var marked := MarkPaid(all, id);
      var want := t.orders + [placed.(status := "processing", paymentStatus := "paid")];
      assert |marked| == |want|;
      forall i | 0 <= i < |marked| ensures marked[i] == want[i] {
        if i < |t.orders| {
          assert all[i] == t.orders[i];
          assert t.orders[i].id < id;
        }
      }
      assert marked == want;
    }
  }

  /** One item row per cart line, with the cart price and quantity, tied to the
      new order; items are written only after the order insert succeeded. */
  lemma SubmittedItems(t: Tables, profile: Profile, f: FormData, paymentMethod: string, items: seq<CheckoutItem>, fault: Fault)
    requires Submit(t, Some(profile), f, paymentMethod, Some(items), fault).1.Navigated?
    ensures var (t', _) := Submit(t, Some(profile), f, paymentMethod, Some(items), fault);
      && t'.orderItems[..|t.orderItems|] == t.orderItems
      && |t'.orderItems| == |t.orderItems| + |items|
      && forall i :: 0 <= i < |items| ==>
           t'.orderItems[|t.orderItems| + i] == OrderItem(t.nextId, items[i].productId, items[i].quantity, items[i].price)
  {
    var t' := Submit(t, Some(profile), f, paymentMethod, Some(items), fault).0;
    assert t'.orderItems == t.orderItems + ItemRows(t.nextId, items);
  }

  /** A failed order or items insert skips the status update and the cart
      clear: the cart is as before, and no order is marked paid. */
  lemma FailedInsertSkipsLaterWrites(t: Tables, profile: Profile, f: FormData, paymentMethod: string, items: seq<CheckoutItem>, fault: Fault)
    requires Complete(f)
    requires fault.OrderInsertFails? || fault.ItemsInsertFails?
    ensures var (t', r) := Submit(t, Some(profile), f, paymentMethod, Some(items), fault);
      && r.Failed?
      && t'.cart == t.cart
      && t'.orderItems == t.orderItems
      && t'.orders[..|t.orders|] == t.orders
      && (fault.OrderInsertFails? ==> t'.orders == t.orders)
      && (fault.ItemsInsertFails? ==> |t'.orders| == |t.orders| + 1 && t'.orders[|t.orders|].status == "pending")
  {
  }

  /** On success no cart row of the user remains unless the ignored delete
      failed, and rows of other users stay. */
  lemma SubmitClearsOwnCart(t: Tables, profile: Profile, f: FormData, paymentMethod: string, items: seq<CheckoutItem>, fault: Fault, row: CartRow)
    requires Submit(t, Some(profile), f, paymentMethod, Some(items), fault).1.Navigated?
    ensures var t' := Submit(t, Some(profile), f, paymentMethod, Some(items), fault).0;
      && (row.userId != profile.id ==> (row in t'.cart <==> row in t.cart))
      && (row.userId == profile.id && !fault.CartClearFails? ==> row !in t'.cart)
  {
  }

  /** With "save info" the profile is updated before the order exists, so it
      is kept even when the order insert fails afterwards. */
  lemma ProfileSavedBeforeOrder(t: Tables, profile: Profile, f: FormData, paymentMethod: string, items: seq<CheckoutItem>, message: string)
    requires Complete(f) && f.saveInfo && profile.id in t.users
    ensures var t' := Submit(t, Some(profile), f, paymentMethod, Some(items), OrderInsertFails(message)).0;
      && t'.users[profile.id].fullName == Some(f.fullName)
      && t'.users[profile.id].address == Some(f.address)
      && t'.users[profile.id].phone == Some(f.phone)
      && t'.orders == t.orders
  {
  }

  /** Without a profile (no row, or the page's read failed) the submit writes
      nothing: `profile.id` throws before the profile update is sent or, when
      "save info" is off, before the order insert is sent. A complete form
      ends in the error toast. */
  lemma NullProfileWritesNothing(t: Tables, f: FormData, paymentMethod: string, cart: Option<seq<CheckoutItem>>, fault: Fault)
    ensures Submit(t, None, f, paymentMethod, cart, fault).0 == t
    ensures Complete(f) ==> Submit(t, None, f, paymentMethod, cart, fault).1.Failed?
    ensures Complete(f) && (f.saveInfo || cart.Some?) ==>
      Submit(t, None, f, paymentMethod, cart, fault).1 == Failed(NullProfileError)
  {
  }

  /** The form as the checkout page mounts it, without the `cartItems` prop:
      no submit ever places an order. The profile save still happens, then
      `cartItems.reduce` throws and the error toast is shown. */
  lemma MountedWithoutCartNeverOrders(t: Tables, profile: Option<Profile>, f: FormData, paymentMethod: string, fault: Fault)
    ensures var (t', r) := Submit(t, profile, f, paymentMethod, None, fault);
      && !r.Navigated?
      && t'.orders == t.orders && t'.orderItems == t.orderItems && t'.cart == t.cart && t'.nextId == t.nextId
      && (Complete(f) ==> r.Failed?)
      && (Complete(f) && profile.Some? ==> r == Failed(MissingCartError))
      && (Complete(f) && profile.Some? && f.saveInfo && !fault.ProfileUpdateFails? ==>
            t'.users == SaveProfile(t.users, profile.value.id, f))
  {
  }

  /** Given the cart it was meant to receive, a complete submit with a
      profile and no store error places the order at the next id and
      navigates to its success page. */
  lemma PassedCartPlacesOrder(t: Tables, profile: Profile, f: FormData, paymentMethod: string, items: seq<CheckoutItem>)
    requires Complete(f)
    ensures var (t', r) := Submit(t, Some(profile), f, paymentMethod, Some(items), NoFault);
      && r == Navigated(SuccessPath + NatToString(t.nextId))
      && |t'.orders| == |t.orders| + 1
      && t'.orders[|t.orders|].id == t.nextId
      && t'.orders[|t.orders|].userId == profile.id
      && t'.orders[|t.orders|].totalAmount == OrderTotal(items)
  {
  }
}
