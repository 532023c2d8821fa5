/** The admin's order editor: four fields initialised from the order, edited
    one at a time, and written back to that order's row. Any status may be
    chosen whatever the current one is; there is no transition rule. */
module OrderStatusForm {
  import opened Common
  import opened Store

  const Statuses: seq<string> := ["pending", "processing", "shipped", "delivered", "cancelled"]
  const PaymentStatuses: seq<string> := ["pending", "paid", "refunded", "failed"]

  datatype FormData = FormData(status: string, paymentStatus: string, trackingNumber: string, notes: string)

  datatype Field = Status | PaymentStatus | TrackingNumber | Notes

  /** The form's starting values: the order's, with null tracking number and
      notes shown as "". */
  function InitialForm(o: Order): (f: FormData)
    ensures f.status == o.status && f.paymentStatus == o.paymentStatus
    ensures f.trackingNumber == OrEmpty(o.trackingNumber) && f.notes == OrEmpty(o.notes)
  {
    FormData(o.status, o.paymentStatus, OrEmpty(o.trackingNumber), OrEmpty(o.notes))
  }

  /** `handleChange(field, value)`: that one field takes the value. */
  function WithField(f: FormData, field: Field, value: string): (r: FormData)
    ensures field == Status ==> r == f.(status := value)
    ensures field == PaymentStatus ==> r == f.(paymentStatus := value)
    ensures field == TrackingNumber ==> r == f.(trackingNumber := value)
    ensures field == Notes ==> r == f.(notes := value)
  {
    match field
    case Status => f.(status := value)
    case PaymentStatus => f.(paymentStatus := value)
    case TrackingNumber => f.(trackingNumber := value)
    case Notes => f.(notes := value)
  }

  /** The row written for the order: the four columns from the form, empty
      tracking number and notes stored as null. */
  function Applied(o: Order, f: FormData): (r: Order)
    ensures r.status == f.status && r.paymentStatus == f.paymentStatus
    ensures r.trackingNumber == NullIfEmpty(f.trackingNumber) && r.notes == NullIfEmpty(f.notes)
    ensures r.id == o.id && r.userId == o.userId && r.totalAmount == o.totalAmount
    ensures r.shippingAddress == o.shippingAddress && r.paymentMethod == o.paymentMethod
  {
    o.(status := f.status, paymentStatus := f.paymentStatus,
       trackingNumber := NullIfEmpty(f.trackingNumber), notes := NullIfEmpty(f.notes))
  }

  /** The update `.eq("id", id)` on `orders`. */
  function UpdateOrder(orders: seq<Order>, id: nat, f: FormData): (r: seq<Order>)
    ensures |r| == |orders|
    ensures forall i :: 0 <= i < |orders| ==> r[i] == if orders[i].id == id then Applied(orders[i], f) else orders[i]
  {
    if orders == [] then []
    else [if orders[0].id == id then Applied(orders[0], f) else orders[0]] + UpdateOrder(orders[1..], id, f)
  }

  /** Submitting the form untouched writes back what was read, except that a
      stored empty text becomes null. */
  lemma UntouchedSubmitKeepsOrder(o: Order)
    requires o.trackingNumber != Some("") && o.notes != Some("")
    ensures Applied(o, InitialForm(o)) == o
  {
    NullIfEmptyOfOrEmpty(o.trackingNumber);
    NullIfEmptyOfOrEmpty(o.notes);
  }

  /** Every offered status can be written from every current status. */
  lemma AnyStatusReachable(o: Order, i: nat)
    requires i < |Statuses|
    ensures Applied(o, WithField(InitialForm(o), Status, Statuses[i])).status == Statuses[i]
  {
  }

  /** The four columns of the rows are the only ones changed, and only on the
      row with the order's id; a second identical submit changes nothing
      more. */
  lemma UpdateIsIdempotent(orders: seq<Order>, id: nat, f: FormData)
    ensures UpdateOrder(UpdateOrder(orders, id, f), id, f) == UpdateOrder(orders, id, f)
  {
    var once := UpdateOrder(orders, id, f);
    var twice := UpdateOrder(once, id, f);
    forall i | 0 <= i < |orders| ensures twice[i] == once[i] {
      if orders[i].id == id {
        assert Applied(Applied(orders[i], f), f) == Applied(orders[i], f);
      }
    }
  }

  datatype Outcome = Updated | Failed(description: string)

  /** The editor for one order. */
  class Editor {
    var formData: FormData
    var isLoading: bool
    const orderId: nat

    constructor (o: Order)
      ensures formData == InitialForm(o) && !isLoading && orderId == o.id
    {
      formData := InitialForm(o);
      isLoading := false;
      orderId := o.id;
    }

    method HandleChange(field: Field, value: string)
      modifies this`formData
      ensures formData == WithField(old(formData), field, value)
    {
      match field
      case Status => formData := formData.(status := value);
      case PaymentStatus => formData := formData.(paymentStatus := value);
      case TrackingNumber => formData := formData.(trackingNumber := value);
      case Notes => formData := formData.(notes := value);
    }

    /** `handleSubmit`: one update on the order's row, the error toast on a
        store error, and the flag cleared in `finally`. */
    method HandleSubmit(db: Db, writeError: Option<string>) returns (outcome: Outcome)
      requires db.Valid()
      modifies this`isLoading, db
      ensures db.Valid()
      ensures !isLoading
      ensures writeError.Some? ==>
        outcome == Failed(OrElse(writeError.value, "Failed to update order.")) && db.Snapshot() == old(db.Snapshot())
      ensures writeError.None? ==>
        outcome == Updated && db.Snapshot() == old(db.Snapshot()).(orders := UpdateOrder(old(db.orders), orderId, formData))
    {
      isLoading := true;
      if writeError.Some? {
        isLoading := false;
        return Failed(OrElse(writeError.value, "Failed to update order."));
      }
      var updated := UpdateOrder(db.orders, orderId, formData);
      assert forall i :: 0 <= i < |updated| ==> updated[i].id == db.orders[i].id;
      db.orders := updated;
      outcome := Updated;
      isLoading := false;
    }
  }
}
