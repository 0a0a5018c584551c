/**
 * The admin's order endpoints: set the status or the payment status outright, and record
 * a tracking number. None of them goes through the order lifecycle: no stock is deducted
 * or released and no shipped or delivered time is stamped.
 */
module AdminOrderApi {
  import opened Base
  import opened Orders

  /** The status names the validator's `in:` list accepts, and the status each one names. */
  function ParseStatus(s: string): (r: Option<OrderStatus>)
    ensures r.Some? ==> StatusName(r.value) == s
  {
    if s == "pending" then Some(Pending)
    else if s == "confirmed" then Some(Confirmed)
    else if s == "processing" then Some(Processing)
    else if s == "shipped" then Some(Shipped)
    else if s == "delivered" then Some(Delivered)
    else if s == "cancelled" then Some(Cancelled)
    else if s == "refunded" then Some(Refunded)
    else None
  }

  /** The column value of each status. */
  function StatusName(st: OrderStatus): string
  {
    match st
    case Pending => "pending"
    case Confirmed => "confirmed"
    case Processing => "processing"
    case Shipped => "shipped"
    case Delivered => "delivered"
    case Cancelled => "cancelled"
    case Refunded => "refunded"
  }

  /** Every one of the seven statuses is accepted under its own name, and nothing else is accepted. */
  lemma StatusNamesRoundTrip(st: OrderStatus, s: string)
    ensures ParseStatus(StatusName(st)) == Some(st)
    ensures ParseStatus(s).Some? <==> s in {"pending", "confirmed", "processing", "shipped", "delivered", "cancelled", "refunded"}
  {
  }

  function ParsePaymentStatus(s: string): (r: Option<OrderPaymentStatus>)
    ensures r.Some? ==> PaymentStatusName(r.value) == s
  {
    if s == "pending" then Some(PaymentPending)
    else if s == "paid" then Some(Paid)
    else if s == "failed" then Some(PaymentFailed)
    else if s == "refunded" then Some(PaymentRefunded)
    else None
  }

  function PaymentStatusName(st: OrderPaymentStatus): string
  {
    match st
    case PaymentPending => "pending"
    case Paid => "paid"
    case PaymentFailed => "failed"
    case PaymentRefunded => "refunded"
  }

  lemma PaymentStatusNamesRoundTrip(st: OrderPaymentStatus, s: string)
    ensures ParsePaymentStatus(PaymentStatusName(st)) == Some(st)
    ensures ParsePaymentStatus(s).Some? <==> s in {"pending", "paid", "failed", "refunded"}
  {
  }

  /**
   * updateStatus: 404 for an unknown order, 422 for a name outside the seven; otherwise
   * the status is written and nothing else (the notes go to a column that is not mass
   * assignable, and the inventory is not touched).
   */
  method UpdateStatus(orders: OrderTable, orderId: int, status: string) returns (r: Result<Order>)
    requires orders.Valid()
    modifies orders
    ensures orders.Valid() && orders.nextId == old(orders.nextId)
    ensures r.Err? ==> orders.orders == old(orders.orders)
    ensures FindOrder(old(orders.orders), orderId).None? ==> r == Err(NotFound)
    ensures FindOrder(old(orders.orders), orderId).Some? && ParseStatus(status).None? ==> r == Err(Unprocessable("Validation failed"))
    ensures FindOrder(old(orders.orders), orderId).Some? && ParseStatus(status).Some? ==>
              var j := FindOrder(old(orders.orders), orderId).value;
              orders.orders == old(orders.orders)[j := old(orders.orders)[j].(status := ParseStatus(status).value)] &&
              r == Ok(orders.orders[j])
    ensures r.Ok? ==> StatusName(r.value.status) == status
  {
    var j := FindOrder(orders.orders, orderId);
    if j.None? {
      return Err(NotFound);
    }
    var st := ParseStatus(status);
    if st.None? {
      return Err(Unprocessable("Validation failed"));
    }
    orders.orders := orders.orders[j.value := orders.orders[j.value].(status := st.value)];
    return Ok(orders.orders[j.value]);
  }

  /**
   * Marking an order delivered here leaves its delivery time, where the lifecycle's
   * updateStatus stamps it (and deducts the stock, which this endpoint cannot reach).
   */
  lemma AdminDeliveryStampsNothing(o: Order, now: int)
    requires o.deliveredAt.None?
    ensures o.(status := Delivered).deliveredAt.None?
    ensures WithStatus(o, Delivered, now).deliveredAt == Some(now)
  {
  }

  /** updatePaymentStatus: 404 for an unknown order, 422 outside the four names; otherwise only payment_status is written. */
  method UpdatePaymentStatus(orders: OrderTable, orderId: int, paymentStatus: string) returns (r: Result<Order>)
    requires orders.Valid()
    modifies orders
    ensures orders.Valid() && orders.nextId == old(orders.nextId)
    ensures r.Err? ==> orders.orders == old(orders.orders)
    ensures FindOrder(old(orders.orders), orderId).None? ==> r == Err(NotFound)
    ensures FindOrder(old(orders.orders), orderId).Some? && ParsePaymentStatus(paymentStatus).None? ==> r == Err(Unprocessable("Validation failed"))
    ensures FindOrder(old(orders.orders), orderId).Some? && ParsePaymentStatus(paymentStatus).Some? ==>
              var j := FindOrder(old(orders.orders), orderId).value;
              orders.orders == old(orders.orders)[j := old(orders.orders)[j].(paymentStatus := ParsePaymentStatus(paymentStatus).value)] &&
              r == Ok(orders.orders[j])
    ensures r.Ok? ==> PaymentStatusName(r.value.paymentStatus) == paymentStatus
  {
    var j := FindOrder(orders.orders, orderId);
    if j.None? {
      return Err(NotFound);
    }
    var st := ParsePaymentStatus(paymentStatus);
    if st.None? {
      return Err(Unprocessable("Validation failed"));
    }
    orders.orders := orders.orders[j.value := orders.orders[j.value].(paymentStatus := st.value)];
    return Ok(orders.orders[j.value]);
  }

  /**
   * addTracking: 404 for an unknown order; 422 without a tracking number, or for one over
   * 255 characters, a carrier over 100, or a tracking url the url rule refuses; otherwise
   * the tracking number is stored and the status forced to shipped (carrier and url go to
   * columns that are not mass assignable; no shipped time is stamped).
   */
  method AddTracking(orders: OrderTable, orderId: int, trackingNumber: Option<string>, carrier: Option<string>,
                     trackingUrlAccepted: bool)
    returns (r: Result<Order>)
    requires orders.Valid()
    modifies orders
    ensures orders.Valid() && orders.nextId == old(orders.nextId)
    ensures r.Err? ==> orders.orders == old(orders.orders)
    ensures FindOrder(old(orders.orders), orderId).None? ==> r == Err(NotFound)
    ensures FindOrder(old(orders.orders), orderId).Some? ==>
              var j := FindOrder(old(orders.orders), orderId).value;
              var valid := trackingNumber.Some? && trackingNumber.value != "" && |trackingNumber.value| <= 255 &&
                           (carrier.None? || |carrier.value| <= 100) && trackingUrlAccepted;
              (!valid ==> r == Err(Unprocessable("Validation failed"))) &&
              (valid ==> orders.orders == old(orders.orders)[j := old(orders.orders)[j].(trackingNumber := trackingNumber, status := Shipped)] &&
                         r == Ok(orders.orders[j]))
    ensures r.Ok? ==> r.value.status == Shipped && r.value.trackingNumber == trackingNumber
  {
    var j := FindOrder(orders.orders, orderId);
    if j.None? {
      return Err(NotFound);
    }
    if !(trackingNumber.Some? && trackingNumber.value != "" && |trackingNumber.value| <= 255 &&
         (carrier.None? || |carrier.value| <= 100) && trackingUrlAccepted) {
      return Err(Unprocessable("Validation failed"));
    }
    orders.orders := orders.orders[j.value := orders.orders[j.value].(trackingNumber := trackingNumber, status := Shipped)];
    return Ok(orders.orders[j.value]);
  }
}
