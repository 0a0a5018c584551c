/**
 * The customer's side of a bank transfer: uploading the payment slip for one of their own
 * orders, and reading the payment status of an order.
 */
module PaymentApi {
  import opened Base
  import opened Payments
  import Orders

  /** The uploaded file as the validator sees it: its detected type, its size, its client extension. */
  datatype Upload = Upload(mimeAllowed: bool, sizeKb: int, clientExtension: string)

  /** `required|file|mimes:jpg,jpeg,png,pdf|max:5120` and `nullable|string|max:100`. */
  predicate UploadValid(slip: Option<Upload>, bankReference: Option<string>)
  {
    slip.Some? && slip.value.mimeAllowed && slip.value.sizeKb <= 5120 &&
    (bankReference.Some? ==> |bankReference.value| <= 100)
  }

  /** The stored name of a slip: under payment_slips/, the order number, a random token, the client extension. */
  function SlipName(orderNumber: string, token: string, ext: string): (r: string)
    ensures r != "" && r != "0"
    ensures |r| == 14 + |orderNumber| + 1 + |token| + 1 + |ext|
  {
    "payment_slips/" + orderNumber + "_" + token + "." + ext
  }

  /** The payment row after an upload: the new slip, the time, processing, and the reference kept unless one is given. */
  function WithSlip(p: Payment, name: string, bankReference: Option<string>, now: int): (r: Payment)
    ensures r.paymentSlip == Some(name) && r.slipUploadedAt == Some(now) && r.status == Processing
    ensures bankReference.Some? ==> r.bankReference == bankReference
    ensures bankReference.None? ==> r.bankReference == p.bankReference
    ensures r.id == p.id && r.orderId == p.orderId && r.paymentMethod == p.paymentMethod && r.amount == p.amount
    ensures r.transactionId == p.transactionId && r.paidAt == p.paidAt && r.verifiedBy == p.verifiedBy
  {
    p.(paymentSlip := Some(name),
       bankReference := if bankReference.Some? then bankReference else p.bankReference,
       slipUploadedAt := Some(now), status := Processing)
  }

  /**
   * A bank-transfer payment that receives a slip is waiting for verification, whatever
   * state short of completed it was in (a rejected, failed payment can be retried this way).
   */
  lemma UploadAwaitsVerification(p: Payment, orderNumber: string, token: string, ext: string,
                                 bankReference: Option<string>, now: int)
    requires p.paymentMethod == BankTransfer
    ensures var q := WithSlip(p, SlipName(orderNumber, token, ext), bankReference, now);
            IsPendingVerification(q) && InPendingScope(q) && HasPaymentSlip(q)
  {
  }

  /**
   * uploadSlip: 422 for a bad upload; 404 unless the order number is one of this user's
   * orders; 400 when the order has no bank-transfer payment or that payment is already
   * completed; otherwise the first bank-transfer payment of the order takes the slip.
   */
  method UploadSlip(payments: PaymentTable, orders: seq<Orders.Order>, userId: int, orderNumber: string,
                    slip: Option<Upload>, bankReference: Option<string>, token: string, now: int)
    returns (r: Result<Payment>)
    requires payments.Valid()
    modifies payments
    ensures payments.Valid() && payments.nextId == old(payments.nextId)
    ensures r.Err? ==> payments.payments == old(payments.payments)
    ensures !UploadValid(slip, bankReference) ==> r == Err(Unprocessable("Validation failed"))
    ensures UploadValid(slip, bankReference) && Orders.FindUserOrder(orders, orderNumber, userId).None? ==> r == Err(NotFound)
    ensures UploadValid(slip, bankReference) && Orders.FindUserOrder(orders, orderNumber, userId).Some? ==>
              var o := orders[Orders.FindUserOrder(orders, orderNumber, userId).value];
              var k := FindPaymentFor(old(payments.payments), o.id, BankTransfer);
              (k.None? ==> r == Err(BadRequest("No bank transfer payment found for this order"))) &&
              (k.Some? && old(payments.payments)[k.value].status == Completed ==>
                 r == Err(BadRequest("Payment has already been verified"))) &&
              (k.Some? && old(payments.payments)[k.value].status != Completed ==>
                 var p := WithSlip(old(payments.payments)[k.value], SlipName(o.orderNumber, token, slip.value.clientExtension), bankReference, now);
                 r == Ok(p) && payments.payments == old(payments.payments)[k.value := p])
    ensures r.Ok? ==> IsPendingVerification(r.value)
  {
    if !UploadValid(slip, bankReference) {
      return Err(Unprocessable("Validation failed"));
    }
    var j := Orders.FindUserOrder(orders, orderNumber, userId);
    if j.None? {
      return Err(NotFound);
    }
    var o := orders[j.value];
    var k := FindPaymentFor(payments.payments, o.id, BankTransfer);
    if k.None? {
      return Err(BadRequest("No bank transfer payment found for this order"));
    }
    if payments.payments[k.value].status == Completed {
      return Err(BadRequest("Payment has already been verified"));
    }
    var p := WithSlip(payments.payments[k.value], SlipName(o.orderNumber, token, slip.value.clientExtension), bankReference, now);
    payments.payments := payments.payments[k.value := p];
    return Ok(p);
  }

  /** The status response: the order number and, when the order has a payment, its method, status and slip facts. */
  datatype StatusView = StatusView(
    orderNumber: string, paymentMethod: Option<PaymentMethod>, paymentStatus: Option<PaymentStatus>,
    slipUploaded: Option<bool>, slipUploadedAt: Option<int>, verifiedAt: Option<int>)

  /**
   * getPaymentStatus: 404 unless the order is the user's own; otherwise the facts of its
   * first payment, all null when it has none.
   */
  function GetPaymentStatus(payments: seq<Payment>, orders: seq<Orders.Order>, userId: int, orderNumber: string): (r: Result<StatusView>)
    ensures r.Err? <==> Orders.FindUserOrder(orders, orderNumber, userId).None?
    ensures r.Err? ==> r.error == NotFound
    ensures r.Ok? ==> r.value.orderNumber == orderNumber
    ensures r.Ok? ==> var o := orders[Orders.FindUserOrder(orders, orderNumber, userId).value];
                      (r.value.slipUploaded.Some? <==> exists j :: 0 <= j < |payments| && payments[j].orderId == o.id) &&
                      (r.value.slipUploaded == Some(true) ==>
                         exists j :: 0 <= j < |payments| && payments[j].orderId == o.id && HasPaymentSlip(payments[j]))
    ensures r.Ok? ==>
              var o := orders[Orders.FindUserOrder(orders, orderNumber, userId).value];
              (FirstPaymentOf(payments, o.id).None? ==> r.value == StatusView(orderNumber, None, None, None, None, None)) &&
              (FirstPaymentOf(payments, o.id).Some? ==>
                 var p := payments[FirstPaymentOf(payments, o.id).value];
                 r.value.paymentMethod == Some(p.paymentMethod) && r.value.paymentStatus == Some(p.status) &&
                 r.value.slipUploaded == Some(HasPaymentSlip(p)) &&
                 r.value.slipUploadedAt == p.slipUploadedAt && r.value.verifiedAt == p.verifiedAt)
  {
    match Orders.FindUserOrder(orders, orderNumber, userId)
    case None => Err(NotFound)
    case Some(j) =>
      var o := orders[j];
      match FirstPaymentOf(payments, o.id)
      case None => Ok(StatusView(o.orderNumber, None, None, None, None, None))
      case Some(k) =>
        var p := payments[k];
        Ok(StatusView(o.orderNumber, Some(p.paymentMethod), Some(p.status), Some(HasPaymentSlip(p)), p.slipUploadedAt, p.verifiedAt))
  }
}
