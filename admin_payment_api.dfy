/**
 * The admin's side of a bank transfer: the queue of slips waiting for review, and the
 * verify and reject decisions.
 */
module AdminPaymentApi {
  import opened Base
  import opened Payments
  import Orders

  /** Every payment belongs to an existing order (payments.order_id is a foreign key). */
  predicate OrdersExist(ps: seq<Payment>, orders: seq<Orders.Order>)
  {
    forall i :: 0 <= i < |ps| ==> OrderOf(orders, ps[i]).Some?
  }

  /** Rewriting payment and order rows that keep their ids and owners keeps every payment's order. */
  lemma OrdersExistKept(ps: seq<Payment>, orders: seq<Orders.Order>, ps': seq<Payment>, orders': seq<Orders.Order>)
    requires OrdersExist(ps, orders)
    requires |ps'| == |ps| && forall i :: 0 <= i < |ps| ==> ps'[i].orderId == ps[i].orderId
    requires |orders'| == |orders| && forall j :: 0 <= j < |orders| ==> orders'[j].id == orders[j].id
    ensures OrdersExist(ps', orders')
  {
    forall i | 0 <= i < |ps'|
      ensures OrderOf(orders', ps'[i]).Some?
    {
      var j := OrderOf(orders, ps[i]).value;
      assert orders'[j].id == ps'[i].orderId;
    }
  }

  /** `nullable|string|max:n`. */
  predicate WithinLength(s: Option<string>, n: nat)
  {
    s.None? || |s.value| <= n
  }

  /**
   * verify: 404 for an unknown payment; 400 when it is already completed, or not a bank
   * transfer; 422 for an over-long transaction id or note; otherwise verifyBankTransfer,
   * then the transaction id and the note are written only when given.
   */
  method Verify(payments: PaymentTable, orders: Orders.OrderTable, paymentId: int, adminId: int,
                transactionId: Option<string>, notes: Option<string>, now: int)
    returns (r: Result<Payment>)
    requires payments.Valid() && orders.Valid() && OrdersExist(payments.payments, orders.orders)
    modifies payments, orders
    ensures payments.Valid() && orders.Valid() && OrdersExist(payments.payments, orders.orders)
    ensures r.Err? ==> payments.payments == old(payments.payments) && orders.orders == old(orders.orders)
    ensures FindPayment(old(payments.payments), paymentId).None? ==> r == Err(NotFound)
    ensures FindPayment(old(payments.payments), paymentId).Some? ==>
              var k := FindPayment(old(payments.payments), paymentId).value;
              var p := old(payments.payments)[k];
              (p.status == Completed ==> r == Err(BadRequest("Payment has already been verified"))) &&
              (p.status != Completed && p.paymentMethod != BankTransfer ==>
                 r == Err(BadRequest("Only bank transfer payments can be verified this way"))) &&
              (p.status != Completed && p.paymentMethod == BankTransfer && !(WithinLength(transactionId, 100) && WithinLength(notes, 500)) ==>
                 r == Err(Unprocessable("Validation failed"))) &&
              (p.status != Completed && p.paymentMethod == BankTransfer && WithinLength(transactionId, 100) && WithinLength(notes, 500) ==>
                 var v := AsVerified(p, adminId, now);
                 var q := v.(transactionId := if Filled(transactionId) then transactionId else v.transactionId,
                             notes := if Filled(notes) then notes else v.notes);
                 var j := OrderOf(old(orders.orders), p).value;
                 r == Ok(q) && payments.payments == old(payments.payments)[k := q] &&
                 orders.orders == old(orders.orders)[j := old(orders.orders)[j].(paymentStatus := Orders.Paid, status := Orders.Processing)])
    ensures r.Ok? ==> r.value.status == Completed && r.value.verifiedBy == Some(adminId) && r.value.paidAt == Some(now)
  {
    var k := FindPayment(payments.payments, paymentId);
    if k.None? {
      return Err(NotFound);
    }
    var p := payments.payments[k.value];
    if p.status == Completed {
      return Err(BadRequest("Payment has already been verified"));
    }
    if p.paymentMethod != BankTransfer {
      return Err(BadRequest("Only bank transfer payments can be verified this way"));
    }
    if !(WithinLength(transactionId, 100) && WithinLength(notes, 500)) {
      return Err(Unprocessable("Validation failed"));
    }
    payments.VerifyBankTransfer(k.value, orders, adminId, now);
    var q := payments.payments[k.value];
    q := q.(transactionId := if Filled(transactionId) then transactionId else q.transactionId,
            notes := if Filled(notes) then notes else q.notes);
    payments.payments := payments.payments[k.value := q];
    OrdersExistKept(old(payments.payments), old(orders.orders), payments.payments, orders.orders);
    return Ok(q);
  }

  /**
   * reject: 404 for an unknown payment; 400 when it is already completed; 422 without a
   * reason or with one over 500 characters; otherwise rejectBankTransfer with the reason,
   * whatever the payment's method.
   */
  method Reject(payments: PaymentTable, orders: Orders.OrderTable, paymentId: int, adminId: int,
                reason: Option<string>, now: int)
    returns (r: Result<Payment>)
    requires payments.Valid() && orders.Valid() && OrdersExist(payments.payments, orders.orders)
    modifies payments, orders
    ensures payments.Valid() && orders.Valid() && OrdersExist(payments.payments, orders.orders)
    ensures r.Err? ==> payments.payments == old(payments.payments) && orders.orders == old(orders.orders)
    ensures FindPayment(old(payments.payments), paymentId).None? ==> r == Err(NotFound)
    ensures FindPayment(old(payments.payments), paymentId).Some? ==>
              var k := FindPayment(old(payments.payments), paymentId).value;
              var p := old(payments.payments)[k];
              (p.status == Completed ==> r == Err(BadRequest("Cannot reject a completed payment"))) &&
              (p.status != Completed && (reason.None? || reason.value == "" || 500 < |reason.value|) ==>
                 r == Err(Unprocessable("Validation failed"))) &&
              (p.status != Completed && reason.Some? && reason.value != "" && |reason.value| <= 500 ==>
                 var j := OrderOf(old(orders.orders), p).value;
                 r == Ok(AsRejected(p, adminId, reason, now)) &&
                 payments.payments == old(payments.payments)[k := AsRejected(p, adminId, reason, now)] &&
                 orders.orders == old(orders.orders)[j := old(orders.orders)[j].(paymentStatus := Orders.PaymentFailed)])
    ensures r.Ok? ==> r.value.status == Failed && r.value.notes == reason && !IsPendingVerification(r.value)
  {
    var k := FindPayment(payments.payments, paymentId);
    if k.None? {
      return Err(NotFound);
    }
    var p := payments.payments[k.value];
    if p.status == Completed {
      return Err(BadRequest("Cannot reject a completed payment"));
    }
    if reason.None? || reason.value == "" || 500 < |reason.value| {
      return Err(Unprocessable("Validation failed"));
    }
    payments.RejectBankTransfer(k.value, orders, adminId, reason, now);
    OrdersExistKept(old(payments.payments), old(orders.orders), payments.payments, orders.orders);
    return Ok(payments.payments[k.value]);
  }

  /** A completed payment is final for the admin: neither verify nor reject changes it. */
  lemma CompletedIsFinal(p: Payment)
    requires p.status == Completed
    ensures !IsPendingVerification(p)
  {
  }

  // ---------------------------------------------------------------------------
  // pendingVerification: the scope, ordered by slip_uploaded_at ascending

  /** The ordering key: an absent upload time sorts first, as NULL does in an ascending MySQL sort. */
  predicate UploadedNoLater(a: Payment, b: Payment)
  {
    a.slipUploadedAt.None? || (b.slipUploadedAt.Some? && a.slipUploadedAt.value <= b.slipUploadedAt.value)
  }

  predicate SortedByUpload(ps: seq<Payment>)
  {
    forall i, j :: 0 <= i < j < |ps| ==> UploadedNoLater(ps[i], ps[j])
  }

  /** Insert p after every payment uploaded no later than it (so equal times keep their order). */
  function InsertByUpload(p: Payment, ps: seq<Payment>): (r: seq<Payment>)
    requires SortedByUpload(ps)
    ensures SortedByUpload(r) && multiset(r) == multiset(ps) + multiset{p} && |r| == |ps| + 1
    decreases |ps|
  {
    if |ps| == 0 then [p]
    else if UploadedNoLater(ps[|ps| - 1], p) then ps + [p]
    else
      var rest := InsertByUpload(p, ps[..|ps| - 1]);
      assert ps == ps[..|ps| - 1] + [ps[|ps| - 1]];
      InsertedLastIsMax(p, ps[..|ps| - 1], ps[|ps| - 1], rest);
      rest + [ps[|ps| - 1]]
  }

  /** The element moved past p is uploaded no earlier than everything before it. */
  lemma InsertedLastIsMax(p: Payment, init: seq<Payment>, last: Payment, rest: seq<Payment>)
    requires SortedByUpload(init + [last]) && !UploadedNoLater(last, p)
    requires multiset(rest) == multiset(init) + multiset{p} && SortedByUpload(rest)
    ensures SortedByUpload(rest + [last])
  {
    forall i | 0 <= i < |rest|
      ensures UploadedNoLater(rest[i], last)
    {
      assert rest[i] in multiset(rest);
      if rest[i] != p {
        assert rest[i] in multiset(init);
        var j :| 0 <= j < |init| && init[j] == rest[i];
        assert (init + [last])[j] == init[j];
        assert (init + [last])[|init|] == last;
      }
    }
  }

  /** The queue order: an insertion sort by upload time, stable on ties. */
  function SortByUpload(ps: seq<Payment>): (r: seq<Payment>)
    ensures SortedByUpload(r) && multiset(r) == multiset(ps)
    decreases |ps|
  {
    if |ps| == 0 then []
    else
      assert ps == ps[..|ps| - 1] + [ps[|ps| - 1]];
      InsertByUpload(ps[|ps| - 1], SortByUpload(ps[..|ps| - 1]))
  }

  /** pendingVerification: the slips in the scope, oldest upload first. */
  function PendingVerification(ps: seq<Payment>): (r: seq<Payment>)
    ensures SortedByUpload(r)
    ensures forall p :: p in r <==> p in ps && InPendingScope(p)
    ensures multiset(r) == multiset(PendingScope(ps))
  {
    var s := PendingScope(ps);
    var r := SortByUpload(s);
    assert forall p :: p in r <==> p in multiset(r);
    assert forall p :: p in s <==> p in multiset(s);
    r
  }
}
