/**
 * Payments: one row per payment attempt on an order, and the bank-transfer state machine
 * pending -> processing (slip uploaded) -> completed or failed. Each state change also
 * writes the owning order's payment_status (and, on verification, its status).
 */
module Payments {
  import opened Base
  import Orders

  /** The methods checkout creates payments for. */
  datatype PaymentMethod = Card | BankTransfer | Cod

  /** The payments.status enum. */
  datatype PaymentStatus = Pending | Processing | Completed | Failed | Refunded

  /** One row of payments (timestamps as ints, the slip as an opaque storage reference). */
  datatype Payment = Payment(
    id: int, orderId: int,
    transactionId: Option<string>, paymentMethod: PaymentMethod, amount: real, status: PaymentStatus,
    notes: Option<string>, paidAt: Option<int>,
    paymentSlip: Option<string>, bankReference: Option<string>, slipUploadedAt: Option<int>,
    verifiedAt: Option<int>, verifiedBy: Option<int>)

  // ---------------------------------------------------------------------------
  // the payment row after each transition

  /** markAsCompleted: completed and paid now; the transaction id is replaced only when one is given. */
  function AsCompleted(p: Payment, transactionId: Option<string>, now: int): (r: Payment)
    ensures r.status == Completed && r.paidAt == Some(now)
    ensures Filled(transactionId) ==> r.transactionId == transactionId
    ensures !Filled(transactionId) ==> r.transactionId == p.transactionId
    ensures r == p.(status := Completed, paidAt := Some(now), transactionId := r.transactionId)
  {
    p.(status := Completed, paidAt := Some(now),
       transactionId := if Filled(transactionId) then transactionId else p.transactionId)
  }

  /** verifyBankTransfer: completed, with the verifying admin and the time recorded, and paid now. */
  function AsVerified(p: Payment, adminId: int, now: int): (r: Payment)
    ensures r.status == Completed && r.verifiedBy == Some(adminId)
    ensures r.verifiedAt == Some(now) && r.paidAt == Some(now)
    ensures r.paymentSlip == p.paymentSlip && r.transactionId == p.transactionId && r.notes == p.notes
  {
    p.(status := Completed, verifiedAt := Some(now), verifiedBy := Some(adminId), paidAt := Some(now))
  }

  /** rejectBankTransfer: failed, with the verifying admin recorded and the reason as the notes. */
  function AsRejected(p: Payment, adminId: int, reason: Option<string>, now: int): (r: Payment)
    ensures r.status == Failed && r.verifiedBy == Some(adminId) && r.verifiedAt == Some(now)
    ensures r.notes == reason
    ensures r.paidAt == p.paidAt && r.paymentSlip == p.paymentSlip && r.transactionId == p.transactionId
  {
    p.(status := Failed, verifiedAt := Some(now), verifiedBy := Some(adminId), notes := reason)
  }

  // ---------------------------------------------------------------------------
  // predicates

  /** hasPaymentSlip: the slip reference is non-empty in PHP's sense. */
  predicate HasPaymentSlip(p: Payment)
  {
    Filled(p.paymentSlip)
  }

  /** isPendingVerification: a bank transfer with a slip, waiting in processing. */
  predicate IsPendingVerification(p: Payment)
  {
    p.paymentMethod == BankTransfer && HasPaymentSlip(p) && p.status == Processing
  }

  /** The pendingVerification scope: the same, but a slip only has to be non-null. */
  predicate InPendingScope(p: Payment)
  {
    p.paymentMethod == BankTransfer && p.paymentSlip.Some? && p.status == Processing
  }

  /** The scope selects every payment the predicate accepts. */
  lemma PendingVerificationInScope(p: Payment)
    ensures IsPendingVerification(p) ==> InPendingScope(p)
    ensures InPendingScope(p) && p.paymentSlip != Some("") && p.paymentSlip != Some("0") ==> IsPendingVerification(p)
  {
  }

  /** They part only on a slip that is present but empty: the scope lists it, the predicate refuses it. */
  lemma ScopeListsEmptySlip()
    ensures var p := Payment(1, 1, None, BankTransfer, 10.0, Processing, None, None, Some(""), None, Some(0), None, None);
            InPendingScope(p) && !IsPendingVerification(p)
  {
  }

  /** The scope as a filter over the table, in table order. */
  function PendingScope(ps: seq<Payment>): (r: seq<Payment>)
    ensures forall p :: p in r <==> p in ps && InPendingScope(p)
    ensures |r| <= |ps|
  {
    if |ps| == 0 then []
    else if InPendingScope(ps[0]) then [ps[0]] + PendingScope(ps[1..])
    else PendingScope(ps[1..])
  }

  // ---------------------------------------------------------------------------
  // the payments table

  /** The order a payment belongs to, as payments.order_id points at it. */
  function OrderOf(orders: seq<Orders.Order>, p: Payment): Option<nat>
  {
    Orders.FindOrder(orders, p.orderId)
  }

  class PaymentTable {
    var payments: seq<Payment>   // in id order
    var nextId: int

    ghost predicate Valid()
      reads this
    {
      0 < nextId && forall i :: 0 <= i < |payments| ==> 0 < payments[i].id < nextId
    }

    constructor ()
      ensures payments == [] && Valid()
    {
      payments := [];
      nextId := 1;
    }

    /** Insert a new payment, pending and without slip, transaction or verification. */
    method Create(orderId: int, m: PaymentMethod, amount: real, bankReference: Option<string>) returns (p: Payment)
      requires Valid()
      modifies this
      ensures Valid()
      ensures p == Payment(old(nextId), orderId, None, m, amount, Pending, None, None, None, bankReference, None, None, None)
      ensures payments == old(payments) + [p] && nextId == old(nextId) + 1
    {
      p := Payment(nextId, orderId, None, m, amount, Pending, None, None, None, bankReference, None, None, None);
      payments := payments + [p];
      nextId := nextId + 1;
    }

    /** markAsCompleted: the payment completes and its order becomes paid. */
    method MarkAsCompleted(k: nat, orders: Orders.OrderTable, transactionId: Option<string>, now: int)
      requires Valid() && orders.Valid() && k < |payments|
      requires OrderOf(orders.orders, payments[k]).Some?
      modifies this, orders
      ensures Valid() && orders.Valid()
      ensures payments == old(payments)[k := AsCompleted(old(payments)[k], transactionId, now)]
      ensures var j := OrderOf(old(orders.orders), old(payments)[k]).value;
              orders.orders == old(orders.orders)[j := old(orders.orders)[j].(paymentStatus := Orders.Paid)]
      ensures nextId == old(nextId) && orders.nextId == old(orders.nextId)
    {
      var j := OrderOf(orders.orders, payments[k]).value;
      payments := payments[k := AsCompleted(payments[k], transactionId, now)];
      orders.orders := orders.orders[j := orders.orders[j].(paymentStatus := Orders.Paid)];
    }

    /** markAsFailed: the payment fails and so does its order's payment status. */
    method MarkAsFailed(k: nat, orders: Orders.OrderTable)
      requires Valid() && orders.Valid() && k < |payments|
      requires OrderOf(orders.orders, payments[k]).Some?
      modifies this, orders
      ensures Valid() && orders.Valid()
      ensures payments == old(payments)[k := old(payments)[k].(status := Failed)]
      ensures var j := OrderOf(old(orders.orders), old(payments)[k]).value;
              orders.orders == old(orders.orders)[j := old(orders.orders)[j].(paymentStatus := Orders.PaymentFailed)]
      ensures nextId == old(nextId) && orders.nextId == old(orders.nextId)
    {
      var j := OrderOf(orders.orders, payments[k]).value;
      payments := payments[k := payments[k].(status := Failed)];
      orders.orders := orders.orders[j := orders.orders[j].(paymentStatus := Orders.PaymentFailed)];
    }

    /** verifyBankTransfer: the payment completes, and its order becomes paid and processing. */
    method VerifyBankTransfer(k: nat, orders: Orders.OrderTable, adminId: int, now: int)
      requires Valid() && orders.Valid() && k < |payments|
      requires OrderOf(orders.orders, payments[k]).Some?
      modifies this, orders
      ensures Valid() && orders.Valid()
      ensures payments == old(payments)[k := AsVerified(old(payments)[k], adminId, now)]
      ensures var j := OrderOf(old(orders.orders), old(payments)[k]).value;
              orders.orders == old(orders.orders)[j := old(orders.orders)[j].(paymentStatus := Orders.Paid, status := Orders.Processing)]
      ensures nextId == old(nextId) && orders.nextId == old(orders.nextId)
    {
      var j := OrderOf(orders.orders, payments[k]).value;
      payments := payments[k := AsVerified(payments[k], adminId, now)];
      orders.orders := orders.orders[j := orders.orders[j].(paymentStatus := Orders.Paid, status := Orders.Processing)];
    }

    /** rejectBankTransfer: the payment fails with the reason; the order's payment status fails, its status stays. */
    method RejectBankTransfer(k: nat, orders: Orders.OrderTable, adminId: int, reason: Option<string>, now: int)
      requires Valid() && orders.Valid() && k < |payments|
      requires OrderOf(orders.orders, payments[k]).Some?
      modifies this, orders
      ensures Valid() && orders.Valid()
      ensures payments == old(payments)[k := AsRejected(old(payments)[k], adminId, reason, now)]
      ensures var j := OrderOf(old(orders.orders), old(payments)[k]).value;
              orders.orders == old(orders.orders)[j := old(orders.orders)[j].(paymentStatus := Orders.PaymentFailed)]
      ensures nextId == old(nextId) && orders.nextId == old(orders.nextId)
    {
      var j := OrderOf(orders.orders, payments[k]).value;
      payments := payments[k := AsRejected(payments[k], adminId, reason, now)];
      orders.orders := orders.orders[j := orders.orders[j].(paymentStatus := Orders.PaymentFailed)];
    }
  }

  /** The first payment of an order with the given method, as `payments()->where(...)->first()` finds it. */
  function FindPaymentFor(ps: seq<Payment>, orderId: int, m: PaymentMethod): (r: Option<nat>)
    ensures r.Some? ==> r.value < |ps| && ps[r.value].orderId == orderId && ps[r.value].paymentMethod == m
    ensures r.Some? ==> forall j :: 0 <= j < r.value ==> ps[j].orderId != orderId || ps[j].paymentMethod != m
    ensures r.None? ==> forall j :: 0 <= j < |ps| ==> ps[j].orderId != orderId || ps[j].paymentMethod != m
  {
    if |ps| == 0 then None
    else if ps[0].orderId == orderId && ps[0].paymentMethod == m then Some(0)
    else match FindPaymentFor(ps[1..], orderId, m)
      case None => None
      case Some(j) => Some(j + 1)
  }

  /** The first payment of an order, whatever its method. */
  function FirstPaymentOf(ps: seq<Payment>, orderId: int): (r: Option<nat>)
    ensures r.Some? ==> r.value < |ps| && ps[r.value].orderId == orderId
    ensures r.Some? ==> forall j :: 0 <= j < r.value ==> ps[j].orderId != orderId
    ensures r.None? ==> forall j :: 0 <= j < |ps| ==> ps[j].orderId != orderId
  {
    if |ps| == 0 then None
    else if ps[0].orderId == orderId then Some(0)
    else match FirstPaymentOf(ps[1..], orderId)
      case None => None
      case Some(j) => Some(j + 1)
  }

  /** The payment with the given id (route model binding). */
  function FindPayment(ps: seq<Payment>, id: int): (r: Option<nat>)
    ensures r.Some? ==> r.value < |ps| && ps[r.value].id == id
    ensures r.None? ==> forall j :: 0 <= j < |ps| ==> ps[j].id != id
  {
    if |ps| == 0 then None
    else if ps[0].id == id then Some(0)
    else match FindPayment(ps[1..], id)
      case None => None
      case Some(j) => Some(j + 1)
  }
}
