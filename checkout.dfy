/**
 * The order endpoints: checkout (store) turns the user's cart into an order with a
 * pending payment, reserving stock, counting the coupon's use and clearing the cart, all
 * in one transaction; cancel releases the order's reservations.
 */
module OrderApi {
  import opened Base
  import opened Inventory
  import opened Coupons
  import opened Products
  import opened Albums
  import opened Catalog
  import opened CartItems
  import opened Carts
  import opened Orders
  import Payments

  /** What a successful checkout returns. */
  datatype Placed = Placed(order: Order, payment: Payments.Payment, requiresSlipUpload: bool)

  /** The order status checkout sets: cash on delivery goes straight to processing. */
  function StatusFor(m: Payments.PaymentMethod): (s: OrderStatus)
    ensures s == Processing <==> m == Payments.Cod
    ensures s == Pending <==> m != Payments.Cod
  {
    if m == Payments.Cod then Processing else Pending
  }

  /** The coupon table after checkout: the cart's coupon, when it names one, counts one more use. */
  function CouponsAfterCheckout(coupons: map<string, Coupon>, code: Option<string>): (r: map<string, Coupon>)
    ensures r.Keys == coupons.Keys
    ensures forall k :: k in coupons && (code != Some(k) || !Filled(code)) ==> r[k] == coupons[k]
    ensures Filled(code) && code.value in coupons ==>
              r[code.value] == coupons[code.value].(usedCount := coupons[code.value].usedCount + 1)
  {
    if Filled(code) && code.value in coupons then
      coupons[code.value := coupons[code.value].(usedCount := coupons[code.value].usedCount + 1)]
    else coupons
  }

  function OutOfStockMessage(name: string): string
  {
    "Item '" + name + "' is out of stock"
  }

  /** The stock check before checkout: the first line that is not in stock, if any. */
  method FirstOutOfStock(items: seq<CartItem>, rows: seq<Stock>, g: Goods) returns (r: Option<nat>)
    requires AllRefsKnown(items, g)
    ensures r.None? <==> forall i :: 0 <= i < |items| ==> ItemInStock(items[i], rows, g)
    ensures r.Some? ==> r.value < |items| && !ItemInStock(items[r.value], rows, g)
    ensures r.Some? ==> forall i :: 0 <= i < r.value ==> ItemInStock(items[i], rows, g)
  {
    var i := 0;
    while i < |items|
      invariant 0 <= i <= |items|
      invariant forall j :: 0 <= j < i ==> ItemInStock(items[j], rows, g)
    {
      var it := items[i];
      var ok: bool;
      if it.itemType.AlbumItem? {
        ok := CheckAlbumInStock(rows, g.albums[it.albumId.value]);
      } else {
        var row := RowFor(rows, LineStockKey(it));
        ok := row.Some? && AvailableQuantity(row.value) >= it.quantity;
      }
      if !ok {
        return Some(i);
      }
      i := i + 1;
    }
    return None;
  }

  /** The order placed for cart c: notes attached, status set by payment method. */
  function PlacedOrder(orderId: int, orderNumber: string, c: Cart, shipping: AddressData, billing: AddressData,
                       m: Payments.PaymentMethod, notes: Option<string>, g: Goods): (o: Order)
    requires AllRefsKnown(c.items, g)
    ensures o.id == orderId && o.userId == c.userId && o.totals == c.totals && o.couponCode == c.couponCode
    ensures o.items == SnapshotItems(c.items, g) && o.status == StatusFor(m) && o.paymentStatus == PaymentPending
    ensures o.notes == (if Filled(notes) then notes else None)
  {
    NewOrder(orderId, orderNumber, c, shipping, billing)
      .(items := SnapshotItems(c.items, g), notes := if Filled(notes) then notes else None, status := StatusFor(m))
  }

  /** The pending payment checkout creates for an order. */
  function PendingPayment(id: int, o: Order, m: Payments.PaymentMethod, bankReference: Option<string>): (p: Payments.Payment)
    ensures p.id == id && p.orderId == o.id && p.paymentMethod == m && p.amount == o.totals.total
    ensures p.status == Payments.Pending && p.bankReference == bankReference
    ensures p.paymentSlip.None? && p.transactionId.None? && p.verifiedBy.None? && p.paidAt.None?
  {
    Payments.Payment(id, o.id, None, m, o.totals.total, Payments.Pending, None, None, None, bankReference, None, None, None)
  }

  /** The first half of checkout: the order with its items, the reservations, the payment. */
  method RecordOrder(orders: OrderTable, payments: Payments.PaymentTable, inv: InventoryTable, c: Cart,
                     shipping: AddressData, billing: AddressData,
                     m: Payments.PaymentMethod, bankReference: Option<string>, notes: Option<string>,
                     orderNumber: string, g: Goods)
    returns (order: Order, payment: Payments.Payment)
    requires orders.Valid() && payments.Valid() && inv.Valid() && AllRefsKnown(c.items, g)
    modifies orders, payments, inv
    ensures orders.Valid() && payments.Valid() && inv.Valid()
    ensures order == PlacedOrder(old(orders.nextId), orderNumber, c, shipping, billing, m, notes, g)
    ensures orders.orders == old(orders.orders) + [order] && orders.nextId == old(orders.nextId) + 1
    ensures payment == PendingPayment(old(payments.nextId), order, m, bankReference)
    ensures payments.payments == old(payments.payments) + [payment] && payments.nextId == old(payments.nextId) + 1
    ensures inv.rows == ApplyLines(ReserveOp, old(inv.rows), StockLines(order.items))
  {
    order := CreateFromCart(orders, inv, c, shipping, billing, orderNumber, g);
    var last := |orders.orders| - 1;
    if Filled(notes) {
      order := order.(notes := notes);
      orders.orders := orders.orders[last := order];
    }
    payment := payments.Create(order.id, m, order.totals.total, bankReference);
    order := order.(status := StatusFor(m));
    orders.orders := orders.orders[last := order];
  }

  /** The second half of checkout: count the coupon's use, then clear the cart. */
  method Settle(carts: CartTable, coupons: CouponTable, userId: int, now: int)
    requires carts.Valid() && coupons.Valid() && userId in carts.carts
    modifies carts, coupons
    ensures carts.Valid() && coupons.Valid()
    ensures coupons.coupons == CouponsAfterCheckout(old(coupons.coupons), old(carts.carts)[userId].couponCode)
    ensures carts.carts == old(carts.carts)[userId := Cleared(old(carts.carts)[userId], coupons.coupons, now)]
  {
    var code := carts.carts[userId].couponCode;
    if Filled(code) && code.value in coupons.coupons {
      coupons.IncrementUsage(code.value);
    }
    carts.Clear(userId, coupons.coupons, now);
  }

  /** The state checkout leaves behind, once the cart has passed every guard. */
  method Place(carts: CartTable, orders: OrderTable, payments: Payments.PaymentTable,
               inv: InventoryTable, coupons: CouponTable,
               userId: int, shipping: AddressData, billing: AddressData,
               m: Payments.PaymentMethod, bankReference: Option<string>, notes: Option<string>,
               orderNumber: string, g: Goods, now: int)
    returns (placed: Placed)
    requires carts.Valid() && orders.Valid() && payments.Valid() && inv.Valid() && coupons.Valid()
    requires userId in carts.carts && AllRefsKnown(carts.carts[userId].items, g)
    requires forall i :: 0 <= i < |carts.carts[userId].items| ==> ItemInStock(carts.carts[userId].items[i], inv.rows, g)
    modifies carts, orders, payments, inv, coupons
    ensures carts.Valid() && orders.Valid() && payments.Valid() && inv.Valid() && coupons.Valid()
    ensures var c := old(carts.carts)[userId];
            placed.order == PlacedOrder(old(orders.nextId), orderNumber, c, shipping, billing, m, notes, g) &&
            orders.orders == old(orders.orders) + [placed.order] && orders.nextId == old(orders.nextId) + 1 &&
            placed.payment == PendingPayment(old(payments.nextId), placed.order, m, bankReference) &&
            payments.payments == old(payments.payments) + [placed.payment] &&
            inv.rows == ApplyLines(ReserveOp, old(inv.rows), StockLines(placed.order.items)) &&
            coupons.coupons == CouponsAfterCheckout(old(coupons.coupons), c.couponCode) &&
            carts.carts == old(carts.carts)[userId := Cleared(c, coupons.coupons, now)] &&
            placed.requiresSlipUpload == (m == Payments.BankTransfer)
    ensures var lines := StockLines(placed.order.items);
            DistinctKeys(lines) && LinesReservable(old(inv.rows), lines) && SameOnHand(old(inv.rows), inv.rows)
  {
    var c := carts.carts[userId];
    CheckoutReservesEveryLine(inv.rows, c.items, g);
    var order, payment := RecordOrder(orders, payments, inv, c, shipping, billing, m, bankReference, notes, orderNumber, g);
    Settle(carts, coupons, userId, now);
    placed := Placed(order, payment, m == Payments.BankTransfer);
  }

  /** The payment_method rule `in:card,bank_transfer,cod`, and the method each name stands for. */
  function ParsePaymentMethod(s: string): (m: Option<Payments.PaymentMethod>)
    ensures m.Some? <==> s in {"card", "bank_transfer", "cod"}
    ensures m.Some? ==> MethodName(m.value) == s
  {
    if s == "card" then Some(Payments.Card)
    else if s == "bank_transfer" then Some(Payments.BankTransfer)
    else if s == "cod" then Some(Payments.Cod)
    else None
  }

  /** The column value of each payment method. */
  function MethodName(m: Payments.PaymentMethod): string
  {
    match m
    case Card => "card"
    case BankTransfer => "bank_transfer"
    case Cod => "cod"
  }

  /** The body of checkout: both addresses, the payment method's name, and the optional fields. */
  datatype CheckoutRequest = CheckoutRequest(
    shipping: AddressData, billing: AddressData, paymentMethod: string,
    bankReference: Option<string>, notes: Option<string>)

  /**
   * The address rules of checkout: every field required (an empty string is no value),
   * the names at most 255 characters. The `email` rule's syntax check is the flag emailOk.
   */
  predicate AddressValid(a: AddressData, emailOk: bool)
  {
    a.firstName != "" && |a.firstName| <= 255 && a.lastName != "" && |a.lastName| <= 255 &&
    a.email != "" && emailOk && a.phone != "" && a.street != "" && a.city != "" &&
    a.state != "" && a.postalCode != "" && a.country.Some? && a.country.value != ""
  }

  /** The validator of store: both addresses, a known payment method, reference ≤ 100, notes ≤ 500. */
  predicate StoreValid(req: CheckoutRequest, shippingEmailOk: bool, billingEmailOk: bool)
  {
    AddressValid(req.shipping, shippingEmailOk) && AddressValid(req.billing, billingEmailOk) &&
    ParsePaymentMethod(req.paymentMethod).Some? &&
    (req.bankReference.Some? ==> |req.bankReference.value| <= 100) &&
    (req.notes.Some? ==> |req.notes.value| <= 500)
  }

  /**
   * store: a request the validator refuses is 422; then refuse an empty cart and any
   * out-of-stock line before touching anything; then create the order (reserving stock),
   * attach the notes, create the pending payment for the order's total, set the order's
   * status by payment method, count the coupon's use and clear the cart. A clash on the
   * generated order number rolls everything back.
   */
  method Store(carts: CartTable, orders: OrderTable, payments: Payments.PaymentTable,
               inv: InventoryTable, coupons: CouponTable,
               userId: int, req: CheckoutRequest, shippingEmailOk: bool, billingEmailOk: bool,
               orderNumber: string, g: Goods, now: int)
    returns (r: Result<Placed>)
    requires carts.Valid() && orders.Valid() && payments.Valid() && inv.Valid() && coupons.Valid()
    requires userId in carts.carts ==> AllRefsKnown(carts.carts[userId].items, g)
    modifies carts, orders, payments, inv, coupons
    ensures carts.Valid() && orders.Valid() && payments.Valid() && inv.Valid() && coupons.Valid()
    ensures r.Err? ==> unchanged(carts, orders, payments, inv, coupons)
    ensures !StoreValid(req, shippingEmailOk, billingEmailOk) ==> r == Err(Unprocessable("Validation failed"))
    ensures StoreValid(req, shippingEmailOk, billingEmailOk) &&
            (userId !in old(carts.carts) || old(carts.carts)[userId].items == []) ==>
              r == Err(BadRequest("Cart is empty"))
    ensures StoreValid(req, shippingEmailOk, billingEmailOk) &&
            userId in old(carts.carts) && old(carts.carts)[userId].items != [] ==>
              var items := old(carts.carts)[userId].items;
              (r.Ok? <==> (forall i :: 0 <= i < |items| ==> ItemInStock(items[i], old(inv.rows), g)) &&
                          !NumberTaken(old(orders.orders), orderNumber)) &&
              ((exists i :: 0 <= i < |items| && !ItemInStock(items[i], old(inv.rows), g)) ==>
                 exists i :: 0 <= i < |items| && !ItemInStock(items[i], old(inv.rows), g) &&
                   r == Err(BadRequest(OutOfStockMessage(ItemName(items[i], g)))))
    ensures r.Ok? ==>
              StoreValid(req, shippingEmailOk, billingEmailOk) && userId in old(carts.carts) &&
              var c := old(carts.carts)[userId];
              var m := ParsePaymentMethod(req.paymentMethod).value;
              r.value.order == PlacedOrder(old(orders.nextId), orderNumber, c, req.shipping, req.billing, m, req.notes, g) &&
              orders.orders == old(orders.orders) + [r.value.order] && orders.nextId == old(orders.nextId) + 1 &&
              r.value.payment == PendingPayment(old(payments.nextId), r.value.order, m, req.bankReference) &&
              payments.payments == old(payments.payments) + [r.value.payment] &&
              inv.rows == ApplyLines(ReserveOp, old(inv.rows), StockLines(r.value.order.items)) &&
              SameOnHand(old(inv.rows), inv.rows) &&
              coupons.coupons == CouponsAfterCheckout(old(coupons.coupons), c.couponCode) &&
              carts.carts == old(carts.carts)[userId := Cleared(c, coupons.coupons, now)] &&
              r.value.requiresSlipUpload == (m == Payments.BankTransfer)
  {
    if !StoreValid(req, shippingEmailOk, billingEmailOk) {
      return Err(Unprocessable("Validation failed"));
    }
    if userId !in carts.carts || |carts.carts[userId].items| == 0 {
      return Err(BadRequest("Cart is empty"));
    }
    var c := carts.carts[userId];
    var bad := FirstOutOfStock(c.items, inv.rows, g);
    if bad.Some? {
      return Err(BadRequest(OutOfStockMessage(ItemName(c.items[bad.value], g))));
    }
    if NumberTaken(orders.orders, orderNumber) {
      return Err(ServerError);
    }
    var m := ParsePaymentMethod(req.paymentMethod).value;
    var placed := Place(carts, orders, payments, inv, coupons, userId, req.shipping, req.billing, m,
                        req.bankReference, req.notes, orderNumber, g, now);
    return Ok(placed);
  }

  /** cancel: only the user's own order, and only while pending or processing; stock is released. */
  method Cancel(orders: OrderTable, inv: InventoryTable, userId: int, orderNumber: string, now: int)
    returns (r: Result<Order>)
    requires orders.Valid() && inv.Valid()
    modifies orders, inv
    ensures orders.Valid() && inv.Valid()
    ensures r.Err? ==> unchanged(orders, inv)
    ensures FindUserOrder(old(orders.orders), orderNumber, userId).None? ==> r == Err(NotFound)
    ensures FindUserOrder(old(orders.orders), orderNumber, userId).Some? ==>
              var k := FindUserOrder(old(orders.orders), orderNumber, userId).value;
              var o := old(orders.orders)[k];
              (o.status !in {Pending, Processing} ==> r == Err(BadRequest("Order cannot be cancelled at this stage"))) &&
              (o.status in {Pending, Processing} ==>
                 r == Ok(WithStatus(o, Cancelled, now)) &&
                 orders.orders == old(orders.orders)[k := WithStatus(o, Cancelled, now)] &&
                 inv.rows == ApplyLines(ReleaseOp, old(inv.rows), StockLines(o.items)))
  {
    var found := FindUserOrder(orders.orders, orderNumber, userId);
    if found.None? {
      return Err(NotFound);
    }
    var k := found.value;
    if orders.orders[k].status !in {Pending, Processing} {
      return Err(BadRequest("Order cannot be cancelled at this stage"));
    }
    UpdateStatus(orders, inv, k, Cancelled, now);
    return Ok(orders.orders[k]);
  }

  /**
   * Cancelling an order straight after its checkout hands back exactly what checkout
   * reserved: the ledger returns to where it was before the checkout.
   */
  lemma CancelUndoesCheckout(rows: seq<Stock>, items: seq<CartItem>, g: Goods)
    requires AllRefsKnown(items, g) && DistinctLines(items) && AllConsistent(rows)
    requires forall i :: 0 <= i < |items| ==> 1 <= items[i].quantity && ItemInStock(items[i], rows, g)
    ensures var lines := StockLines(SnapshotItems(items, g));
            ApplyLines(ReleaseOp, ApplyLines(ReserveOp, rows, lines), lines) == rows
  {
    CheckoutReservesEveryLine(rows, items, g);
    ReleaseUndoesReserve(rows, StockLines(SnapshotItems(items, g)));
  }
}
