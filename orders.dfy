/**
 * Orders: the snapshot a checkout takes of a cart, and the order lifecycle's effect on
 * the inventory ledger (reserve at checkout, deduct on delivery, release on cancellation).
 */
module Orders {
  import opened Base
  import opened Inventory
  import opened Products
  import opened Albums
  import opened Catalog
  import opened CartItems
  import opened Carts

  datatype OrderStatus = Pending | Confirmed | Processing | Shipped | Delivered | Cancelled | Refunded

  /** The order's payment_status column. */
  datatype OrderPaymentStatus = PaymentPending | Paid | PaymentFailed | PaymentRefunded

  datatype Address = Address(
    firstName: string, lastName: string, email: string, phone: string,
    street: string, city: string, state: string, postalCode: string, country: string)

  /** The shipping or billing data handed to createFromCart; the country may be missing. */
  datatype AddressData = AddressData(
    firstName: string, lastName: string, email: string, phone: string,
    street: string, city: string, state: string, postalCode: string, country: Option<string>)

  const DefaultCountry: string := "Sri Lanka"

  /** The stored address: the data as given, with the country defaulting to Sri Lanka. */
  function AddressFrom(d: AddressData): (a: Address)
    ensures d.country.Some? ==> a.country == d.country.value
    ensures d.country.None? ==> a.country == DefaultCountry
    ensures a.firstName == d.firstName && a.lastName == d.lastName && a.email == d.email && a.phone == d.phone
    ensures a.street == d.street && a.city == d.city && a.state == d.state && a.postalCode == d.postalCode
  {
    Address(d.firstName, d.lastName, d.email, d.phone, d.street, d.city, d.state, d.postalCode,
      if d.country.Some? then d.country.value else DefaultCountry)
  }

  /** One row of order_items: what was bought, frozen at checkout. */
  datatype OrderItem = OrderItem(
    itemType: ItemType,
    productId: Option<int>, variantId: Option<int>, albumId: Option<int>,
    name: string, sku: Option<string>,
    quantity: int, price: real, subtotal: real)

  /** One row of orders with its items. */
  datatype Order = Order(
    id: int, orderNumber: string, userId: int,
    totals: Totals, couponCode: Option<string>,
    status: OrderStatus, paymentStatus: OrderPaymentStatus,
    shipping: Address, billing: Address,
    notes: Option<string>, trackingNumber: Option<string>,
    shippedAt: Option<int>, deliveredAt: Option<int>,
    items: seq<OrderItem>)

  // ---------------------------------------------------------------------------
  // the snapshot

  /** The order item for a cart line: ids, type, quantity, price and subtotal copied, name and sku looked up. */
  function SnapshotItem(it: CartItem, g: Goods): (o: OrderItem)
    requires RefsKnown(it, g)
    ensures o.itemType == it.itemType && o.productId == it.productId && o.variantId == it.variantId
    ensures o.albumId == it.albumId
    ensures o.quantity == it.quantity && o.price == it.price && o.subtotal == it.subtotal
    ensures o.name == ItemName(it, g)
    ensures it.itemType.ProductItem? ==> o.sku == Some(g.products[it.productId.value].sku)
    ensures it.itemType.AlbumItem? && it.productId.None? ==> o.sku == Some(g.albums[it.albumId.value].slug)
  {
    var sku :=
      if it.productId.Some? && it.productId.value in g.products then Some(g.products[it.productId.value].sku)
      else if it.albumId.Some? && it.albumId.value in g.albums then Some(g.albums[it.albumId.value].slug)
      else None;
    OrderItem(it.itemType, it.productId, it.variantId, it.albumId, ItemName(it, g), sku,
      it.quantity, it.price, it.subtotal)
  }

  predicate AllRefsKnown(items: seq<CartItem>, g: Goods)
  {
    forall i :: 0 <= i < |items| ==> RefsKnown(items[i], g)
  }

  /** One order item per cart line, in the same order. */
  function SnapshotItems(items: seq<CartItem>, g: Goods): (r: seq<OrderItem>)
    requires AllRefsKnown(items, g)
    ensures |r| == |items|
    ensures forall i :: 0 <= i < |items| ==> r[i] == SnapshotItem(items[i], g)
  {
    if |items| == 0 then [] else [SnapshotItem(items[0], g)] + SnapshotItems(items[1..], g)
  }

  // ---------------------------------------------------------------------------
  // the ledger operations an order applies, one product line at a time

  /** The row and quantity an order's product line touches. */
  datatype StockLine = StockLine(key: StockKey, quantity: int)

  predicate HasStockLine(o: OrderItem)
  {
    o.itemType.ProductItem? && o.productId.Some?
  }

  function StockLineOf(o: OrderItem): StockLine
    requires HasStockLine(o)
  {
    StockLine(StockKey(o.productId.value, o.variantId), o.quantity)
  }

  /**
   * The product lines of an order with their ledger keys. Album lines touch no stock; a
   * product line whose product was deleted (product_id set null) matches no row.
   */
  function StockLines(items: seq<OrderItem>): (r: seq<StockLine>)
    ensures |r| <= |items|
    ensures forall l :: l in r ==> exists k :: 0 <= k < |items| && HasStockLine(items[k]) && l == StockLineOf(items[k])
    ensures forall k :: 0 <= k < |items| && HasStockLine(items[k]) ==> StockLineOf(items[k]) in r
  {
    if |items| == 0 then []
    else
      var rest := StockLines(items[1..]);
      assert forall l :: l in rest ==> exists k :: 0 <= k < |items| && HasStockLine(items[k]) && l == StockLineOf(items[k]) by {
        forall l | l in rest
          ensures exists k :: 0 <= k < |items| && HasStockLine(items[k]) && l == StockLineOf(items[k])
        {
          var k :| 0 <= k < |items[1..]| && HasStockLine(items[1..][k]) && l == StockLineOf(items[1..][k]);
          assert items[1..][k] == items[k + 1];
        }
      }
      assert forall k :: 1 <= k < |items| && HasStockLine(items[k]) ==> StockLineOf(items[k]) in rest by {
        forall k | 1 <= k < |items| && HasStockLine(items[k])
          ensures StockLineOf(items[k]) in rest
        {
          assert items[1..][k - 1] == items[k];
        }
      }
      if HasStockLine(items[0]) then [StockLineOf(items[0])] + rest else rest
  }

  lemma {:induction false} StockLinesAppend(a: seq<OrderItem>, b: seq<OrderItem>)
    ensures StockLines(a + b) == StockLines(a) + StockLines(b)
  {
    if |a| == 0 {
      assert a + b == b;
    } else {
      assert (a + b)[1..] == a[1..] + b;
      StockLinesAppend(a[1..], b);
    }
  }

  datatype StockOp = ReserveOp | ReleaseOp | DeductOp

  function StepRow(op: StockOp, s: Stock, q: int): Stock
  {
    match op
    case ReserveOp => Reserved(s, q)
    case ReleaseOp => Released(s, q)
    case DeductOp => Deducted(s, q)
  }

  /** One line: find the first row for its key and apply the operation; no row, no change. */
  function ApplyOne(op: StockOp, rows: seq<Stock>, l: StockLine): (r: seq<Stock>)
    ensures |r| == |rows|
  {
    match FindRow(rows, l.key)
    case None => rows
    case Some(i) => rows[i := StepRow(op, rows[i], l.quantity)]
  }

  /** The lines applied one after the other, in order. */
  function ApplyLines(op: StockOp, rows: seq<Stock>, lines: seq<StockLine>): (r: seq<Stock>)
    ensures |r| == |rows|
    decreases |lines|
  {
    if |lines| == 0 then rows else ApplyLines(op, ApplyOne(op, rows, lines[0]), lines[1..])
  }

  lemma {:induction false} ApplyLinesAppend(op: StockOp, rows: seq<Stock>, a: seq<StockLine>, b: seq<StockLine>)
    ensures ApplyLines(op, rows, a + b) == ApplyLines(op, ApplyLines(op, rows, a), b)
    decreases |a|
  {
    if |a| == 0 {
      assert a + b == b;
    } else {
      assert (a + b)[1..] == a[1..] + b;
      ApplyLinesAppend(op, ApplyOne(op, rows, a[0]), a[1..], b);
    }
  }

  predicate SameKeys(rows: seq<Stock>, rows': seq<Stock>)
  {
    |rows| == |rows'| && forall i :: 0 <= i < |rows| ==> rows[i].key == rows'[i].key
  }

  lemma {:induction false} FindRowSameKeys(rows: seq<Stock>, rows': seq<Stock>, key: StockKey)
    requires SameKeys(rows, rows')
    ensures FindRow(rows, key) == FindRow(rows', key)
  {
    if |rows| > 0 && rows[0].key != key {
      FindRowSameKeys(rows[1..], rows'[1..], key);
    }
  }

  /** Applying lines keeps the keys; reserving and releasing also keep every on-hand quantity. */
  lemma {:induction false} ApplyKeepsKeys(op: StockOp, rows: seq<Stock>, lines: seq<StockLine>)
    ensures SameKeys(rows, ApplyLines(op, rows, lines))
    ensures op != DeductOp ==> SameOnHand(rows, ApplyLines(op, rows, lines))
    ensures UniqueKeys(rows) ==> UniqueKeys(ApplyLines(op, rows, lines))
    decreases |lines|
  {
    if |lines| > 0 {
      ApplyKeepsKeys(op, ApplyOne(op, rows, lines[0]), lines[1..]);
    }
  }

  /** Reserving or releasing for any order leaves every product's total_stock where it was. */
  lemma ReserveAndReleaseKeepTotalStock(op: StockOp, rows: seq<Stock>, lines: seq<StockLine>, productId: int)
    requires op != DeductOp
    ensures TotalStock(ApplyLines(op, rows, lines), productId) == TotalStock(rows, productId)
  {
    ApplyKeepsKeys(op, rows, lines);
    TotalStockIgnoresReservations(rows, ApplyLines(op, rows, lines), productId);
  }

  predicate NonNegativeLines(lines: seq<StockLine>)
  {
    forall k :: 0 <= k < |lines| ==> 0 <= lines[k].quantity
  }

  /** Every ledger operation of the order lifecycle keeps 0 <= reserved <= on hand on every row. */
  lemma {:induction false} ApplyPreservesConsistency(op: StockOp, rows: seq<Stock>, lines: seq<StockLine>)
    requires AllConsistent(rows) && NonNegativeLines(lines)
    ensures AllConsistent(ApplyLines(op, rows, lines))
    decreases |lines|
  {
    if |lines| > 0 {
      var rows1 := ApplyOne(op, rows, lines[0]);
      match FindRow(rows, lines[0].key) {
        case None =>
        case Some(i) => OperationsPreserveConsistency(rows[i], lines[0].quantity);
      }
      ApplyPreservesConsistency(op, rows1, lines[1..]);
    }
  }

  // ---------------------------------------------------------------------------
  // lines with distinct keys touch distinct rows

  /** No two lines of the order share a ledger key. */
  predicate DistinctKeys(lines: seq<StockLine>)
  {
    forall a, b :: 0 <= a < b < |lines| ==> lines[a].key != lines[b].key
  }

  /** Row j is touched by no line. */
  predicate Untargeted(rows: seq<Stock>, lines: seq<StockLine>, j: int)
  {
    forall k :: 0 <= k < |lines| ==> FindRow(rows, lines[k].key) != Some(j)
  }

  /**
   * With distinct keys each row is touched at most once: the row a line targets ends up as
   * that one operation made it, and a row no line targets is unchanged.
   */
  lemma {:induction false} ApplyDistinct(op: StockOp, rows: seq<Stock>, lines: seq<StockLine>)
    requires DistinctKeys(lines)
    ensures forall k :: 0 <= k < |lines| && FindRow(rows, lines[k].key).Some? ==>
              ApplyLines(op, rows, lines)[FindRow(rows, lines[k].key).value] ==
              StepRow(op, rows[FindRow(rows, lines[k].key).value], lines[k].quantity)
    ensures forall j :: 0 <= j < |rows| && Untargeted(rows, lines, j) ==> ApplyLines(op, rows, lines)[j] == rows[j]
    decreases |lines|
  {
    if |lines| > 0 {
      var rows1 := ApplyOne(op, rows, lines[0]);
      var tail := lines[1..];
      assert DistinctKeys(tail) by {
        forall a, b | 0 <= a < b < |tail| ensures tail[a].key != tail[b].key {
          assert tail[a] == lines[a + 1] && tail[b] == lines[b + 1];
        }
      }
      ApplyDistinct(op, rows1, tail);
      assert SameKeys(rows, rows1);
      forall key {
        FindRowSameKeys(rows, rows1, key);
      }
      var r := ApplyLines(op, rows, lines);
      assert r == ApplyLines(op, rows1, tail);
      forall k | 0 <= k < |lines| && FindRow(rows, lines[k].key).Some?
        ensures r[FindRow(rows, lines[k].key).value] == StepRow(op, rows[FindRow(rows, lines[k].key).value], lines[k].quantity)
      {
        var j := FindRow(rows, lines[k].key).value;
        if k == 0 {
          assert rows1[j] == StepRow(op, rows[j], lines[0].quantity);
          forall k' | 0 <= k' < |tail| ensures FindRow(rows1, tail[k'].key) != Some(j) {
            assert tail[k'] == lines[k' + 1];
            assert lines[k' + 1].key != lines[0].key;
          }
          assert Untargeted(rows1, tail, j);
        } else {
          assert tail[k - 1] == lines[k];
          assert FindRow(rows1, tail[k - 1].key) == Some(j);
          var j0 := FindRow(rows, lines[0].key);
          assert j0 != Some(j) by {
            assert lines[0].key != lines[k].key;
          }
          assert rows1[j] == rows[j];
        }
      }
      forall j | 0 <= j < |rows| && Untargeted(rows, lines, j)
        ensures r[j] == rows[j]
      {
        assert FindRow(rows, lines[0].key) != Some(j);
        assert rows1[j] == rows[j];
        forall k' | 0 <= k' < |tail| ensures FindRow(rows1, tail[k'].key) != Some(j) {
          assert tail[k'] == lines[k' + 1];
        }
      }
    }
  }

  /** Every line finds a row with enough available to reserve its quantity. */
  predicate LinesReservable(rows: seq<Stock>, lines: seq<StockLine>)
  {
    forall k :: 0 <= k < |lines| ==>
      0 <= lines[k].quantity &&
      FindRow(rows, lines[k].key).Some? &&
      CanReserve(rows[FindRow(rows, lines[k].key).value], lines[k].quantity)
  }

  /**
   * Checkout's reservations: when the lines have distinct keys and each passed its stock
   * check, every reservation succeeds, the row each line targets has exactly that line's
   * quantity added to its reservation, and nothing else in the ledger changes.
   */
  lemma ReservationsAllSucceed(rows: seq<Stock>, lines: seq<StockLine>)
    requires DistinctKeys(lines) && LinesReservable(rows, lines)
    ensures var r := ApplyLines(ReserveOp, rows, lines);
            SameOnHand(rows, r) &&
            (forall k :: 0 <= k < |lines| ==>
               r[FindRow(rows, lines[k].key).value].reservedQuantity ==
               rows[FindRow(rows, lines[k].key).value].reservedQuantity + lines[k].quantity) &&
            (forall j :: 0 <= j < |rows| && Untargeted(rows, lines, j) ==> r[j] == rows[j])
  {
    ApplyDistinct(ReserveOp, rows, lines);
    ApplyKeepsKeys(ReserveOp, rows, lines);
  }

  /** Cancelling right after checkout gives every reservation back: the ledger is as before. */
  lemma ReleaseUndoesReserve(rows: seq<Stock>, lines: seq<StockLine>)
    requires DistinctKeys(lines) && LinesReservable(rows, lines)
    requires forall j :: 0 <= j < |rows| ==> 0 <= rows[j].reservedQuantity
    ensures ApplyLines(ReleaseOp, ApplyLines(ReserveOp, rows, lines), lines) == rows
  {
    var r1 := ApplyLines(ReserveOp, rows, lines);
    var r2 := ApplyLines(ReleaseOp, r1, lines);
    ApplyDistinct(ReserveOp, rows, lines);
    ApplyDistinct(ReleaseOp, r1, lines);
    ApplyKeepsKeys(ReserveOp, rows, lines);
    forall k | 0 <= k < |lines| ensures FindRow(r1, lines[k].key) == FindRow(rows, lines[k].key) {
      FindRowSameKeys(rows, r1, lines[k].key);
    }
    forall k | 0 <= k < |lines| ensures r2[FindRow(rows, lines[k].key).value] == rows[FindRow(rows, lines[k].key).value] {
      var j, q := FindRow(rows, lines[k].key).value, lines[k].quantity;
      assert r1[j] == Reserved(rows[j], q) && r2[j] == Released(r1[j], q);
      ReleaseAfterReserve(rows[j], q);
    }
    forall j | 0 <= j < |rows| && Untargeted(rows, lines, j) ensures r2[j] == rows[j] {
      assert Untargeted(r1, lines, j);
    }
  }

  /** On one row, a release of what was just reserved restores the row. */
  lemma ReleaseAfterReserve(s: Stock, q: int)
    requires 0 <= q && CanReserve(s, q) && 0 <= s.reservedQuantity
    ensures Released(Reserved(s, q), q) == s
  {
  }

  /**
   * Delivering right after checkout consumes exactly the reservations: each targeted row
   * loses the line's quantity on hand and its reservation returns to what it was.
   */
  lemma DeductConsumesReservation(rows: seq<Stock>, lines: seq<StockLine>)
    requires DistinctKeys(lines) && LinesReservable(rows, lines) && AllConsistent(rows)
    ensures var r := ApplyLines(DeductOp, ApplyLines(ReserveOp, rows, lines), lines);
            (forall k :: 0 <= k < |lines| ==>
               var j := FindRow(rows, lines[k].key).value;
               r[j].quantity == rows[j].quantity - lines[k].quantity &&
               r[j].reservedQuantity == rows[j].reservedQuantity) &&
            (forall j :: 0 <= j < |rows| && Untargeted(rows, lines, j) ==> r[j] == rows[j])
  {
    var r1 := ApplyLines(ReserveOp, rows, lines);
    ApplyDistinct(ReserveOp, rows, lines);
    ApplyDistinct(DeductOp, r1, lines);
    ApplyKeepsKeys(ReserveOp, rows, lines);
    forall key {
      FindRowSameKeys(rows, r1, key);
    }
    var r := ApplyLines(DeductOp, r1, lines);
    forall k | 0 <= k < |lines|
      ensures var j := FindRow(rows, lines[k].key).value;
              r[j].quantity == rows[j].quantity - lines[k].quantity &&
              r[j].reservedQuantity == rows[j].reservedQuantity
    {
      var j := FindRow(rows, lines[k].key).value;
      var q := lines[k].quantity;
      assert r1[j] == Reserved(rows[j], q);
      assert rows[j].quantity >= q by {
        assert Consistent(rows[j]);
        assert AvailableQuantity(rows[j]) >= q;
      }
      assert r1[j] == rows[j].(reservedQuantity := rows[j].reservedQuantity + q);
      assert r[j] == Deducted(r1[j], q);
    }
    forall j | 0 <= j < |rows| && Untargeted(rows, lines, j) ensures r[j] == rows[j] {
      assert Untargeted(r1, lines, j);
    }
  }

  // ---------------------------------------------------------------------------
  // checkout: the cart's stock checks are enough for every reservation to succeed

  /** Distinct ledger keys for the product lines of a list of order items. */
  predicate DistinctStockKeys(items: seq<OrderItem>)
  {
    forall a, b :: 0 <= a < b < |items| && HasStockLine(items[a]) && HasStockLine(items[b]) ==>
      StockLineOf(items[a]).key != StockLineOf(items[b]).key
  }

  lemma {:induction false} StockLinesDistinct(items: seq<OrderItem>)
    requires DistinctStockKeys(items)
    ensures DistinctKeys(StockLines(items))
  {
    if |items| > 0 {
      var tail := items[1..];
      assert DistinctStockKeys(tail) by {
        forall a, b | 0 <= a < b < |tail| && HasStockLine(tail[a]) && HasStockLine(tail[b])
          ensures StockLineOf(tail[a]).key != StockLineOf(tail[b]).key
        {
          assert tail[a] == items[a + 1] && tail[b] == items[b + 1];
        }
      }
      StockLinesDistinct(tail);
      var rest := StockLines(tail);
      if HasStockLine(items[0]) {
        var lines := StockLines(items);
        assert lines == [StockLineOf(items[0])] + rest;
        forall a, b | 0 <= a < b < |lines| ensures lines[a].key != lines[b].key {
          if a == 0 {
            assert lines[b] == rest[b - 1] && rest[b - 1] in rest;
            var k :| 0 <= k < |tail| && HasStockLine(tail[k]) && rest[b - 1] == StockLineOf(tail[k]);
            assert tail[k] == items[k + 1];
          } else {
            assert lines[a] == rest[a - 1] && lines[b] == rest[b - 1];
          }
        }
      }
    }
  }

  /** Every product line of the snapshot targets a row that can take its quantity. */
  lemma {:induction false} StockLinesReservable(rows: seq<Stock>, items: seq<CartItem>, g: Goods)
    requires AllRefsKnown(items, g)
    requires forall i :: 0 <= i < |items| ==> 1 <= items[i].quantity && ItemInStock(items[i], rows, g)
    ensures LinesReservable(rows, StockLines(SnapshotItems(items, g)))
  {
    var snapshot := SnapshotItems(items, g);
    var lines := StockLines(snapshot);
    forall k | 0 <= k < |lines|
      ensures 0 <= lines[k].quantity && FindRow(rows, lines[k].key).Some? &&
              CanReserve(rows[FindRow(rows, lines[k].key).value], lines[k].quantity)
    {
      assert lines[k] in lines;
      var i :| 0 <= i < |snapshot| && HasStockLine(snapshot[i]) && lines[k] == StockLineOf(snapshot[i]);
      assert lines[k].key == LineStockKey(items[i]);
      InStockLineIsReservable(items[i], rows, g);
    }
  }

  /**
   * The checkout guarantee: when every line of a cart with no duplicate lines passed its stock
   * check, createFromCart's reservations all succeed. Each targeted row's reservation grows by
   * exactly the line's quantity, on-hand quantities are unchanged, and untouched rows stay as
   * they were.
   */
  lemma CheckoutReservesEveryLine(rows: seq<Stock>, items: seq<CartItem>, g: Goods)
    requires AllRefsKnown(items, g) && DistinctLines(items)
    requires forall i :: 0 <= i < |items| ==> 1 <= items[i].quantity && ItemInStock(items[i], rows, g)
    ensures var lines := StockLines(SnapshotItems(items, g));
            var r := ApplyLines(ReserveOp, rows, lines);
            DistinctKeys(lines) && LinesReservable(rows, lines) &&
            SameOnHand(rows, r) &&
            (forall k :: 0 <= k < |lines| ==>
               r[FindRow(rows, lines[k].key).value].reservedQuantity ==
               rows[FindRow(rows, lines[k].key).value].reservedQuantity + lines[k].quantity) &&
            (forall j :: 0 <= j < |rows| && Untargeted(rows, lines, j) ==> r[j] == rows[j])
  {
    var snapshot := SnapshotItems(items, g);
    assert DistinctStockKeys(snapshot) by {
      forall a, b | 0 <= a < b < |snapshot| && HasStockLine(snapshot[a]) && HasStockLine(snapshot[b])
        ensures StockLineOf(snapshot[a]).key != StockLineOf(snapshot[b]).key
      {
        assert !SameLine(items[a], items[b]);
      }
    }
    StockLinesDistinct(snapshot);
    StockLinesReservable(rows, items, g);
    ReservationsAllSucceed(rows, StockLines(snapshot));
  }

  // ---------------------------------------------------------------------------
  // status changes

  /** The order after updateStatus: the new status, with shipped_at or delivered_at stamped. */
  function WithStatus(o: Order, status: OrderStatus, now: int): (r: Order)
    ensures r.status == status
    ensures r.shippedAt == if status == Shipped then Some(now) else o.shippedAt
    ensures r.deliveredAt == if status == Delivered then Some(now) else o.deliveredAt
    ensures r == o.(status := status, shippedAt := r.shippedAt, deliveredAt := r.deliveredAt)
  {
    match status
    case Shipped => o.(status := status, shippedAt := Some(now))
    case Delivered => o.(status := status, deliveredAt := Some(now))
    case _ => o.(status := status)
  }

  /** The ledger after updateStatus: delivery deducts, cancellation releases, anything else leaves it. */
  function LedgerAfterStatus(rows: seq<Stock>, o: Order, status: OrderStatus): seq<Stock>
  {
    match status
    case Delivered => ApplyLines(DeductOp, rows, StockLines(o.items))
    case Cancelled => ApplyLines(ReleaseOp, rows, StockLines(o.items))
    case _ => rows
  }

  // ---------------------------------------------------------------------------
  // the orders table

  class OrderTable {
    var orders: seq<Order>   // in id order
    var nextId: int

    ghost predicate Valid()
      reads this
    {
      forall i :: 0 <= i < |orders| ==> orders[i].id < nextId
    }

    constructor ()
      ensures orders == [] && Valid()
    {
      orders := [];
      nextId := 1;
    }
  }

  /** The order with the given id. */
  function FindOrder(orders: seq<Order>, id: int): (r: Option<nat>)
    ensures r.Some? ==> r.value < |orders| && orders[r.value].id == id
    ensures r.None? ==> forall j :: 0 <= j < |orders| ==> orders[j].id != id
  {
    if |orders| == 0 then None
    else if orders[0].id == id then Some(0)
    else match FindOrder(orders[1..], id)
      case None => None
      case Some(j) => Some(j + 1)
  }

  /** The user's order with the given number (route lookups never reach another user's order). */
  function FindUserOrder(orders: seq<Order>, orderNumber: string, userId: int): (r: Option<nat>)
    ensures r.Some? ==> r.value < |orders| && orders[r.value].orderNumber == orderNumber && orders[r.value].userId == userId
    ensures r.None? ==> forall j :: 0 <= j < |orders| ==> orders[j].orderNumber != orderNumber || orders[j].userId != userId
  {
    if |orders| == 0 then None
    else if orders[0].orderNumber == orderNumber && orders[0].userId == userId then Some(0)
    else match FindUserOrder(orders[1..], orderNumber, userId)
      case None => None
      case Some(j) => Some(j + 1)
  }

  predicate NumberTaken(orders: seq<Order>, orderNumber: string)
  {
    exists j :: 0 <= j < |orders| && orders[j].orderNumber == orderNumber
  }

  /** The per-user coupon count isValid uses: the user's orders carrying the code. */
  function CouponUses(orders: seq<Order>, userId: int, code: string): (n: nat)
    ensures n <= |orders|
    ensures n == 0 <==> forall j :: 0 <= j < |orders| ==> orders[j].userId != userId || orders[j].couponCode != Some(code)
  {
    if |orders| == 0 then 0
    else
      var rest := CouponUses(orders[1..], userId, code);
      assert forall j :: 1 <= j < |orders| ==> orders[j] == orders[1..][j - 1];
      (if orders[0].userId == userId && orders[0].couponCode == Some(code) then 1 else 0) + rest
  }

  /** Placing an order with the code counts one more use for its user, and none for anyone else. */
  lemma {:induction false} CouponUsesAppend(orders: seq<Order>, o: Order, userId: int, code: string)
    ensures CouponUses(orders + [o], userId, code) ==
              CouponUses(orders, userId, code) + (if o.userId == userId && o.couponCode == Some(code) then 1 else 0)
  {
    if |orders| > 0 {
      assert (orders + [o])[1..] == orders[1..] + [o];
      CouponUsesAppend(orders[1..], o, userId, code);
    } else {
      assert (orders + [o])[1..] == [];
    }
  }

  /** The order createFromCart inserts, before its items are attached. */
  function NewOrder(id: int, orderNumber: string, cart: Cart, shipping: AddressData, billing: AddressData): (o: Order)
    ensures o.userId == cart.userId && o.totals == cart.totals && o.couponCode == cart.couponCode
    ensures o.status == Pending && o.paymentStatus == PaymentPending
    ensures o.shipping == AddressFrom(shipping) && o.billing == AddressFrom(billing)
  {
    Order(id, orderNumber, cart.userId, cart.totals, cart.couponCode, Pending, PaymentPending,
      AddressFrom(shipping), AddressFrom(billing), None, None, None, None, [])
  }

  /** One order item's ledger step: reserve, release or deduct on the first row for its key. */
  method ApplyLine(inv: InventoryTable, op: StockOp, item: OrderItem)
    requires inv.Valid()
    modifies inv
    ensures inv.Valid()
    ensures inv.rows == ApplyLines(op, old(inv.rows), StockLines([item]))
  {
    assert [item][1..] == [];
    if item.itemType.ProductItem? && item.productId.Some? {
      var found := FindRow(inv.rows, StockKey(item.productId.value, item.variantId));
      if found.Some? {
        var ok;
        if op == ReserveOp {
          ok := inv.Reserve(found.value, item.quantity);
        } else if op == ReleaseOp {
          ok := inv.Release(found.value, item.quantity);
        } else {
          ok := inv.Deduct(found.value, item.quantity);
        }
      }
    }
  }

  /**
   * The loop of updateStatus: one ledger operation for every product line, in order; a line
   * without a row is skipped and a refused deduct is ignored.
   */
  method ApplyToLedger(inv: InventoryTable, op: StockOp, items: seq<OrderItem>)
    requires inv.Valid()
    modifies inv
    ensures inv.Valid()
    ensures inv.rows == ApplyLines(op, old(inv.rows), StockLines(items))
  {
    var i := 0;
    while i < |items|
      invariant 0 <= i <= |items|
      invariant inv.Valid()
      invariant inv.rows == ApplyLines(op, old(inv.rows), StockLines(items[..i]))
    {
      assert items[..i + 1] == items[..i] + [items[i]];
      StockLinesAppend(items[..i], [items[i]]);
      ApplyLinesAppend(op, old(inv.rows), StockLines(items[..i]), StockLines([items[i]]));
      ApplyLine(inv, op, items[i]);
      i := i + 1;
    }
    assert items[..i] == items;
  }

  /**
   * createFromCart: insert the order with the cart's totals and coupon code, then for each
   * cart line add its order item and reserve stock for product lines.
   */
  method CreateFromCart(orders: OrderTable, inv: InventoryTable, cart: Cart,
                        shipping: AddressData, billing: AddressData, orderNumber: string, g: Goods)
    returns (order: Order)
    requires orders.Valid() && inv.Valid() && AllRefsKnown(cart.items, g)
    modifies orders, inv
    ensures orders.Valid() && inv.Valid()
    ensures order == NewOrder(old(orders.nextId), orderNumber, cart, shipping, billing).(items := SnapshotItems(cart.items, g))
    ensures orders.orders == old(orders.orders) + [order] && orders.nextId == old(orders.nextId) + 1
    ensures inv.rows == ApplyLines(ReserveOp, old(inv.rows), StockLines(order.items))
  {
    var header := NewOrder(orders.nextId, orderNumber, cart, shipping, billing);
    var snapshot := SnapshotItems(cart.items, g);
    var items: seq<OrderItem> := [];
    var i := 0;
    while i < |snapshot|
      invariant 0 <= i <= |snapshot|
      invariant items == snapshot[..i]
      invariant orders.orders == old(orders.orders) && orders.nextId == old(orders.nextId)
      invariant inv.Valid()
      invariant inv.rows == ApplyLines(ReserveOp, old(inv.rows), StockLines(items))
    {
      var item := snapshot[i];
      assert snapshot[..i + 1] == items + [item];
      StockLinesAppend(items, [item]);
      ApplyLinesAppend(ReserveOp, old(inv.rows), StockLines(items), StockLines([item]));
      items := items + [item];
      ApplyLine(inv, ReserveOp, item);
      i := i + 1;
    }
    assert items == snapshot;
    order := header.(items := items);
    orders.orders := orders.orders + [order];
    orders.nextId := orders.nextId + 1;
  }

  /** updateStatus on order k: set the status, stamp shipped_at or delivered_at, deduct or release stock. */
  method UpdateStatus(orders: OrderTable, inv: InventoryTable, k: nat, status: OrderStatus, now: int)
    requires orders.Valid() && inv.Valid() && k < |orders.orders|
    modifies orders, inv
    ensures orders.Valid() && inv.Valid()
    ensures orders.orders == old(orders.orders)[k := WithStatus(old(orders.orders)[k], status, now)]
    ensures orders.nextId == old(orders.nextId)
    ensures inv.rows == LedgerAfterStatus(old(inv.rows), old(orders.orders)[k], status)
  {
    var o := orders.orders[k];
    var updated := o.(status := status);
    if status == Shipped {
      updated := updated.(shippedAt := Some(now));
    } else if status == Delivered {
      updated := updated.(deliveredAt := Some(now));
      ApplyToLedger(inv, DeductOp, o.items);
    } else if status == Cancelled {
      ApplyToLedger(inv, ReleaseOp, o.items);
    }
    orders.orders := orders.orders[k := updated];
  }
}
