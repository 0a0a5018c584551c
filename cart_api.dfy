/**
 * The cart endpoints of an authenticated user: add a product or album after its stock
 * check, change or remove a line of one's own cart, apply or remove a coupon, clear the
 * cart, and merge a guest cart in after login.
 */
module CartApi {
  import opened Base
  import opened Inventory
  import opened Coupons
  import opened Products
  import opened Variants
  import opened Albums
  import opened Catalog
  import opened CartItems
  import opened Carts
  import Orders

  /** The carts after getOrCreateCart: the user's cart, inserted empty when there was none. */
  function WithCart(carts: map<int, Cart>, u: int, newId: int): (r: map<int, Cart>)
    ensures u in r && r.Keys == carts.Keys + {u}
    ensures u in carts ==> r == carts
    ensures u !in carts ==> r == carts[u := Cart(newId, u, [], None, NewCartTotals)]
  {
    if u in carts then carts else carts[u := Cart(newId, u, [], None, NewCartTotals)]
  }

  /** The cart with its lines replaced and its totals recomputed, as every cart mutation leaves it. */
  function Recomputed(c: Cart, items: seq<CartItem>, coupons: map<string, Coupon>, now: int): (r: Cart)
    ensures r.items == items && r.id == c.id && r.userId == c.userId && r.couponCode == c.couponCode
    ensures r.totals.subtotal == SumSubtotals(items)
    ensures r.totals.total == r.totals.subtotal + r.totals.tax + r.totals.shipping - r.totals.discount
  {
    c.(items := items, totals := ComputeTotals(items, c.couponCode, coupons, now))
  }

  // ---------------------------------------------------------------------------
  // addItem

  /** The body of addItem: a product (with an optional variant) or an album, and a quantity. */
  datatype AddRequest =
    | ProductRequest(productId: int, variantId: Option<int>, quantity: int)
    | AlbumRequest(albumId: int, quantity: int)

  /** The validator: a quantity of at least one, and ids that exist. */
  predicate AddRequestValid(req: AddRequest, g: Goods)
  {
    1 <= req.quantity &&
    match req
    case ProductRequest(p, v, _) => p in g.products && (v.Some? ==> v.value in g.variants)
    case AlbumRequest(a, _) => a in g.albums
  }

  /**
   * The stock check addItem makes: the variant's own check when one is named, else the
   * product's total-stock check; for an album, every member.
   */
  predicate AddRequestInStock(req: AddRequest, rows: seq<Stock>, g: Goods)
    requires AddRequestValid(req, g)
  {
    match req
    case ProductRequest(p, v, _) =>
      if v.Some? then VariantInStock(rows, g.variants[v.value]) else ProductInStock(rows, p)
    case AlbumRequest(a, _) => AlbumInStock(rows, g.albums[a])
  }

  /** The lines addItem leaves: merged into the line for the same thing, or a new line at today's price. */
  function AddedLines(items: seq<CartItem>, req: AddRequest, g: Goods, newId: int): seq<CartItem>
    requires WellFormed(g) && AddRequestValid(req, g)
  {
    match req
    case ProductRequest(p, v, q) => AddProductLine(items, p, v, UnitPrice(g, p, v), q, newId)
    case AlbumRequest(a, q) => AddAlbumLine(items, a, AlbumFinalPrice(g.albums[a], g.products), q, newId)
  }

  function OutOfStockMessage(req: AddRequest): string
  {
    match req
    case ProductRequest(_, v, _) => if v.Some? then "This variant is out of stock" else "This product is out of stock"
    case AlbumRequest(_, _) => "Some products in this album are out of stock"
  }

  /**
   * addItem: validation first (nothing changes), then the cart is fetched or created, then
   * the stock check (the cart stays as fetched), then addProduct or addAlbum.
   */
  method AddItem(carts: CartTable, userId: int, req: AddRequest, rows: seq<Stock>, g: Goods,
                 coupons: map<string, Coupon>, now: int)
    returns (r: Result<Cart>)
    requires carts.Valid() && WellFormed(g)
    modifies carts
    ensures carts.Valid()
    ensures !AddRequestValid(req, g) ==> r == Err(Unprocessable("Validation failed")) && unchanged(carts)
    ensures AddRequestValid(req, g) && !AddRequestInStock(req, rows, g) ==>
              r == Err(BadRequest(OutOfStockMessage(req))) &&
              carts.carts == WithCart(old(carts.carts), userId, old(carts.nextCartId))
    ensures AddRequestValid(req, g) && AddRequestInStock(req, rows, g) ==>
              var c := WithCart(old(carts.carts), userId, old(carts.nextCartId))[userId];
              var items := AddedLines(c.items, req, g, old(carts.nextItemId));
              carts.carts == WithCart(old(carts.carts), userId, old(carts.nextCartId))[userId := Recomputed(c, items, coupons, now)] &&
              r == Ok(carts.carts[userId]) &&
              ItemCount(items) == ItemCount(c.items) + req.quantity
  {
    if !AddRequestValid(req, g) {
      return Err(Unprocessable("Validation failed"));
    }
    carts.GetOrCreate(userId);
    match req {
      case ProductRequest(p, v, q) =>
        var inStock := if v.Some? then VariantInStock(rows, g.variants[v.value]) else ProductInStock(rows, p);
        if !inStock {
          return Err(BadRequest(OutOfStockMessage(req)));
        }
        AddProductLineEffect(carts.carts[userId].items, p, v, UnitPrice(g, p, v), q, carts.nextItemId);
        carts.AddProduct(userId, p, v, q, g, coupons, now);
      case AlbumRequest(a, q) =>
        var inStock := CheckAlbumInStock(rows, g.albums[a]);
        if !inStock {
          return Err(BadRequest(OutOfStockMessage(req)));
        }
        AddAlbumLineEffect(carts.carts[userId].items, a, AlbumFinalPrice(g.albums[a], g.products), q, carts.nextItemId);
        carts.AddAlbum(userId, a, q, g, coupons, now);
    }
    return Ok(carts.carts[userId]);
  }

  // ---------------------------------------------------------------------------
  // updateItem and removeItem

  /** Some cart holds a line with this id (route model binding finds it). */
  predicate ItemExists(carts: map<int, Cart>, itemId: int)
  {
    exists u :: u in carts && FindItem(carts[u].items, itemId).Some?
  }

  /**
   * updateItem: an unknown line is 404 before anything else; the user's cart is fetched or
   * created; a line of another cart is 403; a quantity below one is 422; otherwise the
   * line takes the quantity at its frozen price and the totals are recomputed.
   */
  method UpdateItem(carts: CartTable, userId: int, itemId: int, q: int, coupons: map<string, Coupon>, now: int)
    returns (r: Result<Cart>)
    requires carts.Valid()
    modifies carts
    ensures carts.Valid()
    ensures !ItemExists(old(carts.carts), itemId) ==> r == Err(NotFound) && unchanged(carts)
    ensures ItemExists(old(carts.carts), itemId) ==>
              var base := WithCart(old(carts.carts), userId, old(carts.nextCartId));
              var i := FindItem(base[userId].items, itemId);
              (i.None? ==> r == Err(Forbidden) && carts.carts == base) &&
              (i.Some? && q < 1 ==> r == Err(Unprocessable("Validation failed")) && carts.carts == base) &&
              (i.Some? && 1 <= q ==>
                 var c := base[userId];
                 carts.carts == base[userId := Recomputed(c, c.items[i.value := WithQuantity(c.items[i.value], q)], coupons, now)] &&
                 r == Ok(carts.carts[userId]))
  {
    if !(exists u | u in carts.carts :: FindItem(carts.carts[u].items, itemId).Some?) {
      return Err(NotFound);
    }
    carts.GetOrCreate(userId);
    var i := FindItem(carts.carts[userId].items, itemId);
    if i.None? {
      return Err(Forbidden);
    }
    if q < 1 {
      return Err(Unprocessable("Validation failed"));
    }
    carts.UpdateQuantity(userId, i.value, q, coupons, now);
    return Ok(carts.carts[userId]);
  }

  /** removeItem: 404 for an unknown line, 403 for another cart's line, else the line goes. */
  method RemoveItem(carts: CartTable, userId: int, itemId: int, coupons: map<string, Coupon>, now: int)
    returns (r: Result<Cart>)
    requires carts.Valid()
    modifies carts
    ensures carts.Valid()
    ensures !ItemExists(old(carts.carts), itemId) ==> r == Err(NotFound) && unchanged(carts)
    ensures ItemExists(old(carts.carts), itemId) ==>
              var base := WithCart(old(carts.carts), userId, old(carts.nextCartId));
              var i := FindItem(base[userId].items, itemId);
              (i.None? ==> r == Err(Forbidden) && carts.carts == base) &&
              (i.Some? ==>
                 var c := base[userId];
                 carts.carts == base[userId := Recomputed(c, RemoveLine(c.items, i.value), coupons, now)] &&
                 r == Ok(carts.carts[userId]) &&
                 |carts.carts[userId].items| == |c.items| - 1 &&
                 ItemCount(carts.carts[userId].items) == ItemCount(c.items) - c.items[i.value].quantity)
  {
    if !(exists u | u in carts.carts :: FindItem(carts.carts[u].items, itemId).Some?) {
      return Err(NotFound);
    }
    carts.GetOrCreate(userId);
    var i := FindItem(carts.carts[userId].items, itemId);
    if i.None? {
      return Err(Forbidden);
    }
    RemoveLineEffect(carts.carts[userId].items, i.value);
    carts.RemoveItem(userId, i.value, coupons, now);
    return Ok(carts.carts[userId]);
  }

  // ---------------------------------------------------------------------------
  // coupons

  /**
   * applyCoupon: an empty code is 422; the cart is fetched or created; an unknown code is
   * 404. A cart created by this request has a null subtotal in memory, and passing null to
   * isValid's float parameter throws: 500, with the new cart kept. Otherwise a coupon not
   * valid for the stored subtotal and this user's past orders is 400, and a valid one is
   * stored and the totals recomputed, which applies its discount.
   */
  method ApplyCoupon(carts: CartTable, userId: int, code: string, coupons: map<string, Coupon>,
                     orders: seq<Orders.Order>, now: int)
    returns (r: Result<Cart>)
    requires carts.Valid()
    modifies carts
    ensures carts.Valid()
    ensures code == "" ==> r == Err(Unprocessable("Validation failed")) && unchanged(carts)
    ensures code != "" ==>
              var base := WithCart(old(carts.carts), userId, old(carts.nextCartId));
              var c := base[userId];
              (code !in coupons ==> r == Err(NotFound) && carts.carts == base) &&
              (code in coupons && userId !in old(carts.carts) ==> r == Err(ServerError) && carts.carts == base) &&
              (code in coupons && userId in old(carts.carts) && !IsValid(coupons[code], c.totals.subtotal, now, Some(Orders.CouponUses(orders, userId, code))) ==>
                 r == Err(BadRequest("Coupon is not valid or has expired")) && carts.carts == base) &&
              (code in coupons && userId in old(carts.carts) && IsValid(coupons[code], c.totals.subtotal, now, Some(Orders.CouponUses(orders, userId, code))) ==>
                 carts.carts == base[userId := c.(couponCode := Some(code), totals := ComputeTotals(c.items, Some(code), coupons, now))] &&
                 r == Ok(carts.carts[userId]))
    ensures r.Ok? ==> userId in carts.carts
    ensures r.Ok? && code != "0" ==>
              carts.carts[userId].totals.discount == CalculateDiscount(coupons[code], carts.carts[userId].totals.subtotal, now) &&
              IsValid(coupons[code], carts.carts[userId].totals.subtotal, now, None)
  {
    if code == "" {
      return Err(Unprocessable("Validation failed"));
    }
    var existed := userId in carts.carts;
    carts.GetOrCreate(userId);
    if code !in coupons {
      return Err(NotFound);
    }
    if !existed {
      return Err(ServerError);
    }
    var c := carts.carts[userId];
    if !IsValid(coupons[code], c.totals.subtotal, now, Some(Orders.CouponUses(orders, userId, code))) {
      return Err(BadRequest("Coupon is not valid or has expired"));
    }
    ValidityMonotone(coupons[code], c.totals.subtotal, c.totals.subtotal, now, Some(Orders.CouponUses(orders, userId, code)));
    carts.SetCouponCode(userId, Some(code), coupons, now);
    return Ok(carts.carts[userId]);
  }

  /** applyCoupon with the code "0": stored, but PHP reads the string "0" as false, so no discount follows. */
  lemma ZeroCodeNeverDiscounts(items: seq<CartItem>, coupons: map<string, Coupon>, now: int)
    ensures ComputeTotals(items, Some("0"), coupons, now).discount == 0.0
  {
  }

  /** removeCoupon: the code is nulled and the totals recomputed, so no discount remains. */
  method RemoveCoupon(carts: CartTable, userId: int, coupons: map<string, Coupon>, now: int)
    returns (c: Cart)
    requires carts.Valid()
    modifies carts
    ensures carts.Valid()
    ensures var base := WithCart(old(carts.carts), userId, old(carts.nextCartId));
            carts.carts == base[userId := base[userId].(couponCode := None, totals := ComputeTotals(base[userId].items, None, coupons, now))]
    ensures c == carts.carts[userId] && c.couponCode.None? && c.totals.discount == 0.0
    ensures c.totals.total == c.totals.subtotal + c.totals.tax + c.totals.shipping
  {
    carts.GetOrCreate(userId);
    carts.SetCouponCode(userId, None, coupons, now);
    c := carts.carts[userId];
  }

  /** The clear endpoint: the cart is fetched or created and emptied (its items were not loaded before). */
  method ClearCart(carts: CartTable, userId: int, coupons: map<string, Coupon>, now: int)
    requires carts.Valid()
    modifies carts
    ensures carts.Valid()
    ensures var base := WithCart(old(carts.carts), userId, old(carts.nextCartId));
            carts.carts == base[userId := Cleared(base[userId], coupons, now)]
    ensures carts.carts[userId].items == [] && ItemCount(carts.carts[userId].items) == 0
    ensures var c := carts.carts[userId];
            (Filled(c.couponCode) && c.couponCode.value in coupons ==> SaneCoupon(coupons[c.couponCode.value])) ==>
              c.totals == Totals(0.0, 0.0, ShippingFee, 0.0, ShippingFee)
  {
    carts.GetOrCreate(userId);
    var c := carts.carts[userId];
    if !(Filled(c.couponCode) && c.couponCode.value in coupons) || SaneCoupon(coupons[c.couponCode.value]) {
      ClearedCartTotals(c, coupons, now);
    }
    carts.Clear(userId, coupons, now);
  }

  // ---------------------------------------------------------------------------
  // syncGuestCart

  /** One entry of the guest cart sent after login. */
  datatype GuestItem = GuestItem(itemType: ItemType, productId: Option<int>, variantId: Option<int>,
                                 albumId: Option<int>, quantity: int)

  /** The validator for one entry: a quantity of at least one, and ids, where given, that exist. */
  predicate GuestItemValid(gi: GuestItem, g: Goods)
  {
    1 <= gi.quantity &&
    (gi.productId.Some? ==> gi.productId.value in g.products) &&
    (gi.variantId.Some? ==> gi.variantId.value in g.variants) &&
    (gi.albumId.Some? ==> gi.albumId.value in g.albums)
  }

  predicate AllGuestItemsValid(gs: seq<GuestItem>, g: Goods)
  {
    forall i :: 0 <= i < |gs| ==> GuestItemValid(gs[i], g)
  }

  /**
   * An entry is added when it names its product (checked by the product's total stock,
   * whatever variant it names) or its album (checked member by member).
   */
  predicate Accepted(gi: GuestItem, rows: seq<Stock>, g: Goods)
    requires GuestItemValid(gi, g)
  {
    match gi.itemType
    case ProductItem => gi.productId.Some? && ProductInStock(rows, gi.productId.value)
    case AlbumItem => gi.albumId.Some? && AlbumInStock(rows, g.albums[gi.albumId.value])
  }

  /** The merge in progress: the lines, the next line id, and how many entries were added. */
  datatype SyncState = SyncState(items: seq<CartItem>, nextId: int, added: nat)

  /** One entry of the loop: addProduct or addAlbum when accepted, else nothing. */
  function SyncStep(st: SyncState, gi: GuestItem, rows: seq<Stock>, g: Goods): SyncState
    requires WellFormed(g) && GuestItemValid(gi, g)
  {
    if !Accepted(gi, rows, g) then st
    else if gi.itemType.ProductItem? then
      var p := gi.productId.value;
      SyncState(AddProductLine(st.items, p, gi.variantId, UnitPrice(g, p, gi.variantId), gi.quantity, st.nextId),
                st.nextId + 1, st.added + 1)
    else
      var a := gi.albumId.value;
      SyncState(AddAlbumLine(st.items, a, AlbumFinalPrice(g.albums[a], g.products), gi.quantity, st.nextId),
                st.nextId + 1, st.added + 1)
  }

  /** The loop over the entries, in order. */
  function Synced(st: SyncState, gs: seq<GuestItem>, rows: seq<Stock>, g: Goods): SyncState
    requires WellFormed(g) && AllGuestItemsValid(gs, g)
    decreases |gs|
  {
    if |gs| == 0 then st
    else SyncStep(Synced(st, gs[..|gs| - 1], rows, g), gs[|gs| - 1], rows, g)
  }

  /** The number of entries added, and the units they bring. */
  function AcceptedCount(gs: seq<GuestItem>, rows: seq<Stock>, g: Goods): (n: nat)
    requires AllGuestItemsValid(gs, g)
    ensures n <= |gs|
    decreases |gs|
  {
    if |gs| == 0 then 0
    else AcceptedCount(gs[..|gs| - 1], rows, g) + (if Accepted(gs[|gs| - 1], rows, g) then 1 else 0)
  }

  function AcceptedUnits(gs: seq<GuestItem>, rows: seq<Stock>, g: Goods): int
    requires AllGuestItemsValid(gs, g)
    decreases |gs|
  {
    if |gs| == 0 then 0
    else AcceptedUnits(gs[..|gs| - 1], rows, g) + (if Accepted(gs[|gs| - 1], rows, g) then gs[|gs| - 1].quantity else 0)
  }

  /** The cart after the merge: untouched when nothing was added, else the merged lines with fresh totals. */
  function AfterSync(base: Cart, st: SyncState, coupons: map<string, Coupon>, now: int): (r: Cart)
    ensures st.added == 0 ==> r == base
    ensures st.added != 0 ==> r.items == st.items && r.totals.subtotal == SumSubtotals(st.items)
  {
    if st.added == 0 then base else Recomputed(base, st.items, coupons, now)
  }

  /** The index of the first accepted entry from i on, or |gs| when there is none. */
  function FirstAccepted(gs: seq<GuestItem>, i: nat, rows: seq<Stock>, g: Goods): (j: nat)
    requires AllGuestItemsValid(gs, g) && i <= |gs|
    ensures i <= j <= |gs|
    ensures forall k :: i <= k < j ==> !Accepted(gs[k], rows, g)
    ensures j < |gs| ==> Accepted(gs[j], rows, g)
    decreases |gs| - i
  {
    if i == |gs| || Accepted(gs[i], rows, g) then i
    else FirstAccepted(gs, i + 1, rows, g)
  }

  /**
   * The lines calculateTotals sums during the merge, as written: addProduct and addAlbum
   * write through the items() query, while calculateTotals reads the `items` collection,
   * which the first accepted entry loads and no later entry refreshes. So it is the lines
   * as the first accepted entry left them, or None when no entry is accepted.
   */
  function FirstLoaded(st: SyncState, gs: seq<GuestItem>, rows: seq<Stock>, g: Goods): (r: Option<seq<CartItem>>)
    requires WellFormed(g) && AllGuestItemsValid(gs, g)
    ensures r.None? <==> forall k :: 0 <= k < |gs| ==> !Accepted(gs[k], rows, g)
    ensures r.Some? ==> r.value == SyncStep(st, gs[FirstAccepted(gs, 0, rows, g)], rows, g).items
  {
    var j := FirstAccepted(gs, 0, rows, g);
    if j == |gs| then None else Some(SyncStep(st, gs[j], rows, g).items)
  }

  /**
   * The cart syncGuestCart leaves, as written: the merged lines, but totals computed over
   * the collection the first accepted entry loaded; untouched when nothing is accepted.
   */
  function AfterSyncAsWritten(base: Cart, st0: SyncState, gs: seq<GuestItem>, rows: seq<Stock>, g: Goods,
                              coupons: map<string, Coupon>, now: int): (r: Cart)
    requires WellFormed(g) && AllGuestItemsValid(gs, g)
    ensures FirstLoaded(st0, gs, rows, g).None? ==> r == base
    ensures FirstLoaded(st0, gs, rows, g).Some? ==>
              r.items == Synced(st0, gs, rows, g).items && r.id == base.id && r.couponCode == base.couponCode &&
              r.totals.subtotal == SumSubtotals(FirstLoaded(st0, gs, rows, g).value)
  {
    var loaded := FirstLoaded(st0, gs, rows, g);
    if loaded.None? then base
    else base.(items := Synced(st0, gs, rows, g).items, totals := ComputeTotals(loaded.value, base.couponCode, coupons, now))
  }

  /** With a single guest entry the stale collection does no harm: as written and as intended agree. */
  lemma SingleEntrySyncAgrees(base: Cart, st0: SyncState, gi: GuestItem, rows: seq<Stock>, g: Goods,
                              coupons: map<string, Coupon>, now: int)
    requires WellFormed(g) && GuestItemValid(gi, g) && st0.added == 0
    ensures AllGuestItemsValid([gi], g)
    ensures AfterSyncAsWritten(base, st0, [gi], rows, g, coupons, now) == AfterSync(base, Synced(st0, [gi], rows, g), coupons, now)
  {
    assert [gi][..0] == [];
  }

  /**
   * Two in-stock products at 10.00 each, synced into an empty cart: the cart holds both
   * lines, 20.00 in all, but saves a subtotal of 10.00, the sum the first addition loaded.
   */
  lemma StaleSyncSubtotal()
    ensures var g := Goods(map[1 := Product(1, "A", "A-1", 10.0, None), 2 := Product(2, "B", "B-1", 10.0, None)], map[], map[]);
            var rows := [Stock(StockKey(1, None), 5, 0, 10, true), Stock(StockKey(2, None), 5, 0, 10, true)];
            var gs := [GuestItem(ProductItem, Some(1), None, None, 1), GuestItem(ProductItem, Some(2), None, None, 1)];
            WellFormed(g) && AllGuestItemsValid(gs, g) &&
            var r := AfterSyncAsWritten(Cart(1, 7, [], None, NewCartTotals), SyncState([], 1, 0), gs, rows, g, map[], 0);
            SumSubtotals(r.items) == 20.0 && r.totals.subtotal == 10.0
  {
    var g := Goods(map[1 := Product(1, "A", "A-1", 10.0, None), 2 := Product(2, "B", "B-1", 10.0, None)], map[], map[]);
    var rows := [Stock(StockKey(1, None), 5, 0, 10, true), Stock(StockKey(2, None), 5, 0, 10, true)];
    var gs := [GuestItem(ProductItem, Some(1), None, None, 1), GuestItem(ProductItem, Some(2), None, None, 1)];
    assert TotalStock(rows, 1) == 5 by { assert rows[1..][1..] == []; }
    assert TotalStock(rows, 2) == 5 by { assert rows[1..][1..] == []; }
    var st0 := SyncState([], 1, 0);
    var l1 := CartItem(1, ProductItem, Some(1), None, None, 1, 10.0, 10.0);
    var l2 := CartItem(2, ProductItem, Some(2), None, None, 1, 10.0, 10.0);
    assert gs[..1] == [gs[0]] && gs[..1][..0] == [];
    assert SyncStep(st0, gs[0], rows, g).items == [l1];
    assert Synced(st0, gs[..1], rows, g).items == [l1];
    assert FindProductLine([l1], 2, None).None?;
    assert Synced(st0, gs, rows, g).items == [l1, l2];
    assert FirstLoaded(st0, gs, rows, g) == Some([l1]);
    assert [l1, l2][1..] == [l2] && [l2][1..] == [] && [l1][1..] == [];
  }

  /** One merge step seen on the cart: an accepted entry recomputes it over the new lines, another leaves it. */
  lemma AfterSyncStep(base: Cart, st: SyncState, gi: GuestItem, rows: seq<Stock>, g: Goods,
                      coupons: map<string, Coupon>, now: int)
    requires WellFormed(g) && GuestItemValid(gi, g)
    ensures var st' := SyncStep(st, gi, rows, g);
            AfterSync(base, st', coupons, now) ==
              if Accepted(gi, rows, g) then Recomputed(AfterSync(base, st, coupons, now), st'.items, coupons, now)
              else AfterSync(base, st, coupons, now)
  {
  }

  /** A prefix of a validated list is validated. */
  lemma PrefixValid(gs: seq<GuestItem>, i: nat, g: Goods)
    requires AllGuestItemsValid(gs, g) && i <= |gs|
    ensures AllGuestItemsValid(gs[..i], g)
  {
    forall j | 0 <= j < i
      ensures GuestItemValid(gs[..i][j], g)
    {
      assert gs[..i][j] == gs[j];
    }
  }

  /**
   * The merge counts exactly the accepted entries, adds exactly their units to the cart,
   * takes one line id per accepted entry, leaves the lines alone when it accepts nothing,
   * and keeps the lines distinct, consistent and positive.
   */
  lemma {:induction false} SyncedEffect(st: SyncState, gs: seq<GuestItem>, rows: seq<Stock>, g: Goods)
    requires WellFormed(g) && AllGuestItemsValid(gs, g)
    ensures var r := Synced(st, gs, rows, g);
            r.added == st.added + AcceptedCount(gs, rows, g) &&
            r.nextId == st.nextId + AcceptedCount(gs, rows, g) &&
            (r.added == st.added ==> r.items == st.items) &&
            ItemCount(r.items) == ItemCount(st.items) + AcceptedUnits(gs, rows, g) &&
            (AllLinesConsistent(st.items) ==> AllLinesConsistent(r.items)) &&
            (DistinctLines(st.items) ==> DistinctLines(r.items)) &&
            (PositiveQuantities(st.items) ==> PositiveQuantities(r.items))
    decreases |gs|
  {
    if |gs| > 0 {
      var init := gs[..|gs| - 1];
      PrefixValid(gs, |gs| - 1, g);
      SyncedEffect(st, init, rows, g);
      var s1 := Synced(st, init, rows, g);
      var gi := gs[|gs| - 1];
      assert GuestItemValid(gi, g);
      if Accepted(gi, rows, g) {
        if gi.itemType.ProductItem? {
          var p := gi.productId.value;
          AddProductLineEffect(s1.items, p, gi.variantId, UnitPrice(g, p, gi.variantId), gi.quantity, s1.nextId);
        } else {
          var a := gi.albumId.value;
          AddAlbumLineEffect(s1.items, a, AlbumFinalPrice(g.albums[a], g.products), gi.quantity, s1.nextId);
        }
      }
    }
  }

  /** One entry of syncGuestCart's loop, on the table, from the merge state st. */
  method SyncOne(carts: CartTable, userId: int, gi: GuestItem, rows: seq<Stock>, g: Goods,
                 coupons: map<string, Coupon>, now: int, ghost st: SyncState) returns (added: bool)
    requires carts.Valid() && userId in carts.carts && WellFormed(g) && GuestItemValid(gi, g)
    requires carts.carts[userId].items == st.items && carts.nextItemId == st.nextId
    modifies carts
    ensures carts.Valid() && userId in carts.carts
    ensures added == Accepted(gi, rows, g)
    ensures var st' := SyncStep(st, gi, rows, g);
            carts.nextItemId == st'.nextId && carts.nextCartId == old(carts.nextCartId) &&
            carts.carts == old(carts.carts)[userId :=
              if added then Recomputed(old(carts.carts)[userId], st'.items, coupons, now) else old(carts.carts)[userId]]
  {
    if gi.itemType.ProductItem? && gi.productId.Some? {
      if ProductInStock(rows, gi.productId.value) {
        carts.AddProduct(userId, gi.productId.value, gi.variantId, gi.quantity, g, coupons, now);
        return true;
      }
    } else if gi.itemType.AlbumItem? && gi.albumId.Some? {
      var inStock := CheckAlbumInStock(rows, g.albums[gi.albumId.value]);
      if inStock {
        carts.AddAlbum(userId, gi.albumId.value, gi.quantity, g, coupons, now);
        return true;
      }
    }
    return false;
  }

  /** Extending the prefix by one entry is one more step. */
  lemma SyncedSnoc(st: SyncState, gs: seq<GuestItem>, i: nat, rows: seq<Stock>, g: Goods)
    requires WellFormed(g) && AllGuestItemsValid(gs, g) && i < |gs|
    ensures AllGuestItemsValid(gs[..i], g) && AllGuestItemsValid(gs[..i + 1], g)
    ensures Synced(st, gs[..i + 1], rows, g) == SyncStep(Synced(st, gs[..i], rows, g), gs[i], rows, g)
  {
    PrefixValid(gs, i, g);
    PrefixValid(gs, i + 1, g);
    assert gs[..i + 1][..i] == gs[..i];
  }

  /** Whatever was merged, the cart holds the merge state's lines. */
  lemma AfterSyncItems(base: Cart, st0: SyncState, gs: seq<GuestItem>, rows: seq<Stock>, g: Goods,
                       coupons: map<string, Coupon>, now: int)
    requires WellFormed(g) && AllGuestItemsValid(gs, g) && base.items == st0.items && st0.added == 0
    ensures AfterSync(base, Synced(st0, gs, rows, g), coupons, now).items == Synced(st0, gs, rows, g).items
  {
    SyncedEffect(st0, gs, rows, g);
  }

  /** The loop of syncGuestCart over a validated list, on a cart that exists. */
  method MergeGuestItems(carts: CartTable, userId: int, gs: seq<GuestItem>, rows: seq<Stock>, g: Goods,
                         coupons: map<string, Coupon>, now: int)
    returns (added: nat)
    requires carts.Valid() && WellFormed(g) && userId in carts.carts && AllGuestItemsValid(gs, g)
    modifies carts
    ensures carts.Valid() && carts.nextCartId == old(carts.nextCartId)
    ensures var st := Synced(SyncState(old(carts.carts)[userId].items, old(carts.nextItemId), 0), gs, rows, g);
            added == st.added && carts.nextItemId == st.nextId &&
            carts.carts == old(carts.carts)[userId := AfterSync(old(carts.carts)[userId], st, coupons, now)]
  {
    ghost var base := carts.carts;
    ghost var st0 := SyncState(base[userId].items, carts.nextItemId, 0);
    added := 0;
    var i := 0;
    while i < |gs|
      invariant 0 <= i <= |gs|
      invariant carts.Valid() && userId in carts.carts && carts.nextCartId == old(carts.nextCartId)
      invariant added == Synced(st0, gs[..i], rows, g).added
      invariant carts.nextItemId == Synced(st0, gs[..i], rows, g).nextId
      invariant carts.carts == base[userId := AfterSync(base[userId], Synced(st0, gs[..i], rows, g), coupons, now)]
    {
      PrefixValid(gs, i, g);
      ghost var st := Synced(st0, gs[..i], rows, g);
      SyncedSnoc(st0, gs, i, rows, g);
      AfterSyncItems(base[userId], st0, gs[..i], rows, g, coupons, now);
      AfterSyncStep(base[userId], st, gs[i], rows, g, coupons, now);
      var ok := SyncOne(carts, userId, gs[i], rows, g, coupons, now, st);
      if ok {
        added := added + 1;
      }
      i := i + 1;
    }
    assert gs[..i] == gs;
  }

  /**
   * syncGuestCart: the whole list is validated first (an empty list fails `required`); then
   * each entry that names an existing, in-stock product or album is added, and the number
   * added is reported. The totals are recomputed after each addition; with none, the cart
   * keeps the totals it had.
   */
  method SyncGuestCart(carts: CartTable, userId: int, gs: seq<GuestItem>, rows: seq<Stock>, g: Goods,
                       coupons: map<string, Coupon>, now: int)
    returns (r: Result<nat>)
    requires carts.Valid() && WellFormed(g)
    modifies carts
    ensures carts.Valid()
    ensures gs == [] || !AllGuestItemsValid(gs, g) ==> r == Err(Unprocessable("Validation failed")) && unchanged(carts)
    ensures gs != [] && AllGuestItemsValid(gs, g) ==>
              var base := WithCart(old(carts.carts), userId, old(carts.nextCartId));
              var st := Synced(SyncState(base[userId].items, old(carts.nextItemId), 0), gs, rows, g);
              r == Ok(AcceptedCount(gs, rows, g)) &&
              carts.carts == base[userId := AfterSync(base[userId], st, coupons, now)] &&
              carts.nextItemId == old(carts.nextItemId) + AcceptedCount(gs, rows, g) &&
              ItemCount(carts.carts[userId].items) == ItemCount(base[userId].items) + AcceptedUnits(gs, rows, g)
  {
    if |gs| == 0 || !(forall i | 0 <= i < |gs| :: GuestItemValid(gs[i], g)) {
      return Err(Unprocessable("Validation failed"));
    }
    carts.GetOrCreate(userId);
    SyncedEffect(SyncState(carts.carts[userId].items, carts.nextItemId, 0), gs, rows, g);
    var added := MergeGuestItems(carts, userId, gs, rows, g, coupons, now);
    return Ok(added);
  }
}
