/**
 * The cart aggregate: one cart per user, its lines, and the totals recomputed after
 * every change (18% tax, flat shipping below 1000, the coupon's discount).
 */
module Carts {
  import opened Base
  import opened Coupons
  import opened Products
  import opened Variants
  import opened Albums
  import opened Catalog
  import opened CartItems

  /** The five money columns calculateTotals writes. */
  datatype Totals = Totals(subtotal: real, tax: real, shipping: real, discount: real, total: real)

  /** One row of carts with its lines in id order. */
  datatype Cart = Cart(id: int, userId: int, items: seq<CartItem>, couponCode: Option<string>, totals: Totals)

  const TaxRate: real := 0.18
  const FreeShippingFrom: real := 1000.0
  const ShippingFee: real := 50.0

  /** The totals of a cart row that has just been inserted. */
  const NewCartTotals: Totals := Totals(0.0, 0.0, 0.0, 0.0, 0.0)

  // ---------------------------------------------------------------------------
  // sums over the lines

  /** The sum of the line subtotals. */
  function SumSubtotals(items: seq<CartItem>): (s: real)
    ensures (forall i :: 0 <= i < |items| ==> 0.0 <= items[i].subtotal) ==> 0.0 <= s
  {
    if |items| == 0 then 0.0 else items[0].subtotal + SumSubtotals(items[1..])
  }

  /** item_count: the sum of the line quantities. */
  function ItemCount(items: seq<CartItem>): (n: int)
    ensures (forall i :: 0 <= i < |items| ==> 0 <= items[i].quantity) ==> 0 <= n
  {
    if |items| == 0 then 0 else items[0].quantity + ItemCount(items[1..])
  }

  lemma {:induction false} SumsAppend(a: seq<CartItem>, b: seq<CartItem>)
    ensures SumSubtotals(a + b) == SumSubtotals(a) + SumSubtotals(b)
    ensures ItemCount(a + b) == ItemCount(a) + ItemCount(b)
  {
    if |a| > 0 {
      assert (a + b)[1..] == a[1..] + b;
      SumsAppend(a[1..], b);
    } else {
      assert a + b == b;
    }
  }

  /** Replacing one line changes each sum by exactly that line's difference. */
  lemma {:induction false} SumsUpdate(items: seq<CartItem>, i: nat, x: CartItem)
    requires i < |items|
    ensures SumSubtotals(items[i := x]) == SumSubtotals(items) - items[i].subtotal + x.subtotal
    ensures ItemCount(items[i := x]) == ItemCount(items) - items[i].quantity + x.quantity
  {
    if i > 0 {
      assert items[i := x][1..] == items[1..][i - 1 := x];
      SumsUpdate(items[1..], i - 1, x);
    }
  }

  /** Removing one line takes exactly that line's share out of each sum. */
  lemma {:induction false} SumsRemove(items: seq<CartItem>, i: nat)
    requires i < |items|
    ensures SumSubtotals(RemoveLine(items, i)) == SumSubtotals(items) - items[i].subtotal
    ensures ItemCount(RemoveLine(items, i)) == ItemCount(items) - items[i].quantity
  {
    if i == 0 {
      assert RemoveLine(items, i) == items[1..];
    } else {
      assert RemoveLine(items, i)[1..] == RemoveLine(items[1..], i - 1);
      SumsRemove(items[1..], i - 1);
    }
  }

  // ---------------------------------------------------------------------------
  // totals

  /** The shipping rule: free from a subtotal of 1000 on, a flat 50 below it. */
  function ShippingFor(subtotal: real): (r: real)
    ensures r == 0.0 <==> subtotal >= FreeShippingFrom
    ensures r == 0.0 || r == ShippingFee
  {
    if subtotal >= FreeShippingFrom then 0.0 else ShippingFee
  }

  /** The coupon calculateDiscount looks up: the one with this code, if it is active. */
  function ActiveCoupon(coupons: map<string, Coupon>, code: string): (r: Option<Coupon>)
    ensures r.Some? <==> code in coupons && coupons[code].isActive
    ensures r.Some? ==> r.value == coupons[code]
  {
    if code in coupons && coupons[code].isActive then Some(coupons[code]) else None
  }

  /**
   * The cart's own discount rule. It repeats the coupon's rule rather than calling it, and
   * agrees with it: no code (or a falsy one) gives nothing, any other code gives exactly
   * what the coupon would grant on the subtotal.
   */
  function CartDiscount(code: Option<string>, coupons: map<string, Coupon>, subtotal: real, now: int): (d: real)
    ensures !Filled(code) ==> d == 0.0
    ensures Filled(code) && code.value !in coupons ==> d == 0.0
    ensures Filled(code) && code.value in coupons ==> d == CalculateDiscount(coupons[code.value], subtotal, now)
  {
    if !Filled(code) then 0.0
    else match ActiveCoupon(coupons, code.value)
      case None => 0.0
      case Some(c) =>
        if !IsValid(c, subtotal, now, None) then 0.0
        else if c.discountType.Percentage? then
          var discount := subtotal * (c.value / 100.0);
          if c.maxDiscountAmount.Some? then MinReal(discount, c.maxDiscountAmount.value) else discount
        else MinReal(c.value, subtotal)
  }

  /** calculateTotals, as one value: subtotal, tax, shipping, discount, and the total they give. */
  function ComputeTotals(items: seq<CartItem>, code: Option<string>, coupons: map<string, Coupon>, now: int): Totals
  {
    var subtotal := SumSubtotals(items);
    var tax := subtotal * TaxRate;
    var shipping := ShippingFor(subtotal);
    var discount := CartDiscount(code, coupons, subtotal, now);
    Totals(subtotal, tax, shipping, discount, subtotal + tax + shipping - discount)
  }

  /** The limits the admin form puts on a coupon: non-negative value and cap, at most 100 percent. */
  predicate SaneCoupon(c: Coupon)
  {
    0.0 <= c.value && (c.maxDiscountAmount.None? || 0.0 <= c.maxDiscountAmount.value) &&
    (c.discountType.Percentage? ==> c.value <= 100.0)
  }

  /**
   * With non-negative lines and a sane coupon the discount never exceeds the subtotal, so the
   * total is at least tax plus shipping and never negative.
   */
  lemma TotalsBounds(items: seq<CartItem>, code: Option<string>, coupons: map<string, Coupon>, now: int)
    requires forall i :: 0 <= i < |items| ==> 0.0 <= items[i].subtotal
    requires Filled(code) && code.value in coupons ==> SaneCoupon(coupons[code.value])
    ensures var t := ComputeTotals(items, code, coupons, now);
            0.0 <= t.discount <= t.subtotal &&
            t.total == t.subtotal + t.tax + t.shipping - t.discount &&
            t.tax + t.shipping <= t.total && 0.0 <= t.total
  {
    var t := ComputeTotals(items, code, coupons, now);
    assert 0.0 <= t.subtotal;
    assert 0.0 <= t.tax;
  }

  /** An empty cart's totals: nothing but the flat shipping fee, whatever coupon it carries. */
  lemma EmptyCartTotals(code: Option<string>, coupons: map<string, Coupon>, now: int)
    requires Filled(code) && code.value in coupons ==>
               0.0 <= coupons[code.value].value &&
               (coupons[code.value].maxDiscountAmount.None? || 0.0 <= coupons[code.value].maxDiscountAmount.value)
    ensures ComputeTotals([], code, coupons, now) == Totals(0.0, 0.0, ShippingFee, 0.0, ShippingFee)
  {
  }

  // ---------------------------------------------------------------------------
  // the lines of one cart

  predicate AllLinesConsistent(items: seq<CartItem>)
  {
    forall i :: 0 <= i < |items| ==> LineConsistent(items[i])
  }

  /** Every line holds at least one unit (quantities are validated with min:1). */
  predicate PositiveQuantities(items: seq<CartItem>)
  {
    forall i :: 0 <= i < |items| ==> 1 <= items[i].quantity
  }

  /** What every mutation keeps of a stored cart's lines. */
  predicate LinesOk(c: Cart, u: int)
  {
    c.userId == u && AllLinesConsistent(c.items) && DistinctLines(c.items) && PositiveQuantities(c.items)
  }

  /** Two lines for the same thing: the same product and variant, or the same album. */
  predicate SameLine(a: CartItem, b: CartItem)
  {
    a.itemType == b.itemType &&
    if a.itemType.ProductItem? then a.productId == b.productId && a.variantId == b.variantId
    else a.albumId == b.albumId
  }

  /** addProduct and addAlbum never create a second line for the same thing. */
  predicate DistinctLines(items: seq<CartItem>)
  {
    forall i, j :: 0 <= i < j < |items| ==> !SameLine(items[i], items[j])
  }

  /** The ids of a cart's lines. */
  ghost function LineIds(items: seq<CartItem>): set<int>
  {
    set k | 0 <= k < |items| :: items[k].id
  }

  /** No two lines of a cart share an id. */
  ghost predicate IdsDistinct(items: seq<CartItem>)
  {
    forall i, j :: 0 <= i < j < |items| ==> items[i].id != items[j].id
  }

  /**
   * cart_items.id is the table's auto-increment key: ids are distinct within a cart and
   * across carts, and every id is below the next one to be handed out.
   */
  ghost predicate LineIdsOk(carts: map<int, Cart>, next: int)
  {
    (forall u :: u in carts ==> IdsDistinct(carts[u].items) && forall id :: id in LineIds(carts[u].items) ==> id < next) &&
    (forall u, v :: u in carts && v in carts && u != v ==> LineIds(carts[u].items) !! LineIds(carts[v].items))
  }

  predicate IsProductLine(it: CartItem, productId: int, variantId: Option<int>)
  {
    it.itemType.ProductItem? && it.productId == Some(productId) && it.variantId == variantId
  }

  predicate IsAlbumLine(it: CartItem, albumId: int)
  {
    it.itemType.AlbumItem? && it.albumId == Some(albumId)
  }

  /** The first line for (product, variant), as the merge query finds it. */
  function FindProductLine(items: seq<CartItem>, productId: int, variantId: Option<int>): (r: Option<nat>)
    ensures r.Some? ==> r.value < |items| && IsProductLine(items[r.value], productId, variantId)
    ensures r.None? ==> forall j :: 0 <= j < |items| ==> !IsProductLine(items[j], productId, variantId)
  {
    if |items| == 0 then None
    else if IsProductLine(items[0], productId, variantId) then Some(0)
    else match FindProductLine(items[1..], productId, variantId)
      case None => None
      case Some(j) => Some(j + 1)
  }

  /** The first line for the album. */
  function FindAlbumLine(items: seq<CartItem>, albumId: int): (r: Option<nat>)
    ensures r.Some? ==> r.value < |items| && IsAlbumLine(items[r.value], albumId)
    ensures r.None? ==> forall j :: 0 <= j < |items| ==> !IsAlbumLine(items[j], albumId)
  {
    if |items| == 0 then None
    else if IsAlbumLine(items[0], albumId) then Some(0)
    else match FindAlbumLine(items[1..], albumId)
      case None => None
      case Some(j) => Some(j + 1)
  }

  /** The line with the given id, if the cart holds it. */
  function FindItem(items: seq<CartItem>, itemId: int): (r: Option<nat>)
    ensures r.Some? ==> r.value < |items| && items[r.value].id == itemId
    ensures r.None? ==> forall j :: 0 <= j < |items| ==> items[j].id != itemId
  {
    if |items| == 0 then None
    else if items[0].id == itemId then Some(0)
    else match FindItem(items[1..], itemId)
      case None => None
      case Some(j) => Some(j + 1)
  }

  /** Add q to a line found at index i, or append `newLine`. */
  function MergeOrAppend(items: seq<CartItem>, found: Option<nat>, q: int, newLine: CartItem): seq<CartItem>
    requires found.Some? ==> found.value < |items|
  {
    match found
    case Some(i) => items[i := WithQuantity(items[i], items[i].quantity + q)]
    case None => items + [newLine]
  }

  /** The price a new product line is frozen at: the variant's final price, else the product's. */
  function UnitPrice(g: Goods, productId: int, variantId: Option<int>): (price: real)
    requires WellFormed(g) && productId in g.products && (variantId.Some? ==> variantId.value in g.variants)
    ensures variantId.None? ==> price == FinalPrice(g.products[productId])
    ensures variantId.Some? ==>
              price == FinalPrice(VariantProduct(g, variantId.value)) + g.variants[variantId.value].priceAdjustment
  {
    match variantId
    case None => FinalPrice(g.products[productId])
    case Some(v) => VariantFinalPrice(VariantProduct(g, v), g.variants[v])
  }

  /** The lines after addProduct: merged into the existing line, or a new line at `price`. */
  function AddProductLine(items: seq<CartItem>, productId: int, variantId: Option<int>, price: real, q: int, newId: int): seq<CartItem>
  {
    MergeOrAppend(items, FindProductLine(items, productId, variantId), q,
      CartItem(newId, ProductItem, Some(productId), variantId, None, q, price, price * (q as real)))
  }

  /** The lines after addAlbum: merged into the existing line, or a new line at `price`. */
  function AddAlbumLine(items: seq<CartItem>, albumId: int, price: real, q: int, newId: int): seq<CartItem>
  {
    MergeOrAppend(items, FindAlbumLine(items, albumId), q,
      CartItem(newId, AlbumItem, None, None, Some(albumId), q, price, price * (q as real)))
  }

  function RemoveLine(items: seq<CartItem>, i: nat): seq<CartItem>
    requires i < |items|
  {
    items[..i] + items[i + 1..]
  }

  /** Merging into the line `found` for `newLine`'s thing, or appending `newLine` when there is none. */
  lemma MergeOrAppendEffect(items: seq<CartItem>, found: Option<nat>, q: int, newLine: CartItem)
    requires found.Some? ==> found.value < |items| && SameLine(items[found.value], newLine)
    requires found.None? ==> forall j :: 0 <= j < |items| ==> !SameLine(items[j], newLine)
    requires LineConsistent(newLine) && newLine.quantity == q
    ensures var r := MergeOrAppend(items, found, q, newLine);
            ItemCount(r) == ItemCount(items) + q &&
            (AllLinesConsistent(items) ==> AllLinesConsistent(r)) &&
            (DistinctLines(items) ==> DistinctLines(r)) &&
            (PositiveQuantities(items) && 1 <= q ==> PositiveQuantities(r)) &&
            (found.Some? ==> |r| == |items| && r[found.value].price == items[found.value].price) &&
            (found.None? ==> |r| == |items| + 1 && r[|items|] == newLine)
  {
    var r := MergeOrAppend(items, found, q, newLine);
    match found {
      case Some(i) =>
        SumsUpdate(items, i, WithQuantity(items[i], items[i].quantity + q));
        assert forall j :: 0 <= j < |r| ==> SameLine(r[j], items[j]) && (j != i ==> r[j] == items[j]);
      case None =>
        SumsAppend(items, [newLine]);
        assert [newLine][1..] == [];
    }
  }

  /**
   * addProduct on the lines: the item count grows by exactly q, lines stay distinct and
   * consistent, an existing line keeps its frozen price, and a line for (product, variant) exists.
   */
  lemma AddProductLineEffect(items: seq<CartItem>, productId: int, variantId: Option<int>, price: real, q: int, newId: int)
    ensures var r := AddProductLine(items, productId, variantId, price, q, newId);
            ItemCount(r) == ItemCount(items) + q &&
            (AllLinesConsistent(items) ==> AllLinesConsistent(r)) &&
            (DistinctLines(items) ==> DistinctLines(r)) &&
            (PositiveQuantities(items) && 1 <= q ==> PositiveQuantities(r)) &&
            FindProductLine(r, productId, variantId).Some?
    ensures var f := FindProductLine(items, productId, variantId);
            var r := AddProductLine(items, productId, variantId, price, q, newId);
            f.Some? ==> |r| == |items| && r[f.value].price == items[f.value].price
  {
    var newLine := CartItem(newId, ProductItem, Some(productId), variantId, None, q, price, price * (q as real));
    var f := FindProductLine(items, productId, variantId);
    MergeOrAppendEffect(items, f, q, newLine);
    var r := AddProductLine(items, productId, variantId, price, q, newId);
    var k := if f.Some? then f.value else |items|;
    assert IsProductLine(r[k], productId, variantId);
  }

  /** addAlbum on the lines, with the same guarantees keyed by the album. */
  lemma AddAlbumLineEffect(items: seq<CartItem>, albumId: int, price: real, q: int, newId: int)
    ensures var r := AddAlbumLine(items, albumId, price, q, newId);
            ItemCount(r) == ItemCount(items) + q &&
            (AllLinesConsistent(items) ==> AllLinesConsistent(r)) &&
            (DistinctLines(items) ==> DistinctLines(r)) &&
            (PositiveQuantities(items) && 1 <= q ==> PositiveQuantities(r)) &&
            FindAlbumLine(r, albumId).Some?
    ensures var f := FindAlbumLine(items, albumId);
            var r := AddAlbumLine(items, albumId, price, q, newId);
            f.Some? ==> |r| == |items| && r[f.value].price == items[f.value].price
  {
    var newLine := CartItem(newId, AlbumItem, None, None, Some(albumId), q, price, price * (q as real));
    var f := FindAlbumLine(items, albumId);
    MergeOrAppendEffect(items, f, q, newLine);
    var r := AddAlbumLine(items, albumId, price, q, newId);
    var k := if f.Some? then f.value else |items|;
    assert IsAlbumLine(r[k], albumId);
  }

  /** removeItem on the lines: exactly that line goes, the others stay in order, the sums drop by its share. */
  lemma RemoveLineEffect(items: seq<CartItem>, i: nat)
    requires i < |items|
    ensures var r := RemoveLine(items, i);
            |r| == |items| - 1 &&
            (forall j :: 0 <= j < i ==> r[j] == items[j]) &&
            (forall j :: i <= j < |r| ==> r[j] == items[j + 1]) &&
            ItemCount(r) == ItemCount(items) - items[i].quantity &&
            SumSubtotals(r) == SumSubtotals(items) - items[i].subtotal &&
            (AllLinesConsistent(items) ==> AllLinesConsistent(r)) &&
            (DistinctLines(items) ==> DistinctLines(r)) &&
            (PositiveQuantities(items) ==> PositiveQuantities(r))
  {
    SumsRemove(items, i);
  }

  /** updateQuantity on the lines: the count moves by the difference, lines stay distinct and consistent. */
  lemma UpdateLineEffect(items: seq<CartItem>, i: nat, q: int)
    requires i < |items|
    ensures var r := items[i := WithQuantity(items[i], q)];
            ItemCount(r) == ItemCount(items) - items[i].quantity + q &&
            r[i].price == items[i].price &&
            (AllLinesConsistent(items) ==> AllLinesConsistent(r)) &&
            (DistinctLines(items) ==> DistinctLines(r)) &&
            (PositiveQuantities(items) && 1 <= q ==> PositiveQuantities(r))
  {
    var r := items[i := WithQuantity(items[i], q)];
    SumsUpdate(items, i, WithQuantity(items[i], q));
    assert forall j :: 0 <= j < |r| ==> SameLine(r[j], items[j]);
  }

  // ---------------------------------------------------------------------------
  // clear, as written and as intended

  /**
   * clear as it behaves when the cart's items relation was loaded earlier in the request:
   * the lines are deleted, but calculateTotals sums the collection loaded before.
   */
  function ClearedWithLoadedItems(c: Cart, loaded: seq<CartItem>, coupons: map<string, Coupon>, now: int): (r: Cart)
    ensures r.items == [] && r.couponCode == c.couponCode
    ensures r.totals.subtotal == SumSubtotals(loaded)
  {
    c.(items := [], totals := ComputeTotals(loaded, c.couponCode, coupons, now))
  }

  /** At checkout the loaded collection is the cart's own lines, so the emptied cart keeps its old subtotal. */
  lemma StaleClearKeepsSubtotal()
    ensures var line := CartItem(1, ProductItem, Some(1), None, None, 1, 100.0, 100.0);
            var c := Cart(1, 1, [line], None, Totals(100.0, 18.0, 50.0, 0.0, 168.0));
            var r := ClearedWithLoadedItems(c, c.items, map[], 0);
            r.items == [] && r.totals.subtotal == 100.0 && r.totals.total == 168.0
  {
    var line := CartItem(1, ProductItem, Some(1), None, None, 1, 100.0, 100.0);
    assert [line][1..] == [];
  }

  /** clear with the totals computed over the remaining (no) lines. */
  function Cleared(c: Cart, coupons: map<string, Coupon>, now: int): Cart
  {
    c.(items := [], totals := ComputeTotals([], c.couponCode, coupons, now))
  }

  /** After clear the cart is empty, keeps its coupon code, and (for a sane coupon) owes only shipping. */
  lemma ClearedCartTotals(c: Cart, coupons: map<string, Coupon>, now: int)
    requires Filled(c.couponCode) && c.couponCode.value in coupons ==> SaneCoupon(coupons[c.couponCode.value])
    ensures Cleared(c, coupons, now).items == [] && Cleared(c, coupons, now).couponCode == c.couponCode
    ensures Cleared(c, coupons, now).totals == Totals(0.0, 0.0, ShippingFee, 0.0, ShippingFee)
    ensures ItemCount(Cleared(c, coupons, now).items) == 0
  {
    EmptyCartTotals(c.couponCode, coupons, now);
  }

  /** Merging keeps every line's id; appending adds the new line's id, kept distinct when it is fresh. */
  lemma MergeOrAppendIds(items: seq<CartItem>, found: Option<nat>, q: int, newLine: CartItem)
    requires found.Some? ==> found.value < |items|
    ensures var r := MergeOrAppend(items, found, q, newLine);
            LineIds(r) <= LineIds(items) + {newLine.id} &&
            (IdsDistinct(items) && newLine.id !in LineIds(items) ==> IdsDistinct(r))
  {
    var r := MergeOrAppend(items, found, q, newLine);
    match found {
      case Some(i) =>
        assert forall j :: 0 <= j < |r| ==> r[j].id == items[j].id;
        forall id | id in LineIds(r)
          ensures id in LineIds(items)
        {
          var k :| 0 <= k < |r| && r[k].id == id;
          assert items[k].id == id;
        }
      case None =>
        forall id | id in LineIds(r)
          ensures id in LineIds(items) + {newLine.id}
        {
          var k :| 0 <= k < |r| && r[k].id == id;
          if k < |items| {
            assert r[k] == items[k];
          }
        }
        if IdsDistinct(items) && newLine.id !in LineIds(items) {
          forall i, j | 0 <= i < j < |r|
            ensures r[i].id != r[j].id
          {
            if j == |items| {
              assert r[i] == items[i];
              assert items[i].id in LineIds(items);
            }
          }
        }
    }
  }

  /** Changing one line's quantity keeps the ids. */
  lemma UpdateLineIds(items: seq<CartItem>, i: nat, q: int)
    requires i < |items|
    ensures var r := items[i := WithQuantity(items[i], q)];
            LineIds(r) == LineIds(items) && (IdsDistinct(items) ==> IdsDistinct(r))
  {
    var r := items[i := WithQuantity(items[i], q)];
    assert forall j :: 0 <= j < |r| ==> r[j].id == items[j].id;
    forall id | id in LineIds(items)
      ensures id in LineIds(r)
    {
      var k :| 0 <= k < |items| && items[k].id == id;
      assert r[k].id == id;
    }
  }

  /** Removing a line drops at most its id. */
  lemma RemoveLineIds(items: seq<CartItem>, i: nat)
    requires i < |items|
    ensures LineIds(RemoveLine(items, i)) <= LineIds(items)
    ensures IdsDistinct(items) ==> IdsDistinct(RemoveLine(items, i))
  {
    var r := RemoveLine(items, i);
    RemoveLineEffect(items, i);
    forall id | id in LineIds(r)
      ensures id in LineIds(items)
    {
      var k :| 0 <= k < |r| && r[k].id == id;
      if k < i {
        assert items[k] == r[k];
      } else {
        assert items[k + 1] == r[k];
      }
    }
    if IdsDistinct(items) {
      forall a, b | 0 <= a < b < |r|
        ensures r[a].id != r[b].id
      {
        var a' := if a < i then a else a + 1;
        var b' := if b < i then b else b + 1;
        assert r[a] == items[a'] && r[b] == items[b'];
      }
    }
  }

  /** Under the id invariant a line id names one line of one cart: the owner check of updateItem and removeItem is unambiguous. */
  lemma ItemIdNamesOneLine(carts: map<int, Cart>, next: int, u: int, v: int, itemId: int)
    requires LineIdsOk(carts, next) && u in carts && v in carts
    requires FindItem(carts[u].items, itemId).Some?
    ensures v != u ==> FindItem(carts[v].items, itemId).None?
    ensures forall j :: 0 <= j < |carts[u].items| && carts[u].items[j].id == itemId ==> j == FindItem(carts[u].items, itemId).value
  {
    var i := FindItem(carts[u].items, itemId).value;
    assert itemId in LineIds(carts[u].items);
    if v != u {
      assert itemId !in LineIds(carts[v].items);
    }
  }

  /** Replacing one cart by a cart whose ids are old ones or freshly handed out keeps the ids in order. */
  lemma LineIdsOkAfter(carts: map<int, Cart>, next: int, u: int, c: Cart, extra: set<int>, next': int)
    requires LineIdsOk(carts, next) && next <= next'
    requires IdsDistinct(c.items) && LineIds(c.items) <= (if u in carts then LineIds(carts[u].items) else {}) + extra
    requires forall id :: id in extra ==> next <= id < next'
    ensures LineIdsOk(carts[u := c], next')
  {
    var m := carts[u := c];
    forall v, w | v in m && w in m && v != w
      ensures LineIds(m[v].items) !! LineIds(m[w].items)
    {
      forall id | id in LineIds(m[v].items)
        ensures id !in LineIds(m[w].items)
      {
        if v == u && id in extra {
          assert w in carts;
        }
      }
    }
  }

  // ---------------------------------------------------------------------------
  // the carts table

  class CartTable {
    var carts: map<int, Cart>   // keyed by the owning user's id
    var nextCartId: int
    var nextItemId: int

    ghost predicate Valid()
      reads this
    {
      (forall u :: u in carts ==> LinesOk(carts[u], u) && carts[u].totals.subtotal == SumSubtotals(carts[u].items)) &&
      LineIdsOk(carts, nextItemId)
    }

    /** Valid, except that cart u's totals may not be recomputed yet. */
    ghost predicate ValidBut(u: int)
      reads this
    {
      (forall v :: v in carts ==>
        LinesOk(carts[v], v) && (v != u ==> carts[v].totals.subtotal == SumSubtotals(carts[v].items))) &&
      LineIdsOk(carts, nextItemId)
    }

    constructor ()
      ensures carts == map[] && Valid()
    {
      carts := map[];
      nextCartId := 1;
      nextItemId := 1;
    }

    /** getOrCreateCart: the user's cart, inserted empty on first access. */
    method GetOrCreate(u: int)
      requires Valid()
      modifies this
      ensures Valid() && u in carts
      ensures u in old(carts) ==> carts == old(carts) && nextCartId == old(nextCartId)
      ensures u !in old(carts) ==>
                carts == old(carts)[u := Cart(old(nextCartId), u, [], None, NewCartTotals)] &&
                nextCartId == old(nextCartId) + 1
      ensures nextItemId == old(nextItemId)
    {
      if u !in carts {
        LineIdsOkAfter(carts, nextItemId, u, Cart(nextCartId, u, [], None, NewCartTotals), {}, nextItemId);
        carts := carts[u := Cart(nextCartId, u, [], None, NewCartTotals)];
        nextCartId := nextCartId + 1;
      }
    }

    /** calculateTotals: subtotal, tax, shipping, discount and total, assigned in that order. */
    method CalculateTotals(u: int, coupons: map<string, Coupon>, now: int)
      requires ValidBut(u) && u in carts
      modifies this
      ensures Valid()
      ensures carts == old(carts)[u := old(carts)[u].(totals := ComputeTotals(old(carts)[u].items, old(carts)[u].couponCode, coupons, now))]
      ensures nextCartId == old(nextCartId) && nextItemId == old(nextItemId)
    {
      var c := carts[u];
      var subtotal := SumSubtotals(c.items);
      var tax := subtotal * TaxRate;
      var shipping := if subtotal >= FreeShippingFrom then 0.0 else ShippingFee;
      var discount := CartDiscount(c.couponCode, coupons, subtotal, now);
      var total := subtotal + tax + shipping - discount;
      LineIdsOkAfter(carts, nextItemId, u, c.(totals := Totals(subtotal, tax, shipping, discount, total)), {}, nextItemId);
      carts := carts[u := c.(totals := Totals(subtotal, tax, shipping, discount, total))];
    }

    /** addProduct: merge into the line for (product, variant) or add a line at the current final price. */
    method AddProduct(u: int, productId: int, variantId: Option<int>, q: int, g: Goods, coupons: map<string, Coupon>, now: int)
      requires Valid() && u in carts && WellFormed(g)
      requires productId in g.products && (variantId.Some? ==> variantId.value in g.variants) && 1 <= q
      modifies this
      ensures Valid() && u in carts
      ensures var items := AddProductLine(old(carts)[u].items, productId, variantId, UnitPrice(g, productId, variantId), q, old(nextItemId));
              carts == old(carts)[u := old(carts)[u].(items := items, totals := ComputeTotals(items, old(carts)[u].couponCode, coupons, now))]
      ensures nextCartId == old(nextCartId) && nextItemId == old(nextItemId) + 1
    {
      var c := carts[u];
      var price := UnitPrice(g, productId, variantId);
      AddProductLineEffect(c.items, productId, variantId, price, q, nextItemId);
      MergeOrAppendIds(c.items, FindProductLine(c.items, productId, variantId), q,
        CartItem(nextItemId, ProductItem, Some(productId), variantId, None, q, price, price * (q as real)));
      LineIdsOkAfter(carts, nextItemId, u, c.(items := AddProductLine(c.items, productId, variantId, price, q, nextItemId)),
        {nextItemId}, nextItemId + 1);
      carts := carts[u := c.(items := AddProductLine(c.items, productId, variantId, price, q, nextItemId))];
      nextItemId := nextItemId + 1;
      CalculateTotals(u, coupons, now);
    }

    /** addAlbum: merge into the album's line or add a line at the album's final price. */
    method AddAlbum(u: int, albumId: int, q: int, g: Goods, coupons: map<string, Coupon>, now: int)
      requires Valid() && u in carts && WellFormed(g) && albumId in g.albums && 1 <= q
      modifies this
      ensures Valid() && u in carts
      ensures var price := AlbumFinalPrice(g.albums[albumId], g.products);
              var items := AddAlbumLine(old(carts)[u].items, albumId, price, q, old(nextItemId));
              carts == old(carts)[u := old(carts)[u].(items := items, totals := ComputeTotals(items, old(carts)[u].couponCode, coupons, now))]
      ensures nextCartId == old(nextCartId) && nextItemId == old(nextItemId) + 1
    {
      var c := carts[u];
      var price := AlbumFinalPrice(g.albums[albumId], g.products);
      AddAlbumLineEffect(c.items, albumId, price, q, nextItemId);
      MergeOrAppendIds(c.items, FindAlbumLine(c.items, albumId), q,
        CartItem(nextItemId, AlbumItem, None, None, Some(albumId), q, price, price * (q as real)));
      LineIdsOkAfter(carts, nextItemId, u, c.(items := AddAlbumLine(c.items, albumId, price, q, nextItemId)),
        {nextItemId}, nextItemId + 1);
      carts := carts[u := c.(items := AddAlbumLine(c.items, albumId, price, q, nextItemId))];
      nextItemId := nextItemId + 1;
      CalculateTotals(u, coupons, now);
    }

    /** CartItem::updateQuantity on line i of the user's cart, then the cart's totals. */
    method UpdateQuantity(u: int, i: nat, q: int, coupons: map<string, Coupon>, now: int)
      requires Valid() && u in carts && i < |carts[u].items| && 1 <= q
      modifies this
      ensures Valid() && u in carts
      ensures var items := old(carts)[u].items[i := WithQuantity(old(carts)[u].items[i], q)];
              carts == old(carts)[u := old(carts)[u].(items := items, totals := ComputeTotals(items, old(carts)[u].couponCode, coupons, now))]
      ensures nextCartId == old(nextCartId) && nextItemId == old(nextItemId)
    {
      var c := carts[u];
      UpdateLineEffect(c.items, i, q);
      UpdateLineIds(c.items, i, q);
      LineIdsOkAfter(carts, nextItemId, u, c.(items := c.items[i := WithQuantity(c.items[i], q)]), {}, nextItemId);
      carts := carts[u := c.(items := c.items[i := WithQuantity(c.items[i], q)])];
      CalculateTotals(u, coupons, now);
    }

    /** removeItem: delete line i, then recompute. */
    method RemoveItem(u: int, i: nat, coupons: map<string, Coupon>, now: int)
      requires Valid() && u in carts && i < |carts[u].items|
      modifies this
      ensures Valid() && u in carts
      ensures var items := RemoveLine(old(carts)[u].items, i);
              carts == old(carts)[u := old(carts)[u].(items := items, totals := ComputeTotals(items, old(carts)[u].couponCode, coupons, now))]
      ensures nextCartId == old(nextCartId) && nextItemId == old(nextItemId)
    {
      var c := carts[u];
      RemoveLineEffect(c.items, i);
      RemoveLineIds(c.items, i);
      LineIdsOkAfter(carts, nextItemId, u, c.(items := RemoveLine(c.items, i)), {}, nextItemId);
      carts := carts[u := c.(items := RemoveLine(c.items, i))];
      CalculateTotals(u, coupons, now);
    }

    /** clear: delete every line, keep the coupon code, recompute over the empty cart. */
    method Clear(u: int, coupons: map<string, Coupon>, now: int)
      requires Valid() && u in carts
      modifies this
      ensures Valid() && u in carts
      ensures carts == old(carts)[u := Cleared(old(carts)[u], coupons, now)]
      ensures nextCartId == old(nextCartId) && nextItemId == old(nextItemId)
    {
      LineIdsOkAfter(carts, nextItemId, u, carts[u].(items := []), {}, nextItemId);
      carts := carts[u := carts[u].(items := [])];
      CalculateTotals(u, coupons, now);
    }

    /** Assign the coupon_code column, then recompute (applyCoupon and removeCoupon). */
    method SetCouponCode(u: int, code: Option<string>, coupons: map<string, Coupon>, now: int)
      requires Valid() && u in carts
      modifies this
      ensures Valid() && u in carts
      ensures carts == old(carts)[u := old(carts)[u].(couponCode := code, totals := ComputeTotals(old(carts)[u].items, code, coupons, now))]
      ensures nextCartId == old(nextCartId) && nextItemId == old(nextItemId)
    {
      LineIdsOkAfter(carts, nextItemId, u, carts[u].(couponCode := code), {}, nextItemId);
      carts := carts[u := carts[u].(couponCode := code)];
      CalculateTotals(u, coupons, now);
    }
  }
}
