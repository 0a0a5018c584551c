/** Albums: bundles of products sold together, with a bundle price and a bundle stock check. */
module Albums {
  import opened Base
  import opened Inventory
  import opened Products

  /** One album_product pivot row: a product, optionally pinned to a variant, and how many of it. */
  datatype Member = Member(productId: int, variantId: Option<int>, quantity: int)

  /** The columns of an album the storefront logic reads; members in sort order. */
  datatype Album = Album(
    id: int, name: string, slug: string,
    price: Option<real>,          // a fixed bundle price, when set
    discountPercentage: real,     // NOT NULL, default 0
    members: seq<Member>)

  /** Every member names a known product (the pivot's foreign key). */
  predicate MembersKnown(members: seq<Member>, products: map<int, Product>)
  {
    forall i :: 0 <= i < |members| ==> members[i].productId in products
  }

  /** One member's share of calculated_price: its product's final price times its pivot quantity. */
  function LineTotal(productId: int, quantity: int, products: map<int, Product>): real
    requires productId in products
  {
    FinalPrice(products[productId]) * (quantity as real)
  }

  /** calculated_price: the members' product final prices times their pivot quantities. */
  function CalculatedPrice(members: seq<Member>, products: map<int, Product>): (r: real)
    requires MembersKnown(members, products)
    ensures (forall i :: 0 <= i < |members| ==>
               0.0 <= FinalPrice(products[members[i].productId]) && 0 <= members[i].quantity) ==> 0.0 <= r
    ensures |members| == 0 ==> r == 0.0
  {
    if |members| == 0 then 0.0
    else
      var m := members[0];
      LineTotal(m.productId, m.quantity, products) + CalculatedPrice(members[1..], products)
  }

  /** The pinned variant plays no part in calculated_price: variant adjustments are ignored. */
  lemma {:induction false} CalculatedPriceIgnoresVariants(members: seq<Member>, members': seq<Member>, products: map<int, Product>)
    requires MembersKnown(members, products) && |members'| == |members|
    requires forall i :: 0 <= i < |members| ==>
               members'[i].productId == members[i].productId && members'[i].quantity == members[i].quantity
    ensures MembersKnown(members', products)
    ensures CalculatedPrice(members', products) == CalculatedPrice(members, products)
  {
    if |members| > 0 {
      var tail, tail' := members[1..], members'[1..];
      assert forall i :: 0 <= i < |tail| ==> tail[i] == members[i + 1] && tail'[i] == members'[i + 1];
      CalculatedPriceIgnoresVariants(tail, tail', products);
      assert members'[0].productId == members[0].productId && members'[0].quantity == members[0].quantity;
    }
  }

  /** The price before the bundle discount: the fixed price if set, else the calculated one. */
  function BasePrice(a: Album, products: map<int, Product>): real
    requires MembersKnown(a.members, products)
  {
    if a.price.Some? then a.price.value else CalculatedPrice(a.members, products)
  }

  /** final_price: the base price less the discount percentage, applied only when it is positive. */
  function AlbumFinalPrice(a: Album, products: map<int, Product>): (r: real)
    requires MembersKnown(a.members, products)
    ensures a.discountPercentage <= 0.0 ==> r == BasePrice(a, products)
    ensures 0.0 <= BasePrice(a, products) && a.discountPercentage <= 100.0 ==> 0.0 <= r <= BasePrice(a, products)
  {
    var base := BasePrice(a, products);
    if a.discountPercentage > 0.0 then
      DiscountBounds(base, a.discountPercentage);
      base * (1.0 - a.discountPercentage / 100.0)
    else base
  }

  lemma DiscountBounds(base: real, d: real)
    requires 0.0 < d
    ensures 0.0 <= base && d <= 100.0 ==> 0.0 <= base * (1.0 - d / 100.0) <= base
  {
    if 0.0 <= base && d <= 100.0 {
      var f := 1.0 - d / 100.0;
      assert 0.0 <= f <= 1.0;
      assert base * f <= base * 1.0;
    }
  }

  /** savings: how much the bundle saves against the calculated price, never negative. */
  function Savings(a: Album, products: map<int, Product>): (r: real)
    requires MembersKnown(a.members, products)
    ensures 0.0 <= r
    ensures r >= CalculatedPrice(a.members, products) - AlbumFinalPrice(a, products)
    ensures r == 0.0 || r == CalculatedPrice(a.members, products) - AlbumFinalPrice(a, products)
  {
    MaxReal(0.0, CalculatedPrice(a.members, products) - AlbumFinalPrice(a, products))
  }

  /** Without a fixed price, a discount in range saves exactly that share of the calculated price. */
  lemma SavingsIsTheDiscount(a: Album, products: map<int, Product>)
    requires MembersKnown(a.members, products)
    requires a.price.None? && 0.0 <= a.discountPercentage <= 100.0
    requires 0.0 <= CalculatedPrice(a.members, products)
    ensures Savings(a, products) == CalculatedPrice(a.members, products) * (a.discountPercentage / 100.0)
  {
    var c := CalculatedPrice(a.members, products);
    var d := a.discountPercentage;
    if d > 0.0 {
      assert AlbumFinalPrice(a, products) == c * (1.0 - d / 100.0);
      assert c - c * (1.0 - d / 100.0) == c * (d / 100.0);
      assert 0.0 <= c * (d / 100.0);
    }
  }

  // ---------------------------------------------------------------------------
  // the bundle stock check

  /** The inventory row a member is checked against: its pinned variant's, or the product's base row. */
  function MemberKey(m: Member): StockKey
  {
    StockKey(m.productId, m.variantId)
  }

  /** A member is covered when its row exists and has at least the pivot quantity available. */
  predicate MemberInStock(rows: seq<Stock>, m: Member)
  {
    match RowFor(rows, MemberKey(m))
    case None => false
    case Some(s) => AvailableQuantity(s) >= m.quantity
  }

  /** isInStock: every member is covered; an album without members is in stock. */
  predicate AlbumInStock(rows: seq<Stock>, a: Album)
  {
    forall i :: 0 <= i < |a.members| ==> MemberInStock(rows, a.members[i])
  }

  /** isInStock, as the early-exit loop the source writes. */
  method CheckAlbumInStock(rows: seq<Stock>, a: Album) returns (inStock: bool)
    ensures inStock == AlbumInStock(rows, a)
    ensures !inStock ==> exists i :: 0 <= i < |a.members| && !MemberInStock(rows, a.members[i])
  {
    var i := 0;
    while i < |a.members|
      invariant 0 <= i <= |a.members|
      invariant forall j :: 0 <= j < i ==> MemberInStock(rows, a.members[j])
    {
      var m := a.members[i];
      var row := RowFor(rows, MemberKey(m));
      if row.None? || AvailableQuantity(row.value) < m.quantity {
        return false;
      }
      i := i + 1;
    }
    return true;
  }
}
