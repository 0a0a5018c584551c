/** Cart lines: a product (optionally a variant) or an album, with a unit price frozen when added. */
module CartItems {
  import opened Base
  import opened Inventory
  import opened Products
  import opened Variants
  import opened Albums
  import opened Catalog

  datatype ItemType = ProductItem | AlbumItem

  /** One row of cart_items. */
  datatype CartItem = CartItem(
    id: int,
    itemType: ItemType,
    productId: Option<int>,
    variantId: Option<int>,
    albumId: Option<int>,
    quantity: int,
    price: real,      // unit price when the line was created
    subtotal: real)

  /** A line's subtotal is its unit price times its quantity. */
  predicate LineConsistent(it: CartItem)
  {
    it.subtotal == it.price * (it.quantity as real)
  }

  /** updateQuantity on the line itself: new quantity, subtotal recomputed, the frozen price kept. */
  function WithQuantity(it: CartItem, q: int): (r: CartItem)
    ensures r.quantity == q && LineConsistent(r)
    ensures r == it.(quantity := q, subtotal := r.subtotal)
  {
    it.(quantity := q, subtotal := it.price * (q as real))
  }

  /** The line's references exist: the album for album lines, the product and any variant for product lines. */
  predicate RefsKnown(it: CartItem, g: Goods)
  {
    match it.itemType
    case AlbumItem => it.albumId.Some? && it.albumId.value in g.albums
    case ProductItem =>
      it.productId.Some? && it.productId.value in g.products &&
      (it.variantId.Some? ==> it.variantId.value in g.variants)
  }

  /** The name attribute: the album's name, or the product's name followed by the variant's name. */
  function ItemName(it: CartItem, g: Goods): (name: string)
    requires RefsKnown(it, g)
    ensures it.itemType.AlbumItem? ==> name == g.albums[it.albumId.value].name
    ensures it.itemType.ProductItem? ==> g.products[it.productId.value].name <= name
    ensures it.itemType.ProductItem? && it.variantId.None? ==> name == g.products[it.productId.value].name
    ensures it.itemType.ProductItem? && it.variantId.Some? ==>
              name == g.products[it.productId.value].name + " - " + g.variants[it.variantId.value].variantName
  {
    match it.itemType
    case AlbumItem => g.albums[it.albumId.value].name
    case ProductItem =>
      var base := g.products[it.productId.value].name;
      if it.variantId.Some? then base + " - " + g.variants[it.variantId.value].variantName else base
  }

  /** The ledger key a product line is checked against (ids are positive, so a set variant id is truthy). */
  function LineStockKey(it: CartItem): StockKey
    requires it.productId.Some?
  {
    StockKey(it.productId.value, it.variantId)
  }

  /**
   * isInStock: an album line defers to the album's check (ignoring the line's own quantity);
   * a product line needs its row to exist with at least the line's quantity available.
   */
  predicate ItemInStock(it: CartItem, rows: seq<Stock>, g: Goods)
    requires RefsKnown(it, g)
  {
    match it.itemType
    case AlbumItem => AlbumInStock(rows, g.albums[it.albumId.value])
    case ProductItem =>
      match RowFor(rows, LineStockKey(it))
      case None => false
      case Some(s) => AvailableQuantity(s) >= it.quantity
  }

  /** A product line that passes the stock check can reserve its quantity on the first row for its key. */
  lemma InStockLineIsReservable(it: CartItem, rows: seq<Stock>, g: Goods)
    requires RefsKnown(it, g) && it.itemType.ProductItem? && ItemInStock(it, rows, g)
    ensures FindRow(rows, LineStockKey(it)).Some?
    ensures CanReserve(rows[FindRow(rows, LineStockKey(it)).value], it.quantity)
  {
  }
}
