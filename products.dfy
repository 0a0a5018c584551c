/** Products: their price rules and the stock figures derived from the inventory ledger. */
module Products {
  import opened Base
  import opened Inventory

  /** The columns of a product the storefront logic reads. */
  datatype Product = Product(id: int, name: string, sku: string, price: real, salePrice: Option<real>)

  /** The admin forms accept only non-negative prices and sale prices. */
  predicate ValidPrices(p: Product)
  {
    0.0 <= p.price && (p.salePrice.None? || 0.0 <= p.salePrice.value)
  }

  /** final_price: the sale price whenever one is set, the list price otherwise. */
  function FinalPrice(p: Product): (r: real)
    ensures p.salePrice.Some? ==> r == p.salePrice.value
    ensures p.salePrice.None? ==> r == p.price
  {
    if p.salePrice.Some? then p.salePrice.value else p.price
  }

  /** Nothing requires the sale price to be the lower one: a "sale" can raise the price. */
  lemma SalePriceMayExceedPrice()
    ensures FinalPrice(Product(1, "p", "P-1", 100.0, Some(120.0))) > 100.0
  {
  }

  /**
   * discount_percentage, without the rounding to two places: zero unless a sale price is set
   * and strictly below the price; otherwise the share of the price the sale takes off.
   */
  function DiscountPercentage(p: Product): (d: real)
    requires ValidPrices(p)
    ensures p.salePrice.None? || p.price <= p.salePrice.value ==> d == 0.0
    ensures p.salePrice.Some? && p.salePrice.value < p.price ==> 0.0 < d <= 100.0
    ensures p.salePrice.Some? && p.salePrice.value < p.price ==>
              FinalPrice(p) == p.price * (1.0 - d / 100.0)
  {
    if p.salePrice.Some? && p.price > p.salePrice.value then
      var d := ((p.price - p.salePrice.value) / p.price) * 100.0;
      DiscountMatchesSale(p.price, p.salePrice.value, d);
      d
    else 0.0
  }

  lemma DiscountMatchesSale(price: real, sale: real, d: real)
    requires sale < price && price != 0.0 && d == ((price - sale) / price) * 100.0
    ensures 0.0 <= sale ==> 0.0 < d <= 100.0
    ensures sale == price * (1.0 - d / 100.0)
  {
    var f := (price - sale) / price;
    assert f * price == price - sale;
    assert d / 100.0 == f;
    calc {
      price * (1.0 - d / 100.0);
      price * (1.0 - f);
      price - f * price;
      sale;
    }
    if 0.0 <= sale {
      assert 0.0 < price;
      assert price - sale <= price;
      assert f <= 1.0;
      assert 0.0 < f;
    }
  }

  /** total_stock: the on-hand quantity summed over every inventory row of the product, base and variants. */
  function TotalStock(rows: seq<Stock>, productId: int): (t: int)
    ensures (forall i :: 0 <= i < |rows| ==> rows[i].quantity >= 0) ==> t >= 0
    ensures (forall i :: 0 <= i < |rows| ==> rows[i].key.productId != productId) ==> t == 0
  {
    if |rows| == 0 then 0
    else (if rows[0].key.productId == productId then rows[0].quantity else 0) + TotalStock(rows[1..], productId)
  }

  /** Two ledgers with the same keys and the same on-hand quantities, row by row. */
  predicate SameOnHand(rows: seq<Stock>, rows': seq<Stock>)
  {
    |rows| == |rows'| &&
    forall i :: 0 <= i < |rows| ==> rows[i].key == rows'[i].key && rows[i].quantity == rows'[i].quantity
  }

  /** total_stock, and so product isInStock, does not see reservations or the tracking flag. */
  lemma {:induction false} TotalStockIgnoresReservations(rows: seq<Stock>, rows': seq<Stock>, productId: int)
    requires SameOnHand(rows, rows')
    ensures TotalStock(rows, productId) == TotalStock(rows', productId)
  {
    if |rows| > 0 {
      assert SameOnHand(rows[1..], rows'[1..]) by {
        forall i | 0 <= i < |rows| - 1
          ensures rows[1..][i].key == rows'[1..][i].key && rows[1..][i].quantity == rows'[1..][i].quantity
        {
          assert rows[1..][i] == rows[i + 1] && rows'[1..][i] == rows'[i + 1];
        }
      }
      TotalStockIgnoresReservations(rows[1..], rows'[1..], productId);
    }
  }

  /** Reserving stock on any row leaves every product's total_stock unchanged. */
  lemma ReserveKeepsTotalStock(rows: seq<Stock>, i: nat, q: int, productId: int)
    requires i < |rows|
    ensures TotalStock(rows[i := Reserved(rows[i], q)], productId) == TotalStock(rows, productId)
    ensures TotalStock(rows[i := Released(rows[i], q)], productId) == TotalStock(rows, productId)
  {
    TotalStockIgnoresReservations(rows, rows[i := Reserved(rows[i], q)], productId);
    TotalStockIgnoresReservations(rows, rows[i := Released(rows[i], q)], productId);
  }

  /** Product isInStock: some on-hand quantity in total. */
  predicate ProductInStock(rows: seq<Stock>, productId: int)
  {
    TotalStock(rows, productId) > 0
  }

  /** A fully reserved product still counts as in stock, unlike its inventory row. */
  lemma FullyReservedProductInStock()
    ensures var row := Stock(StockKey(1, None), 5, 5, 10, true);
            ProductInStock([row], 1) && !Inventory.IsInStock(row)
  {
    assert [Stock(StockKey(1, None), 5, 5, 10, true)][1..] == [];
  }

  /** The base inventory: the product's row without a variant. */
  function BaseInventory(rows: seq<Stock>, productId: int): (r: Option<Stock>)
    ensures r.Some? ==> r.value in rows && r.value.key == StockKey(productId, None)
    ensures r.None? ==> forall s :: s in rows ==> s.key != StockKey(productId, None)
  {
    RowFor(rows, StockKey(productId, None))
  }

  /** The onSale scope: products with a sale price, in their listed order. */
  function OnSale(products: seq<Product>): (r: seq<Product>)
    ensures forall p :: p in r <==> p in products && p.salePrice.Some?
    ensures |r| <= |products|
  {
    if |products| == 0 then []
    else (if products[0].salePrice.Some? then [products[0]] else []) + OnSale(products[1..])
  }
}
