/**
 * The inventory ledger: one row of stock counters per (product, variant),
 * with the reserve / release / deduct operations the order lifecycle uses.
 */
module Inventory {
  import opened Base

  /** The unique key of an inventory row; `variantId` is None for a product's base row. */
  datatype StockKey = StockKey(productId: int, variantId: Option<int>)

  /** One row of the inventory table. */
  datatype Stock = Stock(
    key: StockKey,
    quantity: int,           // on hand
    reservedQuantity: int,   // held by orders that are neither delivered nor cancelled
    lowStockThreshold: int,
    trackInventory: bool)

  /**
   * Reservations never exceed what is on hand. Reserve, release and deduct keep this;
   * an admin adjust or update can break it.
   */
  predicate Consistent(s: Stock)
  {
    0 <= s.reservedQuantity <= s.quantity
  }

  predicate AllConsistent(rows: seq<Stock>)
  {
    forall i :: 0 <= i < |rows| ==> Consistent(rows[i])
  }

  /**
   * At most one row per (product, variant). For variant rows this is the table's unique
   * index; MySQL's index treats NULLs as distinct, so one base row per product is kept by
   * the application creating one row per new product, not by the database.
   */
  ghost predicate UniqueKeys(rows: seq<Stock>)
  {
    forall i, j :: 0 <= i < j < |rows| ==> rows[i].key != rows[j].key
  }

  /** available_quantity: what is on hand and not reserved, never below zero. */
  function AvailableQuantity(s: Stock): (a: int)
    ensures a >= 0 && a >= s.quantity - s.reservedQuantity
    ensures a == 0 || a == s.quantity - s.reservedQuantity
  {
    MaxInt(0, s.quantity - s.reservedQuantity)
  }

  /** is_low_stock: a tracked row whose available quantity is at or below its threshold. */
  predicate IsLowStock(s: Stock)
  {
    s.trackInventory && AvailableQuantity(s) <= s.lowStockThreshold
  }

  /** isInStock: untracked rows are always in stock, tracked ones while something is available. */
  predicate IsInStock(s: Stock)
  {
    !s.trackInventory || AvailableQuantity(s) > 0
  }

  lemma InStockIff(s: Stock)
    ensures IsInStock(s) <==> !s.trackInventory || s.quantity - s.reservedQuantity > 0
    ensures IsLowStock(s) <==> s.trackInventory && MaxInt(0, s.quantity - s.reservedQuantity) <= s.lowStockThreshold
  {
  }

  // ---------------------------------------------------------------------------
  // reserve, release and deduct, as transitions of one row

  /** reserve(q) succeeds exactly when that much is available. */
  predicate CanReserve(s: Stock, q: int)
  {
    AvailableQuantity(s) >= q
  }

  /** The row after reserve(q). */
  function Reserved(s: Stock, q: int): (r: Stock)
    ensures r.key == s.key && r.quantity == s.quantity
    ensures r.lowStockThreshold == s.lowStockThreshold && r.trackInventory == s.trackInventory
    ensures !CanReserve(s, q) ==> r == s
    ensures 0 <= q && CanReserve(s, q) ==> AvailableQuantity(r) == AvailableQuantity(s) - q
  {
    if AvailableQuantity(s) >= q then s.(reservedQuantity := s.reservedQuantity + q) else s
  }

  /** The row after release(q): the reservation shrinks by q, floored at zero. */
  function Released(s: Stock, q: int): (r: Stock)
    ensures r.key == s.key && r.quantity == s.quantity
    ensures r.lowStockThreshold == s.lowStockThreshold && r.trackInventory == s.trackInventory
    ensures r.reservedQuantity >= 0
    ensures 0 <= q <= s.reservedQuantity ==> r.reservedQuantity == s.reservedQuantity - q
    ensures q >= s.reservedQuantity ==> r.reservedQuantity == 0
  {
    s.(reservedQuantity := MaxInt(0, s.reservedQuantity - q))
  }

  /** deduct(q) succeeds exactly when that much is on hand, whatever is reserved. */
  predicate CanDeduct(s: Stock, q: int)
  {
    s.quantity >= q
  }

  /** The row after deduct(q): on hand and reserved both shrink by q, reserved floored at zero. */
  function Deducted(s: Stock, q: int): (r: Stock)
    ensures r.key == s.key
    ensures r.lowStockThreshold == s.lowStockThreshold && r.trackInventory == s.trackInventory
    ensures !CanDeduct(s, q) ==> r == s
    ensures CanDeduct(s, q) ==> r.quantity == s.quantity - q && r.quantity >= 0
    ensures CanDeduct(s, q) ==> r.reservedQuantity == MaxInt(0, s.reservedQuantity - q)
  {
    if s.quantity >= q then
      s.(quantity := s.quantity - q, reservedQuantity := MaxInt(0, s.reservedQuantity - q))
    else s
  }

  /** For non-negative quantities, each of the three operations keeps 0 <= reserved <= on hand. */
  lemma OperationsPreserveConsistency(s: Stock, q: int)
    requires Consistent(s) && 0 <= q
    ensures Consistent(Reserved(s, q))
    ensures Consistent(Released(s, q))
    ensures Consistent(Deducted(s, q))
  {
  }

  /** On a consistent row, releasing q makes at least as much available again, and never more than q. */
  lemma ReleaseFreesStock(s: Stock, q: int)
    requires Consistent(s) && 0 <= q
    ensures AvailableQuantity(s) <= AvailableQuantity(Released(s, q)) <= AvailableQuantity(s) + q
  {
  }

  // ---------------------------------------------------------------------------
  // lookups and scopes

  /** The first row with the given key, as `Inventory::where(...)->first()` finds it. */
  function FindRow(rows: seq<Stock>, key: StockKey): (r: Option<nat>)
    ensures r.Some? ==> r.value < |rows| && rows[r.value].key == key
    ensures r.Some? ==> forall j :: 0 <= j < r.value ==> rows[j].key != key
    ensures r.None? ==> forall j :: 0 <= j < |rows| ==> rows[j].key != key
  {
    if |rows| == 0 then None
    else if rows[0].key == key then Some(0)
    else match FindRow(rows[1..], key)
      case None => None
      case Some(j) => Some(j + 1)
  }

  /** The row with the given key, if there is one. */
  function RowFor(rows: seq<Stock>, key: StockKey): (r: Option<Stock>)
    ensures r.Some? <==> exists j :: 0 <= j < |rows| && rows[j].key == key
    ensures r.Some? ==> r.value in rows && r.value.key == key
  {
    match FindRow(rows, key)
    case None => None
    case Some(i) => Some(rows[i])
  }

  /** The outOfStock scope: tracked rows whose raw difference quantity - reserved is at most zero. */
  function OutOfStockScope(rows: seq<Stock>): (r: seq<Stock>)
    ensures forall s :: s in r <==> s in rows && s.trackInventory && !IsInStock(s)
  {
    if |rows| == 0 then []
    else
      var head := if rows[0].trackInventory && rows[0].quantity - rows[0].reservedQuantity <= 0
                  then [rows[0]] else [];
      head + OutOfStockScope(rows[1..])
  }

  /**
   * The lowStock scope compares the raw difference with the threshold. It selects exactly
   * the rows whose is_low_stock flag is set as long as the threshold is not negative.
   */
  function LowStockScope(rows: seq<Stock>): (r: seq<Stock>)
    ensures forall s :: s in r ==> s in rows && s.trackInventory
    ensures forall s :: s in rows && s.lowStockThreshold >= 0 ==> (s in r <==> IsLowStock(s))
  {
    if |rows| == 0 then []
    else
      var head := if rows[0].quantity - rows[0].reservedQuantity <= rows[0].lowStockThreshold && rows[0].trackInventory
                  then [rows[0]] else [];
      head + LowStockScope(rows[1..])
  }

  /** A row created without explicit counters: reserved 0 and tracking on, per the migration defaults. */
  function NewStock(key: StockKey, quantity: int, threshold: Option<int>): (s: Stock)
    ensures s.key == key && s.quantity == quantity && s.reservedQuantity == 0 && s.trackInventory
    ensures quantity >= 0 ==> Consistent(s)
  {
    Stock(key, quantity, 0, if threshold.Some? then threshold.value else 10, true)
  }

  // ---------------------------------------------------------------------------
  // the inventory table

  class InventoryTable {
    var rows: seq<Stock>

    ghost predicate Valid()
      reads this
    {
      UniqueKeys(rows)
    }

    constructor ()
      ensures rows == [] && Valid()
    {
      rows := [];
    }

    /**
     * Inserting a second row for a key inserts nothing. For a variant key this is the unique
     * index refusing it; for a base key it is the one-base-row-per-product rule above.
     */
    method Create(key: StockKey, quantity: int, threshold: Option<int>) returns (ok: bool)
      requires Valid()
      modifies this
      ensures Valid()
      ensures ok == FindRow(old(rows), key).None?
      ensures rows == if ok then old(rows) + [NewStock(key, quantity, threshold)] else old(rows)
    {
      ok := FindRow(rows, key).None?;
      if ok {
        rows := rows + [NewStock(key, quantity, threshold)];
      }
    }

    /** Inventory::reserve on row i. */
    method Reserve(i: nat, q: int) returns (ok: bool)
      requires Valid() && i < |rows|
      modifies this
      ensures Valid()
      ensures ok == CanReserve(old(rows)[i], q)
      ensures rows == old(rows)[i := Reserved(old(rows)[i], q)]
    {
      var s := rows[i];
      if AvailableQuantity(s) >= q {
        rows := rows[i := s.(reservedQuantity := s.reservedQuantity + q)];
        ok := true;
      } else {
        ok := false;
      }
    }

    /** Inventory::release on row i; it always succeeds. */
    method Release(i: nat, q: int) returns (ok: bool)
      requires Valid() && i < |rows|
      modifies this
      ensures Valid() && ok
      ensures rows == old(rows)[i := Released(old(rows)[i], q)]
    {
      var s := rows[i];
      rows := rows[i := s.(reservedQuantity := MaxInt(0, s.reservedQuantity - q))];
      ok := true;
    }

    /** Inventory::deduct on row i. */
    method Deduct(i: nat, q: int) returns (ok: bool)
      requires Valid() && i < |rows|
      modifies this
      ensures Valid()
      ensures ok == CanDeduct(old(rows)[i], q)
      ensures rows == old(rows)[i := Deducted(old(rows)[i], q)]
    {
      var s := rows[i];
      if s.quantity >= q {
        rows := rows[i := s.(quantity := s.quantity - q, reservedQuantity := MaxInt(0, s.reservedQuantity - q))];
        ok := true;
      } else {
        ok := false;
      }
    }
  }
}
