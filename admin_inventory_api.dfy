/**
 * The admin's stock endpoints: overwrite a row's counters, or adjust its on-hand quantity
 * by a signed amount. Neither keeps reservations within what is on hand.
 */
module AdminInventoryApi {
  import opened Base
  import opened Inventory

  /** What adjust reports besides the row: the amount, the quantity before and after. */
  datatype Adjustment = Adjustment(row: Stock, adjustment: int, previousQuantity: int, newQuantity: int)

  /** The row after an adjustment: only the on-hand quantity moves. */
  function Adjusted(s: Stock, adjustment: int): (r: Stock)
    ensures r.quantity == s.quantity + adjustment
    ensures r.key == s.key && r.reservedQuantity == s.reservedQuantity
    ensures r.lowStockThreshold == s.lowStockThreshold && r.trackInventory == s.trackInventory
  {
    s.(quantity := s.quantity + adjustment)
  }

  /** adjust's body: an adjustment is required; a reason is optional and at most 255 characters. */
  predicate AdjustValid(adjustment: Option<int>, reason: Option<string>)
  {
    adjustment.Some? && (reason.None? || |reason.value| <= 255)
  }

  /**
   * adjust: 404 for an unknown row; 422 without an adjustment or with a reason over 255
   * characters, or when it would take the quantity below zero; otherwise the quantity moves
   * by the adjustment, and the report gives the quantity it had before. The reason is
   * validated and then not stored.
   */
  method Adjust(inv: InventoryTable, i: int, adjustment: Option<int>, reason: Option<string>) returns (r: Result<Adjustment>)
    requires inv.Valid()
    modifies inv
    ensures inv.Valid()
    ensures r.Err? ==> inv.rows == old(inv.rows)
    ensures !(0 <= i < |old(inv.rows)|) ==> r == Err(NotFound)
    ensures 0 <= i < |old(inv.rows)| && !AdjustValid(adjustment, reason) ==> r == Err(Unprocessable("Validation failed"))
    ensures 0 <= i < |old(inv.rows)| && AdjustValid(adjustment, reason) && old(inv.rows)[i].quantity + adjustment.value < 0 ==>
              r == Err(Unprocessable("Cannot reduce stock below 0"))
    ensures 0 <= i < |old(inv.rows)| && AdjustValid(adjustment, reason) && old(inv.rows)[i].quantity + adjustment.value >= 0 ==>
              inv.rows == old(inv.rows)[i := Adjusted(old(inv.rows)[i], adjustment.value)] &&
              r == Ok(Adjustment(inv.rows[i], adjustment.value, old(inv.rows)[i].quantity, inv.rows[i].quantity))
    ensures r.Ok? ==> 0 <= r.value.newQuantity && r.value.previousQuantity + r.value.adjustment == r.value.newQuantity
  {
    if !(0 <= i < |inv.rows|) {
      return Err(NotFound);
    }
    if !AdjustValid(adjustment, reason) {
      return Err(Unprocessable("Validation failed"));
    }
    var newQuantity := inv.rows[i].quantity + adjustment.value;
    if newQuantity < 0 {
      return Err(Unprocessable("Cannot reduce stock below 0"));
    }
    inv.rows := inv.rows[i := inv.rows[i].(quantity := newQuantity)];
    var previous := inv.rows[i].quantity - adjustment.value;
    return Ok(Adjustment(inv.rows[i], adjustment.value, previous, newQuantity));
  }

  /** An accepted adjustment can leave more reserved than on hand: five on hand, three reserved, minus four. */
  lemma AdjustCanBreakConsistency()
    ensures var s := Stock(StockKey(1, None), 5, 3, 10, true);
            Consistent(s) && 0 <= s.quantity + -4 && !Consistent(Adjusted(s, -4))
  {
  }

  /** An adjustment keeps the ledger invariant exactly when the new quantity still covers the reservations. */
  lemma AdjustConsistentIff(s: Stock, adjustment: int)
    requires Consistent(s)
    ensures Consistent(Adjusted(s, adjustment)) <==> s.reservedQuantity <= s.quantity + adjustment
  {
  }

  /** update's body: quantity required, threshold and reserved quantity optional, each at least zero on its own. */
  predicate UpdateValid(quantity: Option<int>, threshold: Option<int>, reserved: Option<int>)
  {
    quantity.Some? && 0 <= quantity.value &&
    (threshold.None? || 0 <= threshold.value) &&
    (reserved.None? || 0 <= reserved.value)
  }

  /** The row after update: the quantity, and whichever of threshold and reserved quantity were sent. */
  function Updated(s: Stock, quantity: int, threshold: Option<int>, reserved: Option<int>): (r: Stock)
    ensures r.key == s.key && r.trackInventory == s.trackInventory && r.quantity == quantity
    ensures r.lowStockThreshold == (if threshold.Some? then threshold.value else s.lowStockThreshold)
    ensures r.reservedQuantity == (if reserved.Some? then reserved.value else s.reservedQuantity)
  {
    s.(quantity := quantity,
       lowStockThreshold := if threshold.Some? then threshold.value else s.lowStockThreshold,
       reservedQuantity := if reserved.Some? then reserved.value else s.reservedQuantity)
  }

  /** update: 404 for an unknown row; 422 for a body that fails validation; otherwise the fields sent are written. */
  method Update(inv: InventoryTable, i: int, quantity: Option<int>, threshold: Option<int>, reserved: Option<int>)
    returns (r: Result<Stock>)
    requires inv.Valid()
    modifies inv
    ensures inv.Valid()
    ensures r.Err? ==> inv.rows == old(inv.rows)
    ensures !(0 <= i < |old(inv.rows)|) ==> r == Err(NotFound)
    ensures 0 <= i < |old(inv.rows)| && !UpdateValid(quantity, threshold, reserved) ==> r == Err(Unprocessable("Validation failed"))
    ensures 0 <= i < |old(inv.rows)| && UpdateValid(quantity, threshold, reserved) ==>
              inv.rows == old(inv.rows)[i := Updated(old(inv.rows)[i], quantity.value, threshold, reserved)] &&
              r == Ok(inv.rows[i])
  {
    if !(0 <= i < |inv.rows|) {
      return Err(NotFound);
    }
    if !UpdateValid(quantity, threshold, reserved) {
      return Err(Unprocessable("Validation failed"));
    }
    var s := Updated(inv.rows[i], quantity.value, threshold, reserved);
    inv.rows := inv.rows[i := s];
    return Ok(s);
  }

  /** update accepts a reserved quantity above the quantity it sets, since the two are validated apart. */
  lemma UpdateCanBreakConsistency()
    ensures var s := Stock(StockKey(1, None), 5, 0, 10, true);
            UpdateValid(Some(2), None, Some(4)) && !Consistent(Updated(s, 2, None, Some(4)))
  {
  }

  /** An accepted update always leaves non-negative counters; the ledger invariant holds iff reserved fits. */
  lemma UpdateConsistentIff(s: Stock, quantity: Option<int>, threshold: Option<int>, reserved: Option<int>)
    requires Consistent(s) && UpdateValid(quantity, threshold, reserved)
    ensures var u := Updated(s, quantity.value, threshold, reserved);
            0 <= u.quantity && 0 <= u.reservedQuantity &&
            (Consistent(u) <==> u.reservedQuantity <= u.quantity)
  {
  }
}
