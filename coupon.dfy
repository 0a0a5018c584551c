/** Discount coupons: validity, the discount they grant and their usage counter. */
module Coupons {
  import opened Base

  datatype DiscountType = Percentage | Fixed

  /** One row of the coupons table; dates are instants on the model's clock. */
  datatype Coupon = Coupon(
    code: string,
    discountType: DiscountType,
    value: real,
    minPurchaseAmount: real,          // NOT NULL, default 0
    maxDiscountAmount: Option<real>,  // caps percentage discounts when set
    usageLimit: Option<int>,          // total uses; null or 0 means unlimited
    usagePerUser: int,
    usedCount: int,
    isActive: bool,
    startDate: Option<int>,
    endDate: Option<int>)

  /** The validity window, both ends inclusive, each end open when unset. */
  predicate InWindow(c: Coupon, now: int)
  {
    (c.startDate.None? || c.startDate.value <= now) &&
    (c.endDate.None? || now <= c.endDate.value)
  }

  /** The total usage limit is in force (an integer cast, so 0 counts as unset) and used up. */
  predicate LimitReached(c: Coupon)
  {
    c.usageLimit.Some? && c.usageLimit.value != 0 && c.usedCount >= c.usageLimit.value
  }

  /**
   * isValid: the guards are checked in order, the first failing one answers false.
   * `userUsage` is the number of the user's orders that carry this code, None when
   * no user is given.
   */
  function IsValid(c: Coupon, amount: real, now: int, userUsage: Option<int>): (ok: bool)
    ensures ok ==> c.isActive && InWindow(c, now)
    ensures ok ==> amount >= c.minPurchaseAmount && !LimitReached(c)
    ensures ok && userUsage.Some? ==> userUsage.value < c.usagePerUser
    ensures (c.isActive && InWindow(c, now) && amount >= c.minPurchaseAmount && !LimitReached(c) &&
             (userUsage.None? || userUsage.value < c.usagePerUser)) ==> ok
  {
    if !c.isActive then false
    else if c.startDate.Some? && now < c.startDate.value then false
    else if c.endDate.Some? && now > c.endDate.value then false
    else if amount < c.minPurchaseAmount then false
    else if c.usageLimit.Some? && c.usageLimit.value != 0 && c.usedCount >= c.usageLimit.value then false
    else if userUsage.Some? && userUsage.value >= c.usagePerUser then false
    else true
  }

  /** A coupon valid for an amount stays valid for any larger amount and without the per-user check. */
  lemma ValidityMonotone(c: Coupon, amount: real, larger: real, now: int, userUsage: Option<int>)
    requires IsValid(c, amount, now, userUsage) && amount <= larger
    ensures IsValid(c, larger, now, userUsage)
    ensures IsValid(c, amount, now, None)
  {
  }

  /** The percentage of an amount, before any cap. */
  function PercentOf(amount: real, percent: real): (d: real)
    ensures 0.0 <= amount && 0.0 <= percent ==> 0.0 <= d
    ensures 0.0 <= amount && 0.0 <= percent <= 100.0 ==> d <= amount
    ensures 0.0 < amount && 0.0 < percent ==> 0.0 < d
  {
    PercentBound(amount, percent);
    amount * (percent / 100.0)
  }

  lemma PercentBound(amount: real, percent: real)
    ensures 0.0 <= amount && 0.0 <= percent ==> 0.0 <= amount * (percent / 100.0)
    ensures 0.0 <= amount && 0.0 <= percent <= 100.0 ==> amount * (percent / 100.0) <= amount
    ensures 0.0 < amount && 0.0 < percent ==> 0.0 < amount * (percent / 100.0)
  {
    if 0.0 <= amount && 0.0 <= percent <= 100.0 {
      assert amount * (percent / 100.0) <= amount * 1.0;
    }
  }

  /**
   * calculateDiscount: nothing for a coupon that is not valid for the amount (checked
   * without a user); a percentage of the amount, capped when a maximum is set; or the fixed
   * value, never more than the amount.
   */
  function CalculateDiscount(c: Coupon, amount: real, now: int): (d: real)
    ensures !IsValid(c, amount, now, None) ==> d == 0.0
    ensures 0.0 <= c.value && 0.0 <= amount && (c.maxDiscountAmount.None? || 0.0 <= c.maxDiscountAmount.value) ==> 0.0 <= d
    ensures c.discountType.Fixed? ==> d <= amount || d == 0.0
    ensures c.discountType.Percentage? && 0.0 <= amount && c.value <= 100.0 ==> d <= amount
    ensures c.discountType.Percentage? && c.maxDiscountAmount.Some? && IsValid(c, amount, now, None)
            ==> d <= c.maxDiscountAmount.value
  {
    if !IsValid(c, amount, now, None) then 0.0
    else if c.discountType.Percentage? then
      var raw := PercentOf(amount, c.value);
      if c.maxDiscountAmount.Some? then MinReal(raw, c.maxDiscountAmount.value) else raw
    else MinReal(c.value, amount)
  }

  /**
   * A percentage coupon whose value exceeds 100 grants more than the amount: the value is
   * only validated to be non-negative, so the bound above needs value <= 100.
   */
  lemma PercentageAboveHundredExceedsAmount()
    ensures var c := Coupon("BIG", Percentage, 150.0, 0.0, None, None, 1, 0, true, None, None);
            CalculateDiscount(c, 100.0, 0) == 150.0
  {
  }

  /** The active scope: active coupons whose window contains `now`. */
  function ActiveCodes(coupons: map<string, Coupon>, now: int): (r: set<string>)
    ensures forall k :: k in r <==> k in coupons && coupons[k].isActive && InWindow(coupons[k], now)
  {
    set k | k in coupons && coupons[k].isActive && InWindow(coupons[k], now)
  }

  /** Every coupon that isValid judges valid is in the active scope; the converse fails on amounts and limits. */
  lemma ValidImpliesActive(coupons: map<string, Coupon>, k: string, amount: real, now: int, userUsage: Option<int>)
    requires k in coupons && IsValid(coupons[k], amount, now, userUsage)
    ensures k in ActiveCodes(coupons, now)
  {
  }

  /** Counting one more use can only invalidate a coupon, never validate one. */
  lemma IncrementNeverValidates(c: Coupon, amount: real, now: int, userUsage: Option<int>)
    requires IsValid(c.(usedCount := c.usedCount + 1), amount, now, userUsage)
    ensures IsValid(c, amount, now, userUsage)
  {
  }

  /** The coupons table, keyed by its unique code. */
  class CouponTable {
    var coupons: map<string, Coupon>

    ghost predicate Valid()
      reads this
    {
      forall k :: k in coupons ==> coupons[k].code == k
    }

    constructor ()
      ensures coupons == map[] && Valid()
    {
      coupons := map[];
    }

    /** incrementUsage: used_count goes up by one, nothing else changes. */
    method IncrementUsage(code: string)
      requires Valid() && code in coupons
      modifies this
      ensures Valid()
      ensures coupons == old(coupons)[code := old(coupons)[code].(usedCount := old(coupons)[code].usedCount + 1)]
    {
      var c := coupons[code];
      coupons := coupons[code := c.(usedCount := c.usedCount + 1)];
    }
  }
}
