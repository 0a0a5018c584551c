/**
 * The coupon check a signed-in customer runs before checkout: validation, lookup by code,
 * the validity rules (with this user's past uses), and the discount it would grant.
 */
module CouponApi {
  import opened Base
  import opened Coupons
  import Orders

  /**
   * validate: a missing or empty code, or a missing or negative amount, is 422; an unknown
   * code is 404; a coupon that is not valid for the amount, now, for this user, is 400;
   * otherwise the discount the coupon grants on the amount.
   */
  function Validate(code: Option<string>, amount: Option<real>, coupons: map<string, Coupon>,
                    orders: seq<Orders.Order>, userId: int, now: int): (r: Result<real>)
    ensures !Required(code) || amount.None? || amount.value < 0.0 ==> r == Err(Unprocessable("Validation failed"))
    ensures Required(code) && amount.Some? && 0.0 <= amount.value ==>
              (code.value !in coupons ==> r == Err(NotFound)) &&
              (code.value in coupons && !IsValid(coupons[code.value], amount.value, now, Some(Orders.CouponUses(orders, userId, code.value))) ==>
                 r == Err(BadRequest("Coupon is not valid or has expired")))
    ensures r.Ok? <==> Required(code) && amount.Some? && 0.0 <= amount.value && code.value in coupons &&
                       IsValid(coupons[code.value], amount.value, now, Some(Orders.CouponUses(orders, userId, code.value)))
    ensures r.Ok? ==> r.value == CalculateDiscount(coupons[code.value], amount.value, now)
  {
    if !Required(code) || amount.None? || amount.value < 0.0 then Err(Unprocessable("Validation failed"))
    else if code.value !in coupons then Err(NotFound)
    else
      var c := coupons[code.value];
      if !IsValid(c, amount.value, now, Some(Orders.CouponUses(orders, userId, code.value))) then
        Err(BadRequest("Coupon is not valid or has expired"))
      else Ok(CalculateDiscount(c, amount.value, now))
  }

  /** `required|string`: present and not the empty string ("0" passes, unlike PHP truthiness). */
  predicate Required(s: Option<string>)
  {
    s.Some? && s.value != ""
  }

  /**
   * A validated discount is what checkout would grant: never negative and never more than
   * the amount for a coupon within the admin form's limits; and it is positive whenever
   * the coupon's value, the amount and any cap are (a cap of 0 grants nothing).
   */
  lemma ValidatedDiscountBounds(code: Option<string>, amount: Option<real>, coupons: map<string, Coupon>,
                                orders: seq<Orders.Order>, userId: int, now: int)
    requires Validate(code, amount, coupons, orders, userId, now).Ok?
    requires var c := coupons[code.value];
             0.0 <= c.value && (c.maxDiscountAmount.None? || 0.0 <= c.maxDiscountAmount.value) &&
             (c.discountType.Percentage? ==> c.value <= 100.0)
    ensures var d := Validate(code, amount, coupons, orders, userId, now).value;
            0.0 <= d <= amount.value
    ensures var c := coupons[code.value];
            var d := Validate(code, amount, coupons, orders, userId, now).value;
            0.0 < c.value && 0.0 < amount.value && (c.maxDiscountAmount.None? || 0.0 < c.maxDiscountAmount.value) ==>
            0.0 < d
  {
  }

  /** The same coupon judged on a larger amount stays valid (the minimum purchase only rises past). */
  lemma LargerAmountStaysValid(code: string, amount: real, larger: real, coupons: map<string, Coupon>,
                               orders: seq<Orders.Order>, userId: int, now: int)
    requires Validate(Some(code), Some(amount), coupons, orders, userId, now).Ok? && amount <= larger
    ensures Validate(Some(code), Some(larger), coupons, orders, userId, now).Ok?
  {
    ValidityMonotone(coupons[code], amount, larger, now, Some(Orders.CouponUses(orders, userId, code)));
  }
}
