/** The product-wise evaluator: a per-unit discount on every cart line that
    matches the coupon's product, category or brand. */
module ProductWise {
  import opened Optional
  import opened Money
  import opened Models
  import opened Cart

  /** `matches_product_criteria`: a criterion takes part only when it is
      truthy (not `None`, not 0, not the empty string), and any one of them
      suffices. */
  predicate MatchesProductCriteria(item: CartItem, d: ProductWiseDetail) {
    || (d.productId.Some? && d.productId.value != 0 && item.productId == d.productId.value)
    || (d.category.Some? && d.category.value != "" && item.category == d.category)
    || (d.brand.Some? && d.brand.value != "" && item.brand == d.brand)
  }

  /** A detail whose three criteria are all unset or falsy matches no line,
      and one line can match through any single criterion. */
  lemma CriteriaAreAlternatives(item: CartItem, d: ProductWiseDetail)
    ensures (d.productId.None? || d.productId == Some(0)) &&
            (d.category.None? || d.category == Some("")) &&
            (d.brand.None? || d.brand == Some("")) ==>
              !MatchesProductCriteria(item, d)
    ensures d.productId.Some? && d.productId.value != 0 && item.productId == d.productId.value ==>
      MatchesProductCriteria(item, d)
    ensures d.category.Some? && d.category.value != "" && item.category == d.category ==>
      MatchesProductCriteria(item, d)
    ensures d.brand.Some? && d.brand.value != "" && item.brand == d.brand ==>
      MatchesProductCriteria(item, d)
    ensures item.category.None? && item.brand.None? ==>
      (MatchesProductCriteria(item, d) <==> d.productId.Some? && d.productId.value != 0 && item.productId == d.productId.value)
  {
  }

  /** The coupon has product-wise details and some cart line matches them. */
  predicate Applicable(coupon: Coupon, items: seq<CartItem>) {
    && coupon.productWiseDetails.Some?
    && exists i :: 0 <= i < |items| && MatchesProductCriteria(items[i], coupon.productWiseDetails.value)
  }

  /** `is_applicable`: scans the lines until one matches. */
  method IsApplicable(coupon: Coupon, items: seq<CartItem>) returns (r: bool)
    ensures r <==> Applicable(coupon, items)
  {
    if coupon.productWiseDetails.None? {
      return false;
    }
    var d := coupon.productWiseDetails.value;
    for i := 0 to |items|
      invariant forall j :: 0 <= j < i ==> !MatchesProductCriteria(items[j], d)
    {
      if MatchesProductCriteria(items[i], d) {
        return true;
      }
    }
    return false;
  }

  /** The exact discount on one unit, in sub-units: `price * value / 100`
      for a percentage (value in hundredths of a point), otherwise the fixed
      value but never more than the price. */
  function UnitDiscount(d: ProductWiseDetail, price: int): int {
    if d.discountType == Percentage then price * d.discountValue
    else Exact(Min(d.discountValue, price))
  }

  /** The exact, unrounded discount on a whole line. */
  function LineDiscount(d: ProductWiseDetail, item: CartItem): int {
    UnitDiscount(d, item.price) * item.quantity
  }

  /** Sum of the exact line discounts over the matching lines. */
  function ExactSum(d: ProductWiseDetail, items: seq<CartItem>): int {
    if |items| == 0 then 0
    else
      var last := items[|items| - 1];
      ExactSum(d, items[..|items| - 1]) + (if MatchesProductCriteria(last, d) then LineDiscount(d, last) else 0)
  }

  /** What `calculate_discount` returns: the exact sum, rounded once. */
  function Discount(coupon: Coupon, items: seq<CartItem>): (r: int)
    ensures !Applicable(coupon, items) ==> r == 0
    ensures Applicable(coupon, items) ==>
      Exact(r) - SubUnits / 2 <= ExactSum(coupon.productWiseDetails.value, items) <= Exact(r) + SubUnits / 2
  {
    if !Applicable(coupon, items) then 0 else Quantize(ExactSum(coupon.productWiseDetails.value, items))
  }

  /** `calculate_discount` */
  method CalculateDiscount(coupon: Coupon, items: seq<CartItem>) returns (r: int)
    ensures r == Discount(coupon, items)
  {
    var applicable := IsApplicable(coupon, items);
    if !applicable {
      return 0;
    }
    var d := coupon.productWiseDetails.value;
    var total := 0;
    for i := 0 to |items|
      invariant total == ExactSum(d, items[..i])
    {
      assert items[..i + 1][..i] == items[..i];
      if MatchesProductCriteria(items[i], d) {
        var itemDiscount := UnitDiscount(d, items[i].price) * items[i].quantity;
        total := total + itemDiscount;
      }
    }
    assert items[..|items|] == items;
    r := Quantize(total);
  }

  /** The per-line discounts `apply_discount` records: each matching line's
      exact discount, rounded on its own. */
  function LineDiscounts(d: ProductWiseDetail, items: seq<CartItem>): map<int, int> {
    map i | 0 <= i < |items| && MatchesProductCriteria(items[i], d) :: Quantize(LineDiscount(d, items[i]))
  }

  /** The cart `apply_discount` returns. */
  function Applied(coupon: Coupon, items: seq<CartItem>): DiscountedCart {
    if !Applicable(coupon, items) then Rewrite(items, map[])
    else Rewrite(items, LineDiscounts(coupon.productWiseDetails.value, items))
  }

  /** `apply_discount` */
  method ApplyDiscount(coupon: Coupon, items: seq<CartItem>) returns (cart: DiscountedCart)
    ensures cart == Applied(coupon, items)
  {
    var applicable := IsApplicable(coupon, items);
    if !applicable {
      cart := CreateDiscountedCart(items, map[]);
      return;
    }
    var d := coupon.productWiseDetails.value;
    var itemDiscounts: map<int, int> := map[];
    for i := 0 to |items|
      invariant itemDiscounts ==
        map j | 0 <= j < i && MatchesProductCriteria(items[j], d) :: Quantize(LineDiscount(d, items[j]))
    {
      if MatchesProductCriteria(items[i], d) {
        var perItemDiscount := UnitDiscount(d, items[i].price);
        var itemDiscount := perItemDiscount * items[i].quantity;
        itemDiscounts := itemDiscounts[i := Quantize(itemDiscount)];
      }
    }
    cart := CreateDiscountedCart(items, itemDiscounts);
  }

  /** Lines that do not match carry no discount; a matching line carries its
      own discount rounded to the cent; lines keep their order and fields. */
  lemma AppliedLines(coupon: Coupon, items: seq<CartItem>)
    ensures |Applied(coupon, items).items| == |items|
    ensures forall i :: 0 <= i < |items| ==>
      && Applied(coupon, items).items[i].productId == items[i].productId
      && Applied(coupon, items).items[i].quantity == items[i].quantity
      && Applied(coupon, items).items[i].price == items[i].price
      && Applied(coupon, items).items[i].totalDiscount ==
           (if Applicable(coupon, items) && MatchesProductCriteria(items[i], coupon.productWiseDetails.value)
            then Quantize(LineDiscount(coupon.productWiseDetails.value, items[i])) else 0)
  {
  }

  /** The discount on one unit is never negative and never more than the
      unit's price when the coupon's value is within range; in particular a
      fixed discount is capped at the price. */
  lemma UnitDiscountWithinPrice(d: ProductWiseDetail, price: int)
    requires price >= 0
    requires d.discountType == Percentage ==> 0 <= d.discountValue <= 100 * 100
    requires d.discountType != Percentage ==> 0 <= d.discountValue
    ensures 0 <= UnitDiscount(d, price) <= Exact(price)
  {
    if d.discountType == Percentage {
      PercentWithin(price, d.discountValue);
    }
  }

  /** So a line's rounded discount never exceeds the line's value. */
  lemma LineDiscountWithinLine(d: ProductWiseDetail, item: CartItem)
    requires item.price >= 0 && item.quantity >= 1
    requires d.discountType == Percentage ==> 0 <= d.discountValue <= 100 * 100
    requires d.discountType != Percentage ==> 0 <= d.discountValue
    ensures 0 <= Quantize(LineDiscount(d, item)) <= LineTotal(item)
  {
    var u := UnitDiscount(d, item.price);
    UnitDiscountWithinPrice(d, item.price);
    ScaleByQuantity(u, item.price, item.quantity);
    QuantizeNonNegative(u * item.quantity);
    QuantizeAtMost(u * item.quantity, item.price * item.quantity);
  }

  /** On a valid cart and a coupon value within range, the discounted cart
      never discounts more than the cart is worth, so its final price is the
      exact difference. */
  lemma AppliedWithinTotal(coupon: Coupon, items: seq<CartItem>)
    requires ValidCart(items)
    requires coupon.productWiseDetails.Some?
    requires coupon.productWiseDetails.value.discountType == Percentage ==>
      0 <= coupon.productWiseDetails.value.discountValue <= 100 * 100
    requires coupon.productWiseDetails.value.discountType != Percentage ==>
      0 <= coupon.productWiseDetails.value.discountValue
    ensures 0 <= Applied(coupon, items).totalDiscount <= Applied(coupon, items).totalPrice
    ensures Applied(coupon, items).finalPrice == Applied(coupon, items).totalPrice - Applied(coupon, items).totalDiscount
  {
    var d := coupon.productWiseDetails.value;
    var discounts := if Applicable(coupon, items) then LineDiscounts(d, items) else map[];
    forall i | 0 <= i < |items|
      ensures 0 <= DiscountAt(discounts, i) <= LineTotal(items[i])
    {
      if i in discounts {
        LineDiscountWithinLine(d, items[i]);
      }
    }
    RewriteWithinTotal(items, discounts);
  }

  /** For a fixed discount every line's discount is already a whole number
      of cents, so rounding each line and rounding the sum agree:
      `calculate_discount` equals the total discount of `apply_discount`. */
  lemma FixedDiscountAgrees(coupon: Coupon, items: seq<CartItem>)
    requires coupon.productWiseDetails.Some? && coupon.productWiseDetails.value.discountType != Percentage
    ensures Discount(coupon, items) == Applied(coupon, items).totalDiscount
  {
    if Applicable(coupon, items) {
      var d := coupon.productWiseDetails.value;
      FixedSumIsExact(d, items, |items|);
      assert items[..|items|] == items;
      QuantizeExact(DiscountSum(LineDiscounts(d, items), |items|));
    } else {
      NoDiscountsSumToZero(|items|);
    }
  }

  lemma {:induction false} FixedSumIsExact(d: ProductWiseDetail, items: seq<CartItem>, n: nat)
    requires d.discountType != Percentage && n <= |items|
    ensures ExactSum(d, items[..n]) == Exact(DiscountSum(LineDiscounts(d, items), n))
  {
    if n > 0 {
      FixedSumIsExact(d, items, n - 1);
      assert items[..n][..n - 1] == items[..n - 1];
      var item := items[n - 1];
      var m := Min(d.discountValue, item.price);
      ExactTimes(m, item.quantity);
      QuantizeExact(m * item.quantity);
    }
  }

  /** For a percentage the two roundings can differ: two one-cent lines at
      50 % each round to 0.00 on their own (half to even), while their sum
      0.01 stays 0.01. */
  lemma PercentageRoundingMayDisagree()
    ensures var d := ProductWiseDetail(Percentage, Some(7), None, None, 5000);
      var coupon := Coupon(1, ProductWise, "HALF", "Half off", None, true, None, None, Some(d), None);
      var items := [CartItem(7, 1, 1, None, None), CartItem(7, 1, 1, None, None)];
      Discount(coupon, items) == 1 && Applied(coupon, items).totalDiscount == 0
  {
    var d := ProductWiseDetail(Percentage, Some(7), None, None, 5000);
    var coupon := Coupon(1, ProductWise, "HALF", "Half off", None, true, None, None, Some(d), None);
    var items := [CartItem(7, 1, 1, None, None), CartItem(7, 1, 1, None, None)];
    assert MatchesProductCriteria(items[0], d);
    assert items[..1][..0] == [];
    assert ExactSum(d, items[..1]) == 5000;
    assert items[..2] == items;
    assert ExactSum(d, items) == 10000;
    assert LineDiscounts(d, items) == map[0 := 0, 1 := 0];
  }
}
