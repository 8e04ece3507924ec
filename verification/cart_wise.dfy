/** The cart-wise evaluator: a threshold on the cart's value and a discount
    attributed to the cart as a whole. */
module CartWise {
  import opened Optional
  import opened Money
  import opened Models
  import opened Cart

  /** The placeholder shipping cost the shipping discount refunds, in cents. */
  const ShippingCost: int := 500

  /** `calculate_cart_total`: the running sum of price times quantity,
      rounded to the cent at the end. */
  method CalculateCartTotal(items: seq<CartItem>) returns (total: int)
    ensures total == Total(items)
    ensures ValidCart(items) ==> total >= 0
  {
    var sum := 0;
    for i := 0 to |items|
      invariant sum == Total(items[..i])
    {
      assert items[..i + 1][..i] == items[..i];
      sum := sum + items[i].price * items[i].quantity;
    }
    assert items[..|items|] == items;
    QuantizeExact(sum);
    total := Quantize(Exact(sum));
    if ValidCart(items) {
      TotalNonNegative(items);
    }
  }

  /** The coupon has cart-wise details and the cart reaches their threshold
      (the threshold itself is enough). */
  predicate Applicable(coupon: Coupon, items: seq<CartItem>) {
    match coupon.cartWiseDetails
    case None => false
    case Some(d) => Total(items) >= d.threshold
  }

  /** `is_applicable`: a coupon without cart-wise details never applies;
      otherwise the cart's total is compared with the threshold. */
  method IsApplicable(coupon: Coupon, items: seq<CartItem>) returns (r: bool)
    ensures r == Applicable(coupon, items)
  {
    if coupon.cartWiseDetails.None? {
      return false;
    }
    var cartTotal := CalculateCartTotal(items);
    r := cartTotal >= coupon.cartWiseDetails.value.threshold;
  }

  /** `calculate_discount` */
  function CalculateDiscount(coupon: Coupon, items: seq<CartItem>): (r: int)
    ensures !Applicable(coupon, items) ==> r == 0
    ensures Applicable(coupon, items) && coupon.cartWiseDetails.value.discountType == Percentage ==>
      Exact(r) - SubUnits / 2 <= Total(items) * coupon.cartWiseDetails.value.discountValue <= Exact(r) + SubUnits / 2
    ensures Applicable(coupon, items) && coupon.cartWiseDetails.value.discountType == Fixed ==>
      r == Min(coupon.cartWiseDetails.value.discountValue, Total(items))
    ensures Applicable(coupon, items) && coupon.cartWiseDetails.value.discountType == Shipping ==>
      r == ShippingCost
    ensures coupon.cartWiseDetails.Some? && coupon.cartWiseDetails.value.discountType == OtherDiscount ==>
      r == 0
  {
    if !Applicable(coupon, items) then 0
    else
      var d := coupon.cartWiseDetails.value;
      var cartTotal := Total(items);
      match d.discountType
      case Percentage => Quantize(cartTotal * d.discountValue)
      case Fixed => QuantizeExact(Min(d.discountValue, cartTotal)); Quantize(Exact(Min(d.discountValue, cartTotal)))
      case Shipping => QuantizeExact(ShippingCost); Quantize(Exact(ShippingCost))
      case OtherDiscount => 0
  }

  /** The cart-wise discount is never negative and, for a fixed amount that
      is not negative or a percentage of at most 100 %, never exceeds the
      cart's value. */
  lemma DiscountWithinTotal(coupon: Coupon, items: seq<CartItem>)
    requires ValidCart(items)
    requires coupon.cartWiseDetails.Some?
    requires coupon.cartWiseDetails.value.discountType == Percentage ==>
      0 <= coupon.cartWiseDetails.value.discountValue <= 100 * 100
    requires coupon.cartWiseDetails.value.discountType == Fixed ==>
      0 <= coupon.cartWiseDetails.value.discountValue
    ensures coupon.cartWiseDetails.value.discountType != Shipping ==>
      0 <= CalculateDiscount(coupon, items) <= Total(items)
  {
    var d := coupon.cartWiseDetails.value;
    var t := Total(items);
    TotalNonNegative(items);
    if Applicable(coupon, items) && d.discountType == Percentage {
      var exact := t * d.discountValue;
      PercentWithin(t, d.discountValue);
      QuantizeNonNegative(exact);
      QuantizeAtMost(exact, t);
    } else if Applicable(coupon, items) && d.discountType == Fixed {
      QuantizeExact(Min(d.discountValue, t));
    }
  }

  /** The shipping discount is the flat shipping cost whatever the cart is
      worth: a cart of one unit at 1.00 and a shipping coupon with no
      threshold get 5.00 off, more than the cart's value, and the final
      price is clamped to zero. */
  lemma ShippingMayExceedTotal()
    ensures var items := [CartItem(1, 1, 100, None, None)];
      var coupon := Coupon(1, CartWise, "SHIP", "Free shipping", None, true, None,
        Some(CartWiseDetail(Shipping, 0, 0)), None, None);
      var cart := FlatRewrite(items, CalculateDiscount(coupon, items));
      && CalculateDiscount(coupon, items) == ShippingCost > Total(items) == 100
      && cart.totalDiscount == ShippingCost && cart.finalPrice == 0
  {
  }

  /** The cart the cart-wise rewrite produces: every line carries a zero
      discount and the whole discount sits on the cart's total. */
  function FlatRewrite(items: seq<CartItem>, discount: int): DiscountedCart {
    DiscountedCart(
      seq(|items|, i requires 0 <= i < |items| =>
        DiscountedItem(items[i].productId, items[i].quantity, items[i].price, 0)),
      Total(items),
      discount,
      Max0(Total(items) - discount))
  }

  /** `create_discounted_cart(cart, total_discount)` */
  method CreateDiscountedCart(items: seq<CartItem>, totalDiscount: int) returns (cart: DiscountedCart)
    ensures cart == FlatRewrite(items, totalDiscount)
    ensures |cart.items| == |items|
    ensures forall i :: 0 <= i < |items| ==>
      cart.items[i].productId == items[i].productId && cart.items[i].quantity == items[i].quantity &&
      cart.items[i].price == items[i].price && cart.items[i].totalDiscount == 0
    ensures cart.totalDiscount == totalDiscount && cart.finalPrice >= 0
    ensures cart.finalPrice == Max0(cart.totalPrice - totalDiscount)
  {
    var totalPrice := CalculateCartTotal(items);
    var finalPrice := Max0(totalPrice - totalDiscount);
    var lines: seq<DiscountedItem> := [];
    for i := 0 to |items|
      invariant |lines| == i
      invariant forall j :: 0 <= j < i ==>
        lines[j] == DiscountedItem(items[j].productId, items[j].quantity, items[j].price, 0)
    {
      lines := lines + [DiscountedItem(items[i].productId, items[i].quantity, items[i].price, 0)];
    }
    cart := DiscountedCart(lines, totalPrice, totalDiscount, finalPrice);
  }

  /** `apply_discount`: the rewrite with the coupon's discount, which is zero
      when the coupon does not apply. */
  method ApplyDiscount(coupon: Coupon, items: seq<CartItem>) returns (cart: DiscountedCart)
    ensures cart == FlatRewrite(items, CalculateDiscount(coupon, items))
    ensures !Applicable(coupon, items) ==> cart.totalDiscount == 0 && cart.finalPrice == Max0(Total(items))
  {
    var applicable := IsApplicable(coupon, items);
    if !applicable {
      cart := CreateDiscountedCart(items, 0);
      return;
    }
    var totalDiscount := CalculateDiscount(coupon, items);
    cart := CreateDiscountedCart(items, totalDiscount);
  }

  /** On a valid cart the coupon that does not apply leaves the price as it
      is; one that applies takes exactly its discount off when that discount
      is within the cart's value. */
  lemma {:induction false} AppliedPrice(coupon: Coupon, items: seq<CartItem>)
    requires ValidCart(items)
    ensures var cart := FlatRewrite(items, CalculateDiscount(coupon, items));
      && (!Applicable(coupon, items) ==> cart.totalDiscount == 0 && cart.finalPrice == cart.totalPrice)
      && (0 <= cart.totalDiscount <= cart.totalPrice ==> cart.finalPrice == cart.totalPrice - cart.totalDiscount)
  {
    TotalNonNegative(items);
  }
}
