/** An optional value: Python's `None` or a value. */
module Optional {
  datatype Option<+T> = None | Some(value: T)
}

/** The coupon records of the catalog and their two predicates. */
module Models {
  import opened Optional

  /** The coupon `type` column. Its choices are cart-wise, product-wise and
      bxgy, but a character column admits any other string, which the
      selection service must tolerate. */
  datatype CouponType = CartWise | ProductWise | BxGy | OtherType

  /** The `discount_type` column of the cart-wise and product-wise details.
      Cart-wise admits percentage, fixed and shipping; product-wise admits
      percentage and fixed; any other string is `OtherDiscount`. */
  datatype DiscountType = Percentage | Fixed | Shipping | OtherDiscount

  /** Cart-wise details: amounts in cents; a percentage in hundredths of a
      percentage point (10.00 % is 1000). */
  datatype CartWiseDetail = CartWiseDetail(
    discountType: DiscountType,
    threshold: int,
    discountValue: int)

  /** Product-wise details: the three optional match targets. */
  datatype ProductWiseDetail = ProductWiseDetail(
    discountType: DiscountType,
    productId: Option<int>,
    category: Option<string>,
    brand: Option<string>,
    discountValue: int)

  /** A product that must be bought (a positive-integer column, so 0 is admitted). */
  datatype BuyProduct = BuyProduct(productId: int, quantity: nat)

  /** A product that is given free. */
  datatype GetProduct = GetProduct(productId: int, quantity: nat)

  /** BxGy details with their two related product lists, in the order the
      catalog returns them. */
  datatype BxGyDetail = BxGyDetail(
    repetitionLimit: nat,
    buyProducts: seq<BuyProduct>,
    getProducts: seq<GetProduct>)

  /** A coupon. Each detail record is one-to-one with its coupon, so a coupon
      holds at most one detail of each kind; which of them are present is
      independent of `ctype` (the catalog's write path keeps them consistent).
      `expiresAt` and the clock are integer timestamps. */
  datatype Coupon = Coupon(
    id: int,
    ctype: CouponType,
    code: string,
    name: string,
    description: Option<string>,
    isActive: bool,
    expiresAt: Option<int>,
    cartWiseDetails: Option<CartWiseDetail>,
    productWiseDetails: Option<ProductWiseDetail>,
    bxgyDetails: Option<BxGyDetail>)

  /** `Coupon.is_expired` with the clock reading `now` as a parameter. */
  predicate IsExpired(c: Coupon, now: int) {
    match c.expiresAt
    case None => false
    case Some(t) => now > t
  }

  /** `Coupon.is_valid` */
  predicate IsValid(c: Coupon, now: int) {
    c.isActive && !IsExpired(c, now)
  }

  /** A coupon without an expiry date never expires; one with an expiry date
      is still unexpired at that very instant and expired at every later one. */
  lemma ExpiryIsStrict(c: Coupon, now: int)
    ensures c.expiresAt.None? ==> !IsExpired(c, now)
    ensures c.expiresAt.Some? ==> (IsExpired(c, now) <==> now > c.expiresAt.value)
    ensures c.expiresAt == Some(now) ==> !IsExpired(c, now)
  {
  }

  /** Once expired, a coupon stays expired as the clock advances. */
  lemma ExpiryIsPermanent(c: Coupon, now: int, later: int)
    requires IsExpired(c, now) && now <= later
    ensures IsExpired(c, later)
  {
  }

  /** A coupon is valid exactly when it is active and not expired; an inactive
      coupon is never valid, whatever the clock says. */
  lemma ValidMeansActiveAndUnexpired(c: Coupon, now: int)
    ensures IsValid(c, now) <==> c.isActive && (c.expiresAt.None? || now <= c.expiresAt.value)
    ensures !c.isActive ==> !IsValid(c, now)
  {
  }

  /** Every get product of a BxGy detail asks for at least one unit. The
      evaluator divides by these quantities, so a zero one would raise. */
  predicate GetQuantitiesPositive(d: BxGyDetail) {
    forall i :: 0 <= i < |d.getProducts| ==> d.getProducts[i].quantity > 0
  }
}
