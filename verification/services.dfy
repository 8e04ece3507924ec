/** The selection service: which live coupons a cart qualifies for, best
    first, and applying one coupon chosen by its id. The catalog is the
    sequence of stored coupons in the order the store returns them; the
    clock reading is a parameter. */
module Services {
  import opened Optional
  import opened Models
  import opened Cart
  import opened Sorting
  import CW = CartWise
  import PW = ProductWise
  import BX = BxGy

  /** One entry of the list of applicable coupons. */
  datatype ApplicableCoupon = ApplicableCoupon(
    couponId: int,
    ctype: CouponType,
    name: string,
    code: string,
    discount: int)

  /** A coupon that is active and unexpired can be evaluated: when it is a
      BxGy coupon its get quantities are positive (a zero one would make the
      BxGy loop divide by zero). */
  predicate LiveEvaluable(c: Coupon, now: int) {
    c.isActive && !IsExpired(c, now) && c.ctype == BxGy ==> BX.Evaluable(c)
  }

  /** Listing evaluates every coupon of the catalog, so all of them must be
      evaluable. */
  predicate CatalogEvaluable(catalog: seq<Coupon>, now: int) {
    forall i :: 0 <= i < |catalog| ==> LiveEvaluable(catalog[i], now)
  }

  /** Applying evaluates only the coupon asked for, so only the coupons
      carrying that id must be evaluable. */
  predicate RequestedEvaluable(catalog: seq<Coupon>, couponId: int, now: int) {
    forall i :: 0 <= i < |catalog| && catalog[i].id == couponId ==> LiveEvaluable(catalog[i], now)
  }

  /** Whether the evaluator chosen by the coupon's type finds it applicable;
      a coupon of any other type never is. */
  predicate EvaluatorApplies(c: Coupon, items: seq<CartItem>) {
    match c.ctype
    case CartWise => CW.Applicable(c, items)
    case ProductWise => PW.Applicable(c, items)
    case BxGy => BX.Applicable(c, items)
    case OtherType => false
  }

  /** The discount the evaluator chosen by the coupon's type computes. */
  function EvaluatorDiscount(c: Coupon, items: seq<CartItem>): int
    requires c.ctype == BxGy ==> BX.Evaluable(c)
  {
    match c.ctype
    case CartWise => CW.CalculateDiscount(c, items)
    case ProductWise => PW.Discount(c, items)
    case BxGy => BX.Discount(c, items)
    case OtherType => 0
  }

  /** The coupon is listed for the cart: active, unexpired, applicable, and
      worth a positive discount. */
  predicate Offered(c: Coupon, items: seq<CartItem>, now: int)
    requires LiveEvaluable(c, now)
  {
    c.isActive && !IsExpired(c, now) && EvaluatorApplies(c, items) && EvaluatorDiscount(c, items) > 0
  }

  /** The list entry of an offered coupon. */
  function Entry(c: Coupon, items: seq<CartItem>): ApplicableCoupon
    requires c.ctype == BxGy ==> BX.Evaluable(c)
  {
    ApplicableCoupon(c.id, c.ctype, c.name, c.code, EvaluatorDiscount(c, items))
  }

  /** The entries of the offered coupons, in catalog order. */
  function Candidates(catalog: seq<Coupon>, items: seq<CartItem>, now: int): seq<ApplicableCoupon>
    requires CatalogEvaluable(catalog, now)
  {
    if |catalog| == 0 then []
    else
      var init := catalog[..|catalog| - 1];
      var last := catalog[|catalog| - 1];
      assert CatalogEvaluable(init, now) by {
        assert forall i :: 0 <= i < |init| ==> init[i] == catalog[i];
      }
      Candidates(init, items, now) + (if Offered(last, items, now) then [Entry(last, items)] else [])
  }

  /** The sort key of `sort(key=lambda x: x['discount'], reverse=True)`:
      Python's reverse sort is still stable, so it equals a stable ascending
      sort on the negated discount. */
  function NegDiscount(a: ApplicableCoupon): int {
    -a.discount
  }

  /** What `get_applicable_coupons` returns. */
  function ApplicableCoupons(catalog: seq<Coupon>, items: seq<CartItem>, now: int): seq<ApplicableCoupon>
    requires CatalogEvaluable(catalog, now)
  {
    SortBy(Candidates(catalog, items, now), NegDiscount)
  }

  /** `get_applicable_coupons` */
  method GetApplicableCoupons(catalog: seq<Coupon>, items: seq<CartItem>, now: int)
    returns (result: seq<ApplicableCoupon>)
    requires CatalogEvaluable(catalog, now)
    ensures result == ApplicableCoupons(catalog, items, now)
  {
    var applicable: seq<ApplicableCoupon> := [];
    for i := 0 to |catalog|
      invariant CatalogEvaluable(catalog[..i], now)
      invariant applicable == Candidates(catalog[..i], items, now)
    {
      assert catalog[..i + 1][..i] == catalog[..i];
      var coupon := catalog[i];
      if !coupon.isActive || IsExpired(coupon, now) {
        continue;
      }
      var isApplicable := false;
      var discountAmount := 0;
      match coupon.ctype {
        case CartWise =>
          isApplicable := CW.IsApplicable(coupon, items);
          if isApplicable {
            discountAmount := CW.CalculateDiscount(coupon, items);
          }
        case ProductWise =>
          isApplicable := PW.IsApplicable(coupon, items);
          if isApplicable {
            discountAmount := PW.CalculateDiscount(coupon, items);
          }
        case BxGy =>
          isApplicable := BX.IsApplicable(coupon, items);
          if isApplicable {
            discountAmount := BX.CalculateDiscount(coupon, items);
          }
        case OtherType =>
      }
      if isApplicable && discountAmount > 0 {
        applicable := applicable + [ApplicableCoupon(coupon.id, coupon.ctype, coupon.name, coupon.code, discountAmount)];
      }
    }
    assert catalog[..|catalog|] == catalog;
    result := SortBy(applicable, NegDiscount);
  }

  /** An entry is listed exactly when it is the entry of an offered coupon
      of the catalog. */
  lemma {:induction false} CandidatesMembers(catalog: seq<Coupon>, items: seq<CartItem>, now: int)
    requires CatalogEvaluable(catalog, now)
    ensures forall r :: r in Candidates(catalog, items, now) <==>
      exists i :: 0 <= i < |catalog| && Offered(catalog[i], items, now) && r == Entry(catalog[i], items)
  {
    if |catalog| > 0 {
      var init := catalog[..|catalog| - 1];
      assert forall i :: 0 <= i < |init| ==> init[i] == catalog[i];
      CandidatesMembers(init, items, now);
      var last := catalog[|catalog| - 1];
      forall r | r in Candidates(catalog, items, now)
        ensures exists i :: 0 <= i < |catalog| && Offered(catalog[i], items, now) && r == Entry(catalog[i], items)
      {
        if r in Candidates(init, items, now) {
          var i :| 0 <= i < |init| && Offered(init[i], items, now) && r == Entry(init[i], items);
          assert catalog[i] == init[i];
        } else {
          assert catalog[|catalog| - 1] == last;
        }
      }
      forall i | 0 <= i < |catalog| && Offered(catalog[i], items, now)
        ensures Entry(catalog[i], items) in Candidates(catalog, items, now)
      {
        if i < |init| {
          assert init[i] == catalog[i];
        }
      }
    }
  }

  /** Every listed entry is the entry (id, type, name, code and the
      discount its own evaluator computes) of an offered coupon of the
      catalog, every offered coupon is listed, and the list holds exactly
      the entries of the offered coupons, each as often as in catalog
      order. */
  lemma {:induction false} ApplicableCouponsAreTheOffered(catalog: seq<Coupon>, items: seq<CartItem>, now: int)
    requires CatalogEvaluable(catalog, now)
    ensures forall r :: r in ApplicableCoupons(catalog, items, now) <==>
      exists i :: 0 <= i < |catalog| && Offered(catalog[i], items, now) && r == Entry(catalog[i], items)
    ensures multiset(ApplicableCoupons(catalog, items, now)) == multiset(Candidates(catalog, items, now))
  {
    CandidatesMembers(catalog, items, now);
    var candidates := Candidates(catalog, items, now);
    SortByIsStableSort(candidates, NegDiscount);
    var result := ApplicableCoupons(catalog, items, now);
    forall r ensures r in result <==> r in candidates {
      assert r in result <==> r in multiset(result);
    }
  }

  /** An offered coupon is active and unexpired, of one of the three known
      types, applicable by its own evaluator, and worth a positive
      discount; its entry carries its id, type, name and code and the
      discount its evaluator computes. */
  lemma OfferedMeans(c: Coupon, items: seq<CartItem>, now: int)
    requires LiveEvaluable(c, now)
    ensures Offered(c, items, now) ==>
      && c.isActive && !IsExpired(c, now) && c.ctype != OtherType
      && EvaluatorApplies(c, items) && Entry(c, items).discount > 0
    ensures Offered(c, items, now) ==> var e := Entry(c, items);
      e.couponId == c.id && e.ctype == c.ctype && e.name == c.name && e.code == c.code &&
      e.discount == EvaluatorDiscount(c, items)
  {
  }

  /** The list runs from the largest discount to the smallest, and coupons
      with equal discounts keep their catalog order. */
  lemma ApplicableCouponsBestFirst(catalog: seq<Coupon>, items: seq<CartItem>, now: int)
    requires CatalogEvaluable(catalog, now)
    ensures var result := ApplicableCoupons(catalog, items, now);
      && (forall k, l :: 0 <= k < l < |result| ==> result[k].discount >= result[l].discount)
      && (forall d :: WithKey(result, NegDiscount, d) == WithKey(Candidates(catalog, items, now), NegDiscount, d))
  {
    SortByIsStableSort(Candidates(catalog, items, now), NegDiscount);
    var result := ApplicableCoupons(catalog, items, now);
    forall k, l | 0 <= k < l < |result| ensures result[k].discount >= result[l].discount {
      assert NegDiscount(result[k]) <= NegDiscount(result[l]);
    }
  }

  // ---------------------------------------------------------------------
  // apply_coupon
  // ---------------------------------------------------------------------

  /** Coupon ids are primary keys. */
  predicate UniqueIds(catalog: seq<Coupon>) {
    forall i, j :: 0 <= i < j < |catalog| ==> catalog[i].id != catalog[j].id
  }

  /** `Coupon.objects.get(id=coupon_id, is_active=True)`: the active coupon
      with that id, if any. */
  function Lookup(catalog: seq<Coupon>, couponId: int): (r: Option<Coupon>)
    ensures r.Some? ==> r.value in catalog && r.value.id == couponId && r.value.isActive
    ensures r.None? <==> forall i :: 0 <= i < |catalog| ==> !(catalog[i].id == couponId && catalog[i].isActive)
  {
    if |catalog| == 0 then None
    else if catalog[0].id == couponId && catalog[0].isActive then Some(catalog[0])
    else
      var rest := Lookup(catalog[1..], couponId);
      assert forall i :: 1 <= i < |catalog| ==> catalog[i] == catalog[1..][i - 1];
      rest
  }

  /** With unique ids the lookup finds the very coupon of the catalog that
      carries the id, when that coupon is active. */
  lemma LookupFinds(catalog: seq<Coupon>, i: nat)
    requires UniqueIds(catalog) && i < |catalog| && catalog[i].isActive
    ensures Lookup(catalog, catalog[i].id) == Some(catalog[i])
  {
    var r := Lookup(catalog, catalog[i].id);
    var c := r.value;
    var j :| 0 <= j < |catalog| && catalog[j] == c;
    assert j == i;
  }

  /** The coupon the lookup finds can be evaluated once it is found
      unexpired. */
  lemma LookupEvaluable(catalog: seq<Coupon>, couponId: int, now: int)
    requires RequestedEvaluable(catalog, couponId, now) && Lookup(catalog, couponId).Some?
    ensures LiveEvaluable(Lookup(catalog, couponId).value, now)
  {
    var c := Lookup(catalog, couponId).value;
    var j :| 0 <= j < |catalog| && catalog[j] == c;
  }

  /** The cart the evaluator chosen by the coupon's type produces. */
  function EvaluatorApplied(c: Coupon, items: seq<CartItem>): DiscountedCart
    requires c.ctype == BxGy ==> BX.Evaluable(c)
    requires c.ctype != OtherType
  {
    match c.ctype
    case CartWise => CW.FlatRewrite(items, CW.CalculateDiscount(c, items))
    case ProductWise => PW.Applied(c, items)
    case BxGy => BX.Applied(c, items)
  }

  /** What `apply_coupon` returns. */
  function Outcome(catalog: seq<Coupon>, couponId: int, items: seq<CartItem>, now: int): Option<DiscountedCart>
    requires RequestedEvaluable(catalog, couponId, now)
  {
    match Lookup(catalog, couponId)
    case None => None
    case Some(c) =>
      if IsExpired(c, now) || !EvaluatorApplies(c, items) then None
      else
        LookupEvaluable(catalog, couponId, now);
        Some(EvaluatorApplied(c, items))
  }

  /** `apply_coupon` */
  method ApplyCoupon(catalog: seq<Coupon>, couponId: int, items: seq<CartItem>, now: int)
    returns (r: Option<DiscountedCart>)
    requires RequestedEvaluable(catalog, couponId, now)
    ensures r == Outcome(catalog, couponId, items, now)
  {
    var found := Lookup(catalog, couponId);
    if found.None? {
      return None;
    }
    var coupon := found.value;
    if IsExpired(coupon, now) {
      return None;
    }
    LookupEvaluable(catalog, couponId, now);
    match coupon.ctype {
      case CartWise =>
        var applicable := CW.IsApplicable(coupon, items);
        if applicable {
          var cart := CW.ApplyDiscount(coupon, items);
          return Some(cart);
        }
      case ProductWise =>
        var applicable := PW.IsApplicable(coupon, items);
        if applicable {
          var cart := PW.ApplyDiscount(coupon, items);
          return Some(cart);
        }
      case BxGy =>
        var applicable := BX.IsApplicable(coupon, items);
        if applicable {
          var cart := BX.ApplyDiscount(coupon, items);
          return Some(cart);
        }
      case OtherType =>
    }
    return None;
  }

  /** With unique ids, `apply_coupon` returns a cart exactly when the
      catalog holds an active, unexpired coupon with that id whose own
      evaluator applies, and the cart is that evaluator's. */
  lemma {:induction false} ApplyCouponOutcome(catalog: seq<Coupon>, couponId: int, items: seq<CartItem>, now: int)
    requires RequestedEvaluable(catalog, couponId, now) && UniqueIds(catalog)
    ensures Outcome(catalog, couponId, items, now).Some? <==>
      exists i :: 0 <= i < |catalog| && catalog[i].id == couponId && catalog[i].isActive
        && !IsExpired(catalog[i], now) && EvaluatorApplies(catalog[i], items)
    ensures forall i :: 0 <= i < |catalog| ==>
      (catalog[i].id == couponId && catalog[i].isActive && !IsExpired(catalog[i], now) &&
       EvaluatorApplies(catalog[i], items)) ==>
        LiveEvaluable(catalog[i], now) &&
        Outcome(catalog, couponId, items, now) == Some(EvaluatorApplied(catalog[i], items))
  {
    forall i | 0 <= i < |catalog| && catalog[i].id == couponId && catalog[i].isActive
      ensures Lookup(catalog, couponId) == Some(catalog[i])
    {
      LookupFinds(catalog, i);
    }
    if Outcome(catalog, couponId, items, now).Some? {
      var c := Lookup(catalog, couponId).value;
      var j :| 0 <= j < |catalog| && catalog[j] == c;
      assert catalog[j].id == couponId;
    }
  }

  /** Applying a listed coupon (ids being unique) takes off exactly the
      discount it was listed with, unless it is a product-wise percentage
      coupon, whose per-line rounding can differ from the rounding of the
      sum. */
  lemma AppliedDiscountMatchesListing(catalog: seq<Coupon>, items: seq<CartItem>, now: int, i: nat)
    requires CatalogEvaluable(catalog, now) && UniqueIds(catalog) && i < |catalog|
    requires Offered(catalog[i], items, now)
    requires catalog[i].ctype == ProductWise ==> catalog[i].productWiseDetails.value.discountType != Percentage
    ensures Entry(catalog[i], items) in ApplicableCoupons(catalog, items, now)
    ensures var r := Outcome(catalog, catalog[i].id, items, now);
      r.Some? && r.value.totalDiscount == Entry(catalog[i], items).discount
  {
    ApplicableCouponsAreTheOffered(catalog, items, now);
    LookupFinds(catalog, i);
    assert RequestedEvaluable(catalog, catalog[i].id, now);
    var c := catalog[i];
    match c.ctype {
      case CartWise =>
      case ProductWise =>
        PW.FixedDiscountAgrees(c, items);
      case BxGy =>
        BX.DiscountAgrees(c, items);
    }
  }

  /** A coupon that cannot be evaluated does not stop another coupon from
      being applied: next to a BxGy coupon with a zero get quantity the
      catalog cannot be listed, yet the live cart-wise coupon is applied. */
  lemma UnevaluableNeighbourIgnored()
    ensures var fixed := Coupon(1, CartWise, "TEN", "Ten off", None, true, None,
        Some(CartWiseDetail(Fixed, 0, 1000)), None, None);
      var broken := Coupon(2, BxGy, "B1G0", "Broken", None, true, None,
        None, None, Some(BxGyDetail(1, [BuyProduct(7, 1)], [GetProduct(9, 0)])));
      var catalog := [fixed, broken];
      var items := [CartItem(7, 1, 5000, None, None)];
      && !CatalogEvaluable(catalog, 0)
      && RequestedEvaluable(catalog, 1, 0)
      && Outcome(catalog, 1, items, 0) == Some(CW.FlatRewrite(items, 1000))
      && CW.FlatRewrite(items, 1000).finalPrice == 4000
  {
    var broken := Coupon(2, BxGy, "B1G0", "Broken", None, true, None,
      None, None, Some(BxGyDetail(1, [BuyProduct(7, 1)], [GetProduct(9, 0)])));
    assert !IsExpired(broken, 0);
    assert broken.bxgyDetails.value.getProducts[0].quantity == 0;
    assert !BX.Evaluable(broken);
    var fixed := Coupon(1, CartWise, "TEN", "Ten off", None, true, None,
      Some(CartWiseDetail(Fixed, 0, 1000)), None, None);
    var catalog := [fixed, broken];
    var items := [CartItem(7, 1, 5000, None, None)];
    assert !LiveEvaluable(catalog[1], 0);
    assert !CatalogEvaluable(catalog, 0);
    assert RequestedEvaluable(catalog, 1, 0);
    assert Lookup(catalog, 1) == Some(fixed);
    assert Total(items) == 5000;
    assert CW.CalculateDiscount(fixed, items) == 1000;
    assert Outcome(catalog, 1, items, 0) == Some(CW.FlatRewrite(items, 1000));
  }
}
