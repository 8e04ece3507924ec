/** The buy-X-get-Y evaluator: when the cart holds every required "buy"
    product, some units of the "get" products become free, cheapest lines
    first, as many times as the buy sets allow and the coupon's repetition
    limit admits. The free units are expressed as a discount on the existing
    cart lines. */
module BxGy {
  import opened Optional
  import opened Money
  import opened Models
  import opened Cart
  import opened Sorting

  // ---------------------------------------------------------------------
  // The coupon's two dictionaries and the cart's product counts
  // ---------------------------------------------------------------------

  /** `{bp.product_id: bp.quantity for bp in buy_products}`: a later entry
      for the same product replaces an earlier one. */
  function BuyMap(ps: seq<BuyProduct>): (m: map<int, nat>)
    ensures m.Keys == set i | 0 <= i < |ps| :: ps[i].productId
    ensures forall i :: 0 <= i < |ps| && LastBuyEntry(ps, i) ==> m[ps[i].productId] == ps[i].quantity
  {
    if |ps| == 0 then map[]
    else
      var init := ps[..|ps| - 1];
      var m := BuyMap(init);
      assert forall i :: 0 <= i < |ps| - 1 ==> init[i] == ps[i];
      assert forall i :: 0 <= i < |ps| - 1 && LastBuyEntry(ps, i) ==> LastBuyEntry(init, i);
      m[ps[|ps| - 1].productId := ps[|ps| - 1].quantity]
  }

  /** No later entry of `ps` names the product of entry `i`. */
  predicate LastBuyEntry(ps: seq<BuyProduct>, i: int)
    requires 0 <= i < |ps|
  {
    forall j :: i < j < |ps| ==> ps[j].productId != ps[i].productId
  }

  /** No later entry of `ps` names the product of entry `i`. */
  predicate LastGetEntry(ps: seq<GetProduct>, i: int)
    requires 0 <= i < |ps|
  {
    forall j :: i < j < |ps| ==> ps[j].productId != ps[i].productId
  }

  /** `{gp.product_id: gp.quantity for gp in get_products}` */
  function GetMap(ps: seq<GetProduct>): (m: map<int, nat>)
    ensures m.Keys == set i | 0 <= i < |ps| :: ps[i].productId
    ensures forall i :: 0 <= i < |ps| && LastGetEntry(ps, i) ==> m[ps[i].productId] == ps[i].quantity
    ensures (forall i :: 0 <= i < |ps| ==> ps[i].quantity > 0) ==> forall g :: g in m ==> m[g] > 0
  {
    if |ps| == 0 then map[]
    else
      var init := ps[..|ps| - 1];
      var last := ps[|ps| - 1];
      var m := GetMap(init);
      var r := m[last.productId := last.quantity];
      assert r.Keys == set i | 0 <= i < |ps| :: ps[i].productId by {
        assert forall i :: 0 <= i < |ps| - 1 ==> init[i] == ps[i];
      }
      assert forall i :: 0 <= i < |ps| && LastGetEntry(ps, i) ==> r[ps[i].productId] == ps[i].quantity by {
        forall i | 0 <= i < |ps| - 1 && LastGetEntry(ps, i)
          ensures r[ps[i].productId] == ps[i].quantity
        {
          assert init[i] == ps[i];
          assert LastGetEntry(init, i);
        }
      }
      assert (forall i :: 0 <= i < |ps| ==> ps[i].quantity > 0) ==> forall g :: g in r ==> r[g] > 0 by {
        if forall i :: 0 <= i < |ps| ==> ps[i].quantity > 0 {
          assert forall i :: 0 <= i < |init| ==> init[i].quantity > 0;
        }
      }
      r
  }

  /** The distinct ids of `ids` in order of first occurrence: the iteration
      order of a dictionary whose keys were inserted in that order. */
  function FirstOccurrences(ids: seq<int>): (keys: seq<int>)
    ensures forall x :: x in keys <==> x in ids
    ensures forall i, j :: 0 <= i < j < |keys| ==> keys[i] != keys[j]
  {
    if |ids| == 0 then []
    else
      var init := ids[..|ids| - 1];
      var last := ids[|ids| - 1];
      assert ids == init + [last];
      var keys := FirstOccurrences(init);
      if last in keys then keys else keys + [last]
  }

  /** The keys of `BuyMap(ps)` in the order Python visits them. */
  function BuyKeys(ps: seq<BuyProduct>): (keys: seq<int>)
    ensures forall p :: p in keys <==> p in BuyMap(ps)
    ensures forall i, j :: 0 <= i < j < |keys| ==> keys[i] != keys[j]
  {
    var ids := seq(|ps|, i requires 0 <= i < |ps| => ps[i].productId);
    assert forall p :: p in ids <==> p in BuyMap(ps) by {
      forall p | p in BuyMap(ps) ensures p in ids {
        var i :| 0 <= i < |ps| && ps[i].productId == p;
        assert ids[i] == p;
      }
    }
    FirstOccurrences(ids)
  }

  /** The keys of `GetMap(ps)` in the order Python visits them. */
  function GetKeys(ps: seq<GetProduct>): (keys: seq<int>)
    ensures forall p :: p in keys <==> p in GetMap(ps)
    ensures forall i, j :: 0 <= i < j < |keys| ==> keys[i] != keys[j]
  {
    var ids := seq(|ps|, i requires 0 <= i < |ps| => ps[i].productId);
    assert forall p :: p in ids <==> p in GetMap(ps) by {
      forall p | p in GetMap(ps) ensures p in ids {
        var i :| 0 <= i < |ps| && ps[i].productId == p;
        assert ids[i] == p;
      }
    }
    FirstOccurrences(ids)
  }

  /** The product ids on the cart's lines. */
  function ProductIds(items: seq<CartItem>): set<int> {
    set i | 0 <= i < |items| :: items[i].productId
  }

  /** Units of `p` in the cart, summed over all its lines (0 if absent). */
  function Quantity(items: seq<CartItem>, p: int): int {
    if |items| == 0 then 0
    else
      Quantity(items[..|items| - 1], p)
      + (if items[|items| - 1].productId == p then items[|items| - 1].quantity else 0)
  }

  lemma {:induction false} QuantityAbsent(items: seq<CartItem>, p: int)
    requires p !in ProductIds(items)
    ensures Quantity(items, p) == 0
  {
    if |items| > 0 {
      var init := items[..|items| - 1];
      assert forall i :: 0 <= i < |init| ==> init[i] == items[i];
      assert ProductIds(init) <= ProductIds(items);
      QuantityAbsent(init, p);
    }
  }

  lemma {:induction false} QuantityNonNegative(items: seq<CartItem>, p: int)
    requires ValidCart(items)
    ensures Quantity(items, p) >= 0
  {
    if |items| > 0 {
      var init := items[..|items| - 1];
      assert forall i :: 0 <= i < |init| ==> init[i] == items[i];
      QuantityNonNegative(init, p);
    }
  }

  /** The `cart_products` counting loop over a `defaultdict(int)`. */
  method CountCartProducts(items: seq<CartItem>) returns (cartProducts: map<int, int>)
    ensures cartProducts.Keys == ProductIds(items)
    ensures forall p :: p in cartProducts ==> cartProducts[p] == Quantity(items, p)
  {
    cartProducts := map[];
    for i := 0 to |items|
      invariant cartProducts.Keys == ProductIds(items[..i])
      invariant forall p :: p in cartProducts ==> cartProducts[p] == Quantity(items[..i], p)
    {
      var prefix := items[..i + 1];
      assert prefix[..i] == items[..i];
      assert ProductIds(prefix) == ProductIds(items[..i]) + {items[i].productId} by {
        assert forall j :: 0 <= j < i ==> prefix[j] == items[..i][j];
      }
      var pid := items[i].productId;
      if pid !in cartProducts {
        QuantityAbsent(items[..i], pid);
      }
      var current := if pid in cartProducts then cartProducts[pid] else 0;
      cartProducts := cartProducts[pid := current + items[i].quantity];
    }
    assert items[..|items|] == items;
  }

  // ---------------------------------------------------------------------
  // is_applicable
  // ---------------------------------------------------------------------

  /** What `is_applicable` decides. The last conjunct reflects the
      `defaultdict`: reading `cart_products[p]` for a buy product inserts
      `p` with quantity 0, so a get product that is also a buy product
      counts as present even when the cart does not hold it. */
  predicate Applicable(coupon: Coupon, items: seq<CartItem>) {
    && coupon.bxgyDetails.Some?
    && var buy := BuyMap(coupon.bxgyDetails.value.buyProducts);
       var get := GetMap(coupon.bxgyDetails.value.getProducts);
       && |buy| > 0
       && |get| > 0
       && BuySatisfied(buy, items)
       && GetPresent(get, buy, items)
  }

  /** The cart holds at least one complete buy set. */
  predicate BuySatisfied(buy: map<int, nat>, items: seq<CartItem>) {
    forall p :: p in buy ==> Quantity(items, p) >= buy[p]
  }

  /** Some get product is a key of `cart_products` once the buy checks have
      run: a product of the cart or a buy product. */
  predicate GetPresent(get: map<int, nat>, buy: map<int, nat>, items: seq<CartItem>) {
    exists g :: g in get && (g in ProductIds(items) || g in buy)
  }

  /** `is_applicable` */
  method IsApplicable(coupon: Coupon, items: seq<CartItem>) returns (r: bool)
    ensures r == Applicable(coupon, items)
  {
    if coupon.bxgyDetails.None? {
      return false;
    }
    var d := coupon.bxgyDetails.value;
    var buyProducts := BuyMap(d.buyProducts);
    var getProducts := GetMap(d.getProducts);
    if |buyProducts| == 0 || |getProducts| == 0 {
      return false;
    }
    var cartProducts := CountCartProducts(items);
    var enough;
    enough, cartProducts := CheckBuyProducts(buyProducts, BuyKeys(d.buyProducts), cartProducts, items);
    if !enough {
      return false;
    }
    var getKeys := GetKeys(d.getProducts);
    r := FindGetProduct(getKeys, cartProducts);
    GetPresentIff(getProducts, getKeys, buyProducts, items, cartProducts);
  }

  /** Once the buy loop has inserted the buy products, looking for a get
      product among the keys of `cart_products` decides `GetPresent`. */
  lemma GetPresentIff(get: map<int, nat>, keys: seq<int>, buy: map<int, nat>, items: seq<CartItem>, after: map<int, int>)
    requires forall p :: p in keys <==> p in get
    requires after.Keys == ProductIds(items) + buy.Keys
    ensures (exists g :: g in keys && g in after) <==> GetPresent(get, buy, items)
  {
    if exists g :: g in keys && g in after {
      var g :| g in keys && g in after;
      assert g in get;
    }
  }

  /** The loop over the buy products, in the dictionary's order: every one
      must be held in its required quantity. Reading `cart_products[p]`
      inserts a missing `p` with 0. */
  method CheckBuyProducts(buy: map<int, nat>, keys: seq<int>, cartProducts: map<int, int>, items: seq<CartItem>)
    returns (enough: bool, after: map<int, int>)
    requires forall p :: p in keys <==> p in buy
    requires cartProducts.Keys == ProductIds(items)
    requires forall p :: p in cartProducts ==> cartProducts[p] == Quantity(items, p)
    ensures enough == BuySatisfied(buy, items)
    ensures enough ==> after.Keys == ProductIds(items) + buy.Keys
  {
    after := cartProducts;
    for i := 0 to |keys|
      invariant ProductIds(items) <= after.Keys <= ProductIds(items) + buy.Keys
      invariant forall j :: 0 <= j < i ==> keys[j] in after
      invariant forall p :: p in after ==> after[p] == Quantity(items, p)
      invariant forall j :: 0 <= j < i ==> Quantity(items, keys[j]) >= buy[keys[j]]
    {
      var p := keys[i];
      if p !in after {
        QuantityAbsent(items, p);
        after := after[p := 0];
      }
      if after[p] < buy[p] {
        return false, after;
      }
    }
    enough := true;
    forall p | p in buy ensures p in after && Quantity(items, p) >= buy[p] {
      var j :| 0 <= j < |keys| && keys[j] == p;
    }
    assert after.Keys == ProductIds(items) + buy.Keys by {
      forall p | p in ProductIds(items) + buy.Keys ensures p in after {
      }
    }
  }

  /** The loop over the get products: is any of them a key of `cart_products`? */
  method FindGetProduct(keys: seq<int>, cartProducts: map<int, int>) returns (found: bool)
    ensures found <==> exists g :: g in keys && g in cartProducts
  {
    for i := 0 to |keys|
      invariant forall j :: 0 <= j < i ==> keys[j] !in cartProducts
    {
      if keys[i] in cartProducts {
        var g := keys[i];
        assert g in keys;
        return true;
      }
    }
    return false;
  }

  /** An empty buy list or get list makes the coupon inapplicable, and so
      does any buy product the cart (all its lines together) holds fewer
      units of than the coupon requires. */
  lemma InapplicableWhenShort(coupon: Coupon, items: seq<CartItem>)
    requires coupon.bxgyDetails.Some?
    ensures |coupon.bxgyDetails.value.buyProducts| == 0 ==> !Applicable(coupon, items)
    ensures |coupon.bxgyDetails.value.getProducts| == 0 ==> !Applicable(coupon, items)
    ensures forall p :: (p in BuyMap(coupon.bxgyDetails.value.buyProducts) &&
      Quantity(items, p) < BuyMap(coupon.bxgyDetails.value.buyProducts)[p]) ==> !Applicable(coupon, items)
  {
  }

  /** The `defaultdict` side effect in action: a buy product asked for in
      quantity 0 that is also the get product makes the coupon applicable to
      a cart that holds neither. */
  lemma ZeroBuyQuantityCountsAsPresent()
    ensures var d := BxGyDetail(1, [BuyProduct(5, 0)], [GetProduct(5, 1)]);
      var coupon := Coupon(1, BxGy, "B0G1", "Buy none", None, true, None, None, None, Some(d));
      var items := [CartItem(1, 1, 100, None, None)];
      5 !in ProductIds(items) && Applicable(coupon, items)
  {
    var d := BxGyDetail(1, [BuyProduct(5, 0)], [GetProduct(5, 1)]);
    var items := [CartItem(1, 1, 100, None, None)];
    assert BuyMap(d.buyProducts) == map[5 := 0] by {
      assert d.buyProducts[..0] == [];
    }
    assert GetMap(d.getProducts) == map[5 := 1] by {
      assert d.getProducts[..0] == [];
    }
    assert items[..0] == [];
    assert Quantity(items, 5) == 0;
  }

  // ---------------------------------------------------------------------
  // calculate_repetition_count
  // ---------------------------------------------------------------------

  /** The buy products whose required quantity is positive. */
  function Positive(buy: map<int, nat>): set<int> {
    set p | p in buy && buy[p] > 0
  }

  /** Complete buy sets the cart holds as far as product `p` alone goes
      (Python's `//`, which for a positive divisor is Dafny's `/`). */
  function SetCount(items: seq<CartItem>, buy: map<int, nat>, p: int): int
    requires p in buy && buy[p] > 0
  {
    Quantity(items, p) / buy[p]
  }

  /** The list `set_counts`: one set count per buy product with a positive
      requirement, in the order of `keys`. */
  function SetCounts(keys: seq<int>, buy: map<int, nat>, items: seq<CartItem>): seq<int>
    requires forall p :: p in keys ==> p in buy
  {
    if |keys| == 0 then []
    else
      var init := keys[..|keys| - 1];
      var p := keys[|keys| - 1];
      assert forall q :: q in init ==> q in keys;
      SetCounts(init, buy, items) + (if buy[p] > 0 then [SetCount(items, buy, p)] else [])
  }

  /** `set_counts` holds the set count of every listed product with a
      positive requirement, and nothing else. */
  lemma {:induction false} SetCountsMembers(keys: seq<int>, buy: map<int, nat>, items: seq<CartItem>)
    requires forall p :: p in keys ==> p in buy
    ensures forall p :: p in keys && buy[p] > 0 ==> SetCount(items, buy, p) in SetCounts(keys, buy, items)
    ensures forall c :: c in SetCounts(keys, buy, items) ==>
      exists p :: p in keys && buy[p] > 0 && c == SetCount(items, buy, p)
  {
    if |keys| > 0 {
      var init := keys[..|keys| - 1];
      var last := keys[|keys| - 1];
      assert keys == init + [last];
      assert forall q :: q in init ==> q in keys;
      SetCountsMembers(init, buy, items);
      var counts := SetCounts(keys, buy, items);
      var initCounts := SetCounts(init, buy, items);
      assert counts == initCounts + (if buy[last] > 0 then [SetCount(items, buy, last)] else []);
      forall c | c in counts
        ensures exists p :: p in keys && buy[p] > 0 && c == SetCount(items, buy, p)
      {
        if c in initCounts {
          var p :| p in init && buy[p] > 0 && c == SetCount(items, buy, p);
          assert p in keys;
        } else {
          assert buy[last] > 0 && c == SetCount(items, buy, last);
        }
      }
    }
  }

  /** Python's `min` of a non-empty list. */
  function MinOf(s: seq<int>): (m: int)
    requires |s| > 0
    ensures m in s && forall x :: x in s ==> m <= x
  {
    if |s| == 1 then s[0]
    else
      var rest := MinOf(s[1..]);
      assert forall x :: x in s ==> x == s[0] || x in s[1..];
      if s[0] <= rest then s[0] else rest
  }

  /** What `calculate_repetition_count` returns. */
  function RepetitionCount(d: BxGyDetail, items: seq<CartItem>): int {
    var counts := SetCounts(BuyKeys(d.buyProducts), BuyMap(d.buyProducts), items);
    if |counts| == 0 then 0 else Min(MinOf(counts), d.repetitionLimit)
  }

  /** The repetition count lies between 0 and the repetition limit. It is
      the least number of complete buy sets over the buy products with a
      positive requirement, unless the limit is smaller; it is 0 when no buy
      product has a positive requirement. */
  lemma {:induction false} RepetitionCountIsCappedMinimum(d: BxGyDetail, items: seq<CartItem>)
    requires ValidCart(items)
    ensures var buy := BuyMap(d.buyProducts);
      var n := RepetitionCount(d, items);
      && 0 <= n <= d.repetitionLimit
      && (forall p :: p in Positive(buy) ==> n <= SetCount(items, buy, p))
      && ((forall p :: p in buy ==> buy[p] == 0) ==> n == 0)
      && ((exists p :: p in Positive(buy)) ==>
            n == d.repetitionLimit || exists q :: q in Positive(buy) && n == SetCount(items, buy, q))
  {
    CappedMinimum(BuyKeys(d.buyProducts), BuyMap(d.buyProducts), items, d.repetitionLimit);
  }

  lemma {:induction false} CappedMinimum(keys: seq<int>, buy: map<int, nat>, items: seq<CartItem>, limit: nat)
    requires ValidCart(items)
    requires forall p :: p in keys <==> p in buy
    ensures var counts := SetCounts(keys, buy, items);
      var n := if |counts| == 0 then 0 else Min(MinOf(counts), limit);
      && 0 <= n <= limit
      && (forall p :: p in Positive(buy) ==> n <= SetCount(items, buy, p))
      && ((forall p :: p in buy ==> buy[p] == 0) ==> n == 0)
      && ((exists p :: p in Positive(buy)) ==>
            n == limit || exists q :: q in Positive(buy) && n == SetCount(items, buy, q))
  {
    var counts := SetCounts(keys, buy, items);
    SetCountsMembers(keys, buy, items);
    if |counts| > 0 {
      var c := MinOf(counts);
      var q :| q in keys && buy[q] > 0 && c == SetCount(items, buy, q);
      assert q in buy && q in Positive(buy);
      SetCountNonNegative(items, buy, q);
      forall p | p in Positive(buy) ensures c <= SetCount(items, buy, p) {
        assert SetCount(items, buy, p) in counts;
      }
    }
  }

  lemma SetCountNonNegative(items: seq<CartItem>, buy: map<int, nat>, p: int)
    requires ValidCart(items) && p in buy && buy[p] > 0
    ensures SetCount(items, buy, p) >= 0
  {
    QuantityNonNegative(items, p);
  }

  /** `calculate_repetition_count`; the caller has established that the
      coupon carries BxGy details. */
  method CalculateRepetitionCount(coupon: Coupon, items: seq<CartItem>) returns (n: int)
    requires coupon.bxgyDetails.Some?
    ensures n == RepetitionCount(coupon.bxgyDetails.value, items)
  {
    var d := coupon.bxgyDetails.value;
    var buyProducts := BuyMap(d.buyProducts);
    var cartProducts := CountCartProducts(items);
    var setCounts := CollectSetCounts(BuyKeys(d.buyProducts), buyProducts, cartProducts, items);
    if |setCounts| == 0 {
      return 0;
    }
    var completeSets := MinOf(setCounts);
    n := Min(completeSets, d.repetitionLimit);
  }

  /** The `set_counts` loop over the buy products, skipping those required
      in quantity 0; reading `cart_products` inserts a missing product with
      0. */
  method CollectSetCounts(keys: seq<int>, buy: map<int, nat>, cartProducts: map<int, int>, items: seq<CartItem>)
    returns (setCounts: seq<int>)
    requires forall p :: p in keys ==> p in buy
    requires ProductIds(items) <= cartProducts.Keys
    requires forall p :: p in cartProducts ==> cartProducts[p] == Quantity(items, p)
    ensures setCounts == SetCounts(keys, buy, items)
  {
    var counts := cartProducts;
    setCounts := [];
    for i := 0 to |keys|
      invariant ProductIds(items) <= counts.Keys
      invariant forall p :: p in counts ==> counts[p] == Quantity(items, p)
      invariant setCounts == SetCounts(keys[..i], buy, items)
    {
      assert keys[..i + 1][..i] == keys[..i];
      assert forall q :: q in keys[..i + 1] ==> q in keys;
      var p := keys[i];
      var requiredQuantity := buy[p];
      if requiredQuantity <= 0 {
        continue;
      }
      if p !in counts {
        QuantityAbsent(items, p);
        counts := counts[p := 0];
      }
      setCounts := setCounts + [counts[p] / requiredQuantity];
    }
    assert keys[..|keys|] == keys;
  }

  // ---------------------------------------------------------------------
  // The eligible "get" lines
  // ---------------------------------------------------------------------

  /** A cart line whose product is a get product, with its index in the
      cart and the number of units one repetition makes free. */
  datatype Eligible = Eligible(index: nat, productId: int, price: int, quantity: int, requiredQuantity: int)

  /** `e` stands for the cart line at its index, whose product is a get
      product. */
  predicate Describes(e: Eligible, items: seq<CartItem>, get: map<int, nat>) {
    && e.index < |items|
    && items[e.index].productId == e.productId
    && e.productId in get
    && e.price == items[e.index].price
    && e.quantity == items[e.index].quantity
    && e.requiredQuantity == get[e.productId]
  }

  /** The eligible lines in cart order. */
  function EligibleLines(items: seq<CartItem>, get: map<int, nat>): seq<Eligible> {
    if |items| == 0 then []
    else
      var last := items[|items| - 1];
      EligibleLines(items[..|items| - 1], get)
      + (if last.productId in get
         then [Eligible(|items| - 1, last.productId, last.price, last.quantity, get[last.productId])]
         else [])
  }

  /** The sort key of `eligible_get_items.sort(key=lambda x: x['price'])`. */
  function PriceOf(e: Eligible): int {
    e.price
  }

  function IndexOf(e: Eligible): int {
    e.index
  }

  /** The eligible lines in the order the greedy loop visits them. */
  function SortedEligible(items: seq<CartItem>, get: map<int, nat>): seq<Eligible> {
    SortBy(EligibleLines(items, get), PriceOf)
  }

  /** Every eligible line describes its cart line; every cart line whose
      product is a get product is eligible; and the lines come in cart
      order. */
  lemma EligibleLinesFaithful(items: seq<CartItem>, get: map<int, nat>)
    ensures forall k :: 0 <= k < |EligibleLines(items, get)| ==> Describes(EligibleLines(items, get)[k], items, get)
    ensures forall i :: 0 <= i < |items| && items[i].productId in get ==> i in Indices(EligibleLines(items, get))
    ensures forall k, l :: 0 <= k < l < |EligibleLines(items, get)| ==>
      EligibleLines(items, get)[k].index < EligibleLines(items, get)[l].index
  {
    EligibleLinesDescribe(items, get);
    EligibleLinesComplete(items, get);
    EligibleLinesIncreasing(items, get);
  }

  lemma {:induction false} EligibleLinesDescribe(items: seq<CartItem>, get: map<int, nat>)
    ensures forall k :: 0 <= k < |EligibleLines(items, get)| ==> Describes(EligibleLines(items, get)[k], items, get)
  {
    if |items| > 0 {
      var init := items[..|items| - 1];
      EligibleLinesDescribe(init, get);
      assert forall i :: 0 <= i < |init| ==> init[i] == items[i];
      var el := EligibleLines(items, get);
      var elInit := EligibleLines(init, get);
      assert forall k :: 0 <= k < |elInit| ==> el[k] == elInit[k];
    }
  }

  lemma {:induction false} EligibleLinesComplete(items: seq<CartItem>, get: map<int, nat>)
    ensures forall i :: 0 <= i < |items| && items[i].productId in get ==> i in Indices(EligibleLines(items, get))
  {
    if |items| > 0 {
      var init := items[..|items| - 1];
      EligibleLinesComplete(init, get);
      assert forall i :: 0 <= i < |init| ==> init[i] == items[i];
      var el := EligibleLines(items, get);
      var elInit := EligibleLines(init, get);
      assert forall k :: 0 <= k < |elInit| ==> el[k] == elInit[k];
      forall i | 0 <= i < |items| && items[i].productId in get
        ensures i in Indices(el)
      {
        if i == |items| - 1 {
          assert el[|el| - 1].index == i;
        } else {
          var k :| 0 <= k < |elInit| && elInit[k].index == i;
          assert el[k].index == i;
        }
      }
    }
  }

  lemma {:induction false} EligibleLinesIncreasing(items: seq<CartItem>, get: map<int, nat>)
    ensures forall k :: 0 <= k < |EligibleLines(items, get)| ==> EligibleLines(items, get)[k].index < |items|
    ensures forall k, l :: 0 <= k < l < |EligibleLines(items, get)| ==>
      EligibleLines(items, get)[k].index < EligibleLines(items, get)[l].index
  {
    if |items| > 0 {
      var init := items[..|items| - 1];
      EligibleLinesIncreasing(init, get);
      var el := EligibleLines(items, get);
      var elInit := EligibleLines(init, get);
      assert forall k :: 0 <= k < |elInit| ==> el[k] == elInit[k];
    }
  }

  /** The sorted eligible lines visit prices in non-decreasing order, are a
      permutation of the eligible lines, and lines of equal price keep their
      cart order. */
  lemma SortedEligibleOrder(items: seq<CartItem>, get: map<int, nat>)
    ensures var sorted := SortedEligible(items, get);
      && (forall k, l :: 0 <= k < l < |sorted| ==> sorted[k].price <= sorted[l].price)
      && multiset(sorted) == multiset(EligibleLines(items, get))
      && (forall price :: WithKey(sorted, PriceOf, price) == WithKey(EligibleLines(items, get), PriceOf, price))
  {
    SortByIsStableSort(EligibleLines(items, get), PriceOf);
  }

  /** Every required quantity among the eligible lines is positive. */
  predicate RequiredPositive(el: seq<Eligible>) {
    forall k :: 0 <= k < |el| ==> el[k].requiredQuantity > 0
  }

  /** The sorted lines still describe their cart lines, no two of them the
      same line; their required quantities are positive when the get
      products' are. */
  lemma SortedEligibleFaithful(items: seq<CartItem>, get: map<int, nat>)
    ensures forall k :: 0 <= k < |SortedEligible(items, get)| ==> Describes(SortedEligible(items, get)[k], items, get)
    ensures DistinctBy(SortedEligible(items, get), IndexOf)
    ensures (forall g :: g in get ==> get[g] > 0) ==> RequiredPositive(SortedEligible(items, get))
  {
    EligibleLinesFaithful(items, get);
    var el := EligibleLines(items, get);
    var sorted := SortedEligible(items, get);
    forall k | 0 <= k < |sorted| ensures Describes(sorted[k], items, get) {
      var e := sorted[k];
      assert e in multiset(sorted);
      assert e in multiset(el);
      var m :| 0 <= m < |el| && el[m] == e;
    }
    SortByDistinctBy(el, PriceOf, IndexOf);
  }

  /** The `eligible_get_items` collecting loop. */
  method CollectEligible(items: seq<CartItem>, get: map<int, nat>) returns (eligible: seq<Eligible>)
    ensures eligible == EligibleLines(items, get)
  {
    eligible := [];
    for i := 0 to |items|
      invariant eligible == EligibleLines(items[..i], get)
    {
      assert items[..i + 1][..i] == items[..i];
      if items[i].productId in get {
        eligible := eligible + [Eligible(i, items[i].productId, items[i].price, items[i].quantity, get[items[i].productId])];
      }
    }
    assert items[..|items|] == items;
  }

  // ---------------------------------------------------------------------
  // The greedy loop
  // ---------------------------------------------------------------------

  /** The state of the greedy loop: the repetitions still to grant, the
      value of the free units so far (`total_discount`, in cents), the
      discounts recorded per cart line (`item_discounts`), and the
      repetitions granted per cart line (which the source does not keep).
      Prices are whole cents, so rounding a line's discount to the cent
      changes nothing. */
  datatype Greedy = Greedy(remaining: int, value: int, discounts: map<int, int>, granted: map<int, int>)

  /** Repetitions line `e` can hold on its own (`max_free_items //
      required_quantity`). */
  function Capacity(e: Eligible): int
    requires e.requiredQuantity > 0
  {
    e.quantity / e.requiredQuantity
  }

  /** One turn of the loop: when repetitions remain, the line takes as many
      as it can hold, and each makes `requiredQuantity` of its units free. */
  function Step(g: Greedy, e: Eligible): Greedy
    requires e.requiredQuantity > 0
  {
    if g.remaining <= 0 then g
    else
      var repeats := Min(g.remaining, Capacity(e));
      if repeats > 0 then
        var itemDiscount := repeats * e.requiredQuantity * e.price;
        Greedy(g.remaining - repeats, g.value + itemDiscount,
               g.discounts[e.index := itemDiscount], g.granted[e.index := repeats])
      else g
  }

  /** The loop run over `el` starting with `n` repetitions. */
  function Run(el: seq<Eligible>, n: int): Greedy
    requires RequiredPositive(el)
  {
    if |el| == 0 then Greedy(n, 0, map[], map[])
    else
      var init := el[..|el| - 1];
      assert RequiredPositive(init) by {
        assert forall k :: 0 <= k < |init| ==> init[k] == el[k];
      }
      Step(Run(init, n), el[|el| - 1])
  }

  /** Repetitions all the lines of `el` together can hold. */
  function TotalCapacity(el: seq<Eligible>): int
    requires RequiredPositive(el)
  {
    if |el| == 0 then 0
    else
      var init := el[..|el| - 1];
      assert RequiredPositive(init) by {
        assert forall k :: 0 <= k < |init| ==> init[k] == el[k];
      }
      TotalCapacity(init) + Capacity(el[|el| - 1])
  }

  /** Once the repetitions run out the remaining lines change nothing, so
      leaving the loop early (`break`) gives the same state. */
  lemma {:induction false} RunExhausted(el: seq<Eligible>, n: int, j: nat)
    requires RequiredPositive(el) && j <= |el|
    requires RequiredPositive(el[..j])
    requires j == |el| || Run(el[..j], n).remaining <= 0
    ensures Run(el, n) == Run(el[..j], n)
  {
    if j < |el| {
      var init := el[..|el| - 1];
      assert RequiredPositive(init) by {
        assert forall k :: 0 <= k < |init| ==> init[k] == el[k];
      }
      assert init[..j] == el[..j];
      RunExhausted(init, n, j);
    } else {
      assert el[..j] == el;
    }
  }

  /** The loop grants as many repetitions as it has, or as many as the lines
      can hold if that is fewer. */
  lemma {:induction false} RunGrants(el: seq<Eligible>, n: int)
    requires RequiredPositive(el) && n >= 0
    requires forall k :: 0 <= k < |el| ==> el[k].quantity >= 0
    ensures 0 <= Run(el, n).remaining <= n
    ensures n - Run(el, n).remaining == Min(n, TotalCapacity(el))
  {
    if |el| > 0 {
      var init := el[..|el| - 1];
      assert forall k :: 0 <= k < |init| ==> init[k] == el[k];
      RunGrants(init, n);
      var e := el[|el| - 1];
      assert Capacity(e) >= 0;
    }
  }

  /** The units a line gives away are at most its quantity, so their value
      is at most the line's value. */
  lemma FreeUnitsWithinLine(repeats: int, required: int, quantity: int, price: int)
    requires required > 0 && quantity >= 0 && price >= 0
    requires 0 <= repeats <= quantity / required
    ensures 0 <= repeats * required * price <= price * quantity
  {
    var free := repeats * required;
    assert free <= (quantity / required) * required <= quantity;
    assert 0 <= free;
    assert free * price <= quantity * price;
  }

  /** The cart lines the loop's discounts are recorded for. */
  function Indices(el: seq<Eligible>): set<int> {
    set k | 0 <= k < |el| :: el[k].index
  }

  /** Each line's recorded discount is between nothing and the line's value,
      and is recorded against one of the visited lines; the value given away
      is not negative. */
  lemma {:induction false} RunBounds(el: seq<Eligible>, n: int, items: seq<CartItem>, get: map<int, nat>)
    requires RequiredPositive(el) && ValidCart(items)
    requires forall k :: 0 <= k < |el| ==> Describes(el[k], items, get)
    ensures Run(el, n).value >= 0
    ensures Run(el, n).discounts.Keys <= Indices(el)
    ensures forall i :: i in Run(el, n).discounts ==>
      0 <= i < |items| && 0 <= Run(el, n).discounts[i] <= LineTotal(items[i])
  {
    if |el| > 0 {
      var init := el[..|el| - 1];
      assert forall k :: 0 <= k < |init| ==> init[k] == el[k];
      RunBounds(init, n, items, get);
      var e := el[|el| - 1];
      assert Indices(el) == Indices(init) + {e.index} by {
        assert forall k :: 0 <= k < |init| ==> init[k] == el[k];
      }
      var g := Run(init, n);
      if g.remaining > 0 {
        var repeats := Min(g.remaining, Capacity(e));
        if repeats > 0 {
          FreeUnitsWithinLine(repeats, e.requiredQuantity, e.quantity, e.price);
        }
      }
    }
  }

  /** With every line recorded once, the recorded discounts add up to the
      value given away. */
  lemma {:induction false} RunSum(el: seq<Eligible>, n: int, size: nat)
    requires RequiredPositive(el) && DistinctBy(el, IndexOf)
    requires forall k :: 0 <= k < |el| ==> el[k].index < size
    ensures Run(el, n).discounts.Keys <= Indices(el)
    ensures DiscountSum(Run(el, n).discounts, size) == Run(el, n).value
  {
    if |el| == 0 {
      NoDiscountsSumToZero(size);
    } else {
      var init := el[..|el| - 1];
      assert forall k :: 0 <= k < |init| ==> init[k] == el[k];
      RunSum(init, n, size);
      var e := el[|el| - 1];
      assert Indices(el) == Indices(init) + {e.index} by {
        assert forall k :: 0 <= k < |init| ==> init[k] == el[k];
      }
      assert e.index !in Indices(init) by {
        forall k | 0 <= k < |init| ensures init[k].index != e.index {
          assert IndexOf(el[k]) != IndexOf(el[|el| - 1]);
        }
      }
      var g := Run(init, n);
      if g.remaining > 0 {
        var repeats := Min(g.remaining, Capacity(e));
        if repeats > 0 {
          DiscountSumUpdate(g.discounts, e.index, repeats * e.requiredQuantity * e.price, size);
        }
      }
    }
  }

  /** Each line the state records gets a positive number of repetitions, so
      a multiple of its required quantity in free units, never more than the
      line holds, and its discount is the value of those units. */
  ghost predicate Allocated(g: Greedy, items: seq<CartItem>, get: map<int, nat>) {
    && g.granted.Keys == g.discounts.Keys
    && forall i :: i in g.granted ==>
      && 0 <= i < |items| && items[i].productId in get
      && 0 < g.granted[i]
      && g.granted[i] * get[items[i].productId] <= items[i].quantity
      && g.discounts[i] == g.granted[i] * get[items[i].productId] * items[i].price
  }

  /** Repetitions within a line's capacity free no more units than it holds. */
  lemma FreeUnitsWithinQuantity(repeats: int, required: int, quantity: int)
    requires required > 0 && repeats <= quantity / required
    ensures repeats * required <= quantity
  {
    assert (quantity / required) * required <= quantity;
  }

  /** One turn of the loop over a line describing the cart keeps the
      allocation facts. */
  lemma StepAllocated(g: Greedy, e: Eligible, items: seq<CartItem>, get: map<int, nat>)
    requires e.requiredQuantity > 0 && Describes(e, items, get)
    requires Allocated(g, items, get)
    ensures Allocated(Step(g, e), items, get)
  {
    if g.remaining > 0 {
      var repeats := Min(g.remaining, Capacity(e));
      if repeats > 0 {
        FreeUnitsWithinQuantity(repeats, e.requiredQuantity, e.quantity);
      }
    }
  }

  /** The loop over lines describing the cart keeps the allocation facts. */
  lemma {:induction false} RunAllocation(el: seq<Eligible>, n: int, items: seq<CartItem>, get: map<int, nat>)
    requires RequiredPositive(el)
    requires forall k :: 0 <= k < |el| ==> Describes(el[k], items, get)
    ensures Allocated(Run(el, n), items, get)
  {
    if |el| > 0 {
      var init := el[..|el| - 1];
      assert forall k :: 0 <= k < |init| ==> init[k] == el[k];
      RunAllocation(init, n, items, get);
      StepAllocated(Run(init, n), el[|el| - 1], items, get);
    }
  }

  /** With every line visited once, the repetitions granted line by line
      add up to the repetitions spent. */
  lemma {:induction false} RunSpent(el: seq<Eligible>, n: int, size: nat)
    requires RequiredPositive(el) && DistinctBy(el, IndexOf)
    requires forall k :: 0 <= k < |el| ==> el[k].index < size
    ensures Run(el, n).granted.Keys <= Indices(el)
    ensures DiscountSum(Run(el, n).granted, size) == n - Run(el, n).remaining
  {
    if |el| == 0 {
      NoDiscountsSumToZero(size);
    } else {
      var init := el[..|el| - 1];
      assert forall k :: 0 <= k < |init| ==> init[k] == el[k];
      RunSpent(init, n, size);
      var e := el[|el| - 1];
      assert Indices(el) == Indices(init) + {e.index} by {
        assert forall k :: 0 <= k < |init| ==> init[k] == el[k];
      }
      assert e.index !in Indices(init) by {
        forall k | 0 <= k < |init| ensures init[k].index != e.index {
          assert IndexOf(el[k]) != IndexOf(el[|el| - 1]);
        }
      }
      var g := Run(init, n);
      if g.remaining > 0 {
        var repeats := Min(g.remaining, Capacity(e));
        if repeats > 0 {
          DiscountSumUpdate(g.granted, e.index, repeats, size);
        }
      }
    }
  }

  // ---------------------------------------------------------------------
  // calculate_discount and apply_discount
  // ---------------------------------------------------------------------

  /** Get quantities must be positive for the division in the loop; a zero
      one raises. */
  predicate Evaluable(coupon: Coupon) {
    coupon.bxgyDetails.Some? ==> GetQuantitiesPositive(coupon.bxgyDetails.value)
  }

  /** The state the greedy loop ends in, or nothing granted when the coupon
      does not apply or the cart holds no complete buy set. */
  function Grant(coupon: Coupon, items: seq<CartItem>): Greedy
    requires Evaluable(coupon)
  {
    if !Applicable(coupon, items) then Greedy(0, 0, map[], map[])
    else
      var d := coupon.bxgyDetails.value;
      var n := RepetitionCount(d, items);
      if n == 0 then Greedy(0, 0, map[], map[])
      else
        var get := GetMap(d.getProducts);
        SortedEligibleFaithful(items, get);
        Run(SortedEligible(items, get), n)
  }

  /** What `calculate_discount` returns: the value of the free units. */
  function Discount(coupon: Coupon, items: seq<CartItem>): (r: int)
    requires Evaluable(coupon)
    ensures !Applicable(coupon, items) ==> r == 0
  {
    Grant(coupon, items).value
  }

  /** The cart `apply_discount` returns. */
  function Applied(coupon: Coupon, items: seq<CartItem>): DiscountedCart
    requires Evaluable(coupon)
  {
    Rewrite(items, Grant(coupon, items).discounts)
  }

  /** `Grant` when the coupon applies and the cart holds a complete buy
      set: the loop over the sorted eligible lines. */
  lemma GrantRunsTheLoop(coupon: Coupon, items: seq<CartItem>)
    requires Evaluable(coupon) && Applicable(coupon, items)
    requires RepetitionCount(coupon.bxgyDetails.value, items) != 0
    ensures var get := GetMap(coupon.bxgyDetails.value.getProducts);
      && RequiredPositive(SortedEligible(items, get))
      && Grant(coupon, items) == Run(SortedEligible(items, get), RepetitionCount(coupon.bxgyDetails.value, items))
  {
    SortedEligibleFaithful(items, GetMap(coupon.bxgyDetails.value.getProducts));
  }

  /** `calculate_discount` */
  method CalculateDiscount(coupon: Coupon, items: seq<CartItem>) returns (r: int)
    requires Evaluable(coupon)
    ensures r == Discount(coupon, items)
  {
    var applicable := IsApplicable(coupon, items);
    if !applicable {
      return 0;
    }
    var repetitionCount := CalculateRepetitionCount(coupon, items);
    if repetitionCount == 0 {
      return 0;
    }
    var getProducts := GetMap(coupon.bxgyDetails.value.getProducts);
    var eligible := CollectEligible(items, getProducts);
    eligible := SortBy(eligible, PriceOf);
    GrantRunsTheLoop(coupon, items);
    var total := FreeValue(eligible, repetitionCount);
    QuantizeExact(total);
    r := Quantize(Exact(total));
  }

  /** The loop of `calculate_discount`, which adds up the value of the free
      units. */
  method FreeValue(eligible: seq<Eligible>, repetitionCount: int) returns (total: int)
    requires RequiredPositive(eligible)
    ensures total == Run(eligible, repetitionCount).value
  {
    var remaining := repetitionCount;
    total := 0;
    var j := 0;
    while j < |eligible|
      invariant 0 <= j <= |eligible|
      invariant RequiredPositive(eligible[..j])
      invariant remaining == Run(eligible[..j], repetitionCount).remaining
      invariant total == Run(eligible[..j], repetitionCount).value
    {
      if remaining <= 0 {
        break;
      }
      assert eligible[..j + 1][..j] == eligible[..j];
      var item := eligible[j];
      var repeats := Min(remaining, item.quantity / item.requiredQuantity);
      if repeats > 0 {
        var freeItems := repeats * item.requiredQuantity;
        var itemDiscount := freeItems * item.price;
        total := total + itemDiscount;
        remaining := remaining - repeats;
      }
      j := j + 1;
    }
    RunExhausted(eligible, repetitionCount, j);
  }

  /** `apply_discount` */
  method ApplyDiscount(coupon: Coupon, items: seq<CartItem>) returns (cart: DiscountedCart)
    requires Evaluable(coupon)
    ensures cart == Applied(coupon, items)
  {
    var applicable := IsApplicable(coupon, items);
    if !applicable {
      cart := CreateDiscountedCart(items, map[]);
      return;
    }
    var repetitionCount := CalculateRepetitionCount(coupon, items);
    if repetitionCount == 0 {
      cart := CreateDiscountedCart(items, map[]);
      return;
    }
    var getProducts := GetMap(coupon.bxgyDetails.value.getProducts);
    var eligible := CollectEligible(items, getProducts);
    eligible := SortBy(eligible, PriceOf);
    GrantRunsTheLoop(coupon, items);
    var itemDiscounts := FreeLineDiscounts(eligible, repetitionCount);
    cart := CreateDiscountedCart(items, itemDiscounts);
  }

  /** The loop of `apply_discount`, which records each line's discount. */
  method FreeLineDiscounts(eligible: seq<Eligible>, repetitionCount: int) returns (itemDiscounts: map<int, int>)
    requires RequiredPositive(eligible)
    ensures itemDiscounts == Run(eligible, repetitionCount).discounts
  {
    var remaining := repetitionCount;
    itemDiscounts := map[];
    var j := 0;
    while j < |eligible|
      invariant 0 <= j <= |eligible|
      invariant RequiredPositive(eligible[..j])
      invariant remaining == Run(eligible[..j], repetitionCount).remaining
      invariant itemDiscounts == Run(eligible[..j], repetitionCount).discounts
    {
      if remaining <= 0 {
        break;
      }
      assert eligible[..j + 1][..j] == eligible[..j];
      var item := eligible[j];
      var repeats := Min(remaining, item.quantity / item.requiredQuantity);
      if repeats > 0 {
        var freeItems := repeats * item.requiredQuantity;
        var itemDiscount := freeItems * item.price;
        QuantizeExact(itemDiscount);
        itemDiscounts := itemDiscounts[item.index := Quantize(Exact(itemDiscount))];
        remaining := remaining - repeats;
      }
      j := j + 1;
    }
    RunExhausted(eligible, repetitionCount, j);
  }

  /** A coupon that does not apply, or a cart without a complete buy set,
      gives nothing away and leaves every line undiscounted. */
  lemma NothingFreeWithoutASet(coupon: Coupon, items: seq<CartItem>)
    requires Evaluable(coupon)
    requires !Applicable(coupon, items) || RepetitionCount(coupon.bxgyDetails.value, items) == 0
    ensures Discount(coupon, items) == 0
    ensures Applied(coupon, items) == Rewrite(items, map[])
    ensures Applied(coupon, items).totalDiscount == 0
  {
    NoDiscountsSumToZero(|items|);
  }

  /** On a valid cart the discounted cart gives away at most what the cart
      is worth, each line at most its own value, and its final price is the
      exact difference. */
  lemma AppliedWithinTotal(coupon: Coupon, items: seq<CartItem>)
    requires Evaluable(coupon) && ValidCart(items)
    ensures forall i :: 0 <= i < |items| ==>
      0 <= Applied(coupon, items).items[i].totalDiscount <= LineTotal(items[i])
    ensures 0 <= Applied(coupon, items).totalDiscount <= Applied(coupon, items).totalPrice
    ensures Applied(coupon, items).finalPrice == Applied(coupon, items).totalPrice - Applied(coupon, items).totalDiscount
  {
    var discounts := Grant(coupon, items).discounts;
    GrantWithinLines(coupon, items);
    RewriteWithinTotal(items, discounts);
  }

  /** Every discount the loop records is for a line of the cart and lies
      between nothing and that line's value. */
  lemma GrantWithinLines(coupon: Coupon, items: seq<CartItem>)
    requires Evaluable(coupon) && ValidCart(items)
    ensures forall i :: 0 <= i < |items| ==>
      0 <= DiscountAt(Grant(coupon, items).discounts, i) <= LineTotal(items[i])
  {
    var g := Grant(coupon, items);
    if Applicable(coupon, items) && RepetitionCount(coupon.bxgyDetails.value, items) != 0 {
      var get := GetMap(coupon.bxgyDetails.value.getProducts);
      var n := RepetitionCount(coupon.bxgyDetails.value, items);
      GrantRunsTheLoop(coupon, items);
      SortedEligibleFaithful(items, get);
      var sorted := SortedEligible(items, get);
      assert g == Run(sorted, n);
      RunWithinLines(sorted, n, items, get);
    } else {
      assert g.discounts == map[];
      forall i | 0 <= i < |items| ensures 0 <= DiscountAt(g.discounts, i) <= LineTotal(items[i]) {
        LineTotalNonNegative(items[i]);
      }
    }
  }

  lemma RunWithinLines(el: seq<Eligible>, n: int, items: seq<CartItem>, get: map<int, nat>)
    requires RequiredPositive(el) && ValidCart(items)
    requires forall k :: 0 <= k < |el| ==> Describes(el[k], items, get)
    ensures forall i :: 0 <= i < |items| ==> 0 <= DiscountAt(Run(el, n).discounts, i) <= LineTotal(items[i])
  {
    RunBounds(el, n, items, get);
  }

  /** `calculate_discount` and the total discount of `apply_discount`
      agree: the free units' value is recorded line by line, each line once. */
  lemma DiscountAgrees(coupon: Coupon, items: seq<CartItem>)
    requires Evaluable(coupon)
    ensures Discount(coupon, items) == Applied(coupon, items).totalDiscount
  {
    if Applicable(coupon, items) && RepetitionCount(coupon.bxgyDetails.value, items) != 0 {
      var get := GetMap(coupon.bxgyDetails.value.getProducts);
      SortedEligibleFaithful(items, get);
      RunSum(SortedEligible(items, get), RepetitionCount(coupon.bxgyDetails.value, items), |items|);
    } else {
      NoDiscountsSumToZero(|items|);
    }
  }

  /** On a valid cart the loop grants the repetition count in full, or as
      many repetitions as the eligible lines can hold if that is fewer. */
  lemma RepetitionsGranted(coupon: Coupon, items: seq<CartItem>)
    requires Evaluable(coupon) && ValidCart(items)
    requires Applicable(coupon, items) && RepetitionCount(coupon.bxgyDetails.value, items) > 0
    ensures var n := RepetitionCount(coupon.bxgyDetails.value, items);
      var get := GetMap(coupon.bxgyDetails.value.getProducts);
      RequiredPositive(SortedEligible(items, get)) &&
      n - Grant(coupon, items).remaining == Min(n, TotalCapacity(SortedEligible(items, get)))
  {
    var get := GetMap(coupon.bxgyDetails.value.getProducts);
    SortedEligibleFaithful(items, get);
    var sorted := SortedEligible(items, get);
    assert forall k :: 0 <= k < |sorted| ==> sorted[k].quantity >= 0 by {
      forall k | 0 <= k < |sorted| ensures sorted[k].quantity >= 0 {
        assert Describes(sorted[k], items, get);
      }
    }
    RunGrants(SortedEligible(items, get), RepetitionCount(coupon.bxgyDetails.value, items));
  }

  /** The allocation the greedy loop makes for a coupon: every discounted
      line holds a get product and gets a positive number of repetitions,
      whose free units (a multiple of the product's required quantity) do
      not exceed the line's quantity and whose value is the line's discount;
      the repetitions granted over all lines never exceed the repetition
      count. */
  lemma GreedyAllocation(coupon: Coupon, items: seq<CartItem>)
    requires Evaluable(coupon) && ValidCart(items) && coupon.bxgyDetails.Some?
    ensures var g := Grant(coupon, items);
      var get := GetMap(coupon.bxgyDetails.value.getProducts);
      && g.granted.Keys == g.discounts.Keys
      && (forall i :: i in g.granted ==>
            && 0 <= i < |items| && items[i].productId in get
            && 0 < g.granted[i]
            && g.granted[i] * get[items[i].productId] <= items[i].quantity
            && g.discounts[i] == g.granted[i] * get[items[i].productId] * items[i].price)
      && 0 <= DiscountSum(g.granted, |items|) <= RepetitionCount(coupon.bxgyDetails.value, items)
  {
    var d := coupon.bxgyDetails.value;
    RepetitionCountIsCappedMinimum(d, items);
    if Applicable(coupon, items) && RepetitionCount(d, items) != 0 {
      var get := GetMap(d.getProducts);
      var n := RepetitionCount(d, items);
      GrantRunsTheLoop(coupon, items);
      SortedEligibleFaithful(items, get);
      var sorted := SortedEligible(items, get);
      RunAllocation(sorted, n, items, get);
      forall k | 0 <= k < |sorted| ensures sorted[k].index < |items| {
        assert Describes(sorted[k], items, get);
      }
      RunSpent(sorted, n, |items|);
      forall k | 0 <= k < |sorted| ensures sorted[k].quantity >= 0 {
        assert Describes(sorted[k], items, get);
      }
      RunGrants(sorted, n);
    } else {
      NoDiscountsSumToZero(|items|);
    }
  }
}
