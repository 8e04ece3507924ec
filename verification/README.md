# Coupon evaluation engine, modelled in Dafny

This project models the engine of a coupon service. It decides which
stored coupons a shopping cart qualifies for and what each is worth, and it
rewrites a cart under one chosen coupon. There are three kinds of coupon:

- **Cart-wise** (`CartWise`): the cart's value must reach a threshold. The
  discount is a percentage of the cart, a fixed amount capped at the cart's
  value, or a flat 5.00 "shipping" refund. It is attributed to the cart as a
  whole.
- **Product-wise** (`ProductWise`): a line matches on product id, category
  or brand. Each matching line gets a per-unit percentage or a per-unit
  fixed amount (capped at the unit price), times its quantity.
- **Buy X get Y** (`BxGy`): the cart must hold every buy product in its
  required quantity.
  - The number of complete buy sets, capped by the coupon's repetition
    limit, is the repetition count.
  - The count is spent greedily over the cart lines holding get products,
    cheapest first.
  - The value of the units given away becomes a discount on those lines.

Around them sit the records and their expiry predicates (`Models`), the
shared cart rewrite (`Cart`), and the selection service (`Services`):

- listing the live, applicable coupons with a positive discount, best first;
- applying one coupon chosen by its id.

Modelling conventions:

- **Money.** Amounts are integer cents. A percentage is in hundredths of a
  percentage point. Exact intermediate amounts are in ten-thousandths of a
  cent (`Money.SubUnits`). `quantize(Decimal('0.01'))` is `Money.Quantize`,
  which rounds half to even as the default decimal context does.
- **Dictionaries.**
  - A Python dict is a `map`, built so that a later entry wins, as a dict
    comprehension does.
  - A loop over a dict's keys runs over the keys in first-insertion order
    (`BxGy.FirstOccurrences`).
  - Reading a missing key of a `defaultdict` inserts it with 0, and the
    model keeps that effect.
- **Sorting.** `list.sort` is a stable sort, `Sorting.SortBy`. A
  `reverse=True` sort is still stable, so it is the stable ascending sort on
  the negated key.
- **Catalog and clock.** The coupon store is a sequence of coupons in the
  order the store returns them. The clock is an integer parameter `now`.
- **Detail records.** Each is optional on its coupon (one `Option` field
  per one-to-one relation), independently of the coupon's type. So a
  missing detail makes an evaluator answer "not applicable", as the
  attribute checks in the source do.
- **Unknown values.** A coupon type or discount type outside the declared
  choices is a constructor of its own (`OtherType`, `OtherDiscount`). The
  columns are character fields and admit such values.
- **Imperative code.** Every loop of the source is a `method` proved equal
  to a specification function. The properties are lemmas about those
  functions.

## Model

| member | source | states |
|---|---|---|
| Models.ExpiryIsStrict | coupons/models.py:27-31 | A coupon without an expiry date is never expired. With one, it is expired exactly when the clock is strictly past that date, so it is still unexpired at that very instant. |
| Models.ExpiryIsPermanent | coupons/models.py:27-31 | Once a coupon is expired, it stays expired at every later clock reading. |
| Models.ValidMeansActiveAndUnexpired | coupons/models.py:33-35 | A coupon is valid iff it is active and either has no expiry date or the clock is not past it. An inactive coupon is never valid. |
| Money.Quantize | coupons/coupon_logics/cart_wise.py:44 | The rounded amount is within half a cent of the exact amount. An exact tie goes to the even cent. |
| Sorting.SortByIsStableSort | coupons/coupon_logics/bxgy.py:82 | The sort's result is ordered by the key and is a permutation of its input. For every key value, the elements with that key keep their relative order (stability). |
| Cart.CreateDiscountedCart | coupons/coupon_logics/bxgy.py:224-269 | The shared `create_discounted_cart` loop of the BxGy and product-wise evaluators returns the specified rewrite of the cart under the per-line discount map. Totals are accumulated and then rounded to the cent. |
| Cart.RewriteShape | coupons/coupon_logics/product_wise.py:126-169 | The rewritten cart has one line per cart line, in order, with the same product id, quantity and price. A line absent from the discount map gets a zero discount. The final price is `max(0, total − discount)`, hence never negative. |
| Cart.TotalNonNegative | coupons/coupon_logics/cart_wise.py:78-94 | A cart with non-negative prices and positive quantities has a non-negative total. |
| Cart.RewriteWithinTotal | coupons/coupon_logics/product_wise.py:159-167 | If no line's discount is negative or exceeds that line's value, the total discount lies between 0 and the total price. The final price is then the exact difference. |
| CartWise.CalculateCartTotal | coupons/coupon_logics/cart_wise.py:78-94 | The loop returns the sum of price × quantity over the lines, rounded to the cent. The sum is non-negative on a valid cart. |
| CartWise.IsApplicable | coupons/coupon_logics/cart_wise.py:4-22 | Returns whether the coupon has cart-wise details and the cart's total reaches the threshold; a total equal to the threshold is enough. |
| CartWise.CalculateDiscount | coupons/coupon_logics/cart_wise.py:25-54 | 0 when the coupon does not apply, that is, when it has no cart-wise details or the total is below the threshold. A percentage is within half a cent of total × value / 100. A fixed discount is exactly the smaller of the value and the total. Shipping is exactly 5.00. An unknown discount type gives 0. |
| CartWise.DiscountWithinTotal | coupons/coupon_logics/cart_wise.py:42-47 | On a valid cart, with a percentage of at most 100 % or a non-negative fixed amount, the discount lies between 0 and the cart's total. Shipping is the exception. |
| CartWise.ShippingMayExceedTotal | coupons/coupon_logics/cart_wise.py:48-52 | The shipping discount does not depend on the cart: a one-unit cart at 1.00 with a threshold-free shipping coupon gets 5.00 off, more than its value, and its final price is clamped to 0. |
| CartWise.CreateDiscountedCart | coupons/coupon_logics/cart_wise.py:97-132 | Every line keeps its product id, quantity and price, in order, and carries a zero discount. The cart's total discount is the one given. The final price is `max(0, total − discount)`. |
| CartWise.ApplyDiscount | coupons/coupon_logics/cart_wise.py:57-75 | Returns the flat rewrite with `calculate_discount`'s amount. When the coupon does not apply, the total discount is 0 and the final price is the total, floored at 0. |
| CartWise.AppliedPrice | coupons/coupon_logics/cart_wise.py:68-69 | On a valid cart, an inapplicable coupon leaves the final price equal to the total. An applicable coupon whose discount is within the total takes exactly that discount off. |
| ProductWise.CriteriaAreAlternatives | coupons/coupon_logics/product_wise.py:100-123 | A detail whose product id, category and brand are all unset or falsy matches no line. Each of the three criteria, on its own, makes a line match. A line with neither category nor brand matches iff its product id equals a truthy product id. |
| ProductWise.IsApplicable | coupons/coupon_logics/product_wise.py:4-25 | True iff the coupon has product-wise details and at least one cart line matches them. |
| ProductWise.Discount | coupons/coupon_logics/product_wise.py:28-59 | 0 when no line matches. Otherwise, within half a cent of the exact sum, over the matching lines, of the per-unit discount times the quantity. |
| ProductWise.CalculateDiscount | coupons/coupon_logics/product_wise.py:28-59 | The loop accumulates the exact per-line discounts and rounds the sum once, giving `Discount`. |
| ProductWise.ApplyDiscount | coupons/coupon_logics/product_wise.py:62-97 | The loop fills the per-line discount map and rewrites the cart, giving `Applied`. |
| ProductWise.AppliedLines | coupons/coupon_logics/product_wise.py:81-94 | Lines keep their order, product id, quantity and price. A non-matching line carries no discount. A matching line carries its own per-unit discount times its quantity, rounded to the cent on its own. |
| ProductWise.UnitDiscountWithinPrice | coupons/coupon_logics/product_wise.py:50-55 | A unit's discount lies between 0 and its price when the value is in range. In particular, a fixed discount is capped at the price. |
| ProductWise.LineDiscountWithinLine | coupons/coupon_logics/product_wise.py:88-94 | A line's rounded discount lies between 0 and price × quantity. |
| ProductWise.AppliedWithinTotal | coupons/coupon_logics/product_wise.py:62-97 | On a valid cart with an in-range value, the discounted cart's total discount lies between 0 and its total. The final price is the exact difference. |
| ProductWise.FixedDiscountAgrees | coupons/coupon_logics/product_wise.py:55-59 | For a fixed discount, `calculate_discount` equals the total discount of `apply_discount`. |
| ProductWise.PercentageRoundingMayDisagree | coupons/coupon_logics/product_wise.py:59 | For a percentage the two can differ. Two one-cent lines at 50 % give 0.01 from `calculate_discount` and 0.00 from `apply_discount`, because each line's half cent rounds to even. |
| BxGy.BuyMap | coupons/coupon_logics/bxgy.py:20 | The buy map's keys are exactly the listed buy product ids. Each key maps to the quantity of the last entry naming it. |
| BxGy.GetMap | coupons/coupon_logics/bxgy.py:21 | The get map's keys are exactly the listed get product ids. Each key maps to the quantity of the last entry naming it. All its values are positive when every listed quantity is. |
| BxGy.FirstOccurrences | coupons/coupon_logics/bxgy.py:32 | The iteration order of a dict built from a list: the same ids, each once. |
| BxGy.BuyKeys | coupons/coupon_logics/bxgy.py:32 | The keys of the buy map, each once. |
| BxGy.GetKeys | coupons/coupon_logics/bxgy.py:37 | The keys of the get map, each once. |
| BxGy.CountCartProducts | coupons/coupon_logics/bxgy.py:27-29 | The `cart_products` loop maps exactly the cart's product ids, each to its quantity summed over all its lines. |
| BxGy.CheckBuyProducts | coupons/coupon_logics/bxgy.py:31-34 | The buy loop succeeds iff the cart holds every buy product in at least its required quantity. On success, `cart_products` has also gained every buy product as a key (the `defaultdict` insertion). |
| BxGy.FindGetProduct | coupons/coupon_logics/bxgy.py:36-41 | True iff some get product is a key of `cart_products`. |
| BxGy.GetPresentIff | coupons/coupon_logics/bxgy.py:36-41 | Once the buy loop has inserted the buy products into `cart_products`, some get product is among its keys iff some get product is in the cart or is itself a buy product. |
| BxGy.IsApplicable | coupons/coupon_logics/bxgy.py:5-41 | True iff the coupon has BxGy details, non-empty buy and get lists, every buy product is held in its required quantity, and some get product is in the cart or is itself a buy product. |
| BxGy.InapplicableWhenShort | coupons/coupon_logics/bxgy.py:23-34 | An empty buy list or an empty get list makes the coupon inapplicable. So does any buy product held, over all its lines together, in fewer units than required. |
| BxGy.ZeroBuyQuantityCountsAsPresent | coupons/coupon_logics/bxgy.py:33-41 | A buy product required in quantity 0 that is also the get product makes the coupon applicable to a cart holding neither. |
| BxGy.SetCountsMembers | coupons/coupon_logics/bxgy.py:206-210 | `set_counts` holds the complete-set count (cart quantity // required quantity) of every buy product with a positive requirement, and nothing else. |
| BxGy.MinOf | coupons/coupon_logics/bxgy.py:216 | The minimum of a non-empty list is one of its elements and at most every element. |
| BxGy.RepetitionCountIsCappedMinimum | coupons/coupon_logics/bxgy.py:186-221 | Covers valid carts. The count lies between 0 and the repetition limit, and is at most every positive-requirement product's set count. It is 0 when no buy product has a positive requirement. Otherwise it equals either the limit or one of those set counts. |
| BxGy.CalculateRepetitionCount | coupons/coupon_logics/bxgy.py:186-221 | The loop over the buy products, skipping zero requirements, returns the specified capped minimum. |
| BxGy.CollectSetCounts | coupons/coupon_logics/bxgy.py:205-210 | The `set_counts` loop, with its `continue` on a zero requirement and its `defaultdict` reads, builds the list of complete-set counts in buy-product order. |
| BxGy.EligibleLinesFaithful | coupons/coupon_logics/bxgy.py:139-148 | Each eligible entry has its cart line's index, product, price and quantity and the get product's required quantity. Every line holding a get product is among the eligible lines. Entries come in strictly increasing cart order. |
| BxGy.CollectEligible | coupons/coupon_logics/bxgy.py:139-148 | The collecting loop returns the eligible lines in cart order. |
| BxGy.SortedEligibleOrder | coupons/coupon_logics/bxgy.py:151 | The greedy loop visits the eligible lines in non-decreasing price order. They are a permutation of the eligible lines, and lines of equal price keep their cart order. |
| BxGy.SortedEligibleFaithful | coupons/coupon_logics/bxgy.py:151 | After sorting, each entry still describes its cart line, no cart line appears twice, and required quantities are positive when the get quantities are. |
| BxGy.RunExhausted | coupons/coupon_logics/bxgy.py:157-159 | Once the remaining repetitions reach 0, the remaining lines change nothing. So leaving the loop then (`break`) gives the same result. |
| BxGy.RunGrants | coupons/coupon_logics/bxgy.py:157-180 | The remaining repetitions stay between 0 and the count. The loop grants min(count, total capacity of the lines). |
| BxGy.FreeUnitsWithinLine | coupons/coupon_logics/bxgy.py:162-176 | Repeats within a line's capacity give away units worth at most the line's value. |
| BxGy.RunBounds | coupons/coupon_logics/bxgy.py:157-180 | The value given away is non-negative. Each recorded discount belongs to a visited cart line and lies between 0 and that line's value. |
| BxGy.RunAllocation | coupons/coupon_logics/bxgy.py:157-180 | Each recorded line holds a get product and gets a positive number of repetitions. Its free units are repetitions × the required quantity, never more than its quantity. Its discount is the value of those units. |
| BxGy.StepAllocated | coupons/coupon_logics/bxgy.py:166-180 | One turn of the loop over a line of the cart keeps those allocation facts. |
| BxGy.RunSum | coupons/coupon_logics/bxgy.py:171-180 | With each line visited once, the recorded per-line discounts add up to the total value given away. |
| BxGy.RunSpent | coupons/coupon_logics/bxgy.py:171-180 | With each line visited once, the repetitions granted per line add up to the repetitions spent. |
| BxGy.Discount | coupons/coupon_logics/bxgy.py:55-61 | 0 when the coupon does not apply. |
| BxGy.CalculateDiscount | coupons/coupon_logics/bxgy.py:44-112 | The method returns `Discount`. That is 0 when the coupon does not apply or the count is 0, and otherwise the value of the free units the greedy loop grants, rounded to the cent. |
| BxGy.FreeValue | coupons/coupon_logics/bxgy.py:84-110 | The greedy loop of `calculate_discount`, with its early exit, accumulates the value the specified loop gives away. |
| BxGy.ApplyDiscount | coupons/coupon_logics/bxgy.py:115-183 | The method returns `Applied`: the cart rewritten with the per-line discounts of the greedy loop. |
| BxGy.FreeLineDiscounts | coupons/coupon_logics/bxgy.py:153-180 | The greedy loop of `apply_discount`, with its early exit, records the per-line discounts the specified loop gives. |
| BxGy.NothingFreeWithoutASet | coupons/coupon_logics/bxgy.py:126-132 | When the coupon does not apply or the count is 0, the discount is 0 and the cart is rewritten with no line discounts. |
| BxGy.GrantWithinLines | coupons/coupon_logics/bxgy.py:157-180 | On a valid cart, every line's recorded discount lies between 0 and the line's value. |
| BxGy.RunWithinLines | coupons/coupon_logics/bxgy.py:157-180 | The same bound, for the loop run over any lines describing the cart. |
| BxGy.AppliedWithinTotal | coupons/coupon_logics/bxgy.py:224-269 | On a valid cart, each line's discount lies between 0 and its value, and the total discount between 0 and the total. The final price is the exact difference. |
| BxGy.DiscountAgrees | coupons/coupon_logics/bxgy.py:104-112 | `calculate_discount` equals the total discount of the cart `apply_discount` returns. |
| BxGy.RepetitionsGranted | coupons/coupon_logics/bxgy.py:87-110 | On a valid cart, the loop grants the whole repetition count, or as many repetitions as the eligible lines can hold if that is fewer. |
| BxGy.GreedyAllocation | coupons/coupon_logics/bxgy.py:157-180 | Per discounted line, holds the allocation facts of `RunAllocation`. The repetitions granted over all lines together are between 0 and the repetition count. |
| Services.GetApplicableCoupons | coupons/services.py:7-57 | The filter, dispatch and keep loop followed by the sort returns the specified list. |
| Services.CandidatesMembers | coupons/services.py:20-52 | Before sorting, an entry is in the list iff it is the entry of an offered coupon of the catalog. |
| Services.ApplicableCouponsAreTheOffered | coupons/services.py:17-55 | Membership runs both ways: every listed entry is an offered coupon's entry, and every offered coupon is listed. The list holds the same entries, with the same multiplicities, as the unsorted candidates. |
| Services.OfferedMeans | coupons/services.py:17-52 | An offered coupon is active, unexpired, of one of the three known types, applicable by its own evaluator, and listed with a positive discount. Its entry carries its id, type, name and code and the discount its evaluator computes. |
| Services.ApplicableCouponsBestFirst | coupons/services.py:55 | The list runs from the largest discount to the smallest. Coupons with equal discounts keep their catalog order. |
| Services.Lookup | coupons/services.py:71-74 | The found coupon is in the catalog, has the requested id and is active. Nothing is found iff no active coupon has that id. |
| Services.LookupFinds | coupons/services.py:72 | With unique ids, the lookup finds the very coupon carrying the id when it is active. |
| Services.LookupEvaluable | coupons/services.py:72 | When every coupon carrying the requested id can be evaluated, so can the one the lookup finds. |
| Services.ApplyCoupon | coupons/services.py:60-94 | The lookup, expiry check and dispatch return the specified outcome. |
| Services.ApplyCouponOutcome | coupons/services.py:71-94 | With unique ids, a cart is returned iff an active, unexpired coupon with that id exists and its own evaluator applies. It is then exactly that evaluator's discounted cart. Otherwise the result is None. |
| Services.UnevaluableNeighbourIgnored | coupons/services.py:60-94 | A catalog holding a BxGy coupon with a zero get quantity cannot be listed, yet another coupon of it is still applied: a fixed 10.00 cart-wise coupon takes a 50.00 cart to 40.00. |
| Services.AppliedDiscountMatchesListing | coupons/services.py:81-91 | With unique ids, applying an offered coupon (one listed by `get_applicable_coupons`) returns a cart whose total discount equals the listed discount. Product-wise percentage coupons are the exception. |

## Left out

- Persistence, HTTP handlers, routing, admin screens and request
  serializers. The serializers contribute only the cart preconditions
  (`Cart.ValidCart`: quantity at least 1, price not negative).
- A cart's `items` key. It is a sequence of lines; a missing key is the
  empty sequence.
- Cart prices arrive as numbers and are read through `str`. The model takes
  them to be whole cents, which the cart serializer's two decimal places
  guarantee.
- Malformed carts (a line without `product_id`, `quantity` or `price`) would
  raise a `KeyError`. The serializer rules them out, so they are not
  modelled.
- Display strings (`__str__`), and the `created_at` and `updated_at` stamps.
- Database ids are UUIDs. The model uses integers, and the primary-key
  property is `Services.UniqueIds`.
- Money.Quantize: exact arithmetic with unbounded precision. Python's
  default decimal context keeps 28 significant digits, so amounts beyond
  that would round differently.
- Sorting.SortBy: a function on sequences. The source sorts its list in
  place (Timsort); only the resulting order is modelled.
- Services.GetApplicableCoupons: reads the clock once, as `now`. The source
  reads it once per coupon, so a coupon expiring during the loop is judged
  at a slightly different instant.
- BxGy.Discount: requires positive get quantities (`BxGy.Evaluable`). The
  source raises `ZeroDivisionError` only when the greedy loop actually
  reaches a line whose get quantity is 0; the model does not capture that
  raise.
- BxGy.Applied: same precondition as `BxGy.Discount`.
- BxGy.CalculateDiscount: same precondition as `BxGy.Discount`.
- BxGy.ApplyDiscount: same precondition as `BxGy.Discount`.
- Services.ApplicableCoupons: requires every live BxGy coupon of the catalog
  to have positive get quantities (`Services.CatalogEvaluable`), for the
  same reason.
- Services.GetApplicableCoupons: same precondition as
  `Services.ApplicableCoupons`.
- Services.Outcome: requires only the coupons carrying the requested id to
  be evaluable (`Services.RequestedEvaluable`); the rest of the catalog may
  hold any coupon.
- Services.ApplyCoupon: same precondition as `Services.Outcome`.
- Services.ApplyCouponOutcome: same precondition as `Services.Outcome`.
- BxGy.Greedy: its `granted` field records the repetitions given to each
  line. The source does not keep this; it exists only to state the
  allocation properties.
- `create_discounted_cart` in bxgy.py and in product_wise.py are the same
  function, and both are `Cart.CreateDiscountedCart`.
- CartWise.DiscountWithinTotal: says nothing about shipping coupons. Their
  flat 5.00 can exceed the cart's value (`CartWise.ShippingMayExceedTotal`).
- The cart-wise `create_discounted_cart` does not round its total discount,
  and the model keeps that. The amount is already whole cents.
