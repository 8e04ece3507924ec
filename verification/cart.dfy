/** Carts and discounted carts, and the per-line cart rewrite shared by the
    product-wise and BxGy evaluators (their two `create_discounted_cart`
    functions are line-for-line the same). */
module Cart {
  import opened Optional
  import opened Money

  /** A validated cart line; `price` in cents. A missing `category` or
      `brand` key and a `null` one are both `None`. */
  datatype CartItem = CartItem(
    productId: int,
    quantity: int,
    price: int,
    category: Option<string>,
    brand: Option<string>)

  /** A line of the discounted cart; amounts in cents. */
  datatype DiscountedItem = DiscountedItem(
    productId: int,
    quantity: int,
    price: int,
    totalDiscount: int)

  datatype DiscountedCart = DiscountedCart(
    items: seq<DiscountedItem>,
    totalPrice: int,
    totalDiscount: int,
    finalPrice: int)

  /** What the cart serializer admits before the engine sees a cart: at
      least one unit per line and a non-negative price. */
  predicate ValidCart(items: seq<CartItem>) {
    forall i :: 0 <= i < |items| ==> items[i].quantity >= 1 && items[i].price >= 0
  }

  function LineTotal(item: CartItem): int {
    item.price * item.quantity
  }

  /** A line with a non-negative price and quantity is worth nothing or more. */
  lemma LineTotalNonNegative(item: CartItem)
    requires item.price >= 0 && item.quantity >= 0
    ensures LineTotal(item) >= 0
  {
  }

  /** Sum of price times quantity over the lines, in cents. */
  function Total(items: seq<CartItem>): int {
    if |items| == 0 then 0 else Total(items[..|items| - 1]) + LineTotal(items[|items| - 1])
  }

  /** `item_discounts.get(idx, Decimal('0.00'))` */
  function DiscountAt(discounts: map<int, int>, i: int): int {
    if i in discounts then discounts[i] else 0
  }

  /** Sum of the discounts attributed to lines 0 .. n-1. */
  function DiscountSum(discounts: map<int, int>, n: nat): int {
    if n == 0 then 0 else DiscountSum(discounts, n - 1) + DiscountAt(discounts, n - 1)
  }

  /** The cart the rewrite produces from the per-line discounts (keyed by
      line index). */
  function Rewrite(items: seq<CartItem>, discounts: map<int, int>): DiscountedCart {
    var totalPrice := Total(items);
    var totalDiscount := DiscountSum(discounts, |items|);
    DiscountedCart(
      seq(|items|, i requires 0 <= i < |items| =>
        DiscountedItem(items[i].productId, items[i].quantity, items[i].price, DiscountAt(discounts, i))),
      totalPrice,
      totalDiscount,
      Max0(totalPrice - totalDiscount))
  }

  /** `create_discounted_cart(cart, item_discounts)`: one output line per
      input line, totals accumulated along the way. */
  method CreateDiscountedCart(items: seq<CartItem>, discounts: map<int, int>) returns (cart: DiscountedCart)
    ensures cart == Rewrite(items, discounts)
  {
    var lines: seq<DiscountedItem> := [];
    var totalPrice := 0;
    var totalDiscount := 0;
    var i := 0;
    while i < |items|
      invariant 0 <= i <= |items|
      invariant totalPrice == Total(items[..i])
      invariant totalDiscount == DiscountSum(discounts, i)
      invariant |lines| == i
      invariant forall j :: 0 <= j < i ==>
        lines[j] == DiscountedItem(items[j].productId, items[j].quantity, items[j].price, DiscountAt(discounts, j))
    {
      assert items[..i + 1][..i] == items[..i];
      var item := items[i];
      totalPrice := totalPrice + item.price * item.quantity;
      var itemDiscount := DiscountAt(discounts, i);
      totalDiscount := totalDiscount + itemDiscount;
      lines := lines + [DiscountedItem(item.productId, item.quantity, item.price, itemDiscount)];
      i := i + 1;
    }
    assert items[..i] == items;
    var finalPrice := Max0(totalPrice - totalDiscount);
    QuantizeExact(totalPrice);
    QuantizeExact(totalDiscount);
    QuantizeExact(finalPrice);
    cart := DiscountedCart(lines, Quantize(Exact(totalPrice)), Quantize(Exact(totalDiscount)), Quantize(Exact(finalPrice)));
  }

  /** The rewrite keeps the cart's lines in order with their product,
      quantity and price; a line without an entry gets a zero discount; the
      final price is the total less the discounts, floored at zero. */
  lemma RewriteShape(items: seq<CartItem>, discounts: map<int, int>)
    ensures |Rewrite(items, discounts).items| == |items|
    ensures forall i :: 0 <= i < |items| ==>
      && Rewrite(items, discounts).items[i].productId == items[i].productId
      && Rewrite(items, discounts).items[i].quantity == items[i].quantity
      && Rewrite(items, discounts).items[i].price == items[i].price
      && (i !in discounts ==> Rewrite(items, discounts).items[i].totalDiscount == 0)
    ensures Rewrite(items, discounts).finalPrice >= 0
    ensures Rewrite(items, discounts).finalPrice
         == Max0(Rewrite(items, discounts).totalPrice - Rewrite(items, discounts).totalDiscount)
  {
  }

  /** A valid cart is never worth less than nothing. */
  lemma {:induction false} TotalNonNegative(items: seq<CartItem>)
    requires ValidCart(items)
    ensures Total(items) >= 0
  {
    if |items| > 0 {
      TotalNonNegative(items[..|items| - 1]);
    }
  }

  /** With no discount entries at all the rewrite discounts nothing. */
  lemma {:induction false} NoDiscountsSumToZero(n: nat)
    ensures DiscountSum(map[], n) == 0
  {
    if n > 0 {
      NoDiscountsSumToZero(n - 1);
    }
  }

  /** When no line's discount exceeds that line's value, the discounts never
      exceed the cart's value and the final price is the exact difference,
      without the floor at zero coming into play. */
  lemma {:induction false} RewriteWithinTotal(items: seq<CartItem>, discounts: map<int, int>)
    requires ValidCart(items)
    requires forall i :: 0 <= i < |items| ==>
      0 <= DiscountAt(discounts, i) <= LineTotal(items[i])
    ensures 0 <= Rewrite(items, discounts).totalDiscount <= Rewrite(items, discounts).totalPrice
    ensures Rewrite(items, discounts).finalPrice
         == Rewrite(items, discounts).totalPrice - Rewrite(items, discounts).totalDiscount
  {
    DiscountSumWithin(items, discounts, |items|);
    assert items[..|items|] == items;
  }

  lemma {:induction false} DiscountSumWithin(items: seq<CartItem>, discounts: map<int, int>, n: nat)
    requires n <= |items|
    requires forall i :: 0 <= i < n ==> 0 <= DiscountAt(discounts, i) <= LineTotal(items[i])
    ensures 0 <= DiscountSum(discounts, n) <= Total(items[..n])
  {
    if n > 0 {
      DiscountSumWithin(items, discounts, n - 1);
      assert items[..n][..n - 1] == items[..n - 1];
    }
  }

  /** Setting the entry of line `k` changes the sum over lines 0 .. n-1 by
      the difference when `k` is one of those lines, and not at all
      otherwise. */
  lemma {:induction false} DiscountSumUpdate(discounts: map<int, int>, k: int, v: int, n: nat)
    requires k >= 0
    ensures DiscountSum(discounts[k := v], n)
         == DiscountSum(discounts, n) + (if k < n then v - DiscountAt(discounts, k) else 0)
  {
    if n > 0 {
      DiscountSumUpdate(discounts, k, v, n - 1);
    }
  }
}
