/** Fixed-point money.
    Every amount the engine stores or returns is an integer number of cents
    (the source's DecimalFields and cart prices carry two fractional digits).
    Inside a computation a product such as price * percentage / 100 can carry
    up to four more fractional digits; such exact intermediate amounts are
    integers in ten-thousandths of a cent ("sub-units"). */
module Money {

  /** Sub-units per cent. */
  const SubUnits: int := 10000

  /** A whole number of cents as an exact sub-unit amount. */
  function Exact(cents: int): int {
    cents * SubUnits
  }

  function Min(a: int, b: int): (m: int)
    ensures m <= a && m <= b && (m == a || m == b)
  {
    if a <= b then a else b
  }

  /** `max(Decimal('0.00'), x)` */
  function Max0(x: int): (m: int)
    ensures m >= 0 && m >= x && (m == 0 || m == x)
  {
    if x > 0 then x else 0
  }

  /** `quantize(Decimal('0.01'))` under Python's default decimal context:
      round to the nearest cent, ties to the even cent. */
  function Quantize(x: int): (c: int)
    ensures Exact(c) - SubUnits / 2 <= x <= Exact(c) + SubUnits / 2
    ensures x == Exact(c) - SubUnits / 2 ==> c % 2 == 0
    ensures x == Exact(c) + SubUnits / 2 ==> c % 2 == 0
  {
    var q := x / SubUnits;
    var r := x % SubUnits;
    if r < SubUnits / 2 then q
    else if r > SubUnits / 2 then q + 1
    else if q % 2 == 0 then q
    else q + 1
  }

  /** An amount that is already a whole number of cents is left unchanged. */
  lemma QuantizeExact(c: int)
    ensures Quantize(Exact(c)) == c
  {
  }

  /** Rounding never reverses the order of two amounts. */
  lemma QuantizeMonotone(x: int, y: int)
    requires x <= y
    ensures Quantize(x) <= Quantize(y)
  {
  }

  /** Rounding a non-negative amount never gives a negative one. */
  lemma QuantizeNonNegative(x: int)
    requires x >= 0
    ensures Quantize(x) >= 0
  {
    QuantizeMonotone(0, x);
    QuantizeExact(0);
  }

  /** Rounding an amount that is at most `c` cents gives at most `c` cents. */
  lemma QuantizeAtMost(x: int, c: int)
    requires x <= Exact(c)
    ensures Quantize(x) <= c
  {
    QuantizeMonotone(x, Exact(c));
    QuantizeExact(c);
  }

  /** A share of at most 100 % of a non-negative amount lies between zero and
      that amount. */
  lemma PercentWithin(amount: int, percent: int)
    requires amount >= 0 && 0 <= percent <= 100 * 100
    ensures 0 <= amount * percent <= Exact(amount)
  {
    var rest := SubUnits - percent;
    assert rest >= 0;
    assert amount * rest >= 0;
    assert amount * SubUnits == amount * percent + amount * rest;
    assert amount * percent >= 0;
  }

  /** Whole cents scale by a quantity without leaving whole cents. */
  lemma ExactTimes(cents: int, quantity: int)
    ensures Exact(cents) * quantity == Exact(cents * quantity)
  {
    assert cents * SubUnits * quantity == cents * quantity * SubUnits;
  }

  /** A per-unit amount within a unit price, times a quantity, stays within
      the line's value. */
  lemma ScaleByQuantity(unit: int, price: int, quantity: int)
    requires 0 <= unit <= Exact(price) && quantity >= 0
    ensures 0 <= unit * quantity <= Exact(price * quantity)
  {
    ExactTimes(price, quantity);
    assert (Exact(price) - unit) * quantity >= 0;
    assert Exact(price) * quantity == unit * quantity + (Exact(price) - unit) * quantity;
  }
}
