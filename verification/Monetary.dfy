/** Integer money: `crates/domain/src/money.rs`.
  * Amounts are signed 64-bit counts of minor units; every operation that can
  * leave that range reports `Overflow` instead of wrapping. */
module Monetary {
  import opened Prelude

  const I64_MIN := -0x8000_0000_0000_0000
  const I64_MAX := 0x7fff_ffff_ffff_ffff

  type i64 = x: int | I64_MIN <= x <= I64_MAX

  predicate FitsI64(x: int) {
    I64_MIN <= x <= I64_MAX
  }

  /** The width `percent` computes in before narrowing. */
  predicate FitsI128(x: int) {
    -0x8000_0000_0000_0000_0000_0000_0000_0000 <= x <= 0x7fff_ffff_ffff_ffff_ffff_ffff_ffff_ffff
  }

  datatype Currency = INR | USD | EUR | JPY | KWD

  function Code(c: Currency): string {
    match c
    case INR => "INR"
    case USD => "USD"
    case EUR => "EUR"
    case JPY => "JPY"
    case KWD => "KWD"
  }

  datatype MoneyError =
    | CurrencyMismatch(lhs: Currency, rhs: Currency)
    | Overflow
    | Negative(amount: int)

  /** Division that truncates toward zero, as the source's `/` does. */
  function TruncDiv(a: int, b: int): (q: int)
    requires b != 0
  {
    if a >= 0 then
      if b > 0 then a / b else -(a / -b)
    else
      if b > 0 then -((-a) / b) else (-a) / (-b)
  }

  datatype Money = Money(minor: i64, currency: Currency) {
    function Add(other: Money): (r: Result<Money, MoneyError>) {
      if currency != other.currency then Err(CurrencyMismatch(currency, other.currency))
      else if !FitsI64(minor + other.minor) then Err(Overflow)
      else Ok(Money(minor + other.minor, currency))
    }

    function Sub(other: Money): (r: Result<Money, MoneyError>) {
      if currency != other.currency then Err(CurrencyMismatch(currency, other.currency))
      else if !FitsI64(minor - other.minor) then Err(Overflow)
      else Ok(Money(minor - other.minor, currency))
    }

    function Negate(): (r: Result<Money, MoneyError>) {
      if FitsI64(0 - minor) then Ok(Money(0 - minor, currency)) else Err(Overflow)
    }

    /** `self * numerator / denominator`, rounded half away from zero. */
    function Percent(numerator: i64, denominator: i64): (r: Result<Money, MoneyError>) {
      if denominator == 0 then Err(Overflow)
      else
        var numer := minor * numerator;
        var half := TruncDiv(denominator, 2);
        var rounded := if numer >= 0 then TruncDiv(numer + half, denominator) else TruncDiv(numer - half, denominator);
        if FitsI64(rounded) then Ok(Money(rounded, currency)) else Err(Overflow)
    }
  }

  // ---------------------------------------------------------------- rounding

  function Abs(x: int): int {
    if x < 0 then -x else x
  }

  /** `q` is the integer nearest to `x / d`, the farther one from zero on a tie. */
  predicate NearestAwayFromZero(q: int, x: int, d: int)
    requires d > 0
  {
    && 2 * Abs(q * d - x) <= d
    && (2 * Abs(q * d - x) == d ==> Abs(q * d) > Abs(x))
  }

  lemma DivisionBounds(a: int, d: int)
    requires d > 0
    ensures a / d * d <= a < a / d * d + d
  {
  }

  /** Nearest multiples of `d` cannot be out of order by a whole `d`. Stated on
    * the products, so that only linear facts are involved. */
  lemma NearestProductsInOrder(a: int, b: int, x: int, y: int, d: int)
    requires d > 0 && x <= y
    requires 2 * Abs(a - x) <= d && (2 * Abs(a - x) == d ==> Abs(a) > Abs(x))
    requires 2 * Abs(b - y) <= d && (2 * Abs(b - y) == d ==> Abs(b) > Abs(y))
    requires a == b + d ==> b >= 0 || a <= 0
    ensures a < b + d
  {
  }

  lemma ProductGap(q: int, p: int, d: int)
    requires d > 0
    ensures q < p ==> q * d + d <= p * d
    ensures p * d == q * d + d ==> q * d >= 0 || p * d <= 0
  {
    if q < p {
      MulMonotone(q + 1, p, d);
    }
    if q >= 0 {
      MulMonotone(0, q, d);
    } else {
      MulMonotone(q + 1, 0, d);
      assert (q + 1) * d == q * d + d;
    }
  }

  /** Rounding is monotone; with `x == y` it is a function of `x` and `d`. */
  lemma NearestInOrder(q: int, p: int, x: int, y: int, d: int)
    requires d > 0 && x <= y
    requires NearestAwayFromZero(q, x, d) && NearestAwayFromZero(p, y, d)
    ensures q <= p
  {
    ProductGap(p, q, d);
    NearestProductsInOrder(q * d, p * d, x, y, d);
  }

  /** At most one integer qualifies, so the predicate determines the rounding. */
  lemma NearestIsUnique(q: int, p: int, x: int, d: int)
    requires d > 0
    requires NearestAwayFromZero(q, x, d) && NearestAwayFromZero(p, x, d)
    ensures q == p
  {
    NearestInOrder(q, p, x, x, d);
    NearestInOrder(p, q, x, x, d);
  }

  /** The rounded quotient `Percent` narrows, for a positive denominator. */
  function RoundedQuotient(x: int, d: int): (q: int)
    requires d > 0
    ensures NearestAwayFromZero(q, x, d)
  {
    var half := d / 2;
    if x >= 0 then
      DivisionBounds(x + half, d);
      (x + half) / d
    else
      DivisionBounds(half - x, d);
      var p := (half - x) / d;
      assert -(p * d) == (-p) * d;
      -p
  }

  /** `percent` with a positive denominator returns the nearest integer, ties
    * away from zero, and reports overflow exactly when that integer does not
    * fit; the 128-bit intermediate never overflows. */
  lemma PercentIsNearest(m: Money, numerator: i64, denominator: i64)
    requires denominator > 0
    ensures var q := RoundedQuotient(m.minor * numerator, denominator);
            m.Percent(numerator, denominator) == if FitsI64(q) then Ok(Money(q, m.currency)) else Err(Overflow)
    ensures forall q :: FitsI64(q) && NearestAwayFromZero(q, m.minor * numerator, denominator)
                        ==> m.Percent(numerator, denominator) == Ok(Money(q, m.currency))
    ensures FitsI128(m.minor * numerator + denominator / 2) && FitsI128(m.minor * numerator - denominator / 2)
  {
    var x := m.minor * numerator;
    var half := denominator / 2;
    assert TruncDiv(denominator, 2) == half;
    if x < 0 {
      assert -(x - half) == half - x;
    }
    forall q | FitsI64(q) && NearestAwayFromZero(q, x, denominator)
      ensures q == RoundedQuotient(x, denominator)
    {
      NearestIsUnique(q, RoundedQuotient(x, denominator), x, denominator);
    }
    ProductFits(m.minor, numerator);
  }

  lemma ProductFits(a: i64, b: i64)
    ensures -0x4000_0000_0000_0000_0000_0000_0000_0000 <= a * b <= 0x4000_0000_0000_0000_0000_0000_0000_0000
  {
    var bound := 0x8000_0000_0000_0000;
    var p, q := Abs(a), Abs(b);
    MulMonotone(p, bound, q);
    MulMonotone(q, bound, bound);
    assert bound * q == q * bound;
    assert Abs(a * b) == p * q;
  }

  lemma RoundingIsOdd(x: int, d: int)
    requires d > 0
    ensures RoundedQuotient(-x, d) == -RoundedQuotient(x, d)
  {
  }

  lemma RoundingIsMonotone(x: int, y: int, d: int)
    requires d > 0 && x <= y
    ensures RoundedQuotient(x, d) <= RoundedQuotient(y, d)
  {
    NearestInOrder(RoundedQuotient(x, d), RoundedQuotient(y, d), x, y, d);
  }

  lemma RoundingMultiple(q: int, d: int)
    requires d > 0
    ensures RoundedQuotient(q * d, d) == q
  {
    assert NearestAwayFromZero(q, q * d, d);
    NearestIsUnique(q, RoundedQuotient(q * d, d), q * d, d);
  }

  /** `percent` is odd in the amount: charging the negated amount is the negated
    * charge, overflow included. One of the two overflows alone exactly when the
    * other is the smallest 64-bit number. */
  lemma PercentIsOdd(m: Money, n: Money, numerator: i64, denominator: i64)
    requires denominator > 0 && m.Negate() == Ok(n)
    ensures var p, q := m.Percent(numerator, denominator), n.Percent(numerator, denominator);
            && (p.Ok? ==> q == p.value.Negate() && (q.Err? <==> p.value.minor == I64_MIN))
            && (q.Ok? ==> p == q.value.Negate() && (p.Err? <==> q.value.minor == I64_MIN))
  {
    PercentIsNearest(m, numerator, denominator);
    PercentIsNearest(n, numerator, denominator);
    NegatedProduct(m.minor, numerator);
    RoundingIsOdd(m.minor * numerator, denominator);
  }

  lemma NegatedProduct(a: int, b: int)
    ensures (0 - a) * b == -(a * b)
  {
  }

  /** `percent` of a non-negative amount is monotone in the numerator. */
  lemma PercentIsMonotone(m: Money, small: i64, large: i64, denominator: i64)
    requires denominator > 0 && m.minor >= 0 && small <= large
    requires m.Percent(small, denominator).Ok? && m.Percent(large, denominator).Ok?
    ensures m.Percent(small, denominator).value.minor <= m.Percent(large, denominator).value.minor
  {
    PercentIsNearest(m, small, denominator);
    PercentIsNearest(m, large, denominator);
    MulMonotone(small, large, m.minor);
    assert small * m.minor == m.minor * small && large * m.minor == m.minor * large;
    RoundingIsMonotone(m.minor * small, m.minor * large, denominator);
  }

  /** Adding and then subtracting the same amount is the identity, and the sum
    * is refused exactly when the currencies differ or the total leaves 64 bits. */
  lemma AddThenSub(a: Money, b: Money)
    ensures a.Add(b).Ok? <==>
              a.currency == b.currency && -0x8000_0000_0000_0000 <= a.minor + b.minor <= 0x7fff_ffff_ffff_ffff
    ensures a.Add(b).Ok? ==> a.Add(b).value == Money(a.minor + b.minor, a.currency)
    ensures a.Add(b).Ok? ==> a.Add(b).value.Sub(b) == Ok(a)
  {
  }
}
