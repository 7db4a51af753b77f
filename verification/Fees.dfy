/** Fees and their proportional reversal: `crates/engine/fees.rs` and
  * `proportional_fee_refund` in `crates/engine/refund.rs`. */
module Fees {
  import opened Prelude
  import opened Monetary

  datatype FeeBreakdown = FeeBreakdown(base: i64, tax: i64, total: i64, currency: Currency)

  datatype FeeSchedule = FeeSchedule(percentBps: i64, fixedMinor: i64, taxPercent: i64) {
    function Compute(amount: Money): (r: Result<FeeBreakdown, MoneyError>) {
      var percentPart :- amount.Percent(percentBps, 10_000);
      if !FitsI64(percentPart.minor + fixedMinor) then Err(Overflow)
      else
        var base: i64 := percentPart.minor + fixedMinor;
        var tax :- Money(base, amount.currency).Percent(taxPercent, 100);
        if !FitsI64(base + tax.minor) then Err(Overflow)
        else Ok(FeeBreakdown(base, tax.minor, base + tax.minor, amount.currency))
    }
  }

  function ForCurrency(c: Currency): FeeSchedule {
    if c == INR then FeeSchedule(200, 300, 18) else FeeSchedule(200, 30, 0)
  }

  /** The part of a fee going back to the merchant. The source subtracts and
    * adds these components with plain 64-bit operators; `SliceIsExact` shows
    * the results always fit. */
  datatype FeeRefund = FeeRefund(base: int, tax: int) {
    function Total(): int { base + tax }

    predicate IsZero() { base == 0 && tax == 0 }
  }

  function Owed(component: i64, refunded: i64, amount: Money): Result<i64, MoneyError> {
    if amount.minor == 0 then Ok(0)
    else
      var share :- Money(component, amount.currency).Percent(refunded, amount.minor);
      Ok(share.minor)
  }

  /** The fee to return for the slice between `oldTotal` and `newTotal` refunded. */
  function ProportionalFeeRefund(amount: Money, oldTotal: i64, newTotal: i64): (r: Result<FeeRefund, MoneyError>) {
    var fees :- ForCurrency(amount.currency).Compute(amount);
    var baseNew :- Owed(fees.base, newTotal, amount);
    var baseOld :- Owed(fees.base, oldTotal, amount);
    var taxNew :- Owed(fees.tax, newTotal, amount);
    var taxOld :- Owed(fees.tax, oldTotal, amount);
    Ok(FeeRefund(baseNew - baseOld, taxNew - taxOld))
  }

  // ------------------------------------------------------------ properties

  /** For every non-negative amount of every currency the fee exists, no step
    * overflows, and it is the published one: two per cent plus a fixed part, and on
    * that base eighteen per cent of tax for rupees and none elsewhere, each rounded
    * to the nearest minor unit. */
  lemma FeeExists(amount: Money)
    requires amount.minor >= 0
    ensures ForCurrency(amount.currency).Compute(amount).Ok?
    ensures var f := ForCurrency(amount.currency).Compute(amount).value;
            && NearestAwayFromZero(f.base - (if amount.currency == INR then 300 else 30), amount.minor * 200, 10_000)
            && NearestAwayFromZero(f.tax, f.base * (if amount.currency == INR then 18 else 0), 100)
            && f.total == f.base + f.tax
            && 0 < f.base && 0 <= f.tax && (f.tax > 0 <==> amount.currency == INR)
            && f.currency == amount.currency
  {
  }

  /** The fee of an amount whose fee exists. */
  function FeeOf(amount: Money): (f: FeeBreakdown)
    requires amount.minor >= 0
    ensures 0 < f.base && 0 <= f.tax && f.total == f.base + f.tax
    ensures f.tax > 0 <==> amount.currency == INR
  {
    FeeExists(amount);
    ForCurrency(amount.currency).Compute(amount).value
  }

  /** The fee that captures charge and refunds give back, in numbers. */
  lemma FeeIsThePublishedOne(amount: Money)
    requires amount.minor >= 0
    ensures var f := FeeOf(amount);
            && NearestAwayFromZero(f.base - (if amount.currency == INR then 300 else 30), amount.minor * 200, 10_000)
            && NearestAwayFromZero(f.tax, f.base * (if amount.currency == INR then 18 else 0), 100)
            && f.total == f.base + f.tax && f.currency == amount.currency
  {
    FeeExists(amount);
  }

  /** The share of `component` owed back once `refunded` of `amount` is returned. */
  function Share(component: int, refunded: int, amount: int): int
    requires amount > 0
  {
    RoundedQuotient(component * refunded, amount)
  }

  lemma ShareAtEnds(component: int, amount: int)
    requires amount > 0
    ensures Share(component, 0, amount) == 0 && Share(component, amount, amount) == component
  {
    hide RoundedQuotient;
    RoundingMultiple(component, amount);
    RoundingMultiple(0, amount);
    assert component * 0 == 0 && 0 * amount == 0;
  }

  lemma ShareIsMonotone(component: int, small: int, large: int, amount: int)
    requires amount > 0 && component >= 0 && small <= large
    ensures Share(component, small, amount) <= Share(component, large, amount)
  {
    hide RoundedQuotient;
    assert component * small <= component * large by {
      MulMonotone(small, large, component);
      assert small * component == component * small && large * component == component * large;
    }
    RoundingIsMonotone(component * small, component * large, amount);
  }

  lemma ShareBounds(component: int, small: int, large: int, amount: int)
    requires amount > 0 && component >= 0 && 0 <= small <= large <= amount
    ensures 0 <= Share(component, small, amount) <= Share(component, large, amount) <= component
    ensures Share(component, 0, amount) == 0 && Share(component, amount, amount) == component
  {
    hide Share;
    ShareAtEnds(component, amount);
    ShareIsMonotone(component, 0, small, amount);
    ShareIsMonotone(component, small, large, amount);
    ShareIsMonotone(component, large, amount, amount);
  }

  lemma OwedIsShare(component: i64, refunded: i64, amount: Money)
    requires amount.minor > 0 && component >= 0 && 0 <= refunded <= amount.minor
    ensures Owed(component, refunded, amount) == Ok(Share(component, refunded, amount.minor))
  {
    ShareBounds(component, refunded, amount.minor, amount.minor);
    PercentIsNearest(Money(component, amount.currency), refunded, amount.minor);
  }

  /** One refund slice returns, per component, the difference of two cumulative
    * shares. It is never negative, never overflows, and neither does its total. */
  lemma SliceIsExact(amount: Money, oldTotal: i64, newTotal: i64)
    requires amount.minor > 0 && 0 <= oldTotal <= newTotal <= amount.minor
    ensures ProportionalFeeRefund(amount, oldTotal, newTotal).Ok?
    ensures var f, s := FeeOf(amount), ProportionalFeeRefund(amount, oldTotal, newTotal).value;
            && s.base == Share(f.base, newTotal, amount.minor) - Share(f.base, oldTotal, amount.minor)
            && s.tax == Share(f.tax, newTotal, amount.minor) - Share(f.tax, oldTotal, amount.minor)
            && 0 <= s.base <= f.base && 0 <= s.tax <= f.tax
            && FitsI64(s.base) && FitsI64(s.tax) && FitsI64(s.Total())
            && (s.tax > 0 ==> amount.currency == INR)
  {
    var f := FeeOf(amount);
    FeeExists(amount);
    OwedIsShare(f.base, newTotal, amount);
    OwedIsShare(f.base, oldTotal, amount);
    OwedIsShare(f.tax, newTotal, amount);
    OwedIsShare(f.tax, oldTotal, amount);
    ShareBounds(f.base, oldTotal, newTotal, amount.minor);
    ShareBounds(f.tax, oldTotal, newTotal, amount.minor);
  }

  function Sum(slices: seq<int>): int {
    if slices == [] then 0 else slices[0] + Sum(slices[1..])
  }

  predicate AllPositive(slices: seq<int>) {
    forall i :: 0 <= i < |slices| ==> slices[i] > 0
  }

  /** Issue the slices one after another, starting from `refunded` already
    * returned, and add up the fee each gives back. */
  function ReturnSlices(amount: Money, refunded: int, slices: seq<int>): (r: Result<FeeRefund, MoneyError>)
    decreases |slices|
  {
    if slices == [] then Ok(FeeRefund(0, 0))
    else if !FitsI64(refunded) || !FitsI64(refunded + slices[0]) then Err(Overflow)
    else
      var first :- ProportionalFeeRefund(amount, refunded, refunded + slices[0]);
      var rest :- ReturnSlices(amount, refunded + slices[0], slices[1..]);
      Ok(FeeRefund(first.base + rest.base, first.tax + rest.tax))
  }

  lemma SumNonNegative(slices: seq<int>)
    requires AllPositive(slices)
    ensures Sum(slices) >= 0 && (slices != [] ==> Sum(slices) >= slices[0])
  {
  }

  /** However a refund is sliced, the fee returned depends only on how much was
    * refunded before and after. */
  lemma {:induction false} SlicesTelescope(amount: Money, refunded: int, slices: seq<int>)
    requires amount.minor > 0 && AllPositive(slices)
    requires 0 <= refunded && refunded + Sum(slices) <= amount.minor
    ensures ReturnSlices(amount, refunded, slices).Ok?
    ensures var f, r, after := FeeOf(amount), ReturnSlices(amount, refunded, slices).value, refunded + Sum(slices);
            && r.base == Share(f.base, after, amount.minor) - Share(f.base, refunded, amount.minor)
            && r.tax == Share(f.tax, after, amount.minor) - Share(f.tax, refunded, amount.minor)
    decreases |slices|
  {
    hide Share, FeeOf, ProportionalFeeRefund;
    if slices != [] {
      SumNonNegative(slices[1..]);
      SliceIsExact(amount, refunded, refunded + slices[0]);
      SlicesTelescope(amount, refunded + slices[0], slices[1..]);
    }
  }

  /** Refunding the whole payment, in any slices, returns exactly the fee. */
  lemma FullRefundReturnsTheFee(amount: Money, slices: seq<int>)
    requires amount.minor > 0 && AllPositive(slices) && Sum(slices) == amount.minor
    ensures ReturnSlices(amount, 0, slices) == Ok(FeeRefund(FeeOf(amount).base, FeeOf(amount).tax))
  {
    hide *;
    SlicesTelescope(amount, 0, slices);
    ShareBounds(FeeOf(amount).base, 0, amount.minor, amount.minor);
    ShareBounds(FeeOf(amount).tax, 0, amount.minor, amount.minor);
  }

  /** After any slices each component returned is within half a minor unit of
    * the exact proportional share, however many slices there were. */
  lemma RoundingDoesNotAccumulate(amount: Money, slices: seq<int>)
    requires amount.minor > 0 && AllPositive(slices) && Sum(slices) <= amount.minor
    ensures ReturnSlices(amount, 0, slices).Ok?
    ensures var f, r := FeeOf(amount), ReturnSlices(amount, 0, slices).value;
            && 2 * Abs(r.base * amount.minor - f.base * Sum(slices)) <= amount.minor
            && 2 * Abs(r.tax * amount.minor - f.tax * Sum(slices)) <= amount.minor
            && 0 <= r.base <= f.base && 0 <= r.tax <= f.tax
  {
    hide *;
    var f, total := FeeOf(amount), Sum(slices);
    SumNonNegative(slices);
    SlicesTelescope(amount, 0, slices);
    ShareBounds(f.base, 0, total, amount.minor);
    ShareBounds(f.tax, 0, total, amount.minor);
    ShareIsNearest(f.base, total, amount.minor);
    ShareIsNearest(f.tax, total, amount.minor);
  }

  lemma ShareIsNearest(component: int, refunded: int, amount: int)
    requires amount > 0
    ensures 2 * Abs(Share(component, refunded, amount) * amount - component * refunded) <= amount
  {
  }
}
