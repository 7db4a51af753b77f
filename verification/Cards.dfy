/** Card number validation: `crates/domain/src/card.rs`. The checksum is the
  * Luhn formula of Annex B of ISO/IEC 7812-1. */
module Cards {
  import opened Prelude

  type Digit = d: int | 0 <= d <= 9

  /** The characters that are decimal digits, in order. */
  function KeepDigits(s: string): (r: string)
    ensures forall i :: 0 <= i < |r| ==> IsDigit(r[i])
  {
    if s == [] then []
    else (if IsDigit(s[0]) then [s[0]] else []) + KeepDigits(s[1..])
  }

  /** The digits of `s` as numbers; anything else is skipped. */
  function Digits(s: string): seq<Digit> {
    if s == [] then []
    else (if IsDigit(s[0]) then [DigitValue(s[0])] else []) + Digits(s[1..])
  }

  // --------------------------------------------------- the standard's formula

  /** Every second digit, counted from the right starting after the check digit,
    * counts as the sum of the decimal digits of its double. */
  function Contribution(d: Digit, fromRight: nat): (c: Digit)
    ensures fromRight % 2 == 1 ==> c == if d >= 5 then 2 * d - 9 else 2 * d
  {
    if fromRight % 2 == 1 then (2 * d) / 10 + (2 * d) % 10 else d
  }

  function Checksum(nums: seq<Digit>): nat {
    if nums == [] then 0 else Contribution(nums[0], |nums| - 1) + Checksum(nums[1..])
  }

  predicate Luhn(nums: seq<Digit>) {
    |nums| >= 2 && Checksum(nums) % 10 == 0
  }

  /** `luhn_valid`: one pass from the right with an alternating flag. */
  method LuhnValid(digits: string) returns (valid: bool)
    ensures valid <==> Luhn(Digits(digits))
  {
    var nums := Digits(digits);
    if |nums| < 2 {
      return false;
    }
    var sum := 0;
    var double := false;
    var i := |nums|;
    while i > 0
      invariant 0 <= i <= |nums|
      invariant sum == Checksum(nums[i..])
      invariant double <==> (|nums| - i) % 2 == 1
    {
      i := i - 1;
      var v: int := nums[i];
      if double {
        v := v * 2;
        if v > 9 {
          v := v - 9;
        }
      }
      sum := sum + v;
      double := !double;
      assert nums[i..][1..] == nums[i + 1..];
    }
    return sum % 10 == 0;
  }

  /** The formula from the right, by its effect: a check digit counts as it is, the
    * digit before it as the sum of the digits of its double, and what stands before
    * those two as it would without them. */
  lemma {:induction false} TwoDigitsMore(nums: seq<Digit>, d: Digit, check: Digit)
    ensures Checksum(nums + [d, check]) == Checksum(nums) + check + if d >= 5 then 2 * d - 9 else 2 * d
    decreases |nums|
  {
    var all := nums + [d, check];
    if nums == [] {
      assert all == [d, check] && all[1..] == [check] && [check][1..] == [];
    } else {
      assert all[1..] == nums[1..] + [d, check];
      TwoDigitsMore(nums[1..], d, check);
      SameParity(nums[0], |nums| - 1);
    }
  }

  lemma SameParity(d: Digit, fromRight: nat)
    ensures Contribution(d, fromRight + 2) == Contribution(d, fromRight)
  {
  }

  lemma OneDigit(check: Digit)
    ensures Checksum([]) == 0 && Checksum([check]) == check
  {
    assert [check][1..] == [];
  }

  // ------------------------------------------------------- error detection

  lemma {:induction false} ChecksumReplace(nums: seq<Digit>, i: nat, d: Digit)
    requires i < |nums|
    ensures Checksum(nums[i := d])
            == Checksum(nums) - Contribution(nums[i], |nums| - 1 - i) + Contribution(d, |nums| - 1 - i)
  {
    hide Contribution;
    if i == 0 {
      assert nums[i := d][1..] == nums[1..];
    } else {
      assert nums[i := d][1..] == nums[1..][i - 1 := d];
      ChecksumReplace(nums[1..], i - 1, d);
    }
  }

  /** In both kinds of position the contributions of the ten digits are the
    * ten digits again, in some order. */
  function DigitContributing(c: Digit, fromRight: nat): (d: Digit)
    ensures forall e: Digit :: Contribution(e, fromRight) == c <==> e == d
  {
    if fromRight % 2 == 0 then c
    else if c % 2 == 0 then c / 2
    else (c + 9) / 2
  }

  predicate ValidWith(nums: seq<Digit>, i: nat, d: Digit)
    requires i < |nums|
  {
    Luhn(nums[i := d])
  }

  /** Given the other digits, exactly one digit at any position makes the number
    * valid: the check digit exists and is unique, and so is any lost digit. */
  lemma ExactlyOneDigitIsValid(nums: seq<Digit>, i: nat)
    requires |nums| >= 2 && i < |nums|
    ensures exists d: Digit :: ValidWith(nums, i, d)
    ensures forall d: Digit, e: Digit :: ValidWith(nums, i, d) && ValidWith(nums, i, e) ==> d == e
  {
    var at := |nums| - 1 - i;
    var rest := Checksum(nums) - Contribution(nums[i], at);
    var d := DigitContributing((10 - rest % 10) % 10, at);
    forall e: Digit ensures ValidWith(nums, i, e) <==> e == d {
      ChecksumReplace(nums, i, e);
      TenDivides(rest, Contribution(e, at));
    }
    assert ValidWith(nums, i, d);
  }

  lemma TenDivides(rest: int, c: Digit)
    ensures (rest + c) % 10 == 0 <==> c == (10 - rest % 10) % 10
  {
  }

  /** Changing any single digit of a valid number makes it invalid. */
  lemma SubstitutionIsDetected(nums: seq<Digit>, i: nat, d: Digit)
    requires Luhn(nums) && i < |nums| && d != nums[i]
    ensures !Luhn(nums[i := d])
  {
    ExactlyOneDigitIsValid(nums, i);
    assert nums[i := nums[i]] == nums;
    assert ValidWith(nums, i, nums[i]) && (ValidWith(nums, i, d) <==> Luhn(nums[i := d]));
  }

  function Transpose(nums: seq<Digit>, i: nat): seq<Digit>
    requires i + 1 < |nums|
  {
    nums[i := nums[i + 1]][i + 1 := nums[i]]
  }

  /** Swapping two neighbours of a valid number goes unnoticed exactly when they
    * are equal or are the pair 0 and 9. */
  lemma TranspositionIsDetected(nums: seq<Digit>, i: nat)
    requires Luhn(nums) && i + 1 < |nums|
    ensures Luhn(Transpose(nums, i)) <==> nums[i] == nums[i + 1] || {nums[i], nums[i + 1]} == {0, 9}
  {
    var a, b, at := nums[i], nums[i + 1], |nums| - 1 - i;
    var change := TransposeChange(nums, i);
    hide Checksum, Contribution;
    SwapChange(a, b, at);
    SmallChange(Checksum(nums), change);
    assert {a, b} == {0, 9} ==> a in {0, 9} && b in {0, 9} && 0 in {a, b} && 9 in {a, b};
  }

  lemma TransposeChange(nums: seq<Digit>, i: nat) returns (change: int)
    requires i + 1 < |nums|
    ensures var a, b, at := nums[i], nums[i + 1], |nums| - 1 - i;
            change == Contribution(b, at) + Contribution(a, at - 1) - Contribution(a, at) - Contribution(b, at - 1)
    ensures Checksum(Transpose(nums, i)) == Checksum(nums) + change
  {
    ChecksumReplace(nums, i, nums[i + 1]);
    ChecksumReplace(nums[i := nums[i + 1]], i + 1, nums[i]);
    change := Checksum(Transpose(nums, i)) - Checksum(nums);
  }

  lemma SmallChange(total: int, change: int)
    requires total % 10 == 0 && -10 < change < 10
    ensures (total + change) % 10 == 0 <==> change == 0
  {
  }

  lemma SwapChange(a: Digit, b: Digit, at: nat)
    requires at >= 1
    ensures var change := Contribution(b, at) + Contribution(a, at - 1) - Contribution(a, at) - Contribution(b, at - 1);
            && -10 < change < 10
            && (change == 0 <==> a == b || (a == 0 && b == 9) || (a == 9 && b == 0))
  {
  }

  // ------------------------------------------------------------ card details

  datatype CardError = InvalidLength(length: nat) | FailedLuhnCheck | InvalidMonth(month: nat) | Expired

  datatype CardDetails = CardDetails(last4: string, expMonth: nat, expYear: nat)

  function NewCard(rawNumber: string, expMonth: nat, expYear: nat): Result<CardDetails, CardError> {
    var digits := KeepDigits(rawNumber);
    if |digits| < 12 || |digits| > 19 then Err(InvalidLength(|digits|))
    else if !Luhn(Digits(digits)) then Err(FailedLuhnCheck)
    else if !(1 <= expMonth <= 12) then Err(InvalidMonth(expMonth))
    else Ok(CardDetails(digits[|digits| - 4..], expMonth, expYear))
  }

  function AssertNotExpired(card: CardDetails, nowYear: int, nowMonth: nat): Result<(), CardError> {
    if card.expYear < nowYear || (card.expYear == nowYear && card.expMonth < nowMonth) then Err(Expired) else Ok(())
  }

  lemma {:induction false} DigitsOfKept(s: string)
    ensures Digits(KeepDigits(s)) == Digits(s) && |Digits(s)| == |KeepDigits(s)|
  {
    if s != [] {
      DigitsOfKept(s[1..]);
      var head := if IsDigit(s[0]) then [s[0]] else [];
      assert KeepDigits(s) == head + KeepDigits(s[1..]);
      if IsDigit(s[0]) {
        assert KeepDigits(s)[1..] == KeepDigits(s[1..]);
      } else {
        assert KeepDigits(s) == KeepDigits(s[1..]);
      }
    }
  }

  /** Separators are irrelevant: a card is accepted exactly when the digits in
    * what was typed number 12 to 19 and satisfy the formula, and the month exists.
    * The first of these that fails is reported, and the last four digits are kept. */
  lemma AcceptedCards(rawNumber: string, expMonth: nat, expYear: nat)
    ensures NewCard(rawNumber, expMonth, expYear).Ok? <==>
              12 <= |Digits(rawNumber)| <= 19 && Luhn(Digits(rawNumber)) && 1 <= expMonth <= 12
    ensures var card, digits := NewCard(rawNumber, expMonth, expYear), Digits(rawNumber);
            && (|digits| < 12 || |digits| > 19 ==> card == Err(InvalidLength(|digits|)))
            && (12 <= |digits| <= 19 && !Luhn(digits) ==> card == Err(FailedLuhnCheck))
            && (12 <= |digits| <= 19 && Luhn(digits) && !(1 <= expMonth <= 12) ==> card == Err(InvalidMonth(expMonth)))
            && (card.Ok? ==> card.value.expMonth == expMonth && card.value.expYear == expYear
                             && Digits(card.value.last4) == digits[|digits| - 4..])
  {
    DigitsOfKept(rawNumber);
    if |Digits(rawNumber)| >= 4 {
      DigitsOfSuffix(KeepDigits(rawNumber), |Digits(rawNumber)| - 4);
    }
  }

  lemma {:induction false} DigitsOfSuffix(s: string, k: nat)
    requires k <= |s| && forall i :: 0 <= i < |s| ==> IsDigit(s[i])
    ensures |Digits(s)| == |s| && Digits(s[k..]) == Digits(s)[k..]
  {
    if s != [] {
      DigitsOfSuffix(s[1..], if k == 0 then 0 else k - 1);
      if k == 0 {
        assert s[0..] == s && Digits(s)[0..] == Digits(s);
      } else {
        assert s[1..][k - 1..] == s[k..];
        assert Digits(s)[1..] == Digits(s[1..]);
      }
    }
  }

  /** A card lasts to the end of its month. */
  lemma CardsLastToTheirMonth(card: CardDetails, nowYear: int, nowMonth: nat)
    requires 1 <= card.expMonth <= 12 && 1 <= nowMonth <= 12
    ensures AssertNotExpired(card, nowYear, nowMonth) ==
              if card.expYear * 12 + card.expMonth >= nowYear * 12 + nowMonth then Ok(()) else Err(Expired)
  {
  }
}
