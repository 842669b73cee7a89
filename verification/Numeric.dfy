/** Fixed-point numbers in millionths, rounded half to even. */
module Numeric {
  import opened Outcomes

  const I128_MAX: int := 0x7FFF_FFFF_FFFF_FFFF_FFFF_FFFF_FFFF_FFFF

  type i64 = x: int | -0x8000_0000_0000_0000 <= x <= 0x7FFF_FFFF_FFFF_FFFF

  /** Every intermediate value below has this type, so none of them overflows. */
  type i128 = x: int | -I128_MAX - 1 <= x <= I128_MAX

  datatype FixedError = Overflow | DivisionByZero

  const SCALE: i64 := 1000000

  function Abs(x: int): nat {
    if x < 0 then -x else x
  }

  function Signum(x: int): int {
    if x < 0 then -1 else if x == 0 then 0 else 1
  }

  /** Integer division as the program performs it: truncating towards zero. */
  function TruncatedQuotient(n: int, d: int): int
    requires d != 0
  {
    Signum(n) * Signum(d) * (Abs(n) / Abs(d))
  }

  function TruncatedRemainder(n: int, d: int): int
    requires d != 0
  {
    Signum(n) * (Abs(n) % Abs(d))
  }

  /** The integer `k` is the value `n / d` rounded to nearest, ties to even. */
  ghost predicate RoundsTo(n: int, d: int, k: int) {
    2 * Abs(n - k * d) < Abs(d) || (2 * Abs(n - k * d) == Abs(d) && k % 2 == 0)
  }

  /** There is only one such integer. */
  lemma RoundingUnique(n: int, d: int, a: int, b: int)
    requires d != 0 && RoundsTo(n, d, a) && RoundsTo(n, d, b)
    ensures a == b
  {
    var x, y := n - a * d, n - b * d;
    assert y - x == (a - b) * d;
    AbsProduct(a - b, d);
    OneRounding(x, y, a, b, Abs(d), Abs(a - b) * Abs(d));
  }

  /** Two errors of at most half a step each cannot be a whole step apart unless both tie. */
  lemma OneRounding(x: int, y: int, a: int, b: int, step: nat, distance: nat)
    requires distance == Abs(a - b) * step && distance == Abs(y - x) && step > 0
    requires 2 * Abs(x) < step || (2 * Abs(x) == step && a % 2 == 0)
    requires 2 * Abs(y) < step || (2 * Abs(y) == step && b % 2 == 0)
    ensures a == b
  {
    ProductGrows(2, Abs(a - b), step);
    assert distance <= step;
    assert Abs(a - b) <= 1;
    assert Abs(a - b) == 1 ==> distance == step;
  }

  lemma AbsProduct(a: int, b: int)
    ensures Abs(a * b) == Abs(a) * Abs(b)
  {}

  lemma ProductGrows(a: nat, b: nat, c: nat)
    ensures a <= b ==> a * c <= b * c
  {}

  lemma DivisionSplits(n: int, d: int)
    requires d != 0
    ensures n == TruncatedQuotient(n, d) * d + TruncatedRemainder(n, d)
    ensures Abs(TruncatedRemainder(n, d)) < Abs(d)
  {
    var q, r := Abs(n) / Abs(d), Abs(n) % Abs(d);
    assert Abs(n) == q * Abs(d) + r;
    assert d == Signum(d) * Abs(d) && n == Signum(n) * Abs(n);
    calc {
      TruncatedQuotient(n, d) * d;
      == { Reorder(Signum(n), Signum(d), q, Abs(d)); }
      Signum(n) * (Signum(d) * Signum(d)) * (q * Abs(d));
      == { assert Signum(d) * Signum(d) == 1; }
      Signum(n) * (q * Abs(d));
    }
    assert Signum(n) * (q * Abs(d)) + Signum(n) * r == Signum(n) * (q * Abs(d) + r);
  }

  lemma Reorder(s: int, t: int, q: int, m: int)
    ensures s * t * q * (t * m) == s * (t * t) * (q * m)
  {}

  /** Moving the quotient one step away from zero leaves the rest of the divisor. */
  lemma AwayFromZero(n: int, d: int)
    requires d != 0 && TruncatedRemainder(n, d) != 0
    ensures var k := TruncatedQuotient(n, d) + (if Signum(n) == Signum(d) then 1 else -1);
      Abs(n - k * d) == Abs(d) - Abs(TruncatedRemainder(n, d))
  {
    DivisionSplits(n, d);
    var q, r := TruncatedQuotient(n, d), TruncatedRemainder(n, d);
    var step := if Signum(n) == Signum(d) then 1 else -1;
    assert (q + step) * d == q * d + step * d;
    assert step * d == Signum(n) * Abs(d);
    assert n - (q + step) * d == r - Signum(n) * Abs(d);
  }

  lemma StaysPut(n: int, d: int)
    requires d != 0
    requires var r := Abs(TruncatedRemainder(n, d));
      2 * r < Abs(d) || (2 * r == Abs(d) && TruncatedQuotient(n, d) % 2 == 0)
    ensures RoundsTo(n, d, TruncatedQuotient(n, d))
  {
    DivisionSplits(n, d);
    assert n - TruncatedQuotient(n, d) * d == TruncatedRemainder(n, d);
  }

  lemma MovesAway(n: int, d: int)
    requires d != 0
    requires var r := Abs(TruncatedRemainder(n, d));
      2 * r > Abs(d) || (2 * r == Abs(d) && TruncatedQuotient(n, d) % 2 != 0)
    ensures RoundsTo(n, d, TruncatedQuotient(n, d) + (if Signum(n) == Signum(d) then 1 else -1))
  {
    AwayFromZero(n, d);
  }

  const WIDEST_NUMERATOR: int := 0x4000_0000_0000_0000_0000_0000_0000_0000

  /** `round_ratio`, for the numerators and denominators the callers form. */
  function RoundRatio(numerator: i128, denominator: i128): (r: Result<i128, FixedError>)
    requires -WIDEST_NUMERATOR <= numerator <= WIDEST_NUMERATOR
    requires -0x8000_0000_0000_0000 <= denominator <= 0x8000_0000_0000_0000
    ensures denominator == 0 ==> r == Err(DivisionByZero)
    ensures denominator != 0 ==> r.Ok? && RoundsTo(numerator, denominator, r.value)
  {
    hide RoundsTo;
    if denominator == 0 then
      Err(DivisionByZero)
    else
      QuotientSmaller(numerator, denominator);
      DivisionSplits(numerator, denominator);
      hide TruncatedQuotient, TruncatedRemainder;
      var quotient: i128 := TruncatedQuotient(numerator, denominator);
      var remainder: i128 := TruncatedRemainder(numerator, denominator);
      var twiceRemainder: i128 := 2 * Abs(remainder);
      var denominatorAbs: i128 := Abs(denominator);
      if twiceRemainder > denominatorAbs || (twiceRemainder == denominatorAbs && quotient % 2 != 0) then
        MovesAway(numerator, denominator);
        var adjustment := if Signum(numerator) == Signum(denominator) then 1 else -1;
        var rounded: i128 := quotient + adjustment;
        Ok(rounded)
      else
        StaysPut(numerator, denominator);
        Ok(quotient)
  }

  lemma QuotientSmaller(n: int, d: int)
    requires d != 0
    ensures Abs(TruncatedQuotient(n, d)) <= Abs(n)
  {
    ProductGrows(1, Abs(d), Abs(n) / Abs(d));
    assert Abs(n) == (Abs(n) / Abs(d)) * Abs(d) + Abs(n) % Abs(d);
    assert Signum(n) * Signum(d) == 1 || Signum(n) * Signum(d) == -1 || Signum(n) * Signum(d) == 0;
  }

  function Narrow(value: Result<i128, FixedError>): (r: Result<i64, FixedError>)
    ensures value.Err? ==> r == value
    ensures value.Ok? && FitsI64(value.value) ==> r == Ok(value.value)
    ensures value.Ok? && !FitsI64(value.value) ==> r == Err(Overflow)
  {
    if value.Err? then Err(value.error)
    else if FitsI64(value.value) then Ok(value.value)
    else Err(Overflow)
  }

  lemma ProductBound(a: int, b: int, x: nat, y: nat)
    requires Abs(a) <= x && Abs(b) <= y
    ensures Abs(a * b) <= x * y
  {
    AbsProduct(a, b);
    ProductGrows(Abs(a), x, Abs(b));
    ProductGrows(Abs(b), y, x);
  }

  /**
   * `checked_mul`: the product in millionths, rounded half to even; overflow
   * exactly when that value does not fit.
   */
  function CheckedMul(a: i64, b: i64): (r: Result<i64, FixedError>)
    ensures r.Ok? ==> RoundsTo(a * b, SCALE, r.value)
    ensures r.Err? ==> r.error == Overflow && forall k :: RoundsTo(a * b, SCALE, k) ==> !FitsI64(k)
  {
    ProductBound(a, b, 0x8000_0000_0000_0000, 0x8000_0000_0000_0000);
    var rounded := RoundRatio(a * b, SCALE);
    OnlyRounding(a * b, SCALE, rounded.value);
    Narrow(rounded)
  }

  /** `checked_div`: the quotient in millionths, rounded half to even. */
  function CheckedDiv(a: i64, b: i64): (r: Result<i64, FixedError>)
    ensures b == 0 <==> r == Err(DivisionByZero)
    ensures b != 0 && r.Ok? ==> RoundsTo(a * SCALE, b, r.value)
    ensures b != 0 && r.Err? ==> r.error == Overflow && forall k :: RoundsTo(a * SCALE, b, k) ==> !FitsI64(k)
  {
    if b == 0 then
      Err(DivisionByZero)
    else
      ProductBound(a, SCALE, 0x8000_0000_0000_0000, SCALE);
      var rounded := RoundRatio(a * SCALE, b);
      OnlyRounding(a * SCALE, b, rounded.value);
      Narrow(rounded)
  }

  lemma OnlyRounding(n: int, d: int, k: int)
    requires d != 0 && RoundsTo(n, d, k)
    ensures forall other :: RoundsTo(n, d, other) ==> other == k
  {
    forall other | RoundsTo(n, d, other)
      ensures other == k
    {
      RoundingUnique(n, d, other, k);
    }
  }

  /** Negating an operand negates a product, so rounding has no bias between signs. */
  lemma MulIsSymmetric(a: i64, b: i64)
    requires a > -0x8000_0000_0000_0000 && CheckedMul(a, b).Ok? && CheckedMul(a, b).value > -0x8000_0000_0000_0000
    ensures CheckedMul(-a, b) == Ok(-CheckedMul(a, b).value)
  {
    hide CheckedMul;
    var k := CheckedMul(a, b).value;
    NegatedRounding(a * b, k);
    assert -a * b == -(a * b);
    OnlyRounding(-(a * b), SCALE, -k);
  }

  lemma NegatedRounding(n: int, k: int)
    requires RoundsTo(n, SCALE, k)
    ensures RoundsTo(-n, SCALE, -k)
  {}

  /** Multiplying and dividing by one millionth-scaled unit change nothing. */
  lemma UnitLaws(a: i64)
    ensures CheckedMul(a, SCALE) == Ok(a) && CheckedDiv(a, SCALE) == Ok(a)
  {
    assert RoundsTo(a * SCALE, SCALE, a);
    OnlyRounding(a * SCALE, SCALE, a);
  }

  function CheckedAdd(a: i64, b: i64): (r: Result<i64, FixedError>)
    ensures r.Ok? <==> FitsI64(a + b)
    ensures r.Ok? ==> r.value == a + b
  {
    if FitsI64(a + b) then Ok(a + b) else Err(Overflow)
  }

  function CheckedSub(a: i64, b: i64): (r: Result<i64, FixedError>)
    ensures r.Ok? <==> FitsI64(a - b)
    ensures r.Ok? ==> r.value == a - b
  {
    if FitsI64(a - b) then Ok(a - b) else Err(Overflow)
  }

  function Distance(a: i64, b: i64): nat {
    Abs(a - b)
  }

  /** `clamp`: the closest value of the range. */
  function Clamp(value: i64, minimum: i64, maximum: i64): (r: i64)
    requires minimum <= maximum
    ensures minimum <= r <= maximum
    ensures forall other: i64 :: minimum <= other <= maximum ==> Distance(value, r) <= Distance(value, other)
  {
    if value < minimum then minimum else if value > maximum then maximum else value
  }
}
