/// Whole paise, and the one way this system rounds: half away from zero, once.
module Money {
  import opened Lists

  /** Money, in whole paise and of either sign. */
  type Paise = int

  const QUANTITY_SCALE := 1000
  const RUPEE := 100
  const BASIS_POINTS := 10_000

  function Abs(x: int): nat {
    if x < 0 then -x else x
  }

  /** The integer nearest to `num / den`, ties away from zero (`ROUND_HALF_UP`). */
  function RoundHalfUp(num: int, den: int): int
    requires den > 0
  {
    if num >= 0 then (2 * num + den) / (2 * den) else -((2 * -num + den) / (2 * den))
  }

  /** Nearest, and on a tie the one further from zero: these two facts determine it. */
  predicate IsRounded(num: int, den: int, r: int) {
    && 2 * Abs(r * den - num) <= den
    && (2 * Abs(r * den - num) == den ==> Abs(r * den) > Abs(num))
  }

  lemma RoundNonNegative(num: int, den: int)
    requires num >= 0 && den > 0
    ensures IsRounded(num, den, RoundHalfUp(num, den))
    ensures RoundHalfUp(num, den) >= 0
  {
    var r := RoundHalfUp(num, den);
    assert r * (2 * den) == 2 * (r * den);
  }

  lemma Mirrored(num: int, den: int, r: int)
    requires IsRounded(num, den, r)
    ensures IsRounded(-num, den, -r)
  {
    assert -r * den == -(r * den);
  }

  lemma RoundZero(den: int)
    requires den > 0
    ensures RoundHalfUp(0, den) == 0
  {
    RoundNonNegative(0, den);
    var r := RoundHalfUp(0, den);
    hide RoundHalfUp;
    if r > 0 { MulStep(0, r, den); }
  }

  /** Rounding is odd: a refund rounds as the sale did. */
  lemma RoundOdd(num: int, den: int)
    requires den > 0
    ensures RoundHalfUp(-num, den) == -RoundHalfUp(num, den)
  {
    if num == 0 { RoundZero(den); }
  }

  lemma RoundIsRounded(num: int, den: int)
    requires den > 0
    ensures IsRounded(num, den, RoundHalfUp(num, den))
  {
    if num >= 0 {
      RoundNonNegative(num, den);
    } else {
      RoundOdd(num, den);
      RoundNonNegative(-num, den);
      hide RoundHalfUp;
      Mirrored(-num, den, RoundHalfUp(-num, den));
    }
  }

  lemma Multiple(a: int, den: int)
    requires den > 0
    ensures a * den <= -den || a * den >= 0
  {
    if a >= 0 { MulOrder(0, a, den); } else { MulStep(a, 0, den); }
  }

  lemma {:induction false} RoundedUnique(num: int, den: int, a: int, b: int)
    requires den > 0 && IsRounded(num, den, a) && IsRounded(num, den, b)
    ensures a == b
  {
    if a < b {
      MulStep(a, b, den);
      Multiple(a, den);
    }
    if b < a {
      MulStep(b, a, den);
      Multiple(b, den);
    }
  }

  /** Rounding an integer multiple of the denominator changes nothing. */
  lemma RoundExact(k: int, den: int)
    requires den > 0
    ensures RoundHalfUp(k * den, den) == k
  {
    RoundIsRounded(k * den, den);
    RoundedUnique(k * den, den, RoundHalfUp(k * den, den), k);
  }

  /** A share of something never rounds past it: for 0 <= num <= whole * den, 0 <= r <= whole. */
  lemma RoundWithin(num: int, den: int, whole: int)
    requires den > 0 && 0 <= num <= whole * den
    ensures 0 <= RoundHalfUp(num, den) <= whole
  {
    RoundNonNegative(num, den);
    var r := RoundHalfUp(num, den);
    if r > whole { MulStep(whole, r, den); }
  }

  // ---- Operations that round, each once ----

  function MultiplyByQuantity(unitPrice: Paise, qtyMilli: int): Paise {
    RoundHalfUp(unitPrice * qtyMilli, QUANTITY_SCALE)
  }

  function PercentageOf(amount: Paise, basisPoints: int): Paise {
    RoundHalfUp(amount * basisPoints, BASIS_POINTS)
  }

  /** Whole steps of the denominator come through rounding untouched. */
  lemma RoundShift(num: int, k: int, den: int)
    requires den > 0 && num >= 0 && k >= 0
    ensures RoundHalfUp(num + k * den, den) == RoundHalfUp(num, den) + k
  {
    MulOrder(0, k, den);
    RoundNonNegative(num, den);
    RoundIsRounded(num + k * den, den);
    var r := RoundHalfUp(num, den);
    hide RoundHalfUp;
    MulOrder(0, r, den);
    assert (r + k) * den == r * den + k * den;
    RoundedUnique(num + k * den, den, RoundHalfUp(num + k * den, den), r + k);
  }

  lemma RoundMonotone(a: int, b: int, den: int)
    requires den > 0 && 0 <= a <= b
    ensures RoundHalfUp(a, den) <= RoundHalfUp(b, den)
  {
    RoundNonNegative(a, den);
    RoundNonNegative(b, den);
    var x, y := RoundHalfUp(a, den), RoundHalfUp(b, den);
    hide RoundHalfUp;
    if y < x { MulStep(y, x, den); }
  }

  /** What a percentage takes of a smaller amount is no more, and what it leaves is no more either. */
  lemma PercentageMonotone(less: Paise, more: Paise, basisPoints: int)
    requires 0 <= less <= more && 0 <= basisPoints <= BASIS_POINTS
    ensures 0 <= PercentageOf(more, basisPoints) - PercentageOf(less, basisPoints) <= more - less
  {
    hide RoundHalfUp;
    var a, gap := less * basisPoints, (more - less) * basisPoints;
    MulOrder(0, less, basisPoints);
    MulOrder(0, more - less, basisPoints);
    assert more * basisPoints == a + gap;
    RoundMonotone(a, a + gap, BASIS_POINTS);
    MulOrder(basisPoints, BASIS_POINTS, more - less);
    assert gap <= (more - less) * BASIS_POINTS;
    RoundMonotone(a + gap, a + (more - less) * BASIS_POINTS, BASIS_POINTS);
    RoundShift(a, more - less, BASIS_POINTS);
  }
}
