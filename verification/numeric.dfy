/**
 * Exact decimal rounding. PHP's round() and MySQL's ROUND() on exact
 * decimals both round halves away from zero; the model works on exact
 * reals, so binary floating point is not part of it. The code rounds to
 * one or two decimals only, so the number of decimals is at most 2 here.
 */
module Numeric {

  function Pow10(n: nat): (r: nat)
    ensures r >= 1
  {
    if n == 0 then 1 else 10 * Pow10(n - 1)
  }

  /** Nearest integer, halves away from zero: round(2.5) = 3, round(-2.5) = -3. */
  function RoundHalfAway(x: real): (r: int)
    ensures x >= 0.0 ==> r as real - 0.5 <= x < r as real + 0.5
    ensures x < 0.0 ==> r as real - 0.5 < x <= r as real + 0.5
    ensures x >= 0.0 ==> r >= 0
  {
    if x >= 0.0 then (x + 0.5).Floor else -((-x + 0.5).Floor)
  }

  /** 2^63: a PHP integer on a 64-bit build lies in [-2^63, 2^63). */
  const Int64Bound: int := 0x8000_0000_0000_0000

  /**
   * PHP's (int) of a whole-numbered float on a 64-bit build: the number
   * itself when it fits, otherwise the integer in [-2^63, 2^63) that is
   * congruent to it modulo 2^64.
   */
  function ToInt64(k: int): (r: int)
    ensures -Int64Bound <= r < Int64Bound
    ensures (k - r) % (2 * Int64Bound) == 0
    ensures -Int64Bound <= k < Int64Bound ==> r == k
  {
    var m := 2 * Int64Bound;
    var q := (k + Int64Bound) / m;
    assert k + Int64Bound == q * m + (k + Int64Bound) % m;
    assert k - ((k + Int64Bound) % m - Int64Bound) == q * m;
    (k + Int64Bound) % m - Int64Bound
  }

  /** Range and congruence determine the cast: any r meeting both is ToInt64(k). */
  lemma ToInt64Unique(k: int, r: int)
    requires -Int64Bound <= r < Int64Bound
    requires (k - r) % (2 * Int64Bound) == 0
    ensures r == ToInt64(k)
  {
    var m := 2 * Int64Bound;
    var s := ToInt64(k);
    var a, b := (k - r) / m, (k - s) / m;
    assert k - r == a * m && k - s == b * m;
    assert s - r == (a - b) * m;
  }

  /** Out-of-range numbers wrap: 10^19 becomes 10^19 - 2^64, and 2^64 becomes 0. */
  lemma ToInt64Wraps()
    ensures ToInt64(10_000_000_000_000_000_000) == -8_446_744_073_709_551_616
    ensures ToInt64(18_446_744_073_709_551_616) == 0
  {
    ToInt64Unique(10_000_000_000_000_000_000, -8_446_744_073_709_551_616);
    ToInt64Unique(18_446_744_073_709_551_616, 0);
  }

  /** 10^digits for the numbers of decimals the code rounds to. */
  function Scale(digits: nat): (p: real)
    requires digits <= 2
    ensures p == 1.0 || p == 10.0 || p == 100.0
  {
    if digits == 0 then 1.0 else if digits == 1 then 10.0 else 100.0
  }

  /** 10^-digits, the unit a value is rounded to. */
  function Unit(digits: nat): (u: real)
    requires digits <= 2
    ensures u > 0.0
  {
    1.0 / Scale(digits)
  }

  /** True when x is a whole multiple of 10^-digits. */
  predicate IsMultipleOf(x: real, digits: nat)
    requires digits <= 2
  {
    (x * Scale(digits)).Floor as real == x * Scale(digits)
  }

  /** Rounding x·p to an integer k and dividing by p gives a multiple of 1/p within half of 1/p of x, ties away from zero. */
  lemma ScaledRound(x: real, p: real, k: int)
    requires p == 1.0 || p == 10.0 || p == 100.0
    requires k == RoundHalfAway(x * p)
    ensures (k as real / p * p).Floor as real == k as real / p * p
    ensures x >= 0.0 ==> k as real / p - 0.5 / p <= x < k as real / p + 0.5 / p
    ensures x < 0.0 ==> k as real / p - 0.5 / p < x <= k as real / p + 0.5 / p
  {
    if p == 1.0 {
      assert x * p == x;
    } else if p == 10.0 {
      assert k as real / 10.0 * 10.0 == k as real;
    } else {
      assert k as real / 100.0 * 100.0 == k as real;
    }
  }

  /**
   * round($x, $digits) / ROUND(x, digits): the nearest multiple of
   * 10^-digits, halves away from zero (RoundToIsNearest and
   * RoundToIsUnique state this in full).
   */
  function RoundTo(x: real, digits: nat): (r: real)
    requires digits <= 2
    ensures digits == 1 ==> -0.05 <= r - x <= 0.05
    ensures digits == 2 ==> -0.005 <= r - x <= 0.005
  {
    match digits
    case 0 =>
      RoundHalfAway(x) as real
    case 1 =>
      RoundHalfAway(x * 10.0) as real / 10.0
    case 2 =>
      RoundHalfAway(x * 100.0) as real / 100.0
  }

  /**
   * Two multiples of 1/p whose windows of half-width 1/(2p), half-open
   * away from zero, both contain x are the same number.
   */
  lemma SameMultiple(x: real, q: real, r: real, p: real)
    requires p == 1.0 || p == 10.0 || p == 100.0
    requires (q * p).Floor as real == q * p && (r * p).Floor as real == r * p
    requires x >= 0.0 ==> q - 0.5 / p <= x < q + 0.5 / p && r - 0.5 / p <= x < r + 0.5 / p
    requires x < 0.0 ==> q - 0.5 / p < x <= q + 0.5 / p && r - 0.5 / p < x <= r + 0.5 / p
    ensures q == r
  {
    assert -1.0 < q * p - r * p < 1.0;
    assert (q * p).Floor == (r * p).Floor;
  }

  /** round($x, 0) is a whole number within half a whole number of x, ties away from zero. */
  lemma NearestWhole(x: real)
    ensures IsMultipleOf(RoundTo(x, 0), 0)
    ensures x >= 0.0 ==> RoundTo(x, 0) - Unit(0) / 2.0 <= x < RoundTo(x, 0) + Unit(0) / 2.0
    ensures x < 0.0 ==> RoundTo(x, 0) - Unit(0) / 2.0 < x <= RoundTo(x, 0) + Unit(0) / 2.0
  {
    ScaledRound(x, 1.0, RoundHalfAway(x * 1.0));
    assert x * 1.0 == x;
  }

  /** round($x, 1) is a tenth within half a tenth of x, ties away from zero. */
  lemma NearestTenth(x: real)
    ensures IsMultipleOf(RoundTo(x, 1), 1)
    ensures x >= 0.0 ==> RoundTo(x, 1) - Unit(1) / 2.0 <= x < RoundTo(x, 1) + Unit(1) / 2.0
    ensures x < 0.0 ==> RoundTo(x, 1) - Unit(1) / 2.0 < x <= RoundTo(x, 1) + Unit(1) / 2.0
  {
    ScaledRound(x, 10.0, RoundHalfAway(x * 10.0));
  }

  /** round($x, 2) is a hundredth within half a hundredth of x, ties away from zero. */
  lemma NearestHundredth(x: real)
    ensures IsMultipleOf(RoundTo(x, 2), 2)
    ensures x >= 0.0 ==> RoundTo(x, 2) - Unit(2) / 2.0 <= x < RoundTo(x, 2) + Unit(2) / 2.0
    ensures x < 0.0 ==> RoundTo(x, 2) - Unit(2) / 2.0 < x <= RoundTo(x, 2) + Unit(2) / 2.0
  {
    ScaledRound(x, 100.0, RoundHalfAway(x * 100.0));
  }

  /**
   * round($x, $digits) is the nearest multiple of 10^-digits, ties away
   * from zero: a multiple of the unit, with x within half a unit of it.
   */
  lemma RoundToIsNearest(x: real, digits: nat)
    requires digits <= 2
    ensures IsMultipleOf(RoundTo(x, digits), digits)
    ensures x >= 0.0 ==> RoundTo(x, digits) - Unit(digits) / 2.0 <= x < RoundTo(x, digits) + Unit(digits) / 2.0
    ensures x < 0.0 ==> RoundTo(x, digits) - Unit(digits) / 2.0 < x <= RoundTo(x, digits) + Unit(digits) / 2.0
  {
    if digits == 0 {
      NearestWhole(x);
    } else if digits == 1 {
      NearestTenth(x);
    } else {
      NearestHundredth(x);
    }
  }

  /** The contract of RoundTo determines it: any multiple of the unit with the same half-away interval is RoundTo. */
  lemma RoundToIsUnique(x: real, digits: nat, q: real)
    requires digits <= 2 && IsMultipleOf(q, digits)
    requires x >= 0.0 ==> q - Unit(digits) / 2.0 <= x < q + Unit(digits) / 2.0
    requires x < 0.0 ==> q - Unit(digits) / 2.0 < x <= q + Unit(digits) / 2.0
    ensures q == RoundTo(x, digits)
  {
    RoundToIsNearest(x, digits);
    SameMultiple(x, q, RoundTo(x, digits), Scale(digits));
  }

  /** The integer rounding never reverses the order of its arguments. */
  lemma {:induction false} RoundHalfAwayMonotone(x: real, y: real)
    requires x <= y
    ensures RoundHalfAway(x) <= RoundHalfAway(y)
  {
    if x >= 0.0 {
      assert (x + 0.5).Floor <= (y + 0.5).Floor;
    } else if y < 0.0 {
      assert (-y + 0.5).Floor <= (-x + 0.5).Floor;
    }
  }

  /** Rounding to a fixed number of decimals is monotone. */
  lemma RoundToMonotone(x: real, y: real, digits: nat)
    requires digits <= 2 && x <= y
    ensures RoundTo(x, digits) <= RoundTo(y, digits)
  {
    match digits
    case 0 => RoundHalfAwayMonotone(x, y);
    case 1 => RoundHalfAwayMonotone(x * 10.0, y * 10.0);
    case 2 => RoundHalfAwayMonotone(x * 100.0, y * 100.0);
  }

  /** A whole number is already rounded, to any number of decimals. */
  lemma RoundToWhole(n: int, digits: nat)
    requires digits <= 2
    ensures RoundTo(n as real, digits) == n as real
  {
    assert RoundHalfAway(n as real) == n;
    assert RoundHalfAway((10 * n) as real) == 10 * n;
    assert RoundHalfAway((100 * n) as real) == 100 * n;
  }

  /** A value between two whole-number bounds stays between them after rounding. */
  lemma RoundToWithin(x: real, lo: int, hi: int, digits: nat)
    requires digits <= 2
    requires lo as real <= x <= hi as real
    ensures lo as real <= RoundTo(x, digits) <= hi as real
  {
    RoundToMonotone(lo as real, x, digits);
    RoundToMonotone(x, hi as real, digits);
    RoundToWhole(lo, digits);
    RoundToWhole(hi, digits);
  }

  /** A non-negative value stays non-negative after rounding. */
  lemma RoundToNonNegative(x: real, digits: nat)
    requires digits <= 2 && x >= 0.0
    ensures RoundTo(x, digits) >= 0.0
  {
    RoundToMonotone(0.0, x, digits);
    RoundToWhole(0, digits);
  }

  /** Rounding twice to the same number of decimals is rounding once. */
  lemma RoundToIdempotent(x: real, digits: nat)
    requires digits <= 2
    ensures RoundTo(RoundTo(x, digits), digits) == RoundTo(x, digits)
  {
    match digits
    case 0 =>
      assert RoundHalfAway(RoundHalfAway(x) as real) == RoundHalfAway(x);
    case 1 =>
      var k := RoundHalfAway(x * 10.0);
      assert RoundHalfAway(k as real) == k;
    case 2 =>
      var k := RoundHalfAway(x * 100.0);
      assert RoundHalfAway(k as real) == k;
  }
}
