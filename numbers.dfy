/**
 * JavaScript numbers as the decision engine meets them.
 *
 * Measured inputs are finite and are modelled as `real`. Derived values can
 * leave the finite range: the gust factor of a calm wind is +Infinity, the
 * best-runway search starts from the -Infinity/+Infinity sentinels, and a
 * wind component computed from an undefined heading is NaN. `Num` carries
 * exactly those cases, and its comparisons follow IEEE 754: every comparison
 * with NaN is false.
 */
module Numbers {

  datatype Num = Fin(v: real) | PosInf | NegInf | NaN

  /** `a < b` on JavaScript numbers. */
  predicate Less(a: Num, b: Num)
  {
    match (a, b)
    case (Fin(x), Fin(y)) => x < y
    case (NegInf, Fin(_)) => true
    case (NegInf, PosInf) => true
    case (Fin(_), PosInf) => true
    case _ => false
  }

  /** `a > b` on JavaScript numbers. */
  predicate Greater(a: Num, b: Num)
  {
    Less(b, a)
  }

  /** `a === b` on JavaScript numbers: NaN equals nothing, itself included. */
  predicate StrictEq(a: Num, b: Num)
  {
    !a.NaN? && a == b
  }

  /** `Math.abs`. */
  function Abs(a: Num): (r: Num)
    ensures a.Fin? ==> r == Fin(if a.v < 0.0 then -a.v else a.v)
    ensures a.PosInf? || a.NegInf? ==> r == PosInf
    ensures a.NaN? <==> r.NaN?
  {
    match a
    case Fin(x) => Fin(if x < 0.0 then -x else x)
    case PosInf => PosInf
    case NegInf => PosInf
    case NaN => NaN
  }

  /** `Math.round` on a finite value: the nearest integer, halves rounded up. */
  function Round(x: real): (r: int)
    ensures x - 0.5 < r as real <= x + 0.5
  {
    (x + 0.5).Floor
  }

  /** `Math.round(x * 10) / 10`: one decimal place. */
  function Round1(x: real): (r: real)
    ensures x - 0.05 < r <= x + 0.05
    ensures (r * 10.0).Floor as real == r * 10.0
  {
    Round(x * 10.0) as real / 10.0
  }

  /** `Math.round(x * 100) / 100`: two decimal places. */
  function Round2(x: real): (r: real)
    ensures x - 0.005 < r <= x + 0.005
    ensures (r * 100.0).Floor as real == r * 100.0
  {
    Round(x * 100.0) as real / 100.0
  }

  /** Rounding never reverses the order of two values. */
  lemma RoundMonotone(x: real, y: real)
    requires x <= y
    ensures Round(x) <= Round(y)
  {
    assert (x + 0.5).Floor <= (y + 0.5).Floor by {
      var fx := (x + 0.5).Floor;
      assert fx as real <= y + 0.5;
    }
  }

  /** Rounding a whole number gives it back. */
  lemma RoundOfInteger(n: int)
    ensures Round(n as real) == n
  {
  }

  /** Comparisons of finite numbers are the comparisons of their values. */
  lemma FiniteComparisons(x: real, y: real)
    ensures Less(Fin(x), Fin(y)) <==> x < y
    ensures Greater(Fin(x), Fin(y)) <==> x > y
    ensures StrictEq(Fin(x), Fin(y)) <==> x == y
  {
  }

  /** A NaN operand makes every comparison false. */
  lemma NaNComparesFalse(a: Num)
    ensures !Less(NaN, a) && !Less(a, NaN)
    ensures !Greater(NaN, a) && !Greater(a, NaN)
    ensures !StrictEq(NaN, a) && !StrictEq(a, NaN)
  {
  }

  /** +Infinity exceeds every finite number. */
  lemma InfinityExceedsFinite(x: real)
    ensures Greater(PosInf, Fin(x))
    ensures Less(NegInf, Fin(x))
  {
  }
}
