/** Small facts about real numbers that the checks share. */
module Reals {

  /** Absolute value, as `kotlin.math.abs`. */
  function Abs(x: real): (r: real)
    ensures r >= 0.0
    ensures r == x || r == -x
  {
    if x < 0.0 then -x else x
  }

  /** Square of a real. */
  function Sq(x: real): (r: real)
    ensures r >= 0.0
  {
    x * x
  }

  /** Every sample is strictly positive, as timing data is. */
  predicate Positive(s: seq<real>)
  {
    forall i :: 0 <= i < |s| ==> s[i] > 0.0
  }

  /** Squaring preserves and reflects strict order on non-negative reals. */
  lemma SquareLess(a: real, b: real)
    requires a >= 0.0 && b >= 0.0
    ensures a < b <==> Sq(a) < Sq(b)
  {
    if a < b {
      SquareGrows(a, b);
    } else {
      if b < a {
        SquareGrows(b, a);
      } else {
        assert a == b;
      }
    }
  }

  /** Squaring is strictly increasing on non-negative reals. */
  lemma SquareGrows(a: real, b: real)
    requires 0.0 <= a < b
    ensures Sq(a) < Sq(b)
  {
    var d := b - a;
    assert b * b == a * a + 2.0 * a * d + d * d;
    assert d * d > 0.0;
    assert a * d >= 0.0;
  }

  /** A square is zero exactly at zero. */
  lemma SqZeroIff(x: real)
    ensures Sq(x) == 0.0 <==> x == 0.0
  {
    if x > 0.0 {
      SquareGrows(0.0, x);
    } else if x < 0.0 {
      SquareGrows(0.0, -x);
      assert Sq(-x) == Sq(x);
    }
  }

  /** Dividing bounds n * lo <= x <= n * hi by a positive n. */
  lemma QuotientBetween(x: real, n: real, lo: real, hi: real)
    requires n > 0.0
    requires n * lo <= x <= n * hi
    ensures lo <= x / n <= hi
  {
  }

  /** A quotient `a / c` is at least `t` exactly when `a` is at least `t * c`,
      for a positive `c`. */
  lemma QuotientAtLeast(a: real, c: real, t: real)
    requires c > 0.0
    ensures a / c >= t <==> a >= t * c
  {
    var q := a / c;
    assert q * c == a;
    if q >= t {
      assert (q - t) * c >= 0.0;
    } else {
      assert (t - q) * c > 0.0;
    }
  }

  /** A double-precision value read without rounding: a finite real, an
      infinity, or NaN. Negative zero is not distinguished from zero. */
  datatype Double = Finite(value: real) | PosInf | NegInf | NaN

  /** Floating-point division of two finite operands: a non-zero numerator
      over zero is an infinity of the numerator's sign, and 0 / 0 is NaN. */
  function Div(a: real, b: real): (r: Double)
    ensures r.Finite? <==> b != 0.0
    ensures r.Finite? ==> r.value * b == a
    ensures r == PosInf <==> b == 0.0 && a > 0.0
    ensures r == NaN <==> b == 0.0 && a == 0.0
  {
    if b != 0.0 then Finite(a / b)
    else if a > 0.0 then PosInf
    else if a < 0.0 then NegInf
    else NaN
  }

  /** The comparison `x >= t`: true of +Infinity, false of -Infinity and NaN. */
  predicate AtLeast(x: Double, t: real)
  {
    match x
    case Finite(v) => v >= t
    case PosInf => true
    case NegInf => false
    case NaN => false
  }

  /** The comparison `x < t`: true of -Infinity, false of +Infinity and NaN. */
  predicate Below(x: Double, t: real)
  {
    match x
    case Finite(v) => v < t
    case PosInf => false
    case NegInf => true
    case NaN => false
  }
}
