/** The dead-code-elimination check (`testDCE`): the instrumented benchmark
    must be clearly slower than its no-op counterpart, both relative to its
    own mean and relative to its own noise. */
module Dce {
  import opened Verdicts
  import opened Reals
  import opened Report

  /** The instrumented mean must exceed the no-op mean by this fraction of itself. */
  const RelThreshold: real := 0.1

  /** The gap between the means must be at least this many standard deviations. */
  const SigmaMultiplier: real := 3.0

  /** Sum of the samples. */
  function Sum(s: seq<real>): (r: real)
    ensures Positive(s) && s != [] ==> r > 0.0
  {
    if s == [] then 0.0 else s[0] + Sum(s[1..])
  }

  /** Arithmetic mean, as commons-math `Mean` computes it without rounding. */
  function Mean(s: seq<real>): (m: real)
    requires |s| > 0
    ensures Positive(s) ==> m > 0.0
  {
    Sum(s) / |s| as real
  }

  /** Sum of squared deviations of the samples from `m`. */
  function SquaredDeviations(s: seq<real>, m: real): (r: real)
    ensures r >= 0.0
    ensures r == 0.0 <==> forall i :: 0 <= i < |s| ==> s[i] == m
  {
    if s == [] then 0.0
    else
      var r := Sq(s[0] - m) + SquaredDeviations(s[1..], m);
      assert forall i :: 1 <= i < |s| ==> s[i] == s[1..][i - 1];
      SqZeroIff(s[0] - m);
      r
  }

  /** Bias-corrected sample variance (divisor n - 1), as commons-math
      `StandardDeviation` squares it; a single sample has variance 0. */
  function Variance(s: seq<real>): (v: real)
    requires |s| > 0
    ensures v >= 0.0
  {
    if |s| == 1 then 0.0
    else SquaredDeviations(s, Mean(s)) / (|s| - 1) as real
  }

  /** Samples at least `lo` sum to at least n * lo. */
  lemma {:induction false} SumAtLeast(s: seq<real>, lo: real)
    requires forall i :: 0 <= i < |s| ==> lo <= s[i]
    ensures |s| as real * lo <= Sum(s)
  {
    if s != [] {
      var t := s[1..];
      assert forall i :: 0 <= i < |t| ==> t[i] == s[i + 1];
      SumAtLeast(t, lo);
      assert Sum(s) == s[0] + Sum(t);
      assert |s| as real * lo == |t| as real * lo + lo;
    }
  }

  /** Samples at most `hi` sum to at most n * hi. */
  lemma {:induction false} SumAtMost(s: seq<real>, hi: real)
    requires forall i :: 0 <= i < |s| ==> s[i] <= hi
    ensures Sum(s) <= |s| as real * hi
  {
    if s != [] {
      var t := s[1..];
      assert forall i :: 0 <= i < |t| ==> t[i] == s[i + 1];
      SumAtMost(t, hi);
      assert Sum(s) == s[0] + Sum(t);
      assert |s| as real * hi == |t| as real * hi + hi;
    }
  }

  /** The mean lies between the smallest and the largest sample. */
  lemma MeanBounds(s: seq<real>, lo: real, hi: real)
    requires |s| > 0
    requires forall i :: 0 <= i < |s| ==> lo <= s[i] <= hi
    ensures lo <= Mean(s) <= hi
  {
    SumAtLeast(s, lo);
    SumAtMost(s, hi);
    QuotientBetween(Sum(s), |s| as real, lo, hi);
  }

  /** The variance is zero exactly when every sample is the same. */
  lemma VarianceZeroIff(s: seq<real>)
    requires |s| > 0
    ensures Variance(s) == 0.0 <==> forall i :: 0 <= i < |s| ==> s[i] == s[0]
  {
    if |s| > 1 {
      var n1 := (|s| - 1) as real;
      assert Variance(s) * n1 == SquaredDeviations(s, Mean(s));
      if forall i :: 0 <= i < |s| ==> s[i] == s[0] {
        MeanBounds(s, s[0], s[0]);
      } else if Variance(s) == 0.0 {
        assert s[0] == Mean(s);
      }
    }
  }

  /** Whether the floating-point comparison `diff < 0.1` is true, with
      `diff = (dceMean - noDceMean) / dceMean`. Over a zero `dceMean`, a
      positive `noDceMean` gives -Infinity, which is below; a negative one
      gives +Infinity and an equal one NaN, neither of which is. */
  predicate RelativeGapBelow(dceMean: real, noDceMean: real)
    ensures dceMean == 0.0 ==> (RelativeGapBelow(dceMean, noDceMean) <==> noDceMean > 0.0)
  {
    Below(Div(dceMean - noDceMean, dceMean), RelThreshold)
  }

  /** The 3-sigma test `abs(gap) < 3 * std` squared: std * std is the variance.
      A series without noise never hides a gap, and equal means are within
      any non-zero noise. */
  predicate WithinNoise(dceMean: real, noDceMean: real, dceVariance: real)
    ensures WithinNoise(dceMean, noDceMean, dceVariance) ==> dceVariance > 0.0
    ensures dceMean == noDceMean ==>
              (WithinNoise(dceMean, noDceMean, dceVariance) <==> dceVariance > 0.0)
  {
    Sq(dceMean - noDceMean) < Sq(SigmaMultiplier) * dceVariance
  }

  /** Either failure signal of the check, for two non-empty series. */
  predicate Suspected(dceData: seq<real>, noDceData: seq<real>)
    requires |dceData| > 0 && |noDceData| > 0
  {
    || RelativeGapBelow(Mean(dceData), Mean(noDceData))
    || WithinNoise(Mean(dceData), Mean(noDceData), Variance(dceData))
  }

  /** For a positive instrumented mean the relative test is a plain bound:
      the gap is too small exactly when the no-op mean exceeds 90% of it. */
  lemma RelativeGapPositive(dceMean: real, noDceMean: real)
    requires dceMean > 0.0
    ensures RelativeGapBelow(dceMean, noDceMean) <==> noDceMean > (1.0 - RelThreshold) * dceMean
  {
    QuotientAtLeast(dceMean - noDceMean, dceMean, RelThreshold);
  }

  /** The squared form of the 3-sigma test agrees with the source's form for
      every standard deviation whose square is the variance. */
  lemma ThreeSigmaSquared(gap: real, std: real, variance: real)
    requires std >= 0.0 && std * std == variance
    ensures Abs(gap) < SigmaMultiplier * std <==> Sq(gap) < Sq(SigmaMultiplier) * variance
  {
    SquareLess(Abs(gap), SigmaMultiplier * std);
    assert Sq(Abs(gap)) == Sq(gap);
    assert Sq(SigmaMultiplier * std) == Sq(SigmaMultiplier) * variance;
  }

  /** The check on two series as the build script computes it. An empty
      series has a NaN mean, every comparison with NaN is false, and so the
      check passes. */
  function CheckDceAsWritten(dce: string, noDce: string, dceData: seq<real>, noDceData: seq<real>)
    : (r: Outcome<Failure>)
    ensures r.Fail? ==> r.error == DceSuspected(dce, noDce)
    ensures dceData == [] || noDceData == [] ==> r == Pass
  {
    if |dceData| > 0 && |noDceData| > 0 && Suspected(dceData, noDceData)
    then Fail(DceSuspected(dce, noDce))
    else Pass
  }

  /** The check on two series, failing on an empty series. */
  function CheckDce(dce: string, noDce: string, dceData: seq<real>, noDceData: seq<real>)
    : (r: Outcome<Failure>)
    ensures dceData == [] ==> r == Fail(EmptySeries(dce))
    ensures dceData != [] && noDceData == [] ==> r == Fail(EmptySeries(noDce))
    ensures dceData != [] && noDceData != [] ==>
              r == CheckDceAsWritten(dce, noDce, dceData, noDceData)
    ensures r == Pass ==> dceData != [] && noDceData != []
    ensures r == Pass && Positive(dceData) ==>
              Mean(noDceData) <= (1.0 - RelThreshold) * Mean(dceData)
  {
    if dceData == [] then Fail(EmptySeries(dce))
    else if noDceData == [] then Fail(EmptySeries(noDce))
    else if Suspected(dceData, noDceData) then Fail(DceSuspected(dce, noDce))
    else
      if Positive(dceData) then
        RelativeGapPositive(Mean(dceData), Mean(noDceData));
        Pass
      else Pass
  }

  /** With a standard deviation `std` of the instrumented series, the check
      passes exactly when neither of the source's two conditions holds. */
  lemma DcePassIff(dce: string, noDce: string, dceData: seq<real>, noDceData: seq<real>, std: real)
    requires |dceData| > 0 && |noDceData| > 0
    requires Mean(dceData) != 0.0
    requires std >= 0.0 && std * std == Variance(dceData)
    ensures CheckDce(dce, noDce, dceData, noDceData) == Pass <==>
              && !((Mean(dceData) - Mean(noDceData)) / Mean(dceData) < RelThreshold)
              && !(Abs(Mean(dceData) - Mean(noDceData)) < SigmaMultiplier * std)
  {
    ThreeSigmaSquared(Mean(dceData) - Mean(noDceData), std, Variance(dceData));
  }

  /** Equal means are always suspected, whatever the noise. */
  lemma EqualMeansSuspected(dce: string, noDce: string, dceData: seq<real>, noDceData: seq<real>)
    requires |dceData| > 0 && |noDceData| > 0
    requires Mean(dceData) != 0.0
    requires Mean(dceData) == Mean(noDceData)
    ensures CheckDce(dce, noDce, dceData, noDceData) == Fail(DceSuspected(dce, noDce))
  {
  }

  /** Looks up both series, the instrumented one first, and checks them. */
  function TestDce(report: Results, dce: string, noDce: string): (r: Outcome<Failure>)
    ensures ParseResults(report, dce).Failure? ==> r == Fail(ParseResults(report, dce).error)
    ensures ParseResults(report, dce).Success? && ParseResults(report, noDce).Failure? ==>
              r == Fail(ParseResults(report, noDce).error)
    ensures r == Pass <==>
              && ParseResults(report, dce).Success?
              && ParseResults(report, noDce).Success?
              && CheckDce(dce, noDce, ParseResults(report, dce).value,
                          ParseResults(report, noDce).value) == Pass
  {
    match ParseResults(report, dce)
    case Failure(e) => Fail(e)
    case Success(dceData) =>
      match ParseResults(report, noDce)
      case Failure(e) => Fail(e)
      case Success(noDceData) => CheckDce(dce, noDce, dceData, noDceData)
  }

  /** `testDCE` as written: the same lookups, then the check without the
      guard against empty series. */
  function TestDceAsWritten(report: Results, dce: string, noDce: string): (r: Outcome<Failure>)
    ensures ParseResults(report, dce).Failure? ==> r == Fail(ParseResults(report, dce).error)
    ensures ParseResults(report, dce).Success? && ParseResults(report, noDce).Failure? ==>
              r == Fail(ParseResults(report, noDce).error)
    ensures r == Pass <==>
              && ParseResults(report, dce).Success?
              && ParseResults(report, noDce).Success?
              && CheckDceAsWritten(dce, noDce, ParseResults(report, dce).value,
                                   ParseResults(report, noDce).value) == Pass
  {
    match ParseResults(report, dce)
    case Failure(e) => Fail(e)
    case Success(dceData) =>
      match ParseResults(report, noDce)
      case Failure(e) => Fail(e)
      case Success(noDceData) => CheckDceAsWritten(dce, noDce, dceData, noDceData)
  }

  /** When every series looked up is non-empty, the check as written and the
      guarded check give the same outcome. */
  lemma AsWrittenAgreesOnNonEmpty(report: Results, dce: string, noDce: string)
    requires ParseResults(report, dce).Success? ==> ParseResults(report, dce).value != []
    requires ParseResults(report, noDce).Success? ==> ParseResults(report, noDce).value != []
    ensures TestDceAsWritten(report, dce, noDce) == TestDce(report, dce, noDce)
  {
  }

  /** As written, a benchmark compared with itself is suspected when its
      series is non-empty and positive. */
  lemma SelfComparisonFailsAsWritten(report: Results, name: string)
    requires ParseResults(report, name).Success? ==>
               ParseResults(report, name).value != [] && Positive(ParseResults(report, name).value)
    ensures TestDceAsWritten(report, name, name).Fail?
  {
    if ParseResults(report, name).Success? {
      var d := ParseResults(report, name).value;
      EqualMeansSuspected(name, name, d, d);
    }
  }

  /** With the guard against empty series, a benchmark compared with itself
      is always suspected when its samples are positive. */
  lemma SelfComparisonFails(report: Results, name: string)
    requires ParseResults(report, name).Success? ==> Positive(ParseResults(report, name).value)
    ensures TestDce(report, name, name).Fail?
  {
  }

  /** The nearly equal series [10, 10, 10, 10] and [9.9, 10.0, 9.8, 10.1] are
      suspected; [100, 102, 98, 101] against [10, 11, 9, 10] passes. */
  lemma DceExamples()
    ensures CheckDce("dce", "noDce", [10.0, 10.0, 10.0, 10.0], [9.9, 10.0, 9.8, 10.1])
              == Fail(DceSuspected("dce", "noDce"))
    ensures CheckDce("dce", "noDce", [100.0, 102.0, 98.0, 101.0], [10.0, 11.0, 9.0, 10.0]) == Pass
  {
    var d1 := [10.0, 10.0, 10.0, 10.0];
    var n1 := [9.9, 10.0, 9.8, 10.1];
    assert Mean(d1) == 10.0;
    assert Mean(n1) == 9.95;
    var d2 := [100.0, 102.0, 98.0, 101.0];
    var n2 := [10.0, 11.0, 9.0, 10.0];
    assert Mean(d2) == 100.25;
    assert Mean(n2) == 10.0;
    assert Variance(d2) == 8.75 / 3.0;
  }

  /** An empty instrumented series passes the check as written but fails the
      guarded check. */
  lemma EmptySeriesPassesAsWritten()
    ensures TestDceAsWritten([Record("dce", [[]]), Record("noDce", [[1.0]])], "dce", "noDce") == Pass
    ensures TestDce([Record("dce", [[]]), Record("noDce", [[1.0]])], "dce", "noDce")
              == Fail(EmptySeries("dce"))
  {
  }
}
