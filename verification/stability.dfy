/** The iteration-stability check (`checkNoTrendExists`) and its fail-fast
    application to an ordered list of benchmark names (`testStability`). */
module Stability {
  import opened Verdicts
  import opened Reals
  import opened Report

  /** Largest tolerated jump between adjacent iterations, as a fraction of the
      later one. */
  const Tolerance: real := 0.1

  /** Whether the pair (prev, cur) is reported unstable, that is whether the
      floating-point comparison `abs(cur - prev) / cur >= 0.1` is true. Over a
      zero `cur`, a non-zero difference gives +Infinity, which is >= 0.1, so
      the pair jumps; two zero samples give NaN, and `NaN >= 0.1` is false, so
      they do not. */
  predicate Jumps(prev: real, cur: real)
    ensures cur == 0.0 ==> (Jumps(prev, cur) <==> prev != 0.0)
  {
    AtLeast(Div(Abs(cur - prev), cur), Tolerance)
  }

  /** The pair of iterations (idx - 1, idx) of `data` jumps. */
  predicate JumpAt(data: seq<real>, idx: int)
  {
    1 <= idx < |data| && Jumps(data[idx - 1], data[idx])
  }

  /** The first jump at or after `from`, scanning upwards. */
  function FirstJump(data: seq<real>, from: nat): (r: Option<nat>)
    requires 1 <= from
    ensures r.Some? ==> from <= r.value && JumpAt(data, r.value)
    ensures r.Some? ==> forall j :: from <= j < r.value ==> !JumpAt(data, j)
    ensures r.None? <==> forall j :: from <= j < |data| ==> !JumpAt(data, j)
    decreases |data| - from
  {
    if from >= |data| then None
    else if Jumps(data[from - 1], data[from]) then assert JumpAt(data, from); Some(from)
    else FirstJump(data, from + 1)
  }

  /** Checks the adjacent pairs of `data` from index 1 upwards and reports the
      first pair that jumps, with the whole series. */
  function CheckNoTrendExists(name: string, data: seq<real>): (r: Outcome<Failure>)
    ensures |data| <= 1 ==> r == Pass
    ensures r == Pass <==> forall i :: 1 <= i < |data| ==> !JumpAt(data, i)
    ensures r.Fail? ==>
              && r.error.Unstable?
              && r.error.name == name
              && r.error.series == data
              && r.error.later == r.error.earlier + 1
              && JumpAt(data, r.error.later)
              && forall j :: 1 <= j < r.error.later ==> !JumpAt(data, j)
  {
    match FirstJump(data, 1)
    case None => Pass
    case Some(idx) => Fail(Unstable(name, idx - 1, idx, data))
  }

  /** For a positive later sample the quotient test is the multiplied test
      `|cur - prev| >= 0.1 * cur`. */
  lemma JumpsPositive(prev: real, cur: real)
    requires cur > 0.0
    ensures Jumps(prev, cur) <==> Abs(cur - prev) >= Tolerance * cur
  {
    QuotientAtLeast(Abs(cur - prev), cur, Tolerance);
  }

  /** A negative later sample makes the quotient negative, so it never jumps. */
  lemma JumpsNegative(prev: real, cur: real)
    requires cur < 0.0
    ensures !Jumps(prev, cur)
  {
  }

  /** The first failing pair of a series stays the first failing pair when
      the series is extended with more iterations. */
  lemma {:induction false} FailurePersists(name: string, data: seq<real>, more: seq<real>)
    requires CheckNoTrendExists(name, data).Fail?
    ensures CheckNoTrendExists(name, data + more).Fail?
    ensures CheckNoTrendExists(name, data + more).error.later
              == CheckNoTrendExists(name, data).error.later
  {
    var k := CheckNoTrendExists(name, data).error.later;
    var ext := data + more;
    assert JumpAt(ext, k) by {
      assert ext[k - 1] == data[k - 1] && ext[k] == data[k];
    }
    forall j | 1 <= j < k
      ensures !JumpAt(ext, j)
    {
      assert ext[j - 1] == data[j - 1] && ext[j] == data[j];
      assert !JumpAt(data, j);
    }
  }

  /** Every prefix of a passing series passes. */
  lemma PrefixPasses(name: string, data: seq<real>, more: seq<real>)
    requires CheckNoTrendExists(name, data + more) == Pass
    ensures CheckNoTrendExists(name, data) == Pass
  {
    if CheckNoTrendExists(name, data).Fail? {
      FailurePersists(name, data, more);
    }
  }

  /** The series [1.0, 1.02, 1.01, 1.03] passes, [1.0, 1.5] fails between
      iterations 0 and 1, and a single sample passes. */
  lemma StabilityExamples(name: string)
    ensures CheckNoTrendExists(name, [1.0, 1.02, 1.01, 1.03]) == Pass
    ensures CheckNoTrendExists(name, [1.0, 1.5]) == Fail(Unstable(name, 0, 1, [1.0, 1.5]))
    ensures CheckNoTrendExists(name, [5.0]) == Pass
  {
  }

  /** The verdict depends on the order of the iterations: the same samples pass
      in one order and fail in another, and the later sample is the
      denominator, so one pair in two orders gives two verdicts. */
  lemma OrderMatters(name: string)
    ensures CheckNoTrendExists(name, [1.0, 1.05, 1.1]) == Pass
    ensures CheckNoTrendExists(name, [1.1, 1.0, 1.05]).Fail?
    ensures CheckNoTrendExists(name, [0.905, 1.0]) == Pass
    ensures CheckNoTrendExists(name, [1.0, 0.905]).Fail?
  {
  }

  /** Looks up one name's series and checks it, one step of `testStability`. */
  function CheckName(report: Results, name: string): (r: Outcome<Failure>)
    ensures r == Pass <==>
              ParseResults(report, name).Success?
              && CheckNoTrendExists(name, ParseResults(report, name).value) == Pass
    ensures ParseResults(report, name).Failure? ==> r == Fail(ParseResults(report, name).error)
  {
    match ParseResults(report, name)
    case Failure(e) => Fail(e)
    case Success(data) => CheckNoTrendExists(name, data)
  }

  /** Checks the names in order and stops at the first failure. */
  function TestStability(report: Results, names: seq<string>): (r: Outcome<Failure>)
    ensures r == Pass <==> forall i :: 0 <= i < |names| ==> CheckName(report, names[i]) == Pass
    ensures r.Fail? ==>
              exists k :: 0 <= k < |names| && r == CheckName(report, names[k])
                       && forall i :: 0 <= i < k ==> CheckName(report, names[i]) == Pass
  {
    if names == [] then Pass
    else match CheckName(report, names[0])
      case Fail(e) => Fail(e)
      case Pass =>
        TailShift(report, names);
        TestStability(report, names[1..])
  }

  /** The outcome of name i + 1 is that of name i of the tail. */
  lemma TailShift(report: Results, names: seq<string>)
    requires names != []
    ensures forall i {:trigger names[1..][i]} :: 0 <= i < |names| - 1 ==>
              CheckName(report, names[1..][i]) == CheckName(report, names[i + 1])
  {
  }

  /** Once a name fails, the names after it are never looked at. */
  lemma {:induction false} FailFast(report: Results, names: seq<string>, more: seq<string>)
    ensures TestStability(report, names).Fail? ==>
              TestStability(report, names + more) == TestStability(report, names)
  {
    if names == [] {
      return;
    }
    assert (names + more)[0] == names[0];
    if CheckName(report, names[0]) == Pass {
      assert (names + more)[1..] == names[1..] + more;
      FailFast(report, names[1..], more);
    }
  }
}
