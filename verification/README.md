# Benchmark report validator — Dafny model

After a native benchmark run, the build script `build.gradle.kts` validates
the run's JSON report before accepting it. It does two checks:

* **Iteration stability** (`checkNoTrendExists`, `testStability`). For each
  named benchmark, every pair of adjacent iterations must differ by less
  than 10% of the *later* iteration. The first offending pair aborts the run.
* **Dead-code elimination** (`testDCE`). The instrumented benchmark (`dce`)
  must be clearly slower than its no-op counterpart (`noDce`). The relative
  gap `(dceMean - noDceMean) / dceMean` must be at least 0.1, and the absolute
  gap must be at least three standard deviations of the `dce` samples.

Both checks read their series through `parseResults`. It takes the first
report record whose `benchmark` field equals the name, then returns the first
iteration group of `primaryMetric.rawData`.

The model is functional. The report is a sequence of `Report.Record`
values that are already parsed, and samples are `real`. Every check returns
a `Verdicts.Outcome<Failure>` instead of throwing.

* `verdicts.dfy`: `Option`, `Result`, `Outcome`, and the `Failure` kinds. The
  kinds are a missing name, a record without iteration groups, an unstable
  pair, an empty series, and suspected dead-code elimination.
* `reals.dfy`: absolute value, squares, positivity, and small order facts.
* `report.dfy`: the report records and the first-match lookup.
* `stability.dfy`: the adjacent-jump test, the per-series check, and the
  fail-fast loop over names.
* `dce.dfy`: sum, mean, variance with the n − 1 divisor, and the two
  dead-code-elimination signals. It holds the check as written and the
  corrected check.

Floating-point special values are written out where the source can reach
them with finite inputs. `Reals.Div` divides as doubles do, returning a
finite value, an infinity or NaN, and `Reals.AtLeast` and `Reals.Below` compare
such a value the way `>=` and `<` do:

* In the stability test `abs(d[i] - d[i-1]) / d[i] >= 0.1`, a zero later
  sample gives `+Infinity` when the earlier sample is non-zero, so the pair
  fails. When both samples are zero it gives `NaN`, so the pair passes.
* A negative later sample gives a negative quotient, so the pair never fails.
* In `testDCE`, a zero `dceMean` makes `diff` equal to `-Infinity`, `NaN` or
  `+Infinity`, depending on the sign of `-noDceMean`.
* An empty series has a `NaN` mean, and every comparison with `NaN` is false.

None of these paths needs a precondition. Where a property holds only for
timing data, the lemma requires positive samples and says so.

A stricter lookup would reject a duplicated benchmark name as ambiguous.
The code takes the first match instead, and the model does the same
(`Report.LaterRecordsIgnored`).

## Model

| member | source | states |
|---|---|---|
| Report.FirstIndexOf | build.gradle.kts:24-27 | the position found is the first record with the name, and there is none exactly when no record has the name |
| Report.ParseResults | build.gradle.kts:23-30 | lookup fails with NotFound exactly when no record has the name, and fails with NoIterationGroup exactly when the first such record has empty raw data; otherwise it returns that record's first iteration group unchanged, so order and length are kept |
| Report.LaterRecordsIgnored | build.gradle.kts:24-27 | once a name occurs, appending records, including later records with the same name, does not change the lookup |
| Report.OtherNameSkipped | build.gradle.kts:24-27 | a leading record with a different name has no effect on the lookup |
| Report.LookupExample | build.gradle.kts:23-30 | in a report with A and B, looking up C is NotFound; a duplicated A yields the first group of the first A |
| Reals.Div | build.gradle.kts:34 | a division by a non-zero value is the finite quotient; over zero, a positive numerator gives +Infinity and a zero numerator gives NaN |
| Stability.Jumps | build.gradle.kts:34 | over a zero later sample, the pair is reported unstable exactly when the earlier sample is non-zero: a non-zero difference gives +Infinity, which is >= 0.1, and 0/0 gives NaN, which is not |
| Stability.FirstJump | build.gradle.kts:33-34 | the index returned is the smallest index at or after the start whose pair jumps; none is returned exactly when no pair from the start on jumps |
| Stability.CheckNoTrendExists | build.gradle.kts:32-40 | series of length 0 or 1 pass; the check passes exactly when no adjacent pair jumps; a failure names the series, the pair (idx-1, idx), the full series, and the smallest jumping idx |
| Stability.JumpsPositive | build.gradle.kts:34 | for a positive later sample, the quotient test is the same as `abs(d[idx] - d[idx-1]) >= 0.1 * d[idx]` |
| Stability.JumpsNegative | build.gradle.kts:34 | a negative later sample never triggers the test, because the quotient is negative |
| Stability.FailurePersists | build.gradle.kts:33-37 | extending a failing series with more iterations still fails, at the same index |
| Stability.PrefixPasses | build.gradle.kts:33-36 | every prefix of a passing series passes |
| Stability.StabilityExamples | build.gradle.kts:32-40 | [1.0, 1.02, 1.01, 1.03] passes, [1.0, 1.5] fails between iterations 0 and 1, and [5.0] passes |
| Stability.OrderMatters | build.gradle.kts:34 | the same samples pass in one order and fail in another; [0.905, 1.0] passes but [1.0, 0.905] fails, because the later sample is the denominator |
| Stability.CheckName | build.gradle.kts:44-45 | one loop step passes exactly when the lookup succeeds and the series is stable; a lookup failure is reported as it is |
| Stability.TestStability | build.gradle.kts:42-47 | passes exactly when every name passes; a failure is the outcome of some name k, and every name before k passed |
| Stability.FailFast | build.gradle.kts:43-46 | once the names fail, appending more names does not change the outcome, so later names are never checked |
| Dce.Mean | build.gradle.kts:52-53 | the mean of positive samples is positive |
| Dce.MeanBounds | build.gradle.kts:52-53 | the mean lies between any lower and upper bound of the samples |
| Dce.Variance | build.gradle.kts:54 | the n-1 sample variance is non-negative |
| Dce.VarianceZeroIff | build.gradle.kts:54 | the variance is zero exactly when all samples are equal |
| Dce.RelativeGapBelow | build.gradle.kts:56-57 | over a zero dce mean, `diff < 0.1` holds exactly when the noDce mean is positive: that gives -Infinity, while a negative noDce mean gives +Infinity and an equal one gives NaN |
| Dce.WithinNoise | build.gradle.kts:57 | the gap can be within noise only when the dce variance is positive, and equal means are within noise exactly when it is |
| Dce.RelativeGapPositive | build.gradle.kts:56-57 | for a positive dce mean, `diff < 0.1` holds exactly when noDceMean > 0.9 * dceMean |
| Dce.ThreeSigmaSquared | build.gradle.kts:57 | for any std >= 0 whose square is the variance, `abs(gap) < 3 * std` is the same as `gap^2 < 9 * variance` |
| Dce.CheckDceAsWritten | build.gradle.kts:52-58 | any failure is DceSuspected for the two names; an empty series always passes |
| Dce.CheckDce | build.gradle.kts:52-58 | an empty dce series, and then an empty noDce series, fails with EmptySeries; on non-empty series it agrees with the check as written; a pass with positive dce samples implies noDceMean <= 0.9 * dceMean |
| Dce.DcePassIff | build.gradle.kts:52-58 | with a non-zero dce mean and any std whose square is the variance, the check passes exactly when neither `diff < 0.1` nor `abs(dceMean - noDceMean) < 3 * std` holds |
| Dce.EqualMeansSuspected | build.gradle.kts:56-57 | equal means with a non-zero dce mean always fail, whatever the variance |
| Dce.TestDce | build.gradle.kts:49-60 | the dce name is looked up first, then the noDce name, and the first lookup failure is reported; it passes exactly when both lookups succeed and the series check passes |
| Dce.TestDceAsWritten | build.gradle.kts:49-60 | lookup failures are reported in the same order as in TestDce; it passes exactly when both lookups succeed and the check as written passes |
| Dce.AsWrittenAgreesOnNonEmpty | build.gradle.kts:49-60 | when every series looked up is non-empty, the check as written and the guarded check give the same outcome |
| Dce.SelfComparisonFailsAsWritten | build.gradle.kts:49-58 | as written, a benchmark compared with itself fails when its series is non-empty and positive |
| Dce.SelfComparisonFails | build.gradle.kts:49-58 | with the guard against empty series, a benchmark compared with itself always fails when its samples are positive |
| Dce.DceExamples | build.gradle.kts:52-58 | [10,10,10,10] against [9.9,10.0,9.8,10.1] is suspected; [100,102,98,101] against [10,11,9,10] passes |
| Dce.EmptySeriesPassesAsWritten | build.gradle.kts:52-57 | a report whose dce record has one empty group passes as written, but fails with EmptySeries when guarded |

## Left out

- JSON text parsing with `org.json` (build.gradle.kts:4, 24, 28) is foreign code. The report is modelled as parsed records, so a missing `benchmark`, `primaryMetric` or `rawData` field, or a non-numeric sample, is not modelled.
- The file read `path.readText()` (build.gradle.kts:24) is I/O and is left out. The report is a parameter.
- The internals of commons-math `Mean` and `StandardDeviation` (build.gradle.kts:52-54) are foreign code. They are replaced by the textbook definitions over `real`. Their two-pass correction term is zero in exact arithmetic.
- Dce.Variance: there is no square root over `real`. The 3-sigma test is stated on the variance in squared form, and Dce.ThreeSigmaSquared and Dce.DcePassIff relate it to any standard deviation whose square is the variance.
- IEEE-754 rounding and overflow are left out, and negative zero is not distinguished from zero. Samples are exact reals, and only the Infinity and NaN outcomes reachable from finite samples are modelled.
- The Gradle plugin, repositories, dependencies, benchmark configuration and host-OS target selection (build.gradle.kts:8-21, 62-108) are build plumbing.
- The hook in `NativeBenchmarkExec.doLast` (build.gradle.kts:110-133) is left out. It only fixes which names are checked and that stability runs before the DCE check. `Stability.TestStability` models the first call, and `Dce.TestDceAsWritten` models the second call as written; `Dce.TestDce` is its corrected form.
- The exception message text is left out. Failures carry the names, the index pair and the series instead.
- The benchmark bodies in `src/commonMain/kotlin/org/example/SampleBenchmark.kt` produce the report. They hold no logic of the validator.

## Findings

| source | as written | input that shows it | evidently intended | confidence | as-written member | corrected member |
|---|---|---|---|---|---|---|
| build.gradle.kts:52-57 | an empty first iteration group gives a NaN mean; both comparisons with NaN are false, so `testDCE` passes | a report where the `dce` record's raw data is `[[]]` and `noDce` has `[[1.0]]` | a check without samples should fail rather than pass silently | medium, not executed | Dce.EmptySeriesPassesAsWritten | Dce.CheckDce |
