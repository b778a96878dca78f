/** Outcomes of the validator. The build script reports a failed check by
    throwing; here every failure is an ordinary return value. */
module Verdicts {

  /** A position that a search may fail to find. */
  datatype Option<+T> = None | Some(value: T)

  /** A value, or the failure that prevented computing it. */
  datatype Result<+T, +E> = Success(value: T) | Failure(error: E)

  /** Pass, or the first failure found. */
  datatype Outcome<+E> = Pass | Fail(error: E)

  /** Every way validation can stop. */
  datatype Failure =
    /** No record of the report carries the requested benchmark name. */
    | NotFound(name: string)
    /** The first record with the name has no iteration group in its raw data. */
    | NoIterationGroup(name: string)
    /** Iterations `earlier` and `later` (= earlier + 1) of `series` differ by too much. */
    | Unstable(name: string, earlier: nat, later: nat, series: seq<real>)
    /** The series of a benchmark named in the dead-code-elimination check is empty. */
    | EmptySeries(name: string)
    /** The instrumented benchmark is not clearly slower than its no-op counterpart. */
    | DceSuspected(dce: string, noDce: string)
}
