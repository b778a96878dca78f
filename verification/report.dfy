/** The benchmark report as the validator sees it once parsed, and the
    lookup of one benchmark's measurement series (`parseResults`). */
module Report {
  import opened Verdicts

  /** One record of the report: the benchmark's name and the raw data of its
      primary metric, one iteration group per fork, each in iteration order. */
  datatype Record = Record(benchmark: string, rawData: seq<seq<real>>)

  /** A report is the ordered list of records the benchmark run wrote. */
  type Results = seq<Record>

  /** `i` is the position of the first record named `name`. */
  predicate FirstNamed(report: Results, name: string, i: int)
  {
    && 0 <= i < |report|
    && report[i].benchmark == name
    && forall j :: 0 <= j < i ==> report[j].benchmark != name
  }

  /** No record is named `name`. */
  predicate Absent(report: Results, name: string)
  {
    forall j :: 0 <= j < |report| ==> report[j].benchmark != name
  }

  /** Position of the first record named `name`, scanning in report order. */
  function FirstIndexOf(report: Results, name: string): (r: Option<nat>)
    ensures r.Some? ==> FirstNamed(report, name, r.value)
    ensures r.None? <==> Absent(report, name)
  {
    if report == [] then None
    else if report[0].benchmark == name then Some(0)
    else match FirstIndexOf(report[1..], name)
      case None => None
      case Some(k) => Some(k + 1)
  }

  /** The series of the first record named `name`: the first iteration group
      of its raw data, unchanged. A missing name and a record without any
      iteration group are failures. */
  function ParseResults(report: Results, name: string): (r: Result<seq<real>, Failure>)
    ensures r == Failure(NotFound(name)) <==> Absent(report, name)
    ensures r == Failure(NoIterationGroup(name)) <==>
              exists i :: FirstNamed(report, name, i) && report[i].rawData == []
    ensures r.Success? <==>
              exists i :: FirstNamed(report, name, i) && report[i].rawData != []
    ensures r.Success? ==>
              forall i :: FirstNamed(report, name, i) ==> r.value == report[i].rawData[0]
  {
    match FirstIndexOf(report, name)
    case None => Failure(NotFound(name))
    case Some(i) =>
      if report[i].rawData == [] then Failure(NoIterationGroup(name))
      else Success(report[i].rawData[0])
  }

  /** Only one position can be the first with a given name. */
  lemma FirstNamedUnique(report: Results, name: string, i: int, j: int)
    requires FirstNamed(report, name, i) && FirstNamed(report, name, j)
    ensures i == j
  {
  }

  /** Records after the first match do not matter: a later record with the
      same name is ignored. */
  lemma {:induction false} LaterRecordsIgnored(report: Results, more: Results, name: string)
    requires !Absent(report, name)
    ensures ParseResults(report + more, name) == ParseResults(report, name)
  {
    var i := FirstIndexOf(report, name).value;
    assert FirstNamed(report + more, name, i) by {
      forall j | 0 <= j <= i
        ensures (report + more)[j] == report[j]
      {
      }
    }
    FirstNamedUnique(report + more, name, i, FirstIndexOf(report + more, name).value);
  }

  /** A leading record with another name is skipped. */
  lemma {:induction false} OtherNameSkipped(rec: Record, report: Results, name: string)
    requires rec.benchmark != name
    ensures ParseResults([rec] + report, name) == ParseResults(report, name)
  {
  }

  /** A report with records "A" and "B" has no series for "C", and the series
      for "A" is the first group of A's raw data. */
  lemma LookupExample()
    ensures ParseResults([Record("A", [[1.0, 2.0]]), Record("B", [[3.0]])], "C")
              == Failure(NotFound("C"))
    ensures ParseResults([Record("A", [[1.0, 2.0], [5.0]]), Record("A", [[9.0]])], "A")
              == Success([1.0, 2.0])
  {
  }
}
