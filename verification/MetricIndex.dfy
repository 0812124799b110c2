/**
 * The label index of pkg/metrics on values: a gauge vector is a map from label rows to numbers,
 * and the side index files rows under the last label so that pruning needs no scan.
 */
module MetricIndex {
  import opened Collections

  type Row = seq<string>

  const NODE := "node"
  const EXECUTION_ID := "executionID"
  const LATEST := "latest"

  datatype Gauge = Gauge(series: map<Row, real>, index: map<string, seq<Row>>)

  const EMPTY := Gauge(map[], map[])

  function Last(row: Row): string
    requires row != []
  {
    row[|row| - 1]
  }

  function Relabel(row: Row): Row
    requires row != []
  {
    row[|row| - 1 := LATEST]
  }

  function Filed(g: Gauge, id: string): seq<Row> {
    if id in g.index then g.index[id] else []
  }

  /** cacheLabels */
  function Cache(g: Gauge, id: string, row: Row): Gauge {
    g.(index := g.index[id := Filed(g, id) + [row]])
  }

  /** withLabelValues(row...).Set(v) */
  function Record(g: Gauge, row: Row, v: real): Gauge
    requires row != []
  {
    Cache(g, Last(row), row).(series := g.series[row := v])
  }

  /** prune: delete the rows filed under id, and nothing else. */
  function Prune(g: Gauge, id: string): Gauge {
    g.(series := g.series - Elements(Filed(g, id)))
  }

  /** The reference that needs no index: scan all series for the id in the last label. */
  function Scan(g: Gauge, id: string): map<Row, real> {
    map row | row in g.series && (row == [] || Last(row) != id) :: g.series[row]
  }

  // ---------------------------------------------------------------- index versus scan

  ghost predicate EndIn(rows: seq<Row>, id: string) {
    forall row | row in rows :: row != [] && Last(row) == id
  }

  /** Every live series is filed under its last label, and every filed row ends in its key. */
  ghost predicate Agreement(g: Gauge) {
    && (forall row | row in g.series :: row != [] && row in Filed(g, Last(row)))
    && (forall id :: EndIn(Filed(g, id), id))
  }

  /** The part of the agreement that concerns rows that are alive now. */
  ghost predicate LiveAgreement(g: Gauge) {
    && (forall row | row in g.series :: row != [] ==> row in Filed(g, Last(row)))
    && (forall id, row | row in Filed(g, id) && row in g.series :: row != [] && Last(row) == id)
  }

  lemma PruneIsScanIffLiveAgreement(g: Gauge)
    ensures (forall id :: Prune(g, id).series == Scan(g, id)) <==> LiveAgreement(g)
  {
    if forall id :: Prune(g, id).series == Scan(g, id) {
      forall row | row in g.series && row != []
        ensures row in Filed(g, Last(row))
      {
        assert Prune(g, Last(row)).series == Scan(g, Last(row));
        assert row !in Prune(g, Last(row)).series;
      }
      forall id, row | row in Filed(g, id) && row in g.series
        ensures row != [] && Last(row) == id
      {
        assert Prune(g, id).series == Scan(g, id);
        assert row !in Scan(g, id);
      }
    }
    if LiveAgreement(g) {
      forall id
        ensures Prune(g, id).series == Scan(g, id)
      {
        assert Prune(g, id).series.Keys == Scan(g, id).Keys;
      }
    }
  }

  lemma FiledAfterCache(g: Gauge, id: string, row: Row, other: string)
    ensures Filed(Cache(g, id, row), other) == if other == id then Filed(g, id) + [row] else Filed(g, other)
  {
  }

  lemma RecordKeepsAgreement(g: Gauge, row: Row, v: real)
    requires row != [] && Agreement(g)
    ensures Agreement(Record(g, row, v))
  {
    var h := Record(g, row, v);
    forall id
      ensures EndIn(Filed(h, id), id)
    {
      FiledAfterCache(g, Last(row), row, id);
      assert EndIn(Filed(g, id), id);
    }
    forall r | r in h.series
      ensures r != [] && r in Filed(h, Last(r))
    {
      FiledAfterCache(g, Last(row), row, Last(r));
    }
  }

  lemma PruneKeepsAgreement(g: Gauge, id: string)
    requires Agreement(g)
    ensures Agreement(Prune(g, id))
    ensures Prune(g, id).series == Scan(g, id)
  {
    forall i, row | row in Filed(g, i)
      ensures row != [] && Last(row) == i
    {
      assert EndIn(Filed(g, i), i);
    }
    PruneIsScanIffLiveAgreement(g);
    var h := Prune(g, id);
    forall i
      ensures Filed(h, i) == Filed(g, i) && EndIn(Filed(h, i), i)
    {
      assert EndIn(Filed(g, i), i);
    }
  }

  // ---------------------------------------------------------------- custom gauges

  /** The label names a custom gauge is created with: enrichLabels of the configured list. */
  function Enriched(labels: seq<string>): seq<string> {
    var withNode := if NODE in labels then labels else labels + [NODE];
    if EXECUTION_ID in labels then withNode else withNode + [EXECUTION_ID]
  }

  lemma EnrichedProperties(labels: seq<string>)
    ensures labels <= Enriched(labels)
    ensures NODE in Enriched(labels) && EXECUTION_ID in Enriched(labels)
    ensures Enriched(labels) != []
    ensures forall l | l in Enriched(labels) :: l in labels || l == "node" || l == "executionID"
    ensures |Enriched(labels)|
         == |labels| + (if "node" in labels then 0 else 1) + (if "executionID" in labels then 0 else 1)
    ensures Last(Enriched(labels)) == EXECUTION_ID
            <==> EXECUTION_ID !in labels || (NODE in labels && Last(labels) == EXECUTION_ID)
    ensures Distinct(labels) ==> Distinct(Enriched(labels))
  {
    var withNode := if NODE in labels then labels else labels + [NODE];
    assert withNode[..|labels|] == labels;
    assert NODE in withNode by {
      if NODE !in labels { assert withNode[|labels|] == NODE; }
    }
    assert Enriched(labels)[..|withNode|] == withNode;
    assert forall l | l in withNode :: l in Enriched(labels);
    if EXECUTION_ID !in labels {
      assert Enriched(labels)[|withNode|] == EXECUTION_ID;
    } else {
      assert Enriched(labels) == withNode;
      assert EXECUTION_ID in withNode;
    }
  }

  /** A reported value with the labels the job sent. */
  datatype Result = Result(value: real, labels: map<string, string>)

  /** The value of one label after MetricFor has overwritten node and executionID; absent labels read as "". */
  function LabelValue(name: string, id: string, node: string, labels: map<string, string>): string {
    if name == EXECUTION_ID then id
    else if name == NODE then node
    else if name in labels then labels[name]
    else ""
  }

  function RowOf(names: seq<string>, id: string, node: string, labels: map<string, string>): Row {
    seq(|names|, i requires 0 <= i < |names| => LabelValue(names[i], id, node, labels))
  }

  /**
   * MetricFor as written. With latestMetric on, the slice filed by the first call is overwritten before the
   * second, so both entries of the index read the row that ends in LATEST.
   */
  function ReportAsWritten(g: Gauge, row: Row, v: real, latest: bool): Gauge
    requires row != []
  {
    if !latest then
      Record(g, row, v)
    else
      Record(Cache(g, Last(row), Relabel(row)).(series := g.series[row := v]), Relabel(row), v)
  }

  /** MetricFor with the row copied before it is filed. */
  function ReportWithCopy(g: Gauge, row: Row, v: real, latest: bool): Gauge
    requires row != []
  {
    var h := Record(g, row, v);
    if latest then Record(h, Relabel(row), v) else h
  }

  /** What can happen to one custom gauge: a reported result, or the pruning of an execution. */
  datatype Op = Report(id: string, node: string, result: Result) | Forget(id: string)

  function ApplyOp(names: seq<string>, latest: bool, copied: bool, g: Gauge, op: Op): Gauge
    requires names != []
  {
    match op
    case Forget(id) => Prune(g, id)
    case Report(id, node, result) =>
      var row := RowOf(names, id, node, result.labels);
      if copied then ReportWithCopy(g, row, result.value, latest)
      else ReportAsWritten(g, row, result.value, latest)
  }

  function RunOps(names: seq<string>, latest: bool, copied: bool, ops: seq<Op>): Gauge
    requires names != []
  {
    if ops == [] then EMPTY
    else ApplyOp(names, latest, copied, RunOps(names, latest, copied, ops[..|ops| - 1]), ops[|ops| - 1])
  }

  /** The row carries id under the label executionID. */
  ghost predicate Belongs(names: seq<string>, row: Row, id: string) {
    |row| == |names| && forall i | 0 <= i < |names| && names[i] == EXECUTION_ID :: row[i] == id
  }

  /** Pruning removes the series of the execution, no others, and changes no value. */
  ghost predicate PruneExact(names: seq<string>, g: Gauge, id: string) {
    && (forall row :: row in Prune(g, id).series <==> row in g.series && !Belongs(names, row, id))
    && (forall row | row in Prune(g, id).series :: Prune(g, id).series[row] == g.series[row])
  }

  /** Every live row has the gauge's arity and one execution ID, which is also its last label. */
  ghost predicate WellLabelled(names: seq<string>, g: Gauge) {
    forall row | row in g.series :: row != [] && Belongs(names, row, Last(row))
  }

  lemma RowOfBelongs(names: seq<string>, id: string, node: string, labels: map<string, string>)
    requires names != [] && Last(names) == EXECUTION_ID
    ensures var row := RowOf(names, id, node, labels); row != [] && Last(row) == id && Belongs(names, row, id)
  {
  }

  lemma AgreementMakesPruneExact(names: seq<string>, g: Gauge, id: string)
    requires names != [] && Last(names) == EXECUTION_ID
    requires Agreement(g) && WellLabelled(names, g)
    ensures PruneExact(names, g, id)
  {
    PruneKeepsAgreement(g, id);
    forall row | row in g.series
      ensures Belongs(names, row, id) <==> Last(row) == id
    {
      assert Belongs(names, row, Last(row));
      assert names[|names| - 1] == EXECUTION_ID;
    }
  }

  /** Every run of reports and prunings keeps the index in agreement when no filed row is overwritten. */
  lemma {:induction false} RunsKeepAgreement(names: seq<string>, latest: bool, copied: bool, ops: seq<Op>)
    requires names != [] && (latest ==> copied)
    ensures Agreement(RunOps(names, latest, copied, ops))
  {
    if ops != [] {
      var g := RunOps(names, latest, copied, ops[..|ops| - 1]);
      RunsKeepAgreement(names, latest, copied, ops[..|ops| - 1]);
      match ops[|ops| - 1]
      case Forget(id) => PruneKeepsAgreement(g, id);
      case Report(id, node, result) =>
        var row := RowOf(names, id, node, result.labels);
        RecordKeepsAgreement(g, row, result.value);
        RecordKeepsAgreement(Record(g, row, result.value), Relabel(row), result.value);
    }
  }

  lemma {:induction false} RunsStayWellLabelled(names: seq<string>, latest: bool, copied: bool, ops: seq<Op>)
    requires names != [] && Last(names) == EXECUTION_ID
    requires latest ==> Distinct(names)
    ensures WellLabelled(names, RunOps(names, latest, copied, ops))
  {
    if ops != [] {
      RunsStayWellLabelled(names, latest, copied, ops[..|ops| - 1]);
      match ops[|ops| - 1]
      case Forget(id) =>
      case Report(id, node, result) =>
        RowOfBelongs(names, id, node, result.labels);
        var row := RowOf(names, id, node, result.labels);
        assert latest ==> Belongs(names, Relabel(row), LATEST);
    }
  }

  /** A report that is misfiled: pruning its ID right away leaves its row behind. */
  lemma ReportIsMisfiled(names: seq<string>, latest: bool, copied: bool, id: string, node: string)
    requires EXECUTION_ID in names && id != LATEST && id != "" && node != id
    requires (latest && !copied) || Last(names) != EXECUTION_ID
    ensures var g := ApplyOp(names, latest, copied, EMPTY, Report(id, node, Result(1.0, map[])));
            var row := RowOf(names, id, node, map[]);
            row in Prune(g, id).series && Belongs(names, row, id)
  {
    var row := RowOf(names, id, node, map[]);
    var g := ApplyOp(names, latest, copied, EMPTY, Report(id, node, Result(1.0, map[])));
    assert row in g.series && Belongs(names, row, id);
    if Last(names) == EXECUTION_ID {
      assert Filed(g, id) == [Relabel(row)];
      assert Relabel(row) != row;
    } else {
      assert Last(row) == LabelValue(Last(names), id, node, map[]);
      assert Filed(g, id) == [];
    }
  }

  /** One report and its pruning: enough to show a misfiled gauge. */
  lemma OneReportIsMisfiled(names: seq<string>, latest: bool, copied: bool)
    requires EXECUTION_ID in names
    requires (latest && !copied) || Last(names) != EXECUTION_ID
    ensures !PruneExact(names, RunOps(names, latest, copied, [Report("1", "n", Result(1.0, map[]))]), "1")
  {
    var op := Report("1", "n", Result(1.0, map[]));
    var ops := [op];
    assert ops[..|ops| - 1] == [];
    assert RunOps(names, latest, copied, []) == EMPTY;
    assert RunOps(names, latest, copied, ops) == ApplyOp(names, latest, copied, EMPTY, op);
    ReportIsMisfiled(names, latest, copied, "1", "n");
  }

  /**
   * For the code as written, pruning removes exactly the execution's series of a custom gauge, in every run,
   * if and only if latestMetric is off and the configured labels leave executionID as the last label.
   */
  lemma PruneExactIff(labels: seq<string>, latest: bool)
    ensures (forall ops, id :: PruneExact(Enriched(labels), RunOps(Enriched(labels), latest, false, ops), id))
            <==> !latest && (EXECUTION_ID !in labels || (NODE in labels && Last(labels) == EXECUTION_ID))
  {
    EnrichedProperties(labels);
    var names := Enriched(labels);
    if !latest && Last(names) == EXECUTION_ID {
      forall ops, id
        ensures PruneExact(names, RunOps(names, latest, false, ops), id)
      {
        RunsKeepAgreement(names, latest, false, ops);
        RunsStayWellLabelled(names, latest, false, ops);
        AgreementMakesPruneExact(names, RunOps(names, latest, false, ops), id);
      }
    } else {
      OneReportIsMisfiled(names, latest, false);
      var ops := [Report("1", "n", Result(1.0, map[]))];
      assert !PruneExact(Enriched(labels), RunOps(Enriched(labels), latest, false, ops), "1");
    }
  }

  /** With the row copied before it is filed, latestMetric no longer matters. */
  lemma PruneExactWithCopyIff(labels: seq<string>, latest: bool)
    requires Distinct(labels)
    ensures (forall ops, id :: PruneExact(Enriched(labels), RunOps(Enriched(labels), latest, true, ops), id))
            <==> EXECUTION_ID !in labels || (NODE in labels && Last(labels) == EXECUTION_ID)
  {
    EnrichedProperties(labels);
    var names := Enriched(labels);
    if Last(names) == EXECUTION_ID {
      forall ops, id
        ensures PruneExact(names, RunOps(names, latest, true, ops), id)
      {
        RunsKeepAgreement(names, latest, true, ops);
        RunsStayWellLabelled(names, latest, true, ops);
        AgreementMakesPruneExact(names, RunOps(names, latest, true, ops), id);
      }
    } else {
      OneReportIsMisfiled(names, latest, true);
    }
  }

  // ---------------------------------------------------------------- latestMetric on, as written

  /** Every row the index holds ends in LATEST, whatever key it is filed under. */
  ghost predicate OnlyLatestFiled(g: Gauge) {
    forall id :: EndIn(Filed(g, id), LATEST)
  }

  lemma {:induction false} RunsFileOnlyLatest(names: seq<string>, ops: seq<Op>)
    requires names != []
    ensures OnlyLatestFiled(RunOps(names, true, false, ops))
  {
    if ops != [] {
      var g := RunOps(names, true, false, ops[..|ops| - 1]);
      RunsFileOnlyLatest(names, ops[..|ops| - 1]);
      match ops[|ops| - 1]
      case Forget(id) =>
        forall i ensures EndIn(Filed(Prune(g, id), i), LATEST) { assert EndIn(Filed(g, i), LATEST); }
      case Report(id, node, result) =>
        var row := RowOf(names, id, node, result.labels);
        var m := Relabel(row);
        var h := Cache(g, Last(row), m).(series := g.series[row := result.value]);
        forall i
          ensures EndIn(Filed(Record(h, m, result.value), i), LATEST)
        {
          assert EndIn(Filed(g, i), LATEST);
          FiledAfterCache(g, Last(row), m, i);
          FiledAfterCache(h, LATEST, m, i);
        }
    }
  }

  /**
   * With latestMetric on, in every run: pruning never removes a series that does not end in LATEST, and
   * pruning an execution right after it reported takes the LATEST series away and leaves its own.
   */
  lemma LatestPruneTakesTheWrongSeries(names: seq<string>, ops: seq<Op>, id: string, node: string, result: Result)
    requires names != [] && Last(names) == EXECUTION_ID && id != LATEST
    ensures var g := RunOps(names, true, false, ops + [Report(id, node, result)]);
            var row := RowOf(names, id, node, result.labels);
            && (forall r, i | r in g.series && (r == [] || Last(r) != LATEST) :: r in Prune(g, i).series)
            && Filed(g, id) != [] && Filed(g, id)[|Filed(g, id)| - 1] == Relabel(row)
            && row in Prune(g, id).series && Belongs(names, row, id)
            && Relabel(row) in g.series && Relabel(row) !in Prune(g, id).series
  {
    var op := Report(id, node, result);
    var all := ops + [op];
    assert all[..|all| - 1] == ops;
    var g := RunOps(names, true, false, all);
    assert g == ApplyOp(names, true, false, RunOps(names, true, false, ops), op);
    RunsFileOnlyLatest(names, all);
    forall i, r | r in Filed(g, i)
      ensures r != [] && Last(r) == LATEST
    {
      assert EndIn(Filed(g, i), LATEST);
    }
    RowOfBelongs(names, id, node, result.labels);
  }
}
