/** The metrics collector on values: two gauges labelled node and executionID, and the configured gauges. */
module CollectorModel {
  import opened Collections
  import opened MetricIndex

  type LabelNames = s: seq<string> | s != [] witness [NODE]

  datatype Custom = Custom(names: LabelNames, gauge: Gauge)

  datatype Prom = Prom(latest: bool, pods: real, proc: Gauge, duration: Gauge, custom: map<string, Custom>)

  /** One entry of a posted report: the metric's name and a value with labels. */
  datatype Reported = Reported(name: string, result: Result)

  function NewProm(latest: bool, gauges: map<string, LabelNames>): Prom {
    Prom(latest, 0.0, EMPTY, EMPTY, map name | name in gauges :: Custom(gauges[name], EMPTY))
  }

  function SetPair(g: Gauge, latest: bool, node: string, id: string, v: real): Gauge {
    var h := Record(g, [node, id], v);
    if latest then Record(h, [node, LATEST], v) else h
  }

  function ProcessingFinished(p: Prom, node: string, id: string, failed: bool): Prom {
    p.(proc := SetPair(p.proc, p.latest, node, id, if failed then 1.0 else 0.0))
  }

  function Duration(p: Prom, node: string, id: string, d: real): Prom {
    p.(duration := SetPair(p.duration, p.latest, node, id, d))
  }

  function ReportTo(c: Custom, latest: bool, id: string, node: string, result: Result): Custom {
    c.(gauge := ApplyOp(c.names, latest, false, c.gauge, Report(id, node, result)))
  }

  function MetricFor(p: Prom, id: string, node: string, name: string, result: Result): Prom {
    if name in p.custom then
      p.(custom := p.custom[name := ReportTo(p.custom[name], p.latest, id, node, result)])
    else
      p
  }

  function MetricsFor(p: Prom, id: string, node: string, results: seq<Reported>): Prom {
    if results == [] then p
    else
      var q := MetricsFor(p, id, node, results[..|results| - 1]);
      MetricFor(q, id, node, results[|results| - 1].name, results[|results| - 1].result)
  }

  function PruneCustom(c: Custom, id: string): Custom {
    c.(gauge := Prune(c.gauge, id))
  }

  function PruneAll(p: Prom, id: string): Prom {
    p.(proc := Prune(p.proc, id),
       duration := Prune(p.duration, id),
       custom := map name | name in p.custom :: PruneCustom(p.custom[name], id))
  }

  // ---------------------------------------------------------------- index agreement for the whole collector

  /** The condition under which the index of a configured gauge is right (PruneExactIff). */
  predicate Reliable(latest: bool, names: LabelNames) {
    !latest && Last(names) == EXECUTION_ID
  }

  ghost predicate CustomOk(latest: bool, c: Custom) {
    Reliable(latest, c.names) ==> Agreement(c.gauge) && WellLabelled(c.names, c.gauge)
  }

  ghost predicate PromOk(p: Prom) {
    && Agreement(p.proc)
    && Agreement(p.duration)
    && forall name | name in p.custom :: CustomOk(p.latest, p.custom[name])
  }

  ghost predicate NoneEndsIn(g: Gauge, id: string) {
    forall row | row in g.series :: row != [] && Last(row) != id
  }

  ghost predicate NoneBelongs(c: Custom, id: string) {
    forall row | row in c.gauge.series :: !Belongs(c.names, row, id)
  }

  /** No series of the execution is left, in any gauge whose index is reliable. */
  ghost predicate Gone(p: Prom, id: string) {
    && NoneEndsIn(p.proc, id)
    && NoneEndsIn(p.duration, id)
    && forall name | name in p.custom && Reliable(p.latest, p.custom[name].names) :: NoneBelongs(p.custom[name], id)
  }

  lemma NewPromOk(latest: bool, gauges: map<string, LabelNames>)
    ensures PromOk(NewProm(latest, gauges))
    ensures forall id :: Gone(NewProm(latest, gauges), id)
  {
  }

  /** The pair's row of a processing or duration gauge is set, with latestMetric on the latest row too, no other. */
  lemma SetPairSets(g: Gauge, latest: bool, node: string, id: string, v: real, row: Row)
    ensures Lookup(SetPair(g, latest, node, id, v).series, row)
         == if row == [node, id] || (latest && row == [node, "latest"]) then Some(v) else Lookup(g.series, row)
  {
  }

  lemma SetPairKeepsAgreement(g: Gauge, latest: bool, node: string, id: string, v: real)
    requires Agreement(g)
    ensures Agreement(SetPair(g, latest, node, id, v))
    ensures forall other | NoneEndsIn(g, other) && other != id && (other != LATEST || !latest)
              :: NoneEndsIn(SetPair(g, latest, node, id, v), other)
  {
    RecordKeepsAgreement(g, [node, id], v);
    RecordKeepsAgreement(Record(g, [node, id], v), [node, LATEST], v);
  }

  lemma ReportKeepsCustom(c: Custom, latest: bool, id: string, node: string, result: Result)
    requires CustomOk(latest, c)
    ensures CustomOk(latest, ReportTo(c, latest, id, node, result))
    ensures forall other | Reliable(latest, c.names) && NoneBelongs(c, other) && other != id
              :: NoneBelongs(ReportTo(c, latest, id, node, result), other)
  {
    if Reliable(latest, c.names) {
      var row := RowOf(c.names, id, node, result.labels);
      RecordKeepsAgreement(c.gauge, row, result.value);
      RowOfBelongs(c.names, id, node, result.labels);
      assert ReportTo(c, latest, id, node, result).gauge == Record(c.gauge, row, result.value);
      forall other | Belongs(c.names, row, other)
        ensures other == id
      {
        assert c.names[|c.names| - 1] == EXECUTION_ID;
      }
    }
  }

  lemma MetricForKeeps(p: Prom, id: string, node: string, name: string, result: Result, other: string)
    requires PromOk(p)
    ensures PromOk(MetricFor(p, id, node, name, result))
    ensures Gone(p, other) && other != id ==> Gone(MetricFor(p, id, node, name, result), other)
  {
    if name in p.custom {
      ReportKeepsCustom(p.custom[name], p.latest, id, node, result);
    }
  }

  lemma {:induction false} MetricsForKeeps(p: Prom, id: string, node: string, results: seq<Reported>, other: string)
    requires PromOk(p)
    ensures PromOk(MetricsFor(p, id, node, results))
    ensures Gone(p, other) && other != id ==> Gone(MetricsFor(p, id, node, results), other)
  {
    if results != [] {
      var rest, r := results[..|results| - 1], results[|results| - 1];
      MetricsForKeeps(p, id, node, rest, other);
      MetricForKeeps(MetricsFor(p, id, node, rest), id, node, r.name, r.result, other);
    }
  }

  lemma {:induction false} MetricsForFrame(p: Prom, id: string, node: string, results: seq<Reported>)
    ensures var q := MetricsFor(p, id, node, results);
            q.latest == p.latest && q.pods == p.pods && q.proc == p.proc && q.duration == p.duration
            && q.custom.Keys == p.custom.Keys
            && forall name | name in p.custom :: q.custom[name].names == p.custom[name].names
  {
    if results != [] {
      MetricsForFrame(p, id, node, results[..|results| - 1]);
    }
  }

  lemma PruneCustomKeeps(c: Custom, latest: bool, id: string)
    requires CustomOk(latest, c)
    ensures CustomOk(latest, PruneCustom(c, id))
    ensures Reliable(latest, c.names) ==> NoneBelongs(PruneCustom(c, id), id)
  {
    if Reliable(latest, c.names) {
      PruneKeepsAgreement(c.gauge, id);
      AgreementMakesPruneExact(c.names, c.gauge, id);
    }
  }

  /** Pruning keeps the agreement, leaves nothing of the execution, and takes nothing from any other. */
  lemma PruneAllRemoves(p: Prom, id: string)
    requires PromOk(p)
    ensures PromOk(PruneAll(p, id)) && Gone(PruneAll(p, id), id)
    ensures forall other | Gone(p, other) :: Gone(PruneAll(p, id), other)
    ensures PruneAll(p, id).proc.series == Scan(p.proc, id)
    ensures PruneAll(p, id).duration.series == Scan(p.duration, id)
    ensures forall name | name in p.custom && Reliable(p.latest, p.custom[name].names)
              :: PruneExact(p.custom[name].names, p.custom[name].gauge, id)
  {
    PruneKeepsAgreement(p.proc, id);
    PruneKeepsAgreement(p.duration, id);
    forall name | name in p.custom
      ensures CustomOk(p.latest, PruneAll(p, id).custom[name])
      ensures Reliable(p.latest, p.custom[name].names) ==> NoneBelongs(PruneAll(p, id).custom[name], id)
      ensures Reliable(p.latest, p.custom[name].names)
              ==> PruneExact(p.custom[name].names, p.custom[name].gauge, id)
    {
      PruneCustomKeeps(p.custom[name], p.latest, id);
      if Reliable(p.latest, p.custom[name].names) {
        AgreementMakesPruneExact(p.custom[name].names, p.custom[name].gauge, id);
      }
    }
  }
}
