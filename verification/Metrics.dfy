/**
 * The metrics collector on the heap. Label rows are arrays shared by reference, as slices are in the source: a row
 * that is filed in an index and overwritten afterwards changes inside the index as well.
 */
module Metrics {
  import Collections
  import opened MetricIndex
  import opened CollectorModel

  class ExecutionIDMetric {
    var gauge: map<Row, real>
    var labels: map<string, seq<array<string>>>
    /** The gauge and the index as values. */
    ghost var model: Gauge

    ghost function Rows(): set<array<string>>
      reads this
    {
      set id, i | id in labels && 0 <= i < |labels[id]| :: labels[id][i]
    }

    ghost predicate ReadsAs(id: string, rows: seq<Row>)
      reads this, Rows()
    {
      id in labels && |labels[id]| == |rows| && forall i | 0 <= i < |rows| :: labels[id][i][..] == rows[i]
    }

    ghost predicate Valid()
      reads this, Rows()
    {
      && gauge == model.series
      && labels.Keys == model.index.Keys
      && forall id | id in model.index :: ReadsAs(id, model.index[id])
    }

    ghost predicate Blank()
      reads this
    {
      gauge == map[] && labels == map[] && model == EMPTY
    }

    constructor ()
      ensures Valid() && Blank()
    {
      gauge, labels, model := map[], map[], EMPTY;
    }

    function Shared(id: string): seq<array<string>>
      reads this
    {
      if id in labels then labels[id] else []
    }

    method CacheLabels(exID: string, row: array<string>)
      requires Valid()
      modifies this
      ensures Valid() && model == Cache(old(model), exID, row[..])
      ensures labels == old(labels)[exID := old(Shared(exID)) + [row]] && gauge == old(gauge)
    {
      assert forall id | id in model.index :: ReadsAs(id, model.index[id]);
      labels := labels[exID := Shared(exID) + [row]];
      model := Cache(model, exID, row[..]);
      forall id | id in model.index
        ensures ReadsAs(id, model.index[id])
      {
        if id in old(model).index {
          assert old(ReadsAs(id, model.index[id]));
        }
      }
    }

    /** withLabelValues(row...) followed by Set(v). */
    method WithLabelValues(row: array<string>, v: real)
      requires Valid() && row.Length > 0
      modifies this
      ensures Valid() && model == Record(old(model), row[..], v)
      ensures labels == old(labels)[row[row.Length - 1] := old(Shared(row[row.Length - 1])) + [row]]
    {
      var exID := row[row.Length - 1];
      CacheLabels(exID, row);
      gauge := gauge[row[..] := v];
      model := model.(series := gauge);
      assert forall id | id in model.index :: ReadsAs(id, model.index[id]);
    }

    /**
     * The assignment values[len(values)-1] = text to a row that was filed once, as the last one of its ID:
     * the index reads the new row there and the old rows everywhere else.
     */
    method Overwrite(row: array<string>, text: string)
      requires Valid() && row.Length > 0
      requires var id := row[row.Length - 1];
               && id in labels && labels[id] != [] && labels[id][|labels[id]| - 1] == row
               && forall i, j | i in labels && 0 <= j < |labels[i]| && labels[i][j] == row
                    :: i == id && j == |labels[i]| - 1
      modifies row, this`model
      ensures Valid() && labels == old(labels)
      ensures row[..] == old(row[..])[row.Length - 1 := text]
      ensures var id := old(row[row.Length - 1]);
              var rows := old(model).index[id];
              model == old(model).(index := old(model).index[id := rows[|rows| - 1 := row[..]]])
    {
      var id := row[row.Length - 1];
      assert ReadsAs(id, model.index[id]);
      var rows := model.index[id];
      row[row.Length - 1] := text;
      model := model.(index := model.index[id := rows[|rows| - 1 := row[..]]]);
      forall i | i in model.index
        ensures ReadsAs(i, model.index[i])
      {
        assert old(ReadsAs(i, model.index[i]));
      }
    }

    method PruneID(id: string)
      requires Valid()
      modifies this`gauge, this`model
      ensures Valid() && model == Prune(old(model), id)
    {
      if id in labels {
        var labelSets := labels[id];
        assert ReadsAs(id, model.index[id]);
        ghost var filed := model.index[id];
        var i := 0;
        while i < |labelSets|
          invariant 0 <= i <= |labelSets| && labels == old(labels)
          invariant gauge == model.series - Collections.Elements(filed[..i])
          invariant model == old(model)
        {
          Collections.ElementsSnoc(filed[..i], filed[i]);
          assert filed[..i + 1] == filed[..i] + [filed[i]];
          gauge := gauge - {labelSets[i][..]};
          i := i + 1;
        }
        assert filed[..i] == filed;
      }
      model := Prune(model, id);
      forall i | i in model.index
        ensures ReadsAs(i, model.index[i])
      {
        assert old(ReadsAs(i, model.index[i]));
      }
    }
  }

  datatype CustomMetric = CustomMetric(gauge: ExecutionIDMetric, labels: LabelNames)

  /** enrichLabels: the configured labels, then node and executionID where they are missing. */
  method EnrichLabels(labels: seq<string>) returns (out: seq<string>)
    ensures out == Enriched(labels)
    ensures labels <= out && NODE in out && EXECUTION_ID in out
  {
    out := labels;
    var m: set<string> := {};
    for i := 0 to |labels|
      invariant m == set l | l in labels[..i]
    {
      m := m + {labels[i]};
      assert labels[..i + 1] == labels[..i] + [labels[i]];
    }
    assert labels[..|labels|] == labels;
    if NODE !in m {
      out := out + [NODE];
    }
    if EXECUTION_ID !in m {
      out := out + [EXECUTION_ID];
    }
    EnrichedProperties(labels);
  }

  /** The gauges of a configuration with their enriched label names. */
  function EnrichedGauges(configured: map<string, seq<string>>): map<string, LabelNames> {
    map name | name in configured :: EnrichedNames(configured[name])
  }

  function EnrichedNames(labels: seq<string>): LabelNames {
    EnrichedProperties(labels);
    Enriched(labels)
  }

  /** The loop of NewPromCollector over the configured metrics. */
  method NewGauges(configured: map<string, seq<string>>) returns (gs: map<string, CustomMetric>)
    ensures gs.Keys == configured.Keys
    ensures forall name | name in gs :: fresh(gs[name].gauge) && gs[name].gauge.Blank()
    ensures forall name | name in gs :: gs[name].labels == Enriched(configured[name])
    ensures forall a, b | a in gs && b in gs && a != b :: gs[a].gauge != gs[b].gauge
  {
    gs := map[];
    var todo := configured.Keys;
    while todo != {}
      invariant todo <= configured.Keys && gs.Keys == configured.Keys - todo
      invariant forall name | name in gs :: fresh(gs[name].gauge) && gs[name].gauge.Blank()
      invariant forall name | name in gs :: gs[name].labels == Enriched(configured[name])
      invariant forall a, b | a in gs && b in gs && a != b :: gs[a].gauge != gs[b].gauge
      decreases todo
    {
      var name :| name in todo;
      var out := EnrichLabels(configured[name]);
      var g := new ExecutionIDMetric();
      gs := gs[name := CustomMetric(g, out)];
      todo := todo - {name};
    }
  }

  class Collector {
    const latestMetric: bool
    const gauges: map<string, CustomMetric>
    const procErrorGauge: ExecutionIDMetric
    const durationGauge: ExecutionIDMetric
    var podsGauge: real

    ghost function Metrics(): set<ExecutionIDMetric> {
      {procErrorGauge, durationGauge} + set name | name in gauges :: gauges[name].gauge
    }

    ghost function Rows(): set<array<string>>
      reads Metrics()
    {
      set m, row | m in Metrics() && row in m.Rows() :: row
    }

    /** Every gauge is its own object. */
    ghost predicate Separate() {
      && procErrorGauge != durationGauge
      && (forall name | name in gauges :: gauges[name].gauge != procErrorGauge && gauges[name].gauge != durationGauge)
      && (forall a, b | a in gauges && b in gauges && a != b :: gauges[a].gauge != gauges[b].gauge)
    }

    ghost predicate Valid()
      reads Metrics(), Rows()
    {
      Separate() && forall m | m in Metrics() :: m.Valid()
    }

    ghost function Model(): Prom
      reads this, Metrics()
    {
      Prom(latestMetric, podsGauge, procErrorGauge.model, durationGauge.model,
           map name | name in gauges :: Custom(gauges[name].labels, gauges[name].gauge.model))
    }

    /** NewPromCollector once the names are checked: two fixed gauges and one per configured metric. */
    constructor (latest: bool, configured: map<string, seq<string>>)
      ensures Valid() && fresh(Writable())
      ensures Model() == NewProm(latest, EnrichedGauges(configured))
    {
      var gs := NewGauges(configured);
      var proc := new ExecutionIDMetric();
      var duration := new ExecutionIDMetric();
      latestMetric, podsGauge, gauges := latest, 0.0, gs;
      procErrorGauge, durationGauge := proc, duration;
      new;
      BlankIsValid();
      BlankModel(configured);
    }

    lemma BlankIsValid()
      requires Separate() && forall m | m in Metrics() :: m.Blank()
      ensures Valid()
    {
    }

    lemma BlankModel(configured: map<string, seq<string>>)
      requires forall m | m in Metrics() :: m.Blank()
      requires gauges.Keys == configured.Keys && podsGauge == 0.0
      requires forall name | name in gauges :: gauges[name].labels == Enriched(configured[name])
      ensures Model() == NewProm(latestMetric, EnrichedGauges(configured))
    {
      var names := EnrichedGauges(configured);
      forall name | name in gauges
        ensures Custom(gauges[name].labels, gauges[name].gauge.model) == Custom(names[name], EMPTY)
      {
        assert gauges[name].gauge in Metrics();
      }
      assert procErrorGauge in Metrics() && durationGauge in Metrics();
    }

    /** The writable part: the gauges themselves; filed rows are only read. */
    ghost function Writable(): set<object> {
      (set m | m in Metrics() :: m as object) + {this}
    }

    method SetPairGauge(m: ExecutionIDMetric, node: string, id: string, v: real)
      requires m.Valid()
      modifies m
      ensures m.Valid() && m.model == SetPair(old(m.model), latestMetric, node, id, v)
    {
      var row := new string[] [node, id];
      assert row[..] == [node, id];
      m.WithLabelValues(row, v);
      if latestMetric {
        var latestRow := new string[] [node, LATEST];
        assert latestRow[..] == [node, LATEST];
        m.WithLabelValues(latestRow, v);
      }
    }

    method ProcessingFinished(node: string, executionID: string, err: bool)
      requires Valid()
      modifies procErrorGauge
      ensures Valid() && Model() == CollectorModel.ProcessingFinished(old(Model()), node, executionID, err)
    {
      SetPairGauge(procErrorGauge, node, executionID, if err then 1.0 else 0.0);
      Framed(procErrorGauge);
    }

    method Duration(node: string, executionID: string, d: real)
      requires Valid()
      modifies durationGauge
      ensures Valid() && Model() == CollectorModel.Duration(old(Model()), node, executionID, d)
    {
      SetPairGauge(durationGauge, node, executionID, d);
      Framed(durationGauge);
    }

    /** The loop of ReportReceived over the posted results, followed by its error flag. */
    method Report(executionID: string, node: string, failed: bool, results: seq<Reported>)
      requires Valid()
      modifies Metrics()
      ensures Valid()
      ensures Model() == CollectorModel.ProcessingFinished(
                           MetricsFor(old(Model()), executionID, node, results), node, executionID, failed)
    {
      for i := 0 to |results|
        invariant Valid() && Model() == MetricsFor(old(Model()), executionID, node, results[..i])
      {
        MetricsForSnoc(old(Model()), executionID, node, results[..i], results[i]);
        assert results[..i + 1] == results[..i] + [results[i]];
        MetricFor(executionID, node, results[i].name, results[i].result);
      }
      assert results[..|results|] == results;
      ProcessingFinished(node, executionID, failed);
    }

    /** The two calls of PodTerminated, the second only for a pod that went wrong. */
    method PodEnded(node: string, executionID: string, bad: bool, d: real)
      requires Valid()
      modifies procErrorGauge, durationGauge
      ensures Valid()
      ensures var q := CollectorModel.Duration(old(Model()), node, executionID, d);
              Model() == if bad then CollectorModel.ProcessingFinished(q, node, executionID, true) else q
    {
      Duration(node, executionID, d);
      if bad {
        ProcessingFinished(node, executionID, true);
      }
    }

    method Pods(cnt: real)
      requires Valid()
      modifies this`podsGauge
      ensures Valid() && Model() == old(Model()).(pods := cnt)
    {
      podsGauge := cnt;
    }

    /** Prune, in whatever order the map of gauges is visited. */
    method PruneAll(executionID: string)
      requires Valid()
      modifies Metrics()
      ensures Valid() && Model() == CollectorModel.PruneAll(old(Model()), executionID)
    {
      PrunePairs(executionID);
      PruneCustoms(executionID);
    }

    method PrunePairs(executionID: string)
      requires Valid()
      modifies procErrorGauge, durationGauge
      ensures Valid()
      ensures procErrorGauge.model == Prune(old(procErrorGauge.model), executionID)
      ensures durationGauge.model == Prune(old(durationGauge.model), executionID)
    {
      procErrorGauge.PruneID(executionID);
      Framed(procErrorGauge);
      PruneDuration(executionID);
    }

    method PruneDuration(executionID: string)
      requires Valid()
      modifies durationGauge
      ensures Valid() && durationGauge.model == Prune(old(durationGauge.model), executionID)
    {
      durationGauge.PruneID(executionID);
      Framed(durationGauge);
    }

    method PruneCustom(name: string, executionID: string)
      requires Valid() && name in gauges
      modifies gauges[name].gauge
      ensures Valid() && gauges[name].gauge.model == Prune(old(gauges[name].gauge.model), executionID)
    {
      assert gauges[name].gauge in Metrics();
      gauges[name].gauge.PruneID(executionID);
      Framed(gauges[name].gauge);
    }

    method PruneCustoms(executionID: string)
      requires Valid()
      modifies set name | name in gauges :: gauges[name].gauge
      ensures Valid()
      ensures forall name | name in gauges ::
                gauges[name].gauge.model == Prune(old(gauges[name].gauge.model), executionID)
    {
      var todo := gauges.Keys;
      while todo != {}
        invariant todo <= gauges.Keys && Valid()
        invariant forall name | name in todo :: gauges[name].gauge.model == old(gauges[name].gauge.model)
        invariant forall name | name in gauges && name !in todo ::
                    gauges[name].gauge.model == Prune(old(gauges[name].gauge.model), executionID)
        decreases todo
      {
        var name :| name in todo;
        PruneCustom(name, executionID);
        todo := todo - {name};
      }
    }

    /** Changing one gauge leaves the others valid, because rows already filed elsewhere are not written. */
    twostate lemma Framed(m: ExecutionIDMetric)
      requires old(Valid()) && m in Metrics() && m.Valid()
      requires forall o | o in Metrics() && o != m :: unchanged(o) && unchanged(set r | r in old(o.Rows()) :: r)
      ensures Valid()
    {
    }

    /** The values of one row, in the order of the gauge's labels. */
    method RowFor(names: LabelNames, executionID: string, node: string, sent: map<string, string>)
      returns (values: array<string>)
      ensures fresh(values) && values[..] == RowOf(names, executionID, node, sent)
    {
      var labels := sent[NODE := node][EXECUTION_ID := executionID];
      values := new string[|names|];
      for i := 0 to |names|
        invariant forall j | 0 <= j < i :: values[j] == LabelValue(names[j], executionID, node, sent)
      {
        values[i] := if names[i] in labels then labels[names[i]] else "";
      }
    }

    /**
     * MetricFor. With latestMetric on, the row that the first call filed is overwritten and filed again, so what the
     * index reads under the execution ID changes with it.
     */
    method MetricFor(executionID: string, node: string, name: string, result: Result)
      requires Valid()
      modifies if name in gauges then {gauges[name].gauge} else {}
      ensures Valid() && Model() == CollectorModel.MetricFor(old(Model()), executionID, node, name, result)
    {
      if name in gauges {
        var m := gauges[name].gauge;
        assert m in Metrics();
        var values := RowFor(gauges[name].labels, executionID, node, result.labels);
        assert m.Valid();
        ReportRow(m, values, result.value);
        Framed(m);
        ModelFramed(name);
      }
    }

    /** Only the changed gauge differs in the model. */
    twostate lemma ModelFramed(name: string)
      requires Separate() && name in gauges && podsGauge == old(podsGauge)
      requires forall o | o in Metrics() && o != gauges[name].gauge :: unchanged(o)
      ensures var p := old(Model());
              Model() == p.(custom := p.custom[name := Custom(gauges[name].labels, gauges[name].gauge.model)])
    {
      var p := old(Model());
      var custom := p.custom[name := Custom(gauges[name].labels, gauges[name].gauge.model)];
      forall n | n in gauges
        ensures Model().custom[n] == custom[n]
      {
        assert gauges[n].gauge in Metrics();
      }
      assert procErrorGauge in Metrics() && durationGauge in Metrics();
    }

    method ReportRow(m: ExecutionIDMetric, values: array<string>, v: real)
      requires m.Valid() && values.Length > 0 && values !in m.Rows()
      modifies m, values
      ensures m.Valid() && m.model == ReportAsWritten(old(m.model), old(values[..]), v, latestMetric)
    {
      m.WithLabelValues(values, v);
      if latestMetric {
        OverwrittenRecord(old(m.model), values[..], v);
        m.Overwrite(values, LATEST);
        m.WithLabelValues(values, v);
      }
    }
  }

  lemma MetricsForSnoc(p: Prom, id: string, node: string, results: seq<Reported>, r: Reported)
    ensures MetricsFor(p, id, node, results + [r])
         == CollectorModel.MetricFor(MetricsFor(p, id, node, results), id, node, r.name, r.result)
  {
    assert (results + [r])[..|results|] == results;
  }

  /** Filing a row and overwriting it files the overwritten row; the series of the first row stays. */
  lemma OverwrittenRecord(g: Gauge, row: Row, v: real)
    requires row != []
    ensures var h := Record(g, row, v);
            var rows := h.index[Last(row)];
            && rows != []
            && h.(index := h.index[Last(row) := rows[|rows| - 1 := Relabel(row)]])
               == Cache(g, Last(row), Relabel(row)).(series := g.series[row := v])
  {
    var filed := Filed(g, Last(row));
    assert (filed + [row])[|filed| := Relabel(row)] == filed + [Relabel(row)];
  }
}
