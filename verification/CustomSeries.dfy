/** The values of the configured gauges: what one reported result sets, and what a live series shows in every run. */
module CustomSeries {
  import opened Collections
  import opened MetricIndex
  import opened CollectorModel
  import opened Protocol
  import opened SystemInvariant
  import opened Coupling

  // ---------------------------------------------------------------- one result

  /** The row has the execution ID, the node and the sent values under their labels, and nothing for labels not sent. */
  ghost predicate IsRow(names: seq<string>, row: Row, id: string, node: string, sent: map<string, string>) {
    && |row| == |names|
    && forall i | 0 <= i < |names| ::
         row[i] == if names[i] == "executionID" then id
                   else if names[i] == "node" then node
                   else if names[i] in sent then sent[names[i]]
                   else ""
  }

  /** The row with latest in the place of its last value. */
  function LatestRow(row: Row): Row
    requires row != []
  {
    row[..|row| - 1] + ["latest"]
  }

  lemma RowOfReads(names: seq<string>, row: Row, id: string, node: string, sent: map<string, string>)
    ensures IsRow(names, row, id, node, sent) <==> row == RowOf(names, id, node, sent)
  {
  }

  /** The rows a result is recorded under. */
  ghost predicate Hits(names: LabelNames, latest: bool, row: Row, id: string, node: string, sent: map<string, string>) {
    IsRow(names, row, id, node, sent)
    || (latest && exists first :: IsRow(names, first, id, node, sent) && row == LatestRow(first))
  }

  lemma HitsAre(names: LabelNames, latest: bool, row: Row, id: string, node: string, sent: map<string, string>)
    ensures var first := RowOf(names, id, node, sent);
            Hits(names, latest, row, id, node, sent) <==> row == first || (latest && row == Relabel(first))
  {
    var first := RowOf(names, id, node, sent);
    RowOfReads(names, first, id, node, sent);
    RowOfReads(names, row, id, node, sent);
    assert LatestRow(first) == Relabel(first);
    forall other | IsRow(names, other, id, node, sent)
      ensures other == first
    {
      RowOfReads(names, other, id, node, sent);
    }
  }

  /**
   * A result for a configured gauge sets its value on the row of its labels and, with latestMetric on, on the row that
   * ends in latest, and changes no other series of any gauge; a result for any other name changes nothing.
   */
  lemma MetricForSets(p: Prom, id: string, node: string, name: string, result: Result)
    ensures var q := CollectorModel.MetricFor(p, id, node, name, result);
            && q.custom.Keys == p.custom.Keys
            && q.(custom := p.custom) == p
            && (forall other | other in p.custom && other != name :: q.custom[other] == p.custom[other])
            && (name !in p.custom ==> q == p)
            && (name in p.custom ==>
                  && q.custom[name].names == p.custom[name].names
                  && forall row ::
                       Lookup(q.custom[name].gauge.series, row)
                       == if Hits(p.custom[name].names, p.latest, row, id, node, result.labels) then Some(result.value)
                          else Lookup(p.custom[name].gauge.series, row))
  {
    if name in p.custom {
      forall row
        ensures Lookup(CollectorModel.MetricFor(p, id, node, name, result).custom[name].gauge.series, row)
             == if Hits(p.custom[name].names, p.latest, row, id, node, result.labels) then Some(result.value)
                else Lookup(p.custom[name].gauge.series, row)
      {
        HitsAre(p.custom[name].names, p.latest, row, id, node, result.labels);
      }
    }
  }

  // ---------------------------------------------------------------- every run

  /** The value of the last result of a report that is recorded under the row, if any, else the one before. */
  ghost function LastInReport(names: LabelNames, latest: bool, id: string, node: string, results: seq<Reported>,
                              name: string, row: Row, before: Option<real>): Option<real>
  {
    if results == [] then before
    else
      var last := results[|results| - 1];
      if last.name == name && Hits(names, latest, row, id, node, last.result.labels) then Some(last.result.value)
      else LastInReport(names, latest, id, node, results[..|results| - 1], name, row, before)
  }

  /** The value of the last result of a run that is recorded under the row of a gauge. */
  ghost function LastReported(cfg: Config, evs: seq<Event>, name: string, row: Row): Option<real>
    requires name in cfg.gauges
  {
    if evs == [] then None
    else
      var before := LastReported(cfg, evs[..|evs| - 1], name, row);
      match evs[|evs| - 1]
      case PostResult(id, node, _, _, results) =>
        LastInReport(cfg.gauges[name], cfg.latest, id, node, results, name, row, before)
      case _ => before
  }


  lemma {:induction false} ReportShows(p: Prom, id: string, node: string, results: seq<Reported>, name: string,
                                       row: Row, before: Option<real>)
    requires name in p.custom
    requires row in p.custom[name].gauge.series ==> before == Some(p.custom[name].gauge.series[row])
    ensures var q := MetricsFor(p, id, node, results);
            && name in q.custom && q.custom[name].names == p.custom[name].names && q.latest == p.latest
            && (row in q.custom[name].gauge.series ==>
                  LastInReport(p.custom[name].names, p.latest, id, node, results, name, row, before)
                  == Some(q.custom[name].gauge.series[row]))
  {
    if results != [] {
      var rest, last := results[..|results| - 1], results[|results| - 1];
      ReportShows(p, id, node, rest, name, row, before);
      MetricForSets(MetricsFor(p, id, node, rest), id, node, last.name, last.result);
    }
  }

  /** A step that posts no report sets no series. */
  lemma OtherSetsNothing(cfg: Config, s: State, e: Event, name: string, row: Row)
    requires Enabled(cfg, s, e) && !e.PostResult? && name in s.ctl.prom.custom
    ensures var c := Apply(cfg, s, e).ctl.prom.custom;
            && name in c
            && (row in c[name].gauge.series ==>
                  row in s.ctl.prom.custom[name].gauge.series
                  && c[name].gauge.series[row] == s.ctl.prom.custom[name].gauge.series[row])
  {
  }

  lemma ReportStepShows(cfg: Config, s: State, e: Event, name: string, row: Row, before: Option<real>)
    requires Enabled(cfg, s, e) && e.PostResult? && name in s.ctl.prom.custom
    requires row in s.ctl.prom.custom[name].gauge.series ==> before == Some(s.ctl.prom.custom[name].gauge.series[row])
    ensures var c, p := Apply(cfg, s, e).ctl.prom.custom, s.ctl.prom;
            && name in c
            && (row in c[name].gauge.series ==>
                  LastInReport(p.custom[name].names, p.latest, e.id, e.node, e.results, name, row, before)
                  == Some(c[name].gauge.series[row]))
  {
    ReportShows(s.ctl.prom, e.id, e.node, e.results, name, row, before);
  }

  /** In every run, a live series of a configured gauge shows the value of the last result recorded under its row. */
  lemma {:induction false} LiveSeriesShowLastReport(cfg: Config, evs: seq<Event>, name: string, row: Row)
    requires Run(cfg, evs).Some? && name in cfg.gauges
    ensures name in Run(cfg, evs).value.ctl.prom.custom
    ensures var g := Run(cfg, evs).value.ctl.prom.custom[name].gauge;
            row in g.series ==> LastReported(cfg, evs, name, row) == Some(g.series[row])
  {
    if evs != [] {
      var before, e := evs[..|evs| - 1], evs[|evs| - 1];
      var s := Run(cfg, before).value;
      LiveSeriesShowLastReport(cfg, before, name, row);
      StaysConfigured(cfg, before);
      if e.PostResult? {
        ReportStepShows(cfg, s, e, name, row, LastReported(cfg, before, name, row));
      } else {
        OtherSetsNothing(cfg, s, e, name, row);
      }
    }
  }

  /** Right after a report every row of its results is live, with the value of the last result recorded under it. */
  lemma {:induction false} ReportIsShown(p: Prom, id: string, node: string, results: seq<Reported>, i: nat)
    requires i < |results| && results[i].name in p.custom
    ensures var name, q := results[i].name, MetricsFor(p, id, node, results);
            && name in q.custom && q.custom[name].names == p.custom[name].names && q.latest == p.latest
            && RowOf(p.custom[name].names, id, node, results[i].result.labels) in q.custom[name].gauge.series
  {
    var rest, last := results[..|results| - 1], results[|results| - 1];
    var name := results[i].name;
    var row := RowOf(p.custom[name].names, id, node, results[i].result.labels);
    MetricsForFrame(p, id, node, rest);
    MetricForSets(MetricsFor(p, id, node, rest), id, node, last.name, last.result);
    RowOfReads(p.custom[name].names, row, id, node, results[i].result.labels);
    if i < |rest| {
      assert rest[i] == results[i];
      ReportIsShown(p, id, node, rest, i);
    }
    assert Lookup(MetricsFor(p, id, node, results).custom[name].gauge.series, row).Some?;
  }

  /** In every run, a report for whatever node and execution makes the row of each of its results live. */
  lemma PostedResultIsLive(cfg: Config, evs: seq<Event>, e: Event, i: nat)
    requires e.PostResult? && Run(cfg, evs + [e]).Some? && i < |e.results| && e.results[i].name in cfg.gauges
    ensures var name, custom := e.results[i].name, Run(cfg, evs + [e]).value.ctl.prom.custom;
            && name in custom
            && exists row ::
                 && row in custom[name].gauge.series
                 && IsRow(cfg.gauges[name], row, e.id, e.node, e.results[i].result.labels)
  {
    var before, s := LastStep(cfg, evs, [e]);
    assert before == evs + [] == evs;
    StaysConfigured(cfg, evs);
    ReportIsShown(s.ctl.prom, e.id, e.node, e.results, i);
    var name := e.results[i].name;
    var row := RowOf(cfg.gauges[name], e.id, e.node, e.results[i].result.labels);
    RowOfReads(cfg.gauges[name], row, e.id, e.node, e.results[i].result.labels);
    assert row in Run(cfg, evs + [e]).value.ctl.prom.custom[name].gauge.series;
  }

  lemma {:induction false} ReportsKeepLive(p: Prom, id: string, node: string, results: seq<Reported>, name: string,
                                           row: Row)
    requires name in p.custom && row in p.custom[name].gauge.series
    ensures var q := MetricsFor(p, id, node, results); name in q.custom && row in q.custom[name].gauge.series
  {
    if results != [] {
      var rest, last := results[..|results| - 1], results[|results| - 1];
      ReportsKeepLive(p, id, node, rest, name, row);
      MetricForSets(MetricsFor(p, id, node, rest), id, node, last.name, last.result);
      assert Lookup(MetricsFor(p, id, node, results).custom[name].gauge.series, row).Some?;
    }
  }

  /** Only pruning takes a series away. */
  lemma StaysLive(cfg: Config, s: State, e: Event, name: string, row: Row)
    requires Enabled(cfg, s, e) && !e.PruneNext?
    requires name in s.ctl.prom.custom && row in s.ctl.prom.custom[name].gauge.series
    ensures var custom := Apply(cfg, s, e).ctl.prom.custom; name in custom && row in custom[name].gauge.series
  {
    if e.PostResult? {
      ReportsKeepLive(s.ctl.prom, e.id, e.node, e.results, name, row);
    }
  }
}
