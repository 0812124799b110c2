/** The metrics in every run of the system, and what pruning an execution means for all three stores at once. */
module Coupling {
  import opened Collections
  import opened MetricIndex
  import opened CollectorModel
  import opened Protocol
  import opened SystemInvariant

  // ---------------------------------------------------------------- the index agrees in every reachable state

  lemma TerminateKeepsProm(p: Prom, node: string, id: string, d: real, bad: bool, other: string)
    requires PromOk(p)
    ensures var q := Duration(p, node, id, d);
            var r := if bad then ProcessingFinished(q, node, id, true) else q;
            && PromOk(r)
            && (Gone(p, other) && other != id && other != LATEST ==> Gone(r, other))
  {
    SetPairKeepsAgreement(p.duration, p.latest, node, id, d);
    SetPairKeepsAgreement(p.proc, p.latest, node, id, 1.0);
  }

  lemma ResultKeepsProm(p: Prom, node: string, id: string, failed: bool, results: seq<Reported>, other: string)
    requires PromOk(p)
    ensures var r := ProcessingFinished(MetricsFor(p, id, node, results), node, id, failed);
            && PromOk(r)
            && (Gone(p, other) && other != id && other != LATEST ==> Gone(r, other))
  {
    MetricsForKeeps(p, id, node, results, other);
    var q := MetricsFor(p, id, node, results);
    SetPairKeepsAgreement(q.proc, q.latest, node, id, if failed then 1.0 else 0.0);
  }

  lemma StepKeepsProm(cfg: Config, s: State, e: Event)
    requires Enabled(cfg, s, e) && PromOk(s.ctl.prom)
    ensures PromOk(Apply(cfg, s, e).ctl.prom)
  {
    match e
    case Terminate(id, node, succeeded, _, d) =>
      TerminateKeepsProm(s.ctl.prom, node, id, d, true, "");
      TerminateKeepsProm(s.ctl.prom, node, id, d, false, "");
    case PostResult(id, node, failed, _, results) => ResultKeepsProm(s.ctl.prom, node, id, failed, results, "");
    case PruneNext(name, _) => PruneAllRemoves(s.ctl.prom, name);
    case _ =>
  }

  /**
   * Index refines scan: in every reachable state the index of the processing and duration gauges, and of every
   * reliable custom gauge, agrees with the live series, so that pruning any ID equals a full scan.
   */
  lemma {:induction false} IndexAgrees(cfg: Config, evs: seq<Event>)
    requires Run(cfg, evs).Some?
    ensures var p := Run(cfg, evs).value.ctl.prom;
            && PromOk(p)
            && forall id :: Prune(p.proc, id).series == Scan(p.proc, id)
                            && Prune(p.duration, id).series == Scan(p.duration, id)
  {
    if evs == [] {
      NewPromOk(cfg.latest, cfg.gauges);
    } else {
      var before := evs[..|evs| - 1];
      IndexAgrees(cfg, before);
      StepKeepsProm(cfg, Run(cfg, before).value, evs[|evs| - 1]);
    }
    var p := Run(cfg, evs).value.ctl.prom;
    forall id
      ensures Prune(p.proc, id).series == Scan(p.proc, id) && Prune(p.duration, id).series == Scan(p.duration, id)
    {
      PruneKeepsAgreement(p.proc, id);
      PruneKeepsAgreement(p.duration, id);
    }
  }

  /** The gauges and their label names are those of the configuration. */
  ghost predicate Configured(cfg: Config, p: Prom) {
    && p.latest == cfg.latest
    && p.custom.Keys == cfg.gauges.Keys
    && forall name | name in p.custom :: p.custom[name].names == cfg.gauges[name]
  }

  lemma ReportStaysConfigured(cfg: Config, p: Prom, id: string, node: string, failed: bool, results: seq<Reported>)
    requires Configured(cfg, p)
    ensures Configured(cfg, ProcessingFinished(MetricsFor(p, id, node, results), node, id, failed))
  {
    MetricsForFrame(p, id, node, results);
  }

  lemma StepStaysConfigured(cfg: Config, s: State, e: Event)
    requires Enabled(cfg, s, e) && Configured(cfg, s.ctl.prom)
    ensures Configured(cfg, Apply(cfg, s, e).ctl.prom)
  {
    if e.PostResult? {
      ReportStaysConfigured(cfg, s.ctl.prom, e.id, e.node, e.failed, e.results);
    }
  }

  lemma {:induction false} StaysConfigured(cfg: Config, evs: seq<Event>)
    requires Run(cfg, evs).Some?
    ensures Configured(cfg, Run(cfg, evs).value.ctl.prom)
  {
    if evs != [] {
      var before := evs[..|evs| - 1];
      StaysConfigured(cfg, before);
      StepStaysConfigured(cfg, Run(cfg, before).value, evs[|evs| - 1]);
    }
  }

  // ---------------------------------------------------------------- a pruned execution stays gone

  /** Nothing is left of the execution: no map entry, no series, and no directory if it could be removed. */
  ghost predicate Erased(c: Controller, id: string, removed: bool) {
    && id !in c.current
    && Gone(c.prom, id)
    && (removed ==> id !in c.dirs)
  }

  lemma StepKeepsErased(cfg: Config, s: State, e: Event, id: string, removed: bool)
    requires Enabled(cfg, s, e) && PromOk(s.ctl.prom) && Erased(s.ctl, id, removed)
    requires !cfg.devMode && id != LATEST && !(e.Begin? && e.id == id)
    ensures Erased(Apply(cfg, s, e).ctl, id, removed)
  {
    match e
    case Terminate(i, node, succeeded, _, d) =>
      if ForID(s.ctl, i).Some? {
        TerminateKeepsProm(s.ctl.prom, node, i, d, true, id);
        TerminateKeepsProm(s.ctl.prom, node, i, d, false, id);
      }
    case PostResult(i, node, failed, _, results) => ResultKeepsProm(s.ctl.prom, node, i, failed, results, id);
    case PruneNext(name, _) => PruneAllRemoves(s.ctl.prom, name);
    case _ =>
  }

  /**
   * Outside DevMode: after AllAdded pruned an ID, and until NewExecution issues it again, no series of it
   * exists in a gauge with a reliable index, the gate rejects every node, PodTerminated changes nothing, and a
   * removed directory is not created again.
   */
  lemma {:induction false} PrunedStaysGone(cfg: Config, evs: seq<Event>, id: string, removed: bool, more: seq<Event>)
    requires !cfg.devMode && id != LATEST
    requires Run(cfg, evs + [PruneNext(id, removed)] + more).Some?
    requires forall e | e in more :: !(e.Begin? && e.id == id)
    ensures var c := Run(cfg, evs + [PruneNext(id, removed)] + more).value.ctl;
            && Erased(c, id, removed)
            && (forall node :: !Has(c, node, id))
            && (forall node, succeeded, t, d :: PodTerminated(c, id, node, succeeded, t, d) == c)
  {
    var from := evs + [PruneNext(id, removed)];
    if more == [] {
      assert from + more == from;
      var before, s := LastStep(cfg, evs, [PruneNext(id, removed)]);
      assert before == evs;
      IndexAgrees(cfg, evs);
      PruneAllRemoves(s.ctl.prom, id);
    } else {
      var before, s := LastStep(cfg, from, more);
      PrunedStaysGone(cfg, evs, id, removed, more[..|more| - 1]);
      IndexAgrees(cfg, before);
      StepKeepsErased(cfg, s, more[|more| - 1], id, removed);
    }
  }

  /** In DevMode one late callback always brings a pruned execution back. */
  lemma DevModeBringsBack(cfg: Config, evs: seq<Event>, id: string, removed: bool, node: string)
    requires cfg.devMode && Run(cfg, evs + [PruneNext(id, removed)]).Some?
    ensures var all := evs + [PruneNext(id, removed)] + [PostResult(id, node, false, 0, [])];
            && Run(cfg, all).Some?
            && [node, id] in Run(cfg, all).value.ctl.prom.proc.series
            && id in Run(cfg, all).value.ctl.dirs
  {
    var from := evs + [PruneNext(id, removed)];
    var e := PostResult(id, node, false, 0, []);
    var before, s0 := LastStep(cfg, evs, [PruneNext(id, removed)]);
    assert (from + [e])[..|from|] == from;
    var s := Run(cfg, from).value;
    assert Enabled(cfg, s, e);
    assert MetricsFor(s.ctl.prom, id, node, []) == s.ctl.prom;
    assert Run(cfg, from + [e]) == Some(Apply(cfg, s, e));
  }
}
