/** What pruning leaves of an execution in the configured gauges, over all runs of the system. */
module PrunedGauges {
  import opened Collections
  import opened MetricIndex
  import opened CollectorModel
  import opened Protocol
  import opened SystemInvariant
  import opened EngineTheorems
  import opened Completion
  import opened Coupling

  /** No configured gauge has a series of the execution. */
  ghost predicate NoneLeft(p: Prom, id: string) {
    forall name | name in p.custom :: NoneBelongs(p.custom[name], id)
  }

  /** In every run, right after an execution is pruned no configured gauge has a series of it. */
  ghost predicate PrunesClean(cfg: Config) {
    forall evs, id, removed | Run(cfg, evs + [PruneNext(id, removed)]).Some? ::
      NoneLeft(Run(cfg, evs + [PruneNext(id, removed)]).value.ctl.prom, id)
  }

  ghost predicate AllReliable(cfg: Config) {
    forall name | name in cfg.gauges :: Reliable(cfg.latest, cfg.gauges[name])
  }

  lemma ReliablePrunesClean(cfg: Config, evs: seq<Event>, id: string, removed: bool)
    requires AllReliable(cfg) && Run(cfg, evs + [PruneNext(id, removed)]).Some?
    ensures NoneLeft(Run(cfg, evs + [PruneNext(id, removed)]).value.ctl.prom, id)
  {
    var before, s := LastStep(cfg, evs, [PruneNext(id, removed)]);
    IndexAgrees(cfg, before);
    StaysConfigured(cfg, before);
    PruneAllRemoves(s.ctl.prom, id);
  }

  // ---------------------------------------------------------------- a run that leaves a series behind

  function Zeros(n: nat): string {
    seq(n, _ => '0')
  }

  lemma {:induction false} LongerThanAll(names: set<string>) returns (n: nat)
    ensures n >= 12 && forall name | name in names :: |name| < n
  {
    n := 12;
    if names != {} {
      var name :| name in names;
      var m := LongerThanAll(names - {name});
      n := if |name| < m then m else |name| + 1;
    }
  }

  lemma FreshStamp(names: set<string>) returns (stamp: string)
    ensures IsTimestamp(stamp) && stamp !in names
  {
    var n := LongerThanAll(names);
    stamp := Zeros(n);
  }

  /** What the run keeps on the way: the pair's gauges, the entry of the execution, and an idle producer. */
  ghost predicate Keeps(s: State, custom: map<string, Custom>, id: string) {
    !s.panicked && s.ctl.prom.custom == custom && id in s.ctl.dirs
  }

  /** One more execution, given up at once, and so one more entry in the report directory. */
  lemma OneMoreEntry(cfg: Config, evs: seq<Event>, s: State, id: string) returns (evs': seq<Event>, s': State)
    requires Run(cfg, evs) == Some(s) && s.producer == Idle && Makes(cfg) && Keeps(s, s.ctl.prom.custom, id)
    ensures Run(cfg, evs') == Some(s') && s'.producer == Idle && Keeps(s', s.ctl.prom.custom, id)
    ensures |s'.ctl.dirs| > |s.ctl.dirs|
  {
    var stamp := FreshStamp(s.ctl.dirs);
    evs', s' := Then(cfg, evs, s, Tick);
    evs', s' := Then(cfg, evs', s', Begin(stamp, [], true, true));
    evs', s' := Then(cfg, evs', s', PrepareFailed);
    SubsetCardinality(s.ctl.dirs + {stamp}, s'.ctl.dirs);
  }

  lemma {:induction false} ManyEntries(cfg: Config, evs: seq<Event>, s: State, id: string, n: int)
    returns (evs': seq<Event>, s': State)
    requires Run(cfg, evs) == Some(s) && s.producer == Idle && Makes(cfg) && Keeps(s, s.ctl.prom.custom, id)
    ensures Run(cfg, evs') == Some(s') && s'.producer == Idle && Keeps(s', s.ctl.prom.custom, id)
    ensures |s'.ctl.dirs| > n
    decreases n - |s.ctl.dirs|
  {
    evs', s' := evs, s;
    if |s.ctl.dirs| <= n {
      evs', s' := OneMoreEntry(cfg, evs, s, id);
      evs', s' := ManyEntries(cfg, evs', s', id, n);
    }
  }

  /** A run without nodes, just before AllAdded. */
  lemma NextRun(cfg: Config, evs: seq<Event>, s: State, id: string) returns (evs': seq<Event>, s': State, stamp: string)
    requires Run(cfg, evs) == Some(s) && s.producer == Idle && Makes(cfg) && Keeps(s, s.ctl.prom.custom, id)
    ensures Run(cfg, evs') == Some(s') && Keeps(s', s.ctl.prom.custom, id) && s'.producer == Adding(stamp, [])
    ensures ForID(s'.ctl, stamp).Some? && s.ctl.dirs <= s'.ctl.dirs
  {
    stamp := FreshStamp(s.ctl.dirs);
    evs', s' := Then(cfg, evs, s, Tick);
    evs', s' := Then(cfg, evs', s', Begin(stamp, [], true, true));
    evs', s' := Then(cfg, evs', s', Prepared);
  }

  /** A run without nodes that finds the entry to be the oldest, up to its pruning. */
  lemma UpToPruning(cfg: Config, evs: seq<Event>, s: State, id: string) returns (evs': seq<Event>, s': State)
    requires Run(cfg, evs) == Some(s) && s.producer == Idle && Makes(cfg) && Keeps(s, s.ctl.prom.custom, id)
    requires |s.ctl.dirs| > cfg.reportHistory + 1
    ensures Run(cfg, evs') == Some(s') && Keeps(s', s.ctl.prom.custom, id) && Enabled(cfg, s', PruneNext(id, true))
  {
    var t, stamp;
    evs', t, stamp := NextRun(cfg, evs, s, id);
    SubsetCardinality(s.ctl.dirs, t.ctl.dirs);
    var files := ListingFrom(t.ctl.dirs, id);
    evs', s' := Then(cfg, evs', t, ListDir(Some(files)));
    ExpiredStarts(files, cfg.reportHistory, id);
  }

  lemma ExpiredStarts(files: seq<Entry>, history: int, id: string)
    requires files != [] && files[0].name == id && id in Expired(files, history)
    ensures Expired(files, history) != [] && Expired(files, history)[0] == id
  {
    assert EntryNames(files)[0] == id;
  }

  /** The first report to a gauge. */
  lemma FirstReport(p: Prom, id: string, node: string, name: string)
    requires name in p.custom && p.custom[name].gauge == EMPTY
    ensures var result := Result(1.0, map[]);
            var reported := MetricsFor(p, id, node, [Reported(name, result)]);
            var q := CollectorModel.ProcessingFinished(reported, node, id, false);
            && q.custom.Keys == p.custom.Keys
            && q.custom[name].names == p.custom[name].names
            && q.custom[name].gauge == ApplyOp(p.custom[name].names, p.latest, false, EMPTY,
                                               MetricIndex.Report(id, node, result))
  {
    var report := [Reported(name, Result(1.0, map[]))];
    assert report[..|report| - 1] == [];
    assert MetricsFor(p, id, node, []) == p;
  }

  /** One report to a gauge, and the end of the run that asked for it. */
  lemma ReportedRun(cfg: Config, node: string, id: string, name: string) returns (evs: seq<Event>, s: State)
    requires Makes(cfg) && cfg.poolSize > 0 && IsTimestamp(id) && cfg.template(node, id) == Decodes
    requires name in cfg.gauges
    ensures Run(cfg, evs) == Some(s) && s.producer == Idle && !s.panicked && id in s.ctl.dirs
    ensures name in s.ctl.prom.custom && s.ctl.prom.custom[name].names == cfg.gauges[name]
    ensures s.ctl.prom.custom[name].gauge
         == ApplyOp(cfg.gauges[name], cfg.latest, false, EMPTY, MetricIndex.Report(id, node, Result(1.0, map[])))
  {
    evs, s := SentRun(cfg, node, id);
    evs, s := Then(cfg, evs, s, ListDir(None));
    FirstReport(s.ctl.prom, id, node, name);
    evs, s := Then(cfg, evs, s, PostResult(id, node, false, 0, [Reported(name, Result(1.0, map[]))]));
  }

  lemma UnreliableLeavesSeries(cfg: Config, node: string, id: string, name: string)
    requires Makes(cfg) && cfg.poolSize > 0 && IsTimestamp(id) && cfg.template(node, id) == Decodes && node != id
    requires name in cfg.gauges && EXECUTION_ID in cfg.gauges[name] && !Reliable(cfg.latest, cfg.gauges[name])
    ensures !PrunesClean(cfg)
  {
    var evs, s := ReportedRun(cfg, node, id, name);
    var custom := s.ctl.prom.custom;
    evs, s := ManyEntries(cfg, evs, s, id, cfg.reportHistory + 1);
    evs, s := UpToPruning(cfg, evs, s, id);
    var all, t := Then(cfg, evs, s, PruneNext(id, true));
    ReportIsMisfiled(cfg.gauges[name], cfg.latest, false, id, node);
    assert t.ctl.prom.custom[name] == PruneCustom(custom[name], id);
    assert !NoneLeft(t.ctl.prom, id);
  }

  /**
   * With a worker in the pool, some node whose template decodes, and gauges that have an executionID label, as all
   * enriched ones do: pruning an execution leaves no series of it in any configured gauge, in every run, if and only
   * if latestMetric is off and every gauge has executionID as its last label.
   */
  lemma PrunesCleanIff(cfg: Config, node: string, id: string)
    requires Makes(cfg) && cfg.poolSize > 0 && IsTimestamp(id) && cfg.template(node, id) == Decodes && node != id
    requires forall name | name in cfg.gauges :: EXECUTION_ID in cfg.gauges[name]
    ensures PrunesClean(cfg) <==> AllReliable(cfg)
  {
    if AllReliable(cfg) {
      forall evs, i, removed | Run(cfg, evs + [PruneNext(i, removed)]).Some?
        ensures NoneLeft(Run(cfg, evs + [PruneNext(i, removed)]).value.ctl.prom, i)
      {
        ReliablePrunesClean(cfg, evs, i, removed);
      }
    } else {
      var name :| name in cfg.gauges && !Reliable(cfg.latest, cfg.gauges[name]);
      UnreliableLeavesSeries(cfg, node, id, name);
    }
  }
}
