/**
 * The processing and duration gauges of one node in one execution as a fold over the events of that pair alone,
 * whatever else is interleaved.
 */
module PairGauges {
  import opened Collections
  import opened MetricIndex
  import opened CollectorModel
  import opened Protocol
  import opened SystemInvariant
  import opened Liveness
  import opened Coupling

  /** What the events of a pair leave behind: is the ID known, where its pod stands, and the two gauge values. */
  datatype Pair = Pair(
    live: bool,
    registered: bool,
    reported: Option<nat>,
    ended: Option<nat>,
    error: Option<real>,
    duration: Option<real>)

  const UNKNOWN := Pair(false, false, None, None, None, None)

  predicate OfPair(e: Event, id: string, node: string) {
    match e
    case Begin(i, _, _, _) => i == id
    case Store(i, n) => i == id && n == node
    case Terminate(i, n, _, _, _) => i == id && n == node
    case PostResult(i, n, _, _, _) => i == id && n == node
    case PruneNext(name, _) => name == id
    case _ => false
  }

  function Project(evs: seq<Event>, id: string, node: string): seq<Event> {
    if evs == [] then []
    else
      var rest := Project(evs[..|evs| - 1], id, node);
      if OfPair(evs[|evs| - 1], id, node) then rest + [evs[|evs| - 1]] else rest
  }

  function Advance(p: Pair, e: Event): Pair {
    match e
    case Begin(_, _, _, _) => p.(live := true, registered := false, reported := None, ended := None)
    case Store(_, _) => if p.live then p.(registered := true, reported := None, ended := None) else p
    // a report sets its own error flag
    case PostResult(_, _, failed, t, _) =>
      p.(reported := if p.registered then Some(t) else None, error := Some(if failed then 1.0 else 0.0))
    // the first termination records the duration, and an error unless the pod succeeded and reported
    case Terminate(_, _, succeeded, t, d) =>
      if p.registered && p.ended.None? then
        p.(ended := Some(t), duration := Some(d),
           error := if succeeded && p.reported.Some? then p.error else Some(1.0))
      else p
    case PruneNext(_, _) => UNKNOWN
    case _ => p
  }

  function Fold(evs: seq<Event>): Pair {
    if evs == [] then UNKNOWN else Advance(Fold(evs[..|evs| - 1]), evs[|evs| - 1])
  }

  /** What the executions say about the pair. */
  ghost function PodSide(c: Controller, id: string, node: string): Pair {
    match ForID(c, id)
    case None => UNKNOWN
    case Some(k) =>
      if node in c.execs[k].pods then
        var pod := c.execs[k].pods[node];
        Pair(true, true, pod.reported, pod.terminated, None, None)
      else
        UNKNOWN.(live := true)
  }

  /** The system's view of the pair. */
  ghost function Observed(c: Controller, id: string, node: string): Pair {
    PodSide(c, id, node).(
      error := Lookup(c.prom.proc.series, [node, id]),
      duration := Lookup(c.prom.duration.series, [node, id]))
  }

  // ---------------------------------------------------------------- series of one pair

  lemma SetPairAt(g: Gauge, latest: bool, n: string, i: string, v: real, node: string, id: string)
    requires id != LATEST
    ensures Lookup(SetPair(g, latest, n, i, v).series, [node, id])
         == if n == node && i == id then Some(v) else Lookup(g.series, [node, id])
  {
    assert [n, i] == [node, id] <==> n == node && i == id by {
      assert [n, i][0] == n && [n, i][1] == i && [node, id][0] == node && [node, id][1] == id;
    }
    assert [n, LATEST] != [node, id] by {
      assert [n, LATEST][1] == LATEST && [node, id][1] == id;
    }
  }

  lemma PruneAt(g: Gauge, name: string, node: string, id: string)
    requires Agreement(g)
    ensures Lookup(Prune(g, name).series, [node, id]) == if name == id then None else Lookup(g.series, [node, id])
  {
    PruneKeepsAgreement(g, name);
    assert Last([node, id]) == id;
  }

  // ---------------------------------------------------------------- one step

  lemma TerminateMarksPod(c: Controller, e: Event, id: string, node: string)
    requires e.Terminate? && CurrentOk(c.current, c.execs)
    ensures PodSide(PodTerminated(c, e.id, e.node, e.succeeded, e.t, e.duration), id, node)
         == var p := PodSide(c, id, node);
            if OfPair(e, id, node) && p.registered && p.ended.None? then p.(ended := Some(e.t)) else p
  {
  }

  lemma TerminateSetsGauges(c: Controller, e: Event, id: string, node: string)
    requires e.Terminate? && id != LATEST && CurrentOk(c.current, c.execs)
    ensures var p, q := PodSide(c, id, node), PodTerminated(c, e.id, e.node, e.succeeded, e.t, e.duration).prom;
            var first := OfPair(e, id, node) && p.registered && p.ended.None?;
            && Lookup(q.duration.series, [node, id])
               == (if first then Some(e.duration) else Lookup(c.prom.duration.series, [node, id]))
            && Lookup(q.proc.series, [node, id])
               == if first && !(e.succeeded && p.reported.Some?) then Some(1.0)
                  else Lookup(c.prom.proc.series, [node, id])
  {
    var p := c.prom;
    SetPairAt(p.duration, p.latest, e.node, e.id, e.duration, node, id);
    SetPairAt(p.proc, p.latest, e.node, e.id, 1.0, node, id);
  }

  lemma TerminateObserved(c: Controller, e: Event, id: string, node: string)
    requires e.Terminate? && id != LATEST && CurrentOk(c.current, c.execs)
    ensures Observed(PodTerminated(c, e.id, e.node, e.succeeded, e.t, e.duration), id, node)
         == if OfPair(e, id, node) then Advance(Observed(c, id, node), e) else Observed(c, id, node)
  {
    TerminateMarksPod(c, e, id, node);
    TerminateSetsGauges(c, e, id, node);
  }

  lemma ReportMarksPod(c: Controller, e: Event, id: string, node: string)
    requires e.PostResult? && CurrentOk(c.current, c.execs)
    ensures PodSide(ReportReceived(c, e.id, e.node, e.failed, e.t, e.results), id, node)
         == var p := PodSide(c, id, node);
            if OfPair(e, id, node) && p.registered then p.(reported := Some(e.t)) else p
  {
  }

  lemma ReportSetsGauge(c: Controller, e: Event, id: string, node: string)
    requires e.PostResult? && id != LATEST
    ensures var q := ReportReceived(c, e.id, e.node, e.failed, e.t, e.results).prom;
      && q.duration == c.prom.duration
      && Lookup(q.proc.series, [node, id])
         == if OfPair(e, id, node) then Some(if e.failed then 1.0 else 0.0) else Lookup(c.prom.proc.series, [node, id])
  {
    var p := c.prom;
    MetricsForFrame(p, e.id, e.node, e.results);
    SetPairAt(p.proc, p.latest, e.node, e.id, if e.failed then 1.0 else 0.0, node, id);
  }

  lemma PostResultObserved(cfg: Config, s: State, e: Event, id: string, node: string)
    requires Enabled(cfg, s, e) && e.PostResult? && id != LATEST && CurrentOk(s.ctl.current, s.ctl.execs)
    ensures Observed(Apply(cfg, s, e).ctl, id, node)
         == if OfPair(e, id, node) then Advance(Observed(s.ctl, id, node), e) else Observed(s.ctl, id, node)
  {
    var c := MakeReportDir(s.ctl, e.id);
    DirObserved(s.ctl, e.id, id, node);
    ReportObserved(c, e, id, node);
    assert Apply(cfg, s, e).ctl == ReportReceived(c, e.id, e.node, e.failed, e.t, e.results);
  }

  lemma DirObserved(c: Controller, dir: string, id: string, node: string)
    ensures Observed(MakeReportDir(c, dir), id, node) == Observed(c, id, node)
  {
  }

  lemma ReportObserved(c: Controller, e: Event, id: string, node: string)
    requires e.PostResult? && id != LATEST && CurrentOk(c.current, c.execs)
    ensures Observed(ReportReceived(c, e.id, e.node, e.failed, e.t, e.results), id, node)
         == if OfPair(e, id, node) then Advance(Observed(c, id, node), e) else Observed(c, id, node)
  {
    ReportMarksPod(c, e, id, node);
    ReportSetsGauge(c, e, id, node);
  }

  lemma StoreObserved(cfg: Config, s: State, e: Event, id: string, node: string)
    requires Enabled(cfg, s, e) && e.Store? && CurrentOk(s.ctl.current, s.ctl.execs)
    ensures Observed(Apply(cfg, s, e).ctl, id, node)
         == if OfPair(e, id, node) then Advance(Observed(s.ctl, id, node), e) else Observed(s.ctl, id, node)
  {
  }

  lemma BeginObserved(cfg: Config, s: State, e: Event, id: string, node: string)
    requires Enabled(cfg, s, e) && e.Begin? && CurrentOk(s.ctl.current, s.ctl.execs)
    requires !Apply(cfg, s, e).panicked
    ensures Observed(Apply(cfg, s, e).ctl, id, node)
         == if OfPair(e, id, node) then Advance(Observed(s.ctl, id, node), e) else Observed(s.ctl, id, node)
  {
  }

  lemma PruneDropsPod(c: Controller, name: string, removed: bool, id: string, node: string)
    ensures PodSide(PruneName(c, name, removed), id, node) == if name == id then UNKNOWN else PodSide(c, id, node)
  {
  }

  lemma PruneObserved(cfg: Config, s: State, e: Event, id: string, node: string)
    requires Enabled(cfg, s, e) && e.PruneNext? && PromOk(s.ctl.prom)
    ensures Observed(Apply(cfg, s, e).ctl, id, node)
         == if OfPair(e, id, node) then Advance(Observed(s.ctl, id, node), e) else Observed(s.ctl, id, node)
  {
    PruneDropsPod(s.ctl, e.name, e.removed, id, node);
    PruneAt(s.ctl.prom.proc, e.name, node, id);
    PruneAt(s.ctl.prom.duration, e.name, node, id);
  }

  /** The pods of y are those of x but for their start. */
  ghost predicate SamePods(x: Execution, y: Execution) {
    && y.pods.Keys == x.pods.Keys
    && forall n | n in x.pods ::
         y.pods[n].reported == x.pods[n].reported && y.pods[n].terminated == x.pods[n].terminated
  }

  lemma SamePodsObserved(c: Controller, d: Controller, k: nat, id: string, node: string)
    requires k < |c.execs| == |d.execs| && d.execs == c.execs[k := d.execs[k]] && SamePods(c.execs[k], d.execs[k])
    requires d.current == c.current && d.prom == c.prom
    ensures Observed(d, id, node) == Observed(c, id, node)
  {
  }

  lemma WorkerObserved(cfg: Config, s: State, e: Event, id: string, node: string)
    requires Enabled(cfg, s, e) && (e.Receive? || e.CreatePod? || e.Start? || e.Finish? || e.Exit?)
    ensures Observed(Apply(cfg, s, e).ctl, id, node) == Observed(s.ctl, id, node)
  {
    SamePodsObserved(s.ctl, Apply(cfg, s, e).ctl, e.k, id, node);
  }

  lemma OtherObserved(cfg: Config, s: State, e: Event, id: string, node: string)
    requires Enabled(cfg, s, e)
    requires !e.Terminate? && !e.PostResult? && !e.Store? && !e.Begin? && !e.PruneNext?
    requires !e.Receive? && !e.CreatePod? && !e.Start? && !e.Finish? && !e.Exit?
    ensures Observed(Apply(cfg, s, e).ctl, id, node) == Observed(s.ctl, id, node)
  {
  }

  lemma StepObserved(cfg: Config, s: State, e: Event, id: string, node: string)
    requires Enabled(cfg, s, e) && id != LATEST && CurrentOk(s.ctl.current, s.ctl.execs) && PromOk(s.ctl.prom)
    requires !Apply(cfg, s, e).panicked
    ensures Observed(Apply(cfg, s, e).ctl, id, node)
         == if OfPair(e, id, node) then Advance(Observed(s.ctl, id, node), e) else Observed(s.ctl, id, node)
  {
    if e.Terminate? {
      TerminateObserved(s.ctl, e, id, node);
    } else if e.PostResult? {
      PostResultObserved(cfg, s, e, id, node);
    } else if e.Store? {
      StoreObserved(cfg, s, e, id, node);
    } else if e.Begin? {
      BeginObserved(cfg, s, e, id, node);
    } else if e.PruneNext? {
      PruneObserved(cfg, s, e, id, node);
    } else if e.Receive? || e.CreatePod? || e.Start? || e.Finish? || e.Exit? {
      WorkerObserved(cfg, s, e, id, node);
    } else {
      OtherObserved(cfg, s, e, id, node);
    }
  }

  /** In every run that did not end in a panic, what is observed of a pair is the fold of its own events. */
  lemma {:induction false} PairIsFold(cfg: Config, evs: seq<Event>, id: string, node: string)
    requires Run(cfg, evs).Some? && !Run(cfg, evs).value.panicked && id != LATEST
    ensures Observed(Run(cfg, evs).value.ctl, id, node) == Fold(Project(evs, id, node))
  {
    if evs != [] {
      var before, e := evs[..|evs| - 1], evs[|evs| - 1];
      var s := Run(cfg, before).value;
      PairIsFold(cfg, before, id, node);
      FoldSnoc(Project(before, id, node), e);
      ReachableProducer(cfg, before, Ledgers(cfg, before), s);
      IndexAgrees(cfg, before);
      StepObserved(cfg, s, e, id, node);
    }
  }

  lemma FoldSnoc(evs: seq<Event>, e: Event)
    ensures Fold(evs + [e]) == Advance(Fold(evs), e)
  {
    assert (evs + [e])[..|evs|] == evs;
  }

  /** The processing-error and duration gauges of a pair do not depend on how other events are interleaved. */
  lemma InterleavingDoesNotMatter(cfg: Config, evs: seq<Event>, evs': seq<Event>, id: string, node: string)
    requires Run(cfg, evs).Some? && Run(cfg, evs').Some? && id != LATEST
    requires !Run(cfg, evs).value.panicked && !Run(cfg, evs').value.panicked
    requires Project(evs, id, node) == Project(evs', id, node)
    ensures var p, q := Run(cfg, evs).value.ctl.prom, Run(cfg, evs').value.ctl.prom;
            && Lookup(p.proc.series, [node, id]) == Lookup(q.proc.series, [node, id])
            && Lookup(p.duration.series, [node, id]) == Lookup(q.duration.series, [node, id])
  {
    PairIsFold(cfg, evs, id, node);
    PairIsFold(cfg, evs', id, node);
  }

  // ---------------------------------------------------------------- the latest rows

  /** What the rows that end in latest show for a node. */
  datatype Newest = Newest(error: Option<real>, duration: Option<real>)

  /** The reports, first ends and prunings of latest, of whatever execution, decide the latest rows of a node. */
  function NewestAfter(evs: seq<Event>, node: string): Newest {
    if evs == [] then Newest(None, None)
    else
      var before, e := evs[..|evs| - 1], evs[|evs| - 1];
      var was := NewestAfter(before, node);
      match e
      case PostResult(_, n, failed, _, _) =>
        if n == node then was.(error := Some(if failed then 1.0 else 0.0)) else was
      case Terminate(id, n, succeeded, _, d) =>
        var p := Fold(Project(before, id, node));
        if n == node && p.registered && p.ended.None? then
          Newest(if succeeded && p.reported.Some? then was.error else Some(1.0), Some(d))
        else
          was
      case PruneNext(name, _) => if name == "latest" then Newest(None, None) else was
      case _ => was
  }

  ghost function Shown(p: Prom, node: string): Newest {
    Newest(Lookup(p.proc.series, [node, "latest"]), Lookup(p.duration.series, [node, "latest"]))
  }

  lemma PairsDiffer(a: string, b: string, c: string, d: string)
    ensures [a, b] == [c, d] <==> a == c && b == d
  {
    assert [a, b][0] == a && [a, b][1] == b && [c, d][0] == c && [c, d][1] == d;
  }

  lemma TerminateShown(c: Controller, e: Event, node: string)
    requires e.Terminate? && e.id != LATEST && CurrentOk(c.current, c.execs) && c.prom.latest
    ensures var p, q := PodSide(c, e.id, node), PodTerminated(c, e.id, e.node, e.succeeded, e.t, e.duration).prom;
            Shown(q, node)
            == if e.node == node && p.registered && p.ended.None? then
                 Newest(if e.succeeded && p.reported.Some? then Shown(c.prom, node).error else Some(1.0),
                        Some(e.duration))
               else Shown(c.prom, node)
  {
    var p, row := c.prom, [node, "latest"];
    SetPairSets(p.duration, p.latest, e.node, e.id, e.duration, row);
    SetPairSets(p.proc, p.latest, e.node, e.id, 1.0, row);
    PairsDiffer(node, "latest", e.node, e.id);
    PairsDiffer(node, "latest", e.node, "latest");
  }

  lemma ReportShown(c: Controller, e: Event, node: string)
    requires e.PostResult? && c.prom.latest
    ensures var q := ReportReceived(c, e.id, e.node, e.failed, e.t, e.results).prom;
            Shown(q, node)
            == if e.node == node then Shown(c.prom, node).(error := Some(if e.failed then 1.0 else 0.0))
               else Shown(c.prom, node)
  {
    var p, row := c.prom, [node, "latest"];
    MetricsForFrame(p, e.id, e.node, e.results);
    SetPairSets(p.proc, p.latest, e.node, e.id, if e.failed then 1.0 else 0.0, row);
    PairsDiffer(node, "latest", e.node, e.id);
    PairsDiffer(node, "latest", e.node, "latest");
  }

  lemma PruneShown(p: Prom, name: string, node: string)
    requires PromOk(p)
    ensures Shown(PruneAll(p, name), node) == if name == "latest" then Newest(None, None) else Shown(p, node)
  {
    PruneAt(p.proc, name, node, "latest");
    PruneAt(p.duration, name, node, "latest");
  }

  lemma OtherShown(cfg: Config, s: State, e: Event, node: string)
    requires Enabled(cfg, s, e) && !e.Terminate? && !e.PostResult? && !e.PruneNext?
    ensures Shown(Apply(cfg, s, e).ctl.prom, node) == Shown(s.ctl.prom, node)
  {
  }

  /** No execution is called latest. */
  lemma {:induction false} LatestIsNoID(cfg: Config, evs: seq<Event>)
    requires Run(cfg, evs).Some?
    ensures LATEST !in Run(cfg, evs).value.ctl.current
  {
    if evs != [] {
      LatestIsNoID(cfg, evs[..|evs| - 1]);
    }
  }

  lemma StepShown(cfg: Config, evs: seq<Event>, s: State, e: Event, node: string)
    requires Run(cfg, evs) == Some(s) && !s.panicked && Enabled(cfg, s, e) && cfg.latest
    requires Shown(s.ctl.prom, node) == NewestAfter(evs, node)
    ensures Shown(Apply(cfg, s, e).ctl.prom, node) == NewestAfter(evs + [e], node)
  {
    assert (evs + [e])[..|evs|] == evs;
    ReachableProducer(cfg, evs, Ledgers(cfg, evs), s);
    StaysConfigured(cfg, evs);
    IndexAgrees(cfg, evs);
    match e
    case Terminate(id, n, _, _, _) => TerminateStepShown(cfg, evs, s, e, node);
    case PostResult(id, n, _, _, _) => ReportShown(MakeReportDir(s.ctl, id), e, node);
    case PruneNext(name, _) => PruneShown(s.ctl.prom, name, node);
    case _ => OtherShown(cfg, s, e, node);
  }

  lemma TerminateStepShown(cfg: Config, evs: seq<Event>, s: State, e: Event, node: string)
    requires Run(cfg, evs) == Some(s) && !s.panicked && e.Terminate? && s.ctl.prom.latest
    requires CurrentOk(s.ctl.current, s.ctl.execs)
    ensures var p := Fold(Project(evs, e.id, node));
            Shown(PodTerminated(s.ctl, e.id, e.node, e.succeeded, e.t, e.duration).prom, node)
            == if e.node == node && p.registered && p.ended.None? then
                 Newest(if e.succeeded && p.reported.Some? then Shown(s.ctl.prom, node).error else Some(1.0),
                        Some(e.duration))
               else Shown(s.ctl.prom, node)
  {
    if e.id == LATEST {
      LatestIsNoID(cfg, evs);
      NothingOfLatest(cfg, evs, node);
    } else {
      TerminateShown(s.ctl, e, node);
      PairIsFold(cfg, evs, e.id, node);
    }
  }

  lemma {:induction false} NothingOfLatest(cfg: Config, evs: seq<Event>, node: string)
    requires Run(cfg, evs).Some?
    ensures !Fold(Project(evs, LATEST, node)).live && !Fold(Project(evs, LATEST, node)).registered
  {
    if evs != [] {
      var before, e := evs[..|evs| - 1], evs[|evs| - 1];
      NothingOfLatest(cfg, before, node);
      FoldSnoc(Project(before, LATEST, node), e);
    }
  }

  /**
   * With latestMetric on, in every run that did not end in a panic: the latest rows of a node show the last error and
   * the last duration recorded for it in any execution since latest itself was pruned.
   */
  lemma {:induction false} LatestIsNewest(cfg: Config, evs: seq<Event>, node: string)
    requires Run(cfg, evs).Some? && !Run(cfg, evs).value.panicked && cfg.latest
    ensures Shown(Run(cfg, evs).value.ctl.prom, node) == NewestAfter(evs, node)
  {
    if evs != [] {
      var before, e := evs[..|evs| - 1], evs[|evs| - 1];
      LatestIsNewest(cfg, before, node);
      StepShown(cfg, before, Run(cfg, before).value, e, node);
      assert before + [e] == evs;
    }
  }

  // ---------------------------------------------------------------- starts

  /** When the pod of a node was started last in execution k. */
  function LastStart(evs: seq<Event>, k: nat, node: string): Option<nat> {
    if evs == [] then None
    else
      match evs[|evs| - 1]
      case Start(i, _, n, t) => if i == k && n == node then Some(t) else LastStart(evs[..|evs| - 1], k, node)
      case _ => LastStart(evs[..|evs| - 1], k, node)
  }

  ghost function StartOf(c: Controller, k: nat, node: string): Option<nat> {
    if k < |c.execs| && node in c.execs[k].pods then c.execs[k].pods[node].started else None
  }

  lemma StepStarts(cfg: Config, ls: seq<Ledger>, s: State, e: Event, k: nat, node: string)
    requires Inv(cfg, ls, s) && Enabled(cfg, s, e)
    ensures StartOf(Apply(cfg, s, e).ctl, k, node)
         == if e.Start? && e.k == k && e.node == node then Some(e.t) else StartOf(s.ctl, k, node)
  {
    if e.Receive? || e.CreatePod? || e.Start? || e.Finish? || e.Exit? {
      if e.Start? {
        StartHasPod(cfg, ls, s, e);
      }
      WorkerStarts(cfg, s, e, k, node);
    } else if e.Store? {
      StoreIsNew(cfg, ls, s, e);
      StoreStarts(cfg, s, e, k, node);
    } else if e.Terminate? || e.PostResult? {
      EnvironmentStarts(cfg, s, e, k, node);
    } else {
      OtherStarts(cfg, s, e, k, node);
    }
  }

  lemma WorkerStarts(cfg: Config, s: State, e: Event, k: nat, node: string)
    requires Enabled(cfg, s, e) && (e.Receive? || e.CreatePod? || e.Start? || e.Finish? || e.Exit?)
    requires e.Start? ==> e.node in s.ctl.execs[e.k].pods
    ensures StartOf(Apply(cfg, s, e).ctl, k, node)
         == if e.Start? && e.k == k && e.node == node then Some(e.t) else StartOf(s.ctl, k, node)
  {
  }

  lemma StoreStarts(cfg: Config, s: State, e: Event, k: nat, node: string)
    requires Enabled(cfg, s, e) && e.Store?
    requires ForID(s.ctl, e.id).Some? && e.node !in s.ctl.execs[ForID(s.ctl, e.id).value].pods
    ensures StartOf(Apply(cfg, s, e).ctl, k, node) == StartOf(s.ctl, k, node)
  {
  }

  lemma EnvironmentStarts(cfg: Config, s: State, e: Event, k: nat, node: string)
    requires Enabled(cfg, s, e) && (e.Terminate? || e.PostResult?)
    ensures StartOf(Apply(cfg, s, e).ctl, k, node) == StartOf(s.ctl, k, node)
  {
    if e.Terminate? {
      PodTerminatedChanges(s.ctl, e.id, e.node, e.succeeded, e.t, e.duration);
    } else {
      ReportReceivedChanges(MakeReportDir(s.ctl, e.id), e.id, e.node, e.failed, e.t, e.results);
    }
  }

  lemma OtherStarts(cfg: Config, s: State, e: Event, k: nat, node: string)
    requires Enabled(cfg, s, e) && !e.Receive? && !e.CreatePod? && !e.Start? && !e.Finish? && !e.Exit?
    requires !e.Store? && !e.Terminate? && !e.PostResult?
    ensures StartOf(Apply(cfg, s, e).ctl, k, node) == StartOf(s.ctl, k, node)
  {
  }

  /** In every run, the start recorded for a pod is the one its worker recorded last. */
  lemma {:induction false} StartedIsLastStart(cfg: Config, evs: seq<Event>, k: nat, node: string)
    requires Run(cfg, evs).Some?
    ensures StartOf(Run(cfg, evs).value.ctl, k, node) == LastStart(evs, k, node)
  {
    if evs != [] {
      var before := evs[..|evs| - 1];
      StartedIsLastStart(cfg, before, k, node);
      Reachable(cfg, before);
      StepStarts(cfg, Ledgers(cfg, before), Run(cfg, before).value, evs[|evs| - 1], k, node);
    }
  }
}
