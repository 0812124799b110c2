/** The shared progress counter: what it counts, and when it says that everything is done. */
module Progress {
  import opened Collections
  import CollectorModel
  import opened Protocol
  import opened Workers
  import opened ExecutionInvariant
  import opened SystemInvariant

  ghost function StartedPods(x: Execution): set<string> {
    set node | node in x.pods && x.pods[node].started.Some?
  }

  ghost function TerminatedPods(x: Execution): set<string> {
    set node | node in x.pods && x.pods[node].terminated.Some?
  }

  /** The execution on whose behalf an event bumps the counter. */
  function Credits(c: Controller, e: Event): Option<nat> {
    match e
    case Start(k, _, node, _) => if k < |c.execs| && node in c.execs[k].pods then Some(k) else None
    case Finish(k, _, _) => Some(k)
    case Terminate(id, node, _, _, _) =>
      (match ForID(c, id)
       case None => None
       case Some(k) =>
         if node in c.execs[k].pods && c.execs[k].pods[node].terminated.None? then Some(k) else None)
    case _ => None
  }

  function ForeignBump(c: Controller, e: Event): nat {
    if Credits(c, e).Some? && Credits(c, e) != Some(|c.execs| - 1) then 1 else 0
  }

  /** The bumps since the last reset on behalf of executions other than the newest. */
  ghost function Foreign(cfg: Config, evs: seq<Event>): nat {
    if evs == [] || Run(cfg, evs).None? then 0
    else
      var before, e := evs[..|evs| - 1], evs[|evs| - 1];
      if e.Begin? && Makes(cfg) then 0
      else Foreign(cfg, before) + ForeignBump(Run(cfg, before).value.ctl, e)
  }

  /** Started, terminated and finished pods of one execution. */
  ghost function Own(l: Ledger, x: Execution): nat {
    |l.started| + |TerminatedPods(x)| + |l.finished|
  }

  ghost function OwnOfNewest(ls: seq<Ledger>, c: Controller): nat
    requires |ls| == |c.execs|
  {
    if ls == [] then 0 else Own(ls[|ls| - 1], c.execs[|ls| - 1])
  }

  // ---------------------------------------------------------------- one step

  lemma TerminatedPodsAfter(x: Execution, node: string, p: Pod)
    ensures var y := x.(pods := x.pods[node := p]);
            && (node in x.pods && p.terminated.Some? && x.pods[node].terminated.None?
                ==> |TerminatedPods(y)| == |TerminatedPods(x)| + 1)
            && (node in x.pods && p.terminated == x.pods[node].terminated ==> TerminatedPods(y) == TerminatedPods(x))
            && (node !in x.pods && p.terminated.None? ==> TerminatedPods(y) == TerminatedPods(x))
  {
    var y := x.(pods := x.pods[node := p]);
    if node in x.pods && p.terminated.Some? && x.pods[node].terminated.None? {
      assert TerminatedPods(y) == TerminatedPods(x) + {node};
    }
  }

  lemma StartCredits(ls: seq<Ledger>, s: State, cfg: Config, e: Event)
    requires |ls| == |s.ctl.execs| && Enabled(cfg, s, e) && e.Start? && e.node in s.ctl.execs[e.k].pods
    ensures var c := Apply(cfg, s, e).ctl;
            && c.progress == s.ctl.progress + 1
            && |c.execs| == |ls|
            && OwnOfNewest(Note(cfg, ls, e), c) == OwnOfNewest(ls, s.ctl) + if e.k == |ls| - 1 then 1 else 0
  {
    var x := s.ctl.execs[e.k];
    TerminatedPodsAfter(x, e.node, x.pods[e.node].(started := Some(e.t)));
  }

  lemma FinishCredits(ls: seq<Ledger>, s: State, cfg: Config, e: Event)
    requires |ls| == |s.ctl.execs| && Enabled(cfg, s, e) && e.Finish?
    ensures var c := Apply(cfg, s, e).ctl;
            && c.progress == s.ctl.progress + 1
            && |c.execs| == |ls|
            && OwnOfNewest(Note(cfg, ls, e), c) == OwnOfNewest(ls, s.ctl) + if e.k == |ls| - 1 then 1 else 0
  {
    var x := s.ctl.execs[e.k];
    assert TerminatedPods(WithWorker(x, e.w, Waiting)) == TerminatedPods(x);
  }

  lemma TerminateCredits(ls: seq<Ledger>, s: State, cfg: Config, e: Event)
    requires |ls| == |s.ctl.execs| && Enabled(cfg, s, e) && e.Terminate?
    ensures var c := Apply(cfg, s, e).ctl;
            && c.progress == s.ctl.progress + (if Credits(s.ctl, e).Some? then 1 else 0)
            && |c.execs| == |ls|
            && OwnOfNewest(ls, c) == OwnOfNewest(ls, s.ctl) + if Credits(s.ctl, e) == Some(|ls| - 1) then 1 else 0
  {
    if ForID(s.ctl, e.id).Some? {
      var x := s.ctl.execs[ForID(s.ctl, e.id).value];
      if e.node in x.pods {
        TerminatedPodsAfter(x, e.node, x.pods[e.node].(terminated := Some(e.t)));
      }
    }
  }

  lemma StoreCredits(ls: seq<Ledger>, s: State, cfg: Config, e: Event)
    requires Inv(cfg, ls, s) && Enabled(cfg, s, e) && e.Store?
    ensures var c := Apply(cfg, s, e).ctl;
            c.progress == s.ctl.progress && |c.execs| == |ls| && OwnOfNewest(ls, c) == OwnOfNewest(ls, s.ctl)
  {
    var k := |ls| - 1;
    assert ExecInv(cfg.poolSize, ls[k], s.ctl.execs[k]);
    NextIsNew(cfg.poolSize, ls[k], s.ctl.execs[k], s.producer.todo);
    TerminatedPodsAfter(s.ctl.execs[k], e.node, NEW_POD);
  }

  lemma ReportCredits(ls: seq<Ledger>, s: State, cfg: Config, e: Event)
    requires |ls| == |s.ctl.execs| && Enabled(cfg, s, e) && e.PostResult?
    ensures var c := Apply(cfg, s, e).ctl;
            c.progress == s.ctl.progress && |c.execs| == |ls| && OwnOfNewest(ls, c) == OwnOfNewest(ls, s.ctl)
  {
    if ForID(s.ctl, e.id).Some? {
      var x := s.ctl.execs[ForID(s.ctl, e.id).value];
      if e.node in x.pods {
        TerminatedPodsAfter(x, e.node, x.pods[e.node].(reported := Some(e.t)));
      }
    }
  }

  lemma QuietCredits(ls: seq<Ledger>, s: State, cfg: Config, e: Event)
    requires |ls| == |s.ctl.execs| && Enabled(cfg, s, e)
    requires !e.Begin? && !e.Start? && !e.Finish? && !e.Terminate? && !e.Store? && !e.PostResult?
    ensures var c, ms := Apply(cfg, s, e).ctl, Note(cfg, ls, e);
            && c.progress == s.ctl.progress && |c.execs| == |ms| == |ls|
            && OwnOfNewest(ms, c) == OwnOfNewest(ls, s.ctl)
  {
    if ls != [] {
      var k := |ls| - 1;
      assert TerminatedPods(Apply(cfg, s, e).ctl.execs[k]) == TerminatedPods(s.ctl.execs[k]);
    }
  }

  /** What a step adds to the counter and to the counts of the newest execution. */
  ghost predicate Credited(ls: seq<Ledger>, c: Controller, ms: seq<Ledger>, d: Controller, own: Option<nat>) {
    && |d.execs| == |ms| == |ls| == |c.execs|
    && d.progress == c.progress + (if own.Some? then 1 else 0)
    && OwnOfNewest(ms, d) == OwnOfNewest(ls, c) + if own == Some(|ls| - 1) then 1 else 0
  }

  lemma WorkerCredits(ls: seq<Ledger>, s: State, cfg: Config, e: Event)
    requires Inv(cfg, ls, s) && Enabled(cfg, s, e) && (e.Start? || e.Finish?)
    ensures Credited(ls, s.ctl, Note(cfg, ls, e), Apply(cfg, s, e).ctl, Credits(s.ctl, e))
  {
    if e.Start? {
      StartKeeps(cfg.poolSize, ls[e.k], s.ctl.execs[e.k], e.w, e.node, e.t);
      StartCredits(ls, s, cfg, e);
    } else {
      FinishCredits(ls, s, cfg, e);
    }
  }

  lemma StepCredits(ls: seq<Ledger>, s: State, cfg: Config, e: Event)
    requires Inv(cfg, ls, s) && Enabled(cfg, s, e) && !e.Begin?
    ensures Credited(ls, s.ctl, Note(cfg, ls, e), Apply(cfg, s, e).ctl, Credits(s.ctl, e))
  {
    match e
    case Start(_, _, _, _) => WorkerCredits(ls, s, cfg, e);
    case Finish(_, _, _) => WorkerCredits(ls, s, cfg, e);
    case Terminate(_, _, _, _, _) => TerminateCredits(ls, s, cfg, e);
    case Store(_, _) => StoreCredits(ls, s, cfg, e);
    case PostResult(_, _, _, _, _) => ReportCredits(ls, s, cfg, e);
    case _ => QuietCredits(ls, s, cfg, e);
  }

  // ---------------------------------------------------------------- every run

  /**
   * In every reachable state the counter is the started, terminated and finished pods of the newest execution
   * plus the bumps of older ones since the last reset.
   */
  lemma {:induction false} CounterLaw(cfg: Config, evs: seq<Event>, ls: seq<Ledger>, s: State)
    requires Reaches(cfg, evs, ls, s)
    ensures |ls| == |s.ctl.execs|
    ensures s.ctl.progress == OwnOfNewest(ls, s.ctl) + Foreign(cfg, evs)
  {
    ReachableProducer(cfg, evs, ls, s);
    if evs != [] {
      var before, e := evs[..|evs| - 1], evs[|evs| - 1];
      var ls0, s0 := Ledgers(cfg, before), Run(cfg, before).value;
      CounterLaw(cfg, before, ls0, s0);
      Reachable(cfg, before);
      StepCounts(ls0, s0, cfg, e);
    }
  }

  /** A new execution starts from zero; else what a step adds to the counter is its own bump or a foreign one. */
  lemma StepCounts(ls: seq<Ledger>, s: State, cfg: Config, e: Event)
    requires Inv(cfg, ls, s) && Enabled(cfg, s, e)
    ensures var c, ms := Apply(cfg, s, e).ctl, Note(cfg, ls, e);
            && |ms| == |c.execs|
            && if e.Begin? && Makes(cfg) then c.progress == OwnOfNewest(ms, c) == 0
               else c.progress - OwnOfNewest(ms, c) == s.ctl.progress - OwnOfNewest(ls, s.ctl) + ForeignBump(s.ctl, e)
  {
    if e.Begin? {
      if Makes(cfg) {
        assert TerminatedPods(Apply(cfg, s, e).ctl.execs[|s.ctl.execs|]) == {};
      }
    } else {
      StepCredits(ls, s, cfg, e);
    }
  }

  lemma JobsKept(cfg: Config, s: State, e: Event)
    requires Enabled(cfg, s, e) && (!e.Begin? || !Makes(cfg))
    ensures Apply(cfg, s, e).ctl.jobs == s.ctl.jobs
  {
  }

  lemma NodesKept(cfg: Config, ls: seq<Ledger>, e: Event)
    requires (!e.Begin? || !Makes(cfg)) && ls != []
    ensures var ms := Note(cfg, ls, e); |ms| == |ls| && ms[|ls| - 1].nodes == ls[|ls| - 1].nodes
  {
  }

  lemma {:induction false} JobsAreNodes(cfg: Config, evs: seq<Event>, ls: seq<Ledger>, s: State)
    requires Reaches(cfg, evs, ls, s) && ls != []
    ensures s.ctl.jobs == |ls[|ls| - 1].nodes|
  {
    var before, e := evs[..|evs| - 1], evs[|evs| - 1];
    var ls0, s0 := Ledgers(cfg, before), Run(cfg, before).value;
    if !e.Begin? || !Makes(cfg) {
      NodesCount(cfg, ls0, e);
      JobsAreNodes(cfg, before, ls0, s0);
      JobsKept(cfg, s0, e);
      NodesKept(cfg, ls0, e);
    } else {
      BeginJobs(cfg, ls0, s0, e);
    }
  }

  lemma NodesCount(cfg: Config, ls: seq<Ledger>, e: Event)
    requires !e.Begin? || !Makes(cfg)
    ensures |Note(cfg, ls, e)| == |ls|
  {
  }

  lemma BeginJobs(cfg: Config, ls: seq<Ledger>, s: State, e: Event)
    requires Enabled(cfg, s, e) && e.Begin? && Makes(cfg)
    ensures var ms := Note(cfg, ls, e); ms != [] && Apply(cfg, s, e).ctl.jobs == |ms[|ms| - 1].nodes|
  {
  }

  lemma PodsGaugeKept(cfg: Config, s: State, e: Event)
    requires Enabled(cfg, s, e) && s.ctl.prom.pods == s.ctl.jobs as real
    ensures Apply(cfg, s, e).ctl.prom.pods == Apply(cfg, s, e).ctl.jobs as real
  {
    if e.PostResult? {
      CollectorModel.MetricsForFrame(s.ctl.prom, e.id, e.node, e.results);
    }
  }

  /** The pods gauge always shows the number of jobs given to the last NewExecution. */
  lemma {:induction false} PodsGaugeIsJobs(cfg: Config, evs: seq<Event>)
    requires Run(cfg, evs).Some?
    ensures Run(cfg, evs).value.ctl.prom.pods == Run(cfg, evs).value.ctl.jobs as real
  {
    if evs != [] {
      var before, e := evs[..|evs| - 1], evs[|evs| - 1];
      PodsGaugeIsJobs(cfg, before);
      PodsGaugeKept(cfg, Run(cfg, before).value, e);
    }
  }

  lemma StartedPodsCount(poolSize: int, l: Ledger, x: Execution)
    requires ExecInv(poolSize, l, x)
    ensures |StartedPods(x)| == |l.started|
    ensures Distinct(l.finished)
    ensures Elements(l.finished) <= TerminatedPods(x) && Elements(l.finished) <= StartedPods(x)
  {
    forall node
      ensures Times(l.started, node) <= 1 && Times(l.finished, node) <= 1
      ensures node in l.started ==> node in x.pods
      ensures node in l.finished ==> node in l.started
    {
      StartedIsSent(l, x, node);
      ReceivedOnce(l, x, node);
      CountDrops(x.workers, 0, 1, 3, node);
    }
    TimesAtMostOnceIsDistinct(l.started);
    TimesAtMostOnceIsDistinct(l.finished);
    ElementsOfDistinct(l.started);
    assert StartedPods(x) == Elements(l.started);
  }

  /** Each of the three counts is at most N, and all three are N exactly when every job is finished. */
  lemma CountsBound(poolSize: int, l: Ledger, x: Execution)
    requires ExecInv(poolSize, l, x)
    ensures Own(l, x) == |StartedPods(x)| + |TerminatedPods(x)| + |l.finished|
    ensures Own(l, x) <= 3 * |l.nodes|
    ensures Own(l, x) == 3 * |l.nodes| <==> |l.finished| == |l.nodes|
  {
    StartedPodsCount(poolSize, l, x);
    ElementsOfDistinct(l.finished);
    ElementsOfDistinct(l.nodes);
    SubsetCardinality(StartedPods(x), Elements(l.nodes));
    SubsetCardinality(TerminatedPods(x), Elements(l.nodes));
    SubsetCardinality(Elements(l.finished), StartedPods(x));
    SubsetCardinality(Elements(l.finished), TerminatedPods(x));
  }

  /** getProgress before formatting: progressStep times the counter. */
  function Percent(jobs: nat, p: nat): real
    requires jobs > 0
  {
    100.0 / (3 * jobs) as real * p as real
  }

  /** The reported percentage of 3N bumps. */
  lemma PercentIs(jobs: nat, p: nat)
    requires jobs > 0
    ensures Percent(jobs, p) * (3 * jobs) as real == 100.0 * p as real
  {
    var d := (3 * jobs) as real;
    assert 100.0 / d * p as real * d == 100.0 / d * d * p as real;
    assert 100.0 / d * d == 100.0;
  }

  lemma PercentBound(jobs: nat, p: nat)
    requires jobs > 0 && p <= 3 * jobs
    ensures Percent(jobs, p) <= 100.0
    ensures Percent(jobs, p) == 100.0 <==> p == 3 * jobs
  {
    var d := (3 * jobs) as real;
    var step := 100.0 / d;
    assert step * d == 100.0;
    if p < 3 * jobs {
      assert step * p as real < step * d;
    }
  }

  // ---------------------------------------------------------------- one live execution

  /** Nothing is left to happen to the execution: no queued job, no job with a worker, no pod without an end. */
  ghost predicate Quiet(x: Execution) {
    && x.queue == []
    && (forall w | 0 <= w < |x.workers| :: Rank(x.workers[w]) == 0)
    && (forall node | node in x.pods :: x.pods[node].terminated.Some?)
  }

  /** At most the newest execution is live. */
  ghost predicate OneLive(c: Controller) {
    forall k | 0 <= k < |c.execs| - 1 :: Quiet(c.execs[k])
  }

  /** The events end in a Begin event that made an execution, after which only the newest one is live. */
  ghost predicate BeginsAlone(cfg: Config, from: seq<Event>) {
    from != [] && from[|from| - 1].Begin? && Makes(cfg) && Run(cfg, from).Some? && OneLive(Run(cfg, from).value.ctl)
  }

  lemma StoreStaysQuiet(cfg: Config, ls: seq<Ledger>, s: State, e: Event)
    requires ProducerOk(s.producer, ls, s.ctl) && Enabled(cfg, s, e) && (e.Store? || e.Send? || e.Close?)
    requires OneLive(s.ctl)
    ensures OneLive(Apply(cfg, s, e).ctl)
  {
  }

  lemma WorkerStaysQuiet(cfg: Config, s: State, e: Event)
    requires Enabled(cfg, s, e) && (e.Receive? || e.CreatePod? || e.Start? || e.Finish? || e.Exit?)
    requires OneLive(s.ctl)
    ensures OneLive(Apply(cfg, s, e).ctl)
    ensures e.Exit? || e.k == |s.ctl.execs| - 1
  {
  }

  lemma EnvironmentStaysQuiet(cfg: Config, s: State, e: Event)
    requires Enabled(cfg, s, e) && (e.Terminate? || e.PostResult?)
    requires OneLive(s.ctl)
    ensures OneLive(Apply(cfg, s, e).ctl)
    ensures Credits(s.ctl, e).Some? ==> Credits(s.ctl, e).value == |s.ctl.execs| - 1
  {
  }

  /** Quiet executions stay quiet and no step bumps the counter on their behalf. */
  lemma StepStaysQuiet(cfg: Config, ls: seq<Ledger>, s: State, e: Event)
    requires ProducerOk(s.producer, ls, s.ctl) && Enabled(cfg, s, e) && !e.Begin? && OneLive(s.ctl)
    ensures OneLive(Apply(cfg, s, e).ctl)
    ensures Credits(s.ctl, e).Some? ==> Credits(s.ctl, e).value == |s.ctl.execs| - 1
  {
    if e.Store? || e.Send? || e.Close? {
      StoreStaysQuiet(cfg, ls, s, e);
    } else if e.Receive? || e.CreatePod? || e.Start? || e.Finish? || e.Exit? {
      WorkerStaysQuiet(cfg, s, e);
    } else if e.Terminate? || e.PostResult? {
      EnvironmentStaysQuiet(cfg, s, e);
    }
  }

  /** With one live execution at the last reset, every bump since then is its own. */
  lemma {:induction false} AloneSinceBegin(cfg: Config, from: seq<Event>, more: seq<Event>)
    requires BeginsAlone(cfg, from)
    requires Run(cfg, from + more).Some? && forall e | e in more :: !e.Begin?
    ensures OneLive(Run(cfg, from + more).value.ctl)
    ensures Foreign(cfg, from + more) == 0
  {
    if more == [] {
      assert from + more == from;
    } else {
      var front, s := LastStep(cfg, from, more);
      var e := more[|more| - 1];
      AloneSinceBegin(cfg, from, more[..|more| - 1]);
      AloneAfterStep(cfg, front, s, e);
    }
  }

  lemma AloneAfterStep(cfg: Config, evs: seq<Event>, s: State, e: Event)
    requires Run(cfg, evs) == Some(s) && Enabled(cfg, s, e) && !e.Begin?
    requires OneLive(s.ctl) && Foreign(cfg, evs) == 0
    ensures OneLive(Apply(cfg, s, e).ctl) && Foreign(cfg, evs + [e]) == 0
  {
    Extend(cfg, evs, Ledgers(cfg, evs), s, e);
    ReachableProducer(cfg, evs, Ledgers(cfg, evs), s);
    StepStaysQuiet(cfg, Ledgers(cfg, evs), s, e);
    ForeignSnoc(cfg, evs, e);
    assert ForeignBump(s.ctl, e) == 0;
  }

  lemma ForeignSnoc(cfg: Config, evs: seq<Event>, e: Event)
    requires Run(cfg, evs + [e]).Some?
    ensures Run(cfg, evs).Some?
    ensures Foreign(cfg, evs + [e])
         == if e.Begin? && Makes(cfg) then 0 else Foreign(cfg, evs) + ForeignBump(Run(cfg, evs).value.ctl, e)
  {
    assert (evs + [e])[..|evs|] == evs;
  }

  lemma ProgressWithoutForeign(cfg: Config, evs: seq<Event>, ls: seq<Ledger>, s: State, l: Ledger, x: Execution)
    requires Reaches(cfg, evs, ls, s) && Foreign(cfg, evs) == 0
    requires |ls| == |s.ctl.execs| > 0 && l == ls[|ls| - 1] && x == s.ctl.execs[|ls| - 1]
    ensures s.ctl.jobs == |l.nodes|
    ensures s.ctl.progress == |StartedPods(x)| + |TerminatedPods(x)| + |l.finished|
    ensures s.ctl.progress <= 3 * s.ctl.jobs
    ensures s.ctl.progress == 3 * s.ctl.jobs <==> |l.finished| == s.ctl.jobs
  {
    CounterLaw(cfg, evs, ls, s);
    JobsAreNodes(cfg, evs, ls, s);
    ReachableExecution(cfg, evs, ls, s, |ls| - 1);
    CountsBound(cfg.poolSize, l, x);
  }

  /**
   * With one live execution of N jobs: when all executions before the last Begin event were quiet, the counter is
   * the started plus terminated plus finished pods; it never exceeds 3N, and reaches 3N exactly when all N jobs are
   * finished.
   */
  lemma ProgressOfOneExecution(cfg: Config, from: seq<Event>, more: seq<Event>,
                               ls: seq<Ledger>, s: State, l: Ledger, x: Execution)
    requires Reaches(cfg, from + more, ls, s)
    requires BeginsAlone(cfg, from) && forall e | e in more :: !e.Begin?
    requires |ls| == |s.ctl.execs| > 0 && l == ls[|ls| - 1] && x == s.ctl.execs[|ls| - 1]
    ensures s.ctl.jobs == |l.nodes|
    ensures s.ctl.progress == |StartedPods(x)| + |TerminatedPods(x)| + |l.finished|
    ensures s.ctl.progress <= 3 * s.ctl.jobs
    ensures s.ctl.progress == 3 * s.ctl.jobs <==> |l.finished| == s.ctl.jobs
  {
    AloneSinceBegin(cfg, from, more);
    ProgressWithoutForeign(cfg, from + more, ls, s, l, x);
  }

  /** ... and then, and only then, the reported progress is 100 %. */
  lemma HundredPercentIff(cfg: Config, from: seq<Event>, more: seq<Event>,
                          ls: seq<Ledger>, s: State, l: Ledger, x: Execution)
    requires Reaches(cfg, from + more, ls, s) && s.ctl.jobs > 0
    requires BeginsAlone(cfg, from) && forall e | e in more :: !e.Begin?
    requires |ls| == |s.ctl.execs| > 0 && l == ls[|ls| - 1] && x == s.ctl.execs[|ls| - 1]
    ensures Percent(s.ctl.jobs, s.ctl.progress) <= 100.0
    ensures Percent(s.ctl.jobs, s.ctl.progress) == 100.0 <==> |l.finished| == |l.nodes|
  {
    ProgressOfOneExecution(cfg, from, more, ls, s, l, x);
    PercentBound(s.ctl.jobs, s.ctl.progress);
  }
}
