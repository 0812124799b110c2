/**
 * Which executions can still be completed: from which reachable states some continuation lets every worker leave,
 * closes the channel, or ends the wait of a worker, and runs in which it does not.
 */
module Completion {
  import opened Collections
  import MetricIndex
  import opened Protocol
  import opened Workers
  import opened ExecutionInvariant
  import opened SystemInvariant
  import opened EngineTheorems
  import opened Progress
  import opened Liveness
  import opened Persistence

  /** startPods has closed the channel of k, or works on it and its configuration lets it get to the close. */
  ghost predicate Closable(cfg: Config, s: State, k: nat) {
    k < |s.ctl.execs| && (s.ctl.execs[k].closed || (WorksOn(s, k) && MayClose(cfg, s.producer)))
  }

  /** The channel is closed or can be, and every end that is missing can be delivered. */
  ghost predicate Completable(cfg: Config, s: State, k: nat) {
    Closable(cfg, s, k) && (Unreferenced(s.ctl, k) ==> UnendedPods(s.ctl.execs[k]) == {})
  }

  /** The work for k becomes less, or a pruning round passes and it stays. */
  ghost predicate Nearer(s: State, t: State, k: nat) {
    && k < |s.ctl.execs| && k < |t.ctl.execs|
    && (Left(t, k) < Left(s, k) || (Left(t, k) == Left(s, k) && NamesLeft(t) < NamesLeft(s)))
  }

  // ---------------------------------------------------------------- one step towards completion

  lemma WorkerNext(cfg: Config, ls: seq<Ledger>, s: State, e: Event, k: nat)
    requires Inv(cfg, ls, s) && Enabled(cfg, s, e) && Completable(cfg, s, k) && OfWorker(e, k)
    ensures !Apply(cfg, s, e).panicked
    ensures Completable(cfg, Apply(cfg, s, e), k) && Nearer(s, Apply(cfg, s, e), k)
  {
    StepWeighs(cfg, ls, s, e, k);
    WorkerKeepsUnended(cfg, ls, s, e, k);
  }

  lemma WorkerKeepsUnended(cfg: Config, ls: seq<Ledger>, s: State, e: Event, k: nat)
    requires Inv(cfg, ls, s) && Enabled(cfg, s, e) && OfWorker(e, k)
    ensures var t := Apply(cfg, s, e);
            && t.producer == s.producer && t.ctl.current == s.ctl.current && |t.ctl.execs| == |s.ctl.execs|
            && t.ctl.execs[k].closed == s.ctl.execs[k].closed
            && UnendedPods(t.ctl.execs[k]) == UnendedPods(s.ctl.execs[k])
  {
    if e.Start? {
      StartHasPod(cfg, ls, s, e);
      var x := s.ctl.execs[k];
      SameEndPod(x, e.node, x.pods[e.node].(started := Some(e.t)));
    }
  }

  /** The end of the pod that worker w awaits. */
  function EndOf(x: Execution, w: nat): Event
    requires AwaitsAt(x, w)
  {
    Terminate(x.id, x.workers[w].node, true, 0, 0.0)
  }

  lemma ReferencedByItsID(s: State, k: nat)
    requires CurrentOk(s.ctl.current, s.ctl.execs) && k < |s.ctl.execs| && !Unreferenced(s.ctl, k)
    ensures ForID(s.ctl, s.ctl.execs[k].id) == Some(k)
  {
  }

  lemma EndNext(cfg: Config, ls: seq<Ledger>, s: State, k: nat, w: nat)
    requires Inv(cfg, ls, s) && !s.panicked && Completable(cfg, s, k) && AwaitsAt(s.ctl.execs[k], w)
    ensures var e := EndOf(s.ctl.execs[k], w);
            Enabled(cfg, s, e) && !Apply(cfg, s, e).panicked
            && Completable(cfg, Apply(cfg, s, e), k) && Nearer(s, Apply(cfg, s, e), k)
  {
    var x := s.ctl.execs[k];
    assert x.workers[w].node in UnendedPods(x);
    ReferencedByItsID(s, k);
    StepWeighs(cfg, ls, s, EndOf(x, w), k);
    PodTerminatedChanges(s.ctl, x.id, x.workers[w].node, true, 0, 0.0);
  }

  /** With idle workers, an empty channel and nothing left to send, every end is recorded. */
  lemma IdleMeansEnded(poolSize: int, l: Ledger, x: Execution)
    requires ExecInv(poolSize, l, x) && l.sent == l.nodes && x.queue == []
    requires forall w | 0 <= w < |x.workers| :: Rank(x.workers[w]) == 0
    ensures UnendedPods(x) == {}
  {
    IdleWorkers(x.workers);
    forall node | node in x.pods
      ensures x.pods[node].terminated.Some?
    {
      assert node in Elements(l.nodes);
      assert l.received == l.nodes;
      TimesMember(l.received, node);
      TimesMember(l.finished, node);
    }
  }

  lemma ProducerNext(cfg: Config, ls: seq<Ledger>, s: State, e: Event, k: nat)
    requires Inv(cfg, ls, s) && Enabled(cfg, s, e) && Advances(e)
    requires Completable(cfg, s, k) && WorksOn(s, k) && MayClose(cfg, s.producer)
    requires s.producer.Pruning? ==> UnendedPods(s.ctl.execs[k]) == {}
    ensures !Apply(cfg, s, e).panicked
    ensures Completable(cfg, Apply(cfg, s, e), k) && Nearer(s, Apply(cfg, s, e), k)
  {
    if e.PruneNext? || e.Close? {
      LoopNext(cfg, ls, s, e, k);
    } else {
      StepWeighs(cfg, ls, s, e, k);
      StaysReferenced(cfg, ls, s, e, k);
      AdvanceDoesNotPanic(cfg, ls, s, e);
    }
  }

  lemma AdvanceDoesNotPanic(cfg: Config, ls: seq<Ledger>, s: State, e: Event)
    requires ProducerOk(s.producer, ls, s.ctl) && Enabled(cfg, s, e) && Advances(e)
    ensures !Apply(cfg, s, e).panicked
  {
  }

  lemma LoopNext(cfg: Config, ls: seq<Ledger>, s: State, e: Event, k: nat)
    requires Inv(cfg, ls, s) && Enabled(cfg, s, e) && (e.PruneNext? || e.Close?)
    requires WorksOn(s, k) && MayClose(cfg, s.producer) && UnendedPods(s.ctl.execs[k]) == {}
    ensures !Apply(cfg, s, e).panicked
    ensures Completable(cfg, Apply(cfg, s, e), k) && Nearer(s, Apply(cfg, s, e), k)
  {
    AdvanceDoesNotPanic(cfg, ls, s, e);
    if e.PruneNext? {
      assert Left(Apply(cfg, s, e), k) == Left(s, k);
    } else {
      StepWeighs(cfg, ls, s, e, k);
      assert UnendedPods(Apply(cfg, s, e).ctl.execs[k]) == UnendedPods(s.ctl.execs[k]);
    }
  }

  lemma StaysReferenced(cfg: Config, ls: seq<Ledger>, s: State, e: Event, k: nat)
    requires ProducerOk(s.producer, ls, s.ctl) && Enabled(cfg, s, e) && WorksOn(s, k)
    requires e.Prepared? || e.Store? || e.Send? || (e.ListDir? && e.listing.Some?)
    ensures !Unreferenced(Apply(cfg, s, e).ctl, k) && WorksOn(Apply(cfg, s, e), k)
    ensures MayClose(cfg, s.producer) ==> MayClose(cfg, Apply(cfg, s, e).producer)
  {
    assert PointsAt(s.ctl, s.producer.id, k);
    assert s.producer.id in Apply(cfg, s, e).ctl.current;
  }

  lemma WorkerOrEnd(cfg: Config, ls: seq<Ledger>, s: State, k: nat, w: nat) returns (e: Event)
    requires Inv(cfg, ls, s) && !s.panicked && Completable(cfg, s, k) && CanStep(s.ctl.execs[k], w)
    ensures Enabled(cfg, s, e) && !Apply(cfg, s, e).panicked
    ensures Completable(cfg, Apply(cfg, s, e), k) && Nearer(s, Apply(cfg, s, e), k)
  {
    assert ExecInv(cfg.poolSize, ls[k], s.ctl.execs[k]);
    e := WorkerCanMove(cfg, s, k, w, ls[k]);
    if Enabled(cfg, s, e) {
      WorkerNext(cfg, ls, s, e, k);
    } else {
      e := EndOf(s.ctl.execs[k], w);
      EndNext(cfg, ls, s, k, w);
    }
  }

  lemma ProducerAlone(cfg: Config, ls: seq<Ledger>, s: State, k: nat) returns (e: Event)
    requires Inv(cfg, ls, s) && !s.panicked
    requires Completable(cfg, s, k) && !AllExited(s.ctl.execs[k])
    requires forall w: nat | w < |s.ctl.execs[k].workers| :: !CanStep(s.ctl.execs[k], w)
    ensures Enabled(cfg, s, e) && !Apply(cfg, s, e).panicked
    ensures Completable(cfg, Apply(cfg, s, e), k) && Nearer(s, Apply(cfg, s, e), k)
  {
    var x := s.ctl.execs[k];
    assert ExecInv(cfg.poolSize, ls[k], x);
    NoneCanStep(cfg.poolSize, ls[k], x);
    e := ProducerCanMove(cfg, s, ls, k);
    if s.producer.Pruning? {
      IdleMeansEnded(cfg.poolSize, ls[k], x);
    }
    ProducerNext(cfg, ls, s, e, k);
  }

  /** From a completable state that is not complete there is a step to a nearer completable state. */
  lemma NextStep(cfg: Config, ls: seq<Ledger>, s: State, k: nat) returns (e: Event)
    requires Inv(cfg, ls, s) && !s.panicked
    requires Completable(cfg, s, k) && !AllExited(s.ctl.execs[k])
    ensures Enabled(cfg, s, e) && !Apply(cfg, s, e).panicked
    ensures Completable(cfg, Apply(cfg, s, e), k) && Nearer(s, Apply(cfg, s, e), k)
  {
    if w: nat :| CanStep(s.ctl.execs[k], w) {
      e := WorkerOrEnd(cfg, ls, s, k, w);
    } else {
      e := ProducerAlone(cfg, ls, s, k);
    }
  }

  // ---------------------------------------------------------------- completion

  lemma StepTowards(cfg: Config, evs: seq<Event>, s: State, k: nat) returns (e: Event, s': State)
    requires Run(cfg, evs) == Some(s) && !s.panicked
    requires Completable(cfg, s, k) && !AllExited(s.ctl.execs[k])
    ensures Run(cfg, evs + [e]) == Some(s') && !s'.panicked && Completable(cfg, s', k) && Nearer(s, s', k)
  {
    Reachable(cfg, evs);
    e := NextStep(cfg, Ledgers(cfg, evs), s, k);
    Extend(cfg, evs, Ledgers(cfg, evs), s, e);
    s' := Apply(cfg, s, e);
  }

  lemma {:induction false} Complete(cfg: Config, evs: seq<Event>, s: State, k: nat) returns (more: seq<Event>, t: State)
    requires Run(cfg, evs) == Some(s) && !s.panicked && Completable(cfg, s, k)
    ensures Run(cfg, evs + more) == Some(t) && k < |t.ctl.execs| && AllExited(t.ctl.execs[k])
    decreases Left(s, k), NamesLeft(s)
  {
    if AllExited(s.ctl.execs[k]) {
      more, t := [], s;
      assert evs + more == evs;
    } else {
      var e, s' := StepTowards(cfg, evs, s, k);
      var rest: seq<Event>;
      rest, t := Complete(cfg, evs + [e], s', k);
      more := [e] + rest;
      ConcatAssociates(evs, [e], rest);
    }
  }

  /** Some continuation in which all workers of k have left. */
  ghost predicate CanExit(cfg: Config, evs: seq<Event>, k: nat) {
    exists more ::
      && Run(cfg, evs + more).Some?
      && k < |Run(cfg, evs + more).value.ctl.execs| && AllExited(Run(cfg, evs + more).value.ctl.execs[k])
  }

  ghost predicate CanClose(cfg: Config, evs: seq<Event>, k: nat) {
    exists more ::
      && Run(cfg, evs + more).Some?
      && k < |Run(cfg, evs + more).value.ctl.execs| && Run(cfg, evs + more).value.ctl.execs[k].closed
  }

  lemma ExitNeedsAllEnds(cfg: Config, evs: seq<Event>, s: State, more: seq<Event>, k: nat)
    requires Run(cfg, evs) == Some(s) && k < |s.ctl.execs| && Unreferenced(s.ctl, k)
    requires Run(cfg, evs + more).Some? && k < |Run(cfg, evs + more).value.ctl.execs|
    requires AllExited(Run(cfg, evs + more).value.ctl.execs[k])
    ensures UnendedPods(s.ctl.execs[k]) == {}
  {
    forall node | node in UnendedPods(s.ctl.execs[k])
      ensures false
    {
      UnendedForever(cfg, evs, more, k, node);
      var all := evs + more;
      var ls, t := Ledgers(cfg, all), Run(cfg, all).value;
      ReachableExecution(cfg, all, ls, t, k);
      assert node in Elements(ls[k].nodes);
      AllExitedMeansAllFinished(cfg, all, ls, t, k);
    }
  }

  // ---------------------------------------------------------------- what can no longer be closed

  lemma StepKeepsUnclosable(cfg: Config, ls: seq<Ledger>, s: State, e: Event, k: nat)
    requires ProducerOk(s.producer, ls, s.ctl) && Stamped(cfg, s.producer) && Enabled(cfg, s, e)
    requires k < |s.ctl.execs| && WorksOn(s, k) && !Closable(cfg, s, k) && OfProducer(e)
    ensures !Closable(cfg, Apply(cfg, s, e), k) && k < |Apply(cfg, s, e).ctl.execs|
  {
    if e.Store? || e.Send? {
      TemplatesSplit(cfg, s.producer.id, s.producer.todo);
    }
  }

  lemma TemplatesSplit(cfg: Config, id: string, todo: seq<string>)
    requires todo != []
    ensures TemplatesOk(cfg, id, todo) <==> cfg.template(todo[0], id) == Decodes && TemplatesOk(cfg, id, todo[1..])
  {
    assert todo == [todo[0]] + todo[1..];
  }

  lemma OtherStepKeepsUnclosable(cfg: Config, ls: seq<Ledger>, s: State, e: Event, k: nat)
    requires ProducerOk(s.producer, ls, s.ctl) && Enabled(cfg, s, e) && !OfProducer(e)
    requires k < |s.ctl.execs| && WorksOn(s, k) && !Closable(cfg, s, k)
    ensures !Closable(cfg, Apply(cfg, s, e), k) && k < |Apply(cfg, s, e).ctl.execs|
  {
  }

  lemma {:induction false} UnclosableForever(cfg: Config, evs: seq<Event>, more: seq<Event>, k: nat)
    requires Run(cfg, evs).Some? && Run(cfg, evs + more).Some? && k < |Run(cfg, evs).value.ctl.execs|
    requires !Closable(cfg, Run(cfg, evs).value, k)
    ensures k < |Run(cfg, evs + more).value.ctl.execs| && !Closable(cfg, Run(cfg, evs + more).value, k)
  {
    if more == [] {
      assert evs + more == evs;
    } else {
      var before, s := LastStep(cfg, evs, more);
      var e, ls := more[|more| - 1], Ledgers(cfg, before);
      UnclosableForever(cfg, evs, more[..|more| - 1], k);
      ReachableProducer(cfg, before, ls, s);
      if !WorksOn(s, k) {
        StepKeepsAbandoned(cfg, ls, s, e, k);
      } else if OfProducer(e) {
        StepKeepsUnclosable(cfg, ls, s, e, k);
      } else {
        OtherStepKeepsUnclosable(cfg, ls, s, e, k);
      }
    }
  }

  /**
   * In every reachable state without a panic, some continuation completes execution k, with every node finished and
   * every worker gone, if and only if its channel is closed or can be, and its ID leads to it or no end is missing.
   */
  lemma CompletesIff(cfg: Config, evs: seq<Event>, s: State, k: nat)
    requires Run(cfg, evs) == Some(s) && !s.panicked && k < |s.ctl.execs|
    ensures CanExit(cfg, evs, k) <==> Completable(cfg, s, k)
  {
    if Completable(cfg, s, k) {
      var more, t := Complete(cfg, evs, s, k);
    }
    if CanExit(cfg, evs, k) {
      var more :|
        && Run(cfg, evs + more).Some?
        && k < |Run(cfg, evs + more).value.ctl.execs| && AllExited(Run(cfg, evs + more).value.ctl.execs[k]);
      if !Closable(cfg, s, k) {
        UnclosableForever(cfg, evs, more, k);
      }
      if Unreferenced(s.ctl, k) {
        ExitNeedsAllEnds(cfg, evs, s, more, k);
      }
    }
  }

  /** Before startPods begins to prune, its execution can be completed if and only if its configuration allows it. */
  lemma WorkedOnCompletesIff(cfg: Config, evs: seq<Event>, s: State, k: nat)
    requires Run(cfg, evs) == Some(s) && !s.panicked && WorksOn(s, k) && !s.producer.Pruning?
    ensures CanExit(cfg, evs, k) <==> MayClose(cfg, s.producer)
  {
    ReachableProducer(cfg, evs, Ledgers(cfg, evs), s);
    assert PointsAt(s.ctl, s.producer.id, k);
    CompletesIff(cfg, evs, s, k);
  }

  /**
   * In every reachable state without a panic, some continuation closes channel k if and only if it is closed or
   * startPods works on it, its history is not below -1, the templates of all nodes it still has to create a pod for
   * decode, and the pool has a worker unless nothing is left to send.
   */
  lemma ClosesIff(cfg: Config, evs: seq<Event>, s: State, k: nat)
    requires Run(cfg, evs) == Some(s) && !s.panicked && k < |s.ctl.execs|
    ensures CanClose(cfg, evs, k) <==> Closable(cfg, s, k)
  {
    if CanClose(cfg, evs, k) {
      var more :|
        && Run(cfg, evs + more).Some?
        && k < |Run(cfg, evs + more).value.ctl.execs| && Run(cfg, evs + more).value.ctl.execs[k].closed;
      if !Closable(cfg, s, k) {
        UnclosableForever(cfg, evs, more, k);
      }
    }
    if s.ctl.execs[k].closed {
      assert evs + [] == evs;
    } else if Closable(cfg, s, k) {
      CloseWorkedOn(cfg, evs, s, k);
    }
  }

  lemma CloseWorkedOn(cfg: Config, evs: seq<Event>, s: State, k: nat)
    requires Run(cfg, evs) == Some(s) && !s.panicked && WorksOn(s, k) && MayClose(cfg, s.producer)
    ensures CanClose(cfg, evs, k)
  {
    ReachableProducer(cfg, evs, Ledgers(cfg, evs), s);
    if s.producer.Pruning? {
      var more := PruneAndClose(cfg, evs, s);
    } else {
      assert PointsAt(s.ctl, s.producer.id, k);
      var more, t := Complete(cfg, evs, s, k);
    }
  }

  lemma PruneAndClose(cfg: Config, evs: seq<Event>, s: State) returns (more: seq<Event>)
    requires Run(cfg, evs) == Some(s) && !s.panicked && s.producer.Pruning? && cfg.reportHistory >= -1
    ensures Run(cfg, evs + more).Some?
    ensures s.producer.k < |s.ctl.execs| && |Run(cfg, evs + more).value.ctl.execs| == |s.ctl.execs|
    ensures Run(cfg, evs + more).value.ctl.execs[s.producer.k].closed
  {
    ReachableProducer(cfg, evs, Ledgers(cfg, evs), s);
    var rest, t := PruneAllOfThem(cfg, evs, s);
    var all := evs + rest;
    ReachableProducer(cfg, all, Ledgers(cfg, all), t);
    Extend(cfg, all, Ledgers(cfg, all), t, Close(s.producer.k));
    more := rest + [Close(s.producer.k)];
    assert evs + more == all + [Close(s.producer.k)];
  }

  // ---------------------------------------------------------------- the wait of one worker

  /** The worker polls in every continuation. */
  ghost predicate PollsForever(cfg: Config, evs: seq<Event>, k: nat, w: nat, node: string) {
    forall more | Run(cfg, evs + more).Some? :: AtWorker(Run(cfg, evs + more).value, k, w, Polling(node))
  }

  /** A worker that waits for the end of its pod waits for ever if and only if no ID leads to its execution. */
  lemma PollsForeverIff(cfg: Config, evs: seq<Event>, s: State, k: nat, w: nat, node: string)
    requires Run(cfg, evs) == Some(s) && !s.panicked && PollsUnended(s, k, w, node)
    ensures PollsForever(cfg, evs, k, w, node) <==> Unreferenced(s.ctl, k)
  {
    if Unreferenced(s.ctl, k) {
      forall more | Run(cfg, evs + more).Some?
        ensures AtWorker(Run(cfg, evs + more).value, k, w, Polling(node))
      {
        OrphanPollsForever(cfg, evs, more, k, w, node);
      }
    } else {
      var more := EndWait(cfg, evs, s, k, w, node);
    }
  }

  lemma EndWait(cfg: Config, evs: seq<Event>, s: State, k: nat, w: nat, node: string) returns (more: seq<Event>)
    requires Run(cfg, evs) == Some(s) && !s.panicked && PollsUnended(s, k, w, node) && !Unreferenced(s.ctl, k)
    ensures Run(cfg, evs + more).Some? && AtWorker(Run(cfg, evs + more).value, k, w, Waiting)
  {
    ReachableProducer(cfg, evs, Ledgers(cfg, evs), s);
    ReferencedByItsID(s, k);
    TerminationUnblocks(cfg, s, k, w, true, 0, 0.0);
    var end, finish := EndOf(s.ctl.execs[k], w), Finish(k, w, node);
    var next, t := Then(cfg, evs, s, end);
    var last, u := Then(cfg, next, t, finish);
    more := [end] + [finish];
    ConcatAssociates(evs, [end], [finish]);
  }

  // ---------------------------------------------------------------- runs that leave workers behind

  /** A run that gives up right after NewExecution. */
  lemma AbandonedRun(cfg: Config) returns (evs: seq<Event>, s: State)
    requires Makes(cfg)
    ensures Run(cfg, evs) == Some(s) && !s.panicked && Abandoned(s, 0) && !CanClose(cfg, evs, 0)
  {
    s := Init(cfg);
    evs, s := Then(cfg, [], s, Tick);
    evs, s := Then(cfg, evs, s, Begin(STAMP, [], false, false));
    evs, s := Then(cfg, evs, s, PrepareFailed);
    ClosesIff(cfg, evs, s, 0);
  }

  /** One node is sent. */
  lemma SentRun(cfg: Config, node: string, id: string) returns (evs: seq<Event>, s: State)
    requires Makes(cfg) && cfg.poolSize > 0 && IsTimestamp(id) && cfg.template(node, id) == Decodes
    ensures Run(cfg, evs) == Some(s) && !s.panicked && s.producer == Adding(id, [])
    ensures s.ctl.current == map[id := 0] && s.ctl.dirs == cfg.dirs + {id, MetricIndex.LATEST}
    ensures s.ctl.nodes == {node} && s.ctl.prom == Init(cfg).ctl.prom.(pods := 1.0)
    ensures |s.ctl.execs| == 1 && s.ctl.execs[0].pods == map[node := NEW_POD] && s.ctl.execs[0].queue == [node]
    ensures AtWorker(s, 0, 0, Waiting)
  {
    evs, s := StoredRun(cfg, node, id);
    evs, s := Then(cfg, evs, s, Send(0, node));
  }

  /** One node is stored. */
  lemma StoredRun(cfg: Config, node: string, id: string) returns (evs: seq<Event>, s: State)
    requires Makes(cfg) && cfg.poolSize > 0 && IsTimestamp(id) && cfg.template(node, id) == Decodes
    ensures Run(cfg, evs) == Some(s) && !s.panicked && s.producer == Sending(id, 0, [node])
    ensures s.ctl.current == map[id := 0] && s.ctl.dirs == cfg.dirs + {id, MetricIndex.LATEST}
    ensures s.ctl.nodes == {node} && s.ctl.prom == Init(cfg).ctl.prom.(pods := 1.0)
    ensures |s.ctl.execs| == 1 && s.ctl.execs[0].pods == map[node := NEW_POD] && s.ctl.execs[0].queue == []
    ensures !s.ctl.execs[0].closed && AtWorker(s, 0, 0, Waiting)
  {
    UsableAlone(node, cfg.runOnUnscheduled);
    evs, s := PreparedRun(cfg, id, [ReadyNode(node)]);
    evs, s := Then(cfg, evs, s, Store(id, node));
  }

  /** The first worker polls for its end. */
  lemma PollingRun(cfg: Config, node: string) returns (evs: seq<Event>, s: State)
    requires Makes(cfg) && cfg.poolSize > 0 && cfg.template(node, STAMP) == Decodes
    ensures Run(cfg, evs) == Some(s) && !s.panicked && s.producer == Adding(STAMP, [])
    ensures s.ctl.current == map[STAMP := 0] && s.ctl.dirs == cfg.dirs + {STAMP, MetricIndex.LATEST}
    ensures |s.ctl.execs| == 1 && PollsUnended(s, 0, 0, node)
  {
    evs, s := SentRun(cfg, node, STAMP);
    evs, s := Then(cfg, evs, s, Receive(0, 0, node));
    evs, s := Then(cfg, evs, s, CreatePod(0, 0, node));
    evs, s := Then(cfg, evs, s, Start(0, 0, node, 0));
  }

  /** For every pool size: the ID of a run that could not list the directory is issued again while its worker polls. */
  lemma OrphanRun(cfg: Config, node: string) returns (evs: seq<Event>, s: State)
    requires Makes(cfg) && cfg.poolSize > 0 && cfg.template(node, STAMP) == Decodes
    ensures Run(cfg, evs) == Some(s) && !s.panicked
    ensures Unreferenced(s.ctl, 0) && PollsUnended(s, 0, 0, node) && PollsForever(cfg, evs, 0, 0, node)
  {
    evs, s := PollingRun(cfg, node);
    evs, s := Then(cfg, evs, s, ListDir(None));
    evs, s := Then(cfg, evs, s, Tick);
    evs, s := Then(cfg, evs, s, Begin(STAMP, [], false, false));
    PollsForeverIff(cfg, evs, s, 0, 0, node);
  }

  /**
   * Whenever the report directory is longer than the history allows, a run that finds its own entry to be the oldest
   * prunes itself, closes its channel, and leaves its worker polling for ever.
   */
  lemma PrunedOrphanRun(cfg: Config, node: string) returns (evs: seq<Event>, s: State)
    requires Makes(cfg) && cfg.poolSize > 0 && cfg.template(node, STAMP) == Decodes && cfg.reportHistory >= -1
    requires |cfg.dirs + {STAMP, MetricIndex.LATEST}| > cfg.reportHistory + 1
    ensures Run(cfg, evs) == Some(s) && !s.panicked && s.producer == Idle
    ensures PollsUnended(s, 0, 0, node) && s.ctl.execs[0].closed && PollsForever(cfg, evs, 0, 0, node)
  {
    evs, s := PollingRun(cfg, node);
    var files := ListingFrom(s.ctl.dirs, STAMP);
    evs, s := PruneItself(cfg, evs, s, files, node);
    evs, s := Then(cfg, evs, s, Close(0));
    PollsForeverIff(cfg, evs, s, 0, 0, node);
  }

  lemma PruneItself(cfg: Config, evs: seq<Event>, s: State, files: seq<Entry>, node: string)
    returns (evs': seq<Event>, s': State)
    requires Run(cfg, evs) == Some(s) && !s.panicked && s.producer == Adding(STAMP, []) && cfg.reportHistory >= -1
    requires s.ctl.current == map[STAMP := 0] && |s.ctl.execs| == 1 && PollsUnended(s, 0, 0, node)
    requires IsListing(files, s.ctl.dirs) && STAMP in Expired(files, cfg.reportHistory)
    ensures Run(cfg, evs') == Some(s') && !s'.panicked && s'.producer == Pruning(0, [], false)
    ensures s'.ctl.current == map[] && s'.ctl.execs == s.ctl.execs && !s'.ctl.execs[0].closed
  {
    var t: State;
    evs', t := Then(cfg, evs, s, ListDir(Some(files)));
    var more;
    more, s' := PruneAllOfThem(cfg, evs', t);
    evs' := evs' + more;
    ReachableProducer(cfg, evs', Ledgers(cfg, evs'), s');
  }
}
