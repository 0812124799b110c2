/** Progress of an execution: no deadlock, a bound on the work, and the two ways in which workers are left behind. */
module Liveness {
  import opened Collections
  import opened Protocol
  import opened Workers
  import opened ExecutionInvariant
  import opened SystemInvariant
  import opened Progress
  import opened EngineTheorems

  predicate OfWorker(e: Event, k: nat) {
    (e.Receive? || e.CreatePod? || e.Start? || e.Finish? || e.Exit?) && e.k == k
  }

  predicate OfProducer(e: Event) {
    Unhindered(e) || e.PrepareFailed? || e.ListDir? || e.Vanished?
  }

  /** The steps of startPods in which nothing outside it fails; its own configuration may make it fail or panic. */
  predicate Unhindered(e: Event) {
    Advances(e) || e.TemplateFailed? || e.TemplatePanics? || e.IndexPast?
  }

  predicate Panics(e: Event) {
    e.TemplatePanics? || e.IndexPast? || e.Vanished?
  }

  /** The steps of startPods in which nothing fails. */
  predicate Advances(e: Event) {
    e.Prepared? || e.Store? || e.Send? || (e.ListDir? && e.listing.Some?) || e.PruneNext? || e.Close?
  }

  predicate Busied(p: Producer) {
    p.Preparing? || p.Adding? || p.Sending? || p.Pruning?
  }

  /** startPods is working on execution k. */
  predicate WorksOn(s: State, k: nat) {
    k + 1 == |s.ctl.execs| && Busied(s.producer)
  }

  predicate AllExited(x: Execution) {
    x.closed && x.queue == [] && forall w | 0 <= w < |x.workers| :: x.workers[w] == Exited
  }

  predicate Unended(x: Execution, node: string) {
    node in x.pods && x.pods[node].terminated.None?
  }

  /** The worker polls a pod whose end nobody has recorded. */
  predicate AwaitsAt(x: Execution, w: nat) {
    w < |x.workers| && x.workers[w].Polling? && Unended(x, x.workers[w].node)
  }

  ghost predicate Awaits(x: Execution) {
    exists w: nat :: AwaitsAt(x, w)
  }

  /** A worker of k can take a step, or startPods on behalf of k one in which nothing outside it fails. */
  ghost predicate CanMove(cfg: Config, s: State, k: nat) {
    exists e :: Enabled(cfg, s, e) && (OfWorker(e, k) || (Unhindered(e) && WorksOn(s, k)))
  }

  /** startPods waits for room in a channel without any. */
  predicate NoRoom(cfg: Config, s: State) {
    cfg.poolSize == 0 && s.producer.Sending?
  }

  /** With its configuration, startPods gets from here to the close unless something outside it fails. */
  ghost predicate MayClose(cfg: Config, p: Producer) {
    && cfg.reportHistory >= -1
    && match p
       case Preparing(id, todo) => TemplatesOk(cfg, id, todo) && (cfg.poolSize > 0 || todo == [])
       case Adding(id, todo) => TemplatesOk(cfg, id, todo) && (cfg.poolSize > 0 || todo == [])
       case Sending(id, _, todo) => cfg.poolSize > 0 && todo != [] && TemplatesOk(cfg, id, todo[1..])
       case Pruning(_, _, _) => true
       case _ => false
  }

  // ---------------------------------------------------------------- no deadlock

  lemma WorkerCanMove(cfg: Config, s: State, k: nat, w: nat, l: Ledger) returns (e: Event)
    requires !s.panicked && k < |s.ctl.execs| && w < |s.ctl.execs[k].workers|
    requires ExecInv(cfg.poolSize, l, s.ctl.execs[k])
    requires var x := s.ctl.execs[k];
             x.workers[w] != Exited && (x.workers[w] == Waiting ==> x.queue != [] || x.closed)
    ensures OfWorker(e, k) && (Enabled(cfg, s, e) || AwaitsAt(s.ctl.execs[k], w))
  {
    var x := s.ctl.execs[k];
    match x.workers[w]
    case Waiting => e := if x.queue != [] then Receive(k, w, x.queue[0]) else Exit(k, w);
    case Holding(node) => e := CreatePod(k, w, node);
    case Creating(node) => e := Start(k, w, node, 0);
    case Polling(node) =>
      BusyWorkersJob(cfg.poolSize, l, x, w);
      e := Finish(k, w, node);
    case Dead => assert false;
  }

  lemma ProducerCanMove(cfg: Config, s: State, ls: seq<Ledger>, k: nat) returns (e: Event)
    requires !s.panicked && WorksOn(s, k) && ProducerOk(s.producer, ls, s.ctl) && Stamped(cfg, s.producer)
    requires s.ctl.execs[k].queue == [] && cfg.poolSize >= 0 && !NoRoom(cfg, s)
    ensures Enabled(cfg, s, e) && Unhindered(e)
    ensures MayClose(cfg, s.producer) ==> Advances(e)
  {
    match s.producer
    case Preparing(_, _) => e := Prepared;
    case Adding(id, todo) =>
      if todo == [] {
        var files := ListingExists(s.ctl.dirs);
        e := ListDir(Some(files));
      } else {
        e := match cfg.template(todo[0], id)
             case Fails => TemplateFailed
             case NullLabels => TemplatePanics
             case Decodes => Store(id, todo[0]);
        assert todo[0] in todo;
      }
    case Sending(_, i, todo) => e := Send(i, todo[0]);
    case Pruning(i, names, beyond) =>
      e := if names != [] then PruneNext(names[0], true) else if beyond then IndexPast(i) else Close(i);
  }

  /**
   * No deadlock: while startPods works on an execution, and after it closed its channel, either all workers have
   * left, or the producer or a worker can take a step, or a created pod awaits its end, or the pool has no worker.
   */
  lemma NoDeadlock(cfg: Config, evs: seq<Event>, ls: seq<Ledger>, s: State, k: nat)
    requires Reaches(cfg, evs, ls, s) && !s.panicked
    requires k < |s.ctl.execs| && (s.ctl.execs[k].closed || WorksOn(s, k))
    ensures AllExited(s.ctl.execs[k]) || CanMove(cfg, s, k) || Awaits(s.ctl.execs[k])
            || (WorksOn(s, k) && NoRoom(cfg, s))
  {
    ReachableExecution(cfg, evs, ls, s, k);
    ReachableProducer(cfg, evs, ls, s);
    var x := s.ctl.execs[k];
    if w: nat :| CanStep(x, w) {
      var e := WorkerCanMove(cfg, s, k, w, ls[k]);
    } else if !AllExited(x) {
      NoneCanStep(cfg.poolSize, ls[k], x);
      if !NoRoom(cfg, s) {
        var e := ProducerCanMove(cfg, s, ls, k);
      }
    }
  }

  predicate CanStep(x: Execution, w: nat) {
    w < |x.workers| && x.workers[w] != Exited && (x.workers[w] == Waiting ==> x.queue != [] || x.closed)
  }

  lemma NoneCanStep(poolSize: int, l: Ledger, x: Execution)
    requires ExecInv(poolSize, l, x) && !AllExited(x)
    requires forall w: nat | w < |x.workers| :: !CanStep(x, w)
    ensures !x.closed && x.queue == [] && forall w | 0 <= w < |x.workers| :: Rank(x.workers[w]) == 0
  {
    if poolSize > 0 {
      assert !CanStep(x, 0);
      if x.closed {
        assert x.workers[0] == Exited;
      }
    }
    forall w: nat | w < |x.workers|
      ensures x.workers[w] == Exited || (x.workers[w] == Waiting && !x.closed)
    {
      assert !CanStep(x, w);
    }
  }

  lemma StepKeepsNoRoom(cfg: Config, ls: seq<Ledger>, s: State, e: Event)
    requires ProducerOk(s.producer, ls, s.ctl) && Enabled(cfg, s, e) && NoRoom(cfg, s)
    ensures Apply(cfg, s, e).producer == s.producer
  {
  }

  /** With no worker in the pool, the first send blocks for ever, and startPods with it. */
  lemma {:induction false} BlocksForever(cfg: Config, evs: seq<Event>, more: seq<Event>)
    requires Run(cfg, evs).Some? && NoRoom(cfg, Run(cfg, evs).value) && Run(cfg, evs + more).Some?
    ensures Run(cfg, evs + more).value.producer == Run(cfg, evs).value.producer
  {
    if more == [] {
      assert evs + more == evs;
    } else {
      var before, s := LastStep(cfg, evs, more);
      BlocksForever(cfg, evs, more[..|more| - 1]);
      ReachableProducer(cfg, before, Ledgers(cfg, before), s);
      StepKeepsNoRoom(cfg, Ledgers(cfg, before), s, more[|more| - 1]);
    }
  }

  /** When the ends of all pods of a closed execution are recorded, its workers can step until the last has left. */
  lemma AllEndedMeansWorkersMove(cfg: Config, evs: seq<Event>, ls: seq<Ledger>, s: State, k: nat)
    requires Reaches(cfg, evs, ls, s) && !s.panicked
    requires k < |s.ctl.execs| && s.ctl.execs[k].closed && UnendedPods(s.ctl.execs[k]) == {}
    ensures AllExited(s.ctl.execs[k]) || exists e :: OfWorker(e, k) && Enabled(cfg, s, e)
  {
    ReachableExecution(cfg, evs, ls, s, k);
    var x := s.ctl.execs[k];
    if w :| 0 <= w < |x.workers| && x.workers[w] != Exited {
      var e := WorkerCanMove(cfg, s, k, w, ls[k]);
      if AwaitsAt(x, w) {
        assert x.workers[w].node in UnendedPods(x);
      }
    } else if |x.workers| > 0 {
      assert x.workers[0] == Exited;
    }
  }

  /** When all workers have left, every node of the run has been sent, received and finished. */
  lemma AllExitedMeansAllFinished(cfg: Config, evs: seq<Event>, ls: seq<Ledger>, s: State, k: nat)
    requires Reaches(cfg, evs, ls, s) && k < |s.ctl.execs| && k < |ls| && AllExited(s.ctl.execs[k])
    ensures ls[k].received == ls[k].nodes && |ls[k].finished| == |ls[k].nodes|
    ensures forall node | node in ls[k].nodes :: node in ls[k].finished && !Unended(s.ctl.execs[k], node)
  {
    ReachableExecution(cfg, evs, ls, s, k);
    var l, x := ls[k], s.ctl.execs[k];
    IdleWorkers(x.workers);
    forall node | node in l.nodes
      ensures node in l.finished
    {
      TimesMember(l.received, node);
      TimesMember(l.finished, node);
    }
  }

  /** Delivering the end of the awaited pod lets its worker finish, as long as the execution is the current one. */
  lemma TerminationUnblocks(cfg: Config, s: State, k: nat, w: nat, succeeded: bool, t: nat, d: real)
    requires !s.panicked && k < |s.ctl.execs| && w < |s.ctl.execs[k].workers|
    requires var x := s.ctl.execs[k];
             x.workers[w].Polling? && Unended(x, x.workers[w].node) && ForID(s.ctl, x.id) == Some(k)
    ensures var x := s.ctl.execs[k];
            var e := Terminate(x.id, x.workers[w].node, succeeded, t, d);
            Enabled(cfg, Apply(cfg, s, e), Finish(k, w, x.workers[w].node))
  {
  }

  // ---------------------------------------------------------------- a measure

  function WorkerWeight(w: Worker): nat {
    match w
    case Waiting => 1
    case Holding(_) => 4
    case Creating(_) => 3
    case Polling(_) => 2
    case Exited => 0
    case Dead => 0
  }

  function Weights(ws: seq<Worker>): nat {
    if ws == [] then 0 else Weights(ws[..|ws| - 1]) + WorkerWeight(ws[|ws| - 1])
  }

  lemma {:induction false} WeightsUpdate(ws: seq<Worker>, i: nat, to: Worker)
    requires i < |ws|
    ensures Weights(ws[i := to]) == Weights(ws) - WorkerWeight(ws[i]) + WorkerWeight(to)
  {
    var n := |ws| - 1;
    if i == n {
      assert ws[i := to][..n] == ws[..n];
    } else {
      assert ws[i := to][..n] == ws[..n][i := to];
      WeightsUpdate(ws[..n], i, to);
    }
  }

  lemma {:induction false} WeightsOfWaiting(ws: seq<Worker>)
    requires forall i | 0 <= i < |ws| :: ws[i] == Waiting
    ensures Weights(ws) == |ws|
  {
    if ws != [] {
      WeightsOfWaiting(ws[..|ws| - 1]);
    }
  }

  ghost function UnendedPods(x: Execution): set<string> {
    set node | node in x.pods && x.pods[node].terminated.None?
  }

  ghost function UnreportedPods(x: Execution): set<string> {
    set node | node in x.pods && x.pods[node].reported.None?
  }

  function ProducerWeight(p: Producer): nat {
    match p
    case Preparing(_, todo) => 8 * |todo| + 3
    case Adding(_, todo) => 8 * |todo| + 2
    case Sending(_, _, todo) => if todo == [] then 0 else 8 * |todo| - 1
    case Pruning(_, _, _) => 1
    case _ => 0
  }

  function NamesLeft(s: State): nat {
    if s.producer.Pruning? then |s.producer.names| else 0
  }

  ghost function ExecutionWeight(x: Execution): nat {
    4 * |x.queue| + Weights(x.workers) + |UnendedPods(x)| + |UnreportedPods(x)|
  }

  /** What is left to do for execution k, in steps of any kind. */
  ghost function Left(s: State, k: nat): nat
    requires k < |s.ctl.execs|
  {
    (if k + 1 == |s.ctl.execs| then ProducerWeight(s.producer) else 0) + ExecutionWeight(s.ctl.execs[k])
  }

  /** The first report of a pod of execution k. */
  predicate FirstReport(c: Controller, e: Event, k: nat) {
    && e.PostResult? && ForID(c, e.id) == Some(k)
    && e.node in c.execs[k].pods && c.execs[k].pods[e.node].reported.None?
  }

  /**
   * Steps that do work for k: all but idle polls, repeated callbacks, uploads, pruning rounds, and the panic that can
   * only be the last step of a run.
   */
  predicate WorkFor(s: State, e: Event, k: nat) {
    || OfWorker(e, k)
    || (k + 1 == |s.ctl.execs| && OfProducer(e) && !e.PruneNext? && !Panics(e))
    || (e.Terminate? && Credits(s.ctl, e) == Some(k))
    || FirstReport(s.ctl, e, k)
  }

  lemma EndedPod(x: Execution, node: string, p: Pod)
    requires node in x.pods && x.pods[node].terminated.None? && p.terminated.Some?
    ensures |UnendedPods(x.(pods := x.pods[node := p]))| == |UnendedPods(x)| - 1
  {
    assert UnendedPods(x.(pods := x.pods[node := p])) == UnendedPods(x) - {node};
  }

  lemma SameEndPod(x: Execution, node: string, p: Pod)
    requires node in x.pods && p.terminated == x.pods[node].terminated
    ensures UnendedPods(x.(pods := x.pods[node := p])) == UnendedPods(x)
  {
  }

  lemma ReportedPod(x: Execution, node: string, p: Pod)
    requires node in x.pods && x.pods[node].reported.None? && p.reported.Some?
    ensures |UnreportedPods(x.(pods := x.pods[node := p]))| == |UnreportedPods(x)| - 1
  {
    assert UnreportedPods(x.(pods := x.pods[node := p])) == UnreportedPods(x) - {node};
  }

  lemma SameReportPod(x: Execution, node: string, p: Pod)
    requires node in x.pods && (p.reported.None? <==> x.pods[node].reported.None?)
    ensures UnreportedPods(x.(pods := x.pods[node := p])) == UnreportedPods(x)
  {
  }

  lemma NewPod(x: Execution, node: string)
    requires node !in x.pods
    ensures |UnendedPods(x.(pods := x.pods[node := NEW_POD]))| == |UnendedPods(x)| + 1
    ensures |UnreportedPods(x.(pods := x.pods[node := NEW_POD]))| == |UnreportedPods(x)| + 1
  {
    assert UnendedPods(x.(pods := x.pods[node := NEW_POD])) == UnendedPods(x) + {node};
    assert UnreportedPods(x.(pods := x.pods[node := NEW_POD])) == UnreportedPods(x) + {node};
  }

  ghost predicate Weighs(s: State, e: Event, s': State, k: nat)
    requires k < |s.ctl.execs|
  {
    k < |s'.ctl.execs| && Left(s', k) <= Left(s, k) - if WorkFor(s, e, k) then 1 else 0
  }

  lemma WorkerStepWeighs(cfg: Config, s: State, e: Event, k: nat)
    requires Enabled(cfg, s, e) && OfWorker(e, k)
    requires e.Start? ==> e.node in s.ctl.execs[k].pods
    ensures var s' := Apply(cfg, s, e);
            && |s'.ctl.execs| == |s.ctl.execs| && s'.producer == s.producer
            && (forall i | 0 <= i < |s.ctl.execs| && i != k :: s'.ctl.execs[i] == s.ctl.execs[i])
            && ExecutionWeight(s'.ctl.execs[k]) < ExecutionWeight(s.ctl.execs[k])
  {
    var x := s.ctl.execs[k];
    var y := Apply(cfg, s, e).ctl.execs[k];
    if e.Start? {
      SameEndPod(x, e.node, x.pods[e.node].(started := Some(e.t)));
      SameReportPod(x, e.node, x.pods[e.node].(started := Some(e.t)));
    }
    assert UnendedPods(y) == UnendedPods(x) && UnreportedPods(y) == UnreportedPods(x);
    WeightsUpdate(x.workers, e.w, y.workers[e.w]);
  }

  lemma ProducerFlowWeighs(cfg: Config, s: State, e: Event)
    requires Enabled(cfg, s, e)
    requires e.Prepared? || e.PrepareFailed? || e.TemplateFailed? || e.ListDir?
    ensures var s' := Apply(cfg, s, e);
            s'.ctl == s.ctl && ProducerWeight(s'.producer) < ProducerWeight(s.producer)
  {
  }

  lemma CloseWeighs(cfg: Config, s: State, e: Event)
    requires Enabled(cfg, s, e) && e.Close? && !s.ctl.execs[e.k].closed
    ensures var s' := Apply(cfg, s, e);
            && |s'.ctl.execs| == |s.ctl.execs| && ProducerWeight(s'.producer) < ProducerWeight(s.producer)
            && forall k | 0 <= k < |s.ctl.execs| ::
                 ExecutionWeight(s'.ctl.execs[k]) == ExecutionWeight(s.ctl.execs[k])
  {
    assert UnendedPods(Apply(cfg, s, e).ctl.execs[e.k]) == UnendedPods(s.ctl.execs[e.k]);
    assert UnreportedPods(Apply(cfg, s, e).ctl.execs[e.k]) == UnreportedPods(s.ctl.execs[e.k]);
  }

  lemma StoreWeighs(cfg: Config, s: State, e: Event, k: nat)
    requires Enabled(cfg, s, e) && e.Store?
    requires ForID(s.ctl, e.id) == Some(k) && k + 1 == |s.ctl.execs| && e.node !in s.ctl.execs[k].pods
    ensures var s' := Apply(cfg, s, e);
            && |s'.ctl.execs| == |s.ctl.execs|
            && (forall i | 0 <= i < k :: s'.ctl.execs[i] == s.ctl.execs[i])
            && Left(s', k) < Left(s, k)
  {
    NewPod(s.ctl.execs[k], e.node);
  }

  lemma SendWeighs(cfg: Config, s: State, e: Event, k: nat)
    requires Enabled(cfg, s, e) && e.Send? && !s.ctl.execs[e.k].closed
    requires e.k == k && k + 1 == |s.ctl.execs|
    ensures var s' := Apply(cfg, s, e);
            && |s'.ctl.execs| == |s.ctl.execs|
            && (forall i | 0 <= i < k :: s'.ctl.execs[i] == s.ctl.execs[i])
            && Left(s', k) < Left(s, k)
  {
    assert UnendedPods(Apply(cfg, s, e).ctl.execs[k]) == UnendedPods(s.ctl.execs[k]);
    assert UnreportedPods(Apply(cfg, s, e).ctl.execs[k]) == UnreportedPods(s.ctl.execs[k]);
  }

  /** The producer's next node is new to the execution it works on. */
  lemma StoreIsNew(cfg: Config, ls: seq<Ledger>, s: State, e: Event)
    requires Inv(cfg, ls, s) && Enabled(cfg, s, e) && e.Store?
    ensures |ls| == |s.ctl.execs| > 0
    ensures ForID(s.ctl, e.id) == Some(|ls| - 1) && e.node !in s.ctl.execs[|ls| - 1].pods
  {
    var k := |ls| - 1;
    assert ExecInv(cfg.poolSize, ls[k], s.ctl.execs[k]);
    NextIsNew(cfg.poolSize, ls[k], s.ctl.execs[k], s.producer.todo);
  }

  /** A step that works for the last execution only and makes it lighter. */
  lemma LastWeighs(s: State, e: Event, t: State, k: nat)
    requires |t.ctl.execs| == |s.ctl.execs| > 0 && k < |s.ctl.execs|
    requires forall i | 0 <= i < |s.ctl.execs| - 1 :: t.ctl.execs[i] == s.ctl.execs[i] && !WorkFor(s, e, i)
    requires Left(t, |s.ctl.execs| - 1) < Left(s, |s.ctl.execs| - 1)
    ensures Weighs(s, e, t, k)
  {
  }

  lemma StoreWeighsForAll(cfg: Config, ls: seq<Ledger>, s: State, e: Event, k: nat)
    requires Inv(cfg, ls, s) && Enabled(cfg, s, e) && e.Store? && k < |s.ctl.execs|
    ensures Weighs(s, e, Apply(cfg, s, e), k)
  {
    StoreIsNew(cfg, ls, s, e);
    StoreWeighs(cfg, s, e, |ls| - 1);
    LastWeighs(s, e, Apply(cfg, s, e), k);
  }

  lemma ReportWeighs(x: Execution, node: string, p: Pod)
    requires node in x.pods && p.terminated == x.pods[node].terminated && p.reported.Some?
    ensures ExecutionWeight(x.(pods := x.pods[node := p]))
         == ExecutionWeight(x) - if x.pods[node].reported.None? then 1 else 0
  {
    SameEndPod(x, node, p);
    if x.pods[node].reported.None? {
      ReportedPod(x, node, p);
    } else {
      SameReportPod(x, node, p);
    }
  }

  lemma EndWeighs(x: Execution, node: string, p: Pod)
    requires node in x.pods && x.pods[node].terminated.None? && p.terminated.Some?
    requires p.reported == x.pods[node].reported
    ensures ExecutionWeight(x.(pods := x.pods[node := p])) == ExecutionWeight(x) - 1
  {
    EndedPod(x, node, p);
    SameReportPod(x, node, p);
  }

  lemma TerminateWeighs(cfg: Config, s: State, e: Event, k: nat)
    requires Enabled(cfg, s, e) && k < |s.ctl.execs| && e.Terminate?
    ensures Weighs(s, e, Apply(cfg, s, e), k)
  {
    PodTerminatedChanges(s.ctl, e.id, e.node, e.succeeded, e.t, e.duration);
    if ForID(s.ctl, e.id) == Some(k) {
      var x := s.ctl.execs[k];
      if e.node in x.pods && x.pods[e.node].terminated.None? {
        EndWeighs(x, e.node, x.pods[e.node].(terminated := Some(e.t)));
      }
    }
  }

  lemma PostResultWeighs(cfg: Config, s: State, e: Event, k: nat)
    requires Enabled(cfg, s, e) && k < |s.ctl.execs| && e.PostResult?
    ensures Weighs(s, e, Apply(cfg, s, e), k)
  {
    ReportReceivedChanges(MakeReportDir(s.ctl, e.id), e.id, e.node, e.failed, e.t, e.results);
    if ForID(s.ctl, e.id) == Some(k) {
      var x := s.ctl.execs[k];
      if e.node in x.pods {
        ReportWeighs(x, e.node, x.pods[e.node].(reported := Some(e.t)));
      }
    }
  }

  lemma QuietWeighs(cfg: Config, s: State, e: Event, k: nat)
    requires Enabled(cfg, s, e) && k < |s.ctl.execs|
    requires e.Tick? || e.ListFailed? || e.PruneNext? || Panics(e) || e.SaveFile?
    ensures Weighs(s, e, Apply(cfg, s, e), k)
  {
  }

  lemma BeginWeighsForOthers(cfg: Config, s: State, e: Event, k: nat)
    requires Enabled(cfg, s, e) && k < |s.ctl.execs| && e.Begin?
    ensures Weighs(s, e, Apply(cfg, s, e), k)
  {
  }

  lemma StartHasPod(cfg: Config, ls: seq<Ledger>, s: State, e: Event)
    requires Inv(cfg, ls, s) && Enabled(cfg, s, e) && e.Start?
    ensures e.node in s.ctl.execs[e.k].pods
  {
    StartKeeps(cfg.poolSize, ls[e.k], s.ctl.execs[e.k], e.w, e.node, e.t);
  }

  lemma WorkerWeighs(cfg: Config, s: State, e: Event, k: nat)
    requires Enabled(cfg, s, e) && k < |s.ctl.execs|
    requires e.Receive? || e.CreatePod? || e.Start? || e.Finish? || e.Exit?
    requires e.Start? ==> e.node in s.ctl.execs[e.k].pods
    ensures Weighs(s, e, Apply(cfg, s, e), k)
  {
    WorkerStepWeighs(cfg, s, e, e.k);
  }

  lemma SendWeighsForAll(cfg: Config, ls: seq<Ledger>, s: State, e: Event, k: nat)
    requires ProducerOk(s.producer, ls, s.ctl) && Enabled(cfg, s, e) && e.Send? && k < |s.ctl.execs|
    ensures Weighs(s, e, Apply(cfg, s, e), k)
  {
    SendWeighs(cfg, s, e, |ls| - 1);
    LastWeighs(s, e, Apply(cfg, s, e), k);
  }

  lemma CloseWeighsForAll(cfg: Config, ls: seq<Ledger>, s: State, e: Event, k: nat)
    requires ProducerOk(s.producer, ls, s.ctl) && Enabled(cfg, s, e) && e.Close? && k < |s.ctl.execs|
    ensures Weighs(s, e, Apply(cfg, s, e), k)
  {
    CloseWeighs(cfg, s, e);
  }

  lemma ProducerWeighs(cfg: Config, s: State, e: Event, k: nat)
    requires Enabled(cfg, s, e) && k < |s.ctl.execs|
    requires e.Prepared? || e.PrepareFailed? || e.TemplateFailed? || e.ListDir?
    ensures Weighs(s, e, Apply(cfg, s, e), k)
  {
    ProducerFlowWeighs(cfg, s, e);
  }

  /** Every step for k brings its end nearer, and no step of anybody moves it away. */
  lemma StepWeighs(cfg: Config, ls: seq<Ledger>, s: State, e: Event, k: nat)
    requires Inv(cfg, ls, s) && Enabled(cfg, s, e) && k < |s.ctl.execs|
    ensures Weighs(s, e, Apply(cfg, s, e), k)
  {
    if e.Terminate? {
      TerminateWeighs(cfg, s, e, k);
    } else if e.PostResult? {
      PostResultWeighs(cfg, s, e, k);
    } else if e.Store? {
      StoreWeighsForAll(cfg, ls, s, e, k);
    } else if e.Send? {
      SendWeighsForAll(cfg, ls, s, e, k);
    } else if e.Close? {
      CloseWeighsForAll(cfg, ls, s, e, k);
    } else if OfProducer(e) && !e.PruneNext? && !Panics(e) {
      ProducerWeighs(cfg, s, e, k);
    } else if e.Begin? {
      BeginWeighsForOthers(cfg, s, e, k);
    } else if e.Tick? || e.ListFailed? || e.PruneNext? || Panics(e) || e.SaveFile? {
      QuietWeighs(cfg, s, e, k);
    } else {
      if e.Start? {
        StartHasPod(cfg, ls, s, e);
      }
      WorkerWeighs(cfg, s, e, k);
    }
  }

  /** The number of events of a run that did work for execution k. */
  ghost function Work(cfg: Config, evs: seq<Event>, k: nat): nat {
    if evs == [] || Run(cfg, evs).None? then 0
    else
      var before, e := evs[..|evs| - 1], evs[|evs| - 1];
      var s := Run(cfg, before).value;
      Work(cfg, before, k) + if k < |s.ctl.execs| && WorkFor(s, e, k) then 1 else 0
  }

  /** The work done for an execution of N nodes plus the work left never exceeds 8N + poolSize + 3, in any run. */
  lemma {:induction false} BoundedWork(cfg: Config, evs: seq<Event>, ls: seq<Ledger>, s: State, k: nat)
    requires Reaches(cfg, evs, ls, s)
    ensures |ls| == |s.ctl.execs|
    ensures k < |ls| ==> Work(cfg, evs, k) + Left(s, k) <= 8 * |ls[k].nodes| + cfg.poolSize + 3
    ensures k >= |ls| ==> Work(cfg, evs, k) == 0
  {
    ReachableProducer(cfg, evs, ls, s);
    if evs != [] {
      var before, e := evs[..|evs| - 1], evs[|evs| - 1];
      var ls0, s0 := Ledgers(cfg, before), Run(cfg, before).value;
      BoundedWork(cfg, before, ls0, s0, k);
      Reachable(cfg, before);
      if k < |ls0| {
        StepWeighs(cfg, ls0, s0, e, k);
      } else if k < |ls| {
        assert e.Begin? && Makes(cfg);
        BeginWeighs(cfg, s0, e);
      }
    }
  }

  lemma BeginWeighs(cfg: Config, s: State, e: Event)
    requires Enabled(cfg, s, e) && e.Begin? && Makes(cfg)
    ensures var s' := Apply(cfg, s, e);
            && |s'.ctl.execs| == |s.ctl.execs| + 1
            && Left(s', |s.ctl.execs|) == 8 * |UsableNames(e.items, cfg.runOnUnscheduled)| + cfg.poolSize + 3
  {
    var x := Apply(cfg, s, e).ctl.execs[|s.ctl.execs|];
    WeightsOfWaiting(x.workers);
    assert UnendedPods(x) == {} && UnreportedPods(x) == {};
  }
}
