/** The invariant of the whole system, kept by every event, hence true in every reachable state. */
module SystemInvariant {
  import opened Collections
  import opened CollectorModel
  import opened Protocol
  import opened Workers
  import opened ExecutionInvariant

  /** The executions map points at executions of that ID. */
  ghost predicate CurrentOk(current: map<string, nat>, execs: seq<Execution>) {
    forall id | id in current :: current[id] < |execs| && execs[current[id]].id == id
  }

  ghost predicate ExecsOk(poolSize: int, ls: seq<Ledger>, execs: seq<Execution>) {
    |ls| == |execs| && forall k | 0 <= k < |ls| :: ExecInv(poolSize, ls[k], execs[k])
  }

  /** The producer feeds the execution that was started last, and nobody has closed its channel. */
  ghost predicate FeedsLast(l: Ledger, x: Execution, jobs: nat) {
    !x.closed && jobs == |l.nodes|
  }

  ghost predicate PointsAt(c: Controller, id: string, k: nat) {
    id in c.current && c.current[id] == k
  }

  /** What the producer's position says about the execution it works on. */
  ghost predicate Position(p: Producer, l: Ledger, x: Execution) {
    match p
    case Idle => true
    case Listing => true
    case Preparing(_, todo) => l.sent == [] && l.nodes == todo && x.pods.Keys == {}
    case Adding(_, todo) => l.nodes == l.sent + todo && x.pods.Keys == Elements(l.sent)
    case Sending(_, _, todo) =>
      todo != [] && l.nodes == l.sent + todo && x.pods.Keys == Elements(l.sent) + {todo[0]}
    case Pruning(_, _, _) => l.sent == l.nodes
  }

  ghost predicate ProducerOk(p: Producer, ls: seq<Ledger>, c: Controller) {
    p.Idle? || p.Listing? ||
    (&& |ls| == |c.execs| > 0
     && var k := |ls| - 1;
        && FeedsLast(ls[k], c.execs[k], c.jobs)
        && Position(p, ls[k], c.execs[k])
        && (p.Preparing? || p.Adding? || p.Sending? ==> PointsAt(c, p.id, k))
        && (p.Sending? || p.Pruning? ==> p.k == k))
  }

  ghost predicate Inv(cfg: Config, ls: seq<Ledger>, s: State) {
    && CurrentOk(s.ctl.current, s.ctl.execs)
    && ExecsOk(cfg.poolSize, ls, s.ctl.execs)
    && ProducerOk(s.producer, ls, s.ctl)
    && Stamped(cfg, s.producer)
  }

  /** The producer works under a time stamp, and its loop goes too far exactly for a history below -1. */
  ghost predicate Stamped(cfg: Config, p: Producer) {
    && (p.Preparing? || p.Adding? || p.Sending? ==> IsTimestamp(p.id))
    && (p.Pruning? ==> (p.beyond <==> cfg.reportHistory < -1))
  }

  /** Replacing one execution and its ledger by another that is all right. */
  lemma ExecsOkAfter(poolSize: int, ls: seq<Ledger>, execs: seq<Execution>, k: nat, l: Ledger, x: Execution)
    requires ExecsOk(poolSize, ls, execs) && k < |ls| && ExecInv(poolSize, l, x)
    ensures ExecsOk(poolSize, ls[k := l], execs[k := x])
  {
    var ls', execs' := ls[k := l], execs[k := x];
    forall i | 0 <= i < |ls|
      ensures ExecInv(poolSize, ls'[i], execs'[i])
    {
      assert ExecInv(poolSize, ls[i], execs[i]);
    }
  }

  // ---------------------------------------------------------------- steps of the producer

  lemma {:induction false} UsableNamesFrom(items: seq<Node>, flag: bool)
    requires Distinct(NodeNames(items))
    ensures Distinct(UsableNames(items, flag))
    ensures forall name | name in UsableNames(items, flag) :: name in NodeNames(items)
  {
    if items != [] {
      var n := |items| - 1;
      var names := NodeNames(items);
      assert NodeNames(items[..n]) == names[..n];
      UsableNamesFrom(items[..n], flag);
      assert names == names[..n] + [items[n].name];
      assert forall i | 0 <= i < n :: names[..n][i] == names[i] != names[n];
      assert items[n].name !in UsableNames(items[..n], flag);
    }
  }

  lemma BeginKeeps(cfg: Config, ls: seq<Ledger>, s: State, e: Event)
    requires Inv(cfg, ls, s) && Enabled(cfg, s, e) && e.Begin? && Makes(cfg)
    ensures Inv(cfg, Note(cfg, ls, e), Apply(cfg, s, e))
  {
    var nodes := UsableNames(e.items, cfg.runOnUnscheduled);
    UsableNamesFrom(e.items, cfg.runOnUnscheduled);
    NewExecutionInv(cfg.poolSize, e.id, nodes);
    var l := Ledger(nodes, [], [], [], [], []);
    var x := Execution(e.id, map[], [], false, seq(cfg.poolSize, _ => Waiting));
    var ls', execs' := ls + [l], s.ctl.execs + [x];
    forall i | 0 <= i < |ls'|
      ensures ExecInv(cfg.poolSize, ls'[i], execs'[i])
    {
      if i < |ls| {
        assert ExecInv(cfg.poolSize, ls[i], s.ctl.execs[i]);
      }
    }
  }

  lemma StoreMovesProducer(ls: seq<Ledger>, s: State, s': State, k: nat)
    requires CurrentOk(s.ctl.current, s.ctl.execs) && ProducerOk(s.producer, ls, s.ctl)
    requires s.producer.Adding? && s.producer.todo != [] && k == |ls| - 1
    requires var x, node := s.ctl.execs[k], s.producer.todo[0];
             s'.ctl.execs == s.ctl.execs[k := x.(pods := x.pods[node := NEW_POD])]
    requires s'.ctl.current == s.ctl.current && s'.ctl.jobs == s.ctl.jobs
    requires s'.producer == Sending(s.producer.id, k, s.producer.todo)
    ensures CurrentOk(s'.ctl.current, s'.ctl.execs) && ProducerOk(s'.producer, ls, s'.ctl)
  {
  }

  lemma StoreStepKeeps(cfg: Config, ls: seq<Ledger>, s: State, e: Event)
    requires Inv(cfg, ls, s) && Enabled(cfg, s, e) && e.Store?
    ensures Inv(cfg, ls, Apply(cfg, s, e))
  {
    StoreInLast(ls, s, e.id);
    StoreMovesProducer(ls, s, Apply(cfg, s, e), |ls| - 1);
    StoredExecsOk(cfg.poolSize, ls, s.ctl.execs, s.producer.todo);
  }

  lemma StoreInLast(ls: seq<Ledger>, s: State, id: string)
    requires CurrentOk(s.ctl.current, s.ctl.execs) && ProducerOk(s.producer, ls, s.ctl)
    requires s.producer.Adding? && s.producer.id == id
    ensures |ls| == |s.ctl.execs| > 0 && ForID(s.ctl, id) == Some(|ls| - 1)
    ensures var l, x := ls[|ls| - 1], s.ctl.execs[|ls| - 1];
            l.nodes == l.sent + s.producer.todo && x.pods.Keys == Elements(l.sent)
  {
  }

  lemma StoredExecsOk(poolSize: int, ls: seq<Ledger>, execs: seq<Execution>, todo: seq<string>)
    requires ExecsOk(poolSize, ls, execs) && ls != [] && todo != []
    requires var l, x := ls[|ls| - 1], execs[|ls| - 1]; l.nodes == l.sent + todo && x.pods.Keys == Elements(l.sent)
    ensures var k := |ls| - 1;
            ExecsOk(poolSize, ls, execs[k := execs[k].(pods := execs[k].pods[todo[0] := NEW_POD])])
  {
    var k := |ls| - 1;
    var l, x := ls[k], execs[k];
    assert ExecInv(poolSize, l, x);
    NextIsNew(poolSize, l, x, todo);
    StoreKeeps(poolSize, l, x, todo[0]);
    ExecsOkAfter(poolSize, ls, execs, k, l, x.(pods := x.pods[todo[0] := NEW_POD]));
    assert ls[k := l] == ls;
  }

  lemma NextIsNew(poolSize: int, l: Ledger, x: Execution, todo: seq<string>)
    requires ExecInv(poolSize, l, x) && todo != []
    requires l.nodes == l.sent + todo && x.pods.Keys == Elements(l.sent)
    ensures todo[0] !in x.pods && todo[0] in l.nodes
  {
    assert l.nodes[|l.sent|] == todo[0];
    assert forall i | 0 <= i < |l.sent| :: l.sent[i] == l.nodes[i];
  }

  lemma SendMovesProducer(ls: seq<Ledger>, s: State, ls': seq<Ledger>, s': State, k: nat)
    requires CurrentOk(s.ctl.current, s.ctl.execs) && ProducerOk(s.producer, ls, s.ctl)
    requires s.producer.Sending? && s.producer.todo != [] && k == |ls| - 1
    requires var l, x, node := ls[k], s.ctl.execs[k], s.producer.todo[0];
             && ls' == ls[k := l.(sent := l.sent + [node])]
             && s'.ctl.execs == s.ctl.execs[k := x.(queue := x.queue + [node])]
    requires s'.ctl.current == s.ctl.current && s'.ctl.jobs == s.ctl.jobs
    requires s'.producer == Adding(s.producer.id, s.producer.todo[1..])
    ensures CurrentOk(s'.ctl.current, s'.ctl.execs) && ProducerOk(s'.producer, ls', s'.ctl)
  {
    var l, todo := ls[k], s.producer.todo;
    assert l.nodes == (l.sent + [todo[0]]) + todo[1..];
    ElementsSnoc(l.sent, todo[0]);
  }

  lemma SendStepKeeps(cfg: Config, ls: seq<Ledger>, s: State, e: Event)
    requires Inv(cfg, ls, s) && Enabled(cfg, s, e) && e.Send?
    ensures Inv(cfg, Note(cfg, ls, e), Apply(cfg, s, e)) && !Apply(cfg, s, e).panicked
  {
    var l, x := ls[e.k], s.ctl.execs[e.k];
    var m := l.(sent := l.sent + [e.node]);
    SendMovesProducer(ls, s, ls[e.k := m], Apply(cfg, s, e), e.k);
    NextMaySend(cfg.poolSize, l, x, s.producer.todo);
    ExecsOkAfter(cfg.poolSize, ls, s.ctl.execs, e.k, m, x.(queue := x.queue + [e.node]));
  }

  /** The node that was stored last can be sent, as long as its channel has room. */
  lemma NextMaySend(poolSize: int, l: Ledger, x: Execution, todo: seq<string>)
    requires ExecInv(poolSize, l, x) && !x.closed && |x.queue| < poolSize
    requires todo != [] && l.nodes == l.sent + todo && todo[0] in x.pods
    ensures ExecInv(poolSize, l.(sent := l.sent + [todo[0]]), x.(queue := x.queue + [todo[0]]))
  {
    assert l.nodes == (l.sent + [todo[0]]) + todo[1..];
    SendKeeps(poolSize, l, x, todo[0]);
  }

  lemma ListDirKeeps(cfg: Config, ls: seq<Ledger>, s: State, e: Event)
    requires Inv(cfg, ls, s) && Enabled(cfg, s, e) && e.ListDir?
    ensures Inv(cfg, Note(cfg, ls, e), Apply(cfg, s, e))
  {
    StoreInLast(ls, s, s.producer.id);
    var l := ls[|ls| - 1];
    assert l.sent + [] == l.sent;
  }

  lemma PruneNextKeeps(cfg: Config, ls: seq<Ledger>, s: State, e: Event)
    requires Inv(cfg, ls, s) && Enabled(cfg, s, e) && e.PruneNext?
    ensures Inv(cfg, Note(cfg, ls, e), Apply(cfg, s, e))
  {
  }

  lemma PanicKeeps(cfg: Config, ls: seq<Ledger>, s: State, e: Event)
    requires Inv(cfg, ls, s) && Enabled(cfg, s, e) && (e.IndexPast? || e.TemplatePanics? || e.Vanished?)
    ensures Inv(cfg, Note(cfg, ls, e), Apply(cfg, s, e))
  {
  }

  lemma CloseKeeps(cfg: Config, ls: seq<Ledger>, s: State, e: Event)
    requires Inv(cfg, ls, s) && Enabled(cfg, s, e) && e.Close?
    ensures Inv(cfg, Note(cfg, ls, e), Apply(cfg, s, e)) && !Apply(cfg, s, e).panicked
  {
    var l, x := ls[e.k], s.ctl.execs[e.k];
    assert ExecInv(cfg.poolSize, l, x.(closed := true)) by {
      assert ExecInv(cfg.poolSize, l, x);
    }
    ExecsOkAfter(cfg.poolSize, ls, s.ctl.execs, e.k, l, x.(closed := true));
    assert ls[e.k := l] == ls;
  }

  // ---------------------------------------------------------------- steps of workers and environment

  /** A step that changes neither an execution's identity nor its channel end nor its set of pods. */
  ghost predicate SameShape(l: Ledger, m: Ledger, x: Execution, y: Execution) {
    && m.nodes == l.nodes && m.sent == l.sent
    && y.id == x.id && y.closed == x.closed && y.pods.Keys == x.pods.Keys
  }

  lemma SameShapeKeepsProducer(ls: seq<Ledger>, s: State, k: nat, m: Ledger, y: Execution, s': State)
    requires CurrentOk(s.ctl.current, s.ctl.execs) && ProducerOk(s.producer, ls, s.ctl)
    requires k < |ls| == |s.ctl.execs| && SameShape(ls[k], m, s.ctl.execs[k], y)
    requires s'.ctl.execs == s.ctl.execs[k := y]
    requires s'.ctl.current == s.ctl.current && s'.ctl.jobs == s.ctl.jobs && s'.producer == s.producer
    ensures CurrentOk(s'.ctl.current, s'.ctl.execs) && ProducerOk(s'.producer, ls[k := m], s'.ctl)
  {
  }

  lemma SameShapeKeeps(cfg: Config, ls: seq<Ledger>, s: State, k: nat, m: Ledger, y: Execution, s': State)
    requires Inv(cfg, ls, s) && k < |ls|
    requires SameShape(ls[k], m, s.ctl.execs[k], y) && ExecInv(cfg.poolSize, m, y)
    requires s'.ctl.execs == s.ctl.execs[k := y]
    requires s'.ctl.current == s.ctl.current && s'.ctl.jobs == s.ctl.jobs
    requires s'.producer == s.producer && s'.panicked == s.panicked
    ensures Inv(cfg, ls[k := m], s')
  {
    SameShapeKeepsProducer(ls, s, k, m, y, s');
    ExecsOkAfter(cfg.poolSize, ls, s.ctl.execs, k, m, y);
  }

  lemma ReceiveStepKeeps(cfg: Config, ls: seq<Ledger>, s: State, e: Event)
    requires Inv(cfg, ls, s) && Enabled(cfg, s, e) && e.Receive?
    ensures Inv(cfg, Note(cfg, ls, e), Apply(cfg, s, e))
  {
    var l, x := ls[e.k], s.ctl.execs[e.k];
    ReceiveKeeps(cfg.poolSize, l, x, e.w);
    SameShapeKeeps(cfg, ls, s, e.k, l.(received := l.received + [e.node]),
                   WithWorker(x, e.w, Holding(e.node)).(queue := x.queue[1..]), Apply(cfg, s, e));
  }

  lemma CreateStepKeeps(cfg: Config, ls: seq<Ledger>, s: State, e: Event)
    requires Inv(cfg, ls, s) && Enabled(cfg, s, e) && e.CreatePod?
    ensures Inv(cfg, Note(cfg, ls, e), Apply(cfg, s, e))
  {
    var l, x := ls[e.k], s.ctl.execs[e.k];
    CreateKeeps(cfg.poolSize, l, x, e.w, e.node);
    SameShapeKeeps(cfg, ls, s, e.k, l.(created := l.created + [e.node]), WithWorker(x, e.w, Creating(e.node)),
                   Apply(cfg, s, e));
  }

  lemma StartStepKeeps(cfg: Config, ls: seq<Ledger>, s: State, e: Event)
    requires Inv(cfg, ls, s) && Enabled(cfg, s, e) && e.Start?
    ensures Inv(cfg, Note(cfg, ls, e), Apply(cfg, s, e))
  {
    var l, x := ls[e.k], s.ctl.execs[e.k];
    StartKeeps(cfg.poolSize, l, x, e.w, e.node, e.t);
    var y := WithWorker(x.(pods := x.pods[e.node := x.pods[e.node].(started := Some(e.t))]), e.w, Polling(e.node));
    assert y.pods.Keys == x.pods.Keys;
    SameShapeKeeps(cfg, ls, s, e.k, l.(started := l.started + [e.node]), y, Apply(cfg, s, e));
  }

  lemma FinishStepKeeps(cfg: Config, ls: seq<Ledger>, s: State, e: Event)
    requires Inv(cfg, ls, s) && Enabled(cfg, s, e) && e.Finish?
    ensures Inv(cfg, Note(cfg, ls, e), Apply(cfg, s, e))
  {
    var l, x := ls[e.k], s.ctl.execs[e.k];
    FinishKeeps(cfg.poolSize, l, x, e.w, e.node);
    SameShapeKeeps(cfg, ls, s, e.k, l.(finished := l.finished + [e.node]), WithWorker(x, e.w, Waiting),
                   Apply(cfg, s, e));
  }

  lemma ExitStepKeeps(cfg: Config, ls: seq<Ledger>, s: State, e: Event)
    requires Inv(cfg, ls, s) && Enabled(cfg, s, e) && e.Exit?
    ensures Inv(cfg, Note(cfg, ls, e), Apply(cfg, s, e))
  {
    var l, x := ls[e.k], s.ctl.execs[e.k];
    ExitKeeps(cfg.poolSize, l, x, e.w);
    SameShapeKeeps(cfg, ls, s, e.k, l, WithWorker(x, e.w, Exited), Apply(cfg, s, e));
    assert ls[e.k := l] == ls;
  }

  lemma PodChangeKeeps(cfg: Config, ls: seq<Ledger>, s: State, k: nat, node: string, p: Pod, s': State)
    requires Inv(cfg, ls, s) && k < |ls| && node in s.ctl.execs[k].pods
    requires var q := s.ctl.execs[k].pods[node];
             p.started == q.started && (q.terminated.Some? ==> p.terminated.Some?)
    requires var x := s.ctl.execs[k]; s'.ctl.execs == s.ctl.execs[k := x.(pods := x.pods[node := p])]
    requires s'.ctl.current == s.ctl.current && s'.ctl.jobs == s.ctl.jobs
    requires s'.producer == s.producer && s'.panicked == s.panicked
    ensures Inv(cfg, ls, s')
  {
    var x := s.ctl.execs[k];
    PodUpdateKeeps(cfg.poolSize, ls[k], x, node, p);
    assert x.pods[node := p].Keys == x.pods.Keys;
    SameShapeKeeps(cfg, ls, s, k, ls[k], x.(pods := x.pods[node := p]), s');
    assert ls[k := ls[k]] == ls;
  }

  lemma PodTerminatedChanges(c: Controller, id: string, node: string, succeeded: bool, t: nat, d: real)
    ensures var r := PodTerminated(c, id, node, succeeded, t, d);
            && r.current == c.current && r.jobs == c.jobs
            && match ForID(c, id)
               case None => r.execs == c.execs
               case Some(k) =>
                 var x := c.execs[k];
                 if node !in x.pods || x.pods[node].terminated.Some? then r.execs == c.execs
                 else r.execs == c.execs[k := x.(pods := x.pods[node := x.pods[node].(terminated := Some(t))])]
  {
  }

  lemma ReportReceivedChanges(c: Controller, id: string, node: string, failed: bool, t: nat, results: seq<Reported>)
    ensures var r := ReportReceived(c, id, node, failed, t, results);
            && r.current == c.current && r.jobs == c.jobs
            && match ForID(c, id)
               case None => r.execs == c.execs
               case Some(k) =>
                 var x := c.execs[k];
                 if node !in x.pods then r.execs == c.execs
                 else r.execs == c.execs[k := x.(pods := x.pods[node := x.pods[node].(reported := Some(t))])]
  {
  }

  /** What a step of the environment does to the executions: nothing, or a write to one registered pod. */
  lemma EnvironmentKeeps(cfg: Config, ls: seq<Ledger>, s: State, s': State, id: string, node: string, p: Pod)
    requires Inv(cfg, ls, s) && s'.producer == s.producer && s'.panicked == s.panicked
    requires s'.ctl.current == s.ctl.current && s'.ctl.jobs == s.ctl.jobs
    requires s'.ctl.execs == s.ctl.execs
             || (ForID(s.ctl, id).Some?
                 && var k := ForID(s.ctl, id).value;
                    var x := s.ctl.execs[k];
                    && node in x.pods && p.started == x.pods[node].started
                    && (x.pods[node].terminated.Some? ==> p.terminated.Some?)
                    && s'.ctl.execs == s.ctl.execs[k := x.(pods := x.pods[node := p])])
    ensures Inv(cfg, ls, s')
  {
    if s'.ctl.execs != s.ctl.execs {
      PodChangeKeeps(cfg, ls, s, ForID(s.ctl, id).value, node, p, s');
    }
  }

  function PodOf(c: Controller, id: string, node: string): Pod {
    match ForID(c, id)
    case None => NEW_POD
    case Some(k) => if node in c.execs[k].pods then c.execs[k].pods[node] else NEW_POD
  }

  lemma TerminateKeeps(cfg: Config, ls: seq<Ledger>, s: State, e: Event)
    requires Inv(cfg, ls, s) && Enabled(cfg, s, e) && e.Terminate?
    ensures Inv(cfg, ls, Apply(cfg, s, e))
  {
    PodTerminatedChanges(s.ctl, e.id, e.node, e.succeeded, e.t, e.duration);
    EnvironmentKeeps(cfg, ls, s, Apply(cfg, s, e), e.id, e.node,
                     PodOf(s.ctl, e.id, e.node).(terminated := Some(e.t)));
  }

  lemma PostResultKeeps(cfg: Config, ls: seq<Ledger>, s: State, e: Event)
    requires Inv(cfg, ls, s) && Enabled(cfg, s, e) && e.PostResult?
    ensures Inv(cfg, ls, Apply(cfg, s, e))
  {
    ReportReceivedChanges(MakeReportDir(s.ctl, e.id), e.id, e.node, e.failed, e.t, e.results);
    EnvironmentKeeps(cfg, ls, s, Apply(cfg, s, e), e.id, e.node,
                     PodOf(s.ctl, e.id, e.node).(reported := Some(e.t)));
  }

  lemma OtherKeeps(cfg: Config, ls: seq<Ledger>, s: State, e: Event)
    requires Inv(cfg, ls, s) && Enabled(cfg, s, e)
    requires e.Tick? || e.ListFailed? || e.PrepareFailed? || e.Prepared? || e.TemplateFailed? || e.SaveFile?
    ensures Inv(cfg, ls, Apply(cfg, s, e))
  {
  }

  lemma StepKeeps(cfg: Config, ls: seq<Ledger>, s: State, e: Event)
    requires Inv(cfg, ls, s) && Enabled(cfg, s, e)
    ensures Inv(cfg, Note(cfg, ls, e), Apply(cfg, s, e))
  {
    match e
    case Begin(_, _, _, _) => if Makes(cfg) { BeginKeeps(cfg, ls, s, e); }
    case Store(_, _) => StoreStepKeeps(cfg, ls, s, e);
    case Send(_, _) => SendStepKeeps(cfg, ls, s, e);
    case ListDir(_) => ListDirKeeps(cfg, ls, s, e);
    case PruneNext(_, _) => PruneNextKeeps(cfg, ls, s, e);
    case IndexPast(_) => PanicKeeps(cfg, ls, s, e);
    case TemplatePanics => PanicKeeps(cfg, ls, s, e);
    case Vanished => PanicKeeps(cfg, ls, s, e);
    case Close(_) => CloseKeeps(cfg, ls, s, e);
    case Terminate(_, _, _, _, _) => TerminateKeeps(cfg, ls, s, e);
    case PostResult(_, _, _, _, _) => PostResultKeeps(cfg, ls, s, e);
    case Receive(_, _, _) => ReceiveStepKeeps(cfg, ls, s, e);
    case CreatePod(_, _, _) => CreateStepKeeps(cfg, ls, s, e);
    case Start(_, _, _, _) => StartStepKeeps(cfg, ls, s, e);
    case Finish(_, _, _) => FinishStepKeeps(cfg, ls, s, e);
    case Exit(_, _) => ExitStepKeeps(cfg, ls, s, e);
    case _ => OtherKeeps(cfg, ls, s, e);
  }

  /** Every reachable state satisfies the invariant. */
  lemma {:induction false} Reachable(cfg: Config, evs: seq<Event>)
    requires Run(cfg, evs).Some?
    ensures Inv(cfg, Ledgers(cfg, evs), Run(cfg, evs).value)
  {
    if evs != [] {
      var before := evs[..|evs| - 1];
      Reachable(cfg, before);
      StepKeeps(cfg, Ledgers(cfg, before), Run(cfg, before).value, evs[|evs| - 1]);
    }
  }

  /** s is the state, and ls the ledgers, after the events. */
  ghost predicate Reaches(cfg: Config, evs: seq<Event>, ls: seq<Ledger>, s: State) {
    Run(cfg, evs) == Some(s) && ls == Ledgers(cfg, evs)
  }

  lemma ReachableExecution(cfg: Config, evs: seq<Event>, ls: seq<Ledger>, s: State, k: nat)
    requires Reaches(cfg, evs, ls, s) && k < |s.ctl.execs|
    ensures |ls| == |s.ctl.execs| && ExecInv(cfg.poolSize, ls[k], s.ctl.execs[k])
  {
    Reachable(cfg, evs);
  }

  lemma ReachableProducer(cfg: Config, evs: seq<Event>, ls: seq<Ledger>, s: State)
    requires Reaches(cfg, evs, ls, s)
    ensures |ls| == |s.ctl.execs|
    ensures CurrentOk(s.ctl.current, s.ctl.execs) && ProducerOk(s.producer, ls, s.ctl)
    ensures Stamped(cfg, s.producer)
  {
    Reachable(cfg, evs);
  }

  lemma Extend(cfg: Config, evs: seq<Event>, ls: seq<Ledger>, s: State, e: Event)
    requires Reaches(cfg, evs, ls, s) && Enabled(cfg, s, e)
    ensures Reaches(cfg, evs + [e], Note(cfg, ls, e), Apply(cfg, s, e))
  {
    assert (evs + [e])[..|evs|] == evs;
  }

  /** The last event of a run, and the state it was taken in. */
  lemma LastStep(cfg: Config, evs: seq<Event>, more: seq<Event>) returns (before: seq<Event>, s: State)
    requires more != [] && Run(cfg, evs + more).Some?
    ensures before == evs + more[..|more| - 1] && Run(cfg, before) == Some(s)
    ensures Enabled(cfg, s, more[|more| - 1])
    ensures Run(cfg, evs + more) == Some(Apply(cfg, s, more[|more| - 1]))
    ensures before + [more[|more| - 1]] == evs + more
  {
    ConcatLast(evs, more);
    var all := evs + more;
    before := evs + more[..|more| - 1];
    assert all[..|all| - 1] == before;
    s := Run(cfg, before).value;
  }
}
