/**
 * The state machine run by the objects of Lifecycle: each method takes one step on the heap and notes its event, and
 * after every sequence of calls the controller is what the run of the noted events says.
 */
module Machine {
  import opened Collections
  import opened Lifecycle
  import CollectorModel
  import SystemInvariant
  import EngineTheorems
  import P = Protocol

  class System {
    const cfg: P.Config
    const controller: Controller
    /** Where startPods stands, and what has happened so far. */
    ghost var producer: P.Producer
    ghost var panicked: bool
    ghost var trace: seq<P.Event>

    ghost function Now(): P.State
      reads this, controller, controller.all, controller.prom, controller.prom.Metrics()
    {
      P.State(controller.Model(), producer, panicked)
    }

    ghost predicate Configured() {
      && controller.podPoolSize == cfg.poolSize && controller.chanLimit == cfg.chanLimit
      && controller.reportHistory == cfg.reportHistory + 1
    }

    ghost predicate Valid()
      reads this, controller, controller.all, controller.PodObjects(), controller.prom,
            controller.prom.Metrics(), controller.prom.Rows()
    {
      && controller.Valid()
      && Configured()
      && P.Run(cfg, trace) == Some(Now())
    }

    constructor (cfg: P.Config, controller: Controller)
      requires controller.Valid() && controller.Model() == P.Init(cfg).ctl
      requires controller.podPoolSize == cfg.poolSize && controller.chanLimit == cfg.chanLimit
      requires controller.reportHistory == cfg.reportHistory + 1
      ensures Valid() && this.controller == controller && trace == []
    {
      this.cfg, this.controller := cfg, controller;
      producer, panicked, trace := P.Idle, false, [];
      new;
      controller.Kept();
    }

    /** The objects have taken the step e from s. */
    ghost method Took(s: P.State, e: P.Event)
      requires controller.Valid() && P.Run(cfg, trace) == Some(s) && P.Enabled(cfg, s, e)
      requires Configured() && controller.Model() == P.Apply(cfg, s, e).ctl
      modifies this
      ensures Valid() && trace == old(trace) + [e] && Now() == P.Apply(cfg, s, e)
    {
      SystemInvariant.Extend(cfg, trace, P.Ledgers(cfg, trace), s, e);
      producer, panicked := P.Apply(cfg, s, e).producer, P.Apply(cfg, s, e).panicked;
      trace := trace + [e];
      controller.Kept();
      assert Now() == P.Apply(cfg, s, e);
    }

    /** The execution object and its place in the state. */
    lemma Located(x: Execution)
      requires controller.ExecutionsValid() && x in controller.all
      ensures x.Valid() && x.index < |Now().ctl.execs| && Now().ctl.execs[x.index] == x.model
    {
    }

    // ---------------------------------------------------------------- startPods

    /** A step of startPods that leaves the controller alone. */
    ghost method Move(e: P.Event)
      requires Valid() && P.Enabled(cfg, Now(), e)
      requires e.Tick? || e.ListFailed? || e.PrepareFailed? || e.Prepared? || e.TemplateFailed? || e.ListDir?
               || e.IndexPast? || e.TemplatePanics? || e.Vanished?
      modifies this
      ensures Valid() && trace == old(trace) + [e]
    {
      Took(Now(), e);
    }

    method Begin(id: string, items: seq<P.Node>, nodes: seq<string>, dirMade: bool, linked: bool)
      returns (x: Execution?)
      requires Valid() && !panicked && producer.Listing? && P.IsTimestamp(id) && Distinct(P.NodeNames(items))
      requires nodes == P.UsableNames(items, cfg.runOnUnscheduled)
      modifies this, controller, controller.prom
      ensures Valid() && trace == old(trace) + [P.Begin(id, items, dirMade, linked)]
      ensures (x == null <==> !P.Makes(cfg)) && (x == null <==> panicked)
    {
      ghost var s := Now();
      x := NewInto(id, |nodes|, dirMade, linked);
      Took(s, P.Begin(id, items, dirMade, linked));
    }

    method NewInto(id: string, jobCount: nat, dirMade: bool, linked: bool) returns (x: Execution?)
      requires controller.Valid()
      modifies controller, controller.prom
      ensures controller.Valid() && (x != null <==> 0 <= controller.podPoolSize <= controller.chanLimit)
      ensures controller.Model() ==
              if x == null then old(controller.Model())
              else P.NewExecution(old(controller.Model()), controller.podPoolSize, id, jobCount, dirMade, linked)
    {
      x := controller.NewExecution(id, jobCount, dirMade, linked);
    }

    /** AddPod up to the send; the execution is always found. */
    method Store(id: string, node: string) returns (x: Execution)
      requires Valid() && !panicked && producer.Adding? && producer.id == id
      requires producer.todo != [] && producer.todo[0] == node && cfg.template(node, id) == P.Decodes
      modifies this, controller`nodes, controller.all
      ensures Valid() && trace == old(trace) + [P.Store(id, node)] && x in controller.all && x.id == id
      ensures producer == P.Sending(id, x.index, old(producer.todo)) && !panicked
    {
      ghost var s := Now();
      EngineTheorems.ChannelDiscipline(cfg, trace, P.Ledgers(cfg, trace), s);
      x := StoreInto(id, node);
      Took(s, P.Store(id, node));
    }

    method StoreInto(id: string, node: string) returns (x: Execution)
      requires controller.Valid() && P.ForID(controller.Model(), id).Some?
      modifies controller`nodes, controller.all
      ensures controller.Valid()
      ensures x in controller.all && x.id == id && P.ForID(old(controller.Model()), id) == Some(x.index)
      ensures controller.Model() == P.StorePod(old(controller.Model()), x.index, node)
    {
      controller.LookedUp(id);
      x := controller.executions[id];
      controller.StorePod(x, node);
    }

    /** The send of AddPod once there is room; the channel is always open. */
    method Send(x: Execution, node: string)
      requires Valid() && !panicked && x in controller.all && |x.jobChan| < cfg.poolSize
      requires producer.Sending? && producer.k == x.index && producer.todo != [] && producer.todo[0] == node
      modifies this, x`jobChan, x`model
      ensures Valid() && trace == old(trace) + [P.Send(x.index, node)]
    {
      ghost var s := Now();
      Located(x);
      EngineTheorems.ChannelDiscipline(cfg, trace, P.Ledgers(cfg, trace), s);
      controller.SendJob(x, node);
      Took(s, P.Send(x.index, node));
    }

    method PruneNext(name: string, removed: bool)
      requires Valid() && !panicked && producer.Pruning? && producer.names != [] && producer.names[0] == name
      modifies this, controller`executions, controller`current, controller`dirs, controller.prom.Metrics()
      ensures Valid() && trace == old(trace) + [P.PruneNext(name, removed)]
    {
      ghost var s := Now();
      controller.PruneOne(name, removed);
      Took(s, P.PruneNext(name, removed));
    }

    method Close(x: Execution)
      requires Valid() && !panicked && x in controller.all && producer == P.Pruning(x.index, [], false)
      modifies this, x`closed, x`model
      ensures Valid() && trace == old(trace) + [P.Close(x.index)]
    {
      ghost var s := Now();
      Located(x);
      EngineTheorems.ChannelDiscipline(cfg, trace, P.Ledgers(cfg, trace), s);
      controller.CloseChannel(x);
      Took(s, P.Close(x.index));
    }

    // ---------------------------------------------------------------- workers

    method Receive(x: Execution, w: nat) returns (node: string)
      requires Valid() && !panicked && x in controller.all
      requires w < |x.workers| && x.workers[w] == P.Waiting && x.jobChan != []
      modifies this, x
      ensures Valid() && trace == old(trace) + [P.Receive(x.index, w, node)]
    {
      ghost var s := Now();
      Located(x);
      node := controller.ReceiveJob(x, w);
      Took(s, P.Receive(x.index, w, node));
    }

    method CreatePod(x: Execution, w: nat)
      requires Valid() && !panicked && x in controller.all && w < |x.workers| && x.workers[w].Holding?
      modifies this, x
      ensures Valid() && trace == old(trace) + [P.CreatePod(x.index, w, old(x.workers[w].node))]
    {
      ghost var s := Now();
      var node := x.workers[w].node;
      Located(x);
      controller.CallCreatePod(x, w);
      Took(s, P.CreatePod(x.index, w, node));
    }

    method Start(x: Execution, w: nat, t: nat)
      requires Valid() && !panicked && x in controller.all && w < |x.workers| && x.workers[w].Creating?
      modifies this, controller`progress, x, x.PodObjects()
      ensures Valid() && trace == old(trace) + [P.Start(x.index, w, old(x.workers[w].node), t)]
    {
      ghost var s := Now();
      var node := x.workers[w].node;
      Located(x);
      controller.MarkStarted(x, w, node, t);
      Took(s, P.Start(x.index, w, node, t));
    }

    /** One look at the polled pod; only the look that finds its end is an event. */
    method Poll(x: Execution, w: nat) returns (finished: bool)
      requires Valid() && !panicked && x in controller.all && w < |x.workers| && x.workers[w].Polling?
      modifies this, controller`progress, x
      ensures Valid() && old(x.workers[w].node in x.pods)
      ensures finished == old(x.pods[x.workers[w].node].terminated.Some?)
      ensures trace == old(trace) + if finished then [P.Finish(x.index, w, old(x.workers[w].node))] else []
    {
      ghost var s := Now();
      ghost var node := x.workers[w].node;
      Located(x);
      LookupsSucceed(x, w);
      finished := controller.Poll(x, w);
      if finished {
        Took(s, P.Finish(x.index, w, node));
      }
    }

    method Exit(x: Execution, w: nat)
      requires Valid() && !panicked && x in controller.all
      requires w < |x.workers| && x.workers[w] == P.Waiting && x.closed && x.jobChan == []
      modifies this, x
      ensures Valid() && trace == old(trace) + [P.Exit(x.index, w)]
    {
      ghost var s := Now();
      Located(x);
      controller.LeaveLoop(x, w);
      Took(s, P.Exit(x.index, w));
    }

    // ---------------------------------------------------------------- reconciler and callbacks

    method Terminate(id: string, node: string, succeeded: bool, t: nat, d: real)
      requires Valid() && !panicked
      modifies this, controller`progress, controller.all, controller.PodObjects(), controller.prom.Metrics()
      ensures Valid() && trace == old(trace) + [P.Terminate(id, node, succeeded, t, d)]
    {
      ghost var s := Now();
      var found := controller.PodTerminated(id, node, succeeded, t, d);
      Took(s, P.Terminate(id, node, succeeded, t, d));
    }

    method PostResult(id: string, node: string, failed: bool, t: nat, results: seq<CollectorModel.Reported>)
      requires Valid() && !panicked && P.Admitted(cfg, Now(), node, id)
      modifies this, controller`dirs, controller.all, controller.PodObjects(), controller.prom.Metrics()
      ensures Valid() && trace == old(trace) + [P.PostResult(id, node, failed, t, results)]
    {
      ghost var s := Now();
      controller.MakeReportDir(id);
      controller.ReportReceived(id, node, failed, t, results);
      Took(s, P.PostResult(id, node, failed, t, results));
    }

    method SaveFile(id: string, node: string)
      requires Valid() && !panicked && P.Admitted(cfg, Now(), node, id)
      modifies this, controller`dirs
      ensures Valid() && trace == old(trace) + [P.SaveFile(id, node)]
    {
      ghost var s := Now();
      controller.MakeReportDir(id);
      Took(s, P.SaveFile(id, node));
    }

    // ---------------------------------------------------------------- what follows for the objects

    /** Theorems about reachable states are theorems about the objects; here, a worker's lookup never fails. */
    lemma LookupsSucceed(x: Execution, w: nat)
      requires Valid() && x in controller.all && w < |x.workers|
      ensures x.workers[w] != P.Dead
      ensures x.workers[w].Holding? || x.workers[w].Creating? || x.workers[w].Polling? ==> x.workers[w].node in x.pods
    {
      Located(x);
      EngineTheorems.WorkersNeverDieEarly(cfg, trace, P.Ledgers(cfg, trace), Now(), x.index, w);
    }
  }
}
