/**
 * The two ways in which the outside world reaches the controller: the callback server behind its gate, and the pod
 * reconciler. Both change the heap as steps of the state machine in Protocol allow, and neither reaches a pruned
 * execution.
 */
module Callbacks {
  import opened Collections
  import opened Protocol
  import MetricIndex
  import CollectorModel
  import Lifecycle
  import SystemInvariant
  import Coupling

  /** How far writing a file into the report directory of an execution came. */
  datatype Saved = NoDirectory | NoFile | Written

  datatype Reply = NotAcceptable | BadRequest | ServerError | Accepted

  const PHASE_SUCCEEDED := "Succeeded"
  const PHASE_FAILED := "Failed"

  /** What the API server answers to the fetch of a pod; logs says what became of the log of each container. */
  datatype Fetched =
    | NotFound
    | Unavailable
    | Found(executionID: string, node: string, phase: string, logs: seq<Saved>)

  // ---------------------------------------------------------------- the handlers on values

  function WithFile(c: Controller, id: string, saved: Saved): Controller {
    if saved.NoDirectory? then c else MakeReportDir(c, id)
  }

  /** A posted report; body is None when it cannot be read, decoded or validated. */
  function Posted(c: Controller, devMode: bool, node: string, id: string, body: Option<seq<CollectorModel.Reported>>,
                  saved: Saved, t: nat): (Reply, Controller)
  {
    if !Has(c, node, id) && !devMode then (NotAcceptable, c)
    else if body.None? then (BadRequest, c)
    else Handled(c, node, id, body.value, saved, t)
  }

  /** postResult behind the gate for a valid body: the file is saved first, and nothing else happens without it. */
  function Handled(c: Controller, node: string, id: string, results: seq<CollectorModel.Reported>, saved: Saved, t: nat)
    : (Reply, Controller)
  {
    if saved.Written? then (Accepted, ReportReceived(MakeReportDir(c, id), id, node, false, t, results))
    else (ServerError, WithFile(c, id, saved))
  }

  predicate Terminal(phase: string) {
    phase == PHASE_SUCCEEDED || phase == PHASE_FAILED
  }

  /** Some file of the list reached the directory. */
  predicate AnyReached(saved: seq<Saved>) {
    exists i :: 0 <= i < |saved| && !saved[i].NoDirectory?
  }

  function WithFiles(c: Controller, id: string, saved: seq<Saved>): Controller {
    if AnyReached(saved) then MakeReportDir(c, id) else c
  }

  function WithLogs(c: Controller, savePodLog: bool, node: string, id: string, logs: seq<Saved>): Controller {
    if savePodLog && Has(c, node, id) then WithFiles(c, id, logs) else c
  }

  function Reconciled(c: Controller, savePodLog: bool, fetched: Fetched, t: nat, d: real): Controller {
    match fetched
    case Found(id, node, phase, logs) =>
      if !Terminal(phase) then c
      else PodTerminated(WithLogs(c, savePodLog, node, id, logs), id, node, phase == PHASE_SUCCEEDED, t, d)
    case _ => c
  }

  // ---------------------------------------------------------------- the handlers on the heap

  /** SaveFile, as far as the report directory shows it. */
  method SaveInto(c: Lifecycle.Controller, id: string, saved: Saved)
    requires c.Valid()
    modifies c`dirs
    ensures c.Valid() && c.Model() == WithFile(old(c.Model()), id, saved)
  {
    if !saved.NoDirectory? {
      c.MakeReportDir(id);
    }
  }

  class PostServer {
    /** Null until it is injected. */
    var controller: Lifecycle.Controller?
    const devMode: bool

    constructor (devMode: bool)
      ensures this.devMode == devMode && controller == null
    {
      this.devMode, controller := devMode, null;
    }

    method InjectController(c: Lifecycle.Controller)
      modifies this
      ensures controller == c
    {
      controller := c;
    }

    /** The gate in front of every callback: whether the request goes on. */
    method Middleware(node: string, id: string) returns (next: bool)
      requires controller != null ==> controller.Valid()
      ensures next <==> controller == null || devMode || Has(controller.Model(), node, id)
    {
      if controller != null {
        var known := controller.Has(node, id);
        if !known && !devMode {
          return false;
        }
      }
      next := true;
    }

    /** postResult behind the gate, for a decoded and valid body; the controller has to be injected by then. */
    method PostResultCallback(node: string, id: string, results: seq<CollectorModel.Reported>, saved: Saved, t: nat)
      returns (reply: Reply)
      requires controller != null && controller.Valid()
      modifies controller`dirs, controller.all, controller.PodObjects(), controller.prom.Metrics()
      ensures controller.Valid()
      ensures reply == Handled(old(controller.Model()), node, id, results, saved, t).0
      ensures controller.Model() == Handled(old(controller.Model()), node, id, results, saved, t).1
    {
      SaveInto(controller, id, saved);
      if !saved.Written? {
        return ServerError;
      }
      controller.ReportReceived(id, node, false, t, results);
      reply := Accepted;
    }

    /** The gate and postResult. */
    method PostResult(node: string, id: string, body: Option<seq<CollectorModel.Reported>>, saved: Saved, t: nat)
      returns (reply: Reply)
      requires controller != null && controller.Valid()
      modifies controller`dirs, controller.all, controller.PodObjects(), controller.prom.Metrics()
      ensures controller.Valid()
      ensures reply == Posted(old(controller.Model()), devMode, node, id, body, saved, t).0
      ensures controller.Model() == Posted(old(controller.Model()), devMode, node, id, body, saved, t).1
    {
      var next := Middleware(node, id);
      controller.Kept();
      if !next {
        return NotAcceptable;
      }
      if body.None? {
        return BadRequest;
      }
      reply := PostResultCallback(node, id, body.value, saved, t);
    }

    /** postFile behind the gate: it stops at the first file it cannot save. */
    method SaveAll(id: string, files: seq<Saved>) returns (reply: Reply)
      requires controller != null && controller.Valid()
      modifies controller`dirs
      ensures controller.Valid()
      ensures reply == if forall i | 0 <= i < |files| :: files[i].Written? then Accepted else ServerError
      ensures controller.Model() ==
              if files == [] then old(controller.Model()) else WithFile(old(controller.Model()), id, files[0])
    {
      for i := 0 to |files|
        invariant controller.Valid()
        invariant forall j | 0 <= j < i :: files[j].Written?
        invariant controller.Model() ==
                  if i == 0 then old(controller.Model()) else MakeReportDir(old(controller.Model()), id)
      {
        SaveInto(controller, id, files[i]);
        if !files[i].Written? {
          return ServerError;
        }
      }
      reply := Accepted;
    }

    /** The gate and postFile with a controller; files is None for a body that cannot be read. */
    method PostFileKnown(node: string, id: string, files: Option<seq<Saved>>) returns (reply: Reply)
      requires controller != null && controller.Valid()
      modifies controller`dirs
      ensures controller.Valid()
      ensures reply == FilesReply(devMode || Has(old(controller.Model()), node, id), files)
      ensures controller.Model() ==
              if reply == NotAcceptable || files.None? || files.value == [] then old(controller.Model())
              else WithFile(old(controller.Model()), id, files.value[0])
    {
      var next := Middleware(node, id);
      controller.Kept();
      if !next {
        return NotAcceptable;
      }
      if files.None? {
        return BadRequest;
      }
      reply := SaveAll(id, files.value);
    }

    /** The gate and postFile. Without a controller every request passes, and its files are saved all the same. */
    method PostFile(node: string, id: string, files: Option<seq<Saved>>) returns (reply: Reply)
      requires controller != null ==> controller.Valid()
      modifies if controller == null then {} else {controller}
      ensures controller == null ==> reply == FilesReply(true, files)
      ensures controller != null ==>
                && controller.Valid()
                && reply == FilesReply(devMode || Has(old(controller.Model()), node, id), files)
                && controller.Model() == (if reply == NotAcceptable || files.None? || files.value == []
                                          then old(controller.Model())
                                          else WithFile(old(controller.Model()), id, files.value[0]))
    {
      if controller == null {
        return FilesReply(true, files);
      }
      reply := PostFileKnown(node, id, files);
    }
  }

  /** The reply to posted files: behind the gate it depends on what can be read and saved alone. */
  function FilesReply(admitted: bool, files: Option<seq<Saved>>): (reply: Reply)
    ensures reply == NotAcceptable <==> !admitted
    ensures reply == BadRequest <==> admitted && files.None?
    ensures reply == Accepted
            <==> admitted && files.Some? && forall i | 0 <= i < |files.value| :: files.value[i].Written?
  {
    if !admitted then NotAcceptable
    else if files.None? then BadRequest
    else if forall i | 0 <= i < |files.value| :: files.value[i].Written? then Accepted
    else ServerError
  }

  lemma WithFilesSnoc(c: Controller, id: string, saved: seq<Saved>, next: Saved)
    ensures WithFiles(c, id, saved + [next]) == WithFile(WithFiles(c, id, saved), id, next)
  {
    var more := saved + [next];
    assert more[|saved|] == next && forall i | 0 <= i < |saved| :: more[i] == saved[i];
  }

  class PodReconciler {
    const controller: Lifecycle.Controller
    const savePodLog: bool

    constructor (controller: Lifecycle.Controller, savePodLog: bool)
      ensures this.controller == controller && this.savePodLog == savePodLog
    {
      this.controller, this.savePodLog := controller, savePodLog;
    }

    /** savePodLogs: a container whose log cannot be read or written does not stop the others. */
    method SavePodLogs(id: string, logs: seq<Saved>)
      requires controller.Valid()
      modifies controller`dirs
      ensures controller.Valid() && controller.Model() == WithFiles(old(controller.Model()), id, logs)
    {
      for i := 0 to |logs|
        invariant controller.Valid() && controller.Model() == WithFiles(old(controller.Model()), id, logs[..i])
      {
        WithFilesSnoc(old(controller.Model()), id, logs[..i], logs[i]);
        assert logs[..i + 1] == logs[..i] + [logs[i]];
        SaveInto(controller, id, logs[i]);
      }
      assert logs[..|logs|] == logs;
    }

    /** The logs of a known pod, if they are to be kept. */
    method KeepLogs(node: string, id: string, logs: seq<Saved>)
      requires controller.Valid()
      modifies controller`dirs
      ensures controller.Valid() && controller.Model() == WithLogs(old(controller.Model()), savePodLog, node, id, logs)
    {
      var known := controller.Has(node, id);
      controller.Kept();
      if !savePodLog || !known {
        return;
      }
      SavePodLogs(id, logs);
    }

    /** Reconcile fails exactly when the pod cannot be fetched; an unknown execution or node is no failure. */
    method Reconcile(fetched: Fetched, t: nat, d: real) returns (failed: bool)
      requires controller.Valid()
      modifies controller`dirs, controller`progress, controller.all, controller.PodObjects(), controller.prom.Metrics()
      ensures controller.Valid()
      ensures failed <==> fetched.Unavailable?
      ensures controller.Model() == Reconciled(old(controller.Model()), savePodLog, fetched, t, d)
    {
      match fetched
      case NotFound => failed := false;
      case Unavailable => failed := true;
      case Found(id, node, phase, logs) =>
        if phase == PHASE_SUCCEEDED || phase == PHASE_FAILED {
          KeepLogs(node, id, logs);
          // not found is the only error PodTerminated has, and it is tolerated
          var found := controller.PodTerminated(id, node, phase == PHASE_SUCCEEDED, t, d);
        }
        failed := false;
    }
  }

  // ---------------------------------------------------------------- the handlers are steps

  /** When which reply is given, whatever is posted. */
  lemma RepliesIff(c: Controller, devMode: bool, node: string, id: string, body: Option<seq<CollectorModel.Reported>>,
                   saved: Saved, t: nat)
    ensures var reply := Posted(c, devMode, node, id, body, saved, t).0;
            var admitted := devMode || (node in c.nodes && id in c.current);
            && (reply == NotAcceptable <==> !admitted)
            && (reply == BadRequest <==> admitted && body.None?)
            && (reply == ServerError <==> admitted && body.Some? && saved != Written)
            && (reply == Accepted <==> admitted && body.Some? && saved == Written)
  {
  }

  /**
   * What the callback server does to the controller is one step for an accepted report, an upload where only the
   * directory was made, and no step else.
   */
  lemma PostedIsAStep(cfg: Config, evs: seq<Event>, s: State, node: string, id: string,
                      body: Option<seq<CollectorModel.Reported>>, saved: Saved, t: nat) returns (more: seq<Event>)
    requires Run(cfg, evs) == Some(s) && !s.panicked
    ensures Run(cfg, evs + more) == Some(s.(ctl := Posted(s.ctl, cfg.devMode, node, id, body, saved, t).1))
    ensures var admitted := cfg.devMode || (node in s.ctl.nodes && id in s.ctl.current);
            more == if !admitted || body.None? || saved == NoDirectory then []
                    else if saved == Written then [PostResult(id, node, false, t, body.value)]
                    else [SaveFile(id, node)]
  {
    RepliesIff(s.ctl, cfg.devMode, node, id, body, saved, t);
    var (reply, after) := Posted(s.ctl, cfg.devMode, node, id, body, saved, t);
    if reply.Accepted? {
      more := [PostResult(id, node, false, t, body.value)];
    } else if reply.ServerError? && saved.NoFile? {
      more := [SaveFile(id, node)];
    } else {
      more := [];
      assert evs + more == evs;
    }
    if more != [] {
      SystemInvariant.Extend(cfg, evs, Ledgers(cfg, evs), s, more[0]);
    }
  }

  /** Keeping the logs is an upload, if they are kept, the pod is known and some log reaches the directory. */
  ghost function LogEvents(c: Controller, savePodLog: bool, node: string, id: string, logs: seq<Saved>): seq<Event> {
    if savePodLog && node in c.nodes && id in c.current && exists i :: 0 <= i < |logs| && logs[i] != NoDirectory
    then [SaveFile(id, node)]
    else []
  }

  lemma LogsAreAStep(cfg: Config, evs: seq<Event>, s: State, savePodLog: bool, node: string, id: string,
                     logs: seq<Saved>)
    requires Run(cfg, evs) == Some(s) && !s.panicked
    ensures Run(cfg, evs + LogEvents(s.ctl, savePodLog, node, id, logs))
         == Some(s.(ctl := WithLogs(s.ctl, savePodLog, node, id, logs)))
  {
    if LogEvents(s.ctl, savePodLog, node, id, logs) == [] {
      assert evs + [] == evs;
    } else {
      SystemInvariant.Extend(cfg, evs, Ledgers(cfg, evs), s, SaveFile(id, node));
    }
  }

  /**
   * Reconcile delivers the end of a pod once, exactly in the phases Succeeded and Failed, after an upload if it keeps a
   * log of it; in every other case it takes no step.
   */
  lemma ReconciledIsSteps(cfg: Config, evs: seq<Event>, s: State, savePodLog: bool, fetched: Fetched, t: nat, d: real)
    returns (more: seq<Event>)
    requires Run(cfg, evs) == Some(s) && !s.panicked
    ensures Run(cfg, evs + more) == Some(s.(ctl := Reconciled(s.ctl, savePodLog, fetched, t, d)))
    ensures more == match fetched
                    case Found(id, node, phase, logs) =>
                      (if phase == "Succeeded" || phase == "Failed" then
                         LogEvents(s.ctl, savePodLog, node, id, logs)
                         + [Terminate(id, node, phase == "Succeeded", t, d)]
                       else [])
                    case _ => []
  {
    if fetched.Found? && Terminal(fetched.phase) {
      var Found(id, node, phase, logs) := fetched;
      var first := LogEvents(s.ctl, savePodLog, node, id, logs);
      var kept := s.(ctl := WithLogs(s.ctl, savePodLog, node, id, logs));
      var end := Terminate(id, node, phase == "Succeeded", t, d);
      LogsAreAStep(cfg, evs, s, savePodLog, node, id, logs);
      SystemInvariant.Extend(cfg, evs + first, Ledgers(cfg, evs + first), kept, end);
      ConcatAssociates(evs, first, [end]);
      more := first + [end];
    } else {
      more := [];
      assert evs + more == evs;
    }
  }

  /** For a registered pod without an end: what Reconcile records, and in which phases. */
  lemma EndIsDelivered(c: Controller, savePodLog: bool, id: string, node: string, phase: string, logs: seq<Saved>,
                       t: nat, d: real, k: nat)
    requires id in c.current && c.current[id] == k && k < |c.execs|
    requires node in c.execs[k].pods && c.execs[k].pods[node].terminated.None?
    ensures var x, r := c.execs[k], Reconciled(c, savePodLog, Found(id, node, phase, logs), t, d);
            if phase == "Succeeded" || phase == "Failed" then
              && r.execs == c.execs[k := x.(pods := x.pods[node := x.pods[node].(terminated := Some(t))])]
              && r.progress == c.progress + 1
              && r.current == c.current && r.nodes == c.nodes && r.jobs == c.jobs
              && r.prom.custom == c.prom.custom && r.prom.pods == c.prom.pods
              && Lookup(r.prom.duration.series, [node, id]) == Some(d)
              && Lookup(r.prom.proc.series, [node, id])
                 == (if phase == "Succeeded" && x.pods[node].reported.Some? then Lookup(c.prom.proc.series, [node, id])
                     else Some(1.0))
            else
              r == c
  {
  }

  /**
   * Outside DevMode, once an ID is pruned and until it is issued again, the callback server rejects every report
   * for it and the reconciler changes nothing for it, whatever they are given.
   */
  lemma LateDeliveriesChangeNothing(cfg: Config, evs: seq<Event>, id: string, removed: bool, more: seq<Event>,
                                    node: string, t: nat)
    requires !cfg.devMode && id != MetricIndex.LATEST
    requires Run(cfg, evs + [PruneNext(id, removed)] + more).Some?
    requires forall e | e in more :: !(e.Begin? && e.id == id)
    ensures var c := Run(cfg, evs + [PruneNext(id, removed)] + more).value.ctl;
            && (forall body, saved :: Posted(c, cfg.devMode, node, id, body, saved, t) == (NotAcceptable, c))
            && (forall savePodLog, phase, logs, d ::
                  Reconciled(c, savePodLog, Found(id, node, phase, logs), t, d) == c)
  {
    Coupling.PrunedStaysGone(cfg, evs, id, removed, more);
  }
}
