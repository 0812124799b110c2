/**
 * The lifecycle controller on the heap: pod records, executions and the controller are objects that its methods update
 * in place. Each method is proved to take the step of the state machine in Protocol that carries its name.
 */
module Lifecycle {
  import opened Collections
  import opened Metrics
  import CollectorModel
  import MetricIndex
  import Retention
  import P = Protocol

  class Pod {
    const node: string
    ghost const owner: Execution
    var started: Option<nat>
    var terminated: Option<nat>
    var reportReceived: Option<nat>

    constructor (node: string, ghost owner: Execution)
      ensures this.node == node && this.owner == owner && View() == P.NEW_POD
    {
      this.node, this.owner := node, owner;
      started, terminated, reportReceived := None, None, None;
    }

    function View(): P.Pod
      reads this
    {
      P.Pod(started, terminated, reportReceived)
    }
  }

  class Execution {
    const id: string
    /** The position among all executions ever started. */
    ghost const index: nat
    var pods: map<string, Pod>
    var jobChan: seq<string>
    var closed: bool
    /** The local states of the goroutines that NewExecution started. */
    var workers: seq<P.Worker>
    ghost var model: P.Execution

    ghost function PodObjects(): set<Pod>
      reads this
    {
      set node | node in pods :: pods[node]
    }

    ghost predicate Valid()
      reads this, PodObjects()
    {
      && model.id == id && model.queue == jobChan && model.closed == closed && model.workers == workers
      && model.pods.Keys == pods.Keys
      && forall node | node in pods ::
           pods[node].node == node && pods[node].owner == this && pods[node].View() == model.pods[node]
    }

    constructor (id: string, poolSize: nat, ghost index: nat)
      ensures Valid() && this.id == id && this.index == index
      ensures model == P.Execution(id, map[], [], false, seq(poolSize, _ => P.Waiting))
      ensures PodObjects() == {}
    {
      this.id, this.index := id, index;
      pods, jobChan, closed, workers := map[], [], false, seq(poolSize, _ => P.Waiting);
      model := P.Execution(id, map[], [], false, seq(poolSize, _ => P.Waiting));
    }

    method Store(node: string)
      requires Valid()
      modifies this`pods, this`model
      ensures Valid() && model == old(model).(pods := old(model).pods[node := P.NEW_POD])
    {
      var p := new Pod(node, this);
      pods := pods[node := p];
      model := model.(pods := model.pods[node := P.NEW_POD]);
    }

    method Send(node: string)
      requires Valid() && !closed
      modifies this`jobChan, this`model
      ensures Valid() && model == old(model).(queue := old(model).queue + [node])
    {
      jobChan := jobChan + [node];
      model := model.(queue := jobChan);
    }

    method Close()
      requires Valid() && !closed
      modifies this`closed, this`model
      ensures Valid() && model == old(model).(closed := true) && closed
    {
      closed := true;
      model := model.(closed := true);
    }

    method MarkStarted(w: nat, node: string, t: nat)
      requires Valid() && node in pods && w < |workers|
      modifies pods[node], this`workers, this`model
      ensures Valid()
      ensures model == P.WithWorker(WithPod(old(model), node, old(model).pods[node].(started := Some(t))), w,
                                    P.Polling(node))
    {
      pods[node].started := Some(t);
      workers := workers[w := P.Polling(node)];
      model := P.WithWorker(WithPod(model, node, model.pods[node].(started := Some(t))), w, P.Polling(node));
    }

    method MarkTerminated(node: string, t: nat)
      requires Valid() && node in pods
      modifies pods[node], this`model
      ensures Valid() && model == WithPod(old(model), node, old(model).pods[node].(terminated := Some(t)))
    {
      pods[node].terminated := Some(t);
      model := WithPod(model, node, model.pods[node].(terminated := Some(t)));
    }

    method MarkReported(node: string, t: nat)
      requires Valid() && node in pods
      modifies pods[node], this`model
      ensures Valid() && model == WithPod(old(model), node, old(model).pods[node].(reported := Some(t)))
    {
      pods[node].reportReceived := Some(t);
      model := WithPod(model, node, model.pods[node].(reported := Some(t)));
    }

    method MoveWorker(w: nat, to: P.Worker)
      requires Valid() && w < |workers|
      modifies this`workers, this`model
      ensures Valid() && model == P.WithWorker(old(model), w, to)
    {
      workers := workers[w := to];
      model := P.WithWorker(model, w, to);
    }

    /** The receive of the worker loop. */
    method Receive(w: nat) returns (node: string)
      requires Valid() && w < |workers| && jobChan != []
      modifies this`jobChan, this`workers, this`model
      ensures Valid() && node == old(model).queue[0]
      ensures model == P.WithWorker(old(model), w, P.Holding(node)).(queue := old(model).queue[1..])
    {
      node := jobChan[0];
      jobChan := jobChan[1..];
      workers := workers[w := P.Holding(node)];
      model := P.WithWorker(model, w, P.Holding(node)).(queue := jobChan);
    }
  }

  /** What became of AddPod. */
  datatype Added = UnknownID | Sent | Blocks | SendPanics

  /** What ReadDir and SortFunc made of the report directory; the sort panics on an entry that is gone by then. */
  datatype Listing = Unreadable | EntryGone | Sorted(files: seq<P.Entry>)

  /** What became of AllAdded. */
  datatype AllAddedResult = Failed | Closed | Panics

  class Controller {
    const podPoolSize: int
    /** The size up to which the runtime can make a channel. */
    const chanLimit: nat
    const reportHistory: int
    const prom: Collector
    var executions: map<string, Execution>
    var nodes: set<string>
    var progress: nat
    var jobs: nat
    /** The entries of the report directory. */
    var dirs: set<string>
    /** Every execution ever started; workers keep using theirs after it left the map. */
    ghost var all: seq<Execution>
    ghost var current: map<string, nat>

    ghost function PodObjects(): set<Pod>
      reads this, all
    {
      set e, pod | e in all && pod in e.PodObjects() :: pod
    }

    ghost predicate ExecutionsValid()
      reads this, all, PodObjects()
    {
      forall k | 0 <= k < |all| :: all[k].index == k && all[k].Valid()
    }

    ghost predicate MapValid()
      reads this
    {
      && executions.Keys == current.Keys
      && forall id | id in executions ::
           current[id] < |all| && executions[id] == all[current[id]] && executions[id].id == id
    }

    ghost predicate Valid()
      reads this, all, PodObjects(), prom, prom.Metrics(), prom.Rows()
    {
      ExecutionsValid() && MapValid() && prom.Valid()
    }

    ghost function Execs(): seq<P.Execution>
      reads this, all
    {
      seq(|all|, k requires 0 <= k < |all| reads this, all => all[k].model)
    }

    /** The controller as a value of the state machine. */
    ghost function Model(): P.Controller
      reads this, all, prom, prom.Metrics()
    {
      P.Controller(Execs(), current, nodes, progress, jobs, prom.Model(), dirs)
    }

    constructor (poolSize: int, chanLimit: nat, history: int, prom: Collector, entries: set<string>)
      requires prom.Valid()
      ensures Valid() && podPoolSize == poolSize && this.chanLimit == chanLimit
      ensures reportHistory == history + 1 && this.prom == prom
      ensures Model() == P.Controller([], map[], {}, 0, 0, prom.Model(), entries)
    {
      podPoolSize, this.chanLimit, reportHistory, this.prom := poolSize, chanLimit, history + 1, prom;
      executions, nodes, progress, jobs, dirs, all, current := map[], {}, 0, 0, entries, [], map[];
    }

    method Has(node: string, executionID: string) returns (known: bool)
      requires Valid()
      ensures known == P.Has(Model(), node, executionID)
      ensures known <==> node in nodes && executionID in executions
    {
      if node !in nodes {
        return false;
      }
      known := executionID in executions;
    }

    /** forID on the heap and on the model. */
    lemma LookedUp(id: string)
      requires ExecutionsValid() && MapValid()
      ensures id !in executions ==> P.ForID(Model(), id) == None
      ensures id in executions ==>
                var e := executions[id];
                && e in all && e.id == id && e.Valid()
                && P.ForID(Model(), id) == Some(e.index) && Model().execs[e.index] == e.model
    {
    }

    /** No other execution shares a pod record with e. */
    lemma PodsAreOwn(e: Execution, node: string)
      requires ExecutionsValid() && e in all && node in e.pods
      ensures forall i | 0 <= i < |all| && i != e.index :: e.pods[node] !in all[i].PodObjects()
    {
      assert e.pods[node].owner == e;
    }

    // ---------------------------------------------------------------- frames

    /** Only execution k differs from before. */
    twostate lemma OthersKept(k: nat)
      requires k < |all| && all == old(all) && old(ExecutionsValid())
      requires all[k].Valid()
      requires forall i | 0 <= i < |all| && i != k :: unchanged(all[i]) && unchanged(all[i].PodObjects())
      ensures ExecutionsValid() && Execs() == old(Execs())[k := all[k].model]
    {
    }

    /** No execution differs from before. */
    twostate lemma ExecutionsKept()
      requires old(ExecutionsValid()) && all == old(all)
      requires forall i | 0 <= i < |all| :: unchanged(all[i]) && unchanged(all[i].PodObjects())
      ensures ExecutionsValid() && Execs() == old(Execs())
    {
    }

    /** The collector does not differ from before. */
    twostate lemma PromKept()
      requires old(prom.Valid()) && unchanged(prom) && unchanged(prom.Metrics()) && unchanged(prom.Rows())
      ensures prom.Valid() && prom.Model() == old(prom.Model())
    {
    }

    /** Nothing differs from before. */
    twostate lemma Kept()
      requires old(Valid()) && unchanged(this) && unchanged(all) && unchanged(old(PodObjects()))
      requires unchanged(prom) && unchanged(prom.Metrics()) && unchanged(prom.Rows())
      ensures Valid() && Model() == old(Model())
    {
      ExecutionsKept();
      PromKept();
    }

    // ---------------------------------------------------------------- steps of one execution

    method AddProgress()
      requires Valid()
      modifies this`progress
      ensures Valid() && Model() == old(Model()).(progress := old(progress) + 1)
    {
      progress := progress + 1;
      ExecutionsKept();
      PromKept();
    }

    /** AddPod up to the channel send. */
    method StorePod(e: Execution, node: string)
      requires Valid() && e in all
      modifies this`nodes, e`pods, e`model
      ensures Valid() && Model() == P.StorePod(old(Model()), e.index, node)
    {
      nodes := nodes + {node};
      e.Store(node);
      OthersKept(e.index);
      PromKept();
    }

    /** The channel send of AddPod; the channel is open and has room. */
    method SendJob(e: Execution, node: string)
      requires Valid() && e in all && !e.closed && |e.jobChan| < podPoolSize
      modifies e`jobChan, e`model
      ensures Valid() && Model() == P.SendJob(old(Model()), e.index, node)
    {
      e.Send(node);
      OthersKept(e.index);
      PromKept();
    }

    /** The last statement of AllAdded. */
    method CloseChannel(e: Execution)
      requires Valid() && e in all && !e.closed
      modifies e`closed, e`model
      ensures Valid() && Model() == P.CloseChannel(old(Model()), e.index) && e.closed
    {
      e.Close();
      OthersKept(e.index);
      PromKept();
    }

    /** The head of the worker loop: receive a job. */
    method ReceiveJob(e: Execution, w: nat) returns (node: string)
      requires Valid() && e in all && w < |e.workers| && e.workers[w] == P.Waiting && e.jobChan != []
      modifies e
      ensures Valid() && Model() == P.ReceiveJob(old(Model()), e.index, w) && node == old(e.jobChan)[0]
    {
      node := e.Receive(w);
      OthersKept(e.index);
      PromKept();
    }

    /** The worker moves on; the four methods below say where from and where to. */
    method StepWorker(e: Execution, w: nat, to: P.Worker)
      requires Valid() && e in all && w < |e.workers|
      modifies e
      ensures Valid() && Model() == P.StepWorker(old(Model()), e.index, w, to)
    {
      e.MoveWorker(w, to);
      OthersKept(e.index);
      PromKept();
    }

    /** The worker calls CreatePod. */
    method CallCreatePod(e: Execution, w: nat)
      requires Valid() && e in all && w < |e.workers| && e.workers[w].Holding?
      modifies e
      ensures Valid() && Model() == P.StepWorker(old(Model()), e.index, w, P.Creating(old(e.workers[w].node)))
    {
      StepWorker(e, w, P.Creating(e.workers[w].node));
    }

    /** The head of the worker loop finds the channel closed and empty. */
    method LeaveLoop(e: Execution, w: nat)
      requires Valid() && e in all && w < |e.workers| && e.workers[w] == P.Waiting && e.closed && e.jobChan == []
      modifies e
      ensures Valid() && Model() == P.StepWorker(old(Model()), e.index, w, P.Exited)
    {
      StepWorker(e, w, P.Exited);
    }

    /** One look at the pod a worker polls; the job is finished, and counted, exactly when its end is recorded. */
    method Poll(e: Execution, w: nat) returns (finished: bool)
      requires Valid() && e in all && w < |e.workers| && e.workers[w].Polling? && e.workers[w].node in e.pods
      modifies this`progress, e
      ensures Valid() && finished == old(e.model.pods[e.workers[w].node].terminated.Some?)
      ensures Model() == if finished then P.MarkFinished(old(Model()), e.index, w) else old(Model())
    {
      finished := e.pods[e.workers[w].node].terminated.Some?;
      if finished {
        StepWorker(e, w, P.Waiting);
        AddProgress();
      }
    }

    method StartPod(e: Execution, w: nat, node: string, t: nat)
      requires Valid() && e in all && w < |e.workers| && node in e.pods
      modifies e`model, e`workers, e.pods[node]
      ensures Valid()
      ensures e.model == P.WithWorker(WithPod(old(e.model), node, old(e.model).pods[node].(started := Some(t))), w,
                                      P.Polling(node))
      ensures Model() == P.WithExec(old(Model()), e.index, e.model)
    {
      PodsAreOwn(e, node);
      e.MarkStarted(w, node, t);
      OthersKept(e.index);
      PromKept();
    }

    /** The worker after CreatePod: look the pod up, mark it started and count it. */
    method MarkStarted(e: Execution, w: nat, node: string, t: nat)
      requires Valid() && e in all && w < |e.workers| && e.workers[w] == P.Creating(node)
      modifies this`progress, e, e.PodObjects()
      ensures Valid() && Model() == P.MarkStarted(old(Model()), e.index, w, node, t)
    {
      if node in e.pods {
        assert e.pods[node] in e.PodObjects();
        StartPod(e, w, node, t);
        AddProgress();
      } else {
        StepWorker(e, w, P.Dead);
      }
    }

    /** The write to the pod record in PodTerminated. */
    method EndPod(e: Execution, node: string, t: nat)
      requires Valid() && e in all && node in e.pods
      modifies e`model, e.pods[node]
      ensures Valid()
      ensures e.model == WithPod(old(e.model), node, old(e.model).pods[node].(terminated := Some(t)))
      ensures Model() == P.WithExec(old(Model()), e.index, e.model)
    {
      PodsAreOwn(e, node);
      e.MarkTerminated(node, t);
      OthersKept(e.index);
      PromKept();
    }

    /** The write to the pod record in ReportReceived. */
    method ReportPod(e: Execution, node: string, t: nat)
      requires Valid() && e in all && node in e.pods
      modifies e`model, e.pods[node]
      ensures Valid()
      ensures e.model == WithPod(old(e.model), node, old(e.model).pods[node].(reported := Some(t)))
      ensures Model() == P.WithExec(old(Model()), e.index, e.model)
    {
      PodsAreOwn(e, node);
      e.MarkReported(node, t);
      OthersKept(e.index);
      PromKept();
    }

    method RecordEnd(node: string, executionID: string, bad: bool, d: real)
      requires Valid()
      modifies prom.Metrics()
      ensures Valid()
      ensures var q := CollectorModel.Duration(old(prom.Model()), node, executionID, d);
              Model() == old(Model()).(
                prom := if bad then CollectorModel.ProcessingFinished(q, node, executionID, true) else q)
    {
      prom.PodEnded(node, executionID, bad, d);
      ExecutionsKept();
    }

    /** PodTerminated for a registered pod whose end is not recorded yet. */
    method EndRegistered(e: Execution, node: string, bad: bool, t: nat, d: real)
      requires Valid() && e in all && node in e.pods
      modifies this`progress, e`model, e.pods[node], prom.Metrics()
      ensures Valid()
      ensures Model() == Ended(old(Model()), e.index, e.id, node, bad, t, d)
    {
      EndPod(e, node, t);
      RecordEnd(node, e.id, bad, d);
      AddProgress();
    }

    method PodTerminated(executionID: string, node: string, succeeded: bool, t: nat, d: real) returns (found: bool)
      requires Valid()
      modifies this`progress, all, PodObjects(), prom.Metrics()
      ensures Valid() && Model() == P.PodTerminated(old(Model()), executionID, node, succeeded, t, d)
      ensures found == old(executionID in executions && node in executions[executionID].pods)
    {
      LookedUp(executionID);
      if executionID !in executions || node !in executions[executionID].pods {
        return false;
      }
      found := true;
      var e := executions[executionID];
      var p := e.pods[node];
      if p.terminated.Some? {
        return;
      }
      assert p in e.PodObjects();
      EndRegistered(e, node, !succeeded || p.reportReceived.None?, t, d);
    }

    method RecordReport(executionID: string, node: string, failed: bool, results: seq<CollectorModel.Reported>)
      requires Valid()
      modifies prom.Metrics()
      ensures Valid()
      ensures var q := CollectorModel.MetricsFor(old(prom.Model()), executionID, node, results);
              Model() == old(Model()).(prom := CollectorModel.ProcessingFinished(q, node, executionID, failed))
    {
      prom.Report(executionID, node, failed, results);
      ExecutionsKept();
    }

    method ReportRegistered(e: Execution, node: string, failed: bool, t: nat, results: seq<CollectorModel.Reported>)
      requires Valid() && e in all && node in e.pods
      modifies e`model, e.pods[node], prom.Metrics()
      ensures Valid() && Model() == Reported(old(Model()), e.index, e.id, node, failed, t, results)
    {
      RecordReport(e.id, node, failed, results);
      ReportPod(e, node, t);
    }

    method ReportReceived(executionID: string, node: string, failed: bool, t: nat, results: seq<CollectorModel.Reported>)
      requires Valid()
      modifies all, PodObjects(), prom.Metrics()
      ensures Valid() && Model() == P.ReportReceived(old(Model()), executionID, node, failed, t, results)
    {
      LookedUp(executionID);
      if executionID in executions && node in executions[executionID].pods {
        var e := executions[executionID];
        assert e.pods[node] in e.PodObjects();
        ReportRegistered(e, node, failed, t, results);
      } else {
        RecordReport(executionID, node, failed, results);
      }
    }

    // ---------------------------------------------------------------- executions come and go

    method Register(e: Execution)
      requires Valid() && e.Valid() && e.index == |all|
      modifies this`all, this`executions, this`current
      ensures Valid()
      ensures Model() == old(Model()).(execs := old(Execs()) + [e.model], current := old(current)[e.id := old(|all|)])
    {
      executions, current := executions[e.id := e], current[e.id := |all|];
      all := all + [e];
      PromKept();
    }

    method Reset(jobCount: nat, entries: set<string>)
      requires Valid()
      modifies this`jobs, this`progress, this`dirs
      ensures Valid() && Model() == old(Model()).(progress := 0, jobs := jobCount, dirs := entries)
    {
      jobs, progress, dirs := jobCount, 0, entries;
      ExecutionsKept();
      PromKept();
    }

    method RecordPods(jobCount: nat)
      requires Valid()
      modifies prom`podsGauge
      ensures Valid() && Model() == old(Model()).(prom := old(prom.Model()).(pods := jobCount as real))
    {
      prom.Pods(jobCount as real);
      ExecutionsKept();
    }

    /**
     * NewExecution at the time stamp id; dirMade and linked say what became of the report directory. A channel of
     * negative size, or too large a one, cannot be made: the call panics before it changes anything.
     */
    method NewExecution(id: string, jobCount: nat, dirMade: bool, linked: bool) returns (e: Execution?)
      requires Valid()
      modifies this, prom
      ensures Valid() && (e != null <==> 0 <= podPoolSize <= chanLimit) && (e != null ==> fresh(e))
      ensures Model() == if e == null then old(Model())
                         else P.NewExecution(old(Model()), podPoolSize, id, jobCount, dirMade, linked)
    {
      if podPoolSize < 0 || podPoolSize > chanLimit {
        return null;
      }
      e := new Execution(id, podPoolSize, |all|);
      Kept();
      Register(e);
      Reset(jobCount, dirs - {MetricIndex.LATEST} + (if dirMade then {id} else {})
                      + (if linked then {MetricIndex.LATEST} else {}));
      RecordPods(jobCount);
    }

    method PruneMetrics(name: string)
      requires Valid()
      modifies prom.Metrics()
      ensures Valid()
      ensures Model() == old(Model()).(prom := CollectorModel.PruneAll(old(prom.Model()), name))
    {
      prom.PruneAll(name);
      ExecutionsKept();
    }

    method Forget(name: string, removed: bool)
      requires Valid()
      modifies this`executions, this`current, this`dirs
      ensures Valid()
      ensures Model() == old(Model()).(current := old(current) - {name},
                                       dirs := if removed then old(dirs) - {name} else old(dirs))
    {
      executions, current := executions - {name}, current - {name};
      dirs := if removed then dirs - {name} else dirs;
      ExecutionsKept();
      PromKept();
    }

    /** One round of the pruning loop. */
    method PruneOne(name: string, removed: bool)
      requires Valid()
      modifies this`executions, this`current, this`dirs, prom.Metrics()
      ensures Valid() && Model() == P.PruneName(old(Model()), name, removed)
    {
      Forget(name, removed);
      PruneMetrics(name);
    }

    /**
     * AddPod up to the point where it returns or waits for room in the channel; in Protocol the producer then stands
     * between Store and Send. A send on a closed channel panics.
     */
    method AddPod(id: string, node: string) returns (added: Added)
      requires Valid()
      modifies this`nodes, all
      ensures Valid()
      ensures added == AddedTo(old(Model()), podPoolSize, id)
      ensures added == UnknownID <==> id !in executions
      ensures id in executions ==>
                && (added == Sent <==> !executions[id].closed && old(|executions[id].jobChan|) < podPoolSize)
                && (added == Blocks <==> !executions[id].closed && old(|executions[id].jobChan|) >= podPoolSize)
      ensures Model() == match P.ForID(old(Model()), id)
                         case None => old(Model())
                         case Some(k) =>
                           var c := P.StorePod(old(Model()), k, node);
                           if added.Sent? then P.SendJob(c, k, node) else c
    {
      LookedUp(id);
      if id !in executions {
        return UnknownID;
      }
      var e := executions[id];
      StorePod(e, node);
      if e.closed {
        return SendPanics;
      }
      if |e.jobChan| >= podPoolSize {
        return Blocks;
      }
      SendJob(e, node);
      added := Sent;
    }

    /** The loop over the first pruneCnt entries; it panics behind the last one. */
    method PruneExpired(files: seq<P.Entry>, pruneCnt: nat, stuck: set<string>) returns (beyond: bool)
      requires Valid()
      modifies this`executions, this`current, this`dirs, prom.Metrics()
      ensures Valid() && beyond == (pruneCnt > |files|)
      ensures var names := P.EntryNames(files)[..if beyond then |files| else pruneCnt];
              Model() == Pruned(old(Model()), names, stuck)
    {
      ghost var c, names := Model(), P.EntryNames(files);
      var i := 0;
      while i < pruneCnt && i < |files|
        invariant i <= pruneCnt && i <= |files|
        invariant Valid() && Model() == Pruned(c, names[..i], stuck)
      {
        PruneSnoc(c, names[..i], names[i], stuck);
        assert names[..i + 1] == names[..i] + [names[i]];
        PruneOne(files[i].name, CanRemove(files[i].name, stuck));
        i := i + 1;
      }
      // the source takes files[i] of every i below pruneCnt
      beyond := i < pruneCnt;
    }

    /**
     * AllAdded; stuck are the directories that cannot be removed. The channel is closed even when the execution
     * itself expires.
     */
    method AllAdded(executionID: string, listing: Listing, stuck: set<string>) returns (result: AllAddedResult)
      requires Valid()
      modifies this`executions, this`current, this`dirs, prom.Metrics(), all
      ensures Valid()
      ensures result == AllAddedReturns(old(Model()), executionID, listing, reportHistory - 1)
      ensures result == Closed ==> old(executionID in executions) && old(executions[executionID]).closed
      ensures Model() == AfterAllAdded(old(Model()), executionID, listing, reportHistory - 1, stuck)
    {
      LookedUp(executionID);
      if executionID !in executions || listing.Unreadable? {
        return Failed;
      }
      if listing.EntryGone? {
        return Panics;
      }
      result := PruneAndClose(executions[executionID], listing.files, stuck);
    }

    method PruneAndClose(e: Execution, files: seq<P.Entry>, stuck: set<string>) returns (result: AllAddedResult)
      requires Valid() && e in all
      modifies this`executions, this`current, this`dirs, prom.Metrics(), e`closed, e`model
      ensures Valid()
      ensures result == if P.PruneCount(|files|, reportHistory - 1) > |files| || old(e.closed) then Panics else Closed
      ensures result == Closed ==> e.closed
      ensures Model() == PrunedAndClosed(old(Model()), e.index, files, reportHistory - 1, stuck)
    {
      var pruneCnt := if |files| > reportHistory then |files| - reportHistory else 0;
      PruneNamesFrame(Model(), P.Expired(files, reportHistory - 1), stuck);
      var beyond := PruneExpired(files, pruneCnt, stuck);
      if beyond || e.closed {
        return Panics;
      }
      CloseChannel(e);
      result := Closed;
    }

    method MakeReportDir(executionID: string)
      requires Valid()
      modifies this`dirs
      ensures Valid() && Model() == P.MakeReportDir(old(Model()), executionID)
    {
      dirs := dirs + {executionID};
      ExecutionsKept();
      PromKept();
    }
  }

  function AddedTo(c: P.Controller, poolSize: int, id: string): Added {
    match P.ForID(c, id)
    case None => UnknownID
    case Some(k) =>
      if c.execs[k].closed then SendPanics else if |c.execs[k].queue| < poolSize then Sent else Blocks
  }

  predicate CanRemove(name: string, stuck: set<string>) {
    name !in stuck
  }

  /** Which of the names have a directory that can be removed. */
  function Removable(names: seq<string>, stuck: set<string>): seq<bool> {
    seq(|names|, i requires 0 <= i < |names| => CanRemove(names[i], stuck))
  }

  /** The controller after the pruning loop over the names. */
  function Pruned(c: P.Controller, names: seq<string>, stuck: set<string>): P.Controller {
    Retention.PruneNames(c, names, Removable(names, stuck))
  }

  lemma PruneSnoc(c: P.Controller, names: seq<string>, name: string, stuck: set<string>)
    ensures Pruned(c, names + [name], stuck) == P.PruneName(Pruned(c, names, stuck), name, CanRemove(name, stuck))
  {
    var more := names + [name];
    assert more[..|names|] == names && Removable(more, stuck)[..|names|] == Removable(names, stuck);
  }

  lemma PruneNamesFrame(c: P.Controller, names: seq<string>, stuck: set<string>)
    ensures Pruned(c, names, stuck).execs == c.execs
  {
    Retention.PruneNamesRemovesExactly(c, names, Removable(names, stuck));
  }

  /** All expired names pruned, then the channel closed, unless the loop or the close panics. */
  ghost function PrunedAndClosed(c: P.Controller, k: nat, files: seq<P.Entry>, history: int, stuck: set<string>)
    : P.Controller
    requires k < |c.execs|
  {
    var names := P.Expired(files, history);
    PruneNamesFrame(c, names, stuck);
    var pruned := Pruned(c, names, stuck);
    if P.PruneCount(|files|, history) > |files| || c.execs[k].closed then pruned else P.CloseChannel(pruned, k)
  }

  function AllAddedReturns(c: P.Controller, id: string, listing: Listing, history: int): AllAddedResult {
    match P.ForID(c, id)
    case None => Failed
    case Some(k) =>
      match listing
      case Unreadable => Failed
      case EntryGone => Panics
      case Sorted(files) =>
        if P.PruneCount(|files|, history) > |files| || c.execs[k].closed then Panics else Closed
  }

  /** AllAdded does nothing without the execution or the listing. */
  ghost function AfterAllAdded(c: P.Controller, id: string, listing: Listing, history: int, stuck: set<string>)
    : P.Controller
  {
    match P.ForID(c, id)
    case None => c
    case Some(k) => if listing.Sorted? then PrunedAndClosed(c, k, listing.files, history, stuck) else c
  }

  /** The controller after the report of node in execution k was recorded. */
  ghost function Reported(c: P.Controller, k: nat, id: string, node: string, failed: bool, t: nat,
                          results: seq<CollectorModel.Reported>): P.Controller
    requires k < |c.execs| && node in c.execs[k].pods
  {
    var q := CollectorModel.MetricsFor(c.prom, id, node, results);
    P.WithExec(c, k, WithPod(c.execs[k], node, c.execs[k].pods[node].(reported := Some(t)))).(
      prom := CollectorModel.ProcessingFinished(q, node, id, failed))
  }

  /** The controller after the end of the pod of node in execution k was recorded. */
  ghost function Ended(c: P.Controller, k: nat, id: string, node: string, bad: bool, t: nat, d: real): P.Controller
    requires k < |c.execs| && node in c.execs[k].pods
  {
    var q := CollectorModel.Duration(c.prom, node, id, d);
    P.WithExec(c, k, WithPod(c.execs[k], node, c.execs[k].pods[node].(terminated := Some(t)))).(
      progress := c.progress + 1,
      prom := if bad then CollectorModel.ProcessingFinished(q, node, id, true) else q)
  }

  function WithPod(x: P.Execution, node: string, p: P.Pod): P.Execution {
    x.(pods := x.pods[node := p])
  }
}
