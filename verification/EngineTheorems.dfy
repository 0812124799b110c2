/** What the invariant says about every interleaving: pool bound, conservation, backpressure, channel discipline. */
module EngineTheorems {
  import opened Collections
  import MetricIndex
  import opened Protocol
  import opened Workers
  import opened ExecutionInvariant
  import opened SystemInvariant

  /** Pods created for an execution whose end is not recorded. */
  ghost function Running(l: Ledger, x: Execution): set<string> {
    set node | node in l.created && !(node in x.pods && x.pods[node].terminated.Some?)
  }

  function WorkerNodes(ws: seq<Worker>): seq<string> {
    seq(|ws|, i requires 0 <= i < |ws| => if Rank(ws[i]) > 0 then ws[i].node else "")
  }

  /** Exactly one worker holds the job. */
  ghost predicate HeldByOne(ws: seq<Worker>, node: string) {
    exists w :: 0 <= w < |ws| && HasFrom(ws[w], 1, node)
      && forall v | 0 <= v < |ws| && HasFrom(ws[v], 1, node) :: v == w
  }

  lemma HeldOnce(l: Ledger, x: Execution, node: string)
    requires SentInOrder(l, x) && Balanced(l, x.workers)
    requires node in l.received && node !in l.finished
    ensures HeldByOne(x.workers, node)
  {
    TimesMember(l.received, node);
    TimesMember(l.finished, node);
    ReceivedOnce(l, x, node);
    var w := CountMember(x.workers, 1, node);
    forall v | 0 <= v < |x.workers| && HasFrom(x.workers[v], 1, node)
      ensures v == w
    {
      if v < w {
        CountTwice(x.workers, v, w, 1, node);
      } else if w < v {
        CountTwice(x.workers, w, v, 1, node);
      }
    }
  }

  /**
   * Pool bound: in every reachable state at most poolSize pods of an execution are created and not recorded
   * terminated, because each of them is held by exactly one worker.
   */
  lemma PoolBound(cfg: Config, evs: seq<Event>, ls: seq<Ledger>, s: State, k: nat)
    requires Reaches(cfg, evs, ls, s) && k < |s.ctl.execs| && k < |ls|
    ensures |Running(ls[k], s.ctl.execs[k])| <= cfg.poolSize
    ensures forall node | node in Running(ls[k], s.ctl.execs[k]) :: HeldByOne(s.ctl.execs[k].workers, node)
  {
    ReachableExecution(cfg, evs, ls, s, k);
    var l, x := ls[k], s.ctl.execs[k];
    var nodes := WorkerNodes(x.workers);
    forall node | node in Running(l, x)
      ensures node in Elements(nodes) && HeldByOne(x.workers, node)
    {
      StartedIsSent(l, x, node);
      assert node !in l.finished;
      TimesMember(l.received, node);
      TimesMember(l.finished, node);
      var w := CountMember(x.workers, 1, node);
      assert nodes[w] == node;
      HeldOnce(l, x, node);
    }
    ElementsBound(nodes);
    SubsetCardinality(Running(l, x), Elements(nodes));
  }

  /**
   * Conservation and order: the jobs sent are the jobs received, in channel order, followed by the queue; every
   * received job is either finished, once, or held by exactly one worker.
   */
  lemma Conservation(cfg: Config, evs: seq<Event>, ls: seq<Ledger>, s: State, k: nat)
    requires Reaches(cfg, evs, ls, s) && k < |s.ctl.execs| && k < |ls|
    ensures ls[k].sent == ls[k].received + s.ctl.execs[k].queue
    ensures Distinct(ls[k].sent) && Distinct(ls[k].finished)
    ensures |ls[k].received| == Busy(s.ctl.execs[k].workers) + |ls[k].finished|
    ensures forall node | node in ls[k].received ::
              node in ls[k].finished <==> !HeldByOne(s.ctl.execs[k].workers, node)
    ensures forall node | node in ls[k].finished :: node in ls[k].received
    ensures forall w | 0 <= w < |s.ctl.execs[k].workers| && Rank(s.ctl.execs[k].workers[w]) > 0 ::
              s.ctl.execs[k].workers[w].node in ls[k].received
  {
    ReachableExecution(cfg, evs, ls, s, k);
    var l, x := ls[k], s.ctl.execs[k];
    ReceivedOnce(l, x, "");
    forall node
      ensures Times(l.finished, node) <= 1
      ensures node in l.finished ==> node in l.received
      ensures node in l.received ==> (node in l.finished <==> !HeldByOne(x.workers, node))
    {
      ReceivedOnce(l, x, node);
      StartedIsSent(l, x, node);
      if node in l.received && node !in l.finished {
        HeldOnce(l, x, node);
      }
      if HeldByOne(x.workers, node) {
        var w :| 0 <= w < |x.workers| && HasFrom(x.workers[w], 1, node);
        BusyWorkersJob(cfg.poolSize, l, x, w);
      }
    }
    TimesAtMostOnceIsDistinct(l.finished);
    forall w | 0 <= w < |x.workers| && Rank(x.workers[w]) > 0
      ensures x.workers[w].node in l.received
    {
      BusyWorkersJob(cfg.poolSize, l, x, w);
    }
  }

  /** Backpressure: the producer is never more than two pools ahead of the finished jobs. */
  lemma Backpressure(cfg: Config, evs: seq<Event>, ls: seq<Ledger>, s: State, k: nat)
    requires Reaches(cfg, evs, ls, s) && k < |s.ctl.execs| && k < |ls|
    ensures |ls[k].sent| - |ls[k].finished| <= 2 * cfg.poolSize
  {
    ReachableExecution(cfg, evs, ls, s, k);
    BusyBound(s.ctl.execs[k].workers);
  }

  /** When startPods is about to call AllAdded, all but two pools of its jobs are finished. */
  lemma AllAddedComesLate(cfg: Config, evs: seq<Event>, ls: seq<Ledger>, s: State)
    requires Reaches(cfg, evs, ls, s) && s.producer.Adding? && s.producer.todo == []
    ensures |ls| > 0 && |ls[|ls| - 1].finished| >= |ls[|ls| - 1].nodes| - 2 * cfg.poolSize
  {
    ReachableProducer(cfg, evs, ls, s);
    Backpressure(cfg, evs, ls, s, |ls| - 1);
  }

  /** Workers only leave on a closed, drained channel: every job they hold has its pod in their own execution. */
  lemma WorkersNeverDieEarly(cfg: Config, evs: seq<Event>, ls: seq<Ledger>, s: State, k: nat, w: nat)
    requires Reaches(cfg, evs, ls, s) && k < |s.ctl.execs| && w < |s.ctl.execs[k].workers|
    ensures var x := s.ctl.execs[k];
            && x.workers[w] != Dead
            && (Rank(x.workers[w]) > 0 ==> x.workers[w].node in x.pods)
            && (forall node | node in x.queue :: node in x.pods)
            && (x.workers[w] == Exited ==> x.closed && x.queue == [])
  {
    ReachableExecution(cfg, evs, ls, s, k);
    var l, x := ls[k], s.ctl.execs[k];
    if Rank(x.workers[w]) > 0 {
      BusyWorkersJob(cfg.poolSize, l, x, w);
    }
    forall node | node in x.queue
      ensures node in x.pods
    {
      assert node in l.sent;
      assert node in Elements(l.sent);
    }
  }

  /** On every path of startPods, the channel it sends on or is about to close is open, and its ID is known. */
  lemma ChannelDiscipline(cfg: Config, evs: seq<Event>, ls: seq<Ledger>, s: State)
    requires Reaches(cfg, evs, ls, s)
    ensures s.producer.Sending? || s.producer.Pruning?
            ==> s.producer.k < |s.ctl.execs| && !s.ctl.execs[s.producer.k].closed
    ensures s.producer.Preparing? || s.producer.Adding? || s.producer.Sending?
            ==> ForID(s.ctl, s.producer.id) == Some(|s.ctl.execs| - 1)
    ensures s.panicked ==> PanicCause(cfg) || Vanished in evs
  {
    ReachableProducer(cfg, evs, ls, s);
    if s.panicked {
      PanicHasCause(cfg, evs);
    }
  }

  /**
   * When a channel is closed, exactly the usable nodes of its run were sent, in order; while AllAdded prunes and
   * closes, their number is also the job count given to NewExecution.
   */
  lemma ClosedMeansAllSent(cfg: Config, evs: seq<Event>, ls: seq<Ledger>, s: State, k: nat)
    requires Reaches(cfg, evs, ls, s) && k < |s.ctl.execs| && k < |ls|
    ensures ls[k].sent <= ls[k].nodes && Distinct(ls[k].nodes)
    ensures s.ctl.execs[k].closed ==> ls[k].sent == ls[k].nodes
    ensures s.producer.Pruning? && s.producer.k == k ==> s.ctl.jobs == |ls[k].sent| == |ls[k].nodes|
  {
    ReachableExecution(cfg, evs, ls, s, k);
    ReachableProducer(cfg, evs, ls, s);
  }

  lemma LastIsSent(cfg: Config, evs: seq<Event>, ls: seq<Ledger>, s: State)
    requires Reaches(cfg, evs, ls, s) && s.ctl.execs != [] && s.ctl.execs[|s.ctl.execs| - 1].closed
    ensures ls != [] && ls[|ls| - 1].sent == ls[|ls| - 1].nodes
  {
    ReachableExecution(cfg, evs, ls, s, |s.ctl.execs| - 1);
  }

  // ---------------------------------------------------------------- panics

  lemma {:induction false} ListingExists(dirs: set<string>) returns (files: seq<Entry>)
    ensures IsListing(files, dirs) && forall i | 0 <= i < |files| :: files[i].modTime == 0
  {
    files := [];
    if dirs != {} {
      var name :| name in dirs;
      var rest := ListingExists(dirs - {name});
      files := rest + [Entry(name, 0)];
      assert EntryNames(files) == EntryNames(rest) + [name];
      ElementsSnoc(EntryNames(rest), name);
      assert name !in Elements(EntryNames(rest));
    }
  }

  /** A listing that starts with the given entry. */
  lemma ListingFrom(dirs: set<string>, first: string) returns (files: seq<Entry>)
    requires first in dirs
    ensures IsListing(files, dirs) && files != [] && files[0].name == first
    ensures forall history | |dirs| > history + 1 :: first in Expired(files, history)
  {
    var rest := ListingExists(dirs - {first});
    files := [Entry(first, 0)] + rest;
    var names, others := EntryNames(files), EntryNames(rest);
    assert names == [first] + others;
    assert first !in Elements(others);
    assert Elements(names) == {first} + Elements(others);
    ElementsOfDistinct(names);
    forall history | |dirs| > history + 1
      ensures first in Expired(files, history)
    {
      assert Expired(files, history)[0] == names[0];
    }
  }

  const STAMP := "202601010000"

  /** One more event. */
  lemma Then(cfg: Config, evs: seq<Event>, s: State, e: Event) returns (evs': seq<Event>, s': State)
    requires Run(cfg, evs) == Some(s) && Enabled(cfg, s, e)
    ensures evs' == evs + [e] && s' == Apply(cfg, s, e) && Run(cfg, evs') == Some(s')
  {
    Extend(cfg, evs, Ledgers(cfg, evs), s, e);
    evs', s' := evs + [e], Apply(cfg, s, e);
  }

  /** A run over the listed nodes, just before the first is added. */
  lemma PreparedRun(cfg: Config, id: string, items: seq<Node>) returns (evs: seq<Event>, s: State)
    requires Makes(cfg) && IsTimestamp(id) && Distinct(NodeNames(items))
    ensures Run(cfg, evs) == Some(s) && !s.panicked && Vanished !in evs
    ensures s.producer == Adding(id, UsableNames(items, cfg.runOnUnscheduled))
    ensures var count := |UsableNames(items, cfg.runOnUnscheduled)|;
            s.ctl == NewExecution(Init(cfg).ctl, cfg.poolSize, id, count, true, true)
  {
    s := Init(cfg);
    evs, s := Then(cfg, [], s, Tick);
    evs, s := Then(cfg, evs, s, Begin(id, items, true, true));
    evs, s := Then(cfg, evs, s, Prepared);
  }

  /** The rounds of the pruning loop, uninterrupted. */
  lemma {:induction false} PruneAllOfThem(cfg: Config, evs: seq<Event>, s: State) returns (more: seq<Event>, t: State)
    requires Run(cfg, evs) == Some(s) && !s.panicked && s.producer.Pruning?
    ensures Run(cfg, evs + more) == Some(t) && !t.panicked && t.producer == s.producer.(names := [])
    ensures t.ctl.execs == s.ctl.execs && t.ctl.current == s.ctl.current - Elements(s.producer.names)
    ensures Vanished !in more
    decreases |s.producer.names|
  {
    if s.producer.names == [] {
      more, t := [], s;
      assert evs + more == evs;
    } else {
      var e := PruneNext(s.producer.names[0], true);
      Extend(cfg, evs, Ledgers(cfg, evs), s, e);
      var rest: seq<Event>;
      rest, t := PruneAllOfThem(cfg, evs + [e], Apply(cfg, s, e));
      more := [e] + rest;
      ConcatAssociates(evs, [e], rest);
    }
  }

  /** A history below -1: everything is pruned, and then the loop indexes past its listing. */
  lemma PanickingRun(cfg: Config) returns (evs: seq<Event>)
    requires cfg.reportHistory < -1 && Makes(cfg)
    ensures Run(cfg, evs).Some? && Run(cfg, evs).value.panicked && Vanished !in evs
  {
    var s: State;
    evs, s := ListedRun(cfg);
    var more, t := PruneAllOfThem(cfg, evs, s);
    evs, s := Then(cfg, evs + more, t, IndexPast(s.producer.k));
  }

  lemma ListedRun(cfg: Config) returns (evs: seq<Event>, s: State)
    requires Makes(cfg)
    ensures Run(cfg, evs) == Some(s) && !s.panicked && Vanished !in evs
    ensures s.producer.Pruning? && (s.producer.beyond <==> cfg.reportHistory < -1)
  {
    evs, s := PreparedRun(cfg, STAMP, []);
    var files := ListingExists(s.ctl.dirs);
    evs, s := Then(cfg, evs, s, ListDir(Some(files)));
    ReachableProducer(cfg, evs, Ledgers(cfg, evs), s);
  }

  /** A pool size no channel can have: the first execution cannot make it. */
  lemma NoChannelRun(cfg: Config) returns (evs: seq<Event>)
    requires !Makes(cfg)
    ensures Run(cfg, evs).Some? && Run(cfg, evs).value.panicked && Vanished !in evs
  {
    var s := Init(cfg);
    evs, s := Then(cfg, [], s, Tick);
    evs, s := Then(cfg, evs, s, Begin(STAMP, [], false, false));
  }

  /** A template that decodes to null labels for some node: its run panics when it comes to the node. */
  lemma NullLabelsRun(cfg: Config, node: string, id: string) returns (evs: seq<Event>)
    requires Makes(cfg) && IsTimestamp(id) && cfg.template(node, id) == NullLabels
    ensures Run(cfg, evs).Some? && Run(cfg, evs).value.panicked && Vanished !in evs
  {
    var s: State;
    UsableAlone(node, cfg.runOnUnscheduled);
    evs, s := PreparedRun(cfg, id, [ReadyNode(node)]);
    evs, s := Then(cfg, evs, s, TemplatePanics);
  }

  /** An entry that vanishes between the reading and the sorting of the directory. */
  lemma VanishedRun(cfg: Config) returns (evs: seq<Event>)
    requires Makes(cfg)
    ensures Run(cfg, evs).Some? && Run(cfg, evs).value.panicked
  {
    var s: State;
    evs, s := PreparedRun(cfg, STAMP, []);
    assert {STAMP, MetricIndex.LATEST} <= s.ctl.dirs && STAMP != MetricIndex.LATEST;
    SubsetCardinality({STAMP, MetricIndex.LATEST}, s.ctl.dirs);
    evs, s := Then(cfg, evs, s, Vanished);
  }

  function ReadyNode(name: string): Node {
    Node(name, false, [Condition(NODE_READY, CONDITION_TRUE)])
  }

  lemma UsableAlone(name: string, runOnUnscheduled: bool)
    ensures UsableNames([ReadyNode(name)], runOnUnscheduled) == [name]
    ensures Distinct(NodeNames([ReadyNode(name)]))
  {
    assert [ReadyNode(name)][..0] == [];
  }

  /** For some node and execution the template decodes to null labels. */
  ghost predicate SomeNullLabels(cfg: Config) {
    exists node, id :: IsTimestamp(id) && cfg.template(node, id) == NullLabels
  }

  /** What in a configuration makes startPods panic. */
  ghost predicate PanicCause(cfg: Config) {
    cfg.reportHistory < -1 || !Makes(cfg) || SomeNullLabels(cfg)
  }

  lemma StepPanicsOnlyIf(cfg: Config, ls: seq<Ledger>, s: State, e: Event)
    requires Inv(cfg, ls, s) && Enabled(cfg, s, e) && Apply(cfg, s, e).panicked
    ensures e == Vanished || PanicCause(cfg)
  {
    if e.Send? {
      SendStepKeeps(cfg, ls, s, e);
    } else if e.Close? {
      CloseKeeps(cfg, ls, s, e);
    }
  }

  lemma {:induction false} PanicHasCause(cfg: Config, evs: seq<Event>)
    requires Run(cfg, evs).Some? && Run(cfg, evs).value.panicked
    ensures PanicCause(cfg) || Vanished in evs
  {
    var before, e := evs[..|evs| - 1], evs[|evs| - 1];
    Reachable(cfg, before);
    StepPanicsOnlyIf(cfg, Ledgers(cfg, before), Run(cfg, before).value, e);
  }

  /**
   * As long as no entry vanishes while the directory is sorted, no run panics exactly if the pruning loop stays inside
   * its listing, the channels can be made, and no template decodes to null labels.
   */
  lemma NeverPanicsIff(cfg: Config)
    ensures (forall evs | Run(cfg, evs).Some? && Vanished !in evs :: !Run(cfg, evs).value.panicked)
            <==> cfg.reportHistory >= -1 && Makes(cfg) && !SomeNullLabels(cfg)
  {
    if !Makes(cfg) {
      var evs := NoChannelRun(cfg);
    } else if cfg.reportHistory < -1 {
      var evs := PanickingRun(cfg);
    } else if SomeNullLabels(cfg) {
      var node, id :| IsTimestamp(id) && cfg.template(node, id) == NullLabels;
      var evs := NullLabelsRun(cfg, node, id);
    } else {
      forall evs | Run(cfg, evs).Some? && Vanished !in evs
        ensures !Run(cfg, evs).value.panicked
      {
        if Run(cfg, evs).value.panicked {
          PanicHasCause(cfg, evs);
        }
      }
    }
  }
}
