/**
 * startPods as code: the loop and the early returns of the cron job, each step interrupted by any number of steps of
 * the workers, the reconciler and the callbacks. Every run of it is a run of the state machine in Protocol.
 */
module Cron {
  import opened Collections
  import opened Protocol
  import opened SystemInvariant
  import opened Liveness
  import EngineTheorems
  import ControllerRuns
  import Progress

  /** Some condition is Ready with status True, and none before it is Ready. */
  ghost predicate FirstReadyIsTrue(conditions: seq<Condition>) {
    exists i ::
      && 0 <= i < |conditions| && conditions[i].kind == "Ready" && conditions[i].status == "True"
      && forall j | 0 <= j < i :: conditions[j].kind != "Ready"
  }

  method IsUsable(node: Node, runOnUnscheduled: bool) returns (usable: bool)
    ensures usable == Usable(node, runOnUnscheduled)
    ensures usable <==> Selected(node, runOnUnscheduled)
  {
    if !runOnUnscheduled && node.unschedulable {
      return false;
    }
    for i := 0 to |node.conditions|
      invariant Ready(node.conditions) == Ready(node.conditions[i..])
      invariant forall j | 0 <= j < i :: node.conditions[j].kind != NODE_READY
    {
      var c := node.conditions[i];
      if c.kind == NODE_READY {
        return c.status == CONDITION_TRUE;
      }
    }
    return false;
  }

  /** Scheduling allows the node, and its first Ready condition is True. */
  ghost predicate Selected(node: Node, runOnUnscheduled: bool) {
    (runOnUnscheduled || !node.unschedulable) && FirstReadyIsTrue(node.conditions)
  }

  lemma {:induction false} ReadyIff(conditions: seq<Condition>)
    ensures Ready(conditions) <==> FirstReadyIsTrue(conditions)
  {
    if conditions != [] {
      var first, rest := conditions[0], conditions[1..];
      ReadyIff(rest);
      assert forall j | 0 <= j < |rest| :: rest[j] == conditions[j + 1];
      if first.kind != NODE_READY {
        if i :| 0 <= i < |conditions| && conditions[i].kind == NODE_READY && conditions[i].status == CONDITION_TRUE
                && forall j | 0 <= j < i :: conditions[j].kind != NODE_READY {
          assert rest[i - 1] == conditions[i];
        }
        if i :| 0 <= i < |rest| && rest[i].kind == NODE_READY && rest[i].status == CONDITION_TRUE
                && forall j | 0 <= j < i :: rest[j].kind != NODE_READY {
          assert conditions[i + 1] == rest[i];
          assert forall j | 0 <= j < i + 1 :: j == 0 || conditions[j] == rest[j - 1];
        }
      } else if first.status == CONDITION_TRUE {
        assert conditions[0] == first;
      }
    }
  }

  /** The places of the selected names among the listed nodes: every selected node once, in the order of the list. */
  lemma {:induction false} SelectionIs(items: seq<Node>, runOnUnscheduled: bool) returns (picks: seq<nat>)
    ensures |picks| == |UsableNames(items, runOnUnscheduled)|
    ensures forall m | 0 <= m < |picks| ::
              && picks[m] < |items| && Selected(items[picks[m]], runOnUnscheduled)
              && UsableNames(items, runOnUnscheduled)[m] == items[picks[m]].name
    ensures forall m, n | 0 <= m < n < |picks| :: picks[m] < picks[n]
    ensures forall i | 0 <= i < |items| && Selected(items[i], runOnUnscheduled) :: i in picks
  {
    picks := [];
    if items != [] {
      var n := |items| - 1;
      var front := SelectionIs(items[..n], runOnUnscheduled);
      ReadyIff(items[n].conditions);
      picks := if Selected(items[n], runOnUnscheduled) then front + [n] else front;
      forall i | 0 <= i < |items| && Selected(items[i], runOnUnscheduled)
        ensures i in picks
      {
        if i < n {
          assert items[..n][i] == items[i];
          assert i in front;
        } else {
          assert picks[|front|] == n;
        }
      }
    }
  }

  /** A name is selected if and only if it is the name of a listed node that is allowed and ready. */
  lemma SelectedIff(items: seq<Node>, runOnUnscheduled: bool, name: string)
    ensures name in UsableNames(items, runOnUnscheduled)
            <==> exists i :: 0 <= i < |items| && items[i].name == name && Selected(items[i], runOnUnscheduled)
  {
    var picks := SelectionIs(items, runOnUnscheduled);
    var names := UsableNames(items, runOnUnscheduled);
    if name in names {
      var m :| 0 <= m < |names| && names[m] == name;
      assert items[picks[m]].name == name;
    }
    if i :| 0 <= i < |items| && items[i].name == name && Selected(items[i], runOnUnscheduled) {
      assert i in picks;
      var m :| 0 <= m < |picks| && picks[m] == i;
      assert names[m] == name;
    }
  }

  method UsableNodes(items: seq<Node>, runOnUnscheduled: bool) returns (names: seq<string>)
    ensures names == UsableNames(items, runOnUnscheduled)
    ensures forall name ::
              name in names
              <==> exists i :: 0 <= i < |items| && items[i].name == name && Selected(items[i], runOnUnscheduled)
  {
    names := [];
    for i := 0 to |items|
      invariant names == UsableNames(items[..i], runOnUnscheduled)
    {
      var usable := IsUsable(items[i], runOnUnscheduled);
      assert items[..i + 1][..i] == items[..i];
      if usable {
        names := names + [items[i].name];
      }
    }
    assert items[..|items|] == items;
    forall name
      ensures name in names
              <==> exists i :: 0 <= i < |items| && items[i].name == name && Selected(items[i], runOnUnscheduled)
    {
      SelectedIff(items, runOnUnscheduled, name);
    }
  }

  /**
   * What startPods gets from outside: listed nodes, which of its calls fail, whether a directory entry vanishes while
   * they are sorted, and which directories it cannot remove.
   */
  datatype Input = Input(
    nodes: Option<seq<Node>>,
    stamp: string,
    dirMade: bool,
    linked: bool,
    prepared: bool,
    readable: bool,
    vanished: bool,
    stuck: set<string>)

  datatype Outcome = Skipped | GaveUp | Blocked | Panicked | Done

  /** Nothing startPods asks for fails, and every node it lists has a template that decodes. */
  predicate NothingFails(cfg: Config, input: Input) {
    && input.nodes.Some? && input.prepared && input.readable
    && TemplatesOk(cfg, input.stamp, UsableNames(input.nodes.value, cfg.runOnUnscheduled))
  }

  /** Nothing fails before AllAdded. */
  predicate LateFailure(cfg: Config, input: Input, nodes: seq<string>) {
    input.prepared && TemplatesOk(cfg, input.stamp, nodes)
  }

  /** What makes this run panic, if it gets that far. */
  ghost predicate MayPanic(cfg: Config, input: Input) {
    || !Makes(cfg) || cfg.reportHistory < -1 || input.vanished
    || exists node :: cfg.template(node, input.stamp) == NullLabels
  }

  // ---------------------------------------------------------------- steps of others

  /** A step of anybody but the running producer. */
  predicate OfOthers(e: Event) {
    !OfProducer(e) && !e.Begin? && !e.ListFailed?
  }

  /** The nodes of the execution that was started last. */
  function LastNodes(cfg: Config, evs: seq<Event>): Option<seq<string>> {
    var ls := Ledgers(cfg, evs);
    if ls == [] then None else Some(ls[|ls| - 1].nodes)
  }

  /** The jobs sent to the execution that was started last. */
  function LastSent(cfg: Config, evs: seq<Event>): Option<seq<string>> {
    var ls := Ledgers(cfg, evs);
    if ls == [] then None else Some(ls[|ls| - 1].sent)
  }

  /** The events that start an execution or prune one. */
  function Mine(evs: seq<Event>): seq<Event> {
    if evs == [] then []
    else
      var last := evs[|evs| - 1];
      if last.Begin? || last.PruneNext? then Mine(evs[..|evs| - 1]) + [last] else Mine(evs[..|evs| - 1])
  }

  lemma LastNoted(cfg: Config, ls: seq<Ledger>, e: Event)
    ensures var ms := Note(cfg, ls, e);
            if e.Begin? && Makes(cfg) then
              ms != [] && ms[|ms| - 1].nodes == UsableNames(e.items, cfg.runOnUnscheduled)
            else
              && |ms| == |ls|
              && (ls != [] ==> ms[|ls| - 1].nodes == ls[|ls| - 1].nodes)
              && (ls != [] && !e.Send? ==> ms[|ls| - 1].sent == ls[|ls| - 1].sent)
  {
  }

  /** The state and the last node list after one more event. */
  lemma Stepped(cfg: Config, evs: seq<Event>, s: State, e: Event)
    requires Run(cfg, evs) == Some(s) && Enabled(cfg, s, e)
    ensures Run(cfg, evs + [e]) == Some(Apply(cfg, s, e))
    ensures LastNodes(cfg, evs + [e]) ==
            if e.Begin? && Makes(cfg) then Some(UsableNames(e.items, cfg.runOnUnscheduled))
            else LastNodes(cfg, evs)
    ensures !e.Begin? && !e.Send? ==> LastSent(cfg, evs + [e]) == LastSent(cfg, evs)
    ensures Mine(evs + [e]) == if e.Begin? || e.PruneNext? then Mine(evs) + [e] else Mine(evs)
  {
    assert (evs + [e])[..|evs|] == evs;
    Extend(cfg, evs, Ledgers(cfg, evs), s, e);
    LastNoted(cfg, Ledgers(cfg, evs), e);
  }

  /** The channel that the producer sends on is open, so the send is possible exactly if there is room. */
  lemma NextSend(cfg: Config, evs: seq<Event>, s: State)
    requires Run(cfg, evs) == Some(s) && !s.panicked && s.producer.Sending?
    ensures var k, todo := s.producer.k, s.producer.todo;
            && k < |s.ctl.execs| && todo != []
            && (|s.ctl.execs[k].queue| < cfg.poolSize ==>
                  && Enabled(cfg, s, Send(k, todo[0]))
                  && Apply(cfg, s, Send(k, todo[0])).producer == Adding(s.producer.id, todo[1..])
                  && !Apply(cfg, s, Send(k, todo[0])).panicked)
  {
    ReachableProducer(cfg, evs, Ledgers(cfg, evs), s);
  }

  /** With nothing left to add, every node was sent. */
  lemma AddedMeansSent(cfg: Config, evs: seq<Event>, s: State)
    requires Run(cfg, evs) == Some(s) && s.producer.Adding? && s.producer.todo == []
    ensures LastSent(cfg, evs).Some? && LastSent(cfg, evs) == LastNodes(cfg, evs)
  {
    var ls := Ledgers(cfg, evs);
    ReachableProducer(cfg, evs, ls, s);
    assert ls[|ls| - 1].sent + [] == ls[|ls| - 1].sent;
  }

  /** After a close the last execution was sent its nodes, and their number is its job count and the pods gauge. */
  lemma ClosedMeansSent(cfg: Config, evs: seq<Event>, s: State, nodes: seq<string>)
    requires Run(cfg, evs) == Some(s) && LastNodes(cfg, evs) == Some(nodes)
    requires s.ctl.execs != [] && s.ctl.execs[|s.ctl.execs| - 1].closed
    ensures LastSent(cfg, evs) == Some(nodes) && s.ctl.jobs == |nodes| && s.ctl.prom.pods == |nodes| as real
  {
    EngineTheorems.LastIsSent(cfg, evs, Ledgers(cfg, evs), s);
    Progress.JobsAreNodes(cfg, evs, Ledgers(cfg, evs), s);
    Progress.PodsGaugeIsJobs(cfg, evs);
  }

  lemma OtherKeepsProducer(cfg: Config, s: State, e: Event)
    requires Enabled(cfg, s, e) && OfOthers(e) && !s.producer.Idle?
    ensures var t := Apply(cfg, s, e);
            t.producer == s.producer && !t.panicked && |t.ctl.execs| == |s.ctl.execs|
  {
  }

  /** While startPods runs, the steps of others leave it where it is, add no execution and never panic. */
  lemma {:induction false} OthersKeepProducer(cfg: Config, evs: seq<Event>, more: seq<Event>)
    requires Run(cfg, evs).Some? && !Run(cfg, evs).value.producer.Idle? && !Run(cfg, evs).value.panicked
    requires Run(cfg, evs + more).Some? && forall e | e in more :: OfOthers(e)
    ensures var s, t := Run(cfg, evs).value, Run(cfg, evs + more).value;
            t.producer == s.producer && !t.panicked && |t.ctl.execs| == |s.ctl.execs|
    ensures LastNodes(cfg, evs + more) == LastNodes(cfg, evs) && LastSent(cfg, evs + more) == LastSent(cfg, evs)
    ensures Mine(evs + more) == Mine(evs)
  {
    if more == [] {
      assert evs + more == evs;
    } else {
      var before, s := LastStep(cfg, evs, more);
      var e := more[|more| - 1];
      OthersKeepProducer(cfg, evs, more[..|more| - 1]);
      assert OfOthers(e);
      OtherKeepsProducer(cfg, s, e);
      Stepped(cfg, before, s, e);
      assert before + [e] == evs + more;
    }
  }

  /** The node at i is the first whose template does not decode, and it gives d instead. */
  predicate FirstOther(cfg: Config, id: string, nodes: seq<string>, i: nat, d: Decoded) {
    && i < |nodes| && cfg.template(nodes[i], id) == d
    && forall j | 0 <= j < i :: cfg.template(nodes[j], id) == Decodes
  }

  // ---------------------------------------------------------------- startPods

  class CronJob {
    const cfg: Config
    var running: bool
    /** The system and the events that led to it. */
    var s: State
    ghost var trace: seq<Event>

    ghost predicate Tracks()
      reads this
    {
      Run(cfg, trace) == Some(s)
    }

    ghost predicate Valid()
      reads this
    {
      Tracks() && !s.panicked && running == !s.producer.Idle?
    }

    /** The last execution was given exactly these jobs, in this order, and their number is its job count and gauge. */
    ghost predicate AllSent(nodes: seq<string>)
      reads this
    {
      && LastSent(cfg, trace) == Some(nodes)
      && s.ctl.jobs == |nodes| && s.ctl.prom.pods == |nodes| as real
      && s.ctl.execs != [] && s.ctl.execs[|s.ctl.execs| - 1].closed
    }

    constructor (cfg: Config)
      ensures Valid() && this.cfg == cfg && !running && trace == []
    {
      this.cfg, running, s, trace := cfg, false, Init(cfg), [];
    }

    /** One step of startPods itself. */
    method Do(e: Event)
      requires Tracks() && Enabled(cfg, s, e)
      modifies this`s, this`trace
      ensures Tracks() && s == Apply(cfg, old(s), e) && trace == old(trace) + [e]
      ensures LastNodes(cfg, trace) ==
              if e.Begin? && Makes(cfg) then Some(UsableNames(e.items, cfg.runOnUnscheduled))
              else old(LastNodes(cfg, trace))
      ensures !e.Begin? && !e.Send? ==> LastSent(cfg, trace) == old(LastSent(cfg, trace))
      ensures Mine(trace) == if e.Begin? || e.PruneNext? then old(Mine(trace)) + [e] else old(Mine(trace))
    {
      Stepped(cfg, trace, s, e);
      s := Apply(cfg, s, e);
      trace := trace + [e];
    }

    /** Any number of steps of others. The caller may rely on no more than this contract. */
    method Others()
      requires Tracks() && !s.panicked && !s.producer.Idle?
      modifies this`s, this`trace
      ensures Tracks() && !s.panicked && s.producer == old(s.producer) && |s.ctl.execs| == old(|s.ctl.execs|)
      ensures LastNodes(cfg, trace) == old(LastNodes(cfg, trace)) && LastSent(cfg, trace) == old(LastSent(cfg, trace))
      ensures Mine(trace) == old(Mine(trace))
      ensures exists more :: trace == old(trace) + more && forall e | e in more :: OfOthers(e)
    {
      assert trace == trace + [];
    }

    /** ReadDir and SortFunc; the caller sees some sorted listing of what is there. */
    method ReadReportDir() returns (files: seq<Entry>)
      ensures IsListing(files, s.ctl.dirs)
    {
      files := [];
      var todo := s.ctl.dirs;
      while todo != {}
        invariant todo <= s.ctl.dirs && IsListing(files, s.ctl.dirs - todo)
        invariant forall i | 0 <= i < |files| :: files[i].modTime == 0
        decreases todo
      {
        var name :| name in todo;
        ElementsSnoc(EntryNames(files), name);
        assert name !in Elements(EntryNames(files));
        assert EntryNames(files + [Entry(name, 0)]) == EntryNames(files) + [name];
        files := files + [Entry(name, 0)];
        todo := todo - {name};
      }
      assert s.ctl.dirs - todo == s.ctl.dirs;
    }

    /** The send that the producer waits for has no room. */
    ghost predicate Full()
      reads this
    {
      && s.producer.Sending? && s.producer.k < |s.ctl.execs|
      && |s.ctl.execs[s.producer.k].queue| >= cfg.poolSize
    }

    /** AddPod for one node: the store, then the send once the channel has room. */
    method AddOne(id: string, todo: seq<string>) returns (sent: bool)
      requires Tracks() && !s.panicked && s.producer == Adding(id, todo) && todo != []
      requires cfg.template(todo[0], id) == Decodes
      modifies this`s, this`trace
      ensures Tracks() && !s.panicked
      ensures LastNodes(cfg, trace) == old(LastNodes(cfg, trace))
      ensures sent ==> s.producer == Adding(id, todo[1..])
      ensures !sent ==> s.producer.Sending? && s.producer.todo == todo && Full()
      ensures Mine(trace) == old(Mine(trace))
    {
      StoreOne(id, todo);
      Others();
      sent := SendIfRoom(id, todo);
    }

    method StoreOne(id: string, todo: seq<string>)
      requires Tracks() && !s.panicked && s.producer == Adding(id, todo) && todo != []
      requires cfg.template(todo[0], id) == Decodes
      modifies this`s, this`trace
      ensures Tracks() && !s.panicked && s.producer.Sending? && s.producer.id == id && s.producer.todo == todo
      ensures LastNodes(cfg, trace) == old(LastNodes(cfg, trace))
      ensures Mine(trace) == old(Mine(trace))
    {
      ReachableProducer(cfg, trace, Ledgers(cfg, trace), s);
      Do(Store(id, todo[0]));
    }

    method SendIfRoom(id: string, todo: seq<string>) returns (sent: bool)
      requires Tracks() && !s.panicked && s.producer.Sending? && s.producer.id == id && s.producer.todo == todo != []
      modifies this`s, this`trace
      ensures Tracks() && !s.panicked
      ensures LastNodes(cfg, trace) == old(LastNodes(cfg, trace))
      ensures sent ==> s.producer == Adding(id, todo[1..])
      ensures !sent ==> s.producer.Sending? && s.producer.todo == todo && Full()
      ensures Mine(trace) == old(Mine(trace))
    {
      var k := s.producer.k;
      NextSend(cfg, trace, s);
      sent := |s.ctl.execs[k].queue| < cfg.poolSize;
      if sent {
        Do(Send(k, todo[0]));
      }
    }

    /** One round of the loop of AllAdded. */
    method PruneRound(name: string, stuck: set<string>)
      requires Tracks() && !s.panicked && s.producer.Pruning? && s.producer.names != [] && s.producer.names[0] == name
      modifies this`s, this`trace
      ensures Tracks() && !s.panicked && s.producer == old(s.producer).(names := old(s.producer.names)[1..])
      ensures LastNodes(cfg, trace) == old(LastNodes(cfg, trace))
      ensures Mine(trace) == old(Mine(trace)) + [PruneNext(name, name !in stuck)]
    {
      Do(PruneNext(name, name !in stuck));
      Others();
    }

    /** The pruning loop of AllAdded; with a history below -1 it ends in a panic. */
    method PruneLoop(files: seq<Entry>, input: Input)
      requires Tracks() && !s.panicked && s.producer.Pruning?
      requires s.producer.names == Expired(files, cfg.reportHistory)
      requires s.producer.beyond == (PruneCount(|files|, cfg.reportHistory) > |files|)
      modifies this`s, this`trace
      ensures Tracks() && s.producer == old(s.producer).(names := []) && s.panicked == old(s.producer.beyond)
      ensures LastNodes(cfg, trace) == old(LastNodes(cfg, trace))
      ensures Mine(trace) == old(Mine(trace)) + ControllerRuns.PruneEvents(old(s.producer.names), input.stuck)
    {
      ghost var names := s.producer.names;
      var pruneCnt := PruneCount(|files|, cfg.reportHistory);
      var i := 0;
      while i < pruneCnt && i < |files|
        invariant 0 <= i <= |names| && Tracks() && !s.panicked
        invariant s.producer == old(s.producer).(names := names[i..])
        invariant LastNodes(cfg, trace) == old(LastNodes(cfg, trace))
        invariant Mine(trace) == old(Mine(trace)) + ControllerRuns.PruneEvents(names[..i], input.stuck)
      {
        ControllerRuns.PruneEventsSnoc(names[..i], names[i], input.stuck);
        assert names[..i + 1] == names[..i] + [names[i]] && names[i..][1..] == names[i + 1..];
        PruneRound(files[i].name, input.stuck);
        i := i + 1;
      }
      assert names[..i] == names;
      if i < pruneCnt {
        Do(IndexPast(s.producer.k));
      }
    }

    method CloseLast()
      requires Tracks() && !s.panicked && s.producer.Pruning? && s.producer.names == [] && !s.producer.beyond
      modifies this`s, this`trace
      ensures Tracks() && !s.panicked && s.producer == Idle
      ensures LastNodes(cfg, trace) == old(LastNodes(cfg, trace))
      ensures s.ctl.execs != [] && s.ctl.execs[|s.ctl.execs| - 1].closed
      ensures Mine(trace) == old(Mine(trace))
    {
      ReachableProducer(cfg, trace, Ledgers(cfg, trace), s);
      Do(Close(s.producer.k));
    }

    /** AllAdded: list, prune the expired names one by one, close. */
    method AllAdded(id: string, input: Input) returns (outcome: Outcome, ghost pruned: seq<string>)
      requires Tracks() && !s.panicked && s.producer == Adding(id, [])
      modifies this`s, this`trace
      ensures Tracks() && s.panicked == outcome.Panicked? && (!s.panicked ==> s.producer == Idle)
      ensures outcome == if !input.readable then GaveUp else if s.panicked then Panicked else Done
      ensures s.panicked ==> input.vanished || cfg.reportHistory < -1
      ensures cfg.reportHistory < -1 && input.readable ==> s.panicked
      ensures input.vanished && input.readable && old(|s.ctl.dirs|) >= 2 ==> s.panicked
      ensures outcome.GaveUp? ==> LastSent(cfg, trace) == old(LastSent(cfg, trace))
      ensures LastNodes(cfg, trace) == old(LastNodes(cfg, trace))
      ensures outcome.Done? ==> s.ctl.execs != [] && s.ctl.execs[|s.ctl.execs| - 1].closed
      ensures Mine(trace) == old(Mine(trace)) + ControllerRuns.PruneEvents(pruned, input.stuck)
    {
      pruned := [];
      assert Mine(trace) + ControllerRuns.PruneEvents([], input.stuck) == Mine(trace);
      if !input.readable {
        Do(ListDir(None));
        return GaveUp, [];
      }
      var files := ReadReportDir();
      ElementsBound(EntryNames(files));
      if input.vanished && |s.ctl.dirs| >= 2 {
        Do(Vanished);
        return Panicked, [];
      }
      pruned := Expired(files, cfg.reportHistory);
      ListFiles(files);
      PruneLoop(files, input);
      if s.panicked {
        return Panicked, pruned;
      }
      CloseLast();
      outcome := Done;
    }

    method ListFiles(files: seq<Entry>)
      requires Tracks() && !s.panicked && s.producer.Adding? && s.producer.todo == [] && IsListing(files, s.ctl.dirs)
      modifies this`s, this`trace
      ensures Tracks() && !s.panicked && s.producer.Pruning? && s.producer.names == Expired(files, cfg.reportHistory)
      ensures s.producer.beyond == (PruneCount(|files|, cfg.reportHistory) > |files|) == (cfg.reportHistory < -1)
      ensures LastNodes(cfg, trace) == old(LastNodes(cfg, trace)) && Mine(trace) == old(Mine(trace))
    {
      ReachableProducer(cfg, trace, Ledgers(cfg, trace), s);
      Do(ListDir(Some(files)));
      ReachableProducer(cfg, trace, Ledgers(cfg, trace), s);
    }

    /** The loop of startPods over its nodes; None means that every job was sent. */
    method AddAll(id: string, nodes: seq<string>) returns (failure: Option<Outcome>)
      requires Tracks() && !s.panicked && s.producer == Adding(id, nodes) && LastNodes(cfg, trace) == Some(nodes)
      modifies this`s, this`trace
      ensures Tracks() && LastNodes(cfg, trace) == old(LastNodes(cfg, trace))
      ensures s.panicked <==> failure == Some(Panicked)
      ensures match failure
              case None =>
                s.producer == Adding(id, []) && LastSent(cfg, trace) == Some(nodes) && TemplatesOk(cfg, id, nodes)
              case Some(GaveUp) => s.producer == Idle && exists i :: FirstOther(cfg, id, nodes, i, Fails)
              case Some(Panicked) => exists i :: FirstOther(cfg, id, nodes, i, NullLabels)
              case Some(Blocked) => Full()
              case Some(_) => false
      ensures Mine(trace) == old(Mine(trace))
    {
      for i := 0 to |nodes|
        invariant Tracks() && !s.panicked && s.producer == Adding(id, nodes[i..])
        invariant LastNodes(cfg, trace) == old(LastNodes(cfg, trace))
        invariant forall j | 0 <= j < i :: cfg.template(nodes[j], id) == Decodes
        invariant Mine(trace) == old(Mine(trace))
      {
        Others();
        match cfg.template(nodes[i], id)
        case Fails =>
          Do(TemplateFailed);
          assert FirstOther(cfg, id, nodes, i, Fails);
          return Some(GaveUp);
        case NullLabels =>
          Do(TemplatePanics);
          assert FirstOther(cfg, id, nodes, i, NullLabels);
          return Some(Panicked);
        case Decodes =>
          var sent := AddOne(id, nodes[i..]);
          if !sent {
            return Some(Blocked);
          }
          assert nodes[i..][1..] == nodes[i + 1..];
      }
      AddedMeansSent(cfg, trace, s);
      failure := None;
    }

    /** From the listed nodes to AllAdded. */
    method RunNodes(input: Input, nodes: seq<string>) returns (outcome: Outcome, ghost pruned: seq<string>)
      requires Tracks() && !s.panicked && s.producer == Preparing(input.stamp, nodes)
      requires LastNodes(cfg, trace) == Some(nodes)
      modifies this`s, this`trace
      ensures Tracks() && s.panicked == outcome.Panicked? && outcome != Skipped
      ensures var fails := !input.prepared || !input.readable || !TemplatesOk(cfg, input.stamp, nodes);
              match outcome
              case Panicked => MayPanic(cfg, input)
              case Blocked => Full()
              case GaveUp =>
                && s.producer == Idle && fails
                && (LateFailure(cfg, input, nodes) ==> LastSent(cfg, trace) == Some(nodes))
              case _ => s.producer == Idle && !fails && cfg.reportHistory >= -1
      ensures outcome.Done? ==>
                LastNodes(cfg, trace) == Some(nodes) && s.ctl.execs != [] && s.ctl.execs[|s.ctl.execs| - 1].closed
      ensures Mine(trace) == old(Mine(trace)) + ControllerRuns.PruneEvents(pruned, input.stuck)
    {
      pruned := [];
      assert Mine(trace) + ControllerRuns.PruneEvents([], input.stuck) == Mine(trace);
      Others();
      if !input.prepared {
        Do(PrepareFailed);
        return GaveUp, [];
      }
      Do(Prepared);
      outcome, pruned := RunPrepared(input, nodes);
    }

    /** From the first node to AllAdded. */
    method RunPrepared(input: Input, nodes: seq<string>) returns (outcome: Outcome, ghost pruned: seq<string>)
      requires Tracks() && !s.panicked && s.producer == Adding(input.stamp, nodes)
      requires LastNodes(cfg, trace) == Some(nodes)
      modifies this`s, this`trace
      ensures Tracks() && s.panicked == outcome.Panicked? && outcome != Skipped
      ensures var ok := TemplatesOk(cfg, input.stamp, nodes);
              match outcome
              case Panicked => MayPanic(cfg, input)
              case Blocked => Full()
              case GaveUp => s.producer == Idle && (ok ==> !input.readable && LastSent(cfg, trace) == Some(nodes))
              case _ => s.producer == Idle && ok && input.readable && cfg.reportHistory >= -1
      ensures outcome.Done? ==>
                LastNodes(cfg, trace) == Some(nodes) && s.ctl.execs != [] && s.ctl.execs[|s.ctl.execs| - 1].closed
      ensures Mine(trace) == old(Mine(trace)) + ControllerRuns.PruneEvents(pruned, input.stuck)
    {
      pruned := [];
      assert Mine(trace) + ControllerRuns.PruneEvents([], input.stuck) == Mine(trace);
      var failure := AddAll(input.stamp, nodes);
      if failure.Some? {
        return failure.value, [];
      }
      Others();
      outcome, pruned := AllAdded(input.stamp, input);
    }

    /** From the list of nodes to AllAdded. */
    method RunOnce(input: Input) returns (outcome: Outcome, ghost pruned: seq<string>)
      requires Tracks() && !s.panicked && s.producer == Listing
      requires input.nodes.Some? ==> IsTimestamp(input.stamp) && Distinct(NodeNames(input.nodes.value))
      modifies this`s, this`trace
      ensures Tracks() && s.panicked == outcome.Panicked? && outcome != Skipped
      ensures match outcome
              case Panicked => MayPanic(cfg, input)
              case Blocked => Full()
              case GaveUp =>
                && s.producer == Idle && !NothingFails(cfg, input)
                && (input.nodes.Some? ==>
                      var nodes := UsableNames(input.nodes.value, cfg.runOnUnscheduled);
                      LateFailure(cfg, input, nodes) ==> LastSent(cfg, trace) == Some(nodes))
              case _ => s.producer == Idle && NothingFails(cfg, input) && Makes(cfg) && cfg.reportHistory >= -1
      ensures outcome.Done? ==>
                && LastNodes(cfg, trace) == Some(UsableNames(input.nodes.value, cfg.runOnUnscheduled))
                && s.ctl.execs != [] && s.ctl.execs[|s.ctl.execs| - 1].closed
      ensures input.nodes.Some? ==>
                Mine(trace) == old(Mine(trace))
                               + [Begin(input.stamp, input.nodes.value, input.dirMade, input.linked)]
                               + ControllerRuns.PruneEvents(pruned, input.stuck)
    {
      pruned := [];
      if input.nodes.None? {
        Do(ListFailed);
        return GaveUp, [];
      }
      var nodes := UsableNodes(input.nodes.value, cfg.runOnUnscheduled);
      Do(Begin(input.stamp, input.nodes.value, input.dirMade, input.linked));
      if s.panicked {
        return Panicked, [];
      }
      outcome, pruned := RunNodes(input, nodes);
    }

    /**
     * startPods: the guard, the run, and the deferred reset. On every path, and however others interleave, what
     * happened is a run of the state machine. It gives up only when something fails, and not before every node was
     * sent when only the listing of the directory fails; Blocked is the state in which the send waits for room.
     */
    method StartPods(input: Input) returns (outcome: Outcome, ghost pruned: seq<string>)
      requires Valid()
      requires input.nodes.Some? ==> IsTimestamp(input.stamp) && Distinct(NodeNames(input.nodes.value))
      modifies this
      ensures Tracks() && s.panicked == outcome.Panicked?
      ensures outcome != Panicked ==> Valid()
      ensures outcome == Skipped <==> old(running)
      ensures running == (outcome == Skipped || outcome.Blocked?)
      ensures match outcome
              case Skipped => s == old(s)
              case GaveUp =>
                && !NothingFails(cfg, input)
                && (input.nodes.Some? ==>
                      var nodes := UsableNames(input.nodes.value, cfg.runOnUnscheduled);
                      LateFailure(cfg, input, nodes) ==> LastSent(cfg, trace) == Some(nodes))
              case Blocked => Full()
              case Panicked => MayPanic(cfg, input)
              case Done =>
                && NothingFails(cfg, input) && Makes(cfg) && cfg.reportHistory >= -1
                && AllSent(UsableNames(input.nodes.value, cfg.runOnUnscheduled))
      ensures outcome != Skipped && input.nodes.Some? ==>
                Mine(trace) == old(Mine(trace))
                               + [Begin(input.stamp, input.nodes.value, input.dirMade, input.linked)]
                               + ControllerRuns.PruneEvents(pruned, input.stuck)
    {
      pruned := [];
      if running {
        return Skipped, [];
      }
      running := true;
      Do(Tick);
      Others();
      outcome, pruned := RunOnce(input);
      if outcome.Done? {
        ClosedMeansSent(cfg, trace, s, UsableNames(input.nodes.value, cfg.runOnUnscheduled));
      }
      if !outcome.Blocked? {
        running := false;
      }
    }
  }
}
