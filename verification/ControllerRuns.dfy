/**
 * AddPod and AllAdded as single calls on the controller: what they leave behind, and that each is a run of the steps of
 * the state machine.
 */
module ControllerRuns {
  import opened Collections
  import opened CollectorModel
  import opened Protocol
  import opened SystemInvariant
  import opened EngineTheorems
  import opened Retention
  import opened Lifecycle
  import P = Protocol

  // ---------------------------------------------------------------- AllAdded

  /** The expired names whose directory can be removed. */
  ghost function RemovedDirs(files: seq<Entry>, history: int, stuck: set<string>): set<string> {
    set name | name in Expired(files, history) && name !in stuck
  }

  lemma RemovableNames(names: seq<string>, stuck: set<string>)
    ensures RemovedNames(names, Removable(names, stuck)) == set name | name in names && name !in stuck
  {
    var flags := Removable(names, stuck);
    forall name | name in names && name !in stuck
      ensures name in RemovedNames(names, flags)
    {
      var i :| 0 <= i < |names| && names[i] == name;
      assert flags[i];
    }
  }

  /**
   * AllAdded for a known execution with an open channel, after a listing and with a history not below -1: its channel
   * is closed, the expired names leave the executions, the indexed gauges and, where they can be removed, the
   * directory, and nothing else changes.
   */
  lemma AllAddedCloses(c: P.Controller, id: string, files: seq<Entry>, history: int, stuck: set<string>, k: nat)
    requires id in c.current && c.current[id] == k && k < |c.execs| && !c.execs[k].closed && history >= -1
    ensures AllAddedReturns(c, id, Sorted(files), history) == Closed
    ensures var d := AfterAllAdded(c, id, Sorted(files), history, stuck);
            && d.execs == c.execs[k := c.execs[k].(closed := true)]
            && d.current == c.current - Elements(Expired(files, history))
            && d.dirs == c.dirs - RemovedDirs(files, history, stuck)
            && d.nodes == c.nodes && d.progress == c.progress && d.jobs == c.jobs
    ensures var d := AfterAllAdded(c, id, Sorted(files), history, stuck);
            PromOk(c.prom) ==>
              && d.prom.proc.series == Without(c.prom.proc, Expired(files, history))
              && d.prom.duration.series == Without(c.prom.duration, Expired(files, history))
  {
    var names := Expired(files, history);
    PruneNamesRemovesExactly(c, names, Removable(names, stuck));
    PruneNamesJobs(c, names, Removable(names, stuck));
    RemovableNames(names, stuck);
    if PromOk(c.prom) {
      PruneNamesRemovesSeries(c, names, Removable(names, stuck));
    }
  }

  lemma {:induction false} PruneNamesJobs(c: P.Controller, names: seq<string>, removed: seq<bool>)
    requires |removed| == |names|
    ensures PruneNames(c, names, removed).jobs == c.jobs
  {
    if names != [] {
      PruneNamesJobs(c, names[..|names| - 1], removed[..|names| - 1]);
    }
  }

  /** AllAdded gives up without effect exactly for an unknown ID or an unreadable directory, and else never quietly. */
  lemma AllAddedFailsIff(c: P.Controller, id: string, listing: Listing, history: int, stuck: set<string>)
    requires CurrentOk(c.current, c.execs)
    ensures AllAddedReturns(c, id, listing, history) == Failed <==> id !in c.current || listing.Unreadable?
    ensures AllAddedReturns(c, id, listing, history) == Panics
            <==> id in c.current && (listing.EntryGone?
                                     || (listing.Sorted? && (history < -1 || c.execs[c.current[id]].closed)))
    ensures id !in c.current || !listing.Sorted? ==> AfterAllAdded(c, id, listing, history, stuck) == c
  {
  }

  function PruneEvents(names: seq<string>, stuck: set<string>): seq<Event> {
    seq(|names|, i requires 0 <= i < |names| => PruneNext(names[i], CanRemove(names[i], stuck)))
  }

  lemma PruneEventsSnoc(names: seq<string>, name: string, stuck: set<string>)
    ensures PruneEvents(names + [name], stuck) == PruneEvents(names, stuck) + [PruneNext(name, CanRemove(name, stuck))]
  {
  }

  /** The pruning loop up to the names that are left. */
  lemma {:induction false} LoopIsRun(cfg: Config, evs: seq<Event>, s: State, names: seq<string>, left: seq<string>,
                                     stuck: set<string>)
    requires Run(cfg, evs) == Some(s) && !s.panicked && s.producer.Pruning? && s.producer.names == names + left
    ensures Run(cfg, evs + PruneEvents(names, stuck))
         == Some(State(Pruned(s.ctl, names, stuck), s.producer.(names := left), false))
  {
    if names == [] {
      assert names + left == left;
      assert evs + PruneEvents(names, stuck) == evs;
    } else {
      var front, name := names[..|names| - 1], names[|names| - 1];
      assert names == front + [name];
      assert names + left == front + ([name] + left);
      LoopIsRun(cfg, evs, s, front, [name] + left, stuck);
      PruneEventsSnoc(front, name, stuck);
      PruneSnoc(s.ctl, front, name, stuck);
      var before := evs + PruneEvents(front, stuck);
      var t := State(Pruned(s.ctl, front, stuck), s.producer.(names := [name] + left), false);
      var e := PruneNext(name, CanRemove(name, stuck));
      var after, u := Then(cfg, before, t, e);
      assert ([name] + left)[1..] == left;
      ConcatAssociates(evs, PruneEvents(front, stuck), [e]);
    }
  }

  /** The events of one uninterrupted AllAdded for execution k. */
  function AllAddedEvents(files: seq<Entry>, history: int, stuck: set<string>, k: nat): seq<Event> {
    [ListDir(Some(files))] + PruneEvents(Expired(files, history), stuck) + [Close(k)]
  }

  lemma ListStep(cfg: Config, evs: seq<Event>, s: State, files: seq<Entry>)
    requires Run(cfg, evs) == Some(s) && !s.panicked && s.producer.Adding? && s.producer.todo == []
    requires IsListing(files, s.ctl.dirs) && cfg.reportHistory >= -1
    ensures |s.ctl.execs| > 0 && !s.ctl.execs[|s.ctl.execs| - 1].closed
    ensures ForID(s.ctl, s.producer.id) == Some(|s.ctl.execs| - 1)
    ensures Run(cfg, evs + [ListDir(Some(files))])
         == Some(s.(producer := Pruning(|s.ctl.execs| - 1, Expired(files, cfg.reportHistory), false)))
  {
    ReachableProducer(cfg, evs, Ledgers(cfg, evs), s);
    AfterListingIs(cfg, s, files, |s.ctl.execs| - 1);
    ListEnabled(cfg, s, files);
    Extend(cfg, evs, Ledgers(cfg, evs), s, ListDir(Some(files)));
  }

  lemma ListEnabled(cfg: Config, s: State, files: seq<Entry>)
    requires !s.panicked && s.producer.Adding? && s.producer.todo == [] && IsListing(files, s.ctl.dirs)
    ensures Enabled(cfg, s, ListDir(Some(files)))
    ensures Apply(cfg, s, ListDir(Some(files))) == AfterListing(cfg, s, Some(files))
  {
  }

  lemma AfterListingIs(cfg: Config, s: State, files: seq<Entry>, k: nat)
    requires s.producer.Adding? && ForID(s.ctl, s.producer.id) == Some(k) && cfg.reportHistory >= -1
    ensures AfterListing(cfg, s, Some(files)) == s.(producer := Pruning(k, Expired(files, cfg.reportHistory), false))
  {
  }

  lemma AfterAllAddedIs(c: P.Controller, id: string, files: seq<Entry>, history: int, stuck: set<string>, k: nat)
    requires ForID(c, id) == Some(k) && !c.execs[k].closed && history >= -1
    ensures k < |Pruned(c, Expired(files, history), stuck).execs|
    ensures AfterAllAdded(c, id, Sorted(files), history, stuck)
         == CloseChannel(Pruned(c, Expired(files, history), stuck), k)
  {
    PruneNamesFrame(c, Expired(files, history), stuck);
  }

  lemma CloseStep(cfg: Config, evs: seq<Event>, c: P.Controller, k: nat)
    requires Run(cfg, evs) == Some(State(c, Pruning(k, [], false), false)) && k < |c.execs| && !c.execs[k].closed
    ensures Run(cfg, evs + [Close(k)]) == Some(State(CloseChannel(c, k), Idle, false))
  {
    var closed, t := Then(cfg, evs, State(c, Pruning(k, [], false), false), Close(k));
  }

  lemma ConcatFour<T>(a: seq<T>, b: seq<T>, c: seq<T>, d: seq<T>)
    ensures a + b + c + d == a + (b + c + d)
  {
  }

  /** From every reachable state before AllAdded, one call of it does what its steps do when nobody interrupts them. */
  lemma AllAddedIsRun(cfg: Config, evs: seq<Event>, s: State, files: seq<Entry>, stuck: set<string>)
    requires Run(cfg, evs) == Some(s) && !s.panicked && s.producer.Adding? && s.producer.todo == []
    requires IsListing(files, s.ctl.dirs) && cfg.reportHistory >= -1
    ensures |s.ctl.execs| > 0
    ensures Run(cfg, evs + AllAddedEvents(files, cfg.reportHistory, stuck, |s.ctl.execs| - 1))
         == Some(State(AfterAllAdded(s.ctl, s.producer.id, Sorted(files), cfg.reportHistory, stuck), Idle, false))
  {
    ListStep(cfg, evs, s, files);
    var k, names := |s.ctl.execs| - 1, Expired(files, cfg.reportHistory);
    AfterAllAddedIs(s.ctl, s.producer.id, files, cfg.reportHistory, stuck, k);
    LoopAndClose(cfg, evs + [ListDir(Some(files))], s.(producer := Pruning(k, names, false)), names, stuck, k);
    ConcatFour(evs, [ListDir(Some(files))], PruneEvents(names, stuck), [Close(k)]);
  }

  lemma LoopAndClose(cfg: Config, evs: seq<Event>, s: State, names: seq<string>, stuck: set<string>, k: nat)
    requires Run(cfg, evs) == Some(s) && !s.panicked && s.producer == Pruning(k, names, false)
    requires k < |s.ctl.execs| && !s.ctl.execs[k].closed
    ensures k < |Pruned(s.ctl, names, stuck).execs|
    ensures Run(cfg, evs + PruneEvents(names, stuck) + [Close(k)])
         == Some(State(CloseChannel(Pruned(s.ctl, names, stuck), k), Idle, false))
  {
    assert names + [] == names;
    LoopIsRun(cfg, evs, s, names, [], stuck);
    PruneNamesFrame(s.ctl, names, stuck);
    CloseStep(cfg, evs + PruneEvents(names, stuck), Pruned(s.ctl, names, stuck), k);
  }

  // ---------------------------------------------------------------- AddPod

  /** When AddPod sends, waits, fails or panics. */
  lemma AddedToIff(c: P.Controller, poolSize: int, id: string)
    requires CurrentOk(c.current, c.execs)
    ensures AddedTo(c, poolSize, id) == UnknownID <==> id !in c.current
    ensures id in c.current ==>
              var x := c.execs[c.current[id]];
              && (AddedTo(c, poolSize, id) == SendPanics <==> x.closed)
              && (AddedTo(c, poolSize, id) == Sent <==> !x.closed && |x.queue| < poolSize)
              && (AddedTo(c, poolSize, id) == Blocks <==> !x.closed && |x.queue| >= poolSize)
  {
  }

  /** From every reachable state before it, AddPod begins with a Store, ... */
  lemma AddPodStores(cfg: Config, evs: seq<Event>, s: State)
    requires Run(cfg, evs) == Some(s) && !s.panicked && NextTemplate(cfg, s, Decodes)
    ensures |s.ctl.execs| > 0 && AddedTo(s.ctl, cfg.poolSize, s.producer.id) in {Sent, Blocks}
    ensures var k, id, todo := |s.ctl.execs| - 1, s.producer.id, s.producer.todo;
            Run(cfg, evs + [Store(id, todo[0])])
            == Some(State(StorePod(s.ctl, k, todo[0]), Sending(id, k, todo), false))
  {
    ReachableProducer(cfg, evs, Ledgers(cfg, evs), s);
    StoreStep(cfg, evs, s, |s.ctl.execs| - 1);
  }

  lemma StoreStep(cfg: Config, evs: seq<Event>, s: State, k: nat)
    requires Run(cfg, evs) == Some(s) && !s.panicked && NextTemplate(cfg, s, Decodes)
    requires ForID(s.ctl, s.producer.id) == Some(k)
    ensures var id, todo := s.producer.id, s.producer.todo;
            Run(cfg, evs + [Store(id, todo[0])])
            == Some(State(StorePod(s.ctl, k, todo[0]), Sending(id, k, todo), false))
  {
    Extend(cfg, evs, Ledgers(cfg, evs), s, Store(s.producer.id, s.producer.todo[0]));
  }

  /** ... and goes on with a Send if there is room. */
  lemma AddPodSends(cfg: Config, evs: seq<Event>, s: State)
    requires Run(cfg, evs) == Some(s) && !s.panicked && NextTemplate(cfg, s, Decodes)
    requires AddedTo(s.ctl, cfg.poolSize, s.producer.id) == Sent
    ensures |s.ctl.execs| > 0
    ensures var k, id, todo := |s.ctl.execs| - 1, s.producer.id, s.producer.todo;
            Run(cfg, evs + [Store(id, todo[0])] + [Send(k, todo[0])])
            == Some(State(SendJob(StorePod(s.ctl, k, todo[0]), k, todo[0]), Adding(id, todo[1..]), false))
  {
    AddPodStores(cfg, evs, s);
    ReachableProducer(cfg, evs, Ledgers(cfg, evs), s);
    var k, id, todo := |s.ctl.execs| - 1, s.producer.id, s.producer.todo;
    var t := State(StorePod(s.ctl, k, todo[0]), Sending(id, k, todo), false);
    SendStep(cfg, evs + [Store(id, todo[0])], t);
  }

  lemma SendStep(cfg: Config, evs: seq<Event>, s: State)
    requires Run(cfg, evs) == Some(s) && !s.panicked && s.producer.Sending? && s.producer.todo != []
    requires var k := s.producer.k;
             k < |s.ctl.execs| && !s.ctl.execs[k].closed && |s.ctl.execs[k].queue| < cfg.poolSize
    ensures var k, todo := s.producer.k, s.producer.todo;
            Run(cfg, evs + [Send(k, todo[0])])
            == Some(State(SendJob(s.ctl, k, todo[0]), Adding(s.producer.id, todo[1..]), false))
  {
    var sent, t := Then(cfg, evs, s, Send(s.producer.k, s.producer.todo[0]));
  }
}
