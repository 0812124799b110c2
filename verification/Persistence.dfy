/** What never changes again once it has happened, over every continuation of every run. */
module Persistence {
  import opened Collections
  import opened Protocol
  import opened Workers
  import opened ExecutionInvariant
  import opened SystemInvariant
  import opened Liveness

  // ---------------------------------------------------------------- termination is recorded once

  predicate EndedAt(s: State, k: nat, node: string, t: nat) {
    k < |s.ctl.execs| && node in s.ctl.execs[k].pods && s.ctl.execs[k].pods[node].terminated == Some(t)
  }

  lemma StepKeepsEnd(cfg: Config, s: State, e: Event, k: nat, node: string, t: nat)
    requires Enabled(cfg, s, e) && EndedAt(s, k, node, t)
    requires e.Store? && ForID(s.ctl, e.id) == Some(k) ==> e.node != node
    ensures EndedAt(Apply(cfg, s, e), k, node, t)
  {
  }

  /** The recorded end of a pod never changes, and delivering the end again changes nothing at all. */
  lemma {:induction false} TerminatedOnce(cfg: Config, evs: seq<Event>, more: seq<Event>, k: nat, node: string, t: nat)
    requires Run(cfg, evs).Some? && EndedAt(Run(cfg, evs).value, k, node, t)
    requires Run(cfg, evs + more).Some?
    ensures EndedAt(Run(cfg, evs + more).value, k, node, t)
    ensures forall succeeded, u, d ::
              var c := Run(cfg, evs + more).value.ctl;
              k < |c.execs| && ForID(c, c.execs[k].id) == Some(k)
              ==> PodTerminated(c, c.execs[k].id, node, succeeded, u, d) == c
  {
    if more == [] {
      assert evs + more == evs;
    } else {
      var before, s := LastStep(cfg, evs, more);
      TerminatedOnce(cfg, evs, more[..|more| - 1], k, node, t);
      Reachable(cfg, before);
      if more[|more| - 1].Store? {
        StoreIsNew(cfg, Ledgers(cfg, before), s, more[|more| - 1]);
      }
      StepKeepsEnd(cfg, s, more[|more| - 1], k, node, t);
    }
  }

  // ---------------------------------------------------------------- no false rejection

  /** From AddPod until its ID is pruned, the gate admits the node of an execution. */
  lemma {:induction false} AdmittedUntilPruned(cfg: Config, evs: seq<Event>, id: string, node: string, more: seq<Event>)
    requires Run(cfg, evs + [Store(id, node)] + more).Some?
    requires forall e | e in more :: !(e.PruneNext? && e.name == id)
    ensures Has(Run(cfg, evs + [Store(id, node)] + more).value.ctl, node, id)
  {
    var from := evs + [Store(id, node)];
    if more == [] {
      assert from + more == from;
      var before, s := LastStep(cfg, evs, [Store(id, node)]);
      assert before == evs;
      ReachableProducer(cfg, evs, Ledgers(cfg, evs), s);
    } else {
      var before, s := LastStep(cfg, from, more);
      AdmittedUntilPruned(cfg, evs, id, node, more[..|more| - 1]);
    }
  }

  // ---------------------------------------------------------------- workers that are left behind

  /** No ID leads to execution k any more: it was pruned, or its ID was issued again. */
  ghost predicate Unreferenced(c: Controller, k: nat) {
    k < |c.execs| && forall id | id in c.current :: c.current[id] != k
  }

  predicate PollsUnended(s: State, k: nat, w: nat, node: string) {
    AtWorker(s, k, w, Polling(node)) && Unended(s.ctl.execs[k], node)
  }

  lemma StepKeepsUnreferenced(cfg: Config, s: State, e: Event, k: nat)
    requires Enabled(cfg, s, e) && Unreferenced(s.ctl, k)
    ensures Unreferenced(Apply(cfg, s, e).ctl, k)
  {
  }

  lemma StepKeepsUnended(cfg: Config, s: State, e: Event, k: nat, node: string)
    requires Enabled(cfg, s, e) && Unreferenced(s.ctl, k) && Unended(s.ctl.execs[k], node)
    requires e.Store? || e.Send? || e.ListDir? || e.Close? || e.Terminate? || e.PostResult?
    ensures var s' := Apply(cfg, s, e); k < |s'.ctl.execs| && Unended(s'.ctl.execs[k], node)
  {
  }

  lemma OtherStepKeepsUnended(cfg: Config, s: State, e: Event, k: nat, node: string)
    requires Enabled(cfg, s, e) && Unreferenced(s.ctl, k) && Unended(s.ctl.execs[k], node)
    requires !(e.Store? || e.Send? || e.ListDir? || e.Close? || e.Terminate? || e.PostResult?)
    ensures var s' := Apply(cfg, s, e); k < |s'.ctl.execs| && Unended(s'.ctl.execs[k], node)
  {
  }

  /** Nobody records the end of a pod of an execution without a reference. */
  lemma {:induction false} UnendedForever(cfg: Config, evs: seq<Event>, more: seq<Event>, k: nat, node: string)
    requires Run(cfg, evs).Some?
    requires Unreferenced(Run(cfg, evs).value.ctl, k) && Unended(Run(cfg, evs).value.ctl.execs[k], node)
    requires Run(cfg, evs + more).Some?
    ensures Unreferenced(Run(cfg, evs + more).value.ctl, k)
    ensures Unended(Run(cfg, evs + more).value.ctl.execs[k], node)
  {
    if more == [] {
      assert evs + more == evs;
    } else {
      var before, s := LastStep(cfg, evs, more);
      var e := more[|more| - 1];
      UnendedForever(cfg, evs, more[..|more| - 1], k, node);
      StepKeepsUnreferenced(cfg, s, e, k);
      if e.Store? || e.Send? || e.ListDir? || e.Close? || e.Terminate? || e.PostResult? {
        StepKeepsUnended(cfg, s, e, k, node);
      } else {
        OtherStepKeepsUnended(cfg, s, e, k, node);
      }
    }
  }

  lemma StepKeepsPolling(cfg: Config, s: State, e: Event, k: nat, w: nat, node: string)
    requires Enabled(cfg, s, e) && PollsUnended(s, k, w, node)
    ensures AtWorker(Apply(cfg, s, e), k, w, Polling(node))
  {
  }

  /** A worker that polls a pod of an execution without a reference polls for ever: no event can end its wait. */
  lemma {:induction false} OrphanPollsForever(cfg: Config, evs: seq<Event>, more: seq<Event>, k: nat, w: nat, node: string)
    requires Run(cfg, evs).Some?
    requires Unreferenced(Run(cfg, evs).value.ctl, k) && PollsUnended(Run(cfg, evs).value, k, w, node)
    requires Run(cfg, evs + more).Some?
    ensures Unreferenced(Run(cfg, evs + more).value.ctl, k) && PollsUnended(Run(cfg, evs + more).value, k, w, node)
  {
    UnendedForever(cfg, evs, more, k, node);
    if more == [] {
      assert evs + more == evs;
    } else {
      var before, s := LastStep(cfg, evs, more);
      OrphanPollsForever(cfg, evs, more[..|more| - 1], k, w, node);
      StepKeepsPolling(cfg, s, more[|more| - 1], k, w, node);
    }
  }

  /** startPods returned before AllAdded: the channel of k is open and nobody works on it. */
  ghost predicate Abandoned(s: State, k: nat) {
    k < |s.ctl.execs| && !s.ctl.execs[k].closed && !WorksOn(s, k)
  }

  lemma StepKeepsAbandoned(cfg: Config, ls: seq<Ledger>, s: State, e: Event, k: nat)
    requires ProducerOk(s.producer, ls, s.ctl) && Enabled(cfg, s, e) && Abandoned(s, k)
    ensures Abandoned(Apply(cfg, s, e), k)
  {
  }

  /** An execution that startPods gave up on keeps its channel open, and its workers never leave. */
  lemma {:induction false} AbandonedForever(cfg: Config, evs: seq<Event>, more: seq<Event>, k: nat)
    requires Run(cfg, evs).Some? && Abandoned(Run(cfg, evs).value, k)
    requires Run(cfg, evs + more).Some?
    ensures Abandoned(Run(cfg, evs + more).value, k)
    ensures var x := Run(cfg, evs + more).value.ctl.execs[k];
            forall w | 0 <= w < |x.workers| :: x.workers[w] != Exited
  {
    if more == [] {
      assert evs + more == evs;
    } else {
      var before, s := LastStep(cfg, evs, more);
      AbandonedForever(cfg, evs, more[..|more| - 1], k);
      ReachableProducer(cfg, before, Ledgers(cfg, before), s);
      StepKeepsAbandoned(cfg, Ledgers(cfg, before), s, more[|more| - 1], k);
    }
    var all := evs + more;
    ReachableExecution(cfg, all, Ledgers(cfg, all), Run(cfg, all).value, k);
  }
}
