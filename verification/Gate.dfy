/** Whom the gate lets through, and which entries the report directory has, as read off the events of a run. */
module Gate {
  import opened Collections
  import opened Protocol
  import opened SystemInvariant
  import CollectorModel
  import Callbacks

  /** AddPod was called for the node in some execution. */
  ghost predicate WasAdded(evs: seq<Event>, node: string) {
    exists i :: 0 <= i < |evs| && evs[i].Store? && evs[i].node == node
  }

  /** The ID was issued with a channel, and not pruned since. */
  ghost predicate IsIssued(cfg: Config, evs: seq<Event>, id: string) {
    Makes(cfg)
    && exists i ::
         && 0 <= i < |evs| && evs[i].Begin? && evs[i].id == id
         && forall j | i < j < |evs| :: !(evs[j].PruneNext? && evs[j].name == id)
  }

  lemma AddedSnoc(evs: seq<Event>, e: Event, node: string)
    ensures WasAdded(evs + [e], node) <==> WasAdded(evs, node) || (e.Store? && e.node == node)
  {
    var all := evs + [e];
    if WasAdded(evs, node) {
      var i :| 0 <= i < |evs| && evs[i].Store? && evs[i].node == node;
      assert all[i] == evs[i];
    }
    assert all[|evs|] == e;
  }

  lemma IssuedSnoc(cfg: Config, evs: seq<Event>, e: Event, id: string)
    ensures IsIssued(cfg, evs + [e], id)
            <==> Makes(cfg) && ((e.Begin? && e.id == id)
                                || (IsIssued(cfg, evs, id) && !(e.PruneNext? && e.name == id)))
  {
    var all := evs + [e];
    assert all[|evs|] == e;
    assert forall i | 0 <= i < |evs| :: all[i] == evs[i];
    if IsIssued(cfg, evs, id) && !(e.PruneNext? && e.name == id) {
      var i :| 0 <= i < |evs| && evs[i].Begin? && evs[i].id == id
               && forall j | i < j < |evs| :: !(evs[j].PruneNext? && evs[j].name == id);
      assert all[i].Begin? && all[i].id == id;
    }
  }

  lemma StepKnows(cfg: Config, ls: seq<Ledger>, s: State, e: Event, node: string, id: string)
    requires CurrentOk(s.ctl.current, s.ctl.execs) && ProducerOk(s.producer, ls, s.ctl) && Enabled(cfg, s, e)
    ensures var c := Apply(cfg, s, e).ctl;
            && (node in c.nodes <==> node in s.ctl.nodes || (e.Store? && e.node == node))
            && (Makes(cfg) ==>
                  (id in c.current <==> (e.Begin? && e.id == id)
                                        || (id in s.ctl.current && !(e.PruneNext? && e.name == id))))
            && (!Makes(cfg) ==> c.current.Keys <= s.ctl.current.Keys)
  {
  }

  lemma {:induction false} KnownIff(cfg: Config, evs: seq<Event>, node: string, id: string)
    requires Run(cfg, evs).Some?
    ensures var c := Run(cfg, evs).value.ctl;
            && (node in c.nodes <==> WasAdded(evs, node))
            && (id in c.current <==> IsIssued(cfg, evs, id))
  {
    if evs != [] {
      var before, e := evs[..|evs| - 1], evs[|evs| - 1];
      var s := Run(cfg, before).value;
      KnownIff(cfg, before, node, id);
      ReachableProducer(cfg, before, Ledgers(cfg, before), s);
      StepKnows(cfg, Ledgers(cfg, before), s, e, node, id);
      AddedSnoc(before, e, node);
      IssuedSnoc(cfg, before, e, id);
      assert before + [e] == evs;
    }
  }

  /**
   * In every run, the gate knows a node and an execution ID if and only if AddPod was called for the node, in whatever
   * execution, and the ID was issued and not pruned since.
   */
  lemma HasIff(cfg: Config, evs: seq<Event>, node: string, id: string)
    requires Run(cfg, evs).Some?
    ensures Has(Run(cfg, evs).value.ctl, node, id) <==> WasAdded(evs, node) && IsIssued(cfg, evs, id)
  {
    KnownIff(cfg, evs, node, id);
  }

  /** Outside DevMode, reports for a node that was never added, or an ID that is not issued, change nothing. */
  lemma StrangersAreRejected(cfg: Config, evs: seq<Event>, node: string, id: string, t: nat)
    requires Run(cfg, evs).Some? && !cfg.devMode && !(WasAdded(evs, node) && IsIssued(cfg, evs, id))
    ensures var c := Run(cfg, evs).value.ctl;
            forall body, saved :: Callbacks.Posted(c, false, node, id, body, saved, t) == (Callbacks.NotAcceptable, c)
  {
    HasIff(cfg, evs, node, id);
  }

  // ---------------------------------------------------------------- the report directory

  /** Whether the step makes the entry or takes it away. */
  function Touch(cfg: Config, e: Event, entry: string): Option<bool> {
    match e
    case Begin(id, _, dirMade, linked) =>
      if !Makes(cfg) then None
      else if entry == "latest" then Some(linked)
      else if entry == id && dirMade then Some(true)
      else None
    case PostResult(id, _, _, _, _) => if entry == id then Some(true) else None
    case SaveFile(id, _) => if entry == id then Some(true) else None
    case PruneNext(name, removed) => if entry == name && removed then Some(false) else None
    case _ => None
  }

  /** What the last step that touched the entry made of it. */
  function IsThere(cfg: Config, evs: seq<Event>, entry: string): bool {
    if evs == [] then entry in cfg.dirs
    else
      match Touch(cfg, evs[|evs| - 1], entry)
      case Some(there) => there
      case None => IsThere(cfg, evs[..|evs| - 1], entry)
  }

  lemma StepTouches(cfg: Config, s: State, e: Event, entry: string)
    requires Enabled(cfg, s, e)
    ensures entry in Apply(cfg, s, e).ctl.dirs <==>
            match Touch(cfg, e, entry) case Some(there) => there case None => entry in s.ctl.dirs
  {
  }

  /**
   * In every run, an entry is in the report directory if and only if the last step that touched it made it:
   * NewExecution with a new directory or link, a report, or an upload, but not a pruning that could remove it.
   */
  lemma {:induction false} DirectoryIs(cfg: Config, evs: seq<Event>, entry: string)
    requires Run(cfg, evs).Some?
    ensures entry in Run(cfg, evs).value.ctl.dirs <==> IsThere(cfg, evs, entry)
  {
    if evs != [] {
      var before := evs[..|evs| - 1];
      DirectoryIs(cfg, before, entry);
      StepTouches(cfg, Run(cfg, before).value, evs[|evs| - 1], entry);
    }
  }
}
