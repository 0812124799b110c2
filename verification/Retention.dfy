/** Which old executions AllAdded prunes, and that it prunes exactly those from every store. */
module Retention {
  import opened Collections
  import opened MetricIndex
  import opened CollectorModel
  import opened Protocol
  import opened SystemInvariant
  import opened Liveness
  import opened Persistence
  import opened Coupling
  import EngineTheorems

  /** The indices of the other entries that are at least as new, and strictly newer. */
  ghost function AsNew(files: seq<Entry>, i: nat): set<nat>
    requires i < |files|
  {
    set j: nat | j < |files| && j != i && files[j].modTime >= files[i].modTime
  }

  ghost function Newer(files: seq<Entry>, i: nat): set<nat>
    requires i < |files|
  {
    set j: nat | j < |files| && files[j].modTime > files[i].modTime
  }

  ghost function Interval(lo: nat, hi: nat): (r: set<nat>)
    requires lo <= hi
    ensures |r| == hi - lo
    ensures forall j :: j in r <==> lo <= j < hi
  {
    if lo == hi then {} else Interval(lo, hi - 1) + {hi - 1}
  }

  /** The number of entries out of n that are kept: at most reportHistory + 1. */
  function KeptCount(n: nat, reportHistory: int): nat {
    if reportHistory < -1 then 0 else if n > reportHistory + 1 then reportHistory + 1 else n
  }

  /** All but min(n, reportHistory + 1) distinct entries expire, and none is newer than one that is kept. */
  lemma ExpiredAreOldest(files: seq<Entry>, dirs: set<string>, reportHistory: int)
    requires IsListing(files, dirs)
    ensures var gone := Expired(files, reportHistory);
            && |gone| == |files| - KeptCount(|files|, reportHistory)
            && Distinct(gone) && Elements(gone) <= dirs
            && |dirs - Elements(gone)| == KeptCount(|files|, reportHistory)
            && forall i, j | 0 <= i < |files| && 0 <= j < |files| && files[i].name in gone && files[j].name !in gone
                 :: files[i].modTime <= files[j].modTime
  {
    var names, gone := EntryNames(files), Expired(files, reportHistory);
    assert forall i | 0 <= i < |gone| :: gone[i] == names[i];
    assert Distinct(gone);
    assert Elements(gone) <= Elements(names);
    ElementsOfDistinct(names);
    ElementsOfDistinct(gone);
    assert |dirs - Elements(gone)| == |dirs| - |Elements(gone)|;
    forall i, j | 0 <= i < |files| && 0 <= j < |files| && files[i].name in gone && files[j].name !in gone
      ensures files[i].modTime <= files[j].modTime
    {
      assert names[i] == files[i].name && names[j] == files[j].name;
      var m :| 0 <= m < |gone| && gone[m] == names[i];
      assert m == i;
      assert forall v | 0 <= v < |gone| :: names[v] in gone;
    }
  }

  /**
   * An entry survives when at most reportHistory others are as new, and expires when more than reportHistory
   * are strictly newer; in between, ties decide.
   */
  lemma SurvivesUnlessOutnumbered(files: seq<Entry>, dirs: set<string>, reportHistory: int, i: nat)
    requires IsListing(files, dirs) && i < |files|
    ensures |AsNew(files, i)| <= reportHistory ==> files[i].name !in Expired(files, reportHistory)
    ensures |Newer(files, i)| > reportHistory ==> files[i].name in Expired(files, reportHistory)
  {
    var names, gone := EntryNames(files), Expired(files, reportHistory);
    var later := Interval(i + 1, |files|);
    SubsetCardinality(later, AsNew(files, i));
    SubsetCardinality(Newer(files, i), later);
    if files[i].name in gone {
      var m :| 0 <= m < |gone| && gone[m] == names[i];
      assert names[m] == names[i];
    }
    if i < |gone| {
      assert gone[i] == names[i];
    }
  }

  /** Some order of the entries lets an entry expire if and only if there are more entries than are kept. */
  lemma CanExpireIff(dirs: set<string>, name: string, reportHistory: int)
    ensures (exists files :: IsListing(files, dirs) && name in Expired(files, reportHistory))
            <==> name in dirs && |dirs| > reportHistory + 1
  {
    if files :| IsListing(files, dirs) && name in Expired(files, reportHistory) {
      ExpiredAreOldest(files, dirs, reportHistory);
      ElementsOfDistinct(EntryNames(files));
      assert name in Elements(Expired(files, reportHistory));
    }
    if name in dirs && |dirs| > reportHistory + 1 {
      var files := EngineTheorems.ListingFrom(dirs, name);
    }
  }

  // ---------------------------------------------------------------- the pruning loop

  /** The rounds of the loop of AllAdded; removed says which directories could be removed. */
  function PruneNames(c: Controller, names: seq<string>, removed: seq<bool>): Controller
    requires |removed| == |names|
  {
    if names == [] then c
    else
      var n := |names| - 1;
      PruneName(PruneNames(c, names[..n], removed[..n]), names[n], removed[n])
  }

  function RemovedNames(names: seq<string>, removed: seq<bool>): set<string>
    requires |removed| == |names|
  {
    set i | 0 <= i < |names| && removed[i] :: names[i]
  }

  /** The loop removes exactly its names from the executions map, and exactly the removable directories. */
  lemma {:induction false} PruneNamesRemovesExactly(c: Controller, names: seq<string>, removed: seq<bool>)
    requires |removed| == |names|
    ensures var d := PruneNames(c, names, removed);
            && d.current == c.current - Elements(names)
            && d.dirs == c.dirs - RemovedNames(names, removed)
            && d.execs == c.execs && d.nodes == c.nodes && d.progress == c.progress
  {
    if names != [] {
      var n := |names| - 1;
      PruneNamesRemovesExactly(c, names[..n], removed[..n]);
      assert names == names[..n] + [names[n]];
      ElementsSnoc(names[..n], names[n]);
      assert RemovedNames(names, removed)
          == RemovedNames(names[..n], removed[..n]) + if removed[n] then {names[n]} else {};
    }
  }

  /** The series of a gauge whose last label is none of the names. */
  ghost function Without(g: Gauge, names: seq<string>): map<Row, real> {
    map row | row in g.series && (row == [] || Last(row) !in names) :: g.series[row]
  }

  /** The loop removes exactly the series of its names from every configured gauge with a reliable index. */
  lemma {:induction false} PruneNamesRemovesCustom(c: Controller, names: seq<string>, removed: seq<bool>)
    requires |removed| == |names| && PromOk(c.prom)
    ensures var p := PruneNames(c, names, removed).prom;
            && PromOk(p) && p.latest == c.prom.latest && p.custom.Keys == c.prom.custom.Keys
            && forall name | name in c.prom.custom ::
                 && p.custom[name].names == c.prom.custom[name].names
                 && (Reliable(c.prom.latest, c.prom.custom[name].names) ==>
                       p.custom[name].gauge.series == Without(c.prom.custom[name].gauge, names))
  {
    if names == [] {
      forall name | name in c.prom.custom && CustomOk(c.prom.latest, c.prom.custom[name])
        ensures Without(c.prom.custom[name].gauge, []) == c.prom.custom[name].gauge.series
      {
      }
    } else {
      var n := |names| - 1;
      var p := PruneNames(c, names[..n], removed[..n]).prom;
      PruneNamesRemovesCustom(c, names[..n], removed[..n]);
      PruneAllRemoves(p, names[n]);
      assert names == names[..n] + [names[n]];
      forall name | name in c.prom.custom && Reliable(c.prom.latest, c.prom.custom[name].names)
        ensures Prune(p.custom[name].gauge, names[n]).series == Without(c.prom.custom[name].gauge, names)
      {
        assert CustomOk(p.latest, p.custom[name]);
        PruneKeepsAgreement(p.custom[name].gauge, names[n]);
        ScanWithout(c.prom.custom[name].gauge, p.custom[name].gauge, names[..n], names[n]);
      }
    }
  }

  /** The loop removes exactly the series of its names from the other two, and nothing is left of any name. */
  lemma {:induction false} PruneNamesRemovesSeries(c: Controller, names: seq<string>, removed: seq<bool>)
    requires |removed| == |names| && PromOk(c.prom)
    ensures var p := PruneNames(c, names, removed).prom;
            && PromOk(p)
            && p.proc.series == Without(c.prom.proc, names)
            && p.duration.series == Without(c.prom.duration, names)
            && (forall name | name in names :: Gone(p, name))
  {
    if names == [] {
      assert Without(c.prom.proc, []) == c.prom.proc.series;
      assert Without(c.prom.duration, []) == c.prom.duration.series;
    } else {
      var n := |names| - 1;
      var p := PruneNames(c, names[..n], removed[..n]).prom;
      PruneNamesRemovesSeries(c, names[..n], removed[..n]);
      PruneAllRemoves(p, names[n]);
      ScanWithout(c.prom.proc, p.proc, names[..n], names[n]);
      ScanWithout(c.prom.duration, p.duration, names[..n], names[n]);
      GoneAsWell(names, p, PruneAll(p, names[n]));
      assert names == names[..n] + [names[n]];
    }
  }

  lemma GoneAsWell(names: seq<string>, p: Prom, q: Prom)
    requires names != [] && Gone(q, names[|names| - 1])
    requires forall name | name in names[..|names| - 1] :: Gone(p, name)
    requires forall name | Gone(p, name) :: Gone(q, name)
    ensures forall name | name in names :: Gone(q, name)
  {
    assert names == names[..|names| - 1] + [names[|names| - 1]];
  }

  lemma ScanWithout(g: Gauge, h: Gauge, names: seq<string>, name: string)
    requires h.series == Without(g, names)
    ensures Scan(h, name) == Without(g, names + [name])
  {
  }

  // ---------------------------------------------------------------- the loop among the other steps

  /** The part of the names that startPods has pruned when rest is left. */
  ghost predicate PrunedSoFar(s: State, from: Controller, names: seq<string>) {
    && s.producer.Pruning?
    && |s.producer.names| <= |names|
    && s.producer.names == names[|names| - |s.producer.names|..]
    && s.ctl.current == from.current - Elements(names[..|names| - |s.producer.names|])
  }

  lemma StepPrunes(cfg: Config, s: State, e: Event, from: Controller, names: seq<string>)
    requires Enabled(cfg, s, e) && PrunedSoFar(s, from, names) && !e.Close?
    ensures PrunedSoFar(Apply(cfg, s, e), from, names)
  {
    if e.PruneNext? {
      var i := |names| - |s.producer.names|;
      assert names[i] == e.name;
      assert names[..i + 1] == names[..i] + [names[i]];
      ElementsSnoc(names[..i], names[i]);
      assert s.producer.names[1..] == names[i + 1..];
    }
  }

  /**
   * In every run, whatever is interleaved: when AllAdded comes to close the channel, the executions map is the
   * one it started from without exactly the expired entries of its listing.
   */
  lemma {:induction false} AllAddedPrunesExpired(cfg: Config, evs: seq<Event>, files: seq<Entry>, more: seq<Event>)
    requires Run(cfg, evs + [ListDir(Some(files))] + more).Some?
    requires forall e | e in more :: !e.Close?
    ensures Run(cfg, evs).Some?
    ensures var s, names := Run(cfg, evs + [ListDir(Some(files))] + more).value, Expired(files, cfg.reportHistory);
            && PrunedSoFar(s, Run(cfg, evs).value.ctl, names)
            && (s.producer.names == [] ==> s.ctl.current == Run(cfg, evs).value.ctl.current - Elements(names))
  {
    var e0 := ListDir(Some(files));
    var from := evs + [e0];
    if more == [] {
      assert from + more == from;
      var before, s := LastStep(cfg, evs, [e0]);
      assert before == evs;
      ReachableProducer(cfg, evs, Ledgers(cfg, evs), s);
      assert |EntryNames(files)| == |files|;
      var names := Expired(files, cfg.reportHistory);
      assert names[0..] == names && names[..0] == [];
    } else {
      var before, s := LastStep(cfg, from, more);
      AllAddedPrunesExpired(cfg, evs, files, more[..|more| - 1]);
      StepPrunes(cfg, s, more[|more| - 1], Run(cfg, evs).value.ctl, Expired(files, cfg.reportHistory));
    }
    var t, names := Run(cfg, from + more).value, Expired(files, cfg.reportHistory);
    assert names[..|names|] == names;
  }

  function Rounds(evs: seq<Event>): nat {
    if evs == [] then 0 else Rounds(evs[..|evs| - 1]) + if evs[|evs| - 1].PruneNext? then 1 else 0
  }

  /** A listing is followed by at most as many pruning rounds as it has expired entries, whatever is interleaved. */
  lemma {:induction false} PruningRounds(cfg: Config, evs: seq<Event>, files: seq<Entry>, more: seq<Event>)
    requires Run(cfg, evs + [ListDir(Some(files))] + more).Some?
    requires forall e | e in more :: !e.ListDir?
    ensures var s := Run(cfg, evs + [ListDir(Some(files))] + more).value;
            Rounds(more) + NamesLeft(s) <= |Expired(files, cfg.reportHistory)| <= |files|
  {
    var from := evs + [ListDir(Some(files))];
    if more == [] {
      assert from + more == from;
      var before, s := LastStep(cfg, evs, [ListDir(Some(files))]);
    } else {
      var before, s := LastStep(cfg, from, more);
      PruningRounds(cfg, evs, files, more[..|more| - 1]);
      assert !more[|more| - 1].ListDir?;
      StepRounds(cfg, s, more[|more| - 1]);
    }
  }

  lemma StepRounds(cfg: Config, s: State, e: Event)
    requires Enabled(cfg, s, e) && !e.ListDir?
    ensures NamesLeft(Apply(cfg, s, e)) + (if e.PruneNext? then 1 else 0) <= NamesLeft(s)
  {
  }

  /** The names pruned so far have left every store; their directory may stay if it could not be removed. */
  ghost predicate ErasedSoFar(s: State, names: seq<string>, more: seq<Event>) {
    && s.producer.Pruning?
    && |s.producer.names| <= |names|
    && forall i | 0 <= i < |names| - |s.producer.names| && names[i] != LATEST ::
         Erased(s.ctl, names[i], PruneNext(names[i], false) !in more)
  }

  lemma PruneErases(cfg: Config, s: State, e: Event)
    requires Enabled(cfg, s, e) && e.PruneNext? && PromOk(s.ctl.prom)
    ensures Erased(Apply(cfg, s, e).ctl, e.name, e.removed)
  {
    PruneAllRemoves(s.ctl.prom, e.name);
  }

  lemma StepErases(cfg: Config, s: State, e: Event, names: seq<string>, more: seq<Event>)
    requires Enabled(cfg, s, e) && !cfg.devMode && PromOk(s.ctl.prom) && !e.Close? && Distinct(names)
    requires ErasedSoFar(s, names, more) && s.producer.names == names[|names| - |s.producer.names|..]
    ensures ErasedSoFar(Apply(cfg, s, e), names, more + [e])
  {
    var t, done := Apply(cfg, s, e), |names| - |s.producer.names|;
    forall i | 0 <= i < |names| - |t.producer.names| && names[i] != LATEST
      ensures Erased(t.ctl, names[i], PruneNext(names[i], false) !in more + [e])
    {
      if i < done {
        assert e.PruneNext? ==> e.name == names[done];
        StepKeepsErased(cfg, s, e, names[i], PruneNext(names[i], false) !in more);
      } else {
        PruneErases(cfg, s, e);
      }
    }
  }

  lemma {:induction false} AllAddedErases(cfg: Config, evs: seq<Event>, files: seq<Entry>, names: seq<string>,
                                          more: seq<Event>)
    requires !cfg.devMode && names == Expired(files, cfg.reportHistory)
    requires Run(cfg, evs + [ListDir(Some(files))] + more).Some?
    requires forall e | e in more :: !e.Close?
    ensures ErasedSoFar(Run(cfg, evs + [ListDir(Some(files))] + more).value, names, more)
  {
    var from := evs + [ListDir(Some(files))];
    if more == [] {
      assert from + more == from;
      StartsWithAll(cfg, evs, files);
    } else {
      var before, s := LastStep(cfg, from, more);
      var front, e := more[..|more| - 1], more[|more| - 1];
      AllAddedErases(cfg, evs, files, names, front);
      AllAddedPrunesExpired(cfg, evs, files, front);
      IndexAgrees(cfg, before);
      ExpiredDistinct(cfg, evs, files, more);
      StepErases(cfg, s, e, names, front);
      assert front + [e] == more;
    }
  }

  /**
   * Outside DevMode and in every run: when AllAdded comes to close the channel, every expired entry but the link has
   * left the executions and all gauges with a reliable index, and its directory unless removing it failed.
   */
  lemma AllAddedErasesExpired(cfg: Config, evs: seq<Event>, files: seq<Entry>, more: seq<Event>)
    requires !cfg.devMode
    requires Run(cfg, evs + [ListDir(Some(files))] + more).Some?
    requires forall e | e in more :: !e.Close?
    ensures var s, names := Run(cfg, evs + [ListDir(Some(files))] + more).value, Expired(files, cfg.reportHistory);
            && ErasedSoFar(s, names, more)
            && (s.producer.names == [] ==>
                  forall name | name in names && name != LATEST ::
                    Erased(s.ctl, name, PruneNext(name, false) !in more))
  {
    AllAddedErases(cfg, evs, files, Expired(files, cfg.reportHistory), more);
  }

  lemma StartsWithAll(cfg: Config, evs: seq<Event>, files: seq<Entry>)
    requires Run(cfg, evs + [ListDir(Some(files))]).Some?
    ensures var s := Run(cfg, evs + [ListDir(Some(files))]).value;
            s.producer.Pruning? && |s.producer.names| == |Expired(files, cfg.reportHistory)|
  {
    var e := ListDir(Some(files));
    var before, s := LastStep(cfg, evs, [e]);
    assert before == evs;
    ReachableProducer(cfg, evs, Ledgers(cfg, evs), s);
    assert |EntryNames(files)| == |files|;
  }

  lemma {:induction false} ExpiredDistinct(cfg: Config, evs: seq<Event>, files: seq<Entry>, more: seq<Event>)
    requires Run(cfg, evs + [ListDir(Some(files))] + more).Some?
    ensures Distinct(Expired(files, cfg.reportHistory))
  {
    var from := evs + [ListDir(Some(files))];
    if more == [] {
      assert from + more == from;
      var before, s := LastStep(cfg, evs, [ListDir(Some(files))]);
      ExpiredAreOldest(files, s.ctl.dirs, cfg.reportHistory);
    } else {
      var before, s := LastStep(cfg, from, more);
      ExpiredDistinct(cfg, evs, files, more[..|more| - 1]);
    }
  }
}
