/** The exported names of the gauges, and which configurations NewPromCollector turns down. */
module MetricNames {
  import opened Collections
  import opened Metrics
  import CollectorModel

  const PROCESSING := "processing"
  const DURATION := "duration"
  const PODS := "pods"
  const CURRENT_EXECUTION := "current_execution_id"
  const VERSION := "com_github_bakito_batch_job_controller"

  /** The names a configuration may not use; the gauge of the current execution is not among them. */
  const RESERVED := {PROCESSING, DURATION, PODS}

  function NameFor(prefix: string, name: string): string {
    prefix + "_" + name
  }

  /** The exported names of the collector's own gauges. */
  function OwnNames(prefix: string): set<string> {
    { NameFor(prefix, PROCESSING), NameFor(prefix, DURATION), NameFor(prefix, PODS),
      NameFor(prefix, CURRENT_EXECUTION), VERSION }
  }

  lemma NameForIsInjective(prefix: string, a: string, b: string)
    ensures NameFor(prefix, a) == NameFor(prefix, b) <==> a == b
  {
    assert NameFor(prefix, a)[|prefix| + 1..] == a;
    assert NameFor(prefix, b)[|prefix| + 1..] == b;
  }

  predicate Accepted(configured: map<string, seq<string>>) {
    configured.Keys !! RESERVED
  }

  /** NewPromCollector up to its registration. */
  method NewPromCollector(latest: bool, configured: map<string, seq<string>>) returns (c: Collector?)
    ensures c == null <==> !Accepted(configured)
    ensures c == null <==> "processing" in configured || "duration" in configured || "pods" in configured
    ensures c != null ==> fresh(c) && c.Valid()
    ensures c != null ==> c.Model() == CollectorModel.NewProm(latest, EnrichedGauges(configured))
  {
    var todo := configured.Keys;
    while todo != {}
      invariant todo <= configured.Keys && configured.Keys - todo !! RESERVED
      decreases todo
    {
      var name :| name in todo;
      if name == PROCESSING || name == DURATION || name == PODS {
        return null;
      }
      todo := todo - {name};
    }
    assert configured.Keys - todo == configured.Keys;
    c := new Collector(latest, configured);
  }

  /** Where the version gauge's name has an underscore. */
  const UNDERSCORES := {3, 10, 17, 23, 27}

  /** The five pairs that spell the version gauge, from com with the rest to all but controller with controller. */
  predicate SpellsVersion(prefix: string, name: string) {
    |prefix| in UNDERSCORES && prefix == VERSION[..|prefix|] && name == VERSION[|prefix| + 1..]
  }

  lemma Underscores(i: nat)
    requires i < |VERSION|
    ensures VERSION[i] == '_' <==> i in UNDERSCORES
  {
  }

  lemma SpellsVersionIff(prefix: string, name: string)
    ensures NameFor(prefix, name) == VERSION <==> SpellsVersion(prefix, name)
  {
    if NameFor(prefix, name) == VERSION {
      assert VERSION[|prefix|] == '_';
      Underscores(|prefix|);
      assert prefix == VERSION[..|prefix|] && name == VERSION[|prefix| + 1..];
    }
    if SpellsVersion(prefix, name) {
      Underscores(|prefix|);
      assert VERSION == VERSION[..|prefix|] + [VERSION[|prefix|]] + VERSION[|prefix| + 1..];
    }
  }

  /**
   * The configured gauges of an accepted configuration have names of their own, except that the check forgets two:
   * the gauge of the current execution, and the version gauge, which five pairs of a prefix and a name spell.
   */
  lemma AcceptedNamesAreFreeIff(prefix: string, configured: map<string, seq<string>>)
    requires Accepted(configured)
    ensures (forall name | name in configured :: NameFor(prefix, name) !in OwnNames(prefix))
            <==> CURRENT_EXECUTION !in configured
                 && forall name | name in configured :: !SpellsVersion(prefix, name)
  {
    forall name | name in configured
      ensures NameFor(prefix, name) in OwnNames(prefix)
              <==> name == CURRENT_EXECUTION || SpellsVersion(prefix, name)
    {
      NameForIsInjective(prefix, name, PROCESSING);
      NameForIsInjective(prefix, name, DURATION);
      NameForIsInjective(prefix, name, PODS);
      NameForIsInjective(prefix, name, CURRENT_EXECUTION);
      SpellsVersionIff(prefix, name);
    }
    if CURRENT_EXECUTION in configured {
      assert NameFor(prefix, CURRENT_EXECUTION) in OwnNames(prefix);
    }
  }

  /** A configuration that is accepted although its gauge has the name of the current execution's gauge. */
  lemma AcceptedNameClashes(prefix: string) returns (configured: map<string, seq<string>>)
    ensures Accepted(configured) && exists name :: name in configured && NameFor(prefix, name) in OwnNames(prefix)
  {
    configured := map[CURRENT_EXECUTION := []];
    assert CURRENT_EXECUTION in configured;
    assert |CURRENT_EXECUTION| == 20 && |PROCESSING| == 10 && |DURATION| == 8 && |PODS| == 4;
  }
}
