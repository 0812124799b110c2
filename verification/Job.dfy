/** The pod a job is run in: its environment, its callback URLs and its name. */
module Job {
  import opened Collections
  import opened Strings

  datatype EnvVar = EnvVar(name: string, value: string)

  datatype Container = Container(name: string, env: seq<EnvVar>)

  /** A custom extender of the environment, for fixed configuration, node, execution and address. */
  type Extender = Container -> seq<EnvVar>

  datatype Settings = Settings(
    name: string,
    namespace: string,
    port: int,
    serviceAccount: string,
    pullSecrets: seq<string>)

  /** What a pod is made for. */
  datatype Target = Target(cfg: Settings, node: string, id: string, address: string)

  const ENV_NODE := "NODE_NAME"
  const ENV_ID := "EXECUTION_ID"
  const ENV_NAMESPACE := "NAMESPACE"
  const ENV_SERVICE := "CALLBACK_SERVICE_NAME"
  const ENV_PORT := "CALLBACK_SERVICE_PORT"
  const ENV_RESULT_URL := "CALLBACK_SERVICE_RESULT_URL"
  const ENV_FILE_URL := "CALLBACK_SERVICE_FILE_URL"
  const ENV_EVENT_URL := "CALLBACK_SERVICE_EVENT_URL"

  /** The names a template cannot define; the three URLs are not among them. */
  const RESERVED := {ENV_NODE, ENV_ID, ENV_NAMESPACE, ENV_SERVICE, ENV_PORT}
  const OWN := RESERVED + {ENV_RESULT_URL, ENV_FILE_URL, ENV_EVENT_URL}

  const RESULT := "/result"
  const FILE := "/file"
  const EVENT := "/event"

  // ---------------------------------------------------------------- callback URLs

  const REPORT := "report"

  /** net.JoinHostPort */
  function JoinHostPort(host: string, port: string): string {
    if ':' in host then "[" + host + "]:" + port else host + ":" + port
  }

  function Path(node: string, id: string, sub: string): string {
    ['/'] + REPORT + ['/'] + node + ['/'] + id + sub
  }

  function Url(t: Target, sub: string): string {
    "http://" + JoinHostPort(t.address, Itoa(t.cfg.port)) + Path(t.node, t.id, sub)
  }

  const CALLBACK_BASE := "/report/:node/:executionID"

  /** Match path segments against the segments of a route; a segment that starts with a colon is a parameter. */
  function Match(route: seq<string>, path: seq<string>): Option<map<string, string>> {
    if route == [] || path == [] then
      if route == path then Some(map[]) else None
    else
      match Match(route[1..], path[1..])
      case None => None
      case Some(params) =>
        if route[0] != "" && route[0][0] == ':' then Some(params[route[0][1..] := path[0]])
        else if route[0] == path[0] then Some(params)
        else None
  }

  /** What the router makes of a path at the endpoint with this sub path. */
  function Routed(path: string, sub: string): Option<map<string, string>> {
    Match(Split(CALLBACK_BASE + sub, '/'), Split(path, '/'))
  }

  lemma {:induction false} MatchNeedsSameLength(route: seq<string>, path: seq<string>)
    requires |route| != |path|
    ensures Match(route, path) == None
  {
    if route != [] && path != [] {
      MatchNeedsSameLength(route[1..], path[1..]);
    }
  }

  lemma BaseIsPath()
    ensures CALLBACK_BASE == Path(":node", ":executionID", "")
  {
  }

  lemma PathAppends(node: string, id: string, sub: string)
    ensures Path(node, id, "") + sub == Path(node, id, sub)
  {
  }

  lemma PlainSegments(node: string, id: string, name: string)
    requires '/' !in node && '/' !in id && '/' !in name
    ensures Split(Path(node, id, ['/'] + name), '/') == ["", REPORT, node, id, name]
  {
    PathSegments(node, id, name);
    SplitIsWholeIff(node, '/');
    SplitIsWholeIff(id, '/');
    assert ["", REPORT] + [node] + [id] + [name] == ["", REPORT, node, id, name];
  }

  lemma RouteSegments(name: string)
    requires '/' !in name
    ensures Split(CALLBACK_BASE + (['/'] + name), '/') == ["", REPORT, ":node", ":executionID", name]
  {
    BaseIsPath();
    PlainSegments(":node", ":executionID", name);
    PathAppends(":node", ":executionID", ['/'] + name);
  }

  lemma PathSegments(node: string, id: string, name: string)
    requires '/' !in name
    ensures Split(Path(node, id, ['/'] + name), '/') == ["", REPORT] + Split(node, '/') + Split(id, '/') + [name]
  {
    var front, middle := ['/'] + REPORT, ['/'] + REPORT + ['/'] + node;
    FrontSegments();
    SplitJoined(front, '/', node);
    SplitJoined(middle, '/', id);
    SplitJoined(middle + ['/'] + id, '/', name);
    SplitIsWholeIff(name, '/');
    assert Path(node, id, ['/'] + name) == middle + ['/'] + id + ['/'] + name;
  }

  lemma FrontSegments()
    ensures Split(['/'] + REPORT, '/') == ["", REPORT]
  {
    SplitIsWholeIff(REPORT, '/');
    SplitJoined("", '/', REPORT);
    assert "" + ['/'] + REPORT == ['/'] + REPORT;
  }

  lemma MatchStep(segment: string, value: string, route: seq<string>, path: seq<string>)
    ensures Match([segment] + route, [value] + path)
         == match Match(route, path)
            case None => None
            case Some(params) =>
              if segment != "" && segment[0] == ':' then Some(params[segment[1..] := value])
              else if segment == value then Some(params)
              else None
  {
    assert ([segment] + route)[1..] == route && ([value] + path)[1..] == path;
  }

  lemma MatchParameters(node: string, id: string, name: string, other: string)
    requires other == "" || other[0] != ':'
    ensures Match([":node"] + ([":executionID"] + ([other] + [])), [node] + ([id] + ([name] + [])))
         == if other == name then Some(map["node" := node, "executionID" := id]) else None
  {
    MatchStep(other, name, [], []);
    MatchStep(":executionID", id, [other] + [], [name] + []);
    MatchStep(":node", node, [":executionID"] + ([other] + []), [id] + ([name] + []));
    assert ":executionID"[1..] == "executionID" && ":node"[1..] == "node";
    assert map["executionID" := id]["node" := node] == map["node" := node, "executionID" := id];
  }

  lemma MatchCallback(node: string, id: string, name: string, other: string)
    requires other == "" || other[0] != ':'
    ensures Match(["", REPORT, ":node", ":executionID", other], ["", REPORT, node, id, name])
         == if other == name then Some(map["node" := node, "executionID" := id]) else None
  {
    var route, path := [":node"] + ([":executionID"] + ([other] + [])), [node] + ([id] + ([name] + []));
    MatchParameters(node, id, name, other);
    MatchStep(REPORT, REPORT, route, path);
    MatchStep("", "", [REPORT] + route, [REPORT] + path);
    assert ["", REPORT, ":node", ":executionID", other] == [""] + ([REPORT] + route);
    assert ["", REPORT, node, id, name] == [""] + ([REPORT] + path);
  }

  /**
   * Every endpoint other than the one the path was printed for rejects it, and that one reads back the node and the
   * execution ID if neither contains a slash; with a slash in one of them no endpoint accepts the path.
   */
  lemma PathParsesBack(node: string, id: string, sub: string, endpoint: string)
    requires sub in {RESULT, FILE, EVENT} && endpoint in {RESULT, FILE, EVENT}
    ensures Routed(Path(node, id, sub), endpoint)
         == if sub == endpoint && '/' !in node && '/' !in id
            then Some(map["node" := node, "executionID" := id])
            else None
  {
    var name, other := sub[1..], endpoint[1..];
    assert sub == ['/'] + name && endpoint == ['/'] + other;
    RouteSegments(other);
    PathSegments(node, id, name);
    SplitIsWholeIff(node, '/');
    SplitIsWholeIff(id, '/');
    if '/' in node || '/' in id {
      MatchNeedsSameLength(Split(CALLBACK_BASE + endpoint, '/'), Split(Path(node, id, sub), '/'));
    } else {
      PlainSegments(node, id, name);
      MatchCallback(node, id, name, other);
    }
  }

  /** The path of an http URL: everything from the first slash after the host. */
  function PathOf(url: string): string {
    if |url| < 7 then "" else FromSlash(url[7..])
  }

  function FromSlash(s: string): string {
    if s == "" || s[0] == '/' then s else FromSlash(s[1..])
  }

  lemma {:induction false} FromSlashSkips(host: string, path: string)
    requires '/' !in host && path != "" && path[0] == '/'
    ensures FromSlash(host + path) == path
  {
    if host == "" {
      assert host + path == path;
    } else {
      assert (host + path)[1..] == host[1..] + path;
      FromSlashSkips(host[1..], path);
    }
  }

  lemma UrlHasPath(t: Target, sub: string)
    requires '/' !in t.address
    ensures PathOf(Url(t, sub)) == Path(t.node, t.id, sub)
  {
    var host := JoinHostPort(t.address, Itoa(t.cfg.port));
    assert '/' !in host;
    assert Url(t, sub)[7..] == host + Path(t.node, t.id, sub);
    FromSlashSkips(host, Path(t.node, t.id, sub));
  }

  /** The host and port of an http URL: everything between the scheme and the first slash after it. */
  function HostOf(url: string): string {
    if |url| < 7 then "" else UpToSlash(url[7..])
  }

  function UpToSlash(s: string): string {
    if s == "" || s[0] == '/' then "" else [s[0]] + UpToSlash(s[1..])
  }

  lemma {:induction false} UpToSlashStops(host: string, path: string)
    requires '/' !in host && path != "" && path[0] == '/'
    ensures UpToSlash(host + path) == host
  {
    if host == "" {
      assert host + path == path;
    } else {
      assert (host + path)[1..] == host[1..] + path;
      UpToSlashStops(host[1..], path);
    }
  }

  lemma UrlHasHost(t: Target, sub: string)
    requires '/' !in t.address
    ensures "http://" <= Url(t, sub) && HostOf(Url(t, sub)) == JoinHostPort(t.address, Itoa(t.cfg.port))
  {
    var host := JoinHostPort(t.address, Itoa(t.cfg.port));
    assert '/' !in host;
    assert Url(t, sub)[7..] == host + Path(t.node, t.id, sub);
    UpToSlashStops(host, Path(t.node, t.id, sub));
  }

  predicate Bracketed(host: string) {
    |host| >= 2 && host[0] == '[' && host[|host| - 1] == ']'
  }

  function Unbracketed(host: string): string {
    if Bracketed(host) then host[1..|host| - 1] else host
  }

  /** Host and port of an address as a client reads them: the port follows the last colon, brackets are dropped. */
  function SplitHostPort(s: string): (string, string) {
    var parts := Split(s, ':');
    var port := parts[|parts| - 1];
    (Unbracketed(if |s| > |port| then s[..|s| - |port| - 1] else ""), port)
  }

  lemma SplitAtLastColon(front: string, port: string)
    requires ':' !in port
    ensures SplitHostPort(front + [':'] + port) == (Unbracketed(front), port)
  {
    SplitJoined(front, ':', port);
    SplitIsWholeIff(port, ':');
    assert (front + [':'] + port)[..|front|] == front;
  }

  lemma ItoaHasNoColon(n: int)
    ensures ':' !in Itoa(n)
  {
  }

  lemma JoinedAtColon(host: string, port: string)
    ensures ':' in host ==> JoinHostPort(host, port) == ['['] + host + [']'] + [':'] + port
    ensures ':' !in host ==> JoinHostPort(host, port) == host + [':'] + port
  {
  }

  lemma BracketsDrop(host: string)
    ensures Unbracketed(['['] + host + [']']) == host
  {
  }

  /** A joined address reads back as host and port, except for a host without colons that has brackets of its own. */
  lemma HostPortReadsBackIff(host: string, port: int)
    ensures SplitHostPort(JoinHostPort(host, Itoa(port))) == (host, Itoa(port)) <==> ':' in host || !Bracketed(host)
  {
    ItoaHasNoColon(port);
    JoinedAtColon(host, Itoa(port));
    if ':' in host {
      BracketsDrop(host);
      SplitAtLastColon(['['] + host + [']'], Itoa(port));
    } else {
      SplitAtLastColon(host, Itoa(port));
    }
  }

  // ---------------------------------------------------------------- pod names

  function PodName(name: string, node: string, id: string): string {
    name + "-job-" + Before(node, '.') + "-" + id
  }

  /** A pod's name begins with the configured name and ends with the execution ID. */
  lemma PodNameFrame(name: string, node: string, id: string)
    ensures name + "-job-" <= PodName(name, node, id)
    ensures var rest := PodName(name, node, id)[|name| + 5..];
            && |rest| >= |id| + 1
            && rest[|rest| - |id| - 1..] == "-" + id
            && rest[..|rest| - |id| - 1] == Before(node, '.')
  {
    var front, first, tail := name + "-job-", Before(node, '.'), "-" + id;
    assert PodName(name, node, id) == front + (first + tail);
    assert PodName(name, node, id)[|front|..] == first + tail;
  }

  /** The part of a node's name before its first dot. */
  lemma {:induction false} BeforeIs(s: string, sep: char)
    ensures sep !in Before(s, sep) && Before(s, sep) <= s
    ensures Before(s, sep) == s || s[|Before(s, sep)|] == sep
  {
    if s != "" && s[0] != sep {
      BeforeIs(s[1..], sep);
      assert Before(s, sep) == [s[0]] + Before(s[1..], sep);
      assert s == [s[0]] + s[1..];
    }
  }

  lemma PodNameEnds(name: string, node: string, id: string)
    requires '-' !in id
    ensures var parts := Split(PodName(name, node, id), '-'); parts[|parts| - 1] == id
  {
    var front := name + "-job-" + Before(node, '.');
    SplitJoined(front, '-', id);
    SplitIsWholeIff(id, '-');
    assert PodName(name, node, id) == front + ['-'] + id;
  }

  /** For execution IDs without a dash, two pods share a name exactly if node prefix and execution ID are the same. */
  lemma PodNamesEqualIff(name: string, node1: string, id1: string, node2: string, id2: string)
    requires '-' !in id1 && '-' !in id2
    ensures PodName(name, node1, id1) == PodName(name, node2, id2)
            <==> Before(node1, '.') == Before(node2, '.') && id1 == id2
  {
    if PodName(name, node1, id1) == PodName(name, node2, id2) {
      PodNameEnds(name, node1, id1);
      PodNameEnds(name, node2, id2);
      SameIdSameName(name, node1, node2, id1);
    }
  }

  lemma SameIdSameName(name: string, node1: string, node2: string, id: string)
    ensures PodName(name, node1, id) == PodName(name, node2, id) <==> Before(node1, '.') == Before(node2, '.')
  {
    var a, b := Before(node1, '.'), Before(node2, '.');
    var front, tail := name + "-job-", "-" + id;
    assert PodName(name, node1, id) == front + a + tail && PodName(name, node2, id) == front + b + tail;
    if front + a + tail == front + b + tail {
      assert |a| == |b|;
      assert a == (front + a + tail)[|front|..|front| + |a|];
      assert b == (front + b + tail)[|front|..|front| + |b|];
    }
  }

  function PodNames(name: string, nodes: seq<string>, id: string): seq<string> {
    seq(|nodes|, i requires 0 <= i < |nodes| => PodName(name, nodes[i], id))
  }

  function Prefixes(nodes: seq<string>): seq<string> {
    seq(|nodes|, i requires 0 <= i < |nodes| => Before(nodes[i], '.'))
  }

  /** The pods of one run have different names exactly if the nodes differ before their first dot. */
  lemma PodsOfOneRunDistinctIff(name: string, nodes: seq<string>, id: string)
    ensures Distinct(PodNames(name, nodes, id)) <==> Distinct(Prefixes(nodes))
  {
    var names, prefixes := PodNames(name, nodes, id), Prefixes(nodes);
    forall i, j | 0 <= i < j < |nodes|
      ensures names[i] != names[j] <==> prefixes[i] != prefixes[j]
    {
      SameIdSameName(name, nodes[i], nodes[j], id);
    }
  }

  /** Different nodes can share a pod name, and with a dash in the execution ID so can different executions. */
  lemma PodNamesCollide(name: string)
    ensures PodName(name, "n.a", "1") == PodName(name, "n.b", "1")
    ensures PodName(name, "a", "b-c") == PodName(name, "a-b", "c")
  {
    SplitJoined("n", '.', "a");
    SplitJoined("n", '.', "b");
    SplitIsWholeIff("n", '.');
    SplitIsWholeIff("a", '.');
    SplitIsWholeIff("a-b", '.');
    assert "n.a" == "n" + ['.'] + "a" && "n.b" == "n" + ['.'] + "b";
    assert PodName(name, "a", "b-c") == name + "-job-" + "a-b-c";
    assert PodName(name, "a-b", "c") == name + "-job-" + "a-b-c";
  }

  // ---------------------------------------------------------------- environment

  /** The variables the controller appends, in its order. */
  function Own(t: Target): seq<EnvVar> {
    [ EnvVar(ENV_ID, t.id),
      EnvVar(ENV_NAMESPACE, t.cfg.namespace),
      EnvVar(ENV_NODE, t.node),
      EnvVar(ENV_SERVICE, t.address),
      EnvVar(ENV_PORT, Itoa(t.cfg.port)),
      EnvVar(ENV_RESULT_URL, Url(t, RESULT)),
      EnvVar(ENV_FILE_URL, Url(t, FILE)),
      EnvVar(ENV_EVENT_URL, Url(t, EVENT)) ]
  }

  function Unreserved(env: seq<EnvVar>): seq<EnvVar> {
    if env == [] then []
    else
      var rest, last := Unreserved(env[..|env| - 1]), env[|env| - 1];
      if last.name in RESERVED then rest else rest + [last]
  }

  function Extended(extenders: seq<Extender>, c: Container): seq<EnvVar> {
    if extenders == [] then []
    else Extended(extenders[..|extenders| - 1], c) + extenders[|extenders| - 1](c)
  }

  function Merged(t: Target, c: Container, extenders: seq<Extender>): seq<EnvVar> {
    Unreserved(c.env) + Extended(extenders, c) + Own(t)
  }

  method MergeEnv(t: Target, c: Container, extenders: seq<Extender>) returns (newEnv: seq<EnvVar>)
    ensures newEnv == Merged(t, c, extenders)
  {
    newEnv := [];
    for i := 0 to |c.env|
      invariant newEnv == Unreserved(c.env[..i])
    {
      assert c.env[..i + 1][..i] == c.env[..i];
      if c.env[i].name !in RESERVED {
        newEnv := newEnv + [c.env[i]];
      }
    }
    assert c.env[..|c.env|] == c.env;
    for i := 0 to |extenders|
      invariant newEnv == Unreserved(c.env) + Extended(extenders[..i], c)
    {
      assert extenders[..i + 1][..i] == extenders[..i];
      newEnv := newEnv + extenders[i](c);
    }
    assert extenders[..|extenders|] == extenders;
    newEnv := newEnv + Own(t);
  }

  /** The value a container sees: the last definition wins. */
  function Effective(env: seq<EnvVar>, name: string): Option<string> {
    if env == [] then None
    else if env[|env| - 1].name == name then Some(env[|env| - 1].value)
    else Effective(env[..|env| - 1], name)
  }

  function Occurrences(env: seq<EnvVar>, name: string): nat {
    if env == [] then 0
    else Occurrences(env[..|env| - 1], name) + if env[|env| - 1].name == name then 1 else 0
  }

  /** A variable has the value of the last extender that emits it; without one that does, the extenders leave it out. */
  lemma {:induction false} LastExtenderDecides(extenders: seq<Extender>, c: Container, name: string)
    ensures Effective(Extended(extenders, c), name).Some?
            <==> exists i :: 0 <= i < |extenders| && Effective(extenders[i](c), name).Some?
    ensures forall i | 0 <= i < |extenders| && Effective(extenders[i](c), name).Some?
                       && forall j | i < j < |extenders| :: Effective(extenders[j](c), name).None?
              :: Effective(Extended(extenders, c), name) == Effective(extenders[i](c), name)
  {
    if extenders != [] {
      var front, last := extenders[..|extenders| - 1], extenders[|extenders| - 1];
      LastExtenderDecides(front, c, name);
      Appended(Extended(front, c), last(c), name);
      assert forall i | 0 <= i < |front| :: front[i] == extenders[i];
    }
  }

  /** The template's variables keep their order: what is taken out of a list of them is taken out of its parts. */
  lemma {:induction false} UnreservedJoins(a: seq<EnvVar>, b: seq<EnvVar>)
    ensures Unreserved(a + b) == Unreserved(a) + Unreserved(b)
  {
    if b == [] {
      assert a + b == a;
    } else {
      var front, last := b[..|b| - 1], b[|b| - 1];
      assert (a + b)[..|a + b| - 1] == a + front;
      UnreservedJoins(a, front);
      assert Unreserved(a) + (Unreserved(front) + [last]) == Unreserved(a) + Unreserved(front) + [last];
    }
  }

  lemma UnreservedOne(v: EnvVar)
    ensures Unreserved([v])
         == if v.name in {"NODE_NAME", "EXECUTION_ID", "NAMESPACE", "CALLBACK_SERVICE_NAME", "CALLBACK_SERVICE_PORT"}
            then [] else [v]
  {
    assert [v][..0] == [];
  }

  /** What the controller gives to each of its names. */
  function OwnValue(t: Target, name: string): string
    requires name in OWN
  {
    if name == ENV_ID then t.id
    else if name == ENV_NAMESPACE then t.cfg.namespace
    else if name == ENV_NODE then t.node
    else if name == ENV_SERVICE then t.address
    else if name == ENV_PORT then Itoa(t.cfg.port)
    else if name == ENV_RESULT_URL then Url(t, RESULT)
    else if name == ENV_FILE_URL then Url(t, FILE)
    else Url(t, EVENT)
  }

  lemma {:induction false} Appended(a: seq<EnvVar>, b: seq<EnvVar>, name: string)
    ensures Effective(a + b, name) == if Effective(b, name).Some? then Effective(b, name) else Effective(a, name)
    ensures Occurrences(a + b, name) == Occurrences(a, name) + Occurrences(b, name)
  {
    if b == [] {
      assert a + b == a;
    } else {
      var front := b[..|b| - 1];
      assert (a + b)[..|a + b| - 1] == a + front;
      Appended(a, front, name);
    }
  }

  lemma OneMore(env: seq<EnvVar>, v: EnvVar, name: string)
    ensures Effective(env + [v], name) == if v.name == name then Some(v.value) else Effective(env, name)
    ensures Occurrences(env + [v], name) == Occurrences(env, name) + if v.name == name then 1 else 0
  {
    assert (env + [v])[..|env|] == env;
  }

  lemma {:induction false} UnreservedKeeps(env: seq<EnvVar>, name: string)
    ensures Effective(Unreserved(env), name) == if name in RESERVED then None else Effective(env, name)
    ensures Occurrences(Unreserved(env), name) == if name in RESERVED then 0 else Occurrences(env, name)
  {
    if env != [] {
      var front, last := env[..|env| - 1], env[|env| - 1];
      UnreservedKeeps(front, name);
      OneMore(front, last, name);
      OneMore(Unreserved(front), last, name);
      assert env == front + [last];
    }
  }

  lemma {:induction false} NotDefined(env: seq<EnvVar>, name: string)
    requires forall i | 0 <= i < |env| :: env[i].name != name
    ensures Effective(env, name) == None && Occurrences(env, name) == 0
  {
    if env != [] {
      NotDefined(env[..|env| - 1], name);
    }
  }

  lemma {:induction false} DefinedOnce(env: seq<EnvVar>, i: nat)
    requires i < |env| && forall j | 0 <= j < |env| && j != i :: env[j].name != env[i].name
    ensures Effective(env, env[i].name) == Some(env[i].value) && Occurrences(env, env[i].name) == 1
  {
    var front := env[..|env| - 1];
    if i < |front| {
      DefinedOnce(front, i);
    } else {
      NotDefined(front, env[i].name);
    }
  }

  lemma OwnNames()
    ensures ENV_NODE[0] != ENV_NAMESPACE[0] || ENV_NODE[1] != ENV_NAMESPACE[1]
    ensures ENV_SERVICE[17] != ENV_PORT[17]
    ensures |ENV_NODE| == |ENV_NAMESPACE| == 9 && |ENV_ID| == 12 && |ENV_SERVICE| == |ENV_PORT| == 21
    ensures |ENV_FILE_URL| == 25 && |ENV_EVENT_URL| == 26 && |ENV_RESULT_URL| == 27
  {
  }

  lemma OwnNamesDiffer(t: Target, i: nat)
    requires i < |Own(t)|
    ensures forall j | 0 <= j < |Own(t)| && j != i :: Own(t)[j].name != Own(t)[i].name
  {
    OwnNames();
  }

  /** The place of each of the controller's names in its list. */
  function OwnIndex(name: string): nat
    requires name in OWN
  {
    if name == ENV_ID then 0
    else if name == ENV_NAMESPACE then 1
    else if name == ENV_NODE then 2
    else if name == ENV_SERVICE then 3
    else if name == ENV_PORT then 4
    else if name == ENV_RESULT_URL then 5
    else if name == ENV_FILE_URL then 6
    else 7
  }

  lemma OwnAt(t: Target, name: string)
    requires name in OWN
    ensures OwnIndex(name) < |Own(t)| && Own(t)[OwnIndex(name)] == EnvVar(name, OwnValue(t, name))
  {
  }

  lemma OwnOnly(t: Target)
    ensures forall i | 0 <= i < |Own(t)| :: Own(t)[i].name in OWN
  {
  }

  lemma OwnIsOwn(t: Target, name: string)
    ensures Effective(Own(t), name) == if name in OWN then Some(OwnValue(t, name)) else None
    ensures Occurrences(Own(t), name) == if name in OWN then 1 else 0
  {
    if name in OWN {
      OwnAt(t, name);
      OwnNamesDiffer(t, OwnIndex(name));
      DefinedOnce(Own(t), OwnIndex(name));
    } else {
      OwnOnly(t);
      NotDefined(Own(t), name);
    }
  }

  /**
   * For every template and every extender: the controller's eight variables have the controller's values, and any
   * other variable has the value of the last extender that emits it, or else the one of the template.
   */
  lemma ControllerWins(t: Target, c: Container, extenders: seq<Extender>, name: string)
    ensures Effective(Merged(t, c, extenders), name)
         == if name in OWN then Some(OwnValue(t, name))
            else if Effective(Extended(extenders, c), name).Some? then Effective(Extended(extenders, c), name)
            else Effective(c.env, name)
  {
    Appended(Unreserved(c.env), Extended(extenders, c), name);
    Appended(Unreserved(c.env) + Extended(extenders, c), Own(t), name);
    UnreservedKeeps(c.env, name);
    OwnIsOwn(t, name);
  }

  /**
   * Only the five reserved names are taken out of the template, so a template that defines a callback URL itself
   * leaves a second definition of it in the pod.
   */
  lemma DefinitionsInMerged(t: Target, c: Container, extenders: seq<Extender>, name: string)
    ensures Occurrences(Merged(t, c, extenders), name)
         == (if name in RESERVED then 0 else Occurrences(c.env, name))
            + Occurrences(Extended(extenders, c), name)
            + (if name in OWN then 1 else 0)
  {
    Appended(Unreserved(c.env), Extended(extenders, c), name);
    Appended(Unreserved(c.env) + Extended(extenders, c), Own(t), name);
    UnreservedKeeps(c.env, name);
    OwnIsOwn(t, name);
  }

  /** Whatever template and extenders say, the pod reads its node, execution, namespace and the callback's address. */
  lemma PodReads(t: Target, c: Container, extenders: seq<Extender>)
    ensures Effective(Merged(t, c, extenders), "NODE_NAME") == Some(t.node)
    ensures Effective(Merged(t, c, extenders), "EXECUTION_ID") == Some(t.id)
    ensures Effective(Merged(t, c, extenders), "NAMESPACE") == Some(t.cfg.namespace)
    ensures Effective(Merged(t, c, extenders), "CALLBACK_SERVICE_NAME") == Some(t.address)
    ensures var port := Effective(Merged(t, c, extenders), "CALLBACK_SERVICE_PORT");
            port.Some? && ParsedInt(port.value) == t.cfg.port
  {
    ControllerWins(t, c, extenders, ENV_NODE);
    ControllerWins(t, c, extenders, ENV_ID);
    ControllerWins(t, c, extenders, ENV_NAMESPACE);
    ControllerWins(t, c, extenders, ENV_SERVICE);
    ControllerWins(t, c, extenders, ENV_PORT);
    OwnValues(t);
    ItoaParsesBack(t.cfg.port);
  }

  lemma OwnValues(t: Target)
    ensures OwnValue(t, ENV_NODE) == t.node && OwnValue(t, ENV_ID) == t.id
    ensures OwnValue(t, ENV_NAMESPACE) == t.cfg.namespace && OwnValue(t, ENV_SERVICE) == t.address
    ensures OwnValue(t, ENV_PORT) == Itoa(t.cfg.port)
    ensures OwnValue(t, ENV_RESULT_URL) == Url(t, "/result")
    ensures OwnValue(t, ENV_FILE_URL) == Url(t, "/file")
    ensures OwnValue(t, ENV_EVENT_URL) == Url(t, "/event")
  {
  }

  /** The callback URL of the variable for this sub path. */
  function UrlVariable(sub: string): string
    requires sub in {RESULT, FILE, EVENT}
  {
    if sub == RESULT then ENV_RESULT_URL else if sub == FILE then ENV_FILE_URL else ENV_EVENT_URL
  }

  /**
   * Each callback URL the pod reads is an http URL that leads to the callback's address and port, for an address
   * without a slash or brackets of its own, and is routed to its own endpoint with the pod's node and execution.
   */
  lemma UrlsLeadBack(t: Target, c: Container, extenders: seq<Extender>, sub: string)
    requires sub in {"/result", "/file", "/event"}
    requires '/' !in t.address && '/' !in t.node && '/' !in t.id && (':' in t.address || !Bracketed(t.address))
    ensures var url := Effective(Merged(t, c, extenders), UrlVariable(sub));
            && url.Some? && "http://" <= url.value
            && SplitHostPort(HostOf(url.value)).0 == t.address
            && ParsedInt(SplitHostPort(HostOf(url.value)).1) == t.cfg.port
            && Routed(PathOf(url.value), sub) == Some(map["node" := t.node, "executionID" := t.id])
  {
    ControllerWins(t, c, extenders, UrlVariable(sub));
    OwnValues(t);
    UrlHasPath(t, sub);
    UrlHasHost(t, sub);
    HostPortReadsBackIff(t.address, t.cfg.port);
    ItoaParsesBack(t.cfg.port);
    PathParsesBack(t.node, t.id, sub, sub);
  }

  // ---------------------------------------------------------------- the pod

  const LABEL_OWNER := "batch-job-controller.bakito.github.com/owner"
  const LABEL_EXECUTION_ID := "batch-job-controller.bakito.github.com/execution-id"
  const RESTART_NEVER := "Never"

  /** A pod as decoded from the template, to be completed in place. */
  class PodObject {
    var name: string
    var namespace: string
    /** None is a null map. */
    var labels: Option<map<string, string>>
    var nodeName: string
    var serviceAccount: string
    var pullSecrets: seq<string>
    var restartPolicy: string
    const containers: array<Container>
    const initContainers: array<Container>

    constructor (labels: Option<map<string, string>>, containers: array<Container>, initContainers: array<Container>)
      ensures this.labels == labels && this.containers == containers && this.initContainers == initContainers
    {
      this.labels, this.containers, this.initContainers := labels, containers, initContainers;
      name, namespace, nodeName, serviceAccount, pullSecrets, restartPolicy := "", "", "", "", [], "";
    }
  }

  function WithMerged(t: Target, c: Container, extenders: seq<Extender>): Container {
    c.(env := Merged(t, c, extenders))
  }

  /** The loop over containers, or over init containers. */
  method MergeAll(t: Target, cs: array<Container>, extenders: seq<Extender>)
    modifies cs
    ensures forall i | 0 <= i < cs.Length :: cs[i] == WithMerged(t, old(cs[i]), extenders)
    ensures forall i | 0 <= i < cs.Length :: cs[i].name == old(cs[i].name)
  {
    for i := 0 to cs.Length
      invariant forall j | 0 <= j < i :: cs[j] == WithMerged(t, old(cs[j]), extenders)
      invariant forall j | i <= j < cs.Length :: cs[j] == old(cs[j])
    {
      var newEnv := MergeEnv(t, cs[i], extenders);
      cs[i] := cs[i].(env := newEnv);
    }
  }

  /** What New promises of the completed pod, whatever the template said. */
  ghost predicate Completed(pod: PodObject, t: Target)
    reads pod, pod.containers, pod.initContainers
  {
    && pod.name == PodName(t.cfg.name, t.node, t.id) && pod.namespace == t.cfg.namespace
    && pod.nodeName == t.node && pod.serviceAccount == t.cfg.serviceAccount
    && pod.pullSecrets == t.cfg.pullSecrets && pod.restartPolicy == RESTART_NEVER
    && pod.labels.Some? && Lookup(pod.labels.value, LABEL_EXECUTION_ID) == Some(t.id)
    && Lookup(pod.labels.value, LABEL_OWNER) == Some(t.cfg.name)
    && (forall i, name | 0 <= i < pod.containers.Length && name in OWN ::
          Effective(pod.containers[i].env, name) == Some(OwnValue(t, name)))
    && (forall i, name | 0 <= i < pod.initContainers.Length && name in OWN ::
          Effective(pod.initContainers[i].env, name) == Some(OwnValue(t, name)))
  }

  /**
   * New after the template was decoded. It panics, before it touches a container, exactly when the labels are null;
   * in Protocol that is the template outcome NullLabels.
   */
  method Complete(pod: PodObject, t: Target, extenders: seq<Extender>) returns (panicked: bool)
    requires pod.containers != pod.initContainers
    modifies pod, pod.containers, pod.initContainers
    ensures panicked <==> old(pod.labels).None?
    ensures panicked ==> pod.containers[..] == old(pod.containers[..])
    ensures panicked ==> pod.initContainers[..] == old(pod.initContainers[..])
    ensures !panicked ==> Completed(pod, t)
    ensures !panicked ==>
              pod.labels == Some(old(pod.labels).value[LABEL_EXECUTION_ID := t.id][LABEL_OWNER := t.cfg.name])
    ensures !panicked ==> forall i | 0 <= i < pod.containers.Length ::
              pod.containers[i] == WithMerged(t, old(pod.containers[i]), extenders)
    ensures !panicked ==> forall i | 0 <= i < pod.initContainers.Length ::
              pod.initContainers[i] == WithMerged(t, old(pod.initContainers[i]), extenders)
  {
    pod.name, pod.namespace := PodName(t.cfg.name, t.node, t.id), t.cfg.namespace;
    if pod.labels.None? {
      return true;
    }
    panicked := false;
    pod.labels := Some(pod.labels.value[LABEL_EXECUTION_ID := t.id][LABEL_OWNER := t.cfg.name]);
    pod.nodeName, pod.serviceAccount := t.node, t.cfg.serviceAccount;
    pod.pullSecrets, pod.restartPolicy := t.cfg.pullSecrets, RESTART_NEVER;
    MergeAll(t, pod.containers, extenders);
    MergeAll(t, pod.initContainers, extenders);
    forall i, name | 0 <= i < pod.containers.Length && name in OWN
      ensures Effective(pod.containers[i].env, name) == Some(OwnValue(t, name))
    {
      ControllerWins(t, old(pod.containers[i]), extenders, name);
    }
    forall i, name | 0 <= i < pod.initContainers.Length && name in OWN
      ensures Effective(pod.initContainers[i].env, name) == Some(OwnValue(t, name))
    {
      ControllerWins(t, old(pod.initContainers[i]), extenders, name);
    }
  }

  /**
   * The event callback finds the pod it was called from: the path of its URL leads, over the route parameters,
   * to the name the pod was created with.
   */
  lemma EventFindsItsPod(t: Target)
    requires '/' !in t.address && '/' !in t.node && '/' !in t.id
    ensures var params := Routed(PathOf(OwnValue(t, ENV_EVENT_URL)), EVENT);
            && params.Some? && params.value.Keys == {"node", "executionID"}
            && PodName(t.cfg.name, params.value["node"], params.value["executionID"])
               == PodName(t.cfg.name, t.node, t.id)
  {
    UrlHasPath(t, EVENT);
    PathParsesBack(t.node, t.id, EVENT, EVENT);
  }
}
