/**
 * The execution engine as a state machine: the cron producer, the workers of every execution, the pod
 * reconciler and the HTTP callbacks take atomic steps on one controller. Events carry whatever the code gets
 * from outside (time stamps, listings, failures), so the next state is a function of state and event.
 */
module Protocol {
  import opened Collections
  import opened CollectorModel
  import opened MetricIndex

  // ---------------------------------------------------------------- nodes and report directory entries

  datatype Condition = Condition(kind: string, status: string)

  datatype Node = Node(name: string, unschedulable: bool, conditions: seq<Condition>)

  const NODE_READY := "Ready"
  const CONDITION_TRUE := "True"

  /** The first Ready condition decides; a node without one is not ready. */
  predicate Ready(conditions: seq<Condition>) {
    conditions != [] &&
    if conditions[0].kind == NODE_READY then conditions[0].status == CONDITION_TRUE else Ready(conditions[1..])
  }

  predicate Usable(node: Node, runOnUnscheduled: bool) {
    (runOnUnscheduled || !node.unschedulable) && Ready(node.conditions)
  }

  function UsableNames(items: seq<Node>, runOnUnscheduled: bool): seq<string> {
    if items == [] then []
    else
      var rest := UsableNames(items[..|items| - 1], runOnUnscheduled);
      var last := items[|items| - 1];
      if Usable(last, runOnUnscheduled) then rest + [last.name] else rest
  }

  function NodeNames(items: seq<Node>): seq<string> {
    seq(|items|, i requires 0 <= i < |items| => items[i].name)
  }

  datatype Entry = Entry(name: string, modTime: int)

  function EntryNames(files: seq<Entry>): seq<string> {
    seq(|files|, i requires 0 <= i < |files| => files[i].name)
  }

  /** What ReadDir and SortFunc return: every entry of the directory once, oldest first. */
  ghost predicate IsListing(files: seq<Entry>, dirs: set<string>) {
    && Distinct(EntryNames(files))
    && Elements(EntryNames(files)) == dirs
    && forall i, j | 0 <= i < j < |files| :: files[i].modTime <= files[j].modTime
  }

  // ---------------------------------------------------------------- the controller's data

  datatype Pod = Pod(started: Option<nat>, terminated: Option<nat>, reported: Option<nat>)

  const NEW_POD := Pod(None, None, None)

  /**
   * A worker goroutine: waiting on the channel, holding a job it received, holding a job whose pod it created,
   * polling for the end of a pod it marked started, gone after the channel was drained, or gone because the
   * pod of its job was not registered.
   */
  datatype Worker =
    | Waiting
    | Holding(node: string)
    | Creating(node: string)
    | Polling(node: string)
    | Exited
    | Dead

  datatype Execution = Execution(
    id: string,
    pods: map<string, Pod>,
    queue: seq<string>,
    closed: bool,
    workers: seq<Worker>)

  /** execs lists every execution ever started; current is the executions map of the source. */
  datatype Controller = Controller(
    execs: seq<Execution>,
    current: map<string, nat>,
    nodes: set<string>,
    progress: nat,
    jobs: nat,
    prom: Prom,
    dirs: set<string>)

  function ForID(c: Controller, id: string): Option<nat> {
    if id in c.current && c.current[id] < |c.execs| then Some(c.current[id]) else None
  }

  predicate Has(c: Controller, node: string, id: string) {
    node in c.nodes && id in c.current
  }

  function WithExec(c: Controller, k: nat, x: Execution): Controller
    requires k < |c.execs|
  {
    c.(execs := c.execs[k := x])
  }

  function WithWorker(x: Execution, w: nat, to: Worker): Execution
    requires w < |x.workers|
  {
    x.(workers := x.workers[w := to])
  }

  // ---------------------------------------------------------------- controller steps

  function NewExecution(c: Controller, poolSize: nat, id: string, jobs: nat, dirMade: bool, linked: bool): Controller {
    Controller(
      c.execs + [Execution(id, map[], [], false, seq(poolSize, _ => Waiting))],
      c.current[id := |c.execs|],
      c.nodes,
      0,
      jobs,
      c.prom.(pods := jobs as real),
      c.dirs - {LATEST} + (if dirMade then {id} else {}) + (if linked then {LATEST} else {}))
  }

  /** AddPod up to the channel send. */
  function StorePod(c: Controller, k: nat, node: string): Controller
    requires k < |c.execs|
  {
    var x := c.execs[k];
    WithExec(c, k, x.(pods := x.pods[node := NEW_POD])).(nodes := c.nodes + {node})
  }

  function SendJob(c: Controller, k: nat, node: string): Controller
    requires k < |c.execs|
  {
    WithExec(c, k, c.execs[k].(queue := c.execs[k].queue + [node]))
  }

  function CloseChannel(c: Controller, k: nat): Controller
    requires k < |c.execs|
  {
    WithExec(c, k, c.execs[k].(closed := true))
  }

  function ReceiveJob(c: Controller, k: nat, w: nat): Controller
    requires k < |c.execs| && w < |c.execs[k].workers| && c.execs[k].queue != []
  {
    var x := c.execs[k];
    WithExec(c, k, WithWorker(x, w, Holding(x.queue[0])).(queue := x.queue[1..]))
  }

  function StepWorker(c: Controller, k: nat, w: nat, to: Worker): Controller
    requires k < |c.execs| && w < |c.execs[k].workers|
  {
    WithExec(c, k, WithWorker(c.execs[k], w, to))
  }

  /** The worker looks its pod up, marks it started and counts it; a missing pod ends the worker. */
  function MarkStarted(c: Controller, k: nat, w: nat, node: string, t: nat): Controller
    requires k < |c.execs| && w < |c.execs[k].workers|
  {
    var x := c.execs[k];
    if node in x.pods then
      var y := x.(pods := x.pods[node := x.pods[node].(started := Some(t))]);
      WithExec(c, k, WithWorker(y, w, Polling(node))).(progress := c.progress + 1)
    else
      StepWorker(c, k, w, Dead)
  }

  function MarkFinished(c: Controller, k: nat, w: nat): Controller
    requires k < |c.execs| && w < |c.execs[k].workers|
  {
    StepWorker(c, k, w, Waiting).(progress := c.progress + 1)
  }

  function PodTerminated(c: Controller, id: string, node: string, succeeded: bool, t: nat, d: real): Controller {
    match ForID(c, id)
    case None => c
    case Some(k) =>
      var x := c.execs[k];
      if node !in x.pods || x.pods[node].terminated.Some? then
        c
      else
        var y := x.(pods := x.pods[node := x.pods[node].(terminated := Some(t))]);
        var measured := Duration(c.prom, node, id, d);
        var bad := !succeeded || x.pods[node].reported.None?;
        var prom := if bad then ProcessingFinished(measured, node, id, true) else measured;
        WithExec(c, k, y).(progress := c.progress + 1, prom := prom)
  }

  function ReportReceived(c: Controller, id: string, node: string, failed: bool, t: nat, results: seq<Reported>)
    : Controller
  {
    var prom := ProcessingFinished(MetricsFor(c.prom, id, node, results), node, id, failed);
    match ForID(c, id)
    case None => c.(prom := prom)
    case Some(k) =>
      var x := c.execs[k];
      if node !in x.pods then
        c.(prom := prom)
      else
        WithExec(c, k, x.(pods := x.pods[node := x.pods[node].(reported := Some(t))])).(prom := prom)
  }

  function MakeReportDir(c: Controller, id: string): Controller {
    c.(dirs := c.dirs + {id})
  }

  /** One round of the pruning loop of AllAdded. */
  function PruneName(c: Controller, name: string, removed: bool): Controller {
    c.(current := c.current - {name},
       prom := PruneAll(c.prom, name),
       dirs := if removed then c.dirs - {name} else c.dirs)
  }

  /** The number of entries AllAdded sets out to prune; with a history below -1 it exceeds the number of entries. */
  function PruneCount(entries: nat, reportHistory: int): int {
    if entries > reportHistory + 1 then entries - (reportHistory + 1) else 0
  }

  /** The entries AllAdded does prune: the oldest ones beyond reportHistory + 1. */
  function Expired(files: seq<Entry>, reportHistory: int): seq<string> {
    var count := PruneCount(|files|, reportHistory);
    EntryNames(files)[..if count <= |files| then count else |files|]
  }

  // ---------------------------------------------------------------- the whole system

  /**
   * startPods: where the one running producer stands. todo lists the nodes not yet added, names the entries not yet
   * pruned; beyond says that the pruning loop will index past the listing.
   */
  datatype Producer =
    | Idle
    | Listing
    | Preparing(id: string, todo: seq<string>)
    | Adding(id: string, todo: seq<string>)
    | Sending(id: string, k: nat, todo: seq<string>)
    | Pruning(k: nat, names: seq<string>, beyond: bool)

  /** What the job template gives for a node and an execution: an error, a pod whose labels are null, or a pod. */
  datatype Decoded = Fails | NullLabels | Decodes

  /** chanLimit is the size up to which the runtime can make a channel. */
  datatype Config = Config(
    poolSize: int,
    chanLimit: nat,
    template: (string, string) -> Decoded,
    reportHistory: int,
    runOnUnscheduled: bool,
    devMode: bool,
    latest: bool,
    gauges: map<string, LabelNames>,
    dirs: set<string>)

  datatype State = State(ctl: Controller, producer: Producer, panicked: bool)

  datatype Event =
    // startPods
    | Tick
    | ListFailed
    | Begin(id: string, items: seq<Node>, dirMade: bool, linked: bool)
    | PrepareFailed
    | Prepared
    | TemplateFailed
    | TemplatePanics
    | Store(id: string, node: string)
    | Send(k: nat, node: string)
    | ListDir(listing: Option<seq<Entry>>)
    | Vanished
    | PruneNext(name: string, removed: bool)
    | IndexPast(k: nat)
    | Close(k: nat)
    // worker w of execution k
    | Receive(k: nat, w: nat, node: string)
    | CreatePod(k: nat, w: nat, node: string)
    | Start(k: nat, w: nat, node: string, t: nat)
    | Finish(k: nat, w: nat, node: string)
    | Exit(k: nat, w: nat)
    // reconciler and callbacks
    | Terminate(id: string, node: string, succeeded: bool, t: nat, duration: real)
    | PostResult(id: string, node: string, failed: bool, t: nat, results: seq<Reported>)
    | SaveFile(id: string, node: string)

  /** The channel of an execution can be made. */
  predicate Makes(cfg: Config) {
    0 <= cfg.poolSize <= cfg.chanLimit
  }

  predicate TemplatesOk(cfg: Config, id: string, names: seq<string>) {
    forall name | name in names :: cfg.template(name, id) == Decodes
  }

  /** Execution IDs are time stamps of the form yyyyMMddHHmm, so never LATEST. */
  predicate IsTimestamp(id: string) {
    |id| >= 12 && forall ch | ch in id :: '0' <= ch <= '9'
  }

  function Init(cfg: Config): State {
    State(Controller([], map[], {}, 0, 0, NewProm(cfg.latest, cfg.gauges), cfg.dirs), Idle, false)
  }

  /** The gate of the callback server: unknown pairs are rejected outside DevMode. */
  predicate Admitted(cfg: Config, s: State, node: string, id: string) {
    Has(s.ctl, node, id) || cfg.devMode
  }

  predicate AtWorker(s: State, k: nat, w: nat, at: Worker) {
    k < |s.ctl.execs| && w < |s.ctl.execs[k].workers| && s.ctl.execs[k].workers[w] == at
  }

  /** The next node to add and what the template gives for it. */
  predicate NextTemplate(cfg: Config, s: State, d: Decoded) {
    s.producer.Adding? && s.producer.todo != [] && cfg.template(s.producer.todo[0], s.producer.id) == d
  }

  ghost predicate Enabled(cfg: Config, s: State, e: Event) {
    !s.panicked &&
    match e
    case Tick => true
    case ListFailed => s.producer.Listing?
    case Begin(id, items, _, _) => s.producer.Listing? && IsTimestamp(id) && Distinct(NodeNames(items))
    case PrepareFailed => s.producer.Preparing?
    case Prepared => s.producer.Preparing?
    case TemplateFailed => NextTemplate(cfg, s, Fails)
    case TemplatePanics => NextTemplate(cfg, s, NullLabels)
    case Store(id, node) =>
      NextTemplate(cfg, s, Decodes) && s.producer.id == id && s.producer.todo[0] == node
    case Send(k, node) =>
      && s.producer.Sending? && s.producer.k == k && s.producer.todo != [] && s.producer.todo[0] == node
      && k < |s.ctl.execs| && (s.ctl.execs[k].closed || |s.ctl.execs[k].queue| < cfg.poolSize)
    case ListDir(listing) =>
      && s.producer.Adding? && s.producer.todo == []
      && (listing.Some? ==> IsListing(listing.value, s.ctl.dirs))
    // an entry is gone when the sort asks for its time
    case Vanished => s.producer.Adding? && s.producer.todo == [] && |s.ctl.dirs| >= 2
    case PruneNext(name, _) => s.producer.Pruning? && s.producer.names != [] && s.producer.names[0] == name
    case IndexPast(k) => s.producer == Pruning(k, [], true)
    case Close(k) => s.producer == Pruning(k, [], false) && k < |s.ctl.execs|
    case Receive(k, w, node) =>
      AtWorker(s, k, w, Waiting) && s.ctl.execs[k].queue != [] && s.ctl.execs[k].queue[0] == node
    case CreatePod(k, w, node) => AtWorker(s, k, w, Holding(node))
    case Start(k, w, node, _) => AtWorker(s, k, w, Creating(node))
    case Finish(k, w, node) =>
      && AtWorker(s, k, w, Polling(node))
      && node in s.ctl.execs[k].pods && s.ctl.execs[k].pods[node].terminated.Some?
    case Exit(k, w) => AtWorker(s, k, w, Waiting) && s.ctl.execs[k].queue == [] && s.ctl.execs[k].closed
    case Terminate(_, _, _, _, _) => true
    case PostResult(id, node, _, _, _) => Admitted(cfg, s, node, id)
    case SaveFile(id, node) => Admitted(cfg, s, node, id)
  }

  function AfterListing(cfg: Config, s: State, listing: Option<seq<Entry>>): State
    requires s.producer.Adding?
  {
    match ForID(s.ctl, s.producer.id)
    case None => s.(producer := Idle)
    case Some(k) =>
      if listing.None? then
        s.(producer := Idle)
      else
        var files := listing.value;
        s.(producer := Pruning(k, Expired(files, cfg.reportHistory), PruneCount(|files|, cfg.reportHistory) > |files|))
  }

  function Apply(cfg: Config, s: State, e: Event): State
    requires Enabled(cfg, s, e)
  {
    match e
    case Tick => if s.producer.Idle? then s.(producer := Listing) else s
    case ListFailed => s.(producer := Idle)
    case Begin(id, items, dirMade, linked) =>
      var nodes := UsableNames(items, cfg.runOnUnscheduled);
      // make panics on a negative size and on one that is too large
      if !Makes(cfg) then s.(panicked := true)
      else State(NewExecution(s.ctl, cfg.poolSize, id, |nodes|, dirMade, linked), Preparing(id, nodes), false)
    case PrepareFailed => s.(producer := Idle)
    case Prepared => s.(producer := Adding(s.producer.id, s.producer.todo))
    case TemplateFailed => s.(producer := Idle)
    // a label is written to a null map
    case TemplatePanics => s.(panicked := true)
    case Store(id, node) =>
      (match ForID(s.ctl, id)
       case None => s.(producer := Adding(id, s.producer.todo[1..]))
       case Some(k) => State(StorePod(s.ctl, k, node), Sending(id, k, s.producer.todo), false))
    case Send(k, node) =>
      // a send on a closed channel panics
      if s.ctl.execs[k].closed then s.(panicked := true)
      else State(SendJob(s.ctl, k, node), Adding(s.producer.id, s.producer.todo[1..]), false)
    case ListDir(listing) => AfterListing(cfg, s, listing)
    case PruneNext(name, removed) =>
      State(PruneName(s.ctl, name, removed), s.producer.(names := s.producer.names[1..]), false)
    case IndexPast(_) => s.(panicked := true)
    case Vanished => s.(panicked := true)
    case Close(k) =>
      // closing a closed channel panics
      if s.ctl.execs[k].closed then s.(panicked := true)
      else State(CloseChannel(s.ctl, k), Idle, false)
    case Receive(k, w, _) => s.(ctl := ReceiveJob(s.ctl, k, w))
    case CreatePod(k, w, node) => s.(ctl := StepWorker(s.ctl, k, w, Creating(node)))
    case Start(k, w, node, t) => s.(ctl := MarkStarted(s.ctl, k, w, node, t))
    case Finish(k, w, _) => s.(ctl := MarkFinished(s.ctl, k, w))
    case Exit(k, w) => s.(ctl := StepWorker(s.ctl, k, w, Exited))
    case Terminate(id, node, succeeded, t, d) => s.(ctl := PodTerminated(s.ctl, id, node, succeeded, t, d))
    case PostResult(id, node, failed, t, results) =>
      s.(ctl := ReportReceived(MakeReportDir(s.ctl, id), id, node, failed, t, results))
    case SaveFile(id, _) => s.(ctl := MakeReportDir(s.ctl, id))
  }

  /** The state after a sequence of events, if the sequence is possible. */
  ghost function Run(cfg: Config, evs: seq<Event>): Option<State> {
    if evs == [] then Some(Init(cfg))
    else
      match Run(cfg, evs[..|evs| - 1])
      case None => None
      case Some(s) =>
        if Enabled(cfg, s, evs[|evs| - 1]) then Some(Apply(cfg, s, evs[|evs| - 1])) else None
  }

  // ---------------------------------------------------------------- what the trace says about an execution

  /** The jobs of one execution in the order of the events of each kind. */
  datatype Ledger = Ledger(
    nodes: seq<string>,
    sent: seq<string>,
    received: seq<string>,
    created: seq<string>,
    started: seq<string>,
    finished: seq<string>)

  function Note(cfg: Config, ls: seq<Ledger>, e: Event): seq<Ledger> {
    match e
    case Begin(_, items, _, _) =>
      if !Makes(cfg) then ls else ls + [Ledger(UsableNames(items, cfg.runOnUnscheduled), [], [], [], [], [])]
    case Send(k, node) => if k < |ls| then ls[k := ls[k].(sent := ls[k].sent + [node])] else ls
    case Receive(k, _, node) => if k < |ls| then ls[k := ls[k].(received := ls[k].received + [node])] else ls
    case CreatePod(k, _, node) => if k < |ls| then ls[k := ls[k].(created := ls[k].created + [node])] else ls
    case Start(k, _, node, _) => if k < |ls| then ls[k := ls[k].(started := ls[k].started + [node])] else ls
    case Finish(k, _, node) => if k < |ls| then ls[k := ls[k].(finished := ls[k].finished + [node])] else ls
    case _ => ls
  }

  /** One ledger per execution, in order. */
  function Ledgers(cfg: Config, evs: seq<Event>): seq<Ledger> {
    if evs == [] then [] else Note(cfg, Ledgers(cfg, evs[..|evs| - 1]), evs[|evs| - 1])
  }
}
