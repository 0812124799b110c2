# Batch Job Controller: a verified model

The batch job controller runs one pod per usable cluster node, at most `podPoolSize` at a time and execution, and
collects what the pods report. This project models its execution engine, its metrics index, the gates that couple the
two, and the environment, URLs and names it gives to its pods. `dafny verify dfyconfig.toml` checks all of it.

## How the model is built

* **Protocol.dfy** is the controller as a state machine. The cron producer, the workers of every execution, the pod
  reconciler and the HTTP callbacks take atomic steps (`Enabled`, `Apply`); `Run` folds a sequence of events into a
  state, and `Ledgers` reads off the sequence which jobs were sent, received, created, started and finished.
  A theorem about `Run(cfg, evs)` for all `evs` speaks about every interleaving. Whatever the code gets from outside
  (time stamps, node lists, directory listings, failures, the measured duration) is part of the events.
* **Lifecycle.dfy** and **Metrics.dfy** are the same controller and collector as objects that are updated in place.
  Every method is proved to make exactly the step that carries its name. Label rows are arrays shared by reference, because the source overwrites a row that it
  has already filed.
* **Machine.dfy** runs the state machine on these objects: each method takes one step and notes its event, and `Valid`
  says that the controller is the one the run of the noted events leads to. What holds of every run therefore holds of
  the objects; `LookupsSucceed` is one such theorem.
* **Cron.dfy** is `startPods` with its loop and its early returns. Between its steps any number of steps of others may
  happen; `CronJob.Others` stands for them, and callers know only its contract. `OthersKeepProducer` shows that the
  steps of others meet that contract.
* **Callbacks.dfy** is the callback server behind its gate, and the reconciler.
* **Job.dfy** is the pod: environment, callback URLs, name.
* The remaining files hold the invariant (Workers, ExecutionInvariant, SystemInvariant) and the theorems
  (EngineTheorems, ControllerRuns, Progress, Liveness, Persistence, Completion, MetricIndex, CollectorModel, Coupling,
  CustomSeries, PairGauges, PrunedGauges, Retention, Gate, MetricNames).

Atomicity: each shared access of the Go code is one step. `PodTerminated`, `ReportReceived` and `NewExecution` are one
step each, a callback is one step together with its gate, and a pruning round is one step. `running` is checked and set
in one step. controller-runtime does not run `Reconcile` twice at once for one pod. A worker that blocks or polls takes
no step.

The panics that the code of `startPods` and of what it calls in this repository can raise are results, not exclusions: a
channel whose size is negative or beyond what the runtime can make, a label written to a null map, an entry that is gone
when the sort asks for its time, an index past the listing, a send on a closed channel, and a second close lead to a
state that is marked as panicked. `NeverPanicsIff` says when that state is reachable. What custom extenders and the
libraries may raise, and what the runtime does on data races or without memory, is outside.

The outcome of the job template for a node and an execution is part of the configuration, as the template is.

## What the code does otherwise than its documentation suggests

Each of these is proved, together with the exact condition under which the intended property holds.

* With `latestMetricsLabel` on, `MetricFor` overwrites the row it has just filed. The row under the execution ID then
  ends in `latest`, so pruning an execution removes the `latest` series and keeps the execution's own
  (`LatestPruneTakesTheWrongSeries`). Custom gauges are pruned exactly if and only if the option is off and the
  configured labels leave `executionID` last (`PruneExactIff`); the same holds over all runs of the whole system
  (`PrunesCleanIff`). A copy of the row would make the option harmless
  (`PruneExactWithCopyIff`).
* As long as no directory entry vanishes while it is sorted, startPods panics in some run exactly if no channel of size
  `podPoolSize` can be made, or `reportHistory` is below -1, or the template decodes to null labels for some node and
  execution (`NeverPanicsIff`; `NoChannelRun`, `PanickingRun`, `NullLabelsRun`). A vanished entry can make every
  configuration panic (`VanishedRun`).
* A worker that waits for the end of its pod waits for ever exactly if no ID leads to its execution any more
  (`PollsForeverIff`). `OrphanRun` gets there for every pool size: the ID of a run is issued again within the same
  minute. `PrunedOrphanRun` gets there without an error: a run that finds its own entry to be the oldest of more entries
  than are kept prunes itself. That can happen to an entry exactly if there are more entries than are kept
  (`CanExpireIff`), and not while at most `reportHistory` others are as new (`SurvivesUnlessOutnumbered`).
* The channel of an execution can still be closed exactly if it is closed, or `startPods` works on it with a history not
  below -1, templates that decode for all nodes without a pod, and a worker in the pool or nothing left to send
  (`ClosesIff`). `AbandonedRun` gives up right after `NewExecution`; its workers then never leave (`AbandonedForever`).
  With a pool size of 0 the first send blocks `startPods` for ever (`BlocksForever`).
* Taken together: an execution can still be completed, with every node finished and every worker gone, exactly if its
  channel is closed or can be, and an ID leads to it or no end is missing (`CompletesIff`).
* Outside DevMode a pruned execution stays gone (`PrunedStaysGone`); in DevMode one late report brings back its series
  and its directory (`DevModeBringsBack`).
* The three callback URL variables are not reserved, so a template that defines one leaves two definitions in the pod;
  the controller's value still wins (`DefinitionsInMerged`, `ControllerWins`).
* Two nodes of one run get the same pod name exactly if they agree before their first dot (`PodsOfOneRunDistinctIff`).
* The check of reserved metric names does not cover the gauge of the current execution and the version gauge
  (`AcceptedNamesAreFreeIff`).

## Model

| member | source | states |
|---|---|---|
| `EngineTheorems.PoolBound` | pkg/lifecycle/lifecycle.go:180-201 | in every reachable state at most podPoolSize pods of an execution are created and not recorded terminated, and each of them is held by exactly one worker |
| `EngineTheorems.Conservation` | pkg/lifecycle/lifecycle.go:180-215 | jobs sent are the jobs received in channel order followed by the queue; a received job is either finished, once, or held by exactly one worker |
| `EngineTheorems.Backpressure` | pkg/lifecycle/lifecycle.go:88-105 | sent minus finished jobs never exceeds twice the pool size |
| `EngineTheorems.AllAddedComesLate` | pkg/cron/cron.go:140-156 | when startPods reaches AllAdded, all but two pools of its jobs are finished |
| `EngineTheorems.WorkersNeverDieEarly` | pkg/lifecycle/lifecycle.go:183-190 | every queued or held job has its pod in its own execution, so no worker takes the failure return, and a worker leaves only on a closed, drained channel |
| `EngineTheorems.ChannelDiscipline` | pkg/lifecycle/lifecycle.go:136-213 | whatever path startPods takes, the channel it sends on or closes is open and its ID is known; a panic has another cause |
| `EngineTheorems.ClosedMeansAllSent` | pkg/cron/cron.go:111-156 | a closed channel was sent exactly the usable nodes of its run, in order, and while AllAdded prunes and closes their number is the argument of NewExecution |
| `EngineTheorems.NeverPanicsIff` | pkg/cron/cron.go:90-157 | as long as no entry vanishes while the directory is sorted, no run panics if and only if reportHistory is at least -1, a channel of podPoolSize can be made, and the template decodes to null labels for no node and execution |
| `EngineTheorems.PanickingRun` | pkg/lifecycle/lifecycle.go:160-163 | for every reportHistory below -1, a run that prunes its whole listing and indexes past it |
| `EngineTheorems.NoChannelRun` | pkg/lifecycle/lifecycle.go:93-93 | for every podPoolSize that is negative or too large, a run that cannot make its channel |
| `EngineTheorems.NullLabelsRun` | pkg/job/job.go:101-101 | for every node and execution whose template decodes to null labels, a run that writes to the null map |
| `EngineTheorems.VanishedRun` | pkg/lifecycle/lifecycle.go:148-158 | for every configuration whose channels can be made, a run that asks a vanished entry for its time |
| `EngineTheorems.PanicHasCause` | pkg/cron/cron.go:90-157 | every panic comes from one of these four |
| `SystemInvariant.StepKeeps` | pkg/lifecycle/lifecycle.go:88-276 | every step of anybody keeps the invariant of workers, channel, pods, producer and ID map |
| `SystemInvariant.Reachable` | pkg/lifecycle/lifecycle.go:88-276 | the invariant holds after every run |
| `SystemInvariant.UsableNamesFrom` | pkg/cron/cron.go:104-109 | the nodes selected from a list without duplicates have no duplicates and come from the list |
| `ExecutionInvariant.ReceiveKeeps` | pkg/lifecycle/lifecycle.go:183-183 | a receive moves the head of the channel to one worker and keeps the account of every job |
| `ExecutionInvariant.StartKeeps` | pkg/lifecycle/lifecycle.go:187-193 | the pod lookup of a worker succeeds, and marking it started keeps the account |
| `ExecutionInvariant.FinishKeeps` | pkg/lifecycle/lifecycle.go:195-198 | a worker that saw the end of its pod hands the job over to the finished ones |
| `Liveness.NoDeadlock` | pkg/lifecycle/lifecycle.go:180-215 | while startPods works on an execution or after its channel is closed, all workers have left, or one of its workers can step, or startPods can take a step that needs nothing to fail outside it, or a worker awaits the end of a created pod, or the pool has no worker and a send waits |
| `Liveness.BlocksForever` | pkg/lifecycle/lifecycle.go:213-213 | with podPoolSize 0 a producer that waits to send does so in every continuation |
| `Liveness.AllEndedMeansWorkersMove` | pkg/lifecycle/lifecycle.go:180-201 | once the ends of all pods of a closed execution are recorded, its workers can step until the last one has left |
| `Liveness.AllExitedMeansAllFinished` | pkg/lifecycle/lifecycle.go:180-201 | when all workers have left, every node of the run was received and finished |
| `Liveness.TerminationUnblocks` | pkg/lifecycle/lifecycle.go:195-228 | delivering the end of an awaited pod of a known execution lets its worker finish |
| `Liveness.StepWeighs` | pkg/lifecycle/lifecycle.go:180-276 | a natural number drops with every working step for an execution, first reports included, and rises with no step of anybody; idle polls, repeated callbacks, uploads, pruning rounds and a final panic keep it |
| `Liveness.BoundedWork` | pkg/lifecycle/lifecycle.go:180-276 | in every run, work done for an execution of N nodes plus work left is at most 8N + podPoolSize + 3 |
| `Persistence.TerminatedOnce` | pkg/lifecycle/lifecycle.go:218-228 | a recorded end never changes, and delivering it again changes nothing |
| `Persistence.AdmittedUntilPruned` | pkg/lifecycle/lifecycle.go:204-213 | from AddPod until its ID is pruned the gate admits the node |
| `Gate.HasIff` | pkg/lifecycle/lifecycle.go:278-284 | in every run the gate knows a node and an ID if and only if AddPod was called for the node in some execution, and the ID was issued and not pruned since |
| `Gate.StrangersAreRejected` | pkg/http/middleware.go:13-22 | outside DevMode a report for a node that was never added or an ID that is not issued is rejected and changes nothing |
| `Gate.DirectoryIs` | pkg/lifecycle/lifecycle.go:107-129 | in every run an entry is in the report directory if and only if the last step that touched it made it: NewExecution, a report or an upload, but not a pruning that could remove it |
| `Persistence.OrphanPollsForever` | pkg/lifecycle/lifecycle.go:195-197 | a worker polling a pod of an execution no ID leads to polls in every continuation |
| `Persistence.AbandonedForever` | pkg/cron/cron.go:115-148 | an execution startPods gave up on keeps its channel open in every continuation, and its workers never exit |
| `Persistence.UnendedForever` | pkg/lifecycle/lifecycle.go:286-301 | nobody records the end of a pod of an execution that no ID leads to |
| `Completion.PollsForeverIff` | pkg/lifecycle/lifecycle.go:195-197 | in every reachable state a worker that waits for its pod polls in every continuation if and only if no ID leads to its execution |
| `Completion.CompletesIff` | pkg/lifecycle/lifecycle.go:136-228 | in every reachable state without a panic, for every pool size and history, some continuation lets all workers of an execution leave if and only if its channel is closed or can be, and an ID leads to it or no end is missing |
| `Completion.WorkedOnCompletesIff` | pkg/cron/cron.go:111-156 | before pruning, the execution startPods works on can be completed if and only if history, pool size and the templates still needed allow it |
| `Completion.ClosesIff` | pkg/lifecycle/lifecycle.go:176-176 | in every reachable state without a panic, for every pool size and history, some continuation closes the channel if and only if it is closed, or startPods works on it and history, pool size and the templates still needed allow it |
| `Completion.UnclosableForever` | pkg/cron/cron.go:90-157 | what cannot be closed now cannot be closed in any continuation |
| `Completion.NextStep` | pkg/lifecycle/lifecycle.go:180-228 | from every completable state that is not complete there is a step that brings completion nearer and keeps it possible |
| `Completion.OrphanRun` | pkg/lifecycle/lifecycle.go:90-96 | for every pool size and every node whose template decodes, a run whose ID is issued again while its worker polls, which it then does for ever |
| `Completion.PrunedOrphanRun` | pkg/lifecycle/lifecycle.go:160-176 | whenever the report directory has more entries than are kept, a run that prunes itself, closes its channel and leaves its worker polling for ever |
| `Completion.AbandonedRun` | pkg/cron/cron.go:115-119 | a run that startPods gives up right after NewExecution |
| `Progress.CounterLaw` | pkg/lifecycle/lifecycle.go:79-100 | in every reachable state the counter is the started, terminated and finished pods of the newest execution plus the bumps of older ones since the last reset |
| `Progress.AloneSinceBegin` | pkg/lifecycle/lifecycle.go:98-101 | when all older executions are quiet right after a Begin (no queued or held job, no missing end), they stay quiet and no bump until the next Begin is theirs |
| `Progress.ProgressOfOneExecution` | pkg/lifecycle/lifecycle.go:79-85 | when only the newest execution was live after the last Begin, the counter for its N jobs is its started, terminated and finished pods, at most 3N, and 3N exactly when all N are finished |
| `Progress.HundredPercentIff` | pkg/lifecycle/lifecycle.go:79-81 | then step times counter is at most 100, and 100 exactly when every job is finished |
| `Progress.PercentIs` | pkg/lifecycle/lifecycle.go:79-98 | for N jobs and p bumps the reported percentage times 3N is 100p |
| `Progress.JobsAreNodes` | pkg/cron/cron.go:111-111 | the job count is the number of usable nodes of the newest execution |
| `Progress.PodsGaugeIsJobs` | pkg/lifecycle/lifecycle.go:98-101 | the pods gauge always shows the job count of the last NewExecution |
| `MetricIndex.PruneIsScanIffLiveAgreement` | pkg/metrics/types.go:62-68 | pruning by the index equals a scan for every ID if and only if index and live series agree |
| `MetricIndex.RecordKeepsAgreement` | pkg/metrics/types.go:70-80 | recording a value keeps the agreement |
| `MetricIndex.PruneKeepsAgreement` | pkg/metrics/types.go:62-68 | pruning keeps the agreement and equals the scan |
| `MetricIndex.EnrichedProperties` | pkg/metrics/metrics.go:206-221 | enriched labels are the configured ones followed by exactly those of node and executionID that they lack, have no new duplicates, and end in executionID exactly if the list lacked it or had node and already ended in it |
| `MetricIndex.RunsKeepAgreement` | pkg/metrics/metrics.go:89-112 | every run of reports and prunings keeps the agreement when no filed row is overwritten |
| `MetricIndex.RunsStayWellLabelled` | pkg/metrics/metrics.go:94-101 | every live row has the gauge's arity and carries its execution ID as last label |
| `MetricIndex.PruneExactIff` | pkg/metrics/metrics.go:89-112 | in every run pruning removes exactly the execution's series if and only if latestMetric is off and the labels leave executionID last |
| `MetricIndex.PruneExactWithCopyIff` | pkg/metrics/metrics.go:104-110 | with the row copied before it is filed, latestMetric no longer matters |
| `MetricIndex.RunsFileOnlyLatest` | pkg/metrics/metrics.go:104-110 | with latestMetric on every filed row ends in latest, whatever ID it is filed under |
| `MetricIndex.LatestPruneTakesTheWrongSeries` | pkg/metrics/metrics.go:104-110 | with latestMetric on, pruning an execution that just reported removes the latest series and keeps its own; no series that does not end in latest is ever pruned |
| `CollectorModel.PruneAllRemoves` | pkg/metrics/metrics.go:80-86 | pruning leaves nothing of the execution in gauges with a reliable index, takes nothing else, and keeps all agreements |
| `CollectorModel.SetPairSets` | pkg/metrics/metrics.go:115-132 | an error or duration is set on the row of node and execution, with latestMetric on also on the node's latest row, and on no other |
| `CollectorModel.SetPairKeepsAgreement` | pkg/metrics/metrics.go:115-132 | the processing and duration gauges keep the agreement with latestMetric on or off, and bring back no other ID |
| `CollectorModel.MetricsForKeeps` | pkg/lifecycle/lifecycle.go:256-260 | recording a whole report keeps all agreements and brings back no other ID |
| `CustomSeries.MetricForSets` | pkg/metrics/metrics.go:89-112 | a result for a configured gauge sets its value on the row with execution ID, node and sent values under their labels, with latestMetric on also on the row ending in latest, and changes no other series of any gauge; any other name changes nothing |
| `CustomSeries.PostedResultIsLive` | pkg/lifecycle/lifecycle.go:255-260 | in every run, right after a report for whatever node and execution the row of each of its results for a configured gauge is live |
| `CustomSeries.StaysLive` | pkg/metrics/metrics.go:80-112 | only pruning takes a series of a configured gauge away |
| `CustomSeries.LiveSeriesShowLastReport` | pkg/metrics/metrics.go:89-112 | in every run a live series of a configured gauge shows the value of the last result recorded under its row |
| `Coupling.IndexAgrees` | pkg/metrics/types.go:62-80 | in every reachable state of the system pruning any ID equals a scan, for processing, duration and every reliable custom gauge |
| `Coupling.StaysConfigured` | pkg/metrics/metrics.go:94-112 | gauges and label names stay those of the configuration in every run |
| `Coupling.PrunedStaysGone` | pkg/lifecycle/lifecycle.go:160-175 | outside DevMode, from its pruning until its ID is issued again, an execution has no series, passes the gate on no node, PodTerminated changes nothing for it, and a removed directory is not made again |
| `Coupling.DevModeBringsBack` | pkg/http/middleware.go:15-15 | in DevMode one late report always brings series and directory back |
| `PrunedGauges.PrunesCleanIff` | pkg/metrics/metrics.go:80-112 | with a worker in the pool and some node whose template decodes, over all runs of the system: pruning an execution leaves no series of it in any configured gauge if and only if latestMetric is off and every gauge ends in executionID |
| `PrunedGauges.UnreliableLeavesSeries` | pkg/metrics/metrics.go:103-110 | for every other gauge, a run that reports to it, fills the report directory, prunes the execution and leaves its series |
| `Retention.ExpiredAreOldest` | pkg/lifecycle/lifecycle.go:142-163 | all but the newest min(n, reportHistory + 1) entries expire, each once, none newer than a kept one |
| `Retention.SurvivesUnlessOutnumbered` | pkg/lifecycle/lifecycle.go:148-163 | an entry survives with at most reportHistory others as new, and expires with more than reportHistory strictly newer |
| `Retention.CanExpireIff` | pkg/lifecycle/lifecycle.go:148-163 | some order of the entries lets an entry expire if and only if there are more entries than are kept |
| `Retention.PruneNamesRemovesExactly` | pkg/lifecycle/lifecycle.go:162-174 | the loop removes exactly its names from the executions and exactly the removable directories |
| `Retention.PruneNamesRemovesSeries` | pkg/lifecycle/lifecycle.go:162-174 | the loop removes exactly the series of its names from the processing and duration gauges and leaves nothing of any name |
| `Retention.PruneNamesRemovesCustom` | pkg/lifecycle/lifecycle.go:162-174 | the loop removes exactly the series of its names from every configured gauge with a reliable index |
| `Retention.PruningRounds` | pkg/lifecycle/lifecycle.go:160-162 | whatever is interleaved, a listing is followed by at most as many pruning rounds as it has expired entries |
| `Retention.AllAddedPrunesExpired` | pkg/lifecycle/lifecycle.go:136-178 | whatever is interleaved, at the close the executions map is the old one without exactly the expired entries of the listing |
| `Retention.AllAddedErasesExpired` | pkg/lifecycle/lifecycle.go:160-176 | outside DevMode and whatever is interleaved, at the close every expired entry but the link is gone from the executions and the indexed gauges, and its directory unless removing it failed |
| `PairGauges.PairIsFold` | pkg/lifecycle/lifecycle.go:218-276 | in every run without a panic the error gauge, the duration gauge and the recorded times of end and report of a node and ID are the fold of that pair's own events |
| `PairGauges.InterleavingDoesNotMatter` | pkg/lifecycle/lifecycle.go:218-276 | runs with the same events of a pair show the same gauges for it |
| `PairGauges.LatestIsNewest` | pkg/metrics/metrics.go:115-132 | with latestMetric on, in every run without a panic: the latest rows of a node show the last error and duration recorded for it in any execution since latest was pruned |
| `PairGauges.StartedIsLastStart` | pkg/lifecycle/lifecycle.go:191-191 | in every run the start recorded for a pod is the one its worker recorded |
| `Metrics.ExecutionIDMetric.CacheLabels` | pkg/metrics/types.go:76-80 | the row itself, not a copy, is appended under its ID |
| `Metrics.ExecutionIDMetric.WithLabelValues` | pkg/metrics/types.go:70-74 | the row is filed under its last label and its series is set |
| `Metrics.ExecutionIDMetric.Overwrite` | pkg/metrics/metrics.go:105-108 | overwriting a filed row changes what the index reads under its old ID, and nothing else |
| `Metrics.ExecutionIDMetric.PruneID` | pkg/metrics/types.go:62-68 | the loop deletes exactly the series of the rows filed under the ID |
| `Metrics.EnrichLabels` | pkg/metrics/metrics.go:206-221 | the loop computes the enriched labels |
| `Metrics.Collector.ReportRow` | pkg/metrics/metrics.go:103-110 | with shared rows, the two calls leave the index that the model of the code as written describes |
| `Metrics.Collector.MetricFor` | pkg/metrics/metrics.go:89-112 | an unknown name changes nothing, a known one only its own gauge |
| `Metrics.Collector.RowFor` | pkg/metrics/metrics.go:94-101 | the row in the gauge's label order, node and executionID overwritten, missing labels empty |
| `Metrics.Collector.ProcessingFinished` | pkg/metrics/metrics.go:115-124 | sets the error of the pair, and of latest if enabled |
| `Metrics.Collector.Duration` | pkg/metrics/metrics.go:127-132 | sets the duration of the pair, and of latest if enabled |
| `Metrics.Collector.PruneAll` | pkg/metrics/metrics.go:80-86 | prunes every gauge, in whatever order the map is visited |
| `Metrics.Collector.Report` | pkg/lifecycle/lifecycle.go:256-261 | records all results and then the error flag |
| `MetricNames.NewPromCollector` | pkg/metrics/metrics.go:143-189 | fails exactly for a reserved name, and otherwise starts from empty gauges with enriched labels |
| `MetricNames.SpellsVersionIff` | pkg/metrics/metrics.go:170-184 | a prefix and a name give the version gauge's name exactly if they are its parts before and after one of its five underscores |
| `MetricNames.AcceptedNameClashes` | pkg/metrics/metrics.go:149-174 | a configuration that is accepted although its gauge is named like the one of the current execution |
| `MetricNames.AcceptedNamesAreFreeIff` | pkg/metrics/metrics.go:149-189 | accepted gauges have names of their own if and only if none is the current-execution gauge and none spells the version gauge with the prefix |
| `Lifecycle.Controller.NewExecution` | pkg/lifecycle/lifecycle.go:88-133 | a new execution with its own channel and idle workers, registered under the stamp, with counter, job count, gauge and directory set anew; a channel that cannot be made panics before anything changes |
| `Lifecycle.Controller.StorePod` | pkg/lifecycle/lifecycle.go:209-212 | node and pod are registered before the send |
| `Lifecycle.Controller.AddPod` | pkg/lifecycle/lifecycle.go:204-215 | an unknown ID is an error that changes nothing; else the pod is stored, and the job sent, or the send waits for room, or panics on a closed channel |
| `Lifecycle.Controller.ReceiveJob` | pkg/lifecycle/lifecycle.go:183-183 | a waiting worker takes the head of the channel of its own execution |
| `Lifecycle.Controller.MarkStarted` | pkg/lifecycle/lifecycle.go:187-193 | the pod is marked started and counted, or the worker returns when it is missing |
| `Lifecycle.Controller.Poll` | pkg/lifecycle/lifecycle.go:195-198 | one look at the polled pod: the job is counted and the worker waits again exactly if the end is recorded, else nothing changes |
| `Lifecycle.Controller.LeaveLoop` | pkg/lifecycle/lifecycle.go:183-183 | a waiting worker leaves on a closed, empty channel |
| `Lifecycle.Controller.PodTerminated` | pkg/lifecycle/lifecycle.go:218-253 | not found exactly without execution or pod; the first end is recorded, counted and measured, with an error unless succeeded and reported; a repeat changes nothing |
| `Lifecycle.Controller.ReportReceived` | pkg/lifecycle/lifecycle.go:255-276 | metrics and error flag are recorded even for unknown pairs, the pod only where it is registered |
| `Lifecycle.Controller.Has` | pkg/lifecycle/lifecycle.go:278-284 | the gate asks for a known node and a known ID, not for their combination |
| `Lifecycle.Controller.PruneOne` | pkg/lifecycle/lifecycle.go:163-173 | one round removes a name from executions, metrics and directories at once |
| `Lifecycle.Controller.AllAdded` | pkg/lifecycle/lifecycle.go:136-178 | error without effect for an unknown ID or an unreadable directory; else all expired names pruned and the channel closed, even when the execution itself expired; panics on a vanished entry, past the listing and on a closed channel |
| `ControllerRuns.AllAddedCloses` | pkg/lifecycle/lifecycle.go:136-178 | for a known execution with an open channel and a history not below -1: its channel is closed, the expired names leave executions, indexed gauges and, where possible, the directory, and nothing else changes |
| `ControllerRuns.AllAddedFailsIff` | pkg/lifecycle/lifecycle.go:136-176 | error without effect exactly for an unknown ID or an unreadable directory; panic exactly for a vanished entry, a history below -1 or a closed channel |
| `ControllerRuns.AllAddedIsRun` | pkg/lifecycle/lifecycle.go:136-178 | from every reachable state before it, one AllAdded equals the run of the listing, one pruning round for each expired name, and the close |
| `ControllerRuns.AddedToIff` | pkg/lifecycle/lifecycle.go:204-215 | AddPod fails exactly for an unknown ID, panics exactly on a closed channel, and sends exactly with room |
| `ControllerRuns.AddPodStores` | pkg/lifecycle/lifecycle.go:209-212 | from every reachable state before it, AddPod begins with the Store step and never panics |
| `ControllerRuns.AddPodSends` | pkg/lifecycle/lifecycle.go:213-213 | and with room it is the Store step followed by the Send step |
| `Machine.System.Took` | pkg/lifecycle/lifecycle.go:51-62 | a step of the objects that equals a step of the state machine keeps the controller equal to the run of the noted events |
| `Machine.System.Store` | pkg/lifecycle/lifecycle.go:204-212 | in every run the execution of the node to be added is found, and the objects take the Store step |
| `Machine.System.Send` | pkg/lifecycle/lifecycle.go:213-213 | in every run the channel is open, and the objects take the Send step once there is room |
| `Machine.System.Close` | pkg/lifecycle/lifecycle.go:176-176 | in every run the channel to be closed is open, and the objects take the Close step |
| `Machine.System.Poll` | pkg/lifecycle/lifecycle.go:195-198 | in every run the polled pod is registered; the look is the Finish step exactly if its end is recorded |
| `Machine.System.Terminate` | pkg/lifecycle/lifecycle.go:218-253 | the objects take the Terminate step |
| `Machine.System.PostResult` | pkg/lifecycle/lifecycle.go:255-276 | behind the gate, the objects take the PostResult step |
| `Machine.System.LookupsSucceed` | pkg/lifecycle/lifecycle.go:303-313 | after every sequence of steps on the objects, no worker has failed its lookup and every job held has its pod |
| `Cron.IsUsable` | pkg/cron/cron.go:159-169 | usable exactly if scheduling allows it and some condition is Ready with status True with no Ready one before it |
| `Cron.UsableNodes` | pkg/cron/cron.go:104-109 | the loop selects a name if and only if it is that of a listed node that scheduling allows and whose first Ready condition is True |
| `Cron.SelectionIs` | pkg/cron/cron.go:104-109 | every such node is selected once, in the order of the list |
| `Cron.OthersKeepProducer` | pkg/cron/cron.go:90-98 | no step of others moves a running producer, adds an execution, changes its nodes or panics |
| `Cron.CronJob.AddAll` | pkg/cron/cron.go:139-154 | every job sent and every template decoded; or the first template that does not decode fails, or panics on null labels; or a send waits for room |
| `Cron.CronJob.PruneLoop` | pkg/lifecycle/lifecycle.go:160-175 | under any interleaving the loop prunes the expired entries in order, removing exactly the directories that can be removed, and panics exactly for a reportHistory below -1 |
| `Cron.CronJob.StartPods` | pkg/cron/cron.go:90-157 | on every path, under any interleaving, a run of the state machine; skipped exactly while running; success only if nothing fails, with the usable nodes sent in order, their number as job count and gauge, and the channel closed; giving up only if something fails, and after every node was sent if that is only the listing; waiting only without room; a panic only for one of its causes; the executions it starts and the names it prunes are those of its input |
| `Callbacks.PostServer.Middleware` | pkg/http/middleware.go:13-22 | goes on exactly without a controller, in DevMode or for a known node and ID |
| `Callbacks.PostServer.PostResult` | pkg/http/postserver-results.go:19-78 | rejected, malformed and unsaved reports leave the metrics alone; an accepted one is saved and then recorded |
| `Callbacks.PostServer.PostFile` | pkg/http/postserver-file.go:69-116 | rejected by the gate, bad for an unreadable body, accepted exactly if every file is saved; without a controller every request passes |
| `Callbacks.PodReconciler.Reconcile` | pkg/controller/controller.go:55-87 | fails exactly when the fetch fails otherwise than by not found; a finished pod is delivered once per call, an unknown execution is tolerated |
| `Callbacks.PodReconciler.SavePodLogs` | pkg/controller/controller.go:89-102 | a log that cannot be read or saved does not stop the others |
| `Callbacks.PostedIsAStep` | pkg/http/postserver-results.go:19-38 | an accepted report is one PostResult step, one whose file could not be written an upload, and every other no step |
| `Callbacks.ReconciledIsSteps` | pkg/controller/controller.go:74-84 | Reconcile delivers the end of a pod once, exactly in the phases Succeeded and Failed, after an upload exactly if it keeps a log of a known pod; in every other case it takes no step |
| `Callbacks.EndIsDelivered` | pkg/controller/controller.go:74-84 | for a registered pod without an end: in these phases end, counter and duration are recorded, and an error unless it succeeded and reported; in any other phase nothing changes |
| `Callbacks.RepliesIff` | pkg/http/postserver-results.go:19-86 | which reply is given when: rejected by the gate, bad body, not saved, accepted |
| `Callbacks.LateDeliveriesChangeNothing` | pkg/controller/controller.go:74-84 | outside DevMode, after pruning and until the ID is issued again, reports are rejected and Reconcile changes nothing |
| `Job.MergeEnv` | pkg/job/job.go:135-194 | template variables without reserved names, then the extenders' output in order, then the controller's eight |
| `Job.ControllerWins` | pkg/job/job.go:135-194 | for every template and extender, with the last definition winning: the eight variables are the controller's, others the last extender's or else the template's |
| `Job.DefinitionsInMerged` | pkg/job/job.go:39-45 | how often each name is defined: only five of the eight names are taken out of the template |
| `Job.LastExtenderDecides` | pkg/job/job.go:151-153 | a variable has the value of the last extender that emits it, and the extenders define it exactly if one emits it |
| `Job.UnreservedJoins` | pkg/job/job.go:143-149 | the template's variables that stay keep their order and number |
| `Job.PodReads` | pkg/job/job.go:155-160 | whatever template and extenders say, node, execution, namespace, address and port are the target's |
| `Job.UrlsLeadBack` | pkg/job/job.go:161-190 | each URL variable leads to the callback's address and port and is routed to its own endpoint with the pod's node and execution |
| `Job.MergeAll` | pkg/job/job.go:122-129 | every container's environment is merged in place, from its own template |
| `Job.Complete` | pkg/job/job.go:97-129 | panics before it touches a container exactly for null labels; else, whatever the template said, name, namespace, node, account, pull secrets, restart policy, both labels and the effective environment of all containers are the controller's |
| `Job.PathParsesBack` | pkg/http/postserver.go:22-28 | a printed path is accepted by its own endpoint only, and reads back node and ID, exactly if neither contains a slash |
| `Job.UrlHasPath` | pkg/job/job.go:161-190 | the printed URL has the printed path, for every address without a slash |
| `Job.HostPortReadsBackIff` | pkg/job/job.go:165-165 | host and port in the URL read back as the callback address and the configured port, exactly unless an address without colons has brackets of its own |
| `Job.EventFindsItsPod` | pkg/http/postserver-event.go:75-81 | the event callback computes the name the calling pod was created with |
| `Job.PodNamesEqualIff` | pkg/config/types.go:55-59 | for IDs without a dash, names are equal exactly if the first dot-parts and the IDs are |
| `Job.PodNameFrame` | pkg/config/types.go:55-59 | a pod name begins with the configured name and -job-, ends with a dash and the execution ID, and has the node's first part between them |
| `Job.BeforeIs` | pkg/config/types.go:56-57 | the first part of a node name is everything before its first dot |
| `Job.PodsOfOneRunDistinctIff` | pkg/config/types.go:55-59 | the pods of one run have different names exactly if the nodes differ before their first dot |
| `Job.PodNamesCollide` | pkg/config/types.go:55-59 | nodes that share a name, and executions that do when an ID has a dash |
| `Strings.SplitJoined` | pkg/config/types.go:56-56 | splitting takes strings joined by a separator apart at that separator |
| `Strings.DecimalParsesBack` | pkg/job/job.go:160-160 | a printed natural number reads back as the same number |
| `Strings.ItoaParsesBack` | pkg/job/job.go:160-160 | a printed number of either sign reads back as the same number |

## Left out

- HTTP serving, gin, multipart and body parsing, the naming of uploaded files, health checks, profiling: a callback
  carries the decoded report, or that it could not be decoded or validated, and how far saving its file came.
- postEvent behind its gate: it changes nothing of the controller; only the pod name it looks up is modelled.
- The Kubernetes client, owner references, log streaming, the decoding of templates and YAML: node lists and fetched pods
  are inputs, and what the template decodes to is part of the configuration. CreatePod is a step whose failure has no effect, as in the source. Deleting the old
  pods of previous runs is not modelled.
- findOwner: its termination rests on the API's ownership chain.
- Wall-clock time: stamps and durations are part of the events; nothing is claimed about what a duration measures, as
  the end of a pod may be recorded before its start.
- The loop of a worker as one method, as it need not end: its steps are methods of Lifecycle.Controller and
  Machine.System, and their order is the one of the worker states in Protocol.
- status strings, log text, and the Windows and symlink branches beyond the entry named latest.
- The times of directory entries: a listing has them in ascending order, and nothing ties them to the steps that create
  or fill a directory.
- Panics of custom extenders and libraries, and the runtime's fatal errors on data races or without memory.
- Data races on plain fields in the sense of the Go memory model: every shared access is an atomic step.
- Prometheus internals: a gauge vector is a map from label values to numbers; label and metric name validation,
  registration, and the version and current-execution gauges are not part of this model beyond their names.
- Number formats: the counter is unbounded and percentages are real, without uint64 and float64; the text of the
  progress is not modelled. An execution of no nodes has no percentage.
- The order in which a report's map of results is visited: a report is some sequence of results.
- Percent-decoding and URL parsing beyond the split at slashes; node names and IDs are taken as they appear in the path.
- CronJob.StartPods: returns Blocked where the source would wait for room in the channel; going on from there is the
  Send step of Protocol. Its directory listing is one of the sorted listings the directory admits. It drives the state
  of Protocol; the same steps on the objects are those of Machine.System.
- Callbacks.PostServer.PostFile: the directory that it fills without a controller is not modelled, only its reply.
- Callbacks.PostServer.PostResult: for an injected controller; without one the source panics after the gate and the
  recovery of the HTTP framework answers.
- Liveness.BoundedWork: rounds of the pruning loop are not counted, as their number depends on the directory and not on
  the nodes of the run; Retention.PruningRounds bounds them by the listing.
- PairGauges.PairIsFold: for runs that did not end in a panic, after which the process is gone.
