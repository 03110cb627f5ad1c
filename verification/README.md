# A verified model of the JIRIAF virtual kubelet's provider and node start-up

The program is a Kubernetes virtual kubelet whose containers are Linux process groups. This
project models the parts of it that are state machines or small concurrent protocols, and proves
what holds in every run of them: starting a pod's containers in parallel, the status loop that
rewrites pod statuses, the concurrent teardown of a pod, the start and stop protocol of the node,
the index of pods to tell about changed resources, the collection of metrics, the writing of
volumes, and the wall-time countdown.

Check it with `dafny verify dfyconfig.toml`. Automatic induction is off on every lemma: each proof by
induction is written out.

## Layout

| module | models |
|---|---|
| `Collections`, `PodTypes` | sums and bags over sequences; pod and container statuses |
| `Teardown`, `TeardownSafety`, `TeardownSignals`, `TeardownKills`, `TeardownEffects` | `deletePod`: `Teardown.Step` is `internal/provider/mock/mock.go:352-520`, one case per action of a goroutine or of the collector |
| `FanIn`, `Scripts`, `Startup` | `runScriptParallel` and the receiving loop of `CreatePod`: `FanIn.Step` is `internal/provider/mock/command.go:71-173` with `internal/provider/mock/mock.go:217-220`; the body of one goroutine is `Scripts.StartContainer` |
| `Lifecycle`, `LifecycleRuns`, `Provider` | `CreatePod`'s decision, the tick, runs of ticks, the store of pods |
| `NodeProtocol`, `NodeGuarantees`, `NodeResults` | `Node.Run`, `WaitReady` and `Err`: `NodeProtocol.Step` is `internal/node/nodeutil/controller.go:98-172` |
| `WatchIndex`, `WatchHistory` | the `watcher` and its histories |
| `Metrics`, `MetricsProperties`, `MetricsSamples` | `GetMetricsResource` and its helpers over a shared, mutable map |
| `Volumes`, `VolumeProperties`, `VolumeDirectories` | `volumes`, `setupPaths` and `writeFile` over a map of files |
| `Countdown` | `aliveTimeLoop` with `setNodeReady` |

## How the world is represented

- The operating system, the file system, the API server and the clock are arguments: a plan, a
  configuration, an environment, a view. A theorem about every such value is a theorem about
  every answer they can give. In the teardown, the answers a goroutine will get are fixed in its
  plan before the run and the interleaving is free; since every plan is covered, so is every
  order in which answers can come.
- A protocol is a state with an `Enabled` guard and a `Step` per action. A blocking send, receive
  or wait is an action that is not enabled until it can proceed. A run is any sequence of enabled
  actions; `Stuck` means that nothing at all can move.
- The loop that starts the goroutines of one wave, and the loop that starts one goroutine per
  container, are part of the step in which they finish or of the initial state: they never block.
- A loop over a Go map takes its keys in any order: the code picks an arbitrary remaining key.
- The code that works on objects in place is modelled by classes and methods (`Lifecycle.Pod`,
  `Provider.MockProvider`, `WatchIndex.Watcher`, `Metrics.MetricsMap`, `Volumes.Disk`,
  `Countdown.Node`). Each method is proved equal to a function, and the theorems are about it.
- A pod arrives pending and without container statuses, and its containers have distinct,
  non-empty names, as the API server sees to. `Run` is called once. Controllers stop only after
  they were started, and either may stop at any time with any error. API objects have keys that
  are plain file names.

## What the code does that one might not expect

Where the code and its documentation or its apparent intention differ, the model follows the
code. The members named beside each point state it, with the exact condition where the point is
about some inputs only.

- The inner loops of `Unwatch` declare a variable named like the argument and compare it with
  itself. The interface comment (`internal/provider/kubernetes/watch.go:28`) promises that the
  resources of the passed pod are no longer tracked; the code also drops every other pod that
  shares one of them (`WrittenIsIntendedIffUnshared`, `NextUnwatchIsIntendedIff`,
  `SharedResourceIsForgotten`). Members about the comparison as intended carry `Intended` in their name or take `WithArgument`.
- A teardown that returns early on an error can leave goroutines blocked on the channel for ever:
  they all finish, in every schedule, exactly when at most n + 1 messages are due for n containers
  (`FinishesIffFewMessages`). It can also leave a container stopped but never killed: every SIGKILL
  of a container is attempted, in every schedule, exactly when none of its SIGSTOP goroutines fails
  or at most n + 1 messages are due that do not come from its SIGKILL wave and its report
  (`KillWaveCompletesIff`), and one can be attempted at all exactly when at most n + 1 of its
  SIGSTOP goroutines fail (`KillCanStartIff`). `DeletePod` ignores the result either way.
- A container with no command sends no status, and one such container among others that started
  keeps its pod running for ever (`SettlesIffNoneSilent`).
- A pod's phase is worked out from the statuses of the tick before, so the phase and the statuses
  published together need not agree; `PhaseAgreesIff` says exactly when they do. A pod can be
  published as Succeeded beside a container that exited with code 3
  (`LateErrorOutputIsPublishedAsSuccess`).
- Exit code 1 is the only code a tick keeps; a container recorded as terminated with 0, 2, 3 or 10
  can be seen running again (`OnlyExitCodeOneIsKept`).
- A node whose context is cancelled before the pod controller is ready exits without an error, and
  one stage later with the context's error (`CancelledResult`). `WaitReady` may report that a node
  exited before it was ready although it was ready (`ReadyNodeMayBeReportedNeverReady`).
- Two pods in different namespaces can share a key in the store (`KeysCollide`).
- A volume whose object is missing fails exactly if it says explicitly that it is not optional
  (`MissingObjects`). Otherwise it is passed over without a directory, and a container that mounts
  it reads from the empty path and fails to start (`PassedOverVolumeFailsItsContainer`).
- The status table in the repository's README gives reason `completed` and message
  `Remaining processes are zombies`; the code writes `Completed` and `All processes are zombies`
  (`DetermineContainerStatus`).

## Model

| member | source | states |
|---|---|---|
| TeardownSafety.NilMeansNoError | internal/provider/mock/mock.go:357-519 | in every interleaving a nil result means that no goroutine of any container ever sent an error, that all have returned and that nothing is left to move |
| TeardownSafety.NeverSendsOnClosed | internal/provider/mock/mock.go:506-517 | the channel is closed, or can be closed, only when every goroutine is past its last send |
| TeardownSafety.CollectorNeverDeadlocks | internal/provider/mock/mock.go:507-514 | while the collector is collecting, something can move |
| TeardownSafety.RunsAreFinite | internal/provider/mock/mock.go:352-520 | no run is longer than a bound fixed by the plans |
| TeardownSafety.Continue | internal/provider/mock/mock.go:352-520 | any run can be continued until nothing can move |
| TeardownSafety.ResultIsDecidedByPlans | internal/provider/mock/mock.go:360-519 | when nothing can move the collector has returned, with nil exactly when no goroutine meets an error, whatever the interleaving |
| TeardownSafety.FewMessagesStrandNobody | internal/provider/mock/mock.go:357-516 | with at most n + 1 messages due, every goroutine finishes in every schedule, early return or not |
| TeardownSafety.ManyMessagesStrandSomeone | internal/provider/mock/mock.go:357-516 | with n + 2 or more messages due, a schedule is constructed that leaves a goroutine blocked for good |
| TeardownSafety.FinishesIffFewMessages | internal/provider/mock/mock.go:357-516 | goroutines finish in every schedule if and only if at most n + 1 messages are due |
| TeardownSignals.KillAfterEveryStop | internal/provider/mock/mock.go:382-484 | before a container's first SIGKILL, every matching process has been sent its SIGSTOP and the call has returned |
| TeardownSignals.OnlyMatchedProcessesAreSignalled | internal/provider/mock/mock.go:387-422 | a signalled process was found with all its lookups, and its own group or its parent's is the container's, first as text and then, the decimal form being injective, as a number |
| TeardownKills.KillWaveCompletes | internal/provider/mock/mock.go:436-484 | if none of its SIGSTOP goroutines fails or at most n + 1 messages are due besides its SIGKILL wave and report, every SIGKILL of the container is attempted, in every schedule, early return or not |
| TeardownKills.KillWaveMayNeverStart | internal/provider/mock/mock.go:382-430 | otherwise a schedule is constructed in which the container is never sent a SIGKILL |
| TeardownKills.KillWaveCompletesIff | internal/provider/mock/mock.go:357-516 | every SIGKILL of a container that has any to attempt is attempted in every schedule if and only if that condition holds |
| TeardownKills.KillNeverStarts | internal/provider/mock/mock.go:357-430 | a container more than n + 1 of whose SIGSTOP goroutines fail is never sent a SIGKILL, in any run |
| TeardownKills.KillCanStartIff | internal/provider/mock/mock.go:357-484 | a given SIGKILL is attempted in some run if and only if at most n + 1 of the container's SIGSTOP goroutines fail |
| TeardownKills.ThreeVanishingProcessesLeaveTheContainerAlive | internal/provider/mock/mock.go:393-412 | an instance: one container and three processes that vanish during lookup give an error, a stranded goroutine and no SIGKILL, in every run |
| Teardown.FaresAs | internal/provider/mock/mock.go:388-426 | a signal is attempted exactly for a process that is found, has all its lookups and has its own or its parent's group equal to the container's; an error is sent exactly for one that is found and fails a lookup, or matches and refuses |
| TeardownEffects.EveryMatchIsStopped | internal/provider/mock/mock.go:382-430 | when nothing can move, every matching process of every list obtained has been sent its SIGSTOP, in every schedule |
| TeardownEffects.EveryMatchIsKilled | internal/provider/mock/mock.go:436-484 | where the kill is certain, every matching process has been sent its SIGKILL too |
| TeardownEffects.NilMeansEveryMatchIsKilled | internal/provider/mock/mock.go:360-519 | a nil result means that every list was obtained and every matching process of it was sent both signals |
| TeardownEffects.WaveErrorsAre | internal/provider/mock/mock.go:382-482 | the errors due from a wave are as many as its processes that fail a lookup or refuse |
| TeardownEffects.ResultIsDecidedByProcesses | internal/provider/mock/mock.go:360-519 | at rest the result is nil exactly when every list was obtained, no process troubled in either wave and every directory was removed |
| TeardownEffects.ErrorIsSentIff | internal/provider/mock/mock.go:384-427 | a per-process goroutine that has finished sent an error in the run exactly when its process was found and a lookup failed or it matched and refused |
| FanIn.SendsNeverBlock | internal/provider/mock/command.go:73-151 | no send of a worker waits or meets a closed channel, though nobody reads the error channel |
| FanIn.ClosedOnceAndLate | internal/provider/mock/command.go:153-170 | each channel is closed at most once, the errors first, after every worker is done; no worker can act afterwards |
| FanIn.RunsAreFinite | internal/provider/mock/command.go:71-173 | no run is longer than a bound fixed by the outcomes |
| FanIn.ConsumerGetsEveryStatus | internal/provider/mock/mock.go:217-220 | when nothing can move the range loop has ended, and received exactly the statuses the workers had to send, as a bag |
| FanIn.EveryErrorIsQueued | internal/provider/mock/command.go:85-135 | when nothing can move, every error is on the channel that nobody reads |
| FanIn.PhaseIgnoresArrivalOrder | internal/provider/mock/mock.go:222-229 | whether start-up counts as failed is decided by the outcomes, in every order of arrival |
| FanIn.OneStatusPerName | internal/provider/mock/command.go:77-150 | with distinct names, a container's status is received once if it sends one and never otherwise |
| Scripts.LastEligibleIsLast | internal/provider/mock/command.go:44-65 | the script of a directory is its last file whose name contains none of crt, key, pem; there is none only if no file is eligible |
| Scripts.EligibleIff | internal/provider/mock/command.go:49 | a file is eligible exactly when none of crt, key and pem occurs at any position of its name |
| Scripts.ScriptOfIs | internal/provider/mock/command.go:29-64 | a mount's script lies in the mount's directory under the name of the last eligible file of its volume's directory |
| Scripts.CopyFiles | internal/provider/mock/command.go:44-65 | succeeds exactly when every eligible file can be copied, and maps the volume to the last of them |
| Scripts.LastScriptIsLast | internal/provider/mock/command.go:27-66 | the script of a volume name is that of the last mount of the name that has one |
| Scripts.NewCollectScripts | internal/provider/mock/command.go:20-69 | on success the map holds exactly each name's last script and there is no state; it fails exactly when a mount cannot be collected, with a terminated state of exit code 1 whose reason is that of the first such mount |
| Scripts.RunScript | internal/provider/mock/command.go:194-290 | an error comes with a terminated state of exit code 1 from the start to now, with the reason of the first step that failed, and no error comes without; the group is returned once it is known and 0 before |
| Scripts.StartContainer | internal/provider/mock/command.go:79-150 | an error is sent exactly if a mount cannot be collected, there is no command, the run fails or the group file cannot be written; a status is sent except for an empty command, with the path of the last script of the image's volume, the process group once it is known, and either running since the start or the exact failure |
| Startup.StartUpDelivers | internal/provider/mock/mock.go:216-220 | one status per container that sends one, under distinct declared names, and none for the others |
| Startup.DeliveredAsSent | internal/provider/mock/mock.go:218-220 | under each container's name is found exactly the status its goroutine sent, if any |
| Startup.StartedContainerKeepsItsGroup | internal/provider/mock/command.go:145-149 | a container that started is published, in every run of ticks, with its image, the path of its script, the process group of its command and its start |
| Startup.CreatedPhase | internal/provider/mock/mock.go:216-284 | a new pod is running exactly when some container started without an error, in whatever order statuses came |
| Startup.SettlesIffNoneSilent | internal/provider/mock/mock.go:217-264 | a pod that starts running can ever settle exactly when none of its containers was collected with an empty command |
| Lifecycle.Pod.Launch | internal/provider/mock/mock.go:217-284 | the receiving and counting loops write the status that `Created` gives |
| Lifecycle.DetermineContainerStatus | internal/provider/mock/monitor.go:576-630 | terminated exactly when every process is a zombie or there is none, with code 3 or 0 by the stderr file |
| Lifecycle.CreateContainerStatusFromProcessStatus | internal/provider/mock/monitor.go:443-508 | from maps that describe a status, the next status: code 1 is kept, everything else is worked out anew |
| Lifecycle.CheckTerminatedContainer | internal/provider/mock/monitor.go:510-524 | the counting loop decides whether all are terminated and whether none of the terminated failed |
| Lifecycle.RecordAndAdvance | internal/provider/mock/monitor.go:360-388 | the first status of the name fills the maps and is advanced; no other name's start time changes |
| Lifecycle.Pod.CreatePodStatusFromContainerStatus | internal/provider/mock/monitor.go:346-440 | one tick in place equals `Tick`: new statuses, and a phase judged on the old ones |
| LifecycleRuns.TickIsFixpoint | internal/provider/mock/monitor.go:359-437 | once a tick has left every container terminated and nothing has changed, the next changes no status and writes Succeeded exactly when every stored code is 0, else Failed |
| LifecycleRuns.SettledStays | internal/provider/mock/mock.go:617-623 | a settled pod is left as it is by every later run |
| LifecycleRuns.SettlesWithinTwoTicks | internal/provider/mock/monitor.go:391-413 | a running pod with a status per container settles two ticks after nothing of it is alive and stays so through any run; its phase is what the first tick's statuses call for, or those before it if they were all terminated already |
| LifecycleRuns.FailedStartIsKept | internal/provider/mock/monitor.go:445-456 | exit code 1, its reason, message and times survive every run unchanged, and the pod never becomes Succeeded |
| LifecycleRuns.OnlyExitCodeOneIsKept | internal/provider/mock/monitor.go:445-507 | a terminated state survives every tick if and only if its code is 1 |
| LifecycleRuns.PublishedPod | internal/provider/mock/mock.go:229-285 | from start-up on, in every run, whatever was delivered: Ready exactly while running, Scheduled and Initialized always, the start time kept |
| LifecycleRuns.PublishedStatus | internal/provider/mock/monitor.go:357-438 | the same, and every container that was delivered keeps its start, image, group and script and finishes no earlier than it started |
| LifecycleRuns.FinishTimeIsFrozen | internal/provider/mock/monitor.go:372-378 | through any run in which a container stays terminated its finishing time does not change |
| LifecycleRuns.FinishIsTheTickItEnded | internal/provider/mock/monitor.go:368-371 | a container that was running before a tick and is terminated after it finished at that tick's clock |
| LifecycleRuns.FinishIsWhenTheStretchBegan | internal/provider/mock/monitor.go:368-378 | through any run, its finishing time is the clock of the tick that began the unbroken terminated stretch |
| LifecycleRuns.UnreadableIsNotFinal | internal/provider/mock/monitor.go:458-491 | an unreadable process list or stderr file ends a container with code 2 and its reason, unless it had code 1, and it can be seen running later |
| LifecycleRuns.ReadableIsJudged | internal/provider/mock/monitor.go:493-507 | otherwise it runs exactly while some process is not a zombie, and ends with 3 or 0 by the error output |
| LifecycleRuns.TransitionTimes | internal/provider/mock/monitor.go:420-436 | the conditions of a ticked pod changed when the pod started, readiness when its first container did |
| LifecycleRuns.CanSettleIffEveryStatusDelivered | internal/provider/mock/monitor.go:359-413 | a running pod can ever settle if and only if start-up delivered a status for every container |
| LifecycleRuns.PhaseAgreesIff | internal/provider/mock/monitor.go:359-437 | the phase a tick publishes is the one its own statuses call for if and only if it finds, of the same pod, what the tick before found: all ended well, all ended with a fault, or some still going |
| LifecycleRuns.SucceededAgreesIff | internal/provider/mock/monitor.go:392-437 | a pod becomes Succeeded exactly when its statuses before were all terminated with code 0, and its new statuses say so too exactly when every container is still readable, silent and ended |
| LifecycleRuns.LateErrorOutputIsPublishedAsSuccess | internal/provider/mock/monitor.go:392-437 | an instance: error output between two ticks gives phase Succeeded beside exit code 3 |
| Provider.KeysCollide | internal/provider/mock/mock.go:1026-1041 | two pods share a key if and only if they are the same or one namespace extends the other by a dash and a prefix of a name |
| Provider.DashlessNamespacesKeepKeysApart | internal/provider/mock/mock.go:1026-1041 | namespaces without a dash make the key injective |
| Provider.MockProvider.CreatePod | internal/provider/mock/mock.go:177-288 | a pod without namespace or name is refused; otherwise it is stored, then its volumes are written, and it stays pending if some volume fails; from the arrivals of any finished run of the goroutines the status is the created one, running exactly if some container started without an error; the store stays well formed |
| Provider.MockProvider.DeletePod | internal/provider/mock/mock.go:313-349 | removes exactly the pod's key and marks the pod; an unknown pod changes nothing |
| Provider.MockProvider.GetPods | internal/provider/mock/mock.go:607-626 | ticks exactly the pods that have not settled, each once, in place, and returns exactly those |
| Provider.SettledPodsAreNeverSelected | internal/provider/mock/mock.go:617-623 | through any number of rounds a settled pod is in no round's list and keeps its status |
| NodeGuarantees.ReadyComesLast | internal/node/nodeutil/controller.go:129-162 | ready is closed at most once, after the pod controller, then the node controller were seen ready, then the callback succeeded |
| NodeGuarantees.DoneComesLast | internal/node/nodeutil/controller.go:99-144 | done is closed at most once and last; the events are a start-up prefix followed by the shutdown of exactly what was started, node controller before pod controller |
| NodeGuarantees.ErrIsFinal | internal/node/nodeutil/controller.go:204-214 | once done is closed, the reported error never changes |
| NodeGuarantees.MidRunWriteIsHidden | internal/node/nodeutil/controller.go:146-149 | the write in mid-run is not reported before done is closed, and is the value reported then |
| NodeGuarantees.CancelledResult | internal/node/nodeutil/controller.go:129-149 | cancellation gives a nil error exactly when it is noticed before the pod controller was seen ready, and the context's error otherwise |
| NodeGuarantees.WaitReadyIsSound | internal/node/nodeutil/controller.go:177-192 | nil is returned only after the whole start-up; the exit branch reads only the final error |
| NodeGuarantees.WaitReadyReturnsIff | internal/node/nodeutil/controller.go:184-191 | the exit branch is open exactly when done was closed, the other exactly when ready was, and none exactly before either and the deadline |
| NodeGuarantees.ReadyNodeMayBeReportedNeverReady | internal/node/nodeutil/controller.go:184-191 | both results are possible for one state if and only if the node became ready and is done |
| NodeGuarantees.ReadyThenDoneIsReachable | internal/node/nodeutil/controller.go:98-172 | such a state is reached whenever listening and the callback can succeed |
| NodeGuarantees.RunsAreFinite | internal/node/nodeutil/controller.go:98-172 | no run is longer than a fixed bound |
| NodeGuarantees.NothingHoldsRunBack | internal/node/nodeutil/controller.go:99-171 | once the context is cancelled or `Run` is leaving, and started controllers have stopped, `Run` can always move on; it cancels before it waits |
| NodeGuarantees.StuckMeansDone | internal/node/nodeutil/controller.go:98-172 | if nothing can move, done is closed |
| NodeResults.NothingStartsEarly | internal/node/nodeutil/controller.go:114-162 | the node controller is started only once the pod controller was ready, and ready is closed only once both were and the callback had not failed |
| NodeResults.ShutInOrder | internal/node/nodeutil/controller.go:118-144 | a controller that was awaited has stopped and was awaited under a cancelled context, the pod controller only after the node controller; what was shut is off |
| NodeResults.ResultComesFrom | internal/node/nodeutil/controller.go:103-171 | the final error is that of the step by which `Run` left: the listener's, none or the context's for a cancellation, that of the controller seen stopped, or the callback's |
| WatchIndex.Watcher.constructor | internal/provider/kubernetes/watch.go:62-71 | both indexes begin empty |
| WatchIndex.Watcher.Watch | internal/provider/kubernetes/watch.go:130-152 | the volume loop adds exactly the pod's keys, in order and with repetitions, to both indexes |
| WatchIndex.Watcher.RemovePod | internal/provider/kubernetes/watch.go:167-181 | the loops drop the compared pods from the listed keys and delete a list left empty |
| WatchIndex.Watcher.Unwatch | internal/provider/kubernetes/watch.go:155-205 | both indexes become `Unwatched`, for the comparison as written and as intended |
| WatchIndex.Watcher.HandleEvent | internal/provider/kubernetes/watch.go:95-127 | exactly the pods listed for the changed resource are told, in order, and warned of where the update is refused, which stops nothing; other resources are ignored |
| WatchHistory.AddedLists | internal/provider/kubernetes/watch.go:139-151 | each list grows by the pod once per mention, and the pod's reverse list by its keys |
| WatchIndex.KeysAreMentions | internal/provider/kubernetes/watch.go:139-151 | a pod's keys of a kind are its volumes of that kind, in its own namespace, each as often as it is referred to |
| WatchHistory.WatchAddsMentions | internal/provider/kubernetes/watch.go:139-151 | watching adds to each resource's list one copy of the pod per volume that refers to it |
| WatchHistory.WatchAgrees | internal/provider/kubernetes/watch.go:130-152 | watching keeps forward and reverse lists in agreement, occurrence for occurrence |
| WatchHistory.DroppedIntended | internal/provider/kubernetes/watch.go:167-181 | as intended, lists of the pod's keys lose that pod and nothing else |
| WatchHistory.DroppedAsWritten | internal/provider/kubernetes/watch.go:167-181 | as written, lists of the pod's keys lose every pod |
| WatchHistory.UnwatchIntended | internal/provider/kubernetes/watch.go:155-205 | as intended, all of the pod's entries go, everywhere, nothing of any other pod does, and the lists still agree |
| WatchHistory.IntendedIsExact | internal/provider/kubernetes/watch.go:130-205 | as intended, after every history the lists agree and each forward list equals an index-free account of who is watching |
| WatchHistory.ToldIffWatched | internal/provider/kubernetes/watch.go:95-205 | as intended, a pod is listed for a resource exactly when it was watched with a volume that refers to it and has not been unwatched since |
| WatchHistory.AsWrittenOnlyLoses | internal/provider/kubernetes/watch.go:130-205 | as written, after every history the reverse lists are the intended ones and each forward list is a suffix of the intended one |
| WatchHistory.AsWrittenIsSound | internal/provider/kubernetes/watch.go:137-204 | as written, a listed pod has the key in its reverse list, and a pod just unwatched is listed nowhere |
| WatchHistory.AsWrittenIsExact | internal/provider/kubernetes/watch.go:130-205 | as written, after every history each forward list equals an index-free account: unwatching a pod that watches a resource leaves nobody listed for it |
| WatchHistory.ToldAsWrittenIff | internal/provider/kubernetes/watch.go:95-205 | as written, exactly when it was so watched and no pod watching the resource has been unwatched since |
| WatchHistory.WrittenIsIntendedIffUnshared | internal/provider/kubernetes/watch.go:167-202 | for any index, one unwatch as written has the intended effect if and only if no resource of the pod lists another pod |
| WatchHistory.NextUnwatchIsIntendedIff | internal/provider/kubernetes/watch.go:167-202 | after any history of the code as written, the next unwatch treats a resource as intended if and only if the pod does not watch it or nobody else is listed for it |
| WatchHistory.SharedResourceIsForgotten | internal/provider/kubernetes/watch.go:169-171 | after any history with two pods on one resource, unwatching one leaves nobody to tell, though the other still watches |
| Metrics.AddMetricToMap | internal/provider/mock/monitor.go:200-208 | adds one sample to its family in place and returns the same map |
| Metrics.GeneratePodMetrics | internal/provider/mock/monitor.go:71-138 | returns nil and touches nothing if a group file cannot be read; otherwise adds the totals over distinct groups to the given map |
| Metrics.GenerateContainerMetrics | internal/provider/mock/monitor.go:140-197 | returns nil and touches nothing if a lookup fails; otherwise adds two samples to the given map or, for nil, to a new one |
| Metrics.AddContainers | internal/provider/mock/mock.go:942-966 | the map to be returned gets the samples of the containers up to the first failing one; after that the variable names another map |
| Metrics.GetMetricsResource | internal/provider/mock/mock.go:902-981 | the families are exactly those of the entries to be collected, pod by pod, once each |
| MetricsProperties.FamilyHoldsItsEntries | internal/provider/mock/monitor.go:200-208 | a family exists exactly if some entry goes to it, and lists its entries in order |
| MetricsProperties.LaterPodsRemoveNothing | internal/provider/mock/mock.go:927-967 | whatever pods follow, every sample already collected stays in its place |
| MetricsProperties.FailedPodLeavesNoTrace | internal/provider/mock/mock.go:929-940 | a pod that is not running or has an unreadable group file changes nothing at all |
| MetricsProperties.FirstFailureEndsTheList | internal/provider/mock/mock.go:943-966 | a container is sampled exactly when it is not terminated, its lookups work and no earlier one failed |
| MetricsProperties.EachGroupOnce | internal/provider/mock/monitor.go:322-344 | every process group named by some container is counted once, no other is |
| MetricsSamples.PodValue | internal/provider/mock/monitor.go:91-106 | a pod's values are the sums over the distinct groups its containers name, in any order, of user and system time and of memory |
| MetricsSamples.NodeIsSampled | internal/provider/mock/monitor.go:28-66 | the node's times and memory are collected, or zeros |
| MetricsSamples.PodIsSampled | internal/provider/mock/mock.go:927-940 | every running pod whose group files are readable has its labelled pair of samples with those sums |
| MetricsSamples.ContainerCpuSamplesAre | internal/provider/mock/mock.go:943-966 | the CPU samples of containers are exactly those of the containers reached in running, readable pods, with their labels and values |
| MetricsSamples.ContainerMemorySamplesAre | internal/provider/mock/mock.go:943-966 | and so are the memory samples |
| MetricsProperties.CollectedFamiliesArePaired | internal/provider/mock/mock.go:923-967 | in the collected map every CPU family holds only counters, the memory family of the same resource only gauges, and as many of one as of the other |
| MetricsProperties.SuffixTypes | internal/provider/mock/mock.go:885-900 | the two suffixes are told apart for every resource name |
| MetricsProperties.EveryFamilyIsTyped | internal/provider/mock/mock.go:968-978 | every family of the result has a type and holds only samples of that type |
| MetricsProperties.OrderOfPodsIsIrrelevant | internal/provider/mock/mock.go:927 | pods in any order give every family of the collected map the same samples |
| Volumes.Disk.WriteAll | internal/provider/mock/volumes.go:113-117 | whatever order the keys come in, the directory gains exactly the entries |
| Volumes.Disk.WriteSecret | internal/provider/mock/volumes.go:97-118 | writes what `SecretEffect` says, failing exactly when some directory, decoding or write fails |
| Volumes.Disk.WriteConfigMap | internal/provider/mock/volumes.go:136-154 | writes what `ConfigMapEffect` says, failing exactly when some directory or write fails |
| Volumes.Disk.WriteItems | internal/provider/mock/volumes.go:260-275 | writes the present items in their order, data then binary data |
| Volumes.Disk.SetUpSources | internal/provider/mock/volumes.go:157-279 | the sources' effects one after another; fails exactly when one of them does |
| Volumes.Disk.SetUpVolume | internal/provider/mock/volumes.go:63-283 | one volume's effect, by kind, with the missing and unsupported cases |
| Volumes.Disk.Volumes | internal/provider/mock/volumes.go:39-287 | fails exactly when some volume does; otherwise the disk and the directory map are those of all the effects in order |
| VolumeProperties.SecretDirectory | internal/provider/mock/volumes.go:104-117 | under each key the data if there is any, otherwise the decoded string data, and no other file |
| VolumeProperties.ConfigMapDirectory | internal/provider/mock/volumes.go:144-153 | under each key the binary data if there is any, otherwise the data, and no other file |
| VolumeProperties.LastItemWins | internal/provider/mock/volumes.go:260-275 | at each path what the last present item of that path selects, binary data before data |
| VolumeProperties.OnlyItems | internal/provider/mock/volumes.go:260-275 | a projected config map writes nothing but its items |
| VolumeProperties.NoStepBackStaysBelow | internal/provider/mock/volumes.go:328 | a joined path without a double dot stays below its directory |
| VolumeProperties.VolumeUnder | internal/provider/mock/volumes.go:356-371 | a volume writes only below directories of its own name |
| VolumeProperties.EachVolumeHoldsItsOwn | internal/provider/mock/volumes.go:59-284 | with all volumes set up, each one's directories hold what that volume alone writes |
| VolumeProperties.EachVolumeHasItsDirectory | internal/provider/mock/volumes.go:59-286 | the directory reported for a volume is the one its own set-up gave, whatever the other volumes |
| VolumeDirectories.DirectoryByKind | internal/provider/mock/volumes.go:64-154 | the directory reported for a volume is that of its name in that of its kind below the pod's, the empty path for a host path, and none without an object |
| VolumeDirectories.ProjectedDirectory | internal/provider/mock/volumes.go:156-279 | a projected volume's is that of the last of its sources to give one |
| VolumeDirectories.AccountTokenIsFirst | internal/provider/mock/volumes.go:166-202 | the token is that of the first token secret annotated with the pod's service account |
| VolumeDirectories.ConfigMapOnDisk | internal/provider/mock/volumes.go:136-154 | with all volumes set up, each key of a config map lies in its reported directory with its bytes, and no other key does |
| VolumeDirectories.SecretOnDisk | internal/provider/mock/volumes.go:97-119 | and so does each key of a secret |
| VolumeDirectories.ProjectedOnDisk | internal/provider/mock/volumes.go:252-276 | and at each item's path, what the last present item of that path selects |
| VolumeDirectories.SecretFailsIff | internal/provider/mock/volumes.go:97-117 | a secret fails exactly if a directory cannot be made, a string cannot be decoded or a key cannot be written |
| VolumeDirectories.ConfigMapFailsIff | internal/provider/mock/volumes.go:136-153 | a config map, exactly if a directory cannot be made or a key cannot be written |
| VolumeDirectories.VolumeFailsIff | internal/provider/mock/volumes.go:63-282 | each kind of volume fails exactly under its own conditions |
| VolumeDirectories.SourceFailsIff | internal/provider/mock/volumes.go:157-276 | and so does each source of a projected volume |
| VolumeDirectories.SourcesFailIff | internal/provider/mock/volumes.go:156-279 | a projected volume fails exactly if one of its sources does |
| VolumeProperties.MissingObjects | internal/provider/mock/volumes.go:89-95 | a secret or config map volume without its object fails exactly when it says it is not optional and the object does not exist, and is passed over otherwise |
| VolumeProperties.PassedOverHasNoDirectory | internal/provider/mock/volumes.go:128-134 | a volume that is passed over is absent from the directory map |
| Startup.PassedOverVolumeFailsItsContainer | internal/provider/mock/command.go:29-40 | a container that mounts such a volume, or a host path, fails with a read error if no earlier mount fails and the empty path cannot be read |
| Countdown.Node.NotifyNodeAliveTime | internal/provider/mock/mock.go:679-702 | the label and the first condition become those of `AfterTick` |
| Countdown.Node.SetNodeReady | internal/node/nodeutil/controller.go:422-437 | the first condition of kind Ready is marked, and no other changes |
| Countdown.LabelTracksRemainingTime | internal/provider/mock/mock.go:656-695 | with gaps of at most 5 + d seconds the label stays within the wall time, is no less than the true remaining time and less than 6 + d seconds more |
| Countdown.LabelNeverIncreases | internal/provider/mock/mock.go:684-695 | the label never goes up |
| Countdown.TickMarksOnlyWhenOver | internal/provider/mock/mock.go:693-699 | a tick leaves the conditions alone while whole seconds are left, and otherwise marks the first one and no other |
| Countdown.ReadyIffTimeIsLeft | internal/provider/mock/mock.go:679-702 | a node that was ready is ready after a tick exactly while whole seconds are left |
| Countdown.ExpiredNodeIsNotReady | internal/provider/mock/mock.go:694-699 | once a tick has reached zero every later tick leaves the node not ready, though start-up marked it ready in between |

## Left out

- `UpdatePod`: it replaces the stored pod by any copy, so the run theorems are for the time between updates.
- Ticks during a teardown: the list of container statuses is fixed while a pod is being deleted; the terminated state the teardown writes goes to a copy nobody reads.
- Locks of the watcher and its nil receiver: each operation is one step.
- Volumes.Disk.SetUpSources: does not model the projected-secret source, which reads the items of a config map that is not there; it is among `OtherSource`, which has no effect.
- VolumeProperties.VolumeUnder: says nothing of volume names that are not plain components and of projected paths with a double dot. `Volumes` joins them as the code does, and they can reach other directories; the API server rejects both.
- Temporary files of `writeFile`, ownership and modes; a write either takes effect or is refused.
- The argument of `volumes` that selects kinds of volumes: its one caller selects all.
- Expansion of commands, arguments and environment variables; the text of error messages beyond their fixed part.
- The goroutine of `runScript` that waits for a process after the half second is over: it stays blocked on its own channel and affects nothing modelled.
- Reading `/proc`: what a lookup finds is given. A tick is given the states of a group's processes, a teardown the groups of every process.
- Wall times that are not numbers; times of condition heartbeats.
- `RestartCount`, which is always zero.
- Floating point: metrics are real numbers.
- `GetStatsSummary`, logs, exec, attach, the HTTP routes, TLS, informers, tracing, the pod filters, the taint and the security context.
