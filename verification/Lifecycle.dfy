/**
 * One pod's status: how start-up decides it and how each tick of the status loop rewrites it.
 * The process table, the stderr files and the clock are what a tick is given to look at.
 */
module Lifecycle {
  import opened Collections
  import opened PodTypes

  /** What a tick sees of one container: the clock, whether the process list can be read, the size
      of the stderr file (None if it cannot be examined), the states of the group's processes. */
  datatype View = View(now: Time, pidsReadable: bool, stderr: Option<nat>, processes: seq<string>)

  /** What a tick sees of a pod; view(i) is for the container at index i of the specification. */
  datatype TickEnv = TickEnv(view: nat -> View, now: Time, podIP: string)

  // ---------- Start-up ----------

  /** The status a pod has when CreatePod returns, from the status it arrived with and the
      container statuses in the order they arrived. */
  function Created(prior: PodStatus, arrivals: seq<ContainerStatus>, startTime: Time, podIP: string): PodStatus {
    var statuses := prior.containers + arrivals;
    if AllBad(statuses) then
      prior.(phase := Failed, reason := "AllContainersStartFailed",
             message := "All containers in the pod failed to start", startTime := Some(startTime),
             conditions := [Condition(PodScheduled, true, startTime), Condition(PodReady, false, startTime),
                            Condition(PodInitialized, true, startTime)],
             containers := statuses)
    else
      prior.(phase := PhaseRunning, reason := "Running", message := "Pod is running",
             startTime := Some(startTime), podIP := podIP,
             conditions := [Condition(PodScheduled, true, startTime), Condition(PodReady, true, startTime),
                            Condition(PodInitialized, true, startTime)],
             containers := statuses)
  }

  // ---------- A tick ----------

  function StartOf(state: ContainerState, v: View): Time {
    match state
    case Running(startedAt) => startedAt
    case Terminated(startedAt, _, _, _, _) => startedAt
    case Unset => v.now
  }

  function FinishOf(state: ContainerState, v: View): Time {
    if state.Terminated? then state.finishedAt else v.now
  }

  predicate AllZombies(processes: seq<string>) { forall k :: 0 <= k < |processes| ==> processes[k] == "Z" }

  /** A container's next state: exit code 1 is kept as it is, everything else is worked out anew. */
  function NextState(state: ContainerState, v: View): ContainerState {
    var startedAt, finishedAt := StartOf(state, v), FinishOf(state, v);
    if state.Terminated? && state.exitCode == 1 then state
    else if !v.pidsReadable then Terminated(startedAt, finishedAt, 2, "getPidsError", "Error getting pids")
    else if v.stderr.None? then
      Terminated(startedAt, finishedAt, 2, "getStderrFileInfoError", "Error getting stderr file info")
    else if !AllZombies(v.processes) then Running(startedAt)
    else if v.stderr.value != 0 then
      Terminated(startedAt, finishedAt, 3, "stderrNotEmpty", "The stderr file is not empty.")
    else Terminated(startedAt, finishedAt, 0, "Completed", "All processes are zombies")
  }

  function NextStatus(c: ContainerSpec, status: ContainerStatus, v: View): ContainerStatus {
    var state := NextState(status.state, v);
    ContainerStatus(c.name, state, state.Running?, c.image, status.imageID, status.containerID)
  }

  /** One status per container of the specification; one that had none gets the zero status. */
  function TickStatuses(specs: seq<ContainerSpec>, statuses: seq<ContainerStatus>, env: TickEnv): (r: seq<ContainerStatus>)
    ensures |r| == |specs|
  {
    seq(|specs|, i requires 0 <= i < |specs| => TickStatus(specs[i], statuses, env.view(i)))
  }

  function TickStatus(c: ContainerSpec, statuses: seq<ContainerStatus>, v: View): ContainerStatus {
    match Find(statuses, c.name)
    case None => ZERO_STATUS
    case Some(status) => NextStatus(c, status, v)
  }

  predicate AllTerminated(statuses: seq<ContainerStatus>) {
    forall k :: 0 <= k < |statuses| ==> statuses[k].state.Terminated?
  }

  predicate NoneBad(statuses: seq<ContainerStatus>) {
    forall k :: 0 <= k < |statuses| ==> !Bad(statuses[k])
  }

  /** The phase that a list of container statuses calls for. */
  function Verdict(statuses: seq<ContainerStatus>): Phase {
    if !AllTerminated(statuses) then PhaseRunning else if NoneBad(statuses) then Succeeded else Failed
  }

  function FirstStart(specs: seq<ContainerSpec>, statuses: seq<ContainerStatus>, env: TickEnv): Time
    requires specs != []
  {
    match Find(statuses, specs[0].name)
    case None => ZERO_TIME
    case Some(status) => StartOf(status.state, env.view(0))
  }

  /** The status a tick writes. The phase is the verdict on the statuses before the tick. */
  function Tick(specs: seq<ContainerSpec>, status: PodStatus, env: TickEnv): PodStatus
    requires specs != [] && status.startTime.Some?
  {
    var phase := Verdict(status.containers);
    var start := status.startTime.value;
    PodStatus(phase, "", "", status.startTime, env.podIP,
              [Condition(PodScheduled, true, start), Condition(PodInitialized, true, start),
               Condition(PodReady, phase.PhaseRunning?, FirstStart(specs, status.containers, env))],
              TickStatuses(specs, status.containers, env))
  }

  // ---------- The code ----------

  function Get<V>(m: map<string, V>, key: string, zero: V): V { if key in m then m[key] else zero }

  /** The maps a tick fills from the statuses it finds, keyed by container name. */
  datatype Previous = Previous(
    startTimes: map<string, Time>, finishTimes: map<string, Time>,
    exitCodes: map<string, int>, reasons: map<string, string>, messages: map<string, string>,
    imageIDs: map<string, string>, pgids: map<string, string>)

  const NO_PREVIOUS := Previous(map[], map[], map[], map[], map[], map[], map[])

  /** The maps say of a name what its status says. */
  ghost predicate Describes(prev: Previous, name: string, status: ContainerStatus, v: View) {
    && Get(prev.startTimes, name, ZERO_TIME) == StartOf(status.state, v)
    && Get(prev.finishTimes, name, ZERO_TIME) == FinishOf(status.state, v)
    && DescribesExit(prev, name, status)
    && Get(prev.imageIDs, name, "") == status.imageID
    && Get(prev.pgids, name, "") == status.containerID
  }

  ghost predicate DescribesExit(prev: Previous, name: string, status: ContainerStatus) {
    && Get(prev.exitCodes, name, 0) == (if status.state.Terminated? then status.state.exitCode else 0)
    && (status.state.Terminated? ==>
        && Get(prev.reasons, name, "") == status.state.reason
        && Get(prev.messages, name, "") == status.state.message)
  }

  /** Nothing in the maps was filled from anything but the pod's statuses. */
  ghost predicate Faithful(prev: Previous, statuses: seq<ContainerStatus>) {
    forall name | name in prev.exitCodes :: Find(statuses, name).Some? && Find(statuses, name).value.state.Terminated?
  }

  method DetermineContainerStatus(c: ContainerSpec, processStatus: seq<string>, pgid: string,
      startTime: Time, finishTime: Time, imageID: string, hasStderr: bool)
    returns (r: ContainerStatus)
    ensures AllZombies(processStatus) ==>
      r.state == Terminated(startTime, finishTime, if hasStderr then 3 else 0,
                            if hasStderr then "stderrNotEmpty" else "Completed",
                            if hasStderr then "The stderr file is not empty." else "All processes are zombies")
    ensures !AllZombies(processStatus) ==> r.state == Running(startTime)
    ensures r == ContainerStatus(c.name, r.state, r.state.Running?, c.image, imageID, pgid)
  {
    var allZ := true;
    for k := 0 to |processStatus|
      invariant allZ
      invariant forall j :: 0 <= j < k ==> processStatus[j] == "Z"
    {
      if processStatus[k] != "Z" {
        allZ := false;
        break;
      }
    }
    var state;
    if !allZ {
      state := Running(startTime);
    } else if hasStderr {
      state := Terminated(startTime, finishTime, 3, "stderrNotEmpty", "The stderr file is not empty.");
    } else {
      state := Terminated(startTime, finishTime, 0, "Completed", "All processes are zombies");
    }
    r := CreateContainerStatus(c, state, pgid, imageID);
  }

  function CreateContainerStatus(c: ContainerSpec, state: ContainerState, pgid: string, imageID: string): ContainerStatus {
    ContainerStatus(c.name, state, state.Running?, c.image, imageID, pgid)
  }

  method CreateContainerStatusFromProcessStatus(c: ContainerSpec, prev: Previous, v: View, ghost status: ContainerStatus)
    returns (r: ContainerStatus)
    requires Describes(prev, c.name, status, v)
    ensures r == NextStatus(c, status, v)
  {
    var startTime := Get(prev.startTimes, c.name, ZERO_TIME);
    var finishTime := Get(prev.finishTimes, c.name, ZERO_TIME);
    var pgid, imageID := Get(prev.pgids, c.name, ""), Get(prev.imageIDs, c.name, "");
    if Get(prev.exitCodes, c.name, 0) == 1 {
      var state := Terminated(startTime, finishTime, 1, Get(prev.reasons, c.name, ""), Get(prev.messages, c.name, ""));
      return CreateContainerStatus(c, state, pgid, imageID);
    }
    if !v.pidsReadable {
      var state := Terminated(startTime, finishTime, 2, "getPidsError", "Error getting pids");
      return CreateContainerStatus(c, state, pgid, imageID);
    }
    if v.stderr.None? {
      var state := Terminated(startTime, finishTime, 2, "getStderrFileInfoError", "Error getting stderr file info");
      return CreateContainerStatus(c, state, pgid, imageID);
    }
    var hasStderr := v.stderr.value != 0;
    r := DetermineContainerStatus(c, v.processes, pgid, startTime, finishTime, imageID, hasStderr);
  }

  method CheckTerminatedContainer(statuses: seq<ContainerStatus>) returns (areAllTerminated: bool, areAllExitCodeZero: bool)
    ensures areAllTerminated <==> AllTerminated(statuses)
    ensures areAllExitCodeZero <==> NoneBad(statuses)
  {
    var terminated, exitCodes := 0, 0;
    for k := 0 to |statuses|
      invariant 0 <= terminated <= k && 0 <= exitCodes
      invariant terminated == k <==> AllTerminated(statuses[..k])
      invariant exitCodes == 0 <==> NoneBad(statuses[..k])
    {
      var state := statuses[k].state;
      assert statuses[..k + 1] == statuses[..k] + [statuses[k]];
      assert !state.Terminated? ==> !statuses[..k + 1][k].state.Terminated?;
      assert Bad(statuses[k]) ==> Bad(statuses[..k + 1][k]);
      assert AllTerminated(statuses[..k + 1]) <==> AllTerminated(statuses[..k]) && state.Terminated?;
      assert NoneBad(statuses[..k + 1]) <==> NoneBad(statuses[..k]) && !Bad(statuses[k]);
      if state.Terminated? {
        terminated := terminated + 1;
        if state.exitCode != 0 { exitCodes := exitCodes + 1; }
      }
    }
    assert statuses[..|statuses|] == statuses;
    areAllTerminated := terminated == |statuses|;
    areAllExitCodeZero := exitCodes == 0;
  }

  lemma {:induction false} FindAt(statuses: seq<ContainerStatus>, j: nat)
    requires j < |statuses| && forall k :: 0 <= k < j ==> statuses[k].name != statuses[j].name
    ensures Find(statuses, statuses[j].name) == Some(statuses[j])
  {
    if j > 0 { FindAt(statuses[1..], j - 1); }
  }

  ghost predicate DistinctNames(specs: seq<ContainerSpec>) {
    && (forall i, j :: 0 <= i < j < |specs| ==> specs[i].name != specs[j].name)
    && (forall i :: 0 <= i < |specs| ==> specs[i].name != "")
  }

  /** Fills the maps from one status. */
  function Recorded(prev: Previous, status: ContainerStatus, now: Time): Previous {
    var name := status.name;
    var p := prev.(imageIDs := prev.imageIDs[name := status.imageID], pgids := prev.pgids[name := status.containerID]);
    match status.state
    case Running(startedAt) =>
      p.(startTimes := p.startTimes[name := startedAt], finishTimes := p.finishTimes[name := now])
    case Terminated(startedAt, finishedAt, exitCode, reason, message) =>
      p.(startTimes := p.startTimes[name := startedAt], finishTimes := p.finishTimes[name := finishedAt],
         reasons := p.reasons[name := reason], messages := p.messages[name := message],
         exitCodes := p.exitCodes[name := exitCode])
    case Unset =>
      p.(startTimes := p.startTimes[name := now], finishTimes := p.finishTimes[name := now])
  }

  lemma {:induction false} RecordedExit(prev: Previous, statuses: seq<ContainerStatus>, status: ContainerStatus, now: Time)
    requires Faithful(prev, statuses) && Find(statuses, status.name) == Some(status)
    ensures DescribesExit(Recorded(prev, status, now), status.name, status)
  {
    if !status.state.Terminated? {
      assert status.name !in prev.exitCodes;
      assert Recorded(prev, status, now).exitCodes == prev.exitCodes;
    }
  }

  lemma {:induction false} RecordedDescribes(prev: Previous, statuses: seq<ContainerStatus>, status: ContainerStatus, v: View)
    requires Faithful(prev, statuses) && Find(statuses, status.name) == Some(status)
    ensures Describes(Recorded(prev, status, v.now), status.name, status, v)
  {
    RecordedExit(prev, statuses, status, v.now);
    RecordedStarts(prev, status, v, status.name);
  }

  lemma {:induction false} RecordedIsFaithful(prev: Previous, statuses: seq<ContainerStatus>, status: ContainerStatus, now: Time)
    requires Faithful(prev, statuses) && Find(statuses, status.name) == Some(status)
    ensures Faithful(Recorded(prev, status, now), statuses)
  {
    assert Recorded(prev, status, now).exitCodes
        == if status.state.Terminated? then prev.exitCodes[status.name := status.state.exitCode] else prev.exitCodes;
  }

  lemma {:induction false} RecordedStarts(prev: Previous, status: ContainerStatus, v: View, name: string)
    ensures Get(Recorded(prev, status, v.now).startTimes, name, ZERO_TIME)
         == if name == status.name then StartOf(status.state, v) else Get(prev.startTimes, name, ZERO_TIME)
  {
  }

  /** The tick's inner loop: the first status of the container's name fills the maps and is
      advanced; with no such status the zero status stays in place. */
  method RecordAndAdvance(c: ContainerSpec, statuses: seq<ContainerStatus>, prev: Previous, v: View)
    returns (filled: Previous, next: ContainerStatus)
    requires Faithful(prev, statuses)
    ensures next == TickStatus(c, statuses, v)
    ensures Faithful(filled, statuses)
    ensures forall name :: name != c.name ==> Get(filled.startTimes, name, ZERO_TIME) == Get(prev.startTimes, name, ZERO_TIME)
    ensures Get(filled.startTimes, c.name, ZERO_TIME) ==
      match Find(statuses, c.name)
      case None => Get(prev.startTimes, c.name, ZERO_TIME)
      case Some(status) => StartOf(status.state, v)
  {
    filled, next := prev, ZERO_STATUS;
    for j := 0 to |statuses|
      invariant filled == prev && next == ZERO_STATUS
      invariant forall k :: 0 <= k < j ==> statuses[k].name != c.name
    {
      if statuses[j].name != c.name { continue; }
      FindAt(statuses, j);
      RecordedDescribes(prev, statuses, statuses[j], v);
      RecordedIsFaithful(prev, statuses, statuses[j], v.now);
      forall name { RecordedStarts(prev, statuses[j], v, name); }
      filled := Recorded(prev, statuses[j], v.now);
      next := CreateContainerStatusFromProcessStatus(c, filled, v, statuses[j]);
      return;
    }
  }

  /** A pod as the provider keeps it; ticks rewrite its status in place. */
  class Pod {
    const namespace: string
    const name: string
    const specs: seq<ContainerSpec>
    var status: PodStatus
    var deletion: Option<Time>

    constructor (namespace: string, name: string, specs: seq<ContainerSpec>, status: PodStatus)
      ensures this.namespace == namespace && this.name == name && this.specs == specs
      ensures this.status == status && deletion == None
    {
      this.namespace, this.name, this.specs, this.status, deletion := namespace, name, specs, status, None;
    }

    /** The end of CreatePod: gather the statuses as they arrive, count the failures, decide. */
    method Launch(arrivals: seq<ContainerStatus>, startTime: Time, podIP: string)
      modifies this`status
      ensures status == Created(old(status), arrivals, startTime, podIP)
    {
      var containers := status.containers;
      for k := 0 to |arrivals|
        invariant containers == status.containers + arrivals[..k]
      {
        containers := containers + [arrivals[k]];
      }
      assert arrivals[..|arrivals|] == arrivals;
      var badContainers := 0;
      for k := 0 to |containers|
        invariant 0 <= badContainers <= k
        invariant badContainers == k <==> forall j :: 0 <= j < k ==> Bad(containers[j])
      {
        if Bad(containers[k]) { badContainers := badContainers + 1; }
      }
      status := status.(containers := containers, startTime := Some(startTime));
      if badContainers == |containers| {
        status := status.(phase := Failed, reason := "AllContainersStartFailed",
                          message := "All containers in the pod failed to start",
                          conditions := [Condition(PodScheduled, true, startTime), Condition(PodReady, false, startTime),
                                         Condition(PodInitialized, true, startTime)]);
        return;
      }
      status := status.(phase := PhaseRunning, reason := "Running", message := "Pod is running", podIP := podIP,
                        conditions := [Condition(PodScheduled, true, startTime), Condition(PodReady, true, startTime),
                                       Condition(PodInitialized, true, startTime)]);
    }

    /** The tick: find each container's status, fill the maps from it, work out the next one; then
        decide the phase from the statuses still stored, and store the new ones. */
    method CreatePodStatusFromContainerStatus(env: TickEnv)
      requires specs != [] && status.startTime.Some? && DistinctNames(specs)
      modifies this
      ensures status == Tick(specs, old(status), env)
      ensures deletion == if old(Verdict(status.containers)).PhaseRunning? then old(deletion) else Some(env.now)
    {
      var containerStatuses := seq(|specs|, _ => ZERO_STATUS);
      var prev := NO_PREVIOUS;
      var prevPodStartTime := status.startTime;
      for i := 0 to |specs|
        invariant unchanged(this)
        invariant |containerStatuses| == |specs| && Faithful(prev, status.containers)
        invariant forall k :: 0 <= k < i ==> containerStatuses[k] == TickStatus(specs[k], status.containers, env.view(k))
        invariant i == 0 ==> prev == NO_PREVIOUS
        invariant i > 0 ==> Get(prev.startTimes, specs[0].name, ZERO_TIME) == FirstStart(specs, status.containers, env)
      {
        var next;
        prev, next := RecordAndAdvance(specs[i], status.containers, prev, env.view(i));
        containerStatuses := containerStatuses[i := next];
      }
      assert containerStatuses == TickStatuses(specs, status.containers, env);
      var areAllTerminated, areAllExitCodeZero := CheckTerminatedContainer(status.containers);
      var podReady := true;
      if areAllTerminated {
        deletion := Some(env.now);
        podReady := false;
        if !areAllExitCodeZero {
          status := status.(phase := Failed);
        } else {
          status := status.(phase := Succeeded);
        }
      } else {
        status := status.(phase := PhaseRunning);
        podReady := true;
      }
      status := PodStatus(
        status.phase, "", "", prevPodStartTime, env.podIP,
        [Condition(PodScheduled, true, prevPodStartTime.value), Condition(PodInitialized, true, prevPodStartTime.value),
         Condition(PodReady, podReady, Get(prev.startTimes, specs[0].name, ZERO_TIME))],
        containerStatuses);
    }
  }
}
