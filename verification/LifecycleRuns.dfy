/** What every run of start-up followed by ticks does to a pod's status. */
module LifecycleRuns {
  import opened Collections
  import opened PodTypes
  import opened Lifecycle

  /** The phases GetPods passes over. */
  predicate Settled(phase: Phase) { phase.Failed? || phase.Succeeded? || phase.Pending? }

  ghost predicate Tickable(specs: seq<ContainerSpec>, status: PodStatus) {
    !Settled(status.phase) ==> specs != [] && status.startTime.Some? && DistinctNames(specs)
  }

  /** One round of the status loop: a settled pod is left alone, any other is ticked. */
  ghost function Poll(specs: seq<ContainerSpec>, status: PodStatus, env: TickEnv): (r: PodStatus)
    requires Tickable(specs, status)
    ensures Tickable(specs, r)
  {
    if Settled(status.phase) then status else Tick(specs, status, env)
  }

  ghost function Polls(specs: seq<ContainerSpec>, status: PodStatus, envs: seq<TickEnv>): (r: PodStatus)
    requires Tickable(specs, status)
    ensures Tickable(specs, r)
  {
    if envs == [] then status
    else Poll(specs, Polls(specs, status, envs[..|envs| - 1]), envs[|envs| - 1])
  }

  // ---------- Lookups after a tick ----------

  lemma {:induction false} TickAt(specs: seq<ContainerSpec>, statuses: seq<ContainerStatus>, env: TickEnv, i: nat)
    requires i < |specs|
    ensures TickStatuses(specs, statuses, env)[i] == TickStatus(specs[i], statuses, env.view(i))
    ensures TickStatuses(specs, statuses, env)[i].name
         == if Find(statuses, specs[i].name).Some? then specs[i].name else ""
  {
  }

  /** After a tick a container's name finds the advance of what it found before. */
  lemma {:induction false} FindInTick(specs: seq<ContainerSpec>, statuses: seq<ContainerStatus>, env: TickEnv, i: nat)
    requires DistinctNames(specs) && i < |specs|
    ensures Find(TickStatuses(specs, statuses, env), specs[i].name)
         == match Find(statuses, specs[i].name)
            case None => None
            case Some(status) => Some(NextStatus(specs[i], status, env.view(i)))
  {
    var after := TickStatuses(specs, statuses, env);
    TickAt(specs, statuses, env, i);
    forall k | 0 <= k < |after| && k != i ensures after[k].name != specs[i].name {
      TickAt(specs, statuses, env, k);
    }
    if Find(statuses, specs[i].name).Some? {
      FindAt(after, i);
    } else {
      forall s | s in after ensures s.name != specs[i].name {
        var k :| 0 <= k < |after| && after[k] == s;
      }
    }
  }

  ghost predicate EveryContainerHasStatus(specs: seq<ContainerSpec>, statuses: seq<ContainerStatus>) {
    forall i :: 0 <= i < |specs| ==> Find(statuses, specs[i].name).Some?
  }

  // ---------- The tick is a fixpoint once everything has terminated ----------

  /** The same processes and files, at a time of its own. */
  ghost predicate SameSight(a: View, b: View) { a.(now := b.now) == b }

  /** A state that came out terminated is worked out the same again from the same sight. */
  lemma {:induction false} TerminatedIsStable(c: ContainerSpec, status: ContainerStatus, v: View, later: View)
    requires SameSight(v, later) && NextStatus(c, status, v).state.Terminated?
    ensures NextStatus(c, NextStatus(c, status, v), later) == NextStatus(c, status, v)
  {
  }

  lemma {:induction false} StatusesAreFixed(specs: seq<ContainerSpec>, statuses: seq<ContainerStatus>, env: TickEnv, later: TickEnv)
    requires DistinctNames(specs) && AllTerminated(TickStatuses(specs, statuses, env))
    requires forall i :: 0 <= i < |specs| ==> SameSight(env.view(i), later.view(i))
    ensures TickStatuses(specs, TickStatuses(specs, statuses, env), later) == TickStatuses(specs, statuses, env)
  {
    var once := TickStatuses(specs, statuses, env);
    var twice := TickStatuses(specs, once, later);
    forall i | 0 <= i < |specs| ensures twice[i] == once[i] {
      assert once[i].state.Terminated?;
      TickAt(specs, statuses, env, i);
      FindInTick(specs, statuses, env, i);
      TickAt(specs, once, later, i);
      TerminatedIsStable(specs[i], Find(statuses, specs[i].name).value, env.view(i), later.view(i));
    }
  }

  /** If the previous tick left every container terminated and nothing it looks at has changed
      since, the next tick changes no container status, and writes the phase those statuses call
      for: Succeeded exactly when every stored exit code is 0, otherwise Failed. */
  lemma {:induction false} TickIsFixpoint(specs: seq<ContainerSpec>, status: PodStatus, env: TickEnv, later: TickEnv)
    requires specs != [] && DistinctNames(specs) && status.startTime.Some?
    requires forall i :: 0 <= i < |specs| ==> SameSight(env.view(i), later.view(i))
    requires AllTerminated(Tick(specs, status, env).containers)
    ensures var once := Tick(specs, status, env); var twice := Tick(specs, once, later);
      && twice.containers == once.containers
      && (twice.phase == Succeeded <==> forall i :: 0 <= i < |specs| ==> once.containers[i].state.exitCode == 0)
      && (twice.phase == Succeeded || twice.phase == Failed)
      && twice.phase == Verdict(twice.containers)
  {
    var once := TickStatuses(specs, status.containers, env);
    StatusesAreFixed(specs, status.containers, env, later);
    assert NoneBad(once) <==> forall i :: 0 <= i < |specs| ==> once[i].state.exitCode == 0;
  }

  // ---------- Termination ----------

  /** Nothing of the container is seen alive. */
  predicate Quiet(v: View) { !v.pidsReadable || v.stderr.None? || AllZombies(v.processes) }

  lemma {:induction false} SettledStays(specs: seq<ContainerSpec>, status: PodStatus, envs: seq<TickEnv>)
    requires Tickable(specs, status) && Settled(status.phase)
    ensures Polls(specs, status, envs) == status
  {
    if envs != [] { SettledStays(specs, status, envs[..|envs| - 1]); }
  }

  lemma {:induction false} PollsTwice(specs: seq<ContainerSpec>, status: PodStatus, first: TickEnv, second: TickEnv)
    requires Tickable(specs, status)
    ensures Polls(specs, status, [first, second]) == Poll(specs, Poll(specs, status, first), second)
  {
    assert [first, second][..1] == [first] && [first][..0] == [];
    assert Polls(specs, status, [first]) == Poll(specs, status, first);
  }

  lemma {:induction false} PollsAppend(specs: seq<ContainerSpec>, status: PodStatus, some: seq<TickEnv>, more: seq<TickEnv>)
    requires Tickable(specs, status)
    ensures Polls(specs, status, some + more) == Polls(specs, Polls(specs, status, some), more)
  {
    if more == [] {
      assert some + more == some;
    } else {
      PollsAppend(specs, status, some, more[..|more| - 1]);
      assert (some + more)[..|some + more| - 1] == some + more[..|more| - 1];
    }
  }

  /** A tick that sees nothing alive leaves every container that has a status terminated. */
  lemma {:induction false} QuietTickTerminates(specs: seq<ContainerSpec>, status: PodStatus, env: TickEnv)
    requires specs != [] && DistinctNames(specs) && status.startTime.Some?
    requires EveryContainerHasStatus(specs, status.containers)
    requires forall i :: 0 <= i < |specs| ==> Quiet(env.view(i))
    ensures AllTerminated(Tick(specs, status, env).containers)
  {
    forall i | 0 <= i < |specs| ensures Tick(specs, status, env).containers[i].state.Terminated? {
      assert Find(status.containers, specs[i].name).Some? && Quiet(env.view(i));
    }
  }

  /** A running pod with a status for every container is settled two ticks after nothing of it is
      alive, whatever the second tick sees, and stays so, untouched, through every later run. Its
      phase is what the statuses of the first of the two ticks call for, or already those before
      it if they were all terminated. */
  lemma {:induction false} SettlesWithinTwoTicks(specs: seq<ContainerSpec>, status: PodStatus, first: TickEnv, second: TickEnv, later: seq<TickEnv>)
    requires Tickable(specs, status) && status.phase == PhaseRunning
    requires EveryContainerHasStatus(specs, status.containers)
    requires forall i :: 0 <= i < |specs| ==> Quiet(first.view(i))
    ensures var settled := Polls(specs, status, [first, second]);
      && Settled(settled.phase)
      && Polls(specs, status, [first, second] + later) == settled
      && settled.phase == (if Verdict(status.containers) == PhaseRunning
                           then Verdict(Polls(specs, status, [first]).containers) else Verdict(status.containers))
  {
    var once := Poll(specs, status, first);
    assert [first][..0] == [];
    assert Polls(specs, status, [first]) == once;
    PollsTwice(specs, status, first, second);
    QuietTickTerminates(specs, status, first);
    var settled := Poll(specs, once, second);
    PollsAppend(specs, status, [first, second], later);
    SettledStays(specs, settled, later);
  }

  // ---------- Failed starts ----------

  /** The container's status is there and records a failed start. */
  ghost predicate FailedStart(statuses: seq<ContainerStatus>, name: string) {
    Find(statuses, name).Some? && Find(statuses, name).value.state.Terminated? && Find(statuses, name).value.state.exitCode == 1
  }

  /** Exit code 1 is for good: through every run its code, reason, message and times stay exactly
      as they were, and the pod does not become Succeeded, whatever the other containers do. */
  lemma {:induction false} FailedStartIsKept(specs: seq<ContainerSpec>, status: PodStatus, envs: seq<TickEnv>, i: nat)
    requires Tickable(specs, status) && status.phase == PhaseRunning && i < |specs|
    requires FailedStart(status.containers, specs[i].name)
    ensures var r := Polls(specs, status, envs);
      && Find(r.containers, specs[i].name).Some?
      && Find(r.containers, specs[i].name).value.state == Find(status.containers, specs[i].name).value.state
      && r.phase != Succeeded && !r.phase.Pending?
  {
    if envs != [] {
      var before := Polls(specs, status, envs[..|envs| - 1]);
      FailedStartIsKept(specs, status, envs[..|envs| - 1], i);
      FailedStartStays(specs, before, envs[|envs| - 1], i);
    }
  }

  lemma {:induction false} FailedStartStays(specs: seq<ContainerSpec>, status: PodStatus, env: TickEnv, i: nat)
    requires Tickable(specs, status) && i < |specs| && FailedStart(status.containers, specs[i].name)
    requires status.phase != Succeeded && !status.phase.Pending?
    ensures var r := Poll(specs, status, env);
      && Find(r.containers, specs[i].name).Some?
      && Find(r.containers, specs[i].name).value.state == Find(status.containers, specs[i].name).value.state
      && r.phase != Succeeded && !r.phase.Pending?
  {
    if !Settled(status.phase) {
      FindInTick(specs, status.containers, env, i);
      var s := Find(status.containers, specs[i].name).value;
      assert Bad(s);
      var k :| 0 <= k < |status.containers| && status.containers[k] == s;
    }
  }

  /** No other exit code is: a terminated state survives every tick unchanged exactly when its code
      is 1. Any other can be seen running again. */
  lemma {:induction false} OnlyExitCodeOneIsKept(c: ContainerSpec, status: ContainerStatus)
    requires status.state.Terminated?
    ensures (forall v :: NextStatus(c, status, v).state == status.state) <==> status.state.exitCode == 1
  {
    var alive := View(0, true, Some(0), ["R"]);
    assert !AllZombies(alive.processes) by { assert alive.processes[0] != "Z"; }
    if status.state.exitCode != 1 {
      assert NextStatus(c, status, alive).state.Running?;
    }
  }

  // ---------- Runs from CreatePod ----------

  /** Some container of the specification has the status's name and image. */
  predicate Declared(specs: seq<ContainerSpec>, st: ContainerStatus) {
    exists i :: 0 <= i < |specs| && specs[i].name == st.name && specs[i].image == st.image
  }

  /** A container that is running, or failed no earlier than it started. */
  predicate Arrival(st: ContainerStatus) {
    st.state.Running? || (Bad(st) && st.state.startedAt <= st.state.finishedAt)
  }

  /** What start-up delivers: at most one status for each container, running, or terminated with a
      failure no earlier than it started. */
  ghost predicate Delivered(specs: seq<ContainerSpec>, arrivals: seq<ContainerStatus>) {
    && DistinctNames(specs)
    && (forall j, k :: 0 <= j < k < |arrivals| ==> arrivals[j].name != arrivals[k].name)
    && (forall k :: 0 <= k < |arrivals| ==> Declared(specs, arrivals[k]) && Arrival(arrivals[k]))
  }

  /** A pod arrives pending, without container statuses. */
  ghost predicate Arriving(prior: PodStatus) { prior.phase.Pending? && prior.containers == [] }

  lemma {:induction false} CreatedIsTickable(specs: seq<ContainerSpec>, prior: PodStatus, arrivals: seq<ContainerStatus>, startTime: Time, podIP: string)
    requires Arriving(prior) && Delivered(specs, arrivals)
    ensures Tickable(specs, Created(prior, arrivals, startTime, podIP))
    ensures Created(prior, arrivals, startTime, podIP).containers == arrivals
    ensures AllTerminated(arrivals) <==> Created(prior, arrivals, startTime, podIP).phase == Failed
  {
    assert prior.containers + arrivals == arrivals;
    if !AllBad(arrivals) {
      var k :| 0 <= k < |arrivals| && !Bad(arrivals[k]);
      assert Declared(specs, arrivals[k]);
    }
  }

  /** The clock never reads earlier than a container's start. */
  ghost predicate ClockAfter(arrivals: seq<ContainerStatus>, envs: seq<TickEnv>) {
    forall e, i, k | 0 <= e < |envs| && 0 <= i && 0 <= k < |arrivals| ::
      StartOf(arrivals[k].state, envs[e].view(i)) <= envs[e].view(i).now
  }

  /** The state still belongs to the same start, and finished, if it did, no earlier. */
  ghost predicate SameStart(before: ContainerState, after: ContainerState) {
    && !before.Unset? && !after.Unset?
    && after.startedAt == before.startedAt
    && (after.Terminated? ==> after.startedAt <= after.finishedAt)
  }

  ghost predicate Conditions(status: PodStatus) {
    && (ConditionTrue(status, PodReady) <==> status.phase == PhaseRunning)
    && ConditionTrue(status, PodScheduled) && ConditionTrue(status, PodInitialized)
  }

  lemma {:induction false} ThreeConditions(status: PodStatus, a: nat, b: nat)
    requires |status.conditions| == 3 && status.conditions[0].kind.PodScheduled? && status.conditions[0].holds
    requires 1 <= a <= 2 && b == 3 - a && status.conditions[a].kind.PodReady?
    requires status.conditions[b].kind.PodInitialized? && status.conditions[b].holds
    requires status.conditions[a].holds <==> status.phase == PhaseRunning
    ensures Conditions(status)
  {
    assert status.conditions[0] in status.conditions && status.conditions[a] in status.conditions && status.conditions[b] in status.conditions;
    forall c | c in status.conditions && c.kind.PodReady? ensures c == status.conditions[a] {
      var k :| 0 <= k < 3 && status.conditions[k] == c;
    }
  }

  lemma {:induction false} CreatedConditions(prior: PodStatus, arrivals: seq<ContainerStatus>, startTime: Time, podIP: string)
    ensures Conditions(Created(prior, arrivals, startTime, podIP))
  {
    ThreeConditions(Created(prior, arrivals, startTime, podIP), 1, 2);
  }

  lemma {:induction false} TickConditions(specs: seq<ContainerSpec>, status: PodStatus, env: TickEnv)
    requires specs != [] && status.startTime.Some?
    ensures Conditions(Tick(specs, status, env))
  {
    ThreeConditions(Tick(specs, status, env), 2, 1);
  }

  /** The status under a name is the delivered one, advanced. */
  ghost predicate Continues(statuses: seq<ContainerStatus>, arrival: ContainerStatus) {
    && Find(statuses, arrival.name).Some?
    && var s := Find(statuses, arrival.name).value;
    && SameStart(arrival.state, s.state)
    && s.containerID == arrival.containerID && s.imageID == arrival.imageID && s.image == arrival.image
  }

  lemma {:induction false} NextContinues(c: ContainerSpec, s: ContainerStatus, v: View, arrival: ContainerStatus)
    requires SameStart(arrival.state, s.state) && StartOf(arrival.state, v) <= v.now
    ensures SameStart(arrival.state, NextStatus(c, s, v).state)
    ensures NextStatus(c, s, v).name == c.name && NextStatus(c, s, v).image == c.image
    ensures NextStatus(c, s, v).containerID == s.containerID && NextStatus(c, s, v).imageID == s.imageID
  {
  }

  lemma {:induction false} PollKeeps(specs: seq<ContainerSpec>, status: PodStatus, env: TickEnv, i: nat, arrival: ContainerStatus)
    requires Tickable(specs, status) && DistinctNames(specs) && i < |specs| && specs[i].name == arrival.name && specs[i].image == arrival.image
    requires Continues(status.containers, arrival) && StartOf(arrival.state, env.view(i)) <= env.view(i).now
    ensures Continues(Poll(specs, status, env).containers, arrival)
  {
    if !Settled(status.phase) {
      FindInTick(specs, status.containers, env, i);
      NextContinues(specs[i], Find(status.containers, specs[i].name).value, env.view(i), arrival);
    }
  }

  lemma {:induction false} PollsKeep(specs: seq<ContainerSpec>, status: PodStatus, envs: seq<TickEnv>, i: nat, arrival: ContainerStatus)
    requires Tickable(specs, status) && DistinctNames(specs) && i < |specs| && specs[i].name == arrival.name && specs[i].image == arrival.image
    requires Continues(status.containers, arrival)
    requires forall e :: 0 <= e < |envs| ==> StartOf(arrival.state, envs[e].view(i)) <= envs[e].view(i).now
    ensures Continues(Polls(specs, status, envs).containers, arrival)
  {
    if envs != [] {
      PollsKeep(specs, status, envs[..|envs| - 1], i, arrival);
      PollKeeps(specs, Polls(specs, status, envs[..|envs| - 1]), envs[|envs| - 1], i, arrival);
    }
  }

  lemma {:induction false} PollKeepsPod(specs: seq<ContainerSpec>, status: PodStatus, env: TickEnv)
    requires Tickable(specs, status) && Conditions(status) && status.phase in {PhaseRunning, Succeeded, Failed}
    ensures var r := Poll(specs, status, env);
      Conditions(r) && r.startTime == status.startTime && r.phase in {PhaseRunning, Succeeded, Failed}
  {
    if !Settled(status.phase) { TickConditions(specs, status, env); }
  }

  /** Every status published from CreatePod on, even of a pod to which no container status was
      delivered: the pod is ready exactly while it is running, scheduled and initialised always,
      and its start time is set once and kept. */
  lemma {:induction false} PublishedPod(specs: seq<ContainerSpec>, prior: PodStatus, arrivals: seq<ContainerStatus>,
      startTime: Time, podIP: string, envs: seq<TickEnv>)
    requires Arriving(prior) && Delivered(specs, arrivals)
    ensures Tickable(specs, Created(prior, arrivals, startTime, podIP))
    ensures var r := Polls(specs, Created(prior, arrivals, startTime, podIP), envs);
      Conditions(r) && r.startTime == Some(startTime) && r.phase in {PhaseRunning, Succeeded, Failed}
  {
    CreatedIsTickable(specs, prior, arrivals, startTime, podIP);
    if envs == [] {
      CreatedConditions(prior, arrivals, startTime, podIP);
    } else {
      PublishedPod(specs, prior, arrivals, startTime, podIP, envs[..|envs| - 1]);
      PollKeepsPod(specs, Polls(specs, Created(prior, arrivals, startTime, podIP), envs[..|envs| - 1]), envs[|envs| - 1]);
    }
  }

  /** Each container status that start-up delivered keeps its start, its group and its script,
      and finishes no earlier than it started. */
  lemma {:induction false} PublishedContainer(specs: seq<ContainerSpec>, prior: PodStatus, arrivals: seq<ContainerStatus>,
      startTime: Time, podIP: string, envs: seq<TickEnv>, k: nat)
    requires Arriving(prior) && Delivered(specs, arrivals) && ClockAfter(arrivals, envs) && k < |arrivals|
    ensures Tickable(specs, Created(prior, arrivals, startTime, podIP))
    ensures Continues(Polls(specs, Created(prior, arrivals, startTime, podIP), envs).containers, arrivals[k])
  {
    CreatedIsTickable(specs, prior, arrivals, startTime, podIP);
    FindAt(arrivals, k);
    assert Declared(specs, arrivals[k]) && Arrival(arrivals[k]);
    var i :| 0 <= i < |specs| && specs[i].name == arrivals[k].name && specs[i].image == arrivals[k].image;
    PollsKeep(specs, Created(prior, arrivals, startTime, podIP), envs, i, arrivals[k]);
  }

  /** Both together: every status published from CreatePod on. */
  lemma {:induction false} PublishedStatus(specs: seq<ContainerSpec>, prior: PodStatus, arrivals: seq<ContainerStatus>,
      startTime: Time, podIP: string, envs: seq<TickEnv>)
    requires Arriving(prior) && Delivered(specs, arrivals) && ClockAfter(arrivals, envs)
    ensures Tickable(specs, Created(prior, arrivals, startTime, podIP))
    ensures var r := Polls(specs, Created(prior, arrivals, startTime, podIP), envs);
      && Conditions(r)
      && r.startTime == Some(startTime)
      && r.phase in {PhaseRunning, Succeeded, Failed}
      && forall k :: 0 <= k < |arrivals| ==> Continues(r.containers, arrivals[k])
  {
    PublishedPod(specs, prior, arrivals, startTime, podIP, envs);
    forall k | 0 <= k < |arrivals|
      ensures Continues(Polls(specs, Created(prior, arrivals, startTime, podIP), envs).containers, arrivals[k])
    {
      PublishedContainer(specs, prior, arrivals, startTime, podIP, envs, k);
    }
  }

  /** The container has a status, terminated. */
  ghost predicate Ended(statuses: seq<ContainerStatus>, name: string) {
    Find(statuses, name).Some? && Find(statuses, name).value.state.Terminated?
  }

  /** However long a container stays terminated, its finishing time is frozen. */
  lemma {:induction false} FinishTimeIsFrozen(specs: seq<ContainerSpec>, status: PodStatus, envs: seq<TickEnv>, i: nat)
    requires Tickable(specs, status) && i < |specs| && DistinctNames(specs)
    requires forall n :: 0 <= n <= |envs| ==> Ended(Polls(specs, status, envs[..n]).containers, specs[i].name)
    ensures Ended(status.containers, specs[i].name) && Ended(Polls(specs, status, envs).containers, specs[i].name)
    ensures Find(Polls(specs, status, envs).containers, specs[i].name).value.state.finishedAt
         == Find(status.containers, specs[i].name).value.state.finishedAt
  {
    assert envs[..|envs|] == envs && envs[..0] == [];
    if envs != [] {
      var before := envs[..|envs| - 1];
      forall n | 0 <= n <= |before| ensures Ended(Polls(specs, status, before[..n]).containers, specs[i].name) {
        assert before[..n] == envs[..n];
      }
      FinishTimeIsFrozen(specs, status, before, i);
      assert before[..|before|] == before;
      FinishTimeIsKept(specs, Polls(specs, status, before), envs[|envs| - 1], i);
    }
  }

  lemma {:induction false} FinishTimeIsKept(specs: seq<ContainerSpec>, status: PodStatus, env: TickEnv, i: nat)
    requires Tickable(specs, status) && i < |specs| && DistinctNames(specs)
    requires Find(status.containers, specs[i].name).Some? && Find(status.containers, specs[i].name).value.state.Terminated?
    ensures Find(Poll(specs, status, env).containers, specs[i].name).Some?
    ensures var s := Find(Poll(specs, status, env).containers, specs[i].name).value.state;
      s.Terminated? ==> s.finishedAt == Find(status.containers, specs[i].name).value.state.finishedAt
  {
    if !Settled(status.phase) {
      FindInTick(specs, status.containers, env, i);
      if NextStatus(specs[i], Find(status.containers, specs[i].name).value, env.view(i)).state.Terminated? {
        NextKeepsFinish(specs[i], Find(status.containers, specs[i].name).value, env.view(i));
      }
    }
  }

  lemma {:induction false} NextKeepsFinish(c: ContainerSpec, s: ContainerStatus, v: View)
    requires s.state.Terminated? && NextStatus(c, s, v).state.Terminated?
    ensures NextStatus(c, s, v).state.finishedAt == s.state.finishedAt
  {
  }

  /** A container that was running before a round and is terminated after it finished at the time
      of that round, and started when it had started. */
  lemma {:induction false} FinishIsTheTickItEnded(specs: seq<ContainerSpec>, status: PodStatus, env: TickEnv, i: nat, startedAt: Time)
    requires Tickable(specs, status) && i < |specs| && DistinctNames(specs)
    requires Find(status.containers, specs[i].name).Some? && Find(status.containers, specs[i].name).value.state == Running(startedAt)
    requires Ended(Poll(specs, status, env).containers, specs[i].name)
    ensures var s := Find(Poll(specs, status, env).containers, specs[i].name).value.state;
      s.finishedAt == env.view(i).now && s.startedAt == startedAt
  {
    if !Settled(status.phase) {
      FindInTick(specs, status.containers, env, i);
      EndsNow(specs[i], Find(status.containers, specs[i].name).value, env.view(i));
    }
  }

  lemma {:induction false} EndsNow(c: ContainerSpec, s: ContainerStatus, v: View)
    requires s.state.Running?
    ensures var next := NextStatus(c, s, v).state;
      next.Terminated? ==> next.finishedAt == v.now && next.startedAt == s.state.startedAt
  {
  }

  /** Through a run: the finishing time of a container is, and stays, the clock of the round that began
      the unbroken stretch in which it is terminated. */
  lemma {:induction false} FinishIsWhenTheStretchBegan(specs: seq<ContainerSpec>, status: PodStatus, before: seq<TickEnv>,
      env: TickEnv, later: seq<TickEnv>, i: nat)
    requires Tickable(specs, status) && i < |specs| && DistinctNames(specs)
    requires var was := Find(Polls(specs, status, before).containers, specs[i].name); was.Some? && was.value.state.Running?
    requires forall m :: 0 <= m <= |later| ==> Ended(Polls(specs, status, before + [env] + later[..m]).containers, specs[i].name)
    ensures Ended(Polls(specs, status, before + [env] + later).containers, specs[i].name)
    ensures Find(Polls(specs, status, before + [env] + later).containers, specs[i].name).value.state.finishedAt == env.view(i).now
  {
    var running := Polls(specs, status, before);
    var ended := Poll(specs, running, env);
    OneMorePoll(specs, status, before, env);
    forall m | 0 <= m <= |later| ensures Polls(specs, ended, later[..m]) == Polls(specs, status, before + [env] + later[..m]) {
      PollsAppend(specs, status, before + [env], later[..m]);
    }
    assert later[..|later|] == later && later[..0] == [];
    assert Polls(specs, ended, later[..0]) == ended;
    FinishIsTheTickItEnded(specs, running, env, i, Find(running.containers, specs[i].name).value.state.startedAt);
    FinishTimeIsFrozen(specs, ended, later, i);
  }

  lemma {:induction false} OneMorePoll(specs: seq<ContainerSpec>, status: PodStatus, before: seq<TickEnv>, env: TickEnv)
    requires Tickable(specs, status)
    ensures Polls(specs, status, before + [env]) == Poll(specs, Polls(specs, status, before), env)
  {
    assert (before + [env])[..|before|] == before;
  }

  // ---------- What a tick says of each container ----------

  /** Unless its start had failed with code 1, a container whose process list or stderr file cannot be read
      is ended with code 2, for the one reason or the other, and can be seen running at a later tick. */
  lemma {:induction false} UnreadableIsNotFinal(c: ContainerSpec, status: ContainerStatus, v: View)
    requires !KeptFailure(status) && (!v.pidsReadable || v.stderr.None?)
    ensures var next := NextStatus(c, status, v);
      && next.state.Terminated? && next.state.exitCode == 2
      && next.state.reason == (if v.pidsReadable then "getStderrFileInfoError" else "getPidsError")
      && exists later :: NextStatus(c, next, later).state.Running?
  {
    var next := NextStatus(c, status, v);
    var alive := View(0, true, Some(0), ["R"]);
    assert !AllZombies(alive.processes) by { assert alive.processes[0] != "Z"; }
    assert NextStatus(c, next, alive).state.Running?;
  }

  /** Otherwise it is running exactly when some process is not a zombie, and has ended with code 3 exactly
      when none is and there is error output. */
  lemma {:induction false} ReadableIsJudged(c: ContainerSpec, status: ContainerStatus, v: View)
    requires !KeptFailure(status) && v.pidsReadable && v.stderr.Some?
    ensures var next := NextStatus(c, status, v);
      && (next.state.Running? <==> exists k :: 0 <= k < |v.processes| && v.processes[k] != "Z")
      && (!next.state.Running? ==> next.state.Terminated? && next.state.exitCode == if v.stderr.value == 0 then 0 else 3)
      && (next.ready <==> next.state.Running?)
  {
  }

  /** When the conditions of a ticked pod last changed: the first two when the pod started, readiness when
      its first container did. */
  lemma {:induction false} TransitionTimes(specs: seq<ContainerSpec>, status: PodStatus, env: TickEnv, startedAt: Time)
    requires specs != [] && status.startTime.Some? && Find(status.containers, specs[0].name).Some?
    requires !Find(status.containers, specs[0].name).value.state.Unset?
    requires Find(status.containers, specs[0].name).value.state.startedAt == startedAt
    ensures forall c :: c in Tick(specs, status, env).conditions ==>
      c.lastTransition == if c.kind.PodReady? then startedAt else status.startTime.value
    ensures Tick(specs, status, env).podIP == env.podIP && Tick(specs, status, env).reason == ""
  {
    var conditions := Tick(specs, status, env).conditions;
    forall c | c in conditions
      ensures c.lastTransition == if c.kind.PodReady? then startedAt else status.startTime.value
    {
      var k :| 0 <= k < |conditions| && conditions[k] == c;
    }
  }

  // ---------- Containers that never got a status ----------

  /** The pod keeps running and the container at i keeps having no status of its own. */
  ghost predicate Orphaned(specs: seq<ContainerSpec>, status: PodStatus, i: nat) {
    && status.phase == PhaseRunning && i < |specs| && Find(status.containers, specs[i].name).None?
    && !AllTerminated(status.containers)
  }

  lemma {:induction false} OrphanedStays(specs: seq<ContainerSpec>, status: PodStatus, envs: seq<TickEnv>, i: nat)
    requires Tickable(specs, status) && Orphaned(specs, status, i)
    ensures Orphaned(specs, Polls(specs, status, envs), i)
  {
    if envs != [] {
      OrphanedStays(specs, status, envs[..|envs| - 1], i);
      var before := Polls(specs, status, envs[..|envs| - 1]);
      var after := Polls(specs, status, envs);
      FindInTick(specs, before.containers, envs[|envs| - 1], i);
      TickAt(specs, before.containers, envs[|envs| - 1], i);
      assert after == Tick(specs, before, envs[|envs| - 1]);
      assert after.containers[i] == ZERO_STATUS;
    }
  }

  /** A pod that start-up left running can ever settle exactly when start-up delivered a status for
      every container. One container with an empty command keeps the pod running for ever. */
  lemma {:induction false} CanSettleIffEveryStatusDelivered(specs: seq<ContainerSpec>, prior: PodStatus, arrivals: seq<ContainerStatus>,
      startTime: Time, podIP: string)
    requires Arriving(prior) && Delivered(specs, arrivals)
    requires Tickable(specs, Created(prior, arrivals, startTime, podIP))
    requires Created(prior, arrivals, startTime, podIP).phase == PhaseRunning
    ensures (exists envs :: Settled(Polls(specs, Created(prior, arrivals, startTime, podIP), envs).phase))
       <==> (forall i :: 0 <= i < |specs| ==> exists k :: 0 <= k < |arrivals| && arrivals[k].name == specs[i].name)
  {
    CreatedIsTickable(specs, prior, arrivals, startTime, podIP);
    var start := Created(prior, arrivals, startTime, podIP);
    if i :| 0 <= i < |specs| && forall k :: 0 <= k < |arrivals| ==> arrivals[k].name != specs[i].name {
      NeverSettles(specs, start, i);
    } else {
      forall i | 0 <= i < |specs| ensures Find(start.containers, specs[i].name).Some? {
        var k :| 0 <= k < |arrivals| && arrivals[k].name == specs[i].name;
        assert arrivals[k] in arrivals;
      }
      CanSettle(specs, start);
    }
  }

  lemma {:induction false} NeverSettles(specs: seq<ContainerSpec>, status: PodStatus, i: nat)
    requires Tickable(specs, status) && Orphaned(specs, status, i)
    ensures forall envs :: !Settled(Polls(specs, status, envs).phase)
  {
    forall envs ensures !Settled(Polls(specs, status, envs).phase) { OrphanedStays(specs, status, envs, i); }
  }

  lemma {:induction false} CanSettle(specs: seq<ContainerSpec>, status: PodStatus)
    requires Tickable(specs, status) && status.phase == PhaseRunning && EveryContainerHasStatus(specs, status.containers)
    ensures exists envs :: Settled(Polls(specs, status, envs).phase)
  {
    var quiet := TickEnv((i: nat) => View(0, true, Some(0), []), 0, "");
    SettlesWithinTwoTicks(specs, status, quiet, quiet, []);
  }

  // ---------- The phase lags by one tick ----------

  /** The container has a status, and the tick will find it ended. */
  predicate Ends(c: ContainerSpec, statuses: seq<ContainerStatus>, v: View) {
    Find(statuses, c.name).Some? && (KeptFailure(Find(statuses, c.name).value) || Quiet(v))
  }

  predicate KeptFailure(status: ContainerStatus) { status.state.Terminated? && status.state.exitCode == 1 }

  /** The container has a status, and the tick will find it ended without a fault. */
  predicate EndsWell(c: ContainerSpec, statuses: seq<ContainerStatus>, v: View) {
    && Find(statuses, c.name).Some? && !KeptFailure(Find(statuses, c.name).value)
    && v.pidsReadable && v.stderr == Some(0) && AllZombies(v.processes)
  }

  lemma {:induction false} TickStatusEnds(c: ContainerSpec, statuses: seq<ContainerStatus>, v: View)
    ensures TickStatus(c, statuses, v).state.Terminated? <==> Ends(c, statuses, v)
    ensures TickStatus(c, statuses, v).state.Terminated? && !Bad(TickStatus(c, statuses, v)) <==> EndsWell(c, statuses, v)
  {
  }

  predicate AllEnd(specs: seq<ContainerSpec>, statuses: seq<ContainerStatus>, env: TickEnv) {
    forall i :: 0 <= i < |specs| ==> Ends(specs[i], statuses, env.view(i))
  }

  predicate AllEndWell(specs: seq<ContainerSpec>, statuses: seq<ContainerStatus>, env: TickEnv) {
    forall i :: 0 <= i < |specs| ==> EndsWell(specs[i], statuses, env.view(i))
  }

  /** What the new statuses call for, in terms of what the tick finds. */
  lemma {:induction false} VerdictAfter(specs: seq<ContainerSpec>, statuses: seq<ContainerStatus>, env: TickEnv)
    ensures Verdict(TickStatuses(specs, statuses, env)) ==
      if !AllEnd(specs, statuses, env) then PhaseRunning else if AllEndWell(specs, statuses, env) then Succeeded else Failed
  {
    var after := TickStatuses(specs, statuses, env);
    forall i | 0 <= i < |specs|
      ensures after[i].state.Terminated? <==> Ends(specs[i], statuses, env.view(i))
      ensures after[i].state.Terminated? && !Bad(after[i]) <==> EndsWell(specs[i], statuses, env.view(i))
    {
      TickStatusEnds(specs[i], statuses, env.view(i));
    }
    if !NoneBad(after) {
      var k :| 0 <= k < |after| && Bad(after[k]);
      assert !EndsWell(specs[k], statuses, env.view(k));
    }
  }

  /** The phase a tick publishes agrees with the statuses it publishes exactly when what it finds
      calls for the same phase as what it found the time before: a pod then all ended well must be
      found so still, one with a failure all ended with a fault, and one with a container going
      must still have one going. */
  lemma {:induction false} PhaseAgreesIff(specs: seq<ContainerSpec>, status: PodStatus, env: TickEnv)
    requires specs != [] && status.startTime.Some?
    ensures Tick(specs, status, env).phase == Verdict(Tick(specs, status, env).containers) <==>
      if !AllTerminated(status.containers) then !AllEnd(specs, status.containers, env)
      else if NoneBad(status.containers) then AllEndWell(specs, status.containers, env)
      else AllEnd(specs, status.containers, env) && !AllEndWell(specs, status.containers, env)
  {
    VerdictAfter(specs, status.containers, env);
    if AllEndWell(specs, status.containers, env) {
      forall i | 0 <= i < |specs| ensures Ends(specs[i], status.containers, env.view(i)) {
        assert EndsWell(specs[i], status.containers, env.view(i));
      }
    }
  }

  /** A pod published as Succeeded: every status was then terminated with code 0, and its own
      statuses say so too exactly when every container's processes and files are still readable,
      ended and silent. */
  lemma {:induction false} SucceededAgreesIff(specs: seq<ContainerSpec>, status: PodStatus, env: TickEnv)
    requires specs != [] && status.startTime.Some? && EveryContainerHasStatus(specs, status.containers)
    ensures Tick(specs, status, env).phase == Succeeded <==> AllTerminated(status.containers) && NoneBad(status.containers)
    ensures Tick(specs, status, env).phase == Succeeded ==>
      (Verdict(Tick(specs, status, env).containers) == Succeeded <==>
        forall i :: 0 <= i < |specs| ==>
          env.view(i).pidsReadable && env.view(i).stderr == Some(0) && AllZombies(env.view(i).processes))
  {
    PhaseAgreesIff(specs, status, env);
    if NoneBad(status.containers) {
      forall i | 0 <= i < |specs| ensures !KeptFailure(Find(status.containers, specs[i].name).value) {
        var s := Find(status.containers, specs[i].name).value;
        var k :| 0 <= k < |status.containers| && status.containers[k] == s;
      }
    }
  }

  /** An instance: error output that reaches the file between two ticks is published as exit code 3 under phase
      Succeeded: the phase is the verdict on the statuses of the tick before. */
  lemma {:induction false} LateErrorOutputIsPublishedAsSuccess(c: ContainerSpec, prior: PodStatus, arrival: ContainerStatus,
      startTime: Time, podIP: string, first: TickEnv, second: TickEnv)
    requires c.name != "" && arrival.name == c.name && arrival.image == c.image && arrival.state.Running? && Arriving(prior)
    requires first.view(0).pidsReadable && first.view(0).stderr == Some(0) && AllZombies(first.view(0).processes)
    requires second.view(0).pidsReadable && second.view(0).stderr.Some? && second.view(0).stderr.value > 0
    requires AllZombies(second.view(0).processes)
    ensures var start := Created(prior, [arrival], startTime, podIP);
      && Tickable([c], start)
      && var r := Polls([c], start, [first, second]);
      && r.phase == Succeeded && Verdict(r.containers) == Failed && |r.containers| == 1
      && r.containers[0].state.Terminated? && r.containers[0].state.exitCode == 3
  {
    var specs, arrivals := [c], [arrival];
    var start := Created(prior, arrivals, startTime, podIP);
    assert arrivals[0].name == specs[0].name;
    CreatedIsTickable(specs, prior, arrivals, startTime, podIP);
    assert !Bad(arrivals[0]) && !AllTerminated(arrivals) by { assert arrivals[0].state.Running?; }
    PollsTwice(specs, start, first, second);
    QuietOnce(c, start, arrival, first);
    QuietThenLoud(c, Poll(specs, start, first), second);
  }

  lemma {:induction false} QuietOnce(c: ContainerSpec, start: PodStatus, arrival: ContainerStatus, first: TickEnv)
    requires Tickable([c], start) && start.phase == PhaseRunning && start.containers == [arrival]
    requires arrival.name == c.name && arrival.state.Running? && EndsWell(c, [arrival], first.view(0))
    ensures var once := Poll([c], start, first);
      once.phase == PhaseRunning && once.containers == [NextStatus(c, arrival, first.view(0))]
  {
    assert start.containers[0].state.Running?;
    assert Find(start.containers, c.name) == Some(arrival);
  }

  lemma {:induction false} QuietThenLoud(c: ContainerSpec, once: PodStatus, second: TickEnv)
    requires Tickable([c], once) && once.phase == PhaseRunning && |once.containers| == 1 && once.containers[0].name == c.name
    requires once.containers[0].state.Terminated? && once.containers[0].state.exitCode == 0
    requires second.view(0).pidsReadable && second.view(0).stderr.Some? && second.view(0).stderr.value > 0
    requires AllZombies(second.view(0).processes)
    ensures var r := Poll([c], once, second);
      && r.phase == Succeeded && Verdict(r.containers) == Failed && |r.containers| == 1
      && r.containers[0].state.Terminated? && r.containers[0].state.exitCode == 3
  {
    assert Find(once.containers, c.name) == Some(once.containers[0]);
    VerdictAfter([c], once.containers, second);
    assert Ends([c][0], once.containers, second.view(0)) && !EndsWell([c][0], once.containers, second.view(0));
  }
}
