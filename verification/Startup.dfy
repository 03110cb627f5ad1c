/** Start-up as a whole: the containers' goroutines, the fan-in of their statuses, and the status
    the pod is created with. */
module Startup {
  import opened Collections
  import opened PodTypes
  import opened FanIn
  import opened Lifecycle
  import opened LifecycleRuns
  import opened Scripts
  import Volumes
  import VolumeProperties

  /** Each goroutine does what StartContainer promises for its container. */
  ghost predicate GoodOutcomes(specs: seq<ContainerSpec>, outcomes: seq<Outcome>, silent: seq<bool>) {
    && DistinctNames(specs) && |outcomes| == |silent| == |specs|
    && forall i :: 0 <= i < |specs| ==> GoodOutcome(specs[i], outcomes[i], silent[i])
  }

  function Names(specs: seq<ContainerSpec>): seq<string> {
    seq(|specs|, i requires 0 <= i < |specs| => specs[i].name)
  }

  /** An arrival is the status that one container's goroutine sent. */
  lemma {:induction false} Sender(specs: seq<ContainerSpec>, outcomes: seq<Outcome>, silent: seq<bool>, actions: seq<Action>, k: nat) returns (i: nat)
    requires GoodOutcomes(specs, outcomes, silent)
    requires Runs(Start(outcomes), actions) && Stuck(Exec(Start(outcomes), actions))
    requires k < |Exec(Start(outcomes), actions).received|
    ensures i < |specs| && outcomes[i].status == Some(Exec(Start(outcomes), actions).received[k])
    ensures specs[i].name == Exec(Start(outcomes), actions).received[k].name
  {
    ConsumerGetsEveryStatus(outcomes, actions);
    var received := Exec(Start(outcomes), actions).received;
    assert received[k] in multiset(received);
    BagMembers(StatusBag, outcomes, received[k]);
    i :| 0 <= i < |outcomes| && received[k] in StatusBag(outcomes[i]);
    assert GoodOutcome(specs[i], outcomes[i], silent[i]);
  }

  lemma {:induction false} TwiceInSequence<T>(xs: seq<T>, j: nat, k: nat)
    requires j < k < |xs| && xs[j] == xs[k]
    ensures multiset(xs)[xs[j]] >= 2
  {
    assert xs == xs[..k] + xs[k..];
    assert xs[..k][j] == xs[j] && xs[k..][0] == xs[k];
    assert multiset(xs[..k])[xs[j]] >= 1 && multiset(xs[k..])[xs[j]] >= 1;
  }

  lemma {:induction false} ArrivalNamesDiffer(specs: seq<ContainerSpec>, outcomes: seq<Outcome>, silent: seq<bool>, actions: seq<Action>, j: nat, k: nat)
    requires GoodOutcomes(specs, outcomes, silent)
    requires Runs(Start(outcomes), actions) && Stuck(Exec(Start(outcomes), actions))
    requires j < k < |Exec(Start(outcomes), actions).received|
    ensures Exec(Start(outcomes), actions).received[j].name != Exec(Start(outcomes), actions).received[k].name
  {
    ConsumerGetsEveryStatus(outcomes, actions);
    var received := Exec(Start(outcomes), actions).received;
    var i := Sender(specs, outcomes, silent, actions, j);
    var h := Sender(specs, outcomes, silent, actions, k);
    if i == h {
      TwiceInSequence(received, j, k);
      assert forall i :: 0 <= i < |specs| ==> GoodOutcome(specs[i], outcomes[i], silent[i]);
      OneStatusPerName(outcomes, Names(specs), received[j], i);
      assert false;
    }
  }

  lemma {:induction false} ArrivalIsDelivered(specs: seq<ContainerSpec>, outcomes: seq<Outcome>, silent: seq<bool>, actions: seq<Action>, k: nat)
    requires GoodOutcomes(specs, outcomes, silent)
    requires Runs(Start(outcomes), actions) && Stuck(Exec(Start(outcomes), actions))
    requires k < |Exec(Start(outcomes), actions).received|
    ensures var st := Exec(Start(outcomes), actions).received[k]; Declared(specs, st) && Arrival(st)
  {
    var i := Sender(specs, outcomes, silent, actions, k);
    assert GoodOutcome(specs[i], outcomes[i], silent[i]);
  }

  lemma {:induction false} ArrivesUnlessSilent(specs: seq<ContainerSpec>, outcomes: seq<Outcome>, silent: seq<bool>, actions: seq<Action>, i: nat)
    requires GoodOutcomes(specs, outcomes, silent) && i < |specs|
    requires Runs(Start(outcomes), actions) && Stuck(Exec(Start(outcomes), actions))
    ensures var received := Exec(Start(outcomes), actions).received;
      silent[i] <==> forall k :: 0 <= k < |received| ==> received[k].name != specs[i].name
  {
    var received := Exec(Start(outcomes), actions).received;
    assert GoodOutcome(specs[i], outcomes[i], silent[i]);
    if silent[i] {
      forall k | 0 <= k < |received| ensures received[k].name != specs[i].name {
        var h := Sender(specs, outcomes, silent, actions, k);
      }
    } else {
      ConsumerGetsEveryStatus(outcomes, actions);
      var st := outcomes[i].status.value;
      BagMembers(StatusBag, outcomes, st);
      assert st in StatusBag(outcomes[i]);
      assert st in multiset(received);
      var k :| 0 <= k < |received| && received[k] == st;
    }
  }

  /** Exactly one status arrives for each container except those that send none. */
  lemma {:induction false} StartUpDelivers(specs: seq<ContainerSpec>, outcomes: seq<Outcome>, silent: seq<bool>, actions: seq<Action>)
    requires GoodOutcomes(specs, outcomes, silent)
    requires Runs(Start(outcomes), actions) && Stuck(Exec(Start(outcomes), actions))
    ensures var received := Exec(Start(outcomes), actions).received;
      && Delivered(specs, received)
      && forall i :: 0 <= i < |specs| ==>
          (silent[i] <==> forall k :: 0 <= k < |received| ==> received[k].name != specs[i].name)
  {
    var received := Exec(Start(outcomes), actions).received;
    assert DistinctNames(specs);
    forall k | 0 <= k < |received|
      ensures Declared(specs, received[k]) && Arrival(received[k])
    {
      ArrivalIsDelivered(specs, outcomes, silent, actions, k);
    }
    forall j, k | 0 <= j < k < |received| ensures received[j].name != received[k].name {
      ArrivalNamesDiffer(specs, outcomes, silent, actions, j, k);
    }
    forall i | 0 <= i < |specs|
      ensures silent[i] <==> forall k :: 0 <= k < |received| ==> received[k].name != specs[i].name
    {
      ArrivesUnlessSilent(specs, outcomes, silent, actions, i);
    }
  }

  /** What is found under a container's name among the arrivals is what its goroutine sent, if anything. */
  lemma {:induction false} DeliveredAsSent(specs: seq<ContainerSpec>, outcomes: seq<Outcome>, silent: seq<bool>, actions: seq<Action>, i: nat)
    requires GoodOutcomes(specs, outcomes, silent) && i < |specs|
    requires Runs(Start(outcomes), actions) && Stuck(Exec(Start(outcomes), actions))
    ensures Find(Exec(Start(outcomes), actions).received, specs[i].name) == outcomes[i].status
  {
    StartUpDelivers(specs, outcomes, silent, actions);
    var received := Exec(Start(outcomes), actions).received;
    assert GoodOutcome(specs[i], outcomes[i], silent[i]);
    if silent[i] {
      assert forall s :: s in received ==> s.name != specs[i].name;
    } else {
      var k :| 0 <= k < |received| && received[k].name == specs[i].name;
      var h := Sender(specs, outcomes, silent, actions, k);
      assert h == i;
      FindAt(received, k);
    }
  }

  /** A container that started is published, in every run of ticks, under its name and image with
      the path of its script, the process group its command started in, and its start. */
  lemma {:induction false} StartedContainerKeepsItsGroup(specs: seq<ContainerSpec>, outcomes: seq<Outcome>, silent: seq<bool>,
      actions: seq<Action>, prior: PodStatus, startTime: Time, podIP: string, envs: seq<TickEnv>,
      i: nat, c: Container, env: Env, volumes: map<string, string>, begun: Time)
    requires GoodOutcomes(specs, outcomes, silent) && Arriving(prior)
    requires Runs(Start(outcomes), actions) && Stuck(Exec(Start(outcomes), actions))
    requires ClockAfter(Exec(Start(outcomes), actions).received, envs)
    requires i < |specs| && c.spec == specs[i] && !outcomes[i].error && Tells(c, env, volumes, begun, outcomes[i].status.value)
    ensures var start := Created(prior, Exec(Start(outcomes), actions).received, startTime, podIP);
      && Tickable(specs, start)
      && var found := Find(Polls(specs, start, envs).containers, specs[i].name);
      && found.Some? && found.value.image == specs[i].image
      && found.value.imageID == ScriptText(c, env, volumes)
      && (env.run.pgid.Some? && found.value.containerID == Decimal(env.run.pgid.value))
      && !found.value.state.Unset? && found.value.state.startedAt == begun
  {
    StartUpDelivers(specs, outcomes, silent, actions);
    DeliveredAsSent(specs, outcomes, silent, actions, i);
    var received := Exec(Start(outcomes), actions).received;
    assert GoodOutcome(specs[i], outcomes[i], silent[i]);
    var k :| 0 <= k < |received| && received[k] == outcomes[i].status.value;
    PublishedStatus(specs, prior, received, startTime, podIP, envs);
    assert Continues(Polls(specs, Created(prior, received, startTime, podIP), envs).containers, received[k]);
  }

  /** The pod starts running exactly when some container started without an error, in whatever
      order the statuses came in. */
  lemma {:induction false} CreatedPhase(specs: seq<ContainerSpec>, outcomes: seq<Outcome>, silent: seq<bool>, actions: seq<Action>,
      prior: PodStatus, startTime: Time, podIP: string)
    requires GoodOutcomes(specs, outcomes, silent) && Arriving(prior)
    requires Runs(Start(outcomes), actions) && Stuck(Exec(Start(outcomes), actions))
    ensures var start := Created(prior, Exec(Start(outcomes), actions).received, startTime, podIP);
      && Tickable(specs, start)
      && start.phase == if (exists i :: 0 <= i < |outcomes| && !outcomes[i].error) then PhaseRunning else Failed
  {
    StartUpDelivers(specs, outcomes, silent, actions);
    PhaseIgnoresArrivalOrder(outcomes, actions);
    var received := Exec(Start(outcomes), actions).received;
    CreatedIsTickable(specs, prior, received, startTime, podIP);
    assert prior.containers + received == received;
    forall i | 0 <= i < |outcomes|
      ensures outcomes[i].error <==> (outcomes[i].status.Some? ==> Bad(outcomes[i].status.value))
    {
      assert GoodOutcome(specs[i], outcomes[i], silent[i]);
    }
  }

  /** A pod that starts running can ever settle exactly when none of its containers was collected
      and then found to have an empty command. */
  lemma {:induction false} SettlesIffNoneSilent(specs: seq<ContainerSpec>, outcomes: seq<Outcome>, silent: seq<bool>, actions: seq<Action>,
      prior: PodStatus, startTime: Time, podIP: string)
    requires GoodOutcomes(specs, outcomes, silent) && Arriving(prior)
    requires Runs(Start(outcomes), actions) && Stuck(Exec(Start(outcomes), actions))
    requires exists i :: 0 <= i < |outcomes| && !outcomes[i].error
    ensures var start := Created(prior, Exec(Start(outcomes), actions).received, startTime, podIP);
      && Tickable(specs, start)
      && ((exists envs :: Settled(Polls(specs, start, envs).phase)) <==> forall i :: 0 <= i < |silent| ==> !silent[i])
  {
    StartUpDelivers(specs, outcomes, silent, actions);
    CreatedPhase(specs, outcomes, silent, actions, prior, startTime, podIP);
    CanSettleIffEveryStatusDelivered(specs, prior, Exec(Start(outcomes), actions).received, startTime, podIP);
  }

  // ---------- Volumes that were passed over ----------

  /** A directory as the containers' goroutines are told of it. */
  function Text(p: Volumes.Path): string {
    if p == [] then "" else Text(p[..|p| - 1]) + "/" + p[|p| - 1]
  }

  function Texts(dirs: map<string, Volumes.Path>): map<string, string> { map name | name in dirs :: Text(dirs[name]) }

  /** A container that mounts a volume without a directory, passed over for want of its object or
      given the empty path as host paths are, reads from the empty path; where that cannot be read
      and no earlier mount fails, it fails to start with a read error. */
  lemma {:induction false} PassedOverVolumeFailsItsContainer(disk: Volumes.Env, volumes: seq<Volumes.Volume>, i: nat,
      env: Env, c: Container, k: nat)
    requires VolumeProperties.Distinct(volumes) && i < |volumes| && k < |c.mounts|
    requires forall j :: 0 <= j < |volumes| ==> Volumes.VolumeEffect(disk, volumes[j]).Effect?
    requires VolumeProperties.ObjectAbsent(disk, volumes[i]) || volumes[i].source.HostPath?
    requires c.mounts[k].volume == volumes[i].name && env.readDir("").None?
    requires forall j :: 0 <= j < k ==> Collectable(env, Texts(Volumes.AllDirs(disk, volumes)), c.mounts[j])
    ensures FirstFailure(env, Texts(Volumes.AllDirs(disk, volumes)), c.mounts) == Some(ReadError)
    ensures Scripts.Failed(env.collectStart, env.now, ReadError).reason == "readDefaultVolDirError"
  {
    VolumeProperties.EachVolumeHasItsDirectory(disk, volumes, i);
    VolumeProperties.PassedOverHasNoDirectory(disk, volumes, i);
    FirstFailureAt(env, Texts(Volumes.AllDirs(disk, volumes)), c.mounts, k);
  }
}
