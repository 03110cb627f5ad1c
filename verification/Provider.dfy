/** The provider's store of pods and the operations on it. */
module Provider {
  import opened Collections
  import opened PodTypes
  import opened Lifecycle
  import opened LifecycleRuns
  import FanIn
  import Startup
  import Volumes

  /** The key a pod is stored under; a pod without a namespace or a name has none. */
  function BuildKey(namespace: string, name: string): Option<string> {
    if namespace == "" || name == "" then None else Some(namespace + "-" + name)
  }

  /** Two pods share a key exactly when they have the same names or the dash that separates
      namespace from name can be read in two places. */
  lemma {:induction false} KeysCollide(namespace1: string, name1: string, namespace2: string, name2: string)
    requires BuildKey(namespace1, name1).Some? && BuildKey(namespace2, name2).Some?
    ensures BuildKey(namespace1, name1) == BuildKey(namespace2, name2) <==>
      || (namespace1 == namespace2 && name1 == name2)
      || (exists r :: namespace2 == namespace1 + "-" + r && name1 == r + "-" + name2)
      || (exists r :: namespace1 == namespace2 + "-" + r && name2 == r + "-" + name1)
  {
    forall r ensures namespace1 + "-" + (r + "-" + name2) == (namespace1 + "-" + r) + "-" + name2 {}
    forall r ensures namespace2 + "-" + (r + "-" + name1) == (namespace2 + "-" + r) + "-" + name1 {}
    if BuildKey(namespace1, name1) == BuildKey(namespace2, name2) {
      if |namespace1| == |namespace2| {
        SameSplit(namespace1, name1, namespace2, name2);
      } else if |namespace1| < |namespace2| {
        var r := LongerNamespace(namespace1, name1, namespace2, name2);
      } else {
        var r := LongerNamespace(namespace2, name2, namespace1, name1);
      }
    }
  }

  lemma {:induction false} SameSplit(namespace1: string, name1: string, namespace2: string, name2: string)
    requires |namespace1| == |namespace2| && namespace1 + "-" + name1 == namespace2 + "-" + name2
    ensures namespace1 == namespace2 && name1 == name2
  {
    var key1, key2 := namespace1 + "-" + name1, namespace2 + "-" + name2;
    assert key1[..|namespace1|] == namespace1 && key2[..|namespace2|] == namespace2;
    assert key1[|namespace1| + 1..] == name1 && key2[|namespace2| + 1..] == name2;
  }

  lemma {:induction false} LongerNamespace(namespace1: string, name1: string, namespace2: string, name2: string) returns (r: string)
    requires |namespace1| < |namespace2| && namespace1 + "-" + name1 == namespace2 + "-" + name2
    ensures namespace2 == namespace1 + "-" + r && name1 == r + "-" + name2
  {
    var n := |namespace1|;
    var key := namespace1 + "-" + name1;
    r := namespace2[n + 1..];
    assert key[..|namespace2|] == namespace2 && key[..n] == namespace1 && key[n] == '-';
    assert namespace2[..n] == key[..|namespace2|][..n] == key[..n];
    assert namespace2[n] == key[n];
    assert namespace2 == namespace2[..n] + [namespace2[n]] + r;
    assert name1 == key[n + 1..];
    assert key == namespace2 + ("-" + name2);
    assert key[n + 1..] == namespace2[n + 1..] + ("-" + name2);
  }

  /** Namespaces without a dash keep keys apart. */
  lemma {:induction false} DashlessNamespacesKeepKeysApart(namespace1: string, name1: string, namespace2: string, name2: string)
    requires BuildKey(namespace1, name1).Some? && BuildKey(namespace1, name1) == BuildKey(namespace2, name2)
    requires '-' !in namespace1 && '-' !in namespace2
    ensures namespace1 == namespace2 && name1 == name2
  {
    KeysCollide(namespace1, name1, namespace2, name2);
    forall r: string ensures namespace2 != namespace1 + "-" + r { assert (namespace1 + "-" + r)[|namespace1|] == '-'; }
    forall r: string ensures namespace1 != namespace2 + "-" + r { assert (namespace2 + "-" + r)[|namespace2|] == '-'; }
  }

  datatype CreateResult = Stored | NoKey | VolumesFailed

  /** A list of the pods under some of the keys, each once. */
  ghost predicate Listed(pods: map<string, Pod>, picked: set<string>, ls: seq<Pod>) {
    && (forall k :: k in pods ==> (pods[k] in ls <==> k in picked))
    && (forall p :: p in ls ==> p in pods.Values)
    && (forall i, j :: 0 <= i < j < |ls| ==> ls[i] != ls[j])
  }

  lemma {:induction false} ListedPush(pods: map<string, Pod>, picked: set<string>, ls: seq<Pod>, k: string)
    requires Listed(pods, picked, ls) && k in pods && k !in picked
    requires forall l :: l in pods && l != k ==> pods[l] != pods[k]
    ensures Listed(pods, picked + {k}, ls + [pods[k]])
  {
  }

  class MockProvider {
    var pods: map<string, Pod>

    /** Every key has a pod of its own, and every pod can be ticked when its turn comes. */
    ghost predicate Valid()
      reads this, pods.Values
    {
      && (forall k, l :: k in pods && l in pods && k != l ==> pods[k] != pods[l])
      && (forall k :: k in pods ==> Tickable(pods[k].specs, pods[k].status))
    }

    constructor ()
      ensures Valid() && pods == map[]
    {
      pods := map[];
    }

    /** The pod is stored before its volumes are set up, and stays stored, pending, if that fails.
        The arrivals are those of a finished run of the containers' goroutines. */
    method CreatePod(pod: Pod, disk: Volumes.Disk, env: Volumes.Env, volumes: seq<Volumes.Volume>,
        arrivals: seq<ContainerStatus>, startTime: Time, podIP: string,
        ghost outcomes: seq<FanIn.Outcome>, ghost silent: seq<bool>, ghost actions: seq<FanIn.Action>)
      returns (r: CreateResult)
      requires Valid() && pod !in pods.Values && Arriving(pod.status)
      requires Startup.GoodOutcomes(pod.specs, outcomes, silent)
      requires FanIn.Runs(FanIn.Start(outcomes), actions) && FanIn.Stuck(FanIn.Exec(FanIn.Start(outcomes), actions))
      requires arrivals == FanIn.Exec(FanIn.Start(outcomes), actions).received
      modifies this, pod`status, disk
      ensures Valid()
      ensures r == if BuildKey(pod.namespace, pod.name).None? then NoKey
                   else if forall i :: 0 <= i < |volumes| ==> Volumes.VolumeEffect(env, volumes[i]).Effect? then Stored
                   else VolumesFailed
      ensures r.NoKey? ==> pods == old(pods) && disk.files == old(disk.files)
      ensures !r.NoKey? ==> pods == old(pods)[BuildKey(pod.namespace, pod.name).value := pod]
      ensures r.Stored? ==> disk.files == old(disk.files) + Volumes.AllFiles(env, volumes)
      ensures pod.status == if r.Stored? then Created(old(pod.status), arrivals, startTime, podIP) else old(pod.status)
      ensures r.NoKey? <==> pod.namespace == "" || pod.name == ""
      ensures r.Stored? ==> pod.status.startTime == Some(startTime) && pod.status.containers == arrivals
      ensures r.Stored? ==> pod.status.podIP == if pod.status.phase.PhaseRunning? then podIP else old(pod.status.podIP)
      ensures r.Stored? ==> forall c :: c in pod.status.conditions ==> c.lastTransition == startTime
      ensures r.Stored? ==>
        pod.status.reason == if pod.status.phase.PhaseRunning? then "Running" else "AllContainersStartFailed"
      ensures r.Stored? ==>
        pod.status.phase == if exists i :: 0 <= i < |outcomes| && !outcomes[i].error then PhaseRunning else PodTypes.Failed
    {
      var key := BuildKey(pod.namespace, pod.name);
      if key.None? { return NoKey; }
      pods := pods[key.value := pod];
      var ready, directories := disk.Volumes(env, volumes);
      if !ready { return VolumesFailed; }
      Startup.CreatedPhase(pod.specs, outcomes, silent, actions, pod.status, startTime, podIP);
      pod.Launch(arrivals, startTime, podIP);
      r := Stored;
    }

    /** A pod in the store leaves it; nothing here depends on what its teardown returned. */
    method DeletePod(pod: Pod, now: Time) returns (found: bool)
      requires Valid()
      requires forall k :: k in pods && pods[k] == pod ==> BuildKey(pod.namespace, pod.name) == Some(k)
      modifies this, pod
      ensures Valid()
      ensures var key := BuildKey(pod.namespace, pod.name);
        && found == (key.Some? && key.value in old(pods))
        && (found ==> pods == old(pods) - {key.value})
        && (found ==> pod.status == old(pod.status).(phase := Unknown, reason := "ManuallyDeleted", message := "Pod has been deleted"))
        && (found ==> pod.deletion == Some(now))
      ensures !found ==> pods == old(pods) && pod.status == old(pod.status) && pod.deletion == old(pod.deletion)
    {
      var key := BuildKey(pod.namespace, pod.name);
      if key.None? || key.value !in pods { return false; }
      pods := pods - {key.value};
      pod.status := pod.status.(phase := Unknown, reason := "ManuallyDeleted", message := "Pod has been deleted");
      pod.deletion := Some(now);
      found := true;
    }

    /** One round: every pod that has not settled is ticked in place, in whatever order the map
        gives them, and exactly those are returned. */
    method GetPods(env: string -> TickEnv) returns (ls: seq<Pod>)
      requires Valid()
      modifies pods.Values
      ensures Valid()
      ensures forall k :: k in pods ==> pods[k].status == Poll(pods[k].specs, old(pods[k].status), env(k))
      ensures forall k :: k in pods ==> (pods[k] in ls <==> old(pods[k].status.phase) !in {PodTypes.Failed, Succeeded, Pending})
      ensures forall i, j :: 0 <= i < j < |ls| ==> ls[i] != ls[j]
    {
      ls := [];
      var todo := pods.Keys;
      ghost var picked: set<string> := {};
      while todo != {}
        invariant todo <= pods.Keys
        invariant forall k :: k in todo ==> pods[k].status == old(pods[k].status)
        invariant forall k :: k in pods && k !in todo ==> pods[k].status == Poll(pods[k].specs, old(pods[k].status), env(k))
        invariant forall k :: k in pods ==> (k in picked <==> k !in todo && !Settled(old(pods[k].status.phase)))
        invariant Listed(pods, picked, ls)
        decreases todo
      {
        var k :| k in todo;
        todo := todo - {k};
        if !Settled(pods[k].status.phase) {
          ListedPush(pods, picked, ls, k);
          picked := picked + {k};
        }
        ls := Visit(pods[k], env(k), ls);
      }
    }

    /** The body of the loop. */
    static method Visit(pod: Pod, env: TickEnv, ls: seq<Pod>) returns (more: seq<Pod>)
      requires Tickable(pod.specs, pod.status)
      modifies pod
      ensures pod.status == Poll(pod.specs, old(pod.status), env)
      ensures more == if Settled(old(pod.status.phase)) then ls else ls + [pod]
    {
      more := ls;
      if Settled(pod.status.phase) { return; }
      pod.CreatePodStatusFromContainerStatus(env);
      more := ls + [pod];
    }
  }

  /** Once a round leaves a pod settled, no later round selects or changes it. */
  method SettledPodsAreNeverSelected(p: MockProvider, key: string, envs: seq<string -> TickEnv>)
    returns (rounds: seq<seq<Pod>>)
    requires p.Valid() && key in p.pods && Settled(p.pods[key].status.phase)
    modifies p.pods.Values
    ensures p.pods == old(p.pods) && p.pods[key].status == old(p.pods[key].status)
    ensures |rounds| == |envs| && forall i :: 0 <= i < |rounds| ==> p.pods[key] !in rounds[i]
  {
    rounds := [];
    for i := 0 to |envs|
      invariant p.Valid() && p.pods[key].status == old(p.pods[key].status)
      invariant |rounds| == i && forall j :: 0 <= j < i ==> p.pods[key] !in rounds[j]
    {
      var ls := p.GetPods(envs[i]);
      rounds := rounds + [ls];
    }
  }
}
