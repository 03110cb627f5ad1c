/** Which samples the collected map holds, and with which values, in terms of what was looked up. */
module MetricsSamples {
  import opened Collections
  import opened PodTypes
  import opened Metrics
  import opened MetricsProperties

  // ---------- Values ----------

  /** The processor time of a group; nothing if it could not be looked up. */
  function TimeOf(usage: int -> Option<Usage>): int -> real {
    (pgid: int) => if usage(pgid).None? then 0.0 else usage(pgid).value.user + usage(pgid).value.system
  }

  function MemoryOf(usage: int -> Option<Usage>): int -> real {
    (pgid: int) => if usage(pgid).None? then 0.0 else usage(pgid).value.memory
  }

  lemma {:induction false} TotalIsSum(groups: seq<int>, usage: int -> Option<Usage>)
    ensures Total(groups, usage) == Value(RealSum(TimeOf(usage), groups), RealSum(MemoryOf(usage), groups))
  {
    if groups != [] {
      var n := |groups| - 1;
      TotalIsSum(groups[..n], usage);
      RealSumWithoutOne(TimeOf(usage), groups, n);
      RealSumWithoutOne(MemoryOf(usage), groups, n);
      assert groups[..n] + groups[n + 1..] == groups[..n];
    }
  }

  /** The order has each group that some container's file names, once, and no other. */
  ghost predicate NamesOnce(order: seq<int>, containers: seq<Container>) {
    forall pgid :: multiset(order)[pgid] == if Named(containers, pgid) then 1 else 0
  }

  /** A pod's values are the sums over the distinct groups its containers' files name, in any order; a
      group that could not be looked up adds nothing. */
  lemma {:induction false} PodValue(containers: seq<Container>, usage: int -> Option<Usage>, order: seq<int>)
    requires Readable(containers) && NamesOnce(order, containers)
    ensures Total(Groups(containers), usage) == Value(RealSum(TimeOf(usage), order), RealSum(MemoryOf(usage), order))
  {
    forall pgid ensures multiset(Groups(containers))[pgid] == multiset(order)[pgid] { EachGroupOnce(containers, pgid); }
    assert multiset(Groups(containers)) == multiset(order);
    TotalIsSum(Groups(containers), usage);
    RealSumOfPermutation(TimeOf(usage), Groups(containers), order);
    RealSumOfPermutation(MemoryOf(usage), Groups(containers), order);
  }

  /** The group label of a container: the group its own file names, if no two containers share a name. */
  lemma {:induction false} GroupOfContainer(containers: seq<Container>, k: nat)
    requires Readable(containers) && k < |containers|
    requires forall i, j :: 0 <= i < j < |containers| ==> containers[i].name != containers[j].name
    ensures containers[k].name in GroupByName(containers)
    ensures GroupByName(containers)[containers[k].name] == containers[k].podRead.value
  {
    var n := |containers| - 1;
    if k < n {
      assert containers[..n][k] == containers[k];
      GroupOfContainer(containers[..n], k);
    }
  }

  // ---------- Membership ----------

  lemma {:induction false} MetricsOfMembers(entries: seq<Entry>, family: string, m: Metric)
    ensures m in MetricsOf(entries, family) <==> Entry(family, m) in entries
  {
    if entries != [] {
      var front, last := entries[..|entries| - 1], entries[|entries| - 1];
      MetricsOfMembers(front, family, m);
      assert entries == front + [last];
    }
  }

  lemma {:induction false} EntriesMembers(node: string, usage: Option<Usage>, pods: seq<Pod>, e: Entry)
    ensures e in AllEntries(node, usage, pods) <==>
      e in NodeEntries(node, usage) || exists p :: 0 <= p < |pods| && e in PodEntries(node, pods[p])
  {
    FlatMapMembers(PodEntriesOn(node), pods, e);
    assert forall p :: 0 <= p < |pods| ==> PodEntriesOn(node)(pods[p]) == PodEntries(node, pods[p]);
  }

  /** The container is not terminated and both its lookups work. */
  predicate Answers(pod: Pod, c: Container) { !IsTerminated(pod, c) && c.ownRead.Some? && c.usage.Some? }

  /** The container answers, and so did every earlier one that is not terminated. */
  ghost predicate Reached(pod: Pod, containers: seq<Container>, k: nat) {
    && k < |containers| && Answers(pod, containers[k])
    && forall j :: 0 <= j < k ==> IsTerminated(pod, containers[j]) || Answers(pod, containers[j])
  }

  lemma {:induction false} ReachedLater(pod: Pod, containers: seq<Container>, k: nat)
    requires containers != [] && (IsTerminated(pod, containers[0]) || Answers(pod, containers[0]))
    ensures Reached(pod, containers[1..], k) <==> Reached(pod, containers, k + 1)
  {
    assert forall j :: 0 <= j < |containers| - 1 ==> containers[1..][j] == containers[j + 1];
    if Reached(pod, containers[1..], k) {
      forall j | 0 <= j < k + 1 ensures IsTerminated(pod, containers[j]) || Answers(pod, containers[j]) {
        if j > 0 { assert containers[1..][j - 1] == containers[j]; }
      }
    }
  }

  lemma {:induction false} ContainersMembers(node: string, pod: Pod, containers: seq<Container>, groups: map<string, int>, e: Entry)
    ensures e in ContainersEntries(node, pod, containers, groups) <==>
      exists k: nat :: Reached(pod, containers, k) && e in ContainerEntries(node, pod, containers[k], groups)
  {
    if containers != [] {
      ContainersMembers(node, pod, containers[1..], groups, e);
      if IsTerminated(pod, containers[0]) || Answers(pod, containers[0]) {
        forall k: nat ensures Reached(pod, containers[1..], k) <==> Reached(pod, containers, k + 1) { ReachedLater(pod, containers, k); }
        if k: nat :| Reached(pod, containers[1..], k) && e in ContainerEntries(node, pod, containers[1..][k], groups) {
          assert Reached(pod, containers, k + 1) && containers[k + 1] == containers[1..][k];
        }
        if k: nat :| Reached(pod, containers, k) && e in ContainerEntries(node, pod, containers[k], groups) {
          if k > 0 { assert Reached(pod, containers[1..], k - 1) && containers[k] == containers[1..][k - 1]; }
        }
        if Answers(pod, containers[0]) { assert Reached(pod, containers, 0); }
      }
    }
  }

  /** The samples of different resources go to different families. */
  lemma {:induction false} ResourcesApart()
    ensures forall a, b | a in {"node", "pod", "container"} && b in {"node", "pod", "container"} ::
      && (a + CPU_SUFFIX == b + CPU_SUFFIX <==> a == b)
      && (a + MEMORY_SUFFIX == b + MEMORY_SUFFIX <==> a == b)
      && a + CPU_SUFFIX != b + MEMORY_SUFFIX
  {
    forall a, b | a in {"node", "pod", "container"} && b in {"node", "pod", "container"}
      ensures (a + CPU_SUFFIX == b + CPU_SUFFIX <==> a == b) && (a + MEMORY_SUFFIX == b + MEMORY_SUFFIX <==> a == b)
      ensures a + CPU_SUFFIX != b + MEMORY_SUFFIX
    {
      FamilyNames(a, b);
    }
  }

  // ---------- Pods ----------

  /** A sample of the collected map. */
  ghost predicate Collected(node: string, usage: Option<Usage>, pods: seq<Pod>, family: string, m: Metric) {
    m in FamilyOf(PutAll(map[], AllEntries(node, usage, pods)), family)
  }

  lemma {:induction false} CollectedIff(node: string, usage: Option<Usage>, pods: seq<Pod>, family: string, m: Metric)
    ensures Collected(node, usage, pods, family, m) <==>
      Entry(family, m) in NodeEntries(node, usage) || exists p :: 0 <= p < |pods| && Entry(family, m) in PodEntries(node, pods[p])
  {
    FamilyIs(AllEntries(node, usage, pods), family);
    MetricsOfMembers(AllEntries(node, usage, pods), family, m);
    EntriesMembers(node, usage, pods, Entry(family, m));
  }

  /** The node's pair of samples: its times and memory, or zeros if they could not be looked up. */
  lemma {:induction false} NodeIsSampled(node: string, usage: Option<Usage>, pods: seq<Pod>)
    ensures var labels := Labels(node, None, None, None, None);
      && Collected(node, usage, pods, "node" + CPU_SUFFIX,
           Counter(labels, if usage.Some? then usage.value.user + usage.value.system else 0.0))
      && Collected(node, usage, pods, "node" + MEMORY_SUFFIX,
           Gauge(labels, if usage.Some? then usage.value.memory else 0.0))
  {
    var labels := Labels(node, None, None, None, None);
    CollectedIff(node, usage, pods, "node" + CPU_SUFFIX,
      Counter(labels, if usage.Some? then usage.value.user + usage.value.system else 0.0));
    CollectedIff(node, usage, pods, "node" + MEMORY_SUFFIX, Gauge(labels, if usage.Some? then usage.value.memory else 0.0));
  }

  /** Every running pod whose group files can all be read has its pair of samples, with its sums. */
  lemma {:induction false} PodIsSampled(node: string, usage: Option<Usage>, pods: seq<Pod>, p: nat, order: seq<int>)
    requires p < |pods| && pods[p].phase.PhaseRunning? && Readable(pods[p].containers) && NamesOnce(order, pods[p].containers)
    ensures var labels := Labels(node, Some(pods[p].namespace), Some(pods[p].name), None, None);
      && Collected(node, usage, pods, "pod" + CPU_SUFFIX, Counter(labels, RealSum(TimeOf(pods[p].usage), order)))
      && Collected(node, usage, pods, "pod" + MEMORY_SUFFIX, Gauge(labels, RealSum(MemoryOf(pods[p].usage), order)))
  {
    var labels := Labels(node, Some(pods[p].namespace), Some(pods[p].name), None, None);
    var value := Total(Groups(pods[p].containers), pods[p].usage);
    PodValue(pods[p].containers, pods[p].usage, order);
    FirstTwo(Pair("pod", labels, value), ContainersEntries(node, pods[p], pods[p].containers, GroupByName(pods[p].containers)));
    CollectedIff(node, usage, pods, "pod" + CPU_SUFFIX, Counter(labels, value.cpu));
    CollectedIff(node, usage, pods, "pod" + MEMORY_SUFFIX, Gauge(labels, value.memory));
  }

  lemma {:induction false} FirstTwo<T>(pair: seq<T>, more: seq<T>)
    requires |pair| == 2
    ensures pair[0] in pair + more && pair[1] in pair + more
  {
    assert (pair + more)[0] == pair[0] && (pair + more)[1] == pair[1];
  }

  // ---------- Containers ----------

  /** The pod and container give a sample: the pod is running and readable, and the container is reached. */
  ghost predicate Gives(pods: seq<Pod>, p: nat, k: nat) {
    && p < |pods| && pods[p].phase.PhaseRunning? && Readable(pods[p].containers)
    && Reached(pods[p], pods[p].containers, k)
  }

  ghost predicate DistinctContainers(pods: seq<Pod>) {
    forall p, i, j :: 0 <= p < |pods| && 0 <= i < j < |pods[p].containers| ==> pods[p].containers[i].name != pods[p].containers[j].name
  }

  function SampleLabels(node: string, pod: Pod, c: Container): Labels
    requires c.podRead.Some?
  {
    Labels(node, Some(pod.namespace), Some(pod.name), Some(c.name), Some(c.podRead.value))
  }

  /** The entries of one resource's family that a pod contributes to container families. */
  lemma {:induction false} ContainerEntryOfPod(node: string, pods: seq<Pod>, p: nat, e: Entry)
    requires p < |pods| && (e.family == "container" + CPU_SUFFIX || e.family == "container" + MEMORY_SUFFIX)
    ensures e in PodEntries(node, pods[p]) <==>
      exists k: nat :: Gives(pods, p, k) && e in ContainerEntries(node, pods[p], pods[p].containers[k], GroupByName(pods[p].containers))
  {
    ResourcesApart();
    if pods[p].phase.PhaseRunning? && Readable(pods[p].containers) {
      ContainersMembers(node, pods[p], pods[p].containers, GroupByName(pods[p].containers), e);
      forall k: nat ensures Gives(pods, p, k) <==> Reached(pods[p], pods[p].containers, k) {}
    }
  }

  /** The CPU samples of containers are exactly those of the containers that are reached in running,
      readable pods: labelled with node, pod, container and the group its file names, and valued with its
      times and the small start value. */
  lemma {:induction false} ContainerCpuSamplesAre(node: string, usage: Option<Usage>, pods: seq<Pod>, m: Metric)
    requires DistinctContainers(pods)
    ensures Collected(node, usage, pods, "container" + CPU_SUFFIX, m) <==>
      exists p: nat, k: nat :: Gives(pods, p, k) && m == CpuSample(node, pods, p, k)
  {
    var e := Entry("container" + CPU_SUFFIX, m);
    ResourcesApart();
    CollectedIff(node, usage, pods, e.family, m);
    forall p: nat | p < |pods|
      ensures e in PodEntries(node, pods[p]) <==> exists k: nat :: Gives(pods, p, k) && m == CpuSample(node, pods, p, k)
    {
      ContainerEntryOfPod(node, pods, p, e);
      forall k: nat | Gives(pods, p, k) { CpuSampleEntry(node, pods, p, k, m); }
    }
  }

  lemma {:induction false} CpuSampleEntry(node: string, pods: seq<Pod>, p: nat, k: nat, m: Metric)
    requires DistinctContainers(pods) && Gives(pods, p, k)
    ensures Entry("container" + CPU_SUFFIX, m) in ContainerEntries(node, pods[p], pods[p].containers[k], GroupByName(pods[p].containers))
      <==> m == CpuSample(node, pods, p, k)
  {
    ResourcesApart();
    GroupOfContainer(pods[p].containers, k);
  }

  ghost function CpuSample(node: string, pods: seq<Pod>, p: nat, k: nat): Metric
    requires Gives(pods, p, k)
  {
    var c := pods[p].containers[k];
    Counter(SampleLabels(node, pods[p], c), c.usage.value.user + c.usage.value.system + 0.0000001)
  }

  /** And so are the memory samples. */
  lemma {:induction false} ContainerMemorySamplesAre(node: string, usage: Option<Usage>, pods: seq<Pod>, m: Metric)
    requires DistinctContainers(pods)
    ensures Collected(node, usage, pods, "container" + MEMORY_SUFFIX, m) <==>
      exists p: nat, k: nat :: Gives(pods, p, k) && m == MemorySample(node, pods, p, k)
  {
    var e := Entry("container" + MEMORY_SUFFIX, m);
    ResourcesApart();
    CollectedIff(node, usage, pods, e.family, m);
    forall p: nat | p < |pods|
      ensures e in PodEntries(node, pods[p]) <==> exists k: nat :: Gives(pods, p, k) && m == MemorySample(node, pods, p, k)
    {
      ContainerEntryOfPod(node, pods, p, e);
      forall k: nat | Gives(pods, p, k) { MemorySampleEntry(node, pods, p, k, m); }
    }
  }

  lemma {:induction false} MemorySampleEntry(node: string, pods: seq<Pod>, p: nat, k: nat, m: Metric)
    requires DistinctContainers(pods) && Gives(pods, p, k)
    ensures Entry("container" + MEMORY_SUFFIX, m) in ContainerEntries(node, pods[p], pods[p].containers[k], GroupByName(pods[p].containers))
      <==> m == MemorySample(node, pods, p, k)
  {
    ResourcesApart();
    GroupOfContainer(pods[p].containers, k);
  }

  ghost function MemorySample(node: string, pods: seq<Pod>, p: nat, k: nat): Metric
    requires Gives(pods, p, k)
  {
    var c := pods[p].containers[k];
    Gauge(SampleLabels(node, pods[p], c), c.usage.value.memory + 0.0000001)
  }
}
