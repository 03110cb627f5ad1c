/** What the collected families contain, whatever fails on the way and whatever order pods come in. */
module MetricsProperties {
  import opened Collections
  import opened PodTypes
  import opened Metrics

  /** The samples that go to a family, in the order they were added. */
  function MetricsOf(entries: seq<Entry>, family: string): seq<Metric> {
    if entries == [] then []
    else
      MetricsOf(entries[..|entries| - 1], family)
      + if entries[|entries| - 1].family == family then [entries[|entries| - 1].metric] else []
  }

  lemma {:induction false} MetricsOfAppend(some: seq<Entry>, more: seq<Entry>, family: string)
    ensures MetricsOf(some + more, family) == MetricsOf(some, family) + MetricsOf(more, family)
  {
    if more == [] {
      assert some + more == some;
    } else {
      MetricsOfAppend(some, more[..|more| - 1], family);
      assert (some + more)[..|some + more| - 1] == some + more[..|more| - 1];
    }
  }

  /** The map holds exactly the entries: each family lists its own, and there are no others. */
  lemma {:induction false} FamilyHoldsItsEntries(entries: seq<Entry>, family: string)
    ensures family in PutAll(map[], entries) <==> exists k :: 0 <= k < |entries| && entries[k].family == family
    ensures family in PutAll(map[], entries) ==> PutAll(map[], entries)[family] == MetricsOf(entries, family)
    ensures family !in PutAll(map[], entries) ==> MetricsOf(entries, family) == []
  {
    if entries != [] {
      var n := |entries| - 1;
      FamilyHoldsItsEntries(entries[..n], family);
      if family in PutAll(map[], entries[..n]) {
        var k :| 0 <= k < n && entries[..n][k].family == family;
        assert entries[k].family == family;
      } else if k :| 0 <= k < |entries| && entries[k].family == family {
        if k < n { assert entries[..n][k].family == family; }
      }
    }
  }

  // ---------- Failures remove nothing ----------

  lemma {:induction false} AllEntriesAppend(node: string, usage: Option<Usage>, pods: seq<Pod>, more: seq<Pod>)
    ensures AllEntries(node, usage, pods + more) == AllEntries(node, usage, pods) + FlatMap(PodEntriesOn(node), more)
  {
    FlatMapAppendAfter(NodeEntries(node, usage), PodEntriesOn(node), pods, more);
  }

  /** Whatever pods come later, running or not, readable or not, every sample already collected
      stays where it is. */
  lemma {:induction false} LaterPodsRemoveNothing(node: string, usage: Option<Usage>, pods: seq<Pod>, more: seq<Pod>, family: string)
    ensures MetricsOf(AllEntries(node, usage, pods), family) <= MetricsOf(AllEntries(node, usage, pods + more), family)
  {
    AllEntriesAppend(node, usage, pods, more);
    var some := AllEntries(node, usage, pods);
    MetricsOfAppend(some, FlatMap(PodEntriesOn(node), more), family);
  }

  lemma {:induction false} EmptyPodLeavesNoTrace(node: string, usage: Option<Usage>, pods: seq<Pod>, failed: Pod, more: seq<Pod>)
    requires PodEntries(node, failed) == []
    ensures AllEntries(node, usage, pods + [failed] + more) == AllEntries(node, usage, pods + more)
  {
    AllEntriesAppend(node, usage, pods + [failed], more);
    AllEntriesAppend(node, usage, pods, more);
    AllEntriesPush(node, usage, pods, failed);
    assert AllEntries(node, usage, pods) + [] == AllEntries(node, usage, pods);
  }

  /** A pod that is not running, or one of whose group files cannot be read, changes nothing at all. */
  lemma {:induction false} FailedPodLeavesNoTrace(node: string, usage: Option<Usage>, pods: seq<Pod>, failed: Pod, more: seq<Pod>)
    requires failed.phase != PhaseRunning || !Readable(failed.containers)
    ensures AllEntries(node, usage, pods + [failed] + more) == AllEntries(node, usage, pods + more)
  {
    EmptyPodLeavesNoTrace(node, usage, pods, failed, more);
  }

  /** A container is sampled exactly when it is not terminated, its helper works, and so did every
      earlier one that was not terminated: the first failure ends the pod's list. */
  lemma {:induction false} FirstFailureEndsTheList(node: string, pod: Pod, some: seq<Container>, c: Container, more: seq<Container>, groups: map<string, int>)
    requires forall k :: 0 <= k < |some| ==> IsTerminated(pod, some[k]) || !Fails(some[k])
    ensures ContainersEntries(node, pod, some + [c] + more, groups)
         == ContainersEntries(node, pod, some, groups)
          + if IsTerminated(pod, c) then ContainersEntries(node, pod, more, groups)
            else if Fails(c) then []
            else ContainerEntries(node, pod, c, groups) + ContainersEntries(node, pod, more, groups)
  {
    if some == [] {
      assert some + [c] + more == [c] + more && ([c] + more)[1..] == more;
    } else {
      FirstFailureEndsTheList(node, pod, some[1..], c, more, groups);
      assert (some + [c] + more)[1..] == some[1..] + [c] + more;
    }
  }

  lemma {:induction false} AppendUniqueOnce(xs: seq<int>, x: int, pgid: int)
    ensures multiset(AppendUnique(xs, x))[pgid] == if pgid == x && x !in xs then 1 else multiset(xs)[pgid]
  {
    assert pgid !in xs ==> multiset(xs)[pgid] == 0;
  }

  /** Some container's file names the group. */
  predicate Named(containers: seq<Container>, pgid: int) {
    exists k :: 0 <= k < |containers| && containers[k].podRead == Some(pgid)
  }

  lemma {:induction false} NamedPush(containers: seq<Container>, pgid: int)
    requires containers != []
    ensures Named(containers, pgid) <==>
      Named(containers[..|containers| - 1], pgid) || containers[|containers| - 1].podRead == Some(pgid)
  {
    var front := containers[..|containers| - 1];
    if k :| 0 <= k < |front| && front[k].podRead == Some(pgid) { assert containers[k].podRead == Some(pgid); }
    if k :| 0 <= k < |containers| && containers[k].podRead == Some(pgid) {
      if k < |front| { assert front[k].podRead == Some(pgid); }
    }
  }

  /** Every process group that some container's file names is counted, and counted once. */
  lemma {:induction false} EachGroupOnce(containers: seq<Container>, pgid: int)
    requires Readable(containers)
    ensures multiset(Groups(containers))[pgid] == if Named(containers, pgid) then 1 else 0
  {
    if containers != [] {
      var n := |containers| - 1;
      EachGroupOnce(containers[..n], pgid);
      AppendUniqueOnce(Groups(containers[..n]), containers[n].podRead.value, pgid);
      assert pgid in Groups(containers[..n]) <==> multiset(Groups(containers[..n]))[pgid] > 0;
      NamedPush(containers, pgid);
    }
  }

  // ---------- Types and counts ----------

  /** A counter for a CPU family and a gauge for the memory family beside it. */
  ghost predicate Twins(cpu: Entry, memory: Entry, resource: string) {
    && cpu.family == resource + CPU_SUFFIX && cpu.metric.Counter?
    && memory.family == resource + MEMORY_SUFFIX && memory.metric.Gauge?
  }

  ghost predicate AreTwins(cpu: Entry, memory: Entry) { exists resource :: Twins(cpu, memory, resource) }

  /** Samples come in such pairs. */
  ghost predicate Paired(entries: seq<Entry>) {
    entries == [] ||
    (var n := |entries| - 2;
     n >= 0 && AreTwins(entries[n], entries[n + 1]) && Paired(entries[..n]))
  }

  lemma {:induction false} PairedAppend(some: seq<Entry>, more: seq<Entry>)
    requires Paired(some) && Paired(more)
    ensures Paired(some + more)
  {
    if more == [] {
      assert some + more == some;
    } else {
      var n := |more| - 2;
      PairedAppend(some, more[..n]);
      assert (some + more)[..|some| + n] == some + more[..n];
    }
  }

  lemma {:induction false} PairIsPaired(resource: string, labels: Labels, value: Value)
    ensures Paired(Pair(resource, labels, value))
  {
    var p := Pair(resource, labels, value);
    assert Twins(p[0], p[1], resource) && p[..0] == [];
  }

  lemma {:induction false} ContainersPaired(node: string, pod: Pod, containers: seq<Container>, groups: map<string, int>)
    ensures Paired(ContainersEntries(node, pod, containers, groups))
  {
    if containers != [] {
      ContainersPaired(node, pod, containers[1..], groups);
      if !IsTerminated(pod, containers[0]) && !Fails(containers[0]) {
        var c := containers[0];
        PairIsPaired("container", ContainerLabels(node, pod, c, groups),
                     Value(c.usage.value.user + c.usage.value.system + SMALL, c.usage.value.memory + SMALL));
        PairedAppend(ContainerEntries(node, pod, c, groups), ContainersEntries(node, pod, containers[1..], groups));
      }
    }
  }

  lemma {:induction false} PodPaired(node: string, pod: Pod)
    ensures Paired(PodEntries(node, pod))
  {
    if pod.phase.PhaseRunning? && Readable(pod.containers) {
      var labels, total := Labels(node, Some(pod.namespace), Some(pod.name), None, None), Total(Groups(pod.containers), pod.usage);
      PairIsPaired("pod", labels, total);
      ContainersPaired(node, pod, pod.containers, GroupByName(pod.containers));
      PairedAppend(Pair("pod", labels, total), ContainersEntries(node, pod, pod.containers, GroupByName(pod.containers)));
    }
  }

  lemma {:induction false} PodsPaired(node: string, pods: seq<Pod>)
    ensures Paired(FlatMap(PodEntriesOn(node), pods))
  {
    if pods != [] {
      var front, last := pods[..|pods| - 1], pods[|pods| - 1];
      PodsPaired(node, front);
      PodPaired(node, last);
      PairedAppend(FlatMap(PodEntriesOn(node), front), PodEntries(node, last));
    }
  }

  lemma {:induction false} AllPaired(node: string, usage: Option<Usage>, pods: seq<Pod>)
    ensures Paired(AllEntries(node, usage, pods))
  {
    PairIsPaired("node", Labels(node, None, None, None, None), 
      if usage.Some? then Value(usage.value.user + usage.value.system, usage.value.memory) else Value(0.0, 0.0));
    PodsPaired(node, pods);
    PairedAppend(NodeEntries(node, usage), FlatMap(PodEntriesOn(node), pods));
  }

  lemma {:induction false} SuffixTypes(resource: string)
    ensures GetMetricType(resource + CPU_SUFFIX) == Some(CounterType)
    ensures GetMetricType(resource + MEMORY_SUFFIX) == Some(GaugeType)
  {
    var cpu, memory := resource + CPU_SUFFIX, resource + MEMORY_SUFFIX;
    assert cpu[|cpu| - |CPU_SUFFIX|..] == CPU_SUFFIX;
    assert memory[|memory| - |MEMORY_SUFFIX|..] == MEMORY_SUFFIX;
    assert memory[|memory| - 1] == 's' && CPU_SUFFIX[|CPU_SUFFIX| - 1] == 'l';
    assert memory[|memory| - |CPU_SUFFIX|..][|CPU_SUFFIX| - 1] == 's';
  }

  /** A name has the CPU suffix after one resource only, and never both suffixes. */
  lemma {:induction false} FamilyNames(resource: string, other: string)
    ensures resource + CPU_SUFFIX == other + CPU_SUFFIX <==> resource == other
    ensures resource + MEMORY_SUFFIX == other + MEMORY_SUFFIX <==> resource == other
    ensures resource + CPU_SUFFIX != other + MEMORY_SUFFIX
  {
    assert (resource + CPU_SUFFIX)[..|resource|] == resource && (other + CPU_SUFFIX)[..|other|] == other;
    assert (resource + MEMORY_SUFFIX)[..|resource|] == resource && (other + MEMORY_SUFFIX)[..|other|] == other;
    SuffixTypes(resource);
    SuffixTypes(other);
  }

  lemma {:induction false} LastPair(front: seq<Entry>, cpu: Entry, memory: Entry, r: string, resource: string)
    requires Twins(cpu, memory, r)
    ensures MetricsOf(front + [cpu, memory], resource + CPU_SUFFIX)
         == MetricsOf(front, resource + CPU_SUFFIX) + if r == resource then [cpu.metric] else []
    ensures MetricsOf(front + [cpu, memory], resource + MEMORY_SUFFIX)
         == MetricsOf(front, resource + MEMORY_SUFFIX) + if r == resource then [memory.metric] else []
  {
    FamilyNames(r, resource);
    FamilyNames(resource, r);
    assert (front + [cpu, memory])[..|front| + 1] == front + [cpu] && (front + [cpu])[..|front|] == front;
  }

  /** Counters only in CPU families, gauges only in memory families, as many of one as of the other. */
  lemma {:induction false} PairedFamilies(entries: seq<Entry>, resource: string)
    requires Paired(entries)
    ensures |MetricsOf(entries, resource + CPU_SUFFIX)| == |MetricsOf(entries, resource + MEMORY_SUFFIX)|
    ensures forall k :: 0 <= k < |MetricsOf(entries, resource + CPU_SUFFIX)| ==> MetricsOf(entries, resource + CPU_SUFFIX)[k].Counter?
    ensures forall k :: 0 <= k < |MetricsOf(entries, resource + MEMORY_SUFFIX)| ==> MetricsOf(entries, resource + MEMORY_SUFFIX)[k].Gauge?
  {
    if entries != [] {
      var n := |entries| - 2;
      PairedFamilies(entries[..n], resource);
      var r :| Twins(entries[n], entries[n + 1], r);
      LastPair(entries[..n], entries[n], entries[n + 1], r, resource);
      assert entries[..n] + [entries[n], entries[n + 1]] == entries;
    }
  }

  lemma {:induction false} FamilyOfEntry(entries: seq<Entry>, k: nat) returns (resource: string)
    requires Paired(entries) && k < |entries|
    ensures entries[k].family == resource + CPU_SUFFIX || entries[k].family == resource + MEMORY_SUFFIX
  {
    var n := |entries| - 2;
    if k < n {
      resource := FamilyOfEntry(entries[..n], k);
    } else {
      resource :| Twins(entries[n], entries[n + 1], resource);
    }
  }

  /** Every family of the result has a type, and holds only samples of its type. */
  lemma {:induction false} EveryFamilyIsTyped(node: string, usage: Option<Usage>, pods: seq<Pod>, res: seq<Family>, k: nat)
    requires Lists(res, PutAll(map[], AllEntries(node, usage, pods))) && k < |res|
    ensures res[k].kind.Some? && res[k].metrics == MetricsOf(AllEntries(node, usage, pods), res[k].name)
    ensures forall j :: 0 <= j < |res[k].metrics| ==>
      (res[k].kind.value.CounterType? <==> res[k].metrics[j].Counter?)
  {
    var entries := AllEntries(node, usage, pods);
    AllPaired(node, usage, pods);
    FamilyHoldsItsEntries(entries, res[k].name);
    var i :| 0 <= i < |entries| && entries[i].family == res[k].name;
    var resource := FamilyOfEntry(entries, i);
    SuffixTypes(resource);
    PairedFamilies(entries, resource);
  }

  /** The samples of a family of a map; a family that is not there has none. */
  function FamilyOf(families: map<string, seq<Metric>>, family: string): seq<Metric> {
    if family in families then families[family] else []
  }

  lemma {:induction false} FamilyIs(entries: seq<Entry>, family: string)
    ensures FamilyOf(PutAll(map[], entries), family) == MetricsOf(entries, family)
  {
    FamilyHoldsItsEntries(entries, family);
  }

  /** In the collected map, every resource has as many counters in its CPU family as gauges in its
      memory family, and nothing else in either. */
  lemma {:induction false} CollectedFamiliesArePaired(node: string, usage: Option<Usage>, pods: seq<Pod>, resource: string)
    ensures var families := PutAll(map[], AllEntries(node, usage, pods));
      var cpu, memory := FamilyOf(families, resource + CPU_SUFFIX), FamilyOf(families, resource + MEMORY_SUFFIX);
      && |cpu| == |memory|
      && (forall k :: 0 <= k < |cpu| ==> cpu[k].Counter?)
      && (forall k :: 0 <= k < |memory| ==> memory[k].Gauge?)
  {
    AllPaired(node, usage, pods);
    PairedFamilies(AllEntries(node, usage, pods), resource);
    FamilyIs(AllEntries(node, usage, pods), resource + CPU_SUFFIX);
    FamilyIs(AllEntries(node, usage, pods), resource + MEMORY_SUFFIX);
  }

  // ---------- The order of pods ----------

  function GoesTo(family: string): Entry -> seq<Metric> { (e: Entry) => if e.family == family then [e.metric] else [] }

  lemma {:induction false} MetricsOfIsFlat(entries: seq<Entry>, family: string)
    ensures MetricsOf(entries, family) == FlatMap(GoesTo(family), entries)
  {
    if entries != [] { MetricsOfIsFlat(entries[..|entries| - 1], family); }
  }

  /** The same entries in another order give every family the same samples, in some order. */
  lemma {:induction false} SameEntriesSameFamily(entries: seq<Entry>, others: seq<Entry>, family: string)
    requires multiset(entries) == multiset(others)
    ensures multiset(MetricsOf(entries, family)) == multiset(MetricsOf(others, family))
  {
    MetricsOfIsFlat(entries, family);
    MetricsOfIsFlat(others, family);
    FlatMapBag(GoesTo(family), entries);
    FlatMapBag(GoesTo(family), others);
    BagOfPermutation(Bagged(GoesTo(family)), entries, others);
  }

  /** The pods may come in any order: every family of the collected map holds the same samples. */
  lemma {:induction false} OrderOfPodsIsIrrelevant(node: string, usage: Option<Usage>, pods: seq<Pod>, others: seq<Pod>, family: string)
    requires multiset(pods) == multiset(others)
    ensures multiset(FamilyOf(PutAll(map[], AllEntries(node, usage, pods)), family))
         == multiset(FamilyOf(PutAll(map[], AllEntries(node, usage, others)), family))
  {
    SameEntriesInAnyOrder(node, usage, pods, others);
    SameEntriesSameFamily(AllEntries(node, usage, pods), AllEntries(node, usage, others), family);
    FamilyIs(AllEntries(node, usage, pods), family);
    FamilyIs(AllEntries(node, usage, others), family);
  }

  lemma {:induction false} SameEntriesInAnyOrder(node: string, usage: Option<Usage>, pods: seq<Pod>, others: seq<Pod>)
    requires multiset(pods) == multiset(others)
    ensures multiset(AllEntries(node, usage, pods)) == multiset(AllEntries(node, usage, others))
  {
    FlatMapBag(PodEntriesOn(node), pods);
    FlatMapBag(PodEntriesOn(node), others);
    BagOfPermutation(Bagged(PodEntriesOn(node)), pods, others);
  }
}
