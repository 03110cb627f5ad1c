/**
 * Collecting resource metrics. The map of samples is an object: helpers add to it in place and
 * return it, or return nil; the caller's inner variable shadows the outer one, and both name the
 * same object until a helper returns nil.
 */
module Metrics {
  import opened Collections
  import opened PodTypes

  /** What the system answers of a group or of the node: user and system time, and memory in use. */
  datatype Usage = Usage(user: real, system: real, memory: real)

  /** The values of a pair of samples. */
  datatype Value = Value(cpu: real, memory: real)

  /** The labels of a sample; those a resource does not carry are None. */
  datatype Labels = Labels(node: string, namespace: Option<string>, pod: Option<string>, container: Option<string>, pgid: Option<int>)

  datatype Metric = Counter(labels: Labels, value: real) | Gauge(labels: Labels, value: real)

  datatype MetricType = CounterType | GaugeType

  datatype Family = Family(name: string, kind: Option<MetricType>, metrics: seq<Metric>)

  const CPU_SUFFIX := "_cpu_usage_seconds_total"
  const MEMORY_SUFFIX := "_memory_working_set_bytes"

  /** The value a container's counters start from. */
  const SMALL: real := 0.0000001

  /** A container as its two metric helpers find it: the group file as the pod helper reads it, the
      group file as the container helper reads it, and what the group uses. */
  datatype Container = Container(name: string, podRead: Option<int>, ownRead: Option<int>, usage: Option<Usage>)

  /** A pod in the store; usage is what the pod helper finds of a process group. */
  datatype Pod = Pod(
    namespace: string, name: string, phase: Phase, statuses: seq<ContainerStatus>,
    containers: seq<Container>, usage: int -> Option<Usage>)

  function HasSuffix(s: string, suffix: string): bool {
    |suffix| <= |s| && s[|s| - |suffix|..] == suffix
  }

  function GetMetricType(name: string): Option<MetricType> {
    if HasSuffix(name, CPU_SUFFIX) then Some(CounterType)
    else if HasSuffix(name, MEMORY_SUFFIX) then Some(GaugeType)
    else None
  }

  // ---------- What is collected ----------

  /** A sample and the family it goes to. */
  datatype Entry = Entry(family: string, metric: Metric)

  function Pair(resource: string, labels: Labels, value: Value): seq<Entry> {
    [Entry(resource + CPU_SUFFIX, Counter(labels, value.cpu)), Entry(resource + MEMORY_SUFFIX, Gauge(labels, value.memory))]
  }

  function NodeEntries(node: string, usage: Option<Usage>): seq<Entry> {
    Pair("node", Labels(node, None, None, None, None),
         if usage.Some? then Value(usage.value.user + usage.value.system, usage.value.memory) else Value(0.0, 0.0))
  }

  predicate Readable(containers: seq<Container>) { forall k :: 0 <= k < |containers| ==> containers[k].podRead.Some? }

  function AppendUnique(xs: seq<int>, x: int): seq<int> { if x in xs then xs else xs + [x] }

  /** The process groups of the containers, each once. */
  function Groups(containers: seq<Container>): seq<int>
    requires Readable(containers)
  {
    if containers == [] then []
    else AppendUnique(Groups(containers[..|containers| - 1]), containers[|containers| - 1].podRead.value)
  }

  function GroupByName(containers: seq<Container>): map<string, int>
    requires Readable(containers)
  {
    if containers == [] then map[]
    else
      var last := containers[|containers| - 1];
      GroupByName(containers[..|containers| - 1])[last.name := last.podRead.value]
  }

  /** The sum over groups; one whose usage cannot be read adds nothing. */
  function Total(groups: seq<int>, usage: int -> Option<Usage>): Value {
    if groups == [] then Value(0.0, 0.0)
    else
      var before, last := Total(groups[..|groups| - 1], usage), usage(groups[|groups| - 1]);
      if last.None? then before
      else Value(before.cpu + (last.value.user + last.value.system), before.memory + last.value.memory)
  }

  predicate IsTerminated(pod: Pod, c: Container) {
    Find(pod.statuses, c.name).Some? && Find(pod.statuses, c.name).value.state.Terminated?
  }

  predicate Fails(c: Container) { c.ownRead.None? || c.usage.None? }

  function ContainerLabels(node: string, pod: Pod, c: Container, groups: map<string, int>): Labels {
    Labels(node, Some(pod.namespace), Some(pod.name), Some(c.name), Some(if c.name in groups then groups[c.name] else 0))
  }

  function ContainerEntries(node: string, pod: Pod, c: Container, groups: map<string, int>): seq<Entry>
    requires !Fails(c)
  {
    Pair("container", ContainerLabels(node, pod, c, groups),
         Value(c.usage.value.user + c.usage.value.system + SMALL, c.usage.value.memory + SMALL))
  }

  /** The samples of a pod's containers: terminated ones are passed over, and the first other one
      whose helper fails ends the list. */
  function ContainersEntries(node: string, pod: Pod, containers: seq<Container>, groups: map<string, int>): seq<Entry> {
    if containers == [] then []
    else if IsTerminated(pod, containers[0]) then ContainersEntries(node, pod, containers[1..], groups)
    else if Fails(containers[0]) then []
    else ContainerEntries(node, pod, containers[0], groups) + ContainersEntries(node, pod, containers[1..], groups)
  }

  /** A pod's contribution: nothing unless it is running and all its group files can be read. */
  function PodEntries(node: string, pod: Pod): seq<Entry> {
    if !pod.phase.PhaseRunning? || !Readable(pod.containers) then []
    else
      Pair("pod", Labels(node, Some(pod.namespace), Some(pod.name), None, None), Total(Groups(pod.containers), pod.usage))
      + ContainersEntries(node, pod, pod.containers, GroupByName(pod.containers))
  }

  function PodEntriesOn(node: string): Pod -> seq<Entry> { (pod: Pod) => PodEntries(node, pod) }

  /** The node's samples, then each pod's contribution. */
  function AllEntries(node: string, usage: Option<Usage>, pods: seq<Pod>): seq<Entry> {
    NodeEntries(node, usage) + FlatMap(PodEntriesOn(node), pods)
  }

  lemma {:induction false} AllEntriesPush(node: string, usage: Option<Usage>, pods: seq<Pod>, pod: Pod)
    ensures AllEntries(node, usage, pods + [pod]) == AllEntries(node, usage, pods) + PodEntries(node, pod)
  {
    FlatMapPushAfter(NodeEntries(node, usage), PodEntriesOn(node), pods, pod);
  }

  function Put(families: map<string, seq<Metric>>, e: Entry): map<string, seq<Metric>> {
    families[e.family := (if e.family in families then families[e.family] else []) + [e.metric]]
  }

  /** The map that results from adding entries one by one. */
  function PutAll(families: map<string, seq<Metric>>, entries: seq<Entry>): map<string, seq<Metric>> {
    if entries == [] then families
    else Put(PutAll(families, entries[..|entries| - 1]), entries[|entries| - 1])
  }

  lemma {:induction false} PutAppend(families: map<string, seq<Metric>>, some: seq<Entry>, more: seq<Entry>)
    ensures PutAll(families, some + more) == PutAll(PutAll(families, some), more)
  {
    if more == [] {
      assert some + more == some;
    } else {
      PutAppend(families, some, more[..|more| - 1]);
      assert (some + more)[..|some + more| - 1] == some + more[..|more| - 1];
    }
  }

  lemma {:induction false} PutPair(families: map<string, seq<Metric>>, resource: string, labels: Labels, value: Value)
    ensures PutAll(families, Pair(resource, labels, value))
         == Put(Put(families, Entry(resource + CPU_SUFFIX, Counter(labels, value.cpu))),
                Entry(resource + MEMORY_SUFFIX, Gauge(labels, value.memory)))
  {
    var pair := Pair(resource, labels, value);
    var one := pair[..1];
    assert |pair| == 2 && |one| == 1 && one[0] == pair[0] && one[..0] == [];
    assert PutAll(families, one[..0]) == families;
    assert PutAll(families, one) == Put(families, pair[0]);
    assert PutAll(families, pair) == Put(PutAll(families, one), pair[1]);
  }

  // ---------- The code ----------

  /** The map of samples, by reference. */
  class MetricsMap {
    var families: map<string, seq<Metric>>

    constructor ()
      ensures families == map[]
    {
      families := map[];
    }
  }

  /** Adds a sample to its family in place and returns the same map. */
  method AddMetricToMap(m: MetricsMap, name: string, metric: Metric) returns (r: MetricsMap)
    modifies m
    ensures r == m && m.families == Put(old(m.families), Entry(name, metric))
  {
    if name in m.families {
      m.families := m.families[name := m.families[name] + [metric]];
    } else {
      m.families := m.families[name := [metric]];
      assert [] + [metric] == [metric];
    }
    r := m;
  }

  /** The map the helpers work on: the one they are given, or a new one in place of nil. */
  method AddPair(m: MetricsMap?, resource: string, labels: Labels, value: Value) returns (r: MetricsMap)
    modifies m
    ensures m != null ==> r == m
    ensures m == null ==> fresh(r)
    ensures r.families == PutAll(if m != null then old(m.families) else map[], Pair(resource, labels, value))
  {
    PutPair(if m != null then m.families else map[], resource, labels, value);
    if m == null {
      r := new MetricsMap();
    } else {
      r := m;
    }
    r := AddMetricToMap(r, resource + CPU_SUFFIX, Counter(labels, value.cpu));
    r := AddMetricToMap(r, resource + MEMORY_SUFFIX, Gauge(labels, value.memory));
  }

  method GenerateNodeMetrics(node: string, usage: Option<Usage>) returns (r: MetricsMap)
    ensures fresh(r) && r.families == PutAll(map[], NodeEntries(node, usage))
  {
    var value := Value(0.0, 0.0);
    if usage.Some? { value := Value(usage.value.user + usage.value.system, usage.value.memory); }
    r := AddPair(null, "node", Labels(node, None, None, None, None), value);
  }

  /** Fails as soon as one group file cannot be read. */
  method GetPgidsFromPod(containers: seq<Container>) returns (ok: bool, pgids: seq<int>, pgidMap: map<string, int>)
    ensures ok <==> Readable(containers)
    ensures ok ==> pgids == Groups(containers) && pgidMap == GroupByName(containers)
  {
    pgids, pgidMap := [], map[];
    for k := 0 to |containers|
      invariant Readable(containers[..k])
      invariant pgids == Groups(containers[..k]) && pgidMap == GroupByName(containers[..k])
    {
      if containers[k].podRead.None? { return false, [], map[]; }
      assert containers[..k + 1][..k] == containers[..k];
      var pgid := containers[k].podRead.value;
      pgids := AppendUnique(pgids, pgid);
      pgidMap := pgidMap[containers[k].name := pgid];
    }
    assert containers[..|containers|] == containers;
    ok := true;
  }

  method GeneratePodMetrics(m: MetricsMap?, node: string, pod: Pod) returns (r: MetricsMap?, pgidMap: map<string, int>)
    modifies m
    ensures !Readable(pod.containers) ==> r == null && (m != null ==> m.families == old(m.families))
    ensures Readable(pod.containers) ==>
      && r != null && (m != null ==> r == m) && (m == null ==> fresh(r))
      && pgidMap == GroupByName(pod.containers)
      && r.families == PutAll(if m != null then old(m.families) else map[],
           Pair("pod", Labels(node, Some(pod.namespace), Some(pod.name), None, None), Total(Groups(pod.containers), pod.usage)))
  {
    var ok, pgids, groups := GetPgidsFromPod(pod.containers);
    if !ok { return null, map[]; }
    var value := Value(0.0, 0.0);
    for k := 0 to |pgids|
      invariant value == Total(pgids[..k], pod.usage)
      invariant m != null ==> m.families == old(m.families)
    {
      assert pgids[..k + 1][..k] == pgids[..k];
      var used := pod.usage(pgids[k]);
      if used.None? { continue; }
      value := Value(value.cpu + (used.value.user + used.value.system), value.memory + used.value.memory);
    }
    assert pgids[..|pgids|] == pgids;
    r := AddPair(m, "pod", Labels(node, Some(pod.namespace), Some(pod.name), None, None), value);
    pgidMap := groups;
  }

  method GenerateContainerMetrics(m: MetricsMap?, node: string, pod: Pod, c: Container, pgidMap: map<string, int>)
    returns (r: MetricsMap?)
    modifies m
    ensures Fails(c) ==> r == null && (m != null ==> m.families == old(m.families))
    ensures !Fails(c) ==>
      && r != null && (m != null ==> r == m) && (m == null ==> fresh(r))
      && r.families == PutAll(if m != null then old(m.families) else map[], ContainerEntries(node, pod, c, pgidMap))
  {
    if c.ownRead.None? { return null; }
    if c.usage.None? { return null; }
    r := AddPair(m, "container", ContainerLabels(node, pod, c, pgidMap),
                 Value(c.usage.value.user + c.usage.value.system + SMALL, c.usage.value.memory + SMALL));
  }

  /** The container loop of one pod. outer is the map GetMetricsResource returns; the variable the
      loop reassigns starts at what the pod helper returned, which is outer or nil. Once it is nil
      it never names outer again, so later samples go to maps nobody returns. */
  method AddContainers(outer: MetricsMap, fromPod: MetricsMap?, node: string, pod: Pod, pgidMap: map<string, int>)
    requires fromPod == outer || fromPod == null
    modifies outer
    ensures outer.families == PutAll(old(outer.families),
      if fromPod == null then [] else ContainersEntries(node, pod, pod.containers, pgidMap))
  {
    var metricsMap := fromPod;
    ghost var whole := PutAll(outer.families, if fromPod == null then [] else ContainersEntries(node, pod, pod.containers, pgidMap));
    assert pod.containers[0..] == pod.containers;
    for k := 0 to |pod.containers|
      invariant metricsMap == outer || metricsMap == null || fresh(metricsMap)
      invariant metricsMap == outer ==>
        PutAll(outer.families, ContainersEntries(node, pod, pod.containers[k..], pgidMap)) == whole
      invariant metricsMap != outer ==> outer.families == whole
    {
      var c := pod.containers[k];
      assert pod.containers[k..][1..] == pod.containers[k + 1..];
      if IsTerminated(pod, c) { continue; }
      if metricsMap == outer && !Fails(c) {
        PutAppend(outer.families, ContainerEntries(node, pod, c, pgidMap),
                  ContainersEntries(node, pod, pod.containers[k + 1..], pgidMap));
      }
      metricsMap := GenerateContainerMetrics(metricsMap, node, pod, c, pgidMap);
    }
  }

  /** Every family of the map, once each, in any order. */
  ghost predicate Lists(res: seq<Family>, families: map<string, seq<Metric>>) {
    && |res| == |families|
    && (forall k :: 0 <= k < |res| ==>
        res[k].name in families && res[k].metrics == families[res[k].name] && res[k].kind == GetMetricType(res[k].name))
    && (forall name :: name in families ==> exists k :: 0 <= k < |res| && res[k].name == name)
  }

  /** The last loop of GetMetricsResource: one family per key, in whatever order the map gives them. */
  method ListFamilies(families: map<string, seq<Metric>>) returns (res: seq<Family>)
    ensures Lists(res, families)
  {
    res := [];
    var names := families.Keys;
    while names != {}
      invariant names <= families.Keys
      invariant |res| + |names| == |families.Keys|
      invariant forall j | 0 <= j < |res| ::
        && res[j].name in families && res[j].metrics == families[res[j].name]
        && res[j].kind == GetMetricType(res[j].name)
      invariant forall name :: name in families && name !in names ==> exists j :: 0 <= j < |res| && res[j].name == name
      decreases names
    {
      var name :| name in names;
      ghost var old_res := res;
      names := names - {name};
      res := res + [Family(name, GetMetricType(name), families[name])];
      assert res[|old_res|].name == name;
      forall other | other in families && other !in names ensures exists j :: 0 <= j < |res| && res[j].name == other {
        if other != name {
          var j :| 0 <= j < |old_res| && old_res[j].name == other;
          assert res[j].name == other;
        }
      }
    }
  }

  /** The result is the map of all the entries to be collected and of no others, pod by pod. */
  method GetMetricsResource(node: string, usage: Option<Usage>, pods: seq<Pod>) returns (res: seq<Family>)
    ensures Lists(res, PutAll(map[], AllEntries(node, usage, pods)))
  {
    var metricsMap := GenerateNodeMetrics(node, usage);
    assert NodeEntries(node, usage) + [] == NodeEntries(node, usage);
    for k := 0 to |pods|
      invariant fresh(metricsMap)
      invariant metricsMap.families == PutAll(map[], AllEntries(node, usage, pods[..k]))
    {
      var pod := pods[k];
      assert pods[..k + 1] == pods[..k] + [pod];
      AllEntriesPush(node, usage, pods[..k], pod);
      PutAppend(map[], AllEntries(node, usage, pods[..k]), PodEntries(node, pod));
      if !pod.phase.PhaseRunning? { continue; }
      ghost var before := metricsMap.families;
      var inner, pgidMap := GeneratePodMetrics(metricsMap, node, pod);
      AddContainers(metricsMap, inner, node, pod, pgidMap);
      if Readable(pod.containers) {
        var labels := Labels(node, Some(pod.namespace), Some(pod.name), None, None);
        PutAppend(before, Pair("pod", labels, Total(Groups(pod.containers), pod.usage)),
                  ContainersEntries(node, pod, pod.containers, GroupByName(pod.containers)));
      }
    }
    assert pods[..|pods|] == pods;
    res := ListFamilies(metricsMap.families);
  }
}
