/**
 * The watch index: which pods to tell when a config map or a secret changes. Forward lists go
 * from a resource to copies of the pods that use it, reverse lists from a pod to the resources
 * it uses.
 */
module WatchIndex {

  datatype NamespacedName = NamespacedName(namespace: string, name: string)

  datatype Volume = ConfigMapVolume(name: string) | SecretVolume(name: string) | OtherVolume

  /** A pod as the index keeps it, that is, a deep copy; version tells copies apart. */
  datatype Pod = Pod(namespace: string, name: string, volumes: seq<Volume>, version: nat)
  {
    function Key(): NamespacedName { NamespacedName(namespace, name) }
  }

  datatype Kind = ConfigMaps | Secrets

  /** One of the two pairs of maps. */
  datatype Index = Index(forward: map<NamespacedName, seq<Pod>>, reverse: map<NamespacedName, seq<NamespacedName>>)

  const EMPTY := Index(map[], map[])

  /** What Unwatch compares each listed pod with: as written, the inner variable shadows the
      argument and the listed pod is compared with itself. */
  datatype Comparison = WithItself | WithArgument

  predicate Skips(comparison: Comparison, listed: Pod, argument: NamespacedName) {
    match comparison
    case WithItself => listed.namespace == listed.namespace && listed.name == listed.name
    case WithArgument => listed.namespace == argument.namespace && listed.name == argument.name
  }

  /** A list of the map; missing reads as empty. */
  function At<V>(m: map<NamespacedName, seq<V>>, key: NamespacedName): seq<V> { if key in m then m[key] else [] }

  /** The key a volume refers to, if it is of the kind. */
  function KeysOf(kind: Kind, namespace: string, volume: Volume): seq<NamespacedName> {
    match volume
    case ConfigMapVolume(name) => if kind.ConfigMaps? then [NamespacedName(namespace, name)] else []
    case SecretVolume(name) => if kind.Secrets? then [NamespacedName(namespace, name)] else []
    case OtherVolume => []
  }

  /** The keys a volume list refers to, of one kind, in order and with repetitions. */
  function KeysIn(kind: Kind, namespace: string, volumes: seq<Volume>): seq<NamespacedName> {
    if volumes == [] then []
    else KeysIn(kind, namespace, volumes[..|volumes| - 1]) + KeysOf(kind, namespace, volumes[|volumes| - 1])
  }

  function Keys(kind: Kind, pod: Pod): seq<NamespacedName> { KeysIn(kind, pod.namespace, pod.volumes) }

  /** The volume is of the kind and refers to an object of that name. */
  predicate Refers(kind: Kind, volume: Volume, name: string) {
    if kind.ConfigMaps? then volume == ConfigMapVolume(name) else volume == SecretVolume(name)
  }

  /** How many of the volumes refer to an object of that name. */
  function References(kind: Kind, volumes: seq<Volume>, name: string): nat {
    if volumes == [] then 0
    else References(kind, volumes[..|volumes| - 1], name) + if Refers(kind, volumes[|volumes| - 1], name) then 1 else 0
  }

  /** How often a pod mentions a resource: not at all in another namespace than its own. */
  function Mentions(kind: Kind, pod: Pod, key: NamespacedName): nat {
    if key.namespace == pod.namespace then References(kind, pod.volumes, key.name) else 0
  }

  lemma {:induction false} OneKey(kind: Kind, namespace: string, volume: Volume, key: NamespacedName)
    ensures multiset(KeysOf(kind, namespace, volume))[key]
         == if key.namespace == namespace && Refers(kind, volume, key.name) then 1 else 0
  {
  }

  lemma {:induction false} KeysInCount(kind: Kind, namespace: string, volumes: seq<Volume>, key: NamespacedName)
    ensures multiset(KeysIn(kind, namespace, volumes))[key]
         == if key.namespace == namespace then References(kind, volumes, key.name) else 0
  {
    if volumes != [] {
      var front, last := volumes[..|volumes| - 1], volumes[|volumes| - 1];
      KeysInCount(kind, namespace, front, key);
      OneKey(kind, namespace, last, key);
      BagOfBoth(KeysIn(kind, namespace, front), KeysOf(kind, namespace, last), key);
    }
  }

  lemma {:induction false} BagOfBoth<T>(xs: seq<T>, ys: seq<T>, x: T)
    ensures multiset(xs + ys)[x] == multiset(xs)[x] + multiset(ys)[x]
  {
  }

  /** The keys a pod is watched under are exactly those its volumes refer to, as often as they do. */
  lemma {:induction false} KeysAreMentions(kind: Kind, pod: Pod, key: NamespacedName)
    ensures multiset(Keys(kind, pod))[key] == Mentions(kind, pod, key)
  {
    KeysInCount(kind, pod.namespace, pod.volumes, key);
  }

  lemma {:induction false} ReferencesPositive(kind: Kind, volumes: seq<Volume>, name: string)
    ensures References(kind, volumes, name) > 0 <==> exists v :: v in volumes && Refers(kind, v, name)
  {
    if volumes != [] {
      var front, last := volumes[..|volumes| - 1], volumes[|volumes| - 1];
      ReferencesPositive(kind, front, name);
      assert volumes == front + [last];
    }
  }

  function AddedOne(ix: Index, pod: Pod, key: NamespacedName): Index {
    Index(ix.forward[key := At(ix.forward, key) + [pod]],
          ix.reverse[pod.Key() := At(ix.reverse, pod.Key()) + [key]])
  }

  function Added(ix: Index, pod: Pod, keys: seq<NamespacedName>): Index {
    if keys == [] then ix
    else AddedOne(Added(ix, pod, keys[..|keys| - 1]), pod, keys[|keys| - 1])
  }

  /** What one volume adds. */
  function AddedVolume(ix: Index, pod: Pod, kind: Kind, volume: Volume): Index {
    var keys := KeysOf(kind, pod.namespace, volume);
    if keys == [] then ix else AddedOne(ix, pod, keys[0])
  }

  /** What the first i volumes add. */
  function AddedUpTo(ix: Index, pod: Pod, kind: Kind, i: nat): Index
    requires i <= |pod.volumes|
  {
    Added(ix, pod, KeysIn(kind, pod.namespace, pod.volumes[..i]))
  }

  /** One more volume adds at most one more key. */
  lemma {:induction false} AddedNext(ix: Index, pod: Pod, kind: Kind, i: nat)
    requires i < |pod.volumes|
    ensures AddedUpTo(ix, pod, kind, i + 1) == AddedVolume(AddedUpTo(ix, pod, kind, i), pod, kind, pod.volumes[i])
  {
    assert pod.volumes[..i + 1][..i] == pod.volumes[..i];
    var front, keys := KeysIn(kind, pod.namespace, pod.volumes[..i]), KeysOf(kind, pod.namespace, pod.volumes[i]);
    if keys == [] {
      assert front + keys == front;
    } else {
      assert keys == [keys[0]] && (front + keys)[..|front|] == front;
    }
  }

  /** The pods of a list that Unwatch keeps. */
  function Kept(comparison: Comparison, pods: seq<Pod>, argument: NamespacedName): seq<Pod> {
    if pods == [] then []
    else
      Kept(comparison, pods[..|pods| - 1], argument)
      + if Skips(comparison, pods[|pods| - 1], argument) then [] else [pods[|pods| - 1]]
  }

  function DroppedOne(comparison: Comparison, forward: map<NamespacedName, seq<Pod>>, argument: NamespacedName, key: NamespacedName): map<NamespacedName, seq<Pod>> {
    var kept := Kept(comparison, At(forward, key), argument);
    if kept == [] then forward - {key} else forward[key := kept]
  }

  function Dropped(comparison: Comparison, forward: map<NamespacedName, seq<Pod>>, argument: NamespacedName, keys: seq<NamespacedName>): map<NamespacedName, seq<Pod>> {
    if keys == [] then forward
    else DroppedOne(comparison, Dropped(comparison, forward, argument, keys[..|keys| - 1]), argument, keys[|keys| - 1])
  }

  lemma {:induction false} DroppedNext(comparison: Comparison, forward: map<NamespacedName, seq<Pod>>, argument: NamespacedName, keys: seq<NamespacedName>, i: nat)
    requires i < |keys|
    ensures Dropped(comparison, forward, argument, keys[..i + 1])
         == DroppedOne(comparison, Dropped(comparison, forward, argument, keys[..i]), argument, keys[i])
  {
    assert keys[..i + 1][..i] == keys[..i];
  }

  function Unwatched(comparison: Comparison, ix: Index, argument: NamespacedName): Index {
    Index(Dropped(comparison, ix.forward, argument, At(ix.reverse, argument)), ix.reverse - {argument})
  }

  /** A resource change as the informers deliver it. */
  datatype Resource = ConfigMapResource(key: NamespacedName) | SecretResource(key: NamespacedName) | OtherResource

  /** The pods whose update fails, in order. */
  function Refused(pods: seq<Pod>, refuses: Pod -> bool): seq<Pod> {
    if pods == [] then []
    else Refused(pods[..|pods| - 1], refuses) + if refuses(pods[|pods| - 1]) then [pods[|pods| - 1]] else []
  }

  class Watcher {
    var configs: map<NamespacedName, seq<Pod>>
    var cmKeysByPod: map<NamespacedName, seq<NamespacedName>>
    var secrets: map<NamespacedName, seq<Pod>>
    var secretKeysByPod: map<NamespacedName, seq<NamespacedName>>

    ghost function IndexOf(kind: Kind): Index
      reads this
    {
      if kind.ConfigMaps? then Index(configs, cmKeysByPod) else Index(secrets, secretKeysByPod)
    }

    constructor ()
      ensures IndexOf(ConfigMaps) == EMPTY && IndexOf(Secrets) == EMPTY
    {
      configs, cmKeysByPod, secrets, secretKeysByPod := map[], map[], map[], map[];
    }

    /** The switch of Watch: what one volume of the pod adds. */
    method WatchVolume(pod: Pod, volume: Volume)
      modifies this
      ensures forall kind :: IndexOf(kind) == AddedVolume(old(IndexOf(kind)), pod, kind, volume)
    {
      var podKey := pod.Key();
      match volume {
        case ConfigMapVolume(name) =>
          var cmKey := NamespacedName(pod.namespace, name);
          configs := configs[cmKey := At(configs, cmKey) + [pod]];
          cmKeysByPod := cmKeysByPod[podKey := At(cmKeysByPod, podKey) + [cmKey]];
        case SecretVolume(name) =>
          var secretKey := NamespacedName(pod.namespace, name);
          secrets := secrets[secretKey := At(secrets, secretKey) + [pod]];
          secretKeysByPod := secretKeysByPod[podKey := At(secretKeysByPod, podKey) + [secretKey]];
        case OtherVolume =>
      }
    }

    method Watch(pod: Pod)
      modifies this
      ensures forall kind :: IndexOf(kind) == Added(old(IndexOf(kind)), pod, Keys(kind, pod))
    {
      for i := 0 to |pod.volumes|
        invariant IndexOf(ConfigMaps) == AddedUpTo(old(IndexOf(ConfigMaps)), pod, ConfigMaps, i)
        invariant IndexOf(Secrets) == AddedUpTo(old(IndexOf(Secrets)), pod, Secrets, i)
      {
        AddedNext(old(IndexOf(ConfigMaps)), pod, ConfigMaps, i);
        AddedNext(old(IndexOf(Secrets)), pod, Secrets, i);
        WatchVolume(pod, pod.volumes[i]);
      }
      assert pod.volumes[..|pod.volumes|] == pod.volumes;
    }

    method Unwatch(pod: Pod, comparison: Comparison)
      modifies this
      ensures forall kind :: IndexOf(kind) == Unwatched(comparison, old(IndexOf(kind)), pod.Key())
    {
      var podKey := pod.Key();
      configs := RemovePod(configs, At(cmKeysByPod, podKey), podKey, comparison);
      cmKeysByPod := cmKeysByPod - {podKey};
      secrets := RemovePod(secrets, At(secretKeysByPod, podKey), podKey, comparison);
      secretKeysByPod := secretKeysByPod - {podKey};
    }

    /** The inner loop of Unwatch, over the pods listed for one resource. */
    static method KeepOthers(listed: seq<Pod>, podKey: NamespacedName, comparison: Comparison)
      returns (watchedPods: seq<Pod>)
      ensures watchedPods == Kept(comparison, listed, podKey)
    {
      watchedPods := [];
      for j := 0 to |listed|
        invariant watchedPods == Kept(comparison, listed[..j], podKey)
      {
        assert listed[..j + 1][..j] == listed[..j];
        if Skips(comparison, listed[j], podKey) { continue; }
        watchedPods := watchedPods + [listed[j]];
      }
      assert listed[..|listed|] == listed;
    }

    /** The outer loop of Unwatch, which it runs once for config maps and once for secrets. */
    static method RemovePod(forward: map<NamespacedName, seq<Pod>>, keys: seq<NamespacedName>, podKey: NamespacedName, comparison: Comparison)
      returns (left: map<NamespacedName, seq<Pod>>)
      ensures left == Dropped(comparison, forward, podKey, keys)
    {
      left := forward;
      for i := 0 to |keys|
        invariant left == Dropped(comparison, forward, podKey, keys[..i])
      {
        var watchedPods := KeepOthers(At(left, keys[i]), podKey, comparison);
        DroppedNext(comparison, forward, podKey, keys, i);
        if |watchedPods| == 0 {
          left := left - {keys[i]};
          continue;
        }
        left := left[keys[i] := watchedPods];
      }
      assert keys[..|keys|] == keys;
    }

    /** Calls the updater, which refuses some pods, for each pod listed: a refusal is warned of and
        does not stop the loop. */
    method HandleEvent(obj: Resource, refuses: Pod -> bool) returns (notified: seq<Pod>, warned: seq<Pod>)
      ensures notified == match obj
        case ConfigMapResource(key) => At(IndexOf(ConfigMaps).forward, key)
        case SecretResource(key) => At(IndexOf(Secrets).forward, key)
        case OtherResource => []
      ensures warned == Refused(notified, refuses)
    {
      notified, warned := [], [];
      var pods := match obj
        case ConfigMapResource(key) => At(configs, key)
        case SecretResource(key) => At(secrets, key)
        case OtherResource => [];
      for i := 0 to |pods|
        invariant notified == pods[..i] && warned == Refused(pods[..i], refuses)
      {
        assert pods[..i + 1][..i] == pods[..i];
        notified := notified + [pods[i]];
        if refuses(pods[i]) { warned := warned + [pods[i]]; }
      }
      assert pods[..|pods|] == pods;
    }
  }
}
