/**
 * What the watch index holds after any history of watches and unwatches: with the comparison as
 * intended, exactly the pods still watched; with the comparison as written, a suffix of them.
 */
module WatchHistory {
  import opened WatchIndex

  datatype Operation = Watch(pod: Pod) | Unwatch(key: NamespacedName)

  function Apply(comparison: Comparison, kind: Kind, ix: Index, op: Operation): Index {
    match op
    case Watch(pod) => Added(ix, pod, Keys(kind, pod))
    case Unwatch(key) => Unwatched(comparison, ix, key)
  }

  /** The index after a history, from empty. */
  function Replay(comparison: Comparison, kind: Kind, history: seq<Operation>): Index {
    if history == [] then EMPTY
    else Apply(comparison, kind, Replay(comparison, kind, history[..|history| - 1]), history[|history| - 1])
  }

  /** The pods other than one. */
  function Others(pods: seq<Pod>, key: NamespacedName): seq<Pod> { Kept(WithArgument, pods, key) }

  function Copies(pod: Pod, n: nat): seq<Pod> { seq(n, i => pod) }

  /** The reference: no index at all. The pods watching a resource are those that were watched
      with it, once per mention, and have not been unwatched since. */
  function Watching(kind: Kind, history: seq<Operation>, key: NamespacedName): seq<Pod> {
    if history == [] then []
    else
      var before := Watching(kind, history[..|history| - 1], key);
      match history[|history| - 1]
      case Watch(pod) => before + Copies(pod, Mentions(kind, pod, key))
      case Unwatch(gone) => Others(before, gone)
  }

  // ---------- Lists ----------

  function CountOf(pods: seq<Pod>, key: NamespacedName): nat {
    if pods == [] then 0
    else CountOf(pods[..|pods| - 1], key) + if pods[|pods| - 1].Key() == key then 1 else 0
  }

  lemma {:induction false} OthersPush(front: seq<Pod>, last: Pod, gone: NamespacedName)
    ensures Others(front + [last], gone) == if last.Key() == gone then Others(front, gone) else Others(front, gone) + [last]
  {
    assert (front + [last])[..|front|] == front;
  }

  lemma {:induction false} CountPush(front: seq<Pod>, last: Pod, key: NamespacedName)
    ensures CountOf(front + [last], key) == CountOf(front, key) + if last.Key() == key then 1 else 0
  {
    assert (front + [last])[..|front|] == front;
  }

  lemma {:induction false} OthersCount(pods: seq<Pod>, gone: NamespacedName, key: NamespacedName)
    ensures CountOf(Others(pods, gone), key) == if key == gone then 0 else CountOf(pods, key)
  {
    if pods != [] {
      var front, last := pods[..|pods| - 1], pods[|pods| - 1];
      assert pods == front + [last];
      OthersCount(front, gone, key);
      OthersPush(front, last, gone);
      CountPush(Others(front, gone), last, key);
    }
  }

  lemma {:induction false} OthersOfOthers(pods: seq<Pod>, gone: NamespacedName)
    ensures Others(Others(pods, gone), gone) == Others(pods, gone)
  {
    if pods != [] {
      var front, last := pods[..|pods| - 1], pods[|pods| - 1];
      assert pods == front + [last];
      OthersOfOthers(front, gone);
      OthersPush(front, last, gone);
      OthersPush(Others(front, gone), last, gone);
    }
  }

  lemma {:induction false} OthersIfAbsent(pods: seq<Pod>, gone: NamespacedName)
    ensures CountOf(pods, gone) == 0 <==> Others(pods, gone) == pods
    ensures |Others(pods, gone)| <= |pods|
  {
    if pods != [] {
      OthersIfAbsent(pods[..|pods| - 1], gone);
      assert pods == pods[..|pods| - 1] + [pods[|pods| - 1]];
    }
  }

  lemma {:induction false} NobodyKept(pods: seq<Pod>, gone: NamespacedName)
    ensures Kept(WithItself, pods, gone) == []
  {
    if pods != [] { NobodyKept(pods[..|pods| - 1], gone); }
  }

  lemma {:induction false} CountPositive(pods: seq<Pod>, key: NamespacedName)
    ensures CountOf(pods, key) > 0 <==> exists i :: 0 <= i < |pods| && pods[i].Key() == key
  {
    if pods != [] {
      var front := pods[..|pods| - 1];
      CountPositive(front, key);
      if i :| 0 <= i < |front| && front[i].Key() == key { assert pods[i].Key() == key; }
      if i :| 0 <= i < |pods| && pods[i].Key() == key { if i < |front| { assert front[i].Key() == key; } }
    }
  }

  // ---------- Watch and Unwatch, list by list ----------

  lemma {:induction false} CountOneMore(keys: seq<NamespacedName>, last: NamespacedName, key: NamespacedName)
    ensures multiset(keys + [last])[key] == multiset(keys)[key] + if key == last then 1 else 0
  {
    assert multiset(keys + [last]) == multiset(keys) + multiset{last};
  }

  lemma {:induction false} OneMoreCopy(was: seq<Pod>, pod: Pod, n: nat)
    ensures was + Copies(pod, n) + [pod] == was + Copies(pod, n + 1)
  {
  }

  lemma {:induction false} AddedOneLists(ix: Index, pod: Pod, last: NamespacedName, key: NamespacedName)
    ensures var now := AddedOne(ix, pod, last);
      && At(now.forward, key) == At(ix.forward, key) + (if key == last then [pod] else [])
      && At(now.reverse, key) == At(ix.reverse, key) + (if key == pod.Key() then [last] else [])
      && (key in now.forward <==> key in ix.forward || key == last)
  {
  }

  lemma {:induction false} AddedForward(ix: Index, pod: Pod, keys: seq<NamespacedName>, key: NamespacedName)
    ensures At(Added(ix, pod, keys).forward, key) == At(ix.forward, key) + Copies(pod, multiset(keys)[key])
  {
    if keys != [] {
      var front, last := keys[..|keys| - 1], keys[|keys| - 1];
      AddedForward(ix, pod, front, key);
      AddedOneLists(Added(ix, pod, front), pod, last, key);
      assert keys == front + [last];
      assert At(Added(ix, pod, keys).forward, key)
          == At(Added(ix, pod, front).forward, key) + if key == last then [pod] else [];
      CountOneMore(front, last, key);
      OneMoreCopy(At(ix.forward, key), pod, multiset(front)[key]);
    }
  }

  lemma {:induction false} LastOrBefore<T>(xs: seq<T>, x: T)
    requires xs != []
    ensures x in xs <==> x in xs[..|xs| - 1] || x == xs[|xs| - 1]
  {
    assert xs == xs[..|xs| - 1] + [xs[|xs| - 1]];
  }

  lemma {:induction false} AddedKeys(ix: Index, pod: Pod, keys: seq<NamespacedName>, key: NamespacedName)
    ensures key in Added(ix, pod, keys).forward <==> key in ix.forward || key in keys
  {
    if keys != [] {
      var front, last := keys[..|keys| - 1], keys[|keys| - 1];
      AddedKeys(ix, pod, front, key);
      assert Added(ix, pod, keys).forward.Keys == Added(ix, pod, front).forward.Keys + {last};
      LastOrBefore(keys, key);
    }
  }

  lemma {:induction false} AddedBackward(ix: Index, pod: Pod, keys: seq<NamespacedName>, key: NamespacedName)
    ensures At(Added(ix, pod, keys).reverse, key) == At(ix.reverse, key) + if key == pod.Key() then keys else []
  {
    if keys != [] {
      var front, last := keys[..|keys| - 1], keys[|keys| - 1];
      AddedBackward(ix, pod, front, key);
      AddedOneLists(Added(ix, pod, front), pod, last, key);
      assert keys == front + [last];
    }
  }

  lemma {:induction false} AddedLists(ix: Index, pod: Pod, keys: seq<NamespacedName>, key: NamespacedName)
    ensures At(Added(ix, pod, keys).forward, key) == At(ix.forward, key) + Copies(pod, multiset(keys)[key])
    ensures At(Added(ix, pod, keys).reverse, key) == At(ix.reverse, key) + if key == pod.Key() then keys else []
    ensures key in Added(ix, pod, keys).forward <==> key in ix.forward || key in keys
  {
    AddedForward(ix, pod, keys, key);
    AddedKeys(ix, pod, keys, key);
    AddedBackward(ix, pod, keys, key);
  }

  /** As intended, the lists of the argument's resources lose the argument and nothing else. */
  lemma {:induction false} DroppedIntended(forward: map<NamespacedName, seq<Pod>>, gone: NamespacedName, keys: seq<NamespacedName>, key: NamespacedName)
    ensures At(Dropped(WithArgument, forward, gone, keys), key)
         == if key in keys then Others(At(forward, key), gone) else At(forward, key)
    ensures key in Dropped(WithArgument, forward, gone, keys) && At(forward, key) != []
       ==> At(Dropped(WithArgument, forward, gone, keys), key) != []
    ensures key in Dropped(WithArgument, forward, gone, keys) ==> key in forward
  {
    if keys != [] {
      DroppedIntended(forward, gone, keys[..|keys| - 1], key);
      assert keys == keys[..|keys| - 1] + [keys[|keys| - 1]];
      DroppedIntended(forward, gone, keys[..|keys| - 1], keys[|keys| - 1]);
      OthersOfOthers(At(forward, key), gone);
    }
  }

  /** As written, the lists of the argument's resources lose every pod. */
  lemma {:induction false} DroppedAsWritten(forward: map<NamespacedName, seq<Pod>>, gone: NamespacedName, keys: seq<NamespacedName>, key: NamespacedName)
    ensures At(Dropped(WithItself, forward, gone, keys), key) == if key in keys then [] else At(forward, key)
  {
    if keys != [] {
      DroppedAsWritten(forward, gone, keys[..|keys| - 1], key);
      assert keys == keys[..|keys| - 1] + [keys[|keys| - 1]];
      NobodyKept(At(Dropped(WithItself, forward, gone, keys[..|keys| - 1]), keys[|keys| - 1]), gone);
    }
  }

  // ---------- The comparison as intended ----------

  /** Forward and reverse lists agree entry for entry, and no forward list is kept empty. */
  ghost predicate Agrees(ix: Index) {
    && (forall key, podKey :: CountOf(At(ix.forward, key), podKey) == multiset(At(ix.reverse, podKey))[key])
    && (forall key :: key in ix.forward ==> ix.forward[key] != [])
  }

  lemma {:induction false} CopiesCount(pods: seq<Pod>, pod: Pod, n: nat, key: NamespacedName)
    ensures CountOf(pods + Copies(pod, n), key) == CountOf(pods, key) + if pod.Key() == key then n else 0
  {
    if n == 0 {
      assert pods + Copies(pod, n) == pods;
    } else {
      CopiesCount(pods, pod, n - 1, key);
      assert (pods + Copies(pod, n))[..|pods| + n - 1] == pods + Copies(pod, n - 1);
    }
  }

  lemma {:induction false} WatchAgrees(ix: Index, pod: Pod, keys: seq<NamespacedName>)
    requires Agrees(ix)
    ensures Agrees(Added(ix, pod, keys))
  {
    var now := Added(ix, pod, keys);
    forall key, podKey ensures CountOf(At(now.forward, key), podKey) == multiset(At(now.reverse, podKey))[key] {
      AddedLists(ix, pod, keys, key);
      AddedLists(ix, pod, keys, podKey);
      CopiesCount(At(ix.forward, key), pod, multiset(keys)[key], podKey);
      assert multiset(At(ix.reverse, podKey) + keys) == multiset(At(ix.reverse, podKey)) + multiset(keys);
    }
    forall key | key in now.forward ensures now.forward[key] != [] {
      AddedLists(ix, pod, keys, key);
      if key in keys { assert multiset(keys)[key] > 0; }
    }
  }

  /** Unwatching removes all of the argument's entries, everywhere, and nothing of any other pod. */
  lemma {:induction false} UnwatchIntended(ix: Index, gone: NamespacedName)
    requires Agrees(ix)
    ensures var now := Unwatched(WithArgument, ix, gone);
      && Agrees(now)
      && (forall key :: At(now.forward, key) == Others(At(ix.forward, key), gone))
      && (forall podKey :: At(now.reverse, podKey) == if podKey == gone then [] else At(ix.reverse, podKey))
  {
    var now := Unwatched(WithArgument, ix, gone);
    var keys := At(ix.reverse, gone);
    forall key ensures At(now.forward, key) == Others(At(ix.forward, key), gone) {
      DroppedIntended(ix.forward, gone, keys, key);
      if key !in keys {
        assert multiset(keys)[key] == 0;
        assert CountOf(At(ix.forward, key), gone) == 0;
        OthersIfAbsent(At(ix.forward, key), gone);
      }
    }
    forall key, podKey ensures CountOf(At(now.forward, key), podKey) == multiset(At(now.reverse, podKey))[key] {
      OthersCount(At(ix.forward, key), gone, podKey);
      assert At(now.forward, key) == Others(At(ix.forward, key), gone);
      assert podKey != gone ==> At(now.reverse, podKey) == At(ix.reverse, podKey);
    }
    forall key | key in now.forward ensures now.forward[key] != [] {
      DroppedIntended(ix.forward, gone, keys, key);
    }
  }

  /** As intended, the index is exact after every history: it agrees with itself, and each forward
      list is the reference list, in order and with multiplicity. */
  lemma {:induction false} IntendedIsExact(kind: Kind, history: seq<Operation>)
    ensures Agrees(Replay(WithArgument, kind, history))
    ensures forall key :: At(Replay(WithArgument, kind, history).forward, key) == Watching(kind, history, key)
  {
    if history != [] {
      var before, op := history[..|history| - 1], history[|history| - 1];
      var ix := Replay(WithArgument, kind, before);
      IntendedIsExact(kind, before);
      match op {
        case Watch(pod) =>
          WatchAgrees(ix, pod, Keys(kind, pod));
          forall key ensures At(Added(ix, pod, Keys(kind, pod)).forward, key) == Watching(kind, history, key) {
            AddedLists(ix, pod, Keys(kind, pod), key);
            KeysAreMentions(kind, pod, key);
          }
        case Unwatch(gone) =>
          UnwatchIntended(ix, gone);
          forall key ensures At(Unwatched(WithArgument, ix, gone).forward, key) == Watching(kind, history, key) {
            assert At(ix.forward, key) == Watching(kind, before, key);
          }
      }
    }
  }

  // ---------- The comparison as written ----------

  ghost predicate Suffix(part: seq<Pod>, whole: seq<Pod>) {
    |part| <= |whole| && whole[|whole| - |part|..] == part
  }

  lemma {:induction false} WatchKeepsSuffix(ix: Index, pod: Pod, keys: seq<NamespacedName>, key: NamespacedName, whole: seq<Pod>)
    requires Suffix(At(ix.forward, key), whole)
    ensures Suffix(At(Added(ix, pod, keys).forward, key), whole + Copies(pod, multiset(keys)[key]))
  {
    AddedLists(ix, pod, keys, key);
    SuffixAppend(At(ix.forward, key), whole, Copies(pod, multiset(keys)[key]));
  }

  lemma {:induction false} SuffixAppend(part: seq<Pod>, whole: seq<Pod>, tail: seq<Pod>)
    requires Suffix(part, whole)
    ensures Suffix(part + tail, whole + tail)
  {
  }

  lemma {:induction false} UnwatchKeepsSuffix(written: Index, intended: Index, gone: NamespacedName, key: NamespacedName)
    requires Agrees(intended) && written.reverse == intended.reverse
    requires Suffix(At(written.forward, key), At(intended.forward, key))
    ensures Suffix(At(Unwatched(WithItself, written, gone).forward, key), Others(At(intended.forward, key), gone))
  {
    DroppedAsWritten(written.forward, gone, At(written.reverse, gone), key);
    if key !in At(written.reverse, gone) {
      assert CountOf(At(intended.forward, key), gone) == multiset(At(intended.reverse, gone))[key];
      OthersIfAbsent(At(intended.forward, key), gone);
    }
  }

  /** As written, every history leaves the same reverse lists as intended, and forward lists that
      are suffixes of the intended ones: pods are lost, never invented or reordered. */
  lemma {:induction false} AsWrittenOnlyLoses(kind: Kind, history: seq<Operation>, key: NamespacedName)
    ensures Replay(WithItself, kind, history).reverse == Replay(WithArgument, kind, history).reverse
    ensures Suffix(At(Replay(WithItself, kind, history).forward, key), Watching(kind, history, key))
  {
    if history != [] {
      var before, op := history[..|history| - 1], history[|history| - 1];
      AsWrittenOnlyLoses(kind, before, key);
      IntendedIsExact(kind, before);
      var written, intended := Replay(WithItself, kind, before), Replay(WithArgument, kind, before);
      assert At(intended.forward, key) == Watching(kind, before, key);
      match op {
        case Watch(pod) =>
          AddedReverse(written, intended, pod, Keys(kind, pod));
          WatchKeepsSuffix(written, pod, Keys(kind, pod), key, Watching(kind, before, key));
          KeysAreMentions(kind, pod, key);
        case Unwatch(gone) =>
          UnwatchKeepsSuffix(written, intended, gone, key);
      }
    }
  }

  lemma {:induction false} AddedReverse(ix: Index, iy: Index, pod: Pod, keys: seq<NamespacedName>)
    requires ix.reverse == iy.reverse
    ensures Added(ix, pod, keys).reverse == Added(iy, pod, keys).reverse
  {
    if keys != [] { AddedReverse(ix, iy, pod, keys[..|keys| - 1]); }
  }

  /** As written, the index stays sound: a pod found in a resource's list has that resource in its
      reverse list, and an unwatched pod is in no list. */
  lemma {:induction false} AsWrittenIsSound(kind: Kind, history: seq<Operation>, key: NamespacedName, i: nat)
    requires i < |At(Replay(WithItself, kind, history).forward, key)|
    ensures var ix := Replay(WithItself, kind, history); var pod := At(ix.forward, key)[i];
      && key in At(ix.reverse, pod.Key())
      && (history != [] ==> history[|history| - 1] != Unwatch(pod.Key()))
  {
    AsWrittenOnlyLoses(kind, history, key);
    IntendedIsExact(kind, history);
    var ix, intended := Replay(WithItself, kind, history), Replay(WithArgument, kind, history);
    var listed := At(intended.forward, key);
    var j := |listed| - |At(ix.forward, key)| + i;
    assert Suffix(At(ix.forward, key), listed);
    assert listed[j] == At(ix.forward, key)[i];
    CountPositive(listed, listed[j].Key());
    assert multiset(At(intended.reverse, listed[j].Key()))[key] > 0;
    if history != [] && history[|history| - 1] == Unwatch(listed[j].Key()) {
      OthersCount(Watching(kind, history[..|history| - 1], key), listed[j].Key(), listed[j].Key());
    }
  }

  /** The reference for the comparison as written, again without an index: unwatching a pod that
      watches a resource leaves nobody to tell of it. */
  function WatchingAsWritten(kind: Kind, history: seq<Operation>, key: NamespacedName): seq<Pod> {
    if history == [] then []
    else
      var before := history[..|history| - 1];
      match history[|history| - 1]
      case Watch(pod) => WatchingAsWritten(kind, before, key) + Copies(pod, Mentions(kind, pod, key))
      case Unwatch(gone) => if CountOf(Watching(kind, before, key), gone) > 0 then [] else WatchingAsWritten(kind, before, key)
  }

  /** The reverse list of a pod, in either comparison, names the resources it is still watching. */
  lemma {:induction false} ReverseIsWatching(kind: Kind, history: seq<Operation>, key: NamespacedName, podKey: NamespacedName)
    ensures key in At(Replay(WithItself, kind, history).reverse, podKey) <==> CountOf(Watching(kind, history, key), podKey) > 0
  {
    AsWrittenOnlyLoses(kind, history, key);
    IntendedIsExact(kind, history);
    var intended := Replay(WithArgument, kind, history);
    assert CountOf(At(intended.forward, key), podKey) == multiset(At(intended.reverse, podKey))[key];
  }

  /** As written, the index is exactly that after every history. */
  lemma {:induction false} AsWrittenIsExact(kind: Kind, history: seq<Operation>, key: NamespacedName)
    ensures At(Replay(WithItself, kind, history).forward, key) == WatchingAsWritten(kind, history, key)
  {
    if history != [] {
      var before, op := history[..|history| - 1], history[|history| - 1];
      var ix := Replay(WithItself, kind, before);
      AsWrittenIsExact(kind, before, key);
      match op {
        case Watch(pod) =>
          AddedLists(ix, pod, Keys(kind, pod), key);
          KeysAreMentions(kind, pod, key);
        case Unwatch(gone) =>
          ReverseIsWatching(kind, before, key, gone);
          DroppedAsWritten(ix.forward, gone, At(ix.reverse, gone), key);
      }
    }
  }

  /** Every pod of the list is that one. */
  predicate OnlyThat(pods: seq<Pod>, key: NamespacedName) { forall i :: 0 <= i < |pods| ==> pods[i].Key() == key }

  /** One Unwatch as written, of any index, has the intended effect exactly when no resource of the
      pod is listed for any other pod; otherwise those other pods stop being told. */
  lemma {:induction false} WrittenIsIntendedIffUnshared(ix: Index, gone: NamespacedName)
    ensures (forall key :: At(Unwatched(WithItself, ix, gone).forward, key) == At(Unwatched(WithArgument, ix, gone).forward, key))
       <==> (forall key :: key in At(ix.reverse, gone) ==> OnlyThat(At(ix.forward, key), gone))
  {
    forall key
      ensures At(Unwatched(WithItself, ix, gone).forward, key) == At(Unwatched(WithArgument, ix, gone).forward, key)
         <==> (key in At(ix.reverse, gone) ==> OnlyThat(At(ix.forward, key), gone))
    {
      WrittenIsIntendedAt(ix, gone, key);
    }
  }

  lemma {:induction false} WrittenIsIntendedAt(ix: Index, gone: NamespacedName, key: NamespacedName)
    ensures At(Unwatched(WithItself, ix, gone).forward, key) == At(Unwatched(WithArgument, ix, gone).forward, key)
       <==> (key in At(ix.reverse, gone) ==> OnlyThat(At(ix.forward, key), gone))
  {
    DroppedAsWritten(ix.forward, gone, At(ix.reverse, gone), key);
    DroppedIntended(ix.forward, gone, At(ix.reverse, gone), key);
    NobodyElse(At(ix.forward, key), gone);
  }

  /** After any history of the code as written, lossy ones included, the next Unwatch leaves of a
      resource's list what the comparison as intended would leave exactly when the pod is not
      watching the resource or nobody else is listed for it. */
  lemma {:induction false} NextUnwatchIsIntendedIff(kind: Kind, history: seq<Operation>, gone: NamespacedName, key: NamespacedName)
    ensures
      WatchingAsWritten(kind, history + [Unwatch(gone)], key)
        == At(Unwatched(WithArgument, Replay(WithItself, kind, history), gone).forward, key)
      <==> (CountOf(Watching(kind, history, key), gone) > 0 ==> OnlyThat(WatchingAsWritten(kind, history, key), gone))
  {
    var ix, next := Replay(WithItself, kind, history), history + [Unwatch(gone)];
    assert next[..|history|] == history;
    WrittenIsIntendedAt(ix, gone, key);
    AsWrittenIsExact(kind, next, key);
    AsWrittenIsExact(kind, history, key);
    ReverseIsWatching(kind, history, key, gone);
  }

  lemma {:induction false} NobodyElse(pods: seq<Pod>, gone: NamespacedName)
    ensures Others(pods, gone) == [] <==> OnlyThat(pods, gone)
  {
    if pods != [] {
      var front := pods[..|pods| - 1];
      NobodyElse(front, gone);
      assert pods == front + [pods[|pods| - 1]];
    }
  }

  /** After any history in which two pods watch the same resource, unwatching one of them as
      written leaves nobody to tell, though the other is still watching. */
  lemma {:induction false} SharedResourceIsForgotten(kind: Kind, history: seq<Operation>, key: NamespacedName, gone: Pod, other: Pod)
    requires gone in Watching(kind, history, key) && other in Watching(kind, history, key) && gone.Key() != other.Key()
    ensures At(Replay(WithItself, kind, history + [Unwatch(gone.Key())]).forward, key) == []
    ensures Watching(kind, history + [Unwatch(gone.Key())], key) != []
  {
    assert (history + [Unwatch(gone.Key())])[..|history|] == history;
    AsWrittenOnlyLoses(kind, history, key);
    IntendedIsExact(kind, history);
    var written, intended := Replay(WithItself, kind, history), Replay(WithArgument, kind, history);
    assert At(intended.forward, key) == Watching(kind, history, key);
    CountPositive(Watching(kind, history, key), gone.Key());
    assert multiset(At(intended.reverse, gone.Key()))[key] > 0;
    DroppedAsWritten(written.forward, gone.Key(), At(written.reverse, gone.Key()), key);
    NobodyElse(Watching(kind, history, key), gone.Key());
  }

  // ---------- Who is told ----------

  lemma {:induction false} OthersMembers(pods: seq<Pod>, gone: NamespacedName, pod: Pod)
    ensures pod in Others(pods, gone) <==> pod in pods && pod.Key() != gone
  {
    if pods != [] {
      var front, last := pods[..|pods| - 1], pods[|pods| - 1];
      assert pods == front + [last];
      OthersMembers(front, gone, pod);
      OthersPush(front, last, gone);
    }
  }

  /** Step n of the history watches the pod, some of whose volumes refers to the resource, and the pod is
      not unwatched after it. */
  ghost predicate WatchedSince(kind: Kind, history: seq<Operation>, key: NamespacedName, pod: Pod, n: nat) {
    && n < |history| && history[n] == Watch(pod)
    && key.namespace == pod.namespace && (exists v :: v in pod.volumes && Refers(kind, v, key.name))
    && forall m :: n < m < |history| ==> history[m] != Unwatch(pod.Key())
  }

  lemma {:induction false} WatchedSinceEarlier(kind: Kind, history: seq<Operation>, key: NamespacedName, pod: Pod, n: nat)
    requires n + 1 < |history|
    ensures WatchedSince(kind, history, key, pod, n) <==>
      WatchedSince(kind, history[..|history| - 1], key, pod, n) && history[|history| - 1] != Unwatch(pod.Key())
  {
    var before := history[..|history| - 1];
    assert forall m :: 0 <= m < |before| ==> before[m] == history[m];
  }

  lemma {:induction false} CopiesMembers(added: Pod, n: nat, pod: Pod)
    ensures pod in Copies(added, n) <==> pod == added && n > 0
  {
    if n > 0 { assert Copies(added, n)[0] == added; }
  }

  lemma {:induction false} WatchingMembers(kind: Kind, history: seq<Operation>, key: NamespacedName, pod: Pod)
    ensures pod in Watching(kind, history, key) <==> exists n: nat :: WatchedSince(kind, history, key, pod, n)
  {
    if history != [] {
      var before, op, last := history[..|history| - 1], history[|history| - 1], |history| - 1;
      WatchingMembers(kind, before, key, pod);
      forall n: nat | n < last
        ensures WatchedSince(kind, history, key, pod, n) <==> WatchedSince(kind, before, key, pod, n) && op != Unwatch(pod.Key())
      {
        WatchedSinceEarlier(kind, history, key, pod, n);
      }
      match op {
        case Watch(added) =>
          ReferencesPositive(kind, added.volumes, key.name);
          CopiesMembers(added, Mentions(kind, added, key), pod);
          assert WatchedSince(kind, history, key, pod, last) <==> pod == added && Mentions(kind, added, key) > 0;
        case Unwatch(gone) => OthersMembers(Watching(kind, before, key), gone, pod);
      }
    }
  }

  /** As intended, a pod is told of a change of a resource exactly when it was watched with a volume that
      refers to it, and has not been unwatched since. */
  lemma {:induction false} ToldIffWatched(kind: Kind, history: seq<Operation>, key: NamespacedName, pod: Pod)
    ensures pod in At(Replay(WithArgument, kind, history).forward, key)
       <==> exists n: nat :: WatchedSince(kind, history, key, pod, n)
  {
    IntendedIsExact(kind, history);
    WatchingMembers(kind, history, key, pod);
  }

  /** The same, but nobody who was watching the resource is unwatched after step n, the pod or any other. */
  ghost predicate UndisturbedSince(kind: Kind, history: seq<Operation>, key: NamespacedName, pod: Pod, n: nat) {
    && n < |history| && history[n] == Watch(pod)
    && key.namespace == pod.namespace && (exists v :: v in pod.volumes && Refers(kind, v, key.name))
    && forall m :: n < m < |history| ==> !Disturbs(kind, history, key, m)
  }

  /** Step m unwatches a pod that is watching the resource. */
  ghost predicate Disturbs(kind: Kind, history: seq<Operation>, key: NamespacedName, m: nat)
    requires m < |history|
  {
    history[m].Unwatch? && CountOf(Watching(kind, history[..m], key), history[m].key) > 0
  }

  lemma {:induction false} UndisturbedEarlier(kind: Kind, history: seq<Operation>, key: NamespacedName, pod: Pod, n: nat)
    requires n + 1 < |history|
    ensures UndisturbedSince(kind, history, key, pod, n) <==>
      UndisturbedSince(kind, history[..|history| - 1], key, pod, n) && !Disturbs(kind, history, key, |history| - 1)
  {
    var before := history[..|history| - 1];
    forall m | 0 <= m < |before| ensures Disturbs(kind, before, key, m) <==> Disturbs(kind, history, key, m) {
      assert before[..m] == history[..m];
    }
  }

  /** As written, a pod is told exactly when it was watched with a volume that refers to the resource, and
      since then no pod watching the resource has been unwatched. */
  lemma {:induction false} ToldAsWrittenIff(kind: Kind, history: seq<Operation>, key: NamespacedName, pod: Pod)
    ensures pod in At(Replay(WithItself, kind, history).forward, key)
       <==> exists n: nat :: UndisturbedSince(kind, history, key, pod, n)
  {
    AsWrittenIsExact(kind, history, key);
    if history != [] {
      var before, op, last := history[..|history| - 1], history[|history| - 1], |history| - 1;
      AsWrittenIsExact(kind, before, key);
      ToldAsWrittenIff(kind, before, key, pod);
      forall n: nat | n < last
        ensures UndisturbedSince(kind, history, key, pod, n) <==>
          UndisturbedSince(kind, before, key, pod, n) && !Disturbs(kind, history, key, last)
      {
        UndisturbedEarlier(kind, history, key, pod, n);
      }
      if op.Watch? {
        ReferencesPositive(kind, op.pod.volumes, key.name);
        CopiesMembers(op.pod, Mentions(kind, op.pod, key), pod);
        assert UndisturbedSince(kind, history, key, pod, last) <==> pod == op.pod && Mentions(kind, op.pod, key) > 0;
      }
    }
  }

  /** One Watch, list by list, over the pod's volumes. */
  lemma {:induction false} WatchAddsMentions(ix: Index, kind: Kind, pod: Pod, key: NamespacedName)
    ensures At(Added(ix, pod, Keys(kind, pod)).forward, key) == At(ix.forward, key) + Copies(pod, Mentions(kind, pod, key))
  {
    AddedLists(ix, pod, Keys(kind, pod), key);
    KeysAreMentions(kind, pod, key);
  }
}
