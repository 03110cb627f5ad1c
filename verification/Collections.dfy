/** Options, weighted sums and bags over sequences, and how each changes when one element is replaced. */
module Collections {

  datatype Option<+T> = None | Some(value: T)

  /** The sum of the weights of the elements. */
  ghost function SumOf<T(!new)>(f: T -> nat, xs: seq<T>): nat {
    if xs == [] then 0 else f(xs[0]) + SumOf(f, xs[1..])
  }

  lemma {:induction false} SumUpdate<T(!new)>(f: T -> nat, xs: seq<T>, i: nat, y: T)
    requires i < |xs|
    ensures SumOf(f, xs[i := y]) + f(xs[i]) == SumOf(f, xs) + f(y)
  {
    if i == 0 {
      assert xs[i := y][1..] == xs[1..];
    } else {
      assert xs[i := y][1..] == xs[1..][i - 1 := y];
      SumUpdate(f, xs[1..], i - 1, y);
    }
  }

  /** Pointwise order of two weightings carries over to the sums; one strict place makes the sums differ. */
  lemma {:induction false} SumOrder<T(!new), U(!new)>(f: T -> nat, xs: seq<T>, g: U -> nat, ys: seq<U>)
    requires |xs| == |ys|
    requires forall i :: 0 <= i < |xs| ==> f(xs[i]) <= g(ys[i])
    ensures SumOf(f, xs) <= SumOf(g, ys)
    ensures SumOf(f, xs) == SumOf(g, ys) <==> forall i :: 0 <= i < |xs| ==> f(xs[i]) == g(ys[i])
  {
    if xs != [] {
      assert forall i :: 0 <= i < |xs[1..]| ==> xs[1..][i] == xs[i + 1] && ys[1..][i] == ys[i + 1];
      SumOrder(f, xs[1..], g, ys[1..]);
      if SumOf(f, xs) == SumOf(g, ys) {
        forall i | 0 <= i < |xs| ensures f(xs[i]) == g(ys[i]) {
          if i > 0 { assert f(xs[1..][i - 1]) == g(ys[1..][i - 1]); }
        }
      }
    }
  }

  /** The same with one place left out of the comparison. */
  lemma {:induction false} SumOrderBut<T(!new), U(!new)>(f: T -> nat, xs: seq<T>, g: U -> nat, ys: seq<U>, but: nat)
    requires but < |xs| == |ys|
    requires forall i :: 0 <= i < |xs| && i != but ==> f(xs[i]) <= g(ys[i])
    ensures SumOf(f, xs) + g(ys[but]) <= SumOf(g, ys) + f(xs[but])
  {
    assert forall i :: 0 <= i < |xs[1..]| ==> xs[1..][i] == xs[i + 1] && ys[1..][i] == ys[i + 1];
    if but == 0 {
      SumOrder(f, xs[1..], g, ys[1..]);
    } else {
      SumOrderBut(f, xs[1..], g, ys[1..], but - 1);
    }
  }

  lemma {:induction false} SumAtLeast<T(!new)>(f: T -> nat, xs: seq<T>, i: nat)
    requires i < |xs|
    ensures f(xs[i]) <= SumOf(f, xs)
  {
    if i > 0 { SumAtLeast(f, xs[1..], i - 1); }
  }

  /** Weights bounded by one add up to at most the length, and to all of it only when every weight is one. */
  lemma {:induction false} SumUnit<T(!new)>(f: T -> nat, xs: seq<T>)
    requires forall i :: 0 <= i < |xs| ==> f(xs[i]) <= 1
    ensures SumOf(f, xs) <= |xs|
    ensures SumOf(f, xs) == |xs| <==> forall i :: 0 <= i < |xs| ==> f(xs[i]) == 1
  {
    if xs != [] {
      assert forall i :: 0 <= i < |xs[1..]| ==> xs[1..][i] == xs[i + 1];
      SumUnit(f, xs[1..]);
      if SumOf(f, xs) == |xs| {
        forall i | 0 <= i < |xs| ensures f(xs[i]) == 1 {
          if i > 0 { assert f(xs[1..][i - 1]) == 1; }
        }
      }
    }
  }

  lemma {:induction false} SumAppend<T(!new)>(f: T -> nat, xs: seq<T>, ys: seq<T>)
    ensures SumOf(f, xs + ys) == SumOf(f, xs) + SumOf(f, ys)
  {
    if xs == [] {
      assert xs + ys == ys;
    } else {
      assert (xs + ys)[1..] == xs[1..] + ys;
      SumAppend(f, xs[1..], ys);
    }
  }

  /** The union, with multiplicity, of the bags of the elements. */
  ghost function BagOf<T(!new), U>(f: T -> multiset<U>, xs: seq<T>): multiset<U> {
    if xs == [] then multiset{} else f(xs[0]) + BagOf(f, xs[1..])
  }

  lemma {:induction false} BagUpdate<T(!new), U>(f: T -> multiset<U>, xs: seq<T>, i: nat, y: T)
    requires i < |xs|
    ensures BagOf(f, xs[i := y]) + f(xs[i]) == BagOf(f, xs) + f(y)
  {
    if i == 0 {
      assert xs[i := y][1..] == xs[1..];
    } else {
      var before, after := BagOf(f, xs[1..]), BagOf(f, xs[1..][i - 1 := y]);
      BagUpdate(f, xs[1..], i - 1, y);
      assert xs[i := y][1..] == xs[1..][i - 1 := y];
      calc {
        BagOf(f, xs[i := y]) + f(xs[i]);
        f(xs[0]) + after + f(xs[i]);
        f(xs[0]) + (after + f(xs[i]));
        { assert xs[1..][i - 1] == xs[i]; }
        f(xs[0]) + (before + f(y));
        f(xs[0]) + before + f(y);
      }
    }
  }

  lemma {:induction false} BagMembers<T(!new), U>(f: T -> multiset<U>, xs: seq<T>, u: U)
    ensures u in BagOf(f, xs) <==> exists i :: 0 <= i < |xs| && u in f(xs[i])
  {
    if xs != [] {
      BagMembers(f, xs[1..], u);
      if u in BagOf(f, xs) && u !in f(xs[0]) {
        var i :| 0 <= i < |xs[1..]| && u in f(xs[1..][i]);
        assert u in f(xs[i + 1]);
      }
      if i :| 0 <= i < |xs| && u in f(xs[i]) {
        if i > 0 { assert u in f(xs[1..][i - 1]); }
      }
    }
  }

  lemma {:induction false} BagAppend<T(!new), U>(f: T -> multiset<U>, xs: seq<T>, ys: seq<T>)
    ensures BagOf(f, xs + ys) == BagOf(f, xs) + BagOf(f, ys)
  {
    if xs == [] {
      assert xs + ys == ys;
    } else {
      assert (xs + ys)[1..] == xs[1..] + ys;
      BagAppend(f, xs[1..], ys);
    }
  }

  lemma {:induction false} BagMinusOne<T>(xs: seq<T>, i: nat)
    requires i < |xs|
    ensures multiset(xs[..i] + xs[i + 1..]) == multiset(xs) - multiset{xs[i]}
  {
    assert xs == xs[..i] + [xs[i]] + xs[i + 1..];
    assert multiset(xs) == multiset(xs[..i] + xs[i + 1..]) + multiset{xs[i]};
  }

  lemma {:induction false} WithoutOne<T>(xs: seq<T>, ys: seq<T>, i: nat)
    requires multiset(xs) == multiset(ys) && xs != [] && i < |ys| && ys[i] == xs[0]
    ensures multiset(xs[1..]) == multiset(ys[..i] + ys[i + 1..])
  {
    BagMinusOne(xs, 0);
    assert xs[..0] + xs[1..] == xs[1..];
    BagMinusOne(ys, i);
  }

  lemma {:induction false} BagSwap<U>(a: multiset<U>, b: multiset<U>, c: multiset<U>)
    ensures a + (b + c) == b + (a + c)
  {
  }

  lemma {:induction false} BagWithoutOne<T(!new), U>(f: T -> multiset<U>, ys: seq<T>, i: nat)
    requires i < |ys|
    ensures BagOf(f, ys) == f(ys[i]) + BagOf(f, ys[..i] + ys[i + 1..])
  {
    var rest := ys[..i] + ys[i + 1..];
    if i == 0 {
      assert rest == ys[1..];
    } else {
      BagWithoutOne(f, ys[1..], i - 1);
      assert rest[0] == ys[0] && rest[1..] == ys[1..][..i - 1] + ys[1..][i..];
      BagSwap(f(ys[0]), f(ys[i]), BagOf(f, rest[1..]));
    }
  }

  /** The union does not depend on the order of the elements. */
  lemma {:induction false} BagOfPermutation<T(!new), U>(f: T -> multiset<U>, xs: seq<T>, ys: seq<T>)
    requires multiset(xs) == multiset(ys)
    ensures BagOf(f, xs) == BagOf(f, ys)
  {
    if xs == [] {
      assert |multiset(ys)| == |ys|;
    } else {
      assert xs[0] in multiset(ys);
      var i :| 0 <= i < |ys| && ys[i] == xs[0];
      WithoutOne(xs, ys, i);
      BagWithoutOne(f, ys, i);
      BagOfPermutation(f, xs[1..], ys[..i] + ys[i + 1..]);
    }
  }

  /** The lists of the elements, one after another. */
  function FlatMap<T, U>(f: T -> seq<U>, xs: seq<T>): seq<U> {
    if xs == [] then [] else FlatMap(f, xs[..|xs| - 1]) + f(xs[|xs| - 1])
  }

  lemma {:induction false} FlatMapPush<T, U>(f: T -> seq<U>, xs: seq<T>, x: T)
    ensures FlatMap(f, xs + [x]) == FlatMap(f, xs) + f(x)
  {
    assert (xs + [x])[..|xs|] == xs;
  }

  lemma {:induction false} FlatMapAppend<T, U>(f: T -> seq<U>, xs: seq<T>, ys: seq<T>)
    ensures FlatMap(f, xs + ys) == FlatMap(f, xs) + FlatMap(f, ys)
  {
    if ys == [] {
      assert xs + ys == xs;
    } else {
      FlatMapAppend(f, xs, ys[..|ys| - 1]);
      assert (xs + ys)[..|xs + ys| - 1] == xs + ys[..|ys| - 1];
    }
  }

  /** The same with something in front. */
  lemma {:induction false} FlatMapAppendAfter<T, U>(head: seq<U>, f: T -> seq<U>, xs: seq<T>, ys: seq<T>)
    ensures head + FlatMap(f, xs + ys) == head + FlatMap(f, xs) + FlatMap(f, ys)
  {
    FlatMapAppend(f, xs, ys);
  }

  lemma {:induction false} FlatMapPushAfter<T, U>(head: seq<U>, f: T -> seq<U>, xs: seq<T>, x: T)
    ensures head + FlatMap(f, xs + [x]) == head + FlatMap(f, xs) + f(x)
  {
    FlatMapPush(f, xs, x);
  }

  lemma {:induction false} FlatMapMembers<T, U>(f: T -> seq<U>, xs: seq<T>, u: U)
    ensures u in FlatMap(f, xs) <==> exists i :: 0 <= i < |xs| && u in f(xs[i])
  {
    if xs != [] {
      var front, last := xs[..|xs| - 1], |xs| - 1;
      FlatMapMembers(f, front, u);
      assert u in FlatMap(f, xs) <==> u in FlatMap(f, front) || u in f(xs[last]);
      forall i | 0 <= i < last ensures front[i] == xs[i] {}
    }
  }

  /** The sum of real weights. */
  ghost function RealSum<T(!new)>(f: T -> real, xs: seq<T>): real {
    if xs == [] then 0.0 else f(xs[0]) + RealSum(f, xs[1..])
  }

  lemma {:induction false} RealSumWithoutOne<T(!new)>(f: T -> real, ys: seq<T>, i: nat)
    requires i < |ys|
    ensures RealSum(f, ys) == f(ys[i]) + RealSum(f, ys[..i] + ys[i + 1..])
  {
    var rest := ys[..i] + ys[i + 1..];
    if i == 0 {
      assert rest == ys[1..];
    } else {
      RealSumWithoutOne(f, ys[1..], i - 1);
      assert rest[0] == ys[0] && rest[1..] == ys[1..][..i - 1] + ys[1..][i..];
    }
  }

  /** The sum does not depend on the order of the elements. */
  lemma {:induction false} RealSumOfPermutation<T(!new)>(f: T -> real, xs: seq<T>, ys: seq<T>)
    requires multiset(xs) == multiset(ys)
    ensures RealSum(f, xs) == RealSum(f, ys)
  {
    if xs == [] {
      assert |multiset(ys)| == |ys|;
    } else {
      assert xs[0] in multiset(ys);
      var i :| 0 <= i < |ys| && ys[i] == xs[0];
      WithoutOne(xs, ys, i);
      RealSumWithoutOne(f, ys, i);
      RealSumOfPermutation(f, xs[1..], ys[..i] + ys[i + 1..]);
    }
  }

  ghost function Bagged<T(!new), U>(f: T -> seq<U>): T -> multiset<U> { (x: T) => multiset(f(x)) }

  lemma {:induction false} FlatMapBag<T(!new), U>(f: T -> seq<U>, xs: seq<T>)
    ensures multiset(FlatMap(f, xs)) == BagOf(Bagged(f), xs)
  {
    if xs != [] {
      var front, last := xs[..|xs| - 1], xs[|xs| - 1];
      FlatMapBag(f, front);
      assert xs == front + [last];
      BagAppend(Bagged(f), front, [last]);
      assert [last][1..] == [];
      assert BagOf(Bagged(f), [last]) == multiset(f(last));
    }
  }
}
