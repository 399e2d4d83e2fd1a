/** Small shared vocabulary: optional values, what becomes of a command, times to live, and sums
    over the threads of a system. */
module Basics {
  datatype Option<+T> = None | Some(value: T)

  /** What became of an external command: done, done but reported failed, or never done. */
  datatype Outcome = Acked | Unacked | Lost

  predicate Alive(expires: Option<nat>, now: nat) {
    expires.None? || now < expires.value
  }

  function Max(a: nat, b: nat): nat {
    if a < b then b else a
  }

  /** The total of a sequence of per-thread weights. */
  function Sum(xs: seq<nat>): nat {
    if xs == [] then 0 else Sum(xs[..|xs| - 1]) + xs[|xs| - 1]
  }

  lemma SumAppend(xs: seq<nat>, v: nat)
    ensures Sum(xs + [v]) == Sum(xs) + v
  {
    assert (xs + [v])[..|xs|] == xs;
  }

  /** Changing one thread's weight changes the total by the difference. */
  lemma {:induction false} SumUpdate(xs: seq<nat>, i: nat, v: nat)
    requires i < |xs|
    ensures Sum(xs[i := v]) + xs[i] == Sum(xs) + v
  {
    var last := |xs| - 1;
    if i == last {
      assert xs[i := v][..last] == xs[..last];
    } else {
      SumUpdate(xs[..last], i, v);
      assert xs[i := v][..last] == xs[..last][i := v];
    }
  }

  lemma {:induction false} SumAtLeastOne(xs: seq<nat>, i: nat)
    requires i < |xs|
    ensures xs[i] <= Sum(xs)
  {
    if i < |xs| - 1 {
      SumAtLeastOne(xs[..|xs| - 1], i);
    }
  }

  /** Two different threads both count towards the total. */
  lemma {:induction false} SumAtLeastTwo(xs: seq<nat>, i: nat, j: nat)
    requires i < j < |xs|
    ensures xs[i] + xs[j] <= Sum(xs)
  {
    if j == |xs| - 1 {
      SumAtLeastOne(xs[..j], i);
    } else {
      SumAtLeastTwo(xs[..|xs| - 1], i, j);
    }
  }

  /** A total of weights that are each at most one never exceeds the number of threads. */
  lemma {:induction false} SumBounded(xs: seq<nat>)
    requires forall i | 0 <= i < |xs| :: xs[i] <= 1
    ensures Sum(xs) <= |xs|
  {
    if xs != [] {
      SumBounded(xs[..|xs| - 1]);
    }
  }

  lemma {:induction false} SumPrepend(v: nat, xs: seq<nat>)
    ensures Sum([v] + xs) == v + Sum(xs)
  {
    if xs == [] {
      assert [v] + xs == [v] && [v][..0] == [];
    } else {
      var last := |xs| - 1;
      SumPrepend(v, xs[..last]);
      assert ([v] + xs)[..last + 1] == [v] + xs[..last];
    }
  }

  lemma {:induction false} SumOfZeros(xs: seq<nat>)
    requires forall n | 0 <= n < |xs| :: xs[n] == 0
    ensures Sum(xs) == 0
  {
    if xs != [] {
      SumOfZeros(xs[..|xs| - 1]);
    }
  }

  lemma {:induction false} SumOfOnes(xs: seq<nat>)
    requires forall n | 0 <= n < |xs| :: xs[n] == 1
    ensures Sum(xs) == |xs|
  {
    if xs != [] {
      SumOfOnes(xs[..|xs| - 1]);
    }
  }

  lemma {:induction false} SumMonotone(xs: seq<nat>, ys: seq<nat>)
    requires |xs| == |ys| && forall n | 0 <= n < |xs| :: xs[n] <= ys[n]
    ensures Sum(xs) <= Sum(ys)
  {
    if xs != [] {
      SumMonotone(xs[..|xs| - 1], ys[..|ys| - 1]);
    }
  }

  lemma {:induction false} SumAdds(xs: seq<nat>, ys: seq<nat>, zs: seq<nat>)
    requires |xs| == |ys| == |zs| && forall n | 0 <= n < |xs| :: xs[n] == ys[n] + zs[n]
    ensures Sum(xs) == Sum(ys) + Sum(zs)
  {
    if xs != [] {
      var m := |xs| - 1;
      SumAdds(xs[..m], ys[..m], zs[..m]);
    }
  }

  /** A total that exceeds another one at one place, or at two. */
  lemma {:induction false} SumExceeds(xs: seq<nat>, ys: seq<nat>, i: nat)
    requires |xs| == |ys| && i < |xs| && xs[i] < ys[i] && forall n | 0 <= n < |xs| :: xs[n] <= ys[n]
    ensures Sum(xs) + 1 <= Sum(ys)
  {
    var last := |xs| - 1;
    if i == last {
      SumMonotone(xs[..last], ys[..last]);
    } else {
      SumExceeds(xs[..last], ys[..last], i);
    }
  }

  lemma {:induction false} SumExceedsTwice(xs: seq<nat>, ys: seq<nat>, i: nat, j: nat)
    requires |xs| == |ys| && i < j < |xs| && xs[i] < ys[i] && xs[j] < ys[j]
    requires forall n | 0 <= n < |xs| :: xs[n] <= ys[n]
    ensures Sum(xs) + 2 <= Sum(ys)
  {
    var last := |xs| - 1;
    if j == last {
      SumExceeds(xs[..last], ys[..last], i);
    } else {
      SumExceedsTwice(xs[..last], ys[..last], i, j);
    }
  }

  /** Zeros at the end add nothing. */
  lemma {:induction false} SumPadded(xs: seq<nat>, ys: seq<nat>)
    requires |xs| <= |ys| && ys[..|xs|] == xs && forall n | |xs| <= n < |ys| :: ys[n] == 0
    ensures Sum(ys) == Sum(xs)
  {
    if |xs| < |ys| {
      SumPadded(xs, ys[..|ys| - 1]);
    } else {
      assert ys == xs;
    }
  }

  /** A multiset inside another one is no larger. */
  lemma SubMultisetSize<T>(a: multiset<T>, b: multiset<T>)
    requires a <= b
    ensures |a| <= |b|
  {
    assert b == a + (b - a);
  }
}
