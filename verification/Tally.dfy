/** Sums over the goroutines of a pipeline, and how they change when one or two goroutines step. */
module Tally {

  ghost function Sum(xs: seq<nat>): nat {
    if xs == [] then 0 else Sum(xs[..|xs| - 1]) + xs[|xs| - 1]
  }

  lemma {:induction false} SumUpdate(xs: seq<nat>, i: nat, v: nat)
    requires i < |xs|
    ensures Sum(xs[i := v]) + xs[i] == Sum(xs) + v
  {
    var last := |xs| - 1;
    if i == last {
      assert xs[i := v][..last] == xs[..last];
    } else {
      SumUpdate(xs[..last], i, v);
      assert xs[i := v][..last] == xs[..last][i := v];
    }
  }

  lemma {:induction false} SumLeq(xs: seq<nat>, ys: seq<nat>)
    requires |xs| == |ys| && forall i :: 0 <= i < |xs| ==> xs[i] <= ys[i]
    ensures Sum(xs) <= Sum(ys)
  {
    if xs != [] {
      SumLeq(xs[..|xs| - 1], ys[..|ys| - 1]);
    }
  }

  lemma {:induction false} SumBounded(xs: seq<nat>, b: nat)
    requires forall i :: 0 <= i < |xs| ==> xs[i] <= b
    ensures Sum(xs) <= |xs| * b
  {
    if xs != [] {
      SumBounded(xs[..|xs| - 1], b);
    }
  }

  lemma {:induction false} SumZero(xs: seq<nat>)
    ensures Sum(xs) == 0 <==> forall i :: 0 <= i < |xs| ==> xs[i] == 0
  {
    if xs != [] {
      var last := |xs| - 1;
      SumZero(xs[..last]);
      assert forall i :: 0 <= i < last ==> xs[..last][i] == xs[i];
    }
  }

  lemma {:induction false} SumAtLeast(xs: seq<nat>, i: nat)
    requires i < |xs|
    ensures xs[i] <= Sum(xs)
  {
    if i < |xs| - 1 {
      SumAtLeast(xs[..|xs| - 1], i);
    }
  }

  lemma {:induction false} SumOnes(xs: seq<nat>)
    requires forall i :: 0 <= i < |xs| ==> xs[i] == 1
    ensures Sum(xs) == |xs|
  {
    if xs != [] {
      SumOnes(xs[..|xs| - 1]);
    }
  }

  lemma {:induction false} SumSplit(xs: seq<nat>, ys: seq<nat>, zs: seq<nat>)
    requires |xs| == |ys| == |zs| && forall i :: 0 <= i < |xs| ==> xs[i] == ys[i] + zs[i]
    ensures Sum(xs) == Sum(ys) + Sum(zs)
  {
    if xs != [] {
      var last := |xs| - 1;
      SumSplit(xs[..last], ys[..last], zs[..last]);
    }
  }

  // ----- Weighing a sequence -----

  ghost function Mass<T>(f: T -> nat, xs: seq<T>): nat {
    if xs == [] then 0 else Mass(f, xs[..|xs| - 1]) + f(xs[|xs| - 1])
  }

  lemma MassAppend<T>(f: T -> nat, xs: seq<T>, x: T)
    ensures Mass(f, xs + [x]) == Mass(f, xs) + f(x)
  {
    assert (xs + [x])[..|xs|] == xs;
  }

  lemma {:induction false} MassFront<T>(f: T -> nat, xs: seq<T>)
    requires xs != []
    ensures Mass(f, xs) == f(xs[0]) + Mass(f, xs[1..])
  {
    if |xs| > 1 {
      var last := |xs| - 1;
      MassFront(f, xs[..last]);
      assert xs[..last][1..] == xs[1..][..last - 1];
    } else {
      assert xs[..0] == [] && xs[1..] == [];
    }
  }

  lemma {:induction false} MassPositive<T>(f: T -> nat, xs: seq<T>)
    requires Mass(f, xs) > 0
    ensures exists i :: 0 <= i < |xs| && f(xs[i]) > 0
  {
    var last := |xs| - 1;
    if f(xs[last]) == 0 {
      MassPositive(f, xs[..last]);
      var i :| 0 <= i < last && f(xs[..last][i]) > 0;
      assert f(xs[i]) > 0;
    }
  }

  lemma {:induction false} MassOfMember<T>(f: T -> nat, xs: seq<T>, i: nat)
    requires i < |xs|
    ensures Mass(f, xs) >= f(xs[i])
  {
    if i < |xs| - 1 {
      MassOfMember(f, xs[..|xs| - 1], i);
    }
  }

  lemma {:induction false} MassOfTwo<T>(f: T -> nat, xs: seq<T>, i: nat, k: nat)
    requires i < k < |xs|
    ensures Mass(f, xs) >= f(xs[i]) + f(xs[k])
  {
    var last := |xs| - 1;
    if k < last {
      MassOfTwo(f, xs[..last], i, k);
    } else {
      MassOfMember(f, xs[..last], i);
    }
  }
}
