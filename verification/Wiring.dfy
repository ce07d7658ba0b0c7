/** How Process and FixedWorkerPool wire stages, workers and channels together. */
module Wiring {
  import opened Tally
  import opened Payloads
  import opened Control
  import opened Shutdown

  /** The stage of each worker of a pipeline whose stage i has sizes[i] workers. */
  ghost function StagesOf(sizes: seq<nat>): seq<nat> {
    if sizes == [] then []
    else StagesOf(sizes[..|sizes| - 1]) + seq(sizes[|sizes| - 1], _ => |sizes| - 1)
  }

  ghost function Pipeline(sizes: seq<nat>, m: nat, base: nat): Config {
    Config(StagesOf(sizes), |sizes|, m, base)
  }

  /** A fifo stage runner; FIFO(proc) in the code. */
  datatype Fifo<P> = Fifo(proc: P)

  /** A pool of fifo runners that share the processor; the code panics on a size that is not positive. */
  method FixedWorkerPool<P>(proc: P, numWorkers: int) returns (pool: Option<seq<Fifo<P>>>)
    ensures pool.Some? <==> numWorkers > 0
    ensures pool.Some? ==>
              |pool.value| == numWorkers && forall i :: 0 <= i < numWorkers ==> pool.value[i] == Fifo(proc)
  {
    if numWorkers <= 0 {
      return None;
    }
    var fifos := [];
    for i := 0 to numWorkers
      invariant |fifos| == i && forall k :: 0 <= k < i ==> fifos[k] == Fifo(proc)
    {
      fifos := fifos + [Fifo(proc)];
    }
    return Some(fifos);
  }

  ghost function Sizes<T>(pools: seq<seq<T>>): (r: seq<nat>)
    ensures |r| == |pools|
  {
    seq(|pools|, i requires 0 <= i < |pools| => |pools[i]|)
  }

  /** Starts a goroutine for every worker of every stage; worker x runs a fifo of the pool of stage stageOf[x]. */
  method SpawnWorkers<P>(pools: seq<seq<Fifo<P>>>) returns (stageOf: seq<nat>, runs: seq<Fifo<P>>)
    ensures stageOf == StagesOf(Sizes(pools)) && |runs| == |stageOf|
    ensures forall x :: 0 <= x < |runs| ==> stageOf[x] < |pools| && runs[x] in pools[stageOf[x]]
  {
    stageOf, runs := [], [];
    for stage := 0 to |pools|
      invariant stageOf == StagesOf(Sizes(pools)[..stage]) && |runs| == |stageOf|
      invariant forall x :: 0 <= x < |runs| ==> stageOf[x] < stage && runs[x] in pools[stageOf[x]]
    {
      ghost var before := stageOf;
      for w := 0 to |pools[stage]|
        invariant stageOf == before + seq(w, _ => stage) && |runs| == |stageOf|
        invariant forall x :: 0 <= x < |runs| ==> stageOf[x] <= stage && runs[x] in pools[stageOf[x]]
      {
        assert seq(w + 1, _ => stage) == seq(w, _ => stage) + [stage];
        stageOf, runs := stageOf + [stage], runs + [pools[stage][w]];
      }
      assert Sizes(pools)[..stage + 1][..stage] == Sizes(pools)[..stage];
    }
    assert Sizes(pools)[..|pools|] == Sizes(pools);
  }

  /** The stages of a pipeline: stage i has sizes[i] workers, which all run its processor. */
  method StartStages<P>(procs: seq<P>, sizes: seq<nat>) returns (stageOf: seq<nat>, runs: seq<Fifo<P>>)
    requires |procs| == |sizes| && forall i :: 0 <= i < |sizes| ==> sizes[i] > 0
    ensures stageOf == StagesOf(sizes) && |runs| == |stageOf|
    ensures forall x :: 0 <= x < |runs| ==> stageOf[x] < |procs| && runs[x] == Fifo(procs[stageOf[x]])
  {
    var pools: seq<seq<Fifo<P>>> := [];
    for i := 0 to |procs|
      invariant |pools| == i && forall k :: 0 <= k < i ==> |pools[k]| == sizes[k]
      invariant forall k, h :: 0 <= k < i && 0 <= h < sizes[k] ==> pools[k][h] == Fifo(procs[k])
    {
      var pool := FixedWorkerPool(procs[i], sizes[i]);
      pools := pools + [pool.value];
    }
    assert Sizes(pools) == sizes;
    stageOf, runs := SpawnWorkers(pools);
    forall x | 0 <= x < |runs| ensures runs[x] == Fifo(procs[stageOf[x]]) {
      var h :| 0 <= h < |pools[stageOf[x]]| && pools[stageOf[x]][h] == runs[x];
    }
  }

  /** The channels each stage sends on, and the channel each storage provider's sink reads. */
  method WireChannels(c: Config) returns (outputs: seq<seq<nat>>, inputs: seq<nat>)
    requires Wired(c)
    ensures |outputs| == c.n && |inputs| == c.m
    ensures forall i :: 0 <= i < c.n ==>
              |outputs[i]| == Fanout(c, i) && forall j :: 0 <= j < |outputs[i]| ==> outputs[i][j] == OutChannel(i, j)
    ensures forall idx :: 0 <= idx < c.m ==> inputs[idx] == c.n + (c.m - 1 - idx)
  {
    outputs := [];
    for stageIndex := 0 to c.n
      invariant |outputs| == stageIndex
      invariant forall i :: 0 <= i < stageIndex ==>
                  && |outputs[i]| == Fanout(c, i)
                  && forall j :: 0 <= j < |outputs[i]| ==> outputs[i][j] == OutChannel(i, j)
    {
      var outCh := [stageIndex + 1];
      if stageIndex == c.n - 1 {
        outCh := [];
        for i := c.n to c.n + c.m
          invariant |outCh| == i - c.n
          invariant forall j :: 0 <= j < |outCh| ==> outCh[j] == OutChannel(stageIndex, j)
        {
          outCh := outCh + [i];
        }
      }
      outputs := outputs + [outCh];
    }
    inputs := [];
    for idx := 0 to c.m
      invariant |inputs| == idx
      invariant forall i :: 0 <= i < idx ==> inputs[i] == c.n + (c.m - 1 - i)
    {
      inputs := inputs + [c.n + c.m - 1 - idx];
    }
  }

  lemma {:induction false} StagesInRange(sizes: seq<nat>)
    requires forall i :: 0 <= i < |sizes| ==> sizes[i] >= 1
    ensures forall x :: 0 <= x < |StagesOf(sizes)| ==> StagesOf(sizes)[x] < |sizes|
    ensures forall i :: 0 <= i < |sizes| ==> i in StagesOf(sizes)
  {
    if sizes != [] {
      var last := |sizes| - 1;
      StagesInRange(sizes[..last]);
      var own := seq(sizes[last], _ => last);
      assert own[0] == last;
      forall i | 0 <= i < |sizes| ensures i in StagesOf(sizes) {
        if i < last {
          assert i in StagesOf(sizes[..last]);
        } else {
          assert i in own;
        }
      }
    }
  }

  lemma {:induction false} SumConcat(a: seq<nat>, b: seq<nat>)
    ensures Sum(a + b) == Sum(a) + Sum(b)
  {
    if b == [] {
      assert a + b == a;
    } else {
      SumConcat(a, b[..|b| - 1]);
      assert (a + b)[..|a + b| - 1] == a + b[..|b| - 1];
    }
  }

  /** The sizes of the stages before channel k. */
  ghost function Before(sizes: seq<nat>, k: nat): seq<nat> {
    if k <= |sizes| then sizes[..k] else sizes
  }

  /** The workers of one stage are all upstream of channel k, or none is. */
  lemma OwnCounts(stage: nat, size: nat, k: nat)
    ensures Sum(Upstream(seq(size, _ => stage), k)) == if stage < k then size else 0
  {
    var own := Upstream(seq(size, _ => stage), k);
    if stage < k {
      SumOnes(own);
    } else {
      SumZero(own);
    }
  }

  lemma UpstreamConcat(a: seq<nat>, b: seq<nat>, k: nat)
    ensures Sum(Upstream(a + b, k)) == Sum(Upstream(a, k)) + Sum(Upstream(b, k))
  {
    assert Upstream(a + b, k) == Upstream(a, k) + Upstream(b, k);
    SumConcat(Upstream(a, k), Upstream(b, k));
  }

  lemma BeforeNext(sizes: seq<nat>, k: nat)
    requires sizes != []
    ensures var last := |sizes| - 1;
            Sum(Before(sizes, k)) == Sum(Before(sizes[..last], k)) + if last < k then sizes[last] else 0
  {
    var last := |sizes| - 1;
    if last < k {
      assert Before(sizes, k) == sizes && Before(sizes[..last], k) == sizes[..last];
    } else {
      assert Before(sizes[..last], k) == Before(sizes, k);
    }
  }

  /** There are w_0 + ... + w_{k-1} workers upstream of stage channel k. */
  lemma {:induction false} UpstreamCounts(sizes: seq<nat>, k: nat)
    ensures Sum(Upstream(StagesOf(sizes), k)) == Sum(Before(sizes, k))
  {
    if sizes != [] {
      var last := |sizes| - 1;
      UpstreamCounts(sizes[..last], k);
      UpstreamConcat(StagesOf(sizes[..last]), seq(sizes[last], _ => last), k);
      OwnCounts(last, sizes[last], k);
      BeforeNext(sizes, k);
    }
  }

  /**
   * The bound on transfers after cancellation in terms of the pool sizes: 1 + w_0 + ... + w_{k-1} on stage
   * channel k, and one more than all workers on each sink channel.
   */
  lemma BoundedShutdownBySizes<V>(sizes: seq<nat>, m: nat, base: nat, before: seq<Label<V>>, after: seq<Label<V>>,
                                  k: nat)
    requires sizes != [] && m >= 1 && forall i :: 0 <= i < |sizes| ==> sizes[i] >= 1
    requires k < |sizes| + m
    ensures Wired(Pipeline(sizes, m, base))
    ensures var c := Pipeline(sizes, m, base);
            Run(c, Init(c), before) && Exec(c, Init(c), before).cancelled && Run(c, Exec(c, Init(c), before), after) ==>
              var s := Exec(c, Init(c), before);
              |Exec(c, s, after).log[k]| <= |s.log[k]| + 1 + Sum(Before(sizes, k))
  {
    var c := Pipeline(sizes, m, base);
    StagesInRange(sizes);
    assert Wired(c);
    if Run(c, Init(c), before) && Exec(c, Init(c), before).cancelled && Run(c, Exec(c, Init(c), before), after) {
      BoundedShutdown(c, before, after, k);
      UpstreamCounts(sizes, k);
    }
  }
}
