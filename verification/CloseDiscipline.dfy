/** Who closes which channel when, and what the WaitGroup counts: no run panics. */
module CloseDiscipline {
  import opened Tally
  import opened Control

  ghost function StageCounts<V>(s: State<V>): (r: seq<nat>)
    ensures |r| == |s.stages|
  {
    seq(|s.stages|, i requires 0 <= i < |s.stages| => if s.stages[i].StageDone? then 0 else 1)
  }

  ghost function SinkCounts<V>(s: State<V>): (r: seq<nat>)
    ensures |r| == |s.sinks|
  {
    seq(|s.sinks|, j requires 0 <= j < |s.sinks| => if s.sinks[j].SinkDone? then 0 else 1)
  }

  /** The worker goroutines of Process that have not called wg.Done yet. */
  ghost function Live<V>(s: State<V>): nat {
    (if s.source.SourceDone? then 0 else 1) + Sum(StageCounts(s)) + Sum(SinkCounts(s))
  }

  ghost predicate AllDone<V>(s: State<V>) {
    && s.source.SourceDone?
    && (forall i :: 0 <= i < |s.stages| ==> s.stages[i].StageDone?)
    && (forall j :: 0 <= j < |s.sinks| ==> s.sinks[j].SinkDone?)
  }

  ghost predicate SourceFinished<V>(s: State<V>) {
    s.source.Reporting? || s.source.SourceReturned? || s.source.SourceClosed? || s.source.SourceDone?
  }

  ghost predicate ChannelsMatch<V>(c: Config, s: State<V>)
    requires Shaped(c, s)
  {
    && (s.closed[0] <==> s.source.SourceClosed? || s.source.SourceDone?)
    && (forall i :: 0 <= i < c.n ==> (s.closed[i + 1] <==> !s.stages[i].Running?))
    && (forall k :: c.n < k < c.n + c.m ==> !s.closed[k])
  }

  ghost predicate ClosedAfterExit<V>(c: Config, s: State<V>)
    requires Shaped(c, s)
  {
    forall i, x :: 0 <= i < c.n && 0 <= x < |c.stageOf| && !s.stages[i].Running? && c.stageOf[x] == i
      ==> s.workers[x].Exited?
  }

  ghost predicate Ends<V>(c: Config, s: State<V>) {
    && (ErrClosedOf(s) ==> AllDone(s) && c.base == 0)
    && (SourceFinished(s) ==> s.cancelled)
    && (s.closer.CloserDone? ==> s.cancelled)
    && (s.collector.CollectorReturned? ==> ErrClosedOf(s))
    && (s.errors != [] && !s.collector.Cancelling? ==> s.cancelled)
  }

  ghost predicate Aimed<V>(c: Config, s: State<V>)
    requires Shaped(c, s)
  {
    forall x :: 0 <= x < |s.workers| && s.workers[x].Broadcasting? ==> s.workers[x].next < Fanout(c, c.stageOf[x])
  }

  ghost predicate Inv<V>(c: Config, s: State<V>) {
    && Shaped(c, s) && Wired(c)
    && ChannelsMatch(c, s) && ClosedAfterExit(c, s) && Ends(c, s) && Aimed(c, s)
    && s.wg == c.base + Live(s)
  }

  lemma LiveNone<V>(s: State<V>)
    ensures Live(s) == 0 <==> AllDone(s)
  {
    SumZero(StageCounts(s));
    SumZero(SinkCounts(s));
    assert forall i :: 0 <= i < |s.stages| ==> (StageCounts(s)[i] == 0 <==> s.stages[i].StageDone?);
    assert forall j :: 0 <= j < |s.sinks| ==> (SinkCounts(s)[j] == 0 <==> s.sinks[j].SinkDone?);
  }

  lemma InitInv<V>(c: Config)
    requires Wired(c)
    ensures Inv<V>(c, Init(c))
  {
    SumOnes(StageCounts<V>(Init(c)));
    SumOnes(SinkCounts<V>(Init(c)));
  }

  /** The stages and sinks that are done stay the same. */
  lemma LiveSame<V>(s: State<V>, s': State<V>)
    requires |s'.stages| == |s.stages| && |s'.sinks| == |s.sinks|
    requires forall i :: 0 <= i < |s.stages| ==> (s'.stages[i].StageDone? <==> s.stages[i].StageDone?)
    requires forall j :: 0 <= j < |s.sinks| ==> (s'.sinks[j].SinkDone? <==> s.sinks[j].SinkDone?)
    requires s'.source.SourceDone? <==> s.source.SourceDone?
    ensures Live(s') == Live(s)
  {
    assert StageCounts(s') == StageCounts(s);
    assert SinkCounts(s') == SinkCounts(s);
  }

  lemma LiveStageFinish<V>(c: Config, s: State<V>, i: nat)
    requires Shaped(c, s) && Enabled(c, s, StageFinish(i))
    ensures var s' := Apply(c, s, StageFinish(i)); s'.wg - Live(s') == s.wg - Live(s)
  {
    var s' := Apply(c, s, StageFinish(i));
    SumUpdate(StageCounts(s), i, 0);
    assert StageCounts(s') == StageCounts(s)[i := 0];
    assert SinkCounts(s') == SinkCounts(s);
  }

  lemma LiveSinkFinish<V>(c: Config, s: State<V>, j: nat)
    requires Shaped(c, s) && Enabled(c, s, SinkFinish(j))
    ensures var s' := Apply(c, s, SinkFinish(j)); s'.wg - Live(s') == s.wg - Live(s)
  {
    var s' := Apply(c, s, SinkFinish(j));
    SumUpdate(SinkCounts(s), j, 0);
    assert SinkCounts(s') == SinkCounts(s)[j := 0];
    assert StageCounts(s') == StageCounts(s);
  }

  lemma LiveSourceFinish<V>(c: Config, s: State<V>)
    requires Shaped(c, s) && Enabled(c, s, SourceFinish)
    ensures var s' := Apply(c, s, SourceFinish); s'.wg - Live(s') == s.wg - Live(s)
  {
    var s' := Apply(c, s, SourceFinish);
    assert StageCounts(s') == StageCounts(s);
    assert SinkCounts(s') == SinkCounts(s);
  }

  lemma LiveQuiet<V>(c: Config, s: State<V>, l: Label<V>)
    requires Shaped(c, s) && Enabled(c, s, l) && !l.StageFinish? && !l.SinkFinish? && !l.SourceFinish?
    ensures var s' := Apply(c, s, l); s'.wg == s.wg && Live(s') == Live(s)
  {
    var s' := Apply(c, s, l);
    assert s'.source.SourceDone? <==> s.source.SourceDone?;
    assert s'.stages == if l.StageClose? then s.stages[l.stage := StageClosed] else s.stages;
    assert l.StageClose? ==> s.stages[l.stage].Running?;
    LiveSame(s, s');
  }

  lemma LiveStep<V>(c: Config, s: State<V>, l: Label<V>)
    requires Shaped(c, s) && Enabled(c, s, l)
    ensures var s' := Apply(c, s, l); s'.wg - Live(s') == s.wg - Live(s)
  {
    if l.StageFinish? {
      LiveStageFinish(c, s, l.stage);
    } else if l.SinkFinish? {
      LiveSinkFinish(c, s, l.sink);
    } else if l.SourceFinish? {
      LiveSourceFinish(c, s);
    } else {
      LiveQuiet(c, s, l);
    }
  }

  lemma ChannelsClose<V>(c: Config, s: State<V>, i: nat)
    requires Inv(c, s) && Enabled(c, s, StageClose(i))
    ensures ChannelsMatch(c, Apply(c, s, StageClose(i)))
  {
    var s' := Apply(c, s, StageClose(i));
    assert s'.closed == s.closed[i + 1 := true] && s'.stages == s.stages[i := StageClosed] && s'.source == s.source;
  }

  lemma ChannelsFinish<V>(c: Config, s: State<V>, i: nat)
    requires Inv(c, s) && Enabled(c, s, StageFinish(i))
    ensures ChannelsMatch(c, Apply(c, s, StageFinish(i)))
  {
    var s' := Apply(c, s, StageFinish(i));
    assert s'.closed == s.closed && s'.stages == s.stages[i := StageDone] && s'.source == s.source;
  }

  lemma ChannelsStep<V>(c: Config, s: State<V>, l: Label<V>)
    requires Inv(c, s) && Enabled(c, s, l)
    ensures ChannelsMatch(c, Apply(c, s, l))
  {
    if l.StageClose? {
      ChannelsClose(c, s, l.stage);
    } else if l.StageFinish? {
      ChannelsFinish(c, s, l.stage);
    } else {
      var s' := Apply(c, s, l);
      assert s'.stages == s.stages;
      assert s'.closed == if l.SourceClose? then s.closed[0 := true] else s.closed;
    }
  }

  lemma ExitStep<V>(c: Config, s: State<V>, l: Label<V>)
    requires Inv(c, s) && Enabled(c, s, l)
    ensures ClosedAfterExit(c, Apply(c, s, l))
  {
    var s' := Apply(c, s, l);
    assert forall x :: 0 <= x < |c.stageOf| && s.workers[x].Exited? ==> s'.workers[x] == s.workers[x];
    assert forall i :: 0 <= i < c.n && !s'.stages[i].Running? ==> !s.stages[i].Running? || AllExited(c, s, i);
  }

  lemma AllDoneStays<V>(c: Config, s: State<V>, l: Label<V>)
    requires Shaped(c, s) && Enabled(c, s, l) && AllDone(s)
    ensures AllDone(Apply(c, s, l))
  {
    var s' := Apply(c, s, l);
    assert s'.stages == s.stages && s'.sinks == s.sinks && s'.source == s.source;
  }

  lemma EndsStep<V>(c: Config, s: State<V>, l: Label<V>)
    requires Inv(c, s) && Enabled(c, s, l)
    ensures Ends(c, Apply(c, s, l))
  {
    LiveNone(s);
    if AllDone(s) {
      AllDoneStays(c, s, l);
    }
  }

  lemma AimedStep<V>(c: Config, s: State<V>, l: Label<V>)
    requires Inv(c, s) && Enabled(c, s, l)
    ensures Aimed(c, Apply(c, s, l))
  {
    var s' := Apply(c, s, l);
    forall x | 0 <= x < |s'.workers| && s'.workers[x].Broadcasting?
      ensures s'.workers[x].next < Fanout(c, c.stageOf[x])
    {
      assert s'.workers[x] == s.workers[x] || s'.workers[x].next == 0 || s'.workers[x].next == s.workers[x].next + 1;
    }
  }

  lemma InvStep<V>(c: Config, s: State<V>, l: Label<V>)
    requires Inv(c, s) && Enabled(c, s, l)
    ensures Inv(c, Apply(c, s, l))
  {
    LiveStep(c, s, l);
    ChannelsStep(c, s, l);
    ExitStep(c, s, l);
    EndsStep(c, s, l);
    AimedStep(c, s, l);
  }

  lemma {:induction false} InvRun<V>(c: Config, s: State<V>, ls: seq<Label<V>>)
    requires Inv(c, s) && Run(c, s, ls)
    ensures Inv(c, Exec(c, s, ls))
  {
    if ls != [] {
      InvRun(c, s, ls[..|ls| - 1]);
      InvStep(c, Exec(c, s, ls[..|ls| - 1]), ls[|ls| - 1]);
    }
  }

  lemma OpenForSends<V>(c: Config, s: State<V>, x: nat)
    requires Inv(c, s) && x < |s.workers| && s.workers[x].Broadcasting?
    ensures !s.closed[OutChannel(c.stageOf[x], s.workers[x].next)]
  {
    assert s.stages[c.stageOf[x]].Running?;
  }

  lemma InvNoPanic<V>(c: Config, s: State<V>)
    requires Inv(c, s)
    ensures !CanPanic(c, s)
  {
    LiveNone(s);
    forall x | 0 <= x < |s.workers| && s.workers[x].Broadcasting?
      ensures !s.closed[OutChannel(c.stageOf[x], s.workers[x].next)]
    {
      OpenForSends(c, s, x);
    }
    if AllDone(s) {
      forall x | 0 <= x < |s.workers| ensures s.workers[x].Exited? {
        assert s.stages[c.stageOf[x]].StageDone?;
      }
    }
  }

  /** No run sends on a closed channel, closes a channel twice, or drives the WaitGroup below zero. */
  lemma NoPanic<V>(c: Config, ls: seq<Label<V>>)
    requires Wired(c) && Run(c, Init(c), ls)
    ensures !CanPanic(c, Exec(c, Init(c), ls))
  {
    InitInv<V>(c);
    InvRun(c, Init(c), ls);
    InvNoPanic(c, Exec(c, Init(c), ls));
  }

  ghost predicate Orderly<V>(c: Config, s: State<V>)
    requires Shaped(c, s)
  {
    && (s.closed[0] ==> s.source.SourceClosed? || s.source.SourceDone?)
    && (forall k, x :: 1 <= k <= c.n && s.closed[k] && 0 <= x < |c.stageOf| && c.stageOf[x] == k - 1
         ==> s.workers[x].Exited?)
    && (forall k :: c.n < k < c.n + c.m ==> !s.closed[k])
    && (ErrClosedOf(s) ==> AllDone(s))
    && s.wg == c.base + Live(s)
    && (s.errors != [] && s.collector.Ranging? ==> s.cancelled)
  }

  lemma InvOrderly<V>(c: Config, s: State<V>)
    requires Inv(c, s)
    ensures Orderly(c, s)
  {
    forall k, x | 1 <= k <= c.n && s.closed[k] && 0 <= x < |c.stageOf| && c.stageOf[x] == k - 1
      ensures s.workers[x].Exited?
    {
      var i := k - 1;
      assert s.closed[i + 1] ==> !s.stages[i].Running?;
    }
  }

  /**
   * Over every run: a stage's own output channel closes only after all its workers returned, the other sink
   * channels never close, errCh closes only after every goroutine has called wg.Done, the counter is exact,
   * and an error the collector received has cancelled the run by the time it waits for the next one.
   */
  lemma ClosingOrder<V>(c: Config, ls: seq<Label<V>>)
    requires Wired(c) && Run(c, Init(c), ls)
    ensures Orderly(c, Exec(c, Init(c), ls))
  {
    InitInv<V>(c);
    InvRun(c, Init(c), ls);
    InvOrderly(c, Exec(c, Init(c), ls));
  }

  /** With a count the caller never releases, errCh is never closed and Process never returns. */
  lemma ExtraCountBlocks<V>(c: Config, ls: seq<Label<V>>)
    requires Wired(c) && Run(c, Init(c), ls) && c.base > 0
    ensures var s := Exec(c, Init(c), ls); !ErrClosedOf(s) && !s.collector.CollectorReturned?
  {
    InitInv<V>(c);
    InvRun(c, Init(c), ls);
  }
}
