/** A cancelled pipeline need not lose anything: there is always a schedule that drains it, and errors that stop one. */
module Draining {
  import opened Payloads
  import opened Control
  import opened CloseDiscipline
  import opened Shutdown
  import D = Dataflow
  import opened Stopping
  import opened Endings
  import opened Progress
  import opened Delivery

  // ----- Moving everything on -----

  /** Moves until none is left. */
  lemma {:induction false} MoveToRest(p: D.Program, s: State<Payload>, ls: seq<Label<Payload>>)
    returns (all: seq<Label<Payload>>)
    requires Fit(p, s) && D.Goes(p, s, ls) && (forall l :: l in ls ==> Moving(l)) && Sized(p.c, Exec(p.c, s, ls))
    ensures D.Goes(p, s, all) && (forall l :: l in all ==> Moving(l)) && AtRest(p, Exec(p.c, s, all))
    decreases Rank(p.c, Exec(p.c, s, ls))
  {
    var mid := Exec(p.c, s, ls);
    MovesKeep(p, s, ls);
    if AtRest(p, mid) {
      all := ls;
    } else {
      var l :| Moving(l) && Enabled(p.c, mid, l) && D.Allowed(p, mid, l);
      OneMoreMove(p, s, ls, l);
      all := MoveToRest(p, s, ls + [l]);
    }
  }

  lemma OneMoreMove(p: D.Program, s: State<Payload>, ls: seq<Label<Payload>>, l: Label<Payload>)
    requires Shaped(p.c, s) && D.Goes(p, s, ls) && Inv(p.c, Exec(p.c, s, ls)) && Moving(l)
    requires Enabled(p.c, Exec(p.c, s, ls), l) && D.Allowed(p, Exec(p.c, s, ls), l)
    ensures D.Goes(p, s, ls + [l]) && Inv(p.c, Exec(p.c, s, ls + [l]))
    ensures Rank(p.c, Exec(p.c, s, ls + [l])) < Rank(p.c, Exec(p.c, s, ls))
  {
    D.GoesOn(p, s, ls, l);
    MoveRank(p.c, Exec(p.c, s, ls), l);
  }

  // ----- Ending one after the other -----

  /** Nobody holds a payload, and nobody has given one up. */
  ghost predicate Drained<V>(c: Config, s: State<V>) {
    && Inv(c, s) && s.cancelled && EmptyHanded(s)
    && (forall x :: 0 <= x < |s.workers| ==> s.workers[x] == Receiving || s.workers[x] == Exited(Clean))
    && (forall j :: 0 <= j < |s.sinks| ==> !s.sinks[j].Draining?)
  }

  /** The steps of a drained pipeline in which no worker, and not the first sink, looks at the context. */
  ghost predicate Ending<V>(l: Label<V>) {
    || l.SourceQuit? || l.SourceReport? || l.SourceClose? || l.SourceFinish?
    || l.WorkerEnd? || l.StageClose? || l.StageFinish?
    || l.SinkEnd? || (l.SinkCancel? && l.sink > 0) || l.SinkFinish?
    || l.CollectorCancel? || l.CollectorReturn? || l.CloserClose? || l.CloserCancel?
  }

  lemma EndingKeeps<V>(c: Config, s: State<V>, l: Label<V>)
    requires Drained(c, s) && Enabled(c, s, l) && Ending(l)
    ensures var s' := Apply(c, s, l);
            && Drained(c, s') && s'.taken == s.taken && s'.log == s.log && s'.discarded == s.discarded
            && s'.drained == s.drained
  {
    InvStep(c, s, l);
    var s' := Apply(c, s, l);
    assert s'.taken == s.taken && s'.log == s.log && s'.discarded == s.discarded && s'.drained == s.drained;
    assert forall x :: 0 <= x < |s.workers| ==> s'.workers[x] == s.workers[x] || s'.workers[x] == Exited(Clean);
  }

  /** The first stage that is not done, when all before it are, has a closed input. */
  lemma StageCanEnd<V>(c: Config, s: State<V>, i: nat) returns (l: Label<V>)
    requires Drained(c, s) && s.source.SourceDone? && i < c.n && !s.stages[i].StageDone?
    requires forall k :: 0 <= k < i ==> s.stages[k].StageDone?
    ensures Ending(l) && Enabled(c, s, l)
  {
    assert s.closed[i] by {
      if i > 0 {
        var before := i - 1;
        assert s.stages[before].StageDone? && s.closed[before + 1];
      }
    }
    if s.stages[i].StageClosed? {
      return StageFinish(i);
    } else if x: nat :| x < |s.workers| && c.stageOf[x] == i && s.workers[x].Receiving? {
      return WorkerEnd(x);
    } else {
      return StageClose(i);
    }
  }

  lemma {:induction false} FirstStage<V>(s: State<V>, i: nat) returns (k: nat)
    requires i < |s.stages| && !s.stages[i].StageDone?
    ensures k < |s.stages| && !s.stages[k].StageDone? && forall h :: 0 <= h < k ==> s.stages[h].StageDone?
  {
    if h: nat :| h < i && !s.stages[h].StageDone? {
      k := FirstStage(s, h);
    } else {
      k := i;
    }
  }

  /** The first sink sees the end of its channel; the channels of the others are never closed. */
  lemma SinkCanEnd<V>(c: Config, s: State<V>, j: nat) returns (l: Label<V>)
    requires Drained(c, s) && j < c.m && !s.sinks[j].SinkDone?
    requires forall i :: 0 <= i < c.n ==> s.stages[i].StageDone?
    ensures Ending(l) && Enabled(c, s, l)
  {
    if s.sinks[j].SinkReturned? {
      return SinkFinish(j);
    } else if j == 0 {
      var last := c.n - 1;
      assert s.stages[last].StageDone? && s.closed[last + 1];
      return SinkEnd(0);
    } else {
      return SinkCancel(j);
    }
  }

  lemma EndingExists<V>(c: Config, s: State<V>) returns (l: Label<V>)
    requires Drained(c, s) && !Finished(c, s)
    ensures Ending(l) && Enabled(c, s, l)
  {
    if !s.source.SourceDone? {
      SourceSteps(c, s);
      return SourceStep(s);
    } else if i: nat :| i < c.n && !s.stages[i].StageDone? {
      var k := FirstStage(s, i);
      l := StageCanEnd(c, s, k);
    } else if j: nat :| j < c.m && !s.sinks[j].SinkDone? {
      l := SinkCanEnd(c, s, j);
    } else {
      l := LastSteps(c, s);
    }
  }

  lemma EndingIsAllowed(p: D.Program, s: State<Payload>, l: Label<Payload>)
    requires Shaped(p.c, s) && Enabled(p.c, s, l) && Ending(l)
    ensures Internal(l) && D.Allowed(p, s, l)
  {
  }

  lemma {:induction false} EndAll(p: D.Program, s: State<Payload>) returns (all: seq<Label<Payload>>)
    requires Drained(p.c, s)
    ensures D.Goes(p, s, all) && forall l :: l in all ==> Ending(l)
    ensures var s' := Exec(p.c, s, all);
            && Drained(p.c, s') && Finished(p.c, s')
            && s'.taken == s.taken && s'.log == s.log && s'.discarded == s.discarded && s'.drained == s.drained
    decreases Rank(p.c, s)
  {
    if Finished(p.c, s) {
      all := [];
    } else {
      var l := EndingExists(p.c, s);
      EndingIsAllowed(p, s, l);
      EndingKeeps(p.c, s, l);
      RankFalls(p.c, s, l);
      var later := EndAll(p, Apply(p.c, s, l));
      all := [l] + later;
      GoesFrom(p, s, l, later);
    }
  }

  /** One step before a run. */
  lemma {:induction false} GoesFrom(p: D.Program, s: State<Payload>, l: Label<Payload>, later: seq<Label<Payload>>)
    requires Shaped(p.c, s) && Enabled(p.c, s, l) && D.Allowed(p, s, l) && D.Goes(p, Apply(p.c, s, l), later)
    ensures D.Goes(p, s, [l] + later) && Exec(p.c, s, [l] + later) == Exec(p.c, Apply(p.c, s, l), later)
  {
    if later == [] {
      assert [] + [l] == [l] && [l] + later == [l];
      D.GoesOn(p, s, [], l);
    } else {
      var last := |later| - 1;
      GoesFrom(p, s, l, later[..last]);
      D.GoesOn(p, s, [l] + later[..last], later[last]);
      assert [l] + later == [l] + later[..last] + [later[last]];
    }
  }

  // ----- Nothing need be lost -----

  lemma RestIsDrained(p: D.Program, s: State<Payload>)
    requires Fit(p, s) && AtRest(p, s) && s.cancelled && EmptyHanded(s)
    ensures Drained(p.c, s)
  {
    RestIsSettled(p, s);
  }

  lemma {:induction false} MovesKeepSource(p: D.Program, s: State<Payload>, more: seq<Label<Payload>>)
    requires Inv(p.c, s) && s.cancelled && EmptyHanded(s) && D.Goes(p, s, more) && forall l :: l in more ==> Moving(l)
    ensures Exec(p.c, s, more).cancelled && EmptyHanded(Exec(p.c, s, more))
  {
    assert forall l :: l in more ==> Internal(l);
    ScheduleKeeps(p, s, more);
  }

  /**
   * Cancelling a pipeline in which nobody has returned and no payload makes a stage stop, while the source has no
   * payload in hand: there is a schedule in which no worker and not the first sink looks at the context, which
   * moves every payload on and then ends everybody, so that all payloads taken arrive and none is abandoned.
   */
  lemma CanStopWithoutLoss(p: D.Program, ls: seq<Label<Payload>>)
    returns (moves: seq<Label<Payload>>, ends: seq<Label<Payload>>)
    requires Wired(p.c) && D.Computes(p, ls)
    requires var s := D.After(p, ls);
             s.cancelled && EmptyHanded(s) && Healthy(p.c, s) && Unfailing(p, s.taken)
    ensures D.Computes(p, ls + moves) && (forall l :: l in moves ==> Moving(l))
    ensures D.Goes(p, D.After(p, ls + moves), ends) && (forall l :: l in ends ==> Ending(l))
    ensures var s' := Exec(p.c, D.After(p, ls + moves), ends);
            && Finished(p.c, s') && s'.taken == D.After(p, ls).taken && Arrived(p, s')
            && (forall x :: 0 <= x < |s'.workers| ==> s'.workers[x] == Exited(Clean))
  {
    InitInv<Payload>(p.c);
    InvRun(p.c, Init(p.c), ls);
    D.TruthfulRun(p, ls);
    moves := DrainByMoves(p, ls);
    var mid := D.After(p, ls + moves);
    ends := EndAll(p, mid);
    FinishedMeans(p.c, Exec(p.c, mid, ends));
    ArrivedSame(p, mid, Exec(p.c, mid, ends));
  }

  lemma ArrivedSame(p: D.Program, s: State<Payload>, s': State<Payload>)
    requires Shaped(p.c, s) && Shaped(p.c, s') && Arrived(p, s)
    requires s'.taken == s.taken && s'.log == s.log && s'.discarded == s.discarded && s'.drained == s.drained
    ensures Arrived(p, s')
  {
  }

  lemma DrainByMoves(p: D.Program, ls: seq<Label<Payload>>) returns (moves: seq<Label<Payload>>)
    requires Wired(p.c) && D.Computes(p, ls) && Fit(p, D.After(p, ls))
    requires D.After(p, ls).cancelled && EmptyHanded(D.After(p, ls))
    ensures D.Computes(p, ls + moves) && (forall l :: l in moves ==> Moving(l))
    ensures var mid := D.After(p, ls + moves);
            Drained(p.c, mid) && mid.taken == D.After(p, ls).taken && Arrived(p, mid)
  {
    var s := D.After(p, ls);
    moves := MoveToRest(p, s, []);
    D.ComputesOn(p, ls, moves);
    MovesKeep(p, s, moves);
    MovesKeepSource(p, s, moves);
    ArrivedAtRest(p, ls + moves);
    RestIsDrained(p, D.After(p, ls + moves));
  }

  // ----- Errors that stop a pipeline -----

  lemma ExecOn<V>(c: Config, s: State<V>, ls: seq<Label<V>>, l: Label<V>)
    requires Shaped(c, s) && Run(c, s, ls) && Enabled(c, Exec(c, s, ls), l)
    ensures Run(c, s, ls + [l]) && Exec(c, s, ls + [l]) == Apply(c, Exec(c, s, ls), l)
  {
    assert (ls + [l])[..|ls|] == ls;
  }

  /** Somebody can hand an error of this origin to the waiting collector. */
  ghost predicate HandsOver<V>(c: Config, s: State<V>, l: Label<V>, o: Origin)
    requires Shaped(c, s)
  {
    || (o.FromConsumer? && l.ConsumerError?)
    || (o.FromSink? && o.sink < c.m && s.sinks[o.sink].Draining? && l == SinkFail(o.sink, TakenError))
    || (o == FromSource && s.source.Reporting? && l == SourceReport(TakenError))
    || (o.FromStage? && l.WorkerProcess? && l.w < |s.workers| && c.stageOf[l.w] == o.stage
        && s.workers[l.w].Processing? && l.verdict == Fail(TakenError))
  }

  lemma ErrorTaken<V>(c: Config, s: State<V>, l: Label<V>, o: Origin)
    requires Shaped(c, s) && s.collector.Ranging? && !ErrClosedOf(s) && HandsOver(c, s, l, o)
    ensures Enabled(c, s, l) && Apply(c, s, l).errors == s.errors + [o] && Apply(c, s, l).collector.Cancelling?
  {
  }

  lemma CollectorCancels<V>(c: Config, s: State<V>)
    requires Shaped(c, s) && s.collector.Cancelling?
    ensures Enabled(c, s, CollectorCancel)
    ensures var s' := Apply(c, s, CollectorCancel); s'.errors == s.errors && s'.cancelled && s'.collector.Ranging?
  {
  }

  /** The collector receives an error and cancels the run. */
  lemma ReceivedErrorCancels<V>(c: Config, s: State<V>, l: Label<V>, o: Origin)
    requires Shaped(c, s) && s.collector.Ranging? && !ErrClosedOf(s) && HandsOver(c, s, l, o)
    ensures Run(c, s, [l] + [CollectorCancel])
    ensures var s' := Exec(c, s, [l] + [CollectorCancel]);
            s'.errors == s.errors + [o] && s'.cancelled && s'.collector.Ranging?
  {
    ErrorTaken(c, s, l, o);
    assert [] + [l] == [l];
    ExecOn(c, s, [], l);
    CollectorCancels(c, Apply(c, s, l));
    ExecOn(c, s, [l], CollectorCancel);
  }
}
