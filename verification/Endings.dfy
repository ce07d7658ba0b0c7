/** Which cancelled pipelines stop under every schedule: a condition that can be read off when they are cancelled. */
module Endings {
  import opened Payloads
  import opened Control
  import opened CloseDiscipline
  import opened Shutdown
  import D = Dataflow
  import opened Stopping

  /** A schedule of internal steps that the code can take from s. */
  ghost predicate Schedule(p: D.Program, s: State<Payload>, ls: seq<Label<Payload>>)
    requires Shaped(p.c, s)
  {
    D.Goes(p, s, ls) && forall l :: l in ls ==> Internal(l)
  }

  /** However s is scheduled, everything is finished where no step is left. */
  ghost predicate AlwaysFinishes(p: D.Program, s: State<Payload>)
    requires Shaped(p.c, s)
  {
    forall ls :: Schedule(p, s, ls) && Stuck(p, Exec(p.c, s, ls)) ==> Finished(p.c, Exec(p.c, s, ls))
  }

  /** However s is scheduled, Process has returned where no step is left. */
  ghost predicate AlwaysReturns(p: D.Program, s: State<Payload>)
    requires Shaped(p.c, s)
  {
    forall ls :: Schedule(p, s, ls) && Stuck(p, Exec(p.c, s, ls)) ==> Exec(p.c, s, ls).collector.CollectorReturned?
  }

  /** The source is neither fetching nor sending a payload. */
  ghost predicate EmptyHanded<V>(s: State<V>) {
    !s.source.Fetching? && !s.source.Sending?
  }

  // ----- A source without a payload never sends again -----

  lemma StaysEmptyHanded<V>(c: Config, s: State<V>, l: Label<V>)
    requires Shaped(c, s) && Enabled(c, s, l) && s.cancelled && EmptyHanded(s)
    ensures EmptyHanded(Apply(c, s, l))
  {
  }

  lemma {:induction false} ScheduleKeeps(p: D.Program, s: State<Payload>, ls: seq<Label<Payload>>)
    requires Inv(p.c, s) && s.cancelled && Schedule(p, s, ls)
    ensures var s' := Exec(p.c, s, ls);
            Inv(p.c, s') && s'.cancelled && (EmptyHanded(s) ==> EmptyHanded(s'))
  {
    if ls != [] {
      var front, last := ls[..|ls| - 1], ls[|ls| - 1];
      ScheduleKeeps(p, s, front);
      CancelledStep(p.c, Exec(p.c, s, front), last);
      if EmptyHanded(s) {
        StaysEmptyHanded(p.c, Exec(p.c, s, front), last);
      }
    }
  }

  // ----- A source with one can be left in its send -----

  lemma KeepsSending<V>(c: Config, s: State<V>, l: Label<V>)
    requires Shaped(c, s) && Enabled(c, s, l) && s.source.Sending? && !l.SourceSend?
    ensures Apply(c, s, l).source == s.source
  {
  }

  lemma OneMore(p: D.Program, s: State<Payload>, ls: seq<Label<Payload>>, l: Label<Payload>)
    requires Inv(p.c, s) && s.cancelled && Schedule(p, s, ls) && Internal(l)
    requires Enabled(p.c, Exec(p.c, s, ls), l) && D.Allowed(p, Exec(p.c, s, ls), l)
    ensures Schedule(p, s, ls + [l]) && Exec(p.c, s, ls + [l]) == Apply(p.c, Exec(p.c, s, ls), l)
    ensures Inv(p.c, Exec(p.c, s, ls)) && Inv(p.c, Exec(p.c, s, ls + [l]))
    ensures Rank(p.c, Exec(p.c, s, ls + [l])) < Rank(p.c, Exec(p.c, s, ls))
  {
    ScheduleKeeps(p, s, ls);
    D.GoesOn(p, s, ls, l);
    CancelledStep(p.c, Exec(p.c, s, ls), l);
  }

  /** Every schedule can be driven to its end; and to the source's blocked send, if the source is sending. */
  lemma {:induction false} RunToEnd(p: D.Program, s: State<Payload>, ls: seq<Label<Payload>>)
    returns (all: seq<Label<Payload>>)
    requires Inv(p.c, s) && s.cancelled && Schedule(p, s, ls) && Sized(p.c, Exec(p.c, s, ls))
    ensures Schedule(p, s, all) && Stuck(p, Exec(p.c, s, all))
    ensures Exec(p.c, s, ls).source.Sending? ==> Blocked(p.c, Exec(p.c, s, all))
    decreases Rank(p.c, Exec(p.c, s, ls))
  {
    var mid := Exec(p.c, s, ls);
    ScheduleKeeps(p, s, ls);
    StuckIff(p, mid);
    if Finished(p.c, mid) || Blocked(p.c, mid) {
      all := ls;
    } else {
      var l := AllowedStep(p, mid);
      OneMore(p, s, ls, l);
      if mid.source.Sending? {
        KeepsSending(p.c, mid, l);
      }
      all := RunToEnd(p, s, ls + [l]);
    }
  }

  /** Some schedule leaves the source blocked in its send. */
  lemma RunToBlock(p: D.Program, s: State<Payload>) returns (all: seq<Label<Payload>>)
    requires Inv(p.c, s) && s.cancelled && !EmptyHanded(s)
    ensures Schedule(p, s, all) && Stuck(p, Exec(p.c, s, all)) && Blocked(p.c, Exec(p.c, s, all))
  {
    if s.source.Sending? {
      all := RunToEnd(p, s, []);
    } else {
      var take: Label<Payload> := SourceTake(NoPayload);
      OneMore(p, s, [], take);
      assert [] + [take] == [take];
      all := RunToEnd(p, s, [take]);
    }
  }

  // ----- The exact condition -----

  /** A cancelled pipeline finishes under every schedule exactly if the source holds no payload and fetches none. */
  lemma AlwaysFinishesIff(p: D.Program, s: State<Payload>)
    requires Inv(p.c, s) && s.cancelled
    ensures AlwaysFinishes(p, s) <==> EmptyHanded(s)
  {
    if EmptyHanded(s) {
      forall ls | Schedule(p, s, ls) && Stuck(p, Exec(p.c, s, ls)) ensures Finished(p.c, Exec(p.c, s, ls)) {
        ScheduleKeeps(p, s, ls);
        StuckIff(p, Exec(p.c, s, ls));
      }
    } else {
      var all := RunToBlock(p, s);
    }
  }

  lemma ReturnedIff<V>(c: Config, s: State<V>)
    requires Inv(c, s) && (Finished(c, s) || Blocked(c, s))
    ensures s.collector.CollectorReturned? <==> c.base == 0 && Finished(c, s)
  {
    if Finished(c, s) {
      FinishedMeans(c, s);
    }
  }

  lemma ReturnsAtEnd(p: D.Program, s: State<Payload>, ls: seq<Label<Payload>>)
    requires Inv(p.c, s) && s.cancelled && Schedule(p, s, ls) && Stuck(p, Exec(p.c, s, ls))
    ensures var s' := Exec(p.c, s, ls);
            s'.collector.CollectorReturned? <==> p.c.base == 0 && Finished(p.c, s')
  {
    ScheduleKeeps(p, s, ls);
    StuckIff(p, Exec(p.c, s, ls));
    ReturnedIff(p.c, Exec(p.c, s, ls));
  }

  /** And Process returns under every schedule exactly if, besides, the caller's WaitGroup count was zero. */
  lemma AlwaysReturnsIff(p: D.Program, s: State<Payload>)
    requires Inv(p.c, s) && s.cancelled
    ensures AlwaysReturns(p, s) <==> p.c.base == 0 && EmptyHanded(s)
  {
    AlwaysFinishesIff(p, s);
    if p.c.base == 0 && EmptyHanded(s) {
      forall ls | Schedule(p, s, ls) && Stuck(p, Exec(p.c, s, ls))
        ensures Exec(p.c, s, ls).collector.CollectorReturned?
      {
        ReturnsAtEnd(p, s, ls);
      }
    } else {
      var all;
      if EmptyHanded(s) {
        all := RunToEnd(p, s, []);
      } else {
        all := RunToBlock(p, s);
      }
      ReturnsAtEnd(p, s, all);
    }
  }

  /**
   * From cancellation to the end.  No schedule is longer than a fixed number of steps.  Every schedule ends with
   * everything finished exactly if the source was neither fetching nor sending when the run was cancelled, and
   * Process returns under every schedule exactly if the caller's count was zero, too.
   */
  lemma CancelledRunFinishesIff(p: D.Program, before: seq<Label<Payload>>)
    requires Wired(p.c) && D.Computes(p, before) && D.After(p, before).cancelled
    ensures var s := D.After(p, before);
            && (forall ls :: Schedule(p, s, ls) ==> |ls| <= MaxRank(p.c))
            && (AlwaysFinishes(p, s) <==> EmptyHanded(s))
            && (AlwaysReturns(p, s) <==> p.c.base == 0 && EmptyHanded(s))
  {
    var s := D.After(p, before);
    InitInv<Payload>(p.c);
    InvRun(p.c, Init(p.c), before);
    forall ls | Schedule(p, s, ls) ensures |ls| <= MaxRank(p.c) {
      ShutdownBounded(p.c, before, ls);
    }
    AlwaysFinishesIff(p, s);
    AlwaysReturnsIff(p, s);
  }

  /** Once the source has left its loop everything finishes; Process returns exactly if the caller's count is zero. */
  lemma FinishedSourceFinishesAll(p: D.Program, before: seq<Label<Payload>>)
    requires Wired(p.c) && D.Computes(p, before) && SourceFinished(D.After(p, before))
    ensures var s := D.After(p, before);
            s.cancelled && AlwaysFinishes(p, s) && (AlwaysReturns(p, s) <==> p.c.base == 0)
  {
    InitInv<Payload>(p.c);
    InvRun(p.c, Init(p.c), before);
    CancelledRunFinishesIff(p, before);
  }
}
