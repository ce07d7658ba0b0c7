/** What cancels a pipeline, and when a cancelled one stops: the errors that are lost, and the source's blocked send. */
module Stopping {
  import opened Payloads
  import opened Control
  import opened CloseDiscipline
  import opened Shutdown
  import D = Dataflow

  // ----- Where a cancelled run ends -----

  /** No internal step is left whose payloads the code could compute. */
  ghost predicate Stuck(p: D.Program, s: State<Payload>)
    requires Shaped(p.c, s)
  {
    forall l :: Internal(l) && Enabled(p.c, s, l) ==> !D.Allowed(p, s, l)
  }

  /** The same when the source gets no message: Next does not return. */
  ghost predicate Quiet(p: D.Program, s: State<Payload>)
    requires Shaped(p.c, s)
  {
    forall l :: Internal(l) && Enabled(p.c, s, l) ==> !D.Allowed(p, s, l) || l.SourceTake? || l.SourceNone?
  }

  ghost function VerdictOf(p: D.Program, k: nat, it: Item<Payload>): Verdict<Payload> {
    if it.body.NoPayload? then Refuse
    else match p.proc(k, it.id, CloneOf(it.body))
      case Error => Fail(DroppedError)
      case Out(out) => if out.NoPayload? then Discard else Forward(out)
  }

  /** Where NextStep has a step, it has one that the code allows. */
  lemma AllowedStep(p: D.Program, s: State<Payload>) returns (l: Label<Payload>)
    requires Inv(p.c, s) && s.cancelled && !Finished(p.c, s) && !Blocked(p.c, s)
    ensures Internal(l) && Enabled(p.c, s, l) && D.Allowed(p, s, l)
    ensures !l.SourceTake? && !l.SourceSend? && (l.SourceNone? ==> Starved(p.c, s))
  {
    var verdict := (x: nat) =>
      if x < |s.workers| && s.workers[x].Processing? && x < |p.c.stageOf|
      then VerdictOf(p, p.c.stageOf[x], s.workers[x].item) else Discard;
    var clone := (j: nat) =>
      if j < |s.sinks| && s.sinks[j].Draining? then CloneOf(s.sinks[j].item.body) else NoPayload;
    l := NextStep(p.c, s, verdict, clone);
  }

  /** With everyone else done, the source can only go on if it gets a message. */
  lemma OnlyNext<V>(c: Config, s: State<V>, l: Label<V>)
    requires Inv(c, s) && Internal(l) && Enabled(c, s, l) && OthersDone(c, s)
    requires s.source.Sending? || s.source.Fetching?
    ensures s.source.Fetching? && (l.SourceTake? || l.SourceNone?)
  {
    LiveNone(s);
  }

  lemma NoneLeft<V>(c: Config, s: State<V>, l: Label<V>)
    requires Inv(c, s) && Internal(l) && (Finished(c, s) || Blocked(c, s))
    ensures !Enabled(c, s, l)
  {
    LiveNone(s);
    if Finished(c, s) {
      FinishedMeans(c, s);
    } else if Enabled(c, s, l) {
      OnlyNext(c, s, l);
    }
  }

  lemma FinishedMeans<V>(c: Config, s: State<V>)
    requires Inv(c, s) && Finished(c, s)
    ensures AllDone(s) && (forall x :: 0 <= x < |s.workers| ==> s.workers[x].Exited?)
    ensures s.collector.CollectorReturned? <==> c.base == 0
  {
    forall x | 0 <= x < |s.workers| ensures s.workers[x].Exited? {
      assert s.stages[c.stageOf[x]].StageDone?;
    }
  }

  /** A cancelled run ends where everything is finished or the source is blocked in its send, and nowhere else. */
  lemma StuckIff(p: D.Program, s: State<Payload>)
    requires Inv(p.c, s) && s.cancelled
    ensures Stuck(p, s) <==> Finished(p.c, s) || Blocked(p.c, s)
  {
    if Finished(p.c, s) || Blocked(p.c, s) {
      forall l: Label<Payload> | Internal(l) ensures !Enabled(p.c, s, l) {
        NoneLeft(p.c, s, l);
      }
    } else {
      var l := AllowedStep(p, s);
    }
  }

  /** Without a message from outside it may also rest while the source waits for one. */
  lemma QuietIff(p: D.Program, s: State<Payload>)
    requires Inv(p.c, s) && s.cancelled
    ensures Quiet(p, s) <==> Finished(p.c, s) || Blocked(p.c, s) || Starved(p.c, s)
  {
    StuckIff(p, s);
    if Starved(p.c, s) {
      forall l | Internal(l) && Enabled(p.c, s, l) ensures l.SourceTake? || l.SourceNone? {
        OnlyNext(p.c, s, l);
      }
    } else if !Finished(p.c, s) && !Blocked(p.c, s) {
      var l := AllowedStep(p, s);
    }
  }

  /**
   * Once a run is cancelled, however the goroutines are scheduled: at most a fixed number of steps follow, and
   * where none is left every worker, stage and sink has returned.  Process itself has then returned if and only
   * if the caller passed a WaitGroup whose count was zero and the source is not blocked in its send.
   */
  lemma ShutdownCompletes(p: D.Program, before: seq<Label<Payload>>, after: seq<Label<Payload>>)
    requires Wired(p.c) && D.Computes(p, before) && D.After(p, before).cancelled
    requires Run(p.c, D.After(p, before), after) && forall l :: l in after ==> Internal(l)
    ensures |after| <= MaxRank(p.c)
    ensures var s := Exec(p.c, D.After(p, before), after);
            Stuck(p, s) ==> && (forall x :: 0 <= x < |s.workers| ==> s.workers[x].Exited?)
                            && (AllDone(s) <==> !s.source.Sending?)
                            && (s.collector.CollectorReturned? <==> p.c.base == 0 && !s.source.Sending?)
  {
    var mid := D.After(p, before);
    ShutdownBounded(p.c, before, after);
    InitInv<Payload>(p.c);
    InvRun(p.c, Init(p.c), before);
    CancelledRunsEnd(p.c, mid, after);
    StuckMeans(p, Exec(p.c, mid, after));
  }

  lemma StuckMeans(p: D.Program, s: State<Payload>)
    requires Inv(p.c, s) && s.cancelled
    ensures Stuck(p, s) ==> && (forall x :: 0 <= x < |s.workers| ==> s.workers[x].Exited?)
                            && (AllDone(s) <==> !s.source.Sending?)
                            && (s.collector.CollectorReturned? <==> p.c.base == 0 && !s.source.Sending?)
  {
    StuckIff(p, s);
    if Finished(p.c, s) {
      FinishedMeans(p.c, s);
    }
  }

  // ----- The blocked send is for ever -----

  /** The source waits in its send and no worker of the first stage is left. */
  ghost predicate Abandoned<V>(c: Config, s: State<V>) {
    s.source.Sending? && AllExited(c, s, 0)
  }

  lemma AbandonedStep<V>(c: Config, s: State<V>, l: Label<V>)
    requires Inv(c, s) && Enabled(c, s, l) && Abandoned(c, s)
    ensures Abandoned(c, Apply(c, s, l)) && Apply(c, s, l).source == s.source
  {
    var s' := Apply(c, s, l);
    assert forall x :: 0 <= x < |c.stageOf| && s.workers[x].Exited? ==> s'.workers[x] == s.workers[x];
  }

  /** Whatever happens after that, caller's cancellation and further errors included, Process does not return. */
  lemma {:induction false} AbandonedForever<V>(c: Config, s: State<V>, ls: seq<Label<V>>)
    requires Inv(c, s) && Run(c, s, ls) && Abandoned(c, s)
    ensures var s' := Exec(c, s, ls);
            && Inv(c, s') && Abandoned(c, s') && s'.source == s.source
            && !ErrClosedOf(s') && !s'.collector.CollectorReturned?
  {
    if ls != [] {
      var front := ls[..|ls| - 1];
      AbandonedForever(c, s, front);
      InvStep(c, Exec(c, s, front), ls[|ls| - 1]);
      AbandonedStep(c, Exec(c, s, front), ls[|ls| - 1]);
    }
  }

  // ----- What cancels a run -----

  /** The error a step hands to the collector, if it is received. */
  ghost function ReportOf<V>(c: Config, l: Label<V>): seq<Origin>
  {
    match l
    case SourceReport(e) => if e.TakenError? then [FromSource] else []
    case WorkerProcess(x, v) =>
      if v.Fail? && v.emission.TakenError? && x < |c.stageOf| then [FromStage(c.stageOf[x])] else []
    case SinkFail(j, e) => if e.TakenError? then [FromSink(j)] else []
    case ConsumerError => [FromConsumer]
    case _ => []
  }

  /** The errors received in a run, in order. */
  ghost function Reported<V>(c: Config, ls: seq<Label<V>>): seq<Origin> {
    if ls == [] then [] else Reported(c, ls[..|ls| - 1]) + ReportOf(c, ls[|ls| - 1])
  }

  ghost predicate Cancels<V>(l: Label<V>) {
    l.Cancel? || l.CollectorCancel? || l.CloserCancel?
  }

  lemma ReportStep<V>(c: Config, s: State<V>, l: Label<V>)
    requires Shaped(c, s) && Enabled(c, s, l)
    ensures Apply(c, s, l).errors == s.errors + ReportOf(c, l)
  {
  }

  lemma CancelStep<V>(c: Config, s: State<V>, l: Label<V>)
    requires Shaped(c, s) && Enabled(c, s, l)
    ensures Apply(c, s, l).cancelled <==> s.cancelled || Cancels(l)
  {
  }

  /** The collector has exactly the errors that were received, and exactly three kinds of steps cancel a run. */
  lemma {:induction false} CancelledBy<V>(c: Config, ls: seq<Label<V>>)
    requires Wired(c) && Run(c, Init(c), ls)
    ensures var s := Exec(c, Init(c), ls);
            && s.errors == Reported(c, ls)
            && (s.cancelled <==> exists l :: l in ls && Cancels(l))
  {
    if ls != [] {
      var front, last := ls[..|ls| - 1], ls[|ls| - 1];
      CancelledBy(c, front);
      ReportStep(c, Exec(c, Init(c), front), last);
      CancelStep(c, Exec(c, Init(c), front), last);
      assert ls == front + [last];
    }
  }

  /** Where the cancellation that a step can make comes from. */
  ghost predicate Prompted<V>(s: State<V>, called: bool) {
    s.cancelled || s.collector.Cancelling? <==> called || s.errors != []
  }

  lemma PromptedStep<V>(c: Config, s: State<V>, l: Label<V>, called: bool)
    requires Inv(c, s) && Enabled(c, s, l) && Prompted(s, called)
    ensures Prompted(Apply(c, s, l), called || l.Cancel?)
  {
  }

  /** A run is cancelled, or just about to be, exactly if the caller cancelled it or an error was received. */
  lemma {:induction false} CancelledIff<V>(c: Config, ls: seq<Label<V>>)
    requires Wired(c) && Run(c, Init(c), ls)
    ensures Prompted(Exec(c, Init(c), ls), Cancel in ls) && Inv(c, Exec(c, Init(c), ls))
  {
    if ls == [] {
      InitInv<V>(c);
    } else {
      var front, last := ls[..|ls| - 1], ls[|ls| - 1];
      CancelledIff(c, front);
      InvStep(c, Exec(c, Init(c), front), last);
      PromptedStep(c, Exec(c, Init(c), front), last, Cancel in front);
      assert ls == front + [last];
    }
  }

  /**
   * Errors that are dropped do not stop the pipeline: as long as none was received and the caller did not cancel,
   * whoever failed, the source stays in its loop and its channel open, and Process does not return.
   */
  lemma DroppedErrorsDoNotStop<V>(c: Config, ls: seq<Label<V>>)
    requires Wired(c) && Run(c, Init(c), ls) && Cancel !in ls && Reported(c, ls) == []
    ensures var s := Exec(c, Init(c), ls);
            !s.cancelled && !SourceFinished(s) && !s.closed[0] && !ErrClosedOf(s) && !s.collector.CollectorReturned?
  {
    CancelledBy(c, ls);
    CancelledIff(c, ls);
  }

  // ----- A run in which an error is lost and the source blocks -----

  /** One stage, one worker, one sink, and a processor that fails. */
  ghost function Failing(): D.Program {
    D.Program(Config([0], 1, 1, 0), (k: nat, q: nat, body: Payload) => D.Error)
  }

  /** The source takes one more payload. */
  lemma TakeOne(p: D.Program, ls: seq<Label<Payload>>, a: Payload) returns (ls': seq<Label<Payload>>)
    requires Wired(p.c) && D.Computes(p, ls) && D.After(p, ls).source.Selecting? && !D.After(p, ls).cancelled
    ensures D.Computes(p, ls')
    ensures var s := D.After(p, ls);
            D.After(p, ls') == s.(source := Sending(Item(|s.taken|, a)), taken := s.taken + [a])
  {
    D.Longer(p, ls, SourceFetch);
    D.Longer(p, ls + [SourceFetch], SourceTake(a));
    return ls + [SourceFetch] + [SourceTake(a)];
  }

  /** The worker receives it. */
  lemma PassOne(ls: seq<Label<Payload>>)
    requires D.Computes(Failing(), ls)
    requires var s := D.After(Failing(), ls); s.source.Sending? && !s.closed[0] && s.workers == [Receiving]
    ensures D.Computes(Failing(), ls + [SourceSend(0)])
    ensures var s := D.After(Failing(), ls);
            D.After(Failing(), ls + [SourceSend(0)])
              == s.(source := Selecting, workers := [Processing(s.source.item)], log := Append(s.log, 0, s.source.item))
  {
    D.Longer(Failing(), ls, SourceSend(0));
  }

  /** The processor fails, and nobody receives the error. */
  lemma FailOne(ls: seq<Label<Payload>>, item: Item<Payload>)
    requires D.Computes(Failing(), ls) && !item.body.NoPayload?
    requires D.After(Failing(), ls).workers == [Processing(item)]
    ensures D.Computes(Failing(), ls + [WorkerProcess(0, Fail(DroppedError))])
    ensures D.After(Failing(), ls + [WorkerProcess(0, Fail(DroppedError))])
         == D.After(Failing(), ls).(workers := [Exited(Failed(item))])
  {
    D.Longer(Failing(), ls, WorkerProcess(0, Fail(DroppedError)));
    var workers := D.After(Failing(), ls).workers;
    assert workers[0 := Exited(Failed(item))] == [Exited(Failed(item))];
  }

  /**
   * The first payload fails and its error is dropped: nobody is told, the run is not cancelled, and the source,
   * which had fetched a second payload, is left in its send for ever, also when the caller cancels then.
   */
  lemma ErrorLost(a: Payload, b: Payload) returns (ls: seq<Label<Payload>>)
    requires !a.NoPayload? && !b.NoPayload?
    ensures D.Computes(Failing(), ls)
    ensures var c, s := Failing().c, D.After(Failing(), ls);
            && s.workers == [Exited(Failed(Item(0, a)))] && s.errors == [] && !s.cancelled
            && Abandoned(c, s) && s.source == Sending(Item(1, b))
            && D.Computes(Failing(), ls + [Cancel])
            && D.After(Failing(), ls + [Cancel]) == s.(cancelled := true)
  {
    ls := TakeOne(Failing(), [], a);
    PassOne(ls);
    ls := TakeOne(Failing(), ls + [SourceSend(0)], b);
    FailOne(ls, Item(0, a));
    ls := ls + [WorkerProcess(0, Fail(DroppedError))];
    D.Longer(Failing(), ls, Cancel);
  }

  /** So cancelling does not help: whatever happens then, Process does not return. */
  lemma CancellingDoesNotHelp(a: Payload, b: Payload, more: seq<Label<Payload>>) returns (ls: seq<Label<Payload>>)
    requires !a.NoPayload? && !b.NoPayload?
    ensures D.Computes(Failing(), ls) && Cancel in ls
    ensures var c, s := Failing().c, D.After(Failing(), ls);
            Run(c, s, more) ==>
              Exec(c, s, more).source == Sending(Item(1, b)) && !Exec(c, s, more).collector.CollectorReturned?
  {
    var lost := ErrorLost(a, b);
    ls := lost + [Cancel];
    var c, s := Failing().c, D.After(Failing(), ls);
    CancelledIff(c, ls);
    if Run(c, s, more) {
      AbandonedForever(c, s, more);
    }
  }
}
