/** Why goroutines return, and where errors come from: nobody gives up a payload in a run that goes on. */
module Returns {
  import opened Tally
  import opened Payloads
  import opened Control
  import D = Dataflow
  import Flow

  // ----- Workers -----

  /** A worker that gave up a payload saw the cancellation; one that returned without saw it, or its input's end. */
  ghost predicate WorkersReturnRightly<V>(c: Config, s: State<V>)
    requires Shaped(c, s)
  {
    forall x :: 0 <= x < |s.workers| ==>
      && (s.workers[x].Exited? && s.workers[x].exit.Abandoned? ==> s.cancelled)
      && (s.workers[x] == Exited(Clean) ==> s.cancelled || s.closed[c.stageOf[x]])
  }

  lemma NothingReopens<V>(c: Config, s: State<V>, l: Label<V>)
    requires Shaped(c, s) && Enabled(c, s, l)
    ensures s.cancelled ==> Apply(c, s, l).cancelled
    ensures forall k :: 0 <= k < |s.closed| && s.closed[k] ==> Apply(c, s, l).closed[k]
  {
  }

  lemma WorkersReturnStep<V>(c: Config, s: State<V>, l: Label<V>)
    requires Shaped(c, s) && Enabled(c, s, l) && WorkersReturnRightly(c, s)
    ensures WorkersReturnRightly(c, Apply(c, s, l))
  {
    var s' := Apply(c, s, l);
    NothingReopens(c, s, l);
    forall x | 0 <= x < |s'.workers|
      ensures s'.workers[x].Exited? && s'.workers[x].exit.Abandoned? ==> s'.cancelled
      ensures s'.workers[x] == Exited(Clean) ==> s'.cancelled || s'.closed[c.stageOf[x]]
    {
      assert s'.workers[x] == s.workers[x] || !s'.workers[x].Exited?
          || (l.w == x && (l.WorkerCancel? || l.WorkerEnd? || l.WorkerProcess?));
    }
  }

  /** In every run: without a cancellation no payload is abandoned, and workers return for other reasons only. */
  lemma {:induction false} WorkersReturn<V>(c: Config, ls: seq<Label<V>>)
    requires Wired(c) && Run(c, Init(c), ls)
    ensures WorkersReturnRightly(c, Exec(c, Init(c), ls))
  {
    if ls != [] {
      WorkersReturn(c, ls[..|ls| - 1]);
      WorkersReturnStep(c, Exec(c, Init(c), ls[..|ls| - 1]), ls[|ls| - 1]);
    }
  }

  /** So in a run that nobody cancelled every payload taken is discarded, delivered, failed or in flight. */
  lemma NothingAbandoned<V>(c: Config, ls: seq<Label<V>>, q: nat)
    requires Wired(c) && Run(c, Init(c), ls) && !Exec(c, Init(c), ls).cancelled
    ensures var s := Exec(c, Init(c), ls);
            && Flow.AbandonedMass(Flow.Only(q), s) == 0
            && Flow.Times(s.discarded, q) + Flow.Times(Flow.Delivered(c, s), q)
                 + Flow.FailedMass(Flow.Only(q), s) + Flow.InFlight(Flow.Only(q), s)
               == if q < |s.taken| then 1 else 0
  {
    var s := Exec(c, Init(c), ls);
    WorkersReturn(c, ls);
    NoneAbandoned(c, s, Flow.Only(q));
    Flow.Conservation(c, ls, q);
  }

  lemma NoneAbandoned<V>(c: Config, s: State<V>, f: Flow.Weight)
    requires Shaped(c, s) && WorkersReturnRightly(c, s) && !s.cancelled
    ensures Flow.AbandonedMass(f, s) == 0
  {
    SumZero(Flow.Holdings(f, s.workers, Flow.Dropped));
  }

  // ----- What a worker stopped on -----

  /** A worker refuses nil, and nothing else; it fails on what its processor answers with an error. */
  ghost predicate StopsRightly(p: D.Program, s: State<Payload>)
    requires Shaped(p.c, s)
  {
    forall x :: 0 <= x < |s.workers| && s.workers[x].Exited? ==>
      match s.workers[x].exit
      case Refused(it) => it.body.NoPayload?
      case Failed(it) =>
        !it.body.NoPayload? && p.proc(p.c.stageOf[x], it.id, CloneOf(it.body)).Error?
      case _ => true
  }

  lemma StopsStep(p: D.Program, s: State<Payload>, l: Label<Payload>)
    requires Shaped(p.c, s) && Enabled(p.c, s, l) && D.Allowed(p, s, l) && StopsRightly(p, s)
    ensures StopsRightly(p, Apply(p.c, s, l))
  {
    var s' := Apply(p.c, s, l);
    assert forall x :: 0 <= x < |s'.workers| && s'.workers[x].Exited? ==>
      s'.workers[x] == s.workers[x] || (l.w == x && (l.WorkerCancel? || l.WorkerEnd? || l.WorkerProcess?));
  }

  lemma {:induction false} WorkersStop(p: D.Program, ls: seq<Label<Payload>>)
    requires Wired(p.c) && D.Computes(p, ls)
    ensures StopsRightly(p, D.After(p, ls))
  {
    if ls != [] {
      WorkersStop(p, ls[..|ls| - 1]);
      StopsStep(p, D.After(p, ls[..|ls| - 1]), ls[|ls| - 1]);
    }
  }

  /** The error of x was handed over, or dropped where nobody was waiting for it. */
  ghost predicate ErrorOffered<V>(ls: seq<Label<V>>, x: nat) {
    WorkerProcess(x, Fail(TakenError)) in ls || WorkerProcess(x, Fail(DroppedError)) in ls
  }

  ghost predicate HasFailed<V>(s: State<V>, x: nat) {
    x < |s.workers| && s.workers[x].Exited? && s.workers[x].exit.Failed?
  }

  lemma FailureStep<V>(c: Config, s: State<V>, l: Label<V>, x: nat)
    requires Shaped(c, s) && Enabled(c, s, l) && HasFailed(Apply(c, s, l), x)
    ensures HasFailed(s, x) || l == WorkerProcess(x, Fail(TakenError)) || l == WorkerProcess(x, Fail(DroppedError))
  {
  }

  /** No worker fails in silence. */
  lemma {:induction false} FailuresAreOffered<V>(c: Config, ls: seq<Label<V>>, x: nat)
    requires Wired(c) && Run(c, Init(c), ls) && HasFailed(Exec(c, Init(c), ls), x)
    ensures ErrorOffered(ls, x)
  {
    if ls != [] {
      var front, last := ls[..|ls| - 1], ls[|ls| - 1];
      assert ls == front + [last];
      FailureStep(c, Exec(c, Init(c), front), last, x);
      if HasFailed(Exec(c, Init(c), front), x) {
        FailuresAreOffered(c, front, x);
      }
    }
  }

  /** What was discarded the processor of some stage was given, and answered with no payload. */
  ghost predicate DiscardsRightly(p: D.Program, s: State<Payload>)
    requires Shaped(p.c, s)
  {
    forall i :: 0 <= i < |s.discarded| ==> GivesNothing(p, s.discarded[i])
  }

  ghost predicate GivesNothing(p: D.Program, it: Item<Payload>) {
    && !it.body.NoPayload?
    && exists k: nat :: k < p.c.n && p.proc(k, it.id, CloneOf(it.body)) == D.Out(NoPayload)
  }

  lemma DiscardsStep(p: D.Program, s: State<Payload>, l: Label<Payload>)
    requires Shaped(p.c, s) && Enabled(p.c, s, l) && D.Allowed(p, s, l) && DiscardsRightly(p, s)
    ensures DiscardsRightly(p, Apply(p.c, s, l))
  {
    var s' := Apply(p.c, s, l);
    if l.WorkerProcess? && l.verdict.Discard? {
      var it, k := s.workers[l.w].item, p.c.stageOf[l.w];
      assert k < p.c.n && p.proc(k, it.id, CloneOf(it.body)) == D.Out(NoPayload);
      assert s'.discarded == s.discarded + [it] && GivesNothing(p, it);
    } else {
      assert s'.discarded == s.discarded;
    }
  }

  lemma {:induction false} WorkersDiscard(p: D.Program, ls: seq<Label<Payload>>)
    requires Wired(p.c) && D.Computes(p, ls)
    ensures DiscardsRightly(p, D.After(p, ls))
  {
    if ls != [] {
      WorkersDiscard(p, ls[..|ls| - 1]);
      DiscardsStep(p, D.After(p, ls[..|ls| - 1]), ls[|ls| - 1]);
    }
  }

  // ----- Sinks -----

  ghost predicate Gone<V>(sink: Sink<V>) {
    sink.SinkReturned? || sink.SinkDone?
  }

  ghost predicate SinkFailed<V>(ls: seq<Label<V>>, j: nat) {
    exists i :: 0 <= i < |ls| && ls[i].SinkFail? && ls[i].sink == j
  }

  /** A sink that returned saw the cancellation, or its channel's end, or its storage failed. */
  ghost predicate SinkReturnsRightly<V>(c: Config, s: State<V>, j: nat, failed: bool)
    requires Shaped(c, s) && j < c.m
  {
    Gone(s.sinks[j]) ==> failed || s.cancelled || s.closed[c.n + j]
  }

  lemma SinkReturnsStep<V>(c: Config, s: State<V>, l: Label<V>, j: nat, failed: bool)
    requires Shaped(c, s) && Enabled(c, s, l) && j < c.m && SinkReturnsRightly(c, s, j, failed)
    ensures SinkReturnsRightly(c, Apply(c, s, l), j, failed || (l.SinkFail? && l.sink == j))
  {
    NothingReopens(c, s, l);
  }

  lemma {:induction false} SinksReturn<V>(c: Config, ls: seq<Label<V>>, j: nat)
    requires Wired(c) && Run(c, Init(c), ls) && j < c.m
    ensures SinkReturnsRightly(c, Exec(c, Init(c), ls), j, SinkFailed(ls, j))
  {
    if ls != [] {
      var front, last := ls[..|ls| - 1], ls[|ls| - 1];
      SinksReturn(c, front, j);
      SinkReturnsStep(c, Exec(c, Init(c), front), last, j, SinkFailed(front, j));
      if SinkFailed(front, j) {
        var i :| 0 <= i < |front| && front[i].SinkFail? && front[i].sink == j;
        assert ls[i] == front[i];
      }
    }
  }

  // ----- Errors -----

  /** An error of a stage is that of a worker of this stage that failed; of a sink, that of a sink that returned. */
  ghost predicate HasCause<V>(c: Config, s: State<V>, o: Origin)
    requires Shaped(c, s)
  {
    match o
    case FromSource => s.source.SourceReturned? || s.source.SourceClosed? || s.source.SourceDone?
    case FromStage(i) =>
      exists x :: 0 <= x < |s.workers| && c.stageOf[x] == i && s.workers[x].Exited? && s.workers[x].exit.Failed?
    case FromSink(j) => j < c.m && Gone(s.sinks[j])
    case FromConsumer => true
  }

  /** Every error received has a cause, and the collector cancelled the run after each, or is about to. */
  ghost predicate ErrorsRight<V>(c: Config, s: State<V>, cancels: nat)
    requires Shaped(c, s)
  {
    && (forall i :: 0 <= i < |s.errors| ==> HasCause(c, s, s.errors[i]))
    && |s.errors| == cancels + if s.collector.Cancelling? then 1 else 0
  }

  ghost function CollectorCancels<V>(ls: seq<Label<V>>): nat {
    if ls == [] then 0 else CollectorCancels(ls[..|ls| - 1]) + if ls[|ls| - 1].CollectorCancel? then 1 else 0
  }

  lemma CauseStays<V>(c: Config, s: State<V>, l: Label<V>, o: Origin)
    requires Shaped(c, s) && Enabled(c, s, l) && HasCause(c, s, o)
    ensures HasCause(c, Apply(c, s, l), o)
  {
    var s' := Apply(c, s, l);
    if o.FromStage? {
      var x :| 0 <= x < |s.workers| && c.stageOf[x] == o.stage && s.workers[x].Exited? && s.workers[x].exit.Failed?;
      assert s'.workers[x] == s.workers[x];
    }
  }

  /** The error that a step hands over has a cause. */
  lemma NewCause<V>(c: Config, s: State<V>, l: Label<V>)
    requires Shaped(c, s) && Enabled(c, s, l)
    ensures var s' := Apply(c, s, l);
            && |s.errors| <= |s'.errors| <= |s.errors| + 1 && s'.errors[..|s.errors|] == s.errors
            && (|s'.errors| > |s.errors| ==> HasCause(c, s', s'.errors[|s.errors|]))
            && (|s'.errors| > |s.errors| ==> s.collector.Ranging? && s'.collector.Cancelling?)
            && (|s'.errors| == |s.errors| ==>
                  (s'.collector.Cancelling? <==> s.collector.Cancelling? && !l.CollectorCancel?))
  {
    var s' := Apply(c, s, l);
    if l.WorkerProcess? && |s'.errors| > |s.errors| {
      assert s'.workers[l.w].Exited? && s'.workers[l.w].exit.Failed?;
    }
  }

  lemma ErrorsStep<V>(c: Config, s: State<V>, l: Label<V>, cancels: nat)
    requires Shaped(c, s) && Enabled(c, s, l) && ErrorsRight(c, s, cancels)
    ensures ErrorsRight(c, Apply(c, s, l), cancels + if l.CollectorCancel? then 1 else 0)
  {
    var s' := Apply(c, s, l);
    NewCause(c, s, l);
    forall i | 0 <= i < |s'.errors| ensures HasCause(c, s', s'.errors[i]) {
      if i < |s.errors| {
        assert s'.errors[i] == s.errors[i];
        CauseStays(c, s, l, s.errors[i]);
      }
    }
  }

  lemma {:induction false} ErrorsReceived<V>(c: Config, ls: seq<Label<V>>)
    requires Wired(c) && Run(c, Init(c), ls)
    ensures ErrorsRight(c, Exec(c, Init(c), ls), CollectorCancels(ls))
  {
    if ls != [] {
      ErrorsReceived(c, ls[..|ls| - 1]);
      ErrorsStep(c, Exec(c, Init(c), ls[..|ls| - 1]), ls[|ls| - 1], CollectorCancels(ls[..|ls| - 1]));
    }
  }
}
