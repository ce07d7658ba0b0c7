/** What still happens after cancellation: how much is transferred, and that everything stops. */
module Shutdown {
  import opened Tally
  import opened Control
  import opened CloseDiscipline

  // ----- Transfers after cancellation -----

  /** 1 when worker x holds an item that can still cross channel k. */
  ghost function Charge<V>(c: Config, s: State<V>, k: nat, x: nat): nat
    requires Shaped(c, s) && x < |s.workers|
  {
    var i := c.stageOf[x];
    if i >= k then 0
    else match s.workers[x]
      case Processing(_) => 1
      case Broadcasting(_, j) => if OutChannel(i, j) <= k then 1 else 0
      case _ => 0
  }

  ghost function Charges<V>(c: Config, s: State<V>, k: nat): (r: seq<nat>)
    requires Shaped(c, s)
    ensures |r| == |s.workers|
  {
    seq(|s.workers|, x requires 0 <= x < |s.workers| => Charge(c, s, k, x))
  }

  ghost function SourceCharge<V>(s: State<V>): nat {
    if s.source.Fetching? || s.source.Sending? then 1 else 0
  }

  /** Items that can still cross channel k, plus those that already did. */
  ghost function Crossing<V>(c: Config, s: State<V>, k: nat): nat
    requires Shaped(c, s) && k < |s.log|
  {
    SourceCharge(s) + Sum(Charges(c, s, k)) + |s.log[k]|
  }

  /** 1 for each worker of a stage below k. */
  ghost function Upstream(stageOf: seq<nat>, k: nat): (r: seq<nat>)
    ensures |r| == |stageOf|
  {
    seq(|stageOf|, x requires 0 <= x < |stageOf| => if stageOf[x] < k then 1 else 0)
  }

  lemma OneCharge<V>(c: Config, s: State<V>, s': State<V>, k: nat, x: nat)
    requires Shaped(c, s) && Shaped(c, s') && x < |s.workers|
    requires s'.workers == s.workers[x := s'.workers[x]]
    ensures Sum(Charges(c, s', k)) + Charge(c, s, k, x) == Sum(Charges(c, s, k)) + Charge(c, s', k, x)
  {
    SumUpdate(Charges(c, s, k), x, Charge(c, s', k, x));
    assert Charges(c, s', k) == Charges(c, s, k)[x := Charge(c, s', k, x)];
  }

  lemma CrossingSend<V>(c: Config, s: State<V>, x: nat, y: nat, v: V, k: nat)
    requires Shaped(c, s) && Enabled(c, s, WorkerSend(x, y, v)) && k < c.n + c.m
    ensures Crossing(c, Apply(c, s, WorkerSend(x, y, v)), k) <= Crossing(c, s, k)
  {
    var s' := Apply(c, s, WorkerSend(x, y, v));
    var mid := s.(workers := s.workers[x := s'.workers[x]]);
    OneCharge(c, s, mid, k, x);
    OneCharge(c, mid, s', k, y);
  }

  lemma CrossingWorker<V>(c: Config, s: State<V>, l: Label<V>, k: nat)
    requires Shaped(c, s) && Enabled(c, s, l) && k < c.n + c.m
    requires l.WorkerProcess? || l.WorkerDeliver? || l.WorkerCancel? || l.WorkerEnd?
    ensures Crossing(c, Apply(c, s, l), k) <= Crossing(c, s, k)
  {
    OneCharge(c, s, Apply(c, s, l), k, l.w);
  }

  lemma CrossingStep<V>(c: Config, s: State<V>, l: Label<V>, k: nat)
    requires Shaped(c, s) && Enabled(c, s, l) && s.cancelled && k < c.n + c.m
    ensures Crossing(c, Apply(c, s, l), k) <= Crossing(c, s, k)
  {
    var s' := Apply(c, s, l);
    if l.WorkerProcess? || l.WorkerDeliver? || l.WorkerCancel? || l.WorkerEnd? {
      CrossingWorker(c, s, l, k);
    } else if l.WorkerSend? {
      CrossingSend(c, s, l.w, l.to, l.clone, k);
    } else if l.SourceSend? {
      OneCharge(c, s, s', k, l.to);
    } else {
      assert Charges(c, s', k) == Charges(c, s, k);
    }
  }

  lemma {:induction false} CrossingRun<V>(c: Config, s: State<V>, ls: seq<Label<V>>, k: nat)
    requires Inv(c, s) && Run(c, s, ls) && s.cancelled && k < c.n + c.m
    ensures Exec(c, s, ls).cancelled
    ensures Crossing(c, Exec(c, s, ls), k) <= Crossing(c, s, k)
  {
    if ls != [] {
      var front := ls[..|ls| - 1];
      CrossingRun(c, s, front, k);
      InvRun(c, s, front);
      CrossingStep(c, Exec(c, s, front), ls[|ls| - 1], k);
    }
  }

  /**
   * Once a run is cancelled, channel k carries at most one more item per worker upstream of it, plus the one
   * the source is fetching or sending: at most 1 + W on every sink channel.
   */
  lemma BoundedShutdown<V>(c: Config, before: seq<Label<V>>, after: seq<Label<V>>, k: nat)
    requires Wired(c) && k < c.n + c.m
    requires Run(c, Init(c), before) && Exec(c, Init(c), before).cancelled
    requires Run(c, Exec(c, Init(c), before), after)
    ensures var s := Exec(c, Init(c), before);
            |Exec(c, s, after).log[k]| <= |s.log[k]| + 1 + Sum(Upstream(c.stageOf, k))
    ensures k >= c.n ==> Sum(Upstream(c.stageOf, k)) == |c.stageOf|
  {
    InitInv<V>(c);
    InvRun(c, Init(c), before);
    var s := Exec(c, Init(c), before);
    CrossingRun(c, s, after, k);
    SumLeq(Charges(c, s, k), Upstream(c.stageOf, k));
    if k >= c.n {
      SumOnes(Upstream(c.stageOf, k));
    }
  }

  // ----- Termination -----

  /** The weight of the longest way an item in process at stage i can still go. */
  ghost function Journey(c: Config, i: nat): nat
    requires i < c.n
  {
    2 * c.m + 2 * (c.n - i)
  }

  /** What the ranks need of a state. */
  ghost predicate Sized<V>(c: Config, s: State<V>) {
    Shaped(c, s) && Aimed(c, s)
  }

  ghost function WorkerRank<V>(c: Config, s: State<V>, x: nat): nat
    requires Sized(c, s) && x < |s.workers|
  {
    match s.workers[x]
    case Receiving => 1
    case Processing(_) => Journey(c, c.stageOf[x])
    case Broadcasting(_, j) => Journey(c, c.stageOf[x]) - 1 - 2 * j
    case Exited(_) => 0
  }

  ghost function WorkerRanks<V>(c: Config, s: State<V>): (r: seq<nat>)
    requires Sized(c, s)
    ensures |r| == |s.workers|
  {
    seq(|s.workers|, x requires 0 <= x < |s.workers| => WorkerRank(c, s, x))
  }

  ghost function StageRanks<V>(s: State<V>): (r: seq<nat>)
    ensures |r| == |s.stages|
  {
    seq(|s.stages|, i requires 0 <= i < |s.stages| =>
      match s.stages[i] case Running => 2 case StageClosed => 1 case StageDone => 0)
  }

  ghost function SinkRanks<V>(s: State<V>): (r: seq<nat>)
    ensures |r| == |s.sinks|
  {
    seq(|s.sinks|, j requires 0 <= j < |s.sinks| =>
      match s.sinks[j] case Idle => 2 case Draining(_) => 3 case SinkReturned => 1 case SinkDone => 0)
  }

  ghost function SourceRank<V>(c: Config, s: State<V>): nat
    requires Sized(c, s)
  {
    match s.source
    case Fetching => 6 + Journey(c, 0)
    case Sending(_) => 5 + Journey(c, 0)
    case Selecting => 5
    case Reporting => 4
    case SourceReturned => 2
    case SourceClosed => 1
    case SourceDone => 0
  }

  ghost function EndRank<V>(s: State<V>): nat {
    (match s.collector case Cancelling => 2 case Ranging => 1 case CollectorReturned => 0)
     + (match s.closer case Waiting => 2 case ErrClosed => 1 case CloserDone => 0)
  }

  ghost function Rank<V>(c: Config, s: State<V>): nat
    requires Sized(c, s)
  {
    SourceRank(c, s) + Sum(WorkerRanks(c, s)) + Sum(StageRanks(s)) + Sum(SinkRanks(s)) + EndRank(s)
  }

  /** Every step but the caller cancelling (again) and the consumer reporting an error. */
  ghost predicate Internal<V>(l: Label<V>) {
    !l.Cancel? && !l.ConsumerError?
  }

  lemma OneWorkerRank<V>(c: Config, s: State<V>, s': State<V>, x: nat)
    requires Sized(c, s) && Sized(c, s') && x < |s.workers|
    requires s'.workers == s.workers[x := s'.workers[x]]
    ensures Sum(WorkerRanks(c, s')) + WorkerRank(c, s, x) == Sum(WorkerRanks(c, s)) + WorkerRank(c, s', x)
  {
    SumUpdate(WorkerRanks(c, s), x, WorkerRank(c, s', x));
    assert WorkerRanks(c, s') == WorkerRanks(c, s)[x := WorkerRank(c, s', x)];
  }

  lemma OneSinkRank<V>(s: State<V>, s': State<V>, j: nat)
    requires j < |s.sinks| && |s'.sinks| == |s.sinks| && s'.sinks == s.sinks[j := s'.sinks[j]]
    ensures Sum(SinkRanks(s')) + SinkRanks(s)[j] == Sum(SinkRanks(s)) + SinkRanks(s')[j]
  {
    SumUpdate(SinkRanks(s), j, SinkRanks(s')[j]);
    assert SinkRanks(s') == SinkRanks(s)[j := SinkRanks(s')[j]];
  }

  lemma OneStageRank<V>(s: State<V>, s': State<V>, i: nat)
    requires i < |s.stages| && |s'.stages| == |s.stages| && s'.stages == s.stages[i := s'.stages[i]]
    ensures Sum(StageRanks(s')) + StageRanks(s)[i] == Sum(StageRanks(s)) + StageRanks(s')[i]
  {
    SumUpdate(StageRanks(s), i, StageRanks(s')[i]);
    assert StageRanks(s') == StageRanks(s)[i := StageRanks(s')[i]];
  }

  lemma SameRanks<V>(c: Config, s: State<V>, s': State<V>)
    requires Sized(c, s) && Sized(c, s')
    ensures s'.workers == s.workers ==> Sum(WorkerRanks(c, s')) == Sum(WorkerRanks(c, s))
    ensures s'.stages == s.stages ==> Sum(StageRanks(s')) == Sum(StageRanks(s))
    ensures s'.sinks == s.sinks ==> Sum(SinkRanks(s')) == Sum(SinkRanks(s))
  {
    assert s'.workers == s.workers ==> WorkerRanks(c, s') == WorkerRanks(c, s);
    assert s'.stages == s.stages ==> StageRanks(s') == StageRanks(s);
    assert s'.sinks == s.sinks ==> SinkRanks(s') == SinkRanks(s);
  }

  lemma TwoWorkerRanks<V>(c: Config, s: State<V>, s': State<V>, x: nat, y: nat)
    requires Sized(c, s) && Sized(c, s') && x < |s.workers| && y < |s.workers| && x != y
    requires s'.workers == s.workers[x := s'.workers[x]][y := s'.workers[y]]
    ensures Sum(WorkerRanks(c, s')) + WorkerRank(c, s, x) + WorkerRank(c, s, y)
         == Sum(WorkerRanks(c, s)) + WorkerRank(c, s', x) + WorkerRank(c, s', y)
  {
    var mid := WorkerRanks(c, s)[x := WorkerRank(c, s', x)];
    SumUpdate(WorkerRanks(c, s), x, WorkerRank(c, s', x));
    SumUpdate(mid, y, WorkerRank(c, s', y));
    assert WorkerRanks(c, s') == mid[y := WorkerRank(c, s', y)];
  }

  lemma RankSend<V>(c: Config, s: State<V>, x: nat, y: nat, v: V)
    requires Sized(c, s) && Enabled(c, s, WorkerSend(x, y, v)) && Sized(c, Apply(c, s, WorkerSend(x, y, v)))
    ensures Rank(c, Apply(c, s, WorkerSend(x, y, v))) < Rank(c, s)
  {
    var s' := Apply(c, s, WorkerSend(x, y, v));
    assert s'.source == s.source && s'.stages == s.stages && s'.sinks == s.sinks && EndRank(s') == EndRank(s);
    assert s'.workers[x].Receiving? && s'.workers[y].Processing?;
    assert s'.workers == s.workers[x := s'.workers[x]][y := s'.workers[y]];
    TwoWorkerRanks(c, s, s', x, y);
    SameRanks(c, s, s');
  }

  lemma RankProcess<V>(c: Config, s: State<V>, x: nat, v: Verdict<V>)
    requires Sized(c, s) && Enabled(c, s, WorkerProcess(x, v)) && Sized(c, Apply(c, s, WorkerProcess(x, v)))
    ensures Rank(c, Apply(c, s, WorkerProcess(x, v))) < Rank(c, s)
  {
    var s' := Apply(c, s, WorkerProcess(x, v));
    assert s'.source == s.source && s'.stages == s.stages && s'.sinks == s.sinks && s'.closer == s.closer;
    OneWorkerRank(c, s, s', x);
    SameRanks(c, s, s');
    assert EndRank(s') <= EndRank(s) + if v.Fail? then 1 else 0;
    assert WorkerRank(c, s', x) + (if v.Fail? then 2 else 1) <= WorkerRank(c, s, x);
  }

  lemma RankExit<V>(c: Config, s: State<V>, l: Label<V>)
    requires Sized(c, s) && Enabled(c, s, l) && Sized(c, Apply(c, s, l))
    requires l.WorkerCancel? || l.WorkerEnd?
    ensures Rank(c, Apply(c, s, l)) < Rank(c, s)
  {
    var s' := Apply(c, s, l);
    assert s'.source == s.source && s'.stages == s.stages && s'.sinks == s.sinks && EndRank(s') == EndRank(s);
    OneWorkerRank(c, s, s', l.w);
    SameRanks(c, s, s');
  }

  lemma RankDeliver<V>(c: Config, s: State<V>, x: nat, j: nat, v: V)
    requires Sized(c, s) && Enabled(c, s, WorkerDeliver(x, j, v)) && Sized(c, Apply(c, s, WorkerDeliver(x, j, v)))
    ensures Rank(c, Apply(c, s, WorkerDeliver(x, j, v))) < Rank(c, s)
  {
    var s' := Apply(c, s, WorkerDeliver(x, j, v));
    assert s'.source == s.source && s'.stages == s.stages && EndRank(s') == EndRank(s);
    assert WorkerRank(c, s', x) + 2 <= WorkerRank(c, s, x);
    OneWorkerRank(c, s, s', x);
    OneSinkRank(s, s', j);
    SameRanks(c, s, s');
  }

  lemma RankSink<V>(c: Config, s: State<V>, l: Label<V>)
    requires Sized(c, s) && Enabled(c, s, l) && Sized(c, Apply(c, s, l))
    requires l.SinkDrain? || l.SinkFail? || l.SinkCancel? || l.SinkEnd? || l.SinkFinish?
    ensures Rank(c, Apply(c, s, l)) < Rank(c, s)
  {
    var s' := Apply(c, s, l);
    assert s'.source == s.source && s'.stages == s.stages && s'.workers == s.workers && s'.closer == s.closer;
    assert EndRank(s') <= EndRank(s) + if l.SinkFail? then 1 else 0;
    assert SinkRanks(s')[l.sink] + (if l.SinkFail? then 2 else 1) <= SinkRanks(s)[l.sink];
    OneSinkRank(s, s', l.sink);
    SameRanks(c, s, s');
  }

  lemma RankStage<V>(c: Config, s: State<V>, l: Label<V>)
    requires Sized(c, s) && Enabled(c, s, l) && Sized(c, Apply(c, s, l))
    requires l.StageClose? || l.StageFinish?
    ensures Rank(c, Apply(c, s, l)) < Rank(c, s)
  {
    OneStageRank(s, Apply(c, s, l), l.stage);
    SameRanks(c, s, Apply(c, s, l));
  }

  lemma RankFeed<V>(c: Config, s: State<V>, y: nat)
    requires Sized(c, s) && Enabled(c, s, SourceSend(y)) && Sized(c, Apply(c, s, SourceSend(y)))
    ensures Rank(c, Apply(c, s, SourceSend(y))) < Rank(c, s)
  {
    var s' := Apply(c, s, SourceSend(y));
    assert s'.stages == s.stages && s'.sinks == s.sinks && EndRank(s') == EndRank(s);
    OneWorkerRank(c, s, s', y);
    SameRanks(c, s, s');
  }

  /** The steps of the source, the collector and the closer. */
  ghost predicate Alone<V>(l: Label<V>) {
    || l.SourceFetch? || l.SourceTake? || l.SourceNone? || l.SourceQuit? || l.SourceReport? || l.SourceClose?
    || l.SourceFinish? || l.CollectorCancel? || l.CollectorReturn? || l.CloserClose? || l.CloserCancel?
  }

  lemma RankAlone<V>(c: Config, s: State<V>, l: Label<V>)
    requires Sized(c, s) && Enabled(c, s, l) && s.cancelled && Alone(l) && Sized(c, Apply(c, s, l))
    ensures Rank(c, Apply(c, s, l)) < Rank(c, s)
  {
    var s' := Apply(c, s, l);
    assert s'.workers == s.workers && s'.stages == s.stages && s'.sinks == s.sinks;
    SameRanks(c, s, s');
    assert SourceRank(c, s') + EndRank(s') < SourceRank(c, s) + EndRank(s);
  }

  /** Once cancelled, every internal step makes the rank fall. */
  lemma RankFalls<V>(c: Config, s: State<V>, l: Label<V>)
    requires Inv(c, s) && Enabled(c, s, l) && s.cancelled && Internal(l)
    ensures Inv(c, Apply(c, s, l))
    ensures Rank(c, Apply(c, s, l)) < Rank(c, s)
  {
    InvStep(c, s, l);
    if l.WorkerProcess? {
      RankProcess(c, s, l.w, l.verdict);
    } else if l.WorkerCancel? || l.WorkerEnd? {
      RankExit(c, s, l);
    } else if l.WorkerSend? {
      RankSend(c, s, l.w, l.to, l.clone);
    } else if l.WorkerDeliver? {
      RankDeliver(c, s, l.w, l.sink, l.clone);
    } else if l.SinkDrain? || l.SinkFail? || l.SinkCancel? || l.SinkEnd? || l.SinkFinish? {
      RankSink(c, s, l);
    } else if l.StageClose? || l.StageFinish? {
      RankStage(c, s, l);
    } else if l.SourceSend? {
      RankFeed(c, s, l.to);
    } else {
      RankAlone(c, s, l);
    }
  }

  /** No state ranks higher. */
  ghost function MaxRank(c: Config): nat {
    10 + (1 + |c.stageOf|) * (2 * c.m + 2 * c.n) + 2 * c.n + 3 * c.m
  }

  lemma RankBounded<V>(c: Config, s: State<V>)
    requires Sized(c, s)
    ensures Rank(c, s) <= MaxRank(c)
  {
    var most := 2 * c.m + 2 * c.n;
    SumBounded(WorkerRanks(c, s), most);
    SumBounded(StageRanks(s), 2);
    SumBounded(SinkRanks(s), 3);
    assert (1 + |c.stageOf|) * most == most + |c.stageOf| * most;
    assert SourceRank(c, s) <= 6 + most;
  }

  lemma CancelledStep<V>(c: Config, s: State<V>, l: Label<V>)
    requires Inv(c, s) && Enabled(c, s, l) && s.cancelled && Internal(l)
    ensures Inv(c, Apply(c, s, l)) && Apply(c, s, l).cancelled
    ensures Rank(c, Apply(c, s, l)) + 1 <= Rank(c, s)
  {
    RankFalls(c, s, l);
  }

  /** A cancelled run takes at most Rank further internal steps, whatever the schedule. */
  lemma {:induction false} CancelledRunsEnd<V>(c: Config, s: State<V>, ls: seq<Label<V>>)
    requires Inv(c, s) && s.cancelled && Run(c, s, ls)
    requires forall l :: l in ls ==> Internal(l)
    ensures Inv(c, Exec(c, s, ls)) && Exec(c, s, ls).cancelled
    ensures |ls| + Rank(c, Exec(c, s, ls)) <= Rank(c, s)
  {
    if ls != [] {
      var front := ls[..|ls| - 1];
      CancelledRunsEnd(c, s, front);
      CancelledStep(c, Exec(c, s, front), ls[|ls| - 1]);
    }
  }

  // ----- No deadlock -----

  /** Nothing is left to do: every goroutine is done and, if the counter could reach zero, Process has returned. */
  ghost predicate Finished<V>(c: Config, s: State<V>) {
    && AllDone(s) && !s.collector.Cancelling?
    && (c.base == 0 ==> s.closer.CloserDone? && s.collector.CollectorReturned?)
  }

  /** A choice of outcomes for the calls into processors and storage that a worker or a sink is waiting for. */
  ghost predicate Choice<V>(verdict: nat -> Verdict<V>) {
    forall x :: verdict(x).Fail? ==> verdict(x).emission.DroppedError?
  }

  /** The step worker x takes next when no receiver helps it. */
  ghost function OwnStep<V>(s: State<V>, x: nat, verdict: nat -> Verdict<V>): Label<V>
    requires x < |s.workers|
  {
    if s.workers[x].Processing? then WorkerProcess(x, verdict(x)) else WorkerCancel(x)
  }

  lemma LiveWorkerSteps<V>(c: Config, s: State<V>, x: nat, verdict: nat -> Verdict<V>)
    requires Inv(c, s) && s.cancelled && Choice(verdict)
    requires x < |s.workers| && !s.workers[x].Exited?
    ensures Enabled(c, s, OwnStep(s, x, verdict))
  {
  }

  /** Everyone but the source is done, as far as they can be without it. */
  ghost predicate OthersDone<V>(c: Config, s: State<V>) {
    && (forall x :: 0 <= x < |s.workers| ==> s.workers[x].Exited?)
    && (forall i :: 0 <= i < |s.stages| ==> s.stages[i].StageDone?)
    && (forall j :: 0 <= j < |s.sinks| ==> s.sinks[j].SinkDone?)
    && s.collector.Ranging?
  }

  /** The source waits in its send, which has no cancel branch, and nobody is left to receive. */
  ghost predicate Blocked<V>(c: Config, s: State<V>) {
    s.source.Sending? && OthersDone(c, s)
  }

  /** The source waits for a message in Next, which does not return on cancellation. */
  ghost predicate Starved<V>(c: Config, s: State<V>) {
    s.source.Fetching? && OthersDone(c, s)
  }

  /** The source's next step when it needs no receiver and no message. */
  ghost function SourceStep<V>(s: State<V>): Label<V> {
    match s.source
    case Selecting => SourceQuit
    case Reporting => SourceReport(NoError)
    case SourceReturned => SourceClose
    case SourceClosed => SourceFinish
    case _ => SourceNone
  }

  lemma SourceSteps<V>(c: Config, s: State<V>)
    requires Inv(c, s) && s.cancelled && !s.source.Sending? && !s.source.SourceDone?
    ensures Internal(SourceStep(s)) && Enabled(c, s, SourceStep(s))
    ensures s.source.Fetching? <==> SourceStep<V>(s).SourceNone?
  {
  }

  /** When everyone else is done, so are the collector and the closer, or they can step. */
  lemma LastSteps<V>(c: Config, s: State<V>) returns (l: Label<V>)
    requires Inv(c, s) && AllDone(s) && !Finished(c, s)
    ensures Enabled(c, s, l) && (l.CollectorCancel? || l.CloserClose? || l.CloserCancel? || l.CollectorReturn?)
  {
    LiveNone(s);
    if s.collector.Cancelling? {
      return CollectorCancel;
    } else if s.closer.Waiting? {
      return CloserClose;
    } else if s.closer.ErrClosed? {
      return CloserCancel;
    } else {
      return CollectorReturn;
    }
  }

  /**
   * No deadlock: in a cancelled run some goroutine can always step until everything is finished or the source
   * is blocked in its send; and without a message from outside, until it also waits for one.
   */
  lemma NextStep<V>(c: Config, s: State<V>, verdict: nat -> Verdict<V>, clone: nat -> V) returns (l: Label<V>)
    requires Inv(c, s) && s.cancelled && !Finished(c, s) && !Blocked(c, s) && Choice(verdict)
    ensures Internal(l) && Enabled(c, s, l)
    ensures l.WorkerProcess? ==> l.verdict == verdict(l.w)
    ensures l.SinkDrain? ==> l.clone == clone(l.sink)
    ensures !l.SourceTake? && !l.SourceSend? && !l.WorkerSend? && !l.WorkerDeliver?
    ensures l.SourceNone? ==> Starved(c, s)
  {
    if !s.source.Sending? && !s.source.Fetching? && !s.source.SourceDone? {
      SourceSteps(c, s);
      return SourceStep(s);
    } else if x: nat :| x < |s.workers| && !s.workers[x].Exited? {
      LiveWorkerSteps(c, s, x, verdict);
      return OwnStep(s, x, verdict);
    } else if i: nat :| i < c.n && !s.stages[i].StageDone? {
      return if s.stages[i].Running? then StageClose(i) else StageFinish(i);
    } else if j: nat :| j < c.m && !s.sinks[j].SinkDone? {
      return match s.sinks[j]
        case Idle => SinkCancel(j)
        case Draining(_) => SinkDrain(j, clone(j))
        case _ => SinkFinish(j);
    } else if s.collector.Cancelling? {
      return CollectorCancel;
    } else if s.source.Fetching? {
      return SourceNone;
    } else {
      l := LastSteps(c, s);
    }
  }

  /** In a cancelled run no schedule of internal steps is longer than this. */
  lemma ShutdownBounded<V>(c: Config, before: seq<Label<V>>, after: seq<Label<V>>)
    requires Wired(c) && Run(c, Init(c), before) && Exec(c, Init(c), before).cancelled
    requires Run(c, Exec(c, Init(c), before), after) && forall l :: l in after ==> Internal(l)
    ensures |after| <= MaxRank(c)
  {
    InitInv<V>(c);
    InvRun(c, Init(c), before);
    CancelledRunsEnd(c, Exec(c, Init(c), before), after);
    RankBounded(c, Exec(c, Init(c), before));
  }
}
