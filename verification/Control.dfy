/**
 * The goroutines of one call of `Pipeline.Process` as a step machine.
 *
 * A payload travels as an `Item`: its position in the order in which the source handed it out, and a body.
 * The machine is generic in the body, so that the same steps carry payload values (module Dataflow) and
 * references to pooled payload objects (module Ownership).  An unbuffered channel send is one step of the
 * sender and the receiver together (Go Programming Language Specification, "Send statements").
 */
module Control {

  datatype Item<V> = Item(id: nat, body: V)

  /** stageOf[x] is the stage of fifo worker x; n stages, m sinks; base is the WaitGroup count of the caller. */
  datatype Config = Config(stageOf: seq<nat>, n: nat, m: nat, base: nat)

  ghost predicate Wired(c: Config) {
    && c.n >= 1 && c.m >= 1
    && (forall x :: 0 <= x < |c.stageOf| ==> c.stageOf[x] < c.n)
    && (forall i :: 0 <= i < c.n ==> i in c.stageOf)
  }

  datatype Source<V> =
    | Selecting | Fetching | Sending(item: Item<V>) | Reporting
    | SourceReturned | SourceClosed | SourceDone

  /** Why a fifo worker returned, with the payload it still held. */
  datatype Exit<V> = Clean | Refused(item: Item<V>) | Failed(item: Item<V>) | Abandoned(item: Item<V>, next: nat)

  datatype Worker<V> =
    | Receiving | Processing(item: Item<V>) | Broadcasting(item: Item<V>, next: nat) | Exited(exit: Exit<V>)

  datatype Stage = Running | StageClosed | StageDone

  datatype Sink<V> = Idle | Draining(item: Item<V>) | SinkReturned | SinkDone

  datatype Collector = Ranging | Cancelling | CollectorReturned

  datatype Closer = Waiting | ErrClosed | CloserDone

  datatype Origin = FromSource | FromStage(stage: nat) | FromSink(sink: nat) | FromConsumer

  /** What became of an error handed to `maybeEmitError`: there was none, it was dropped, it was received. */
  datatype Emission = NoError | DroppedError | TakenError

  /** What a worker does with the payload it received. */
  datatype Verdict<V> = Forward(out: V) | Discard | Refuse | Fail(emission: Emission)

  datatype State<V> = State(
    taken: seq<V>,              // every payload the source handed out
    log: seq<seq<Item<V>>>,     // log[k]: every item transferred over stageCh[k]
    discarded: seq<Item<V>>,    // items marked as processed because the processor returned none
    drained: seq<seq<Item<V>>>, // drained[j]: every clone sink j handed to its storage
    source: Source<V>,
    workers: seq<Worker<V>>,
    stages: seq<Stage>,
    sinks: seq<Sink<V>>,
    closed: seq<bool>,
    cancelled: bool,
    wg: int,
    errors: seq<Origin>,
    collector: Collector,
    closer: Closer)

  /** State once `Process` has started its goroutines.  Sink j reads stageCh[n+j]. */
  ghost function Init<V>(c: Config): State<V> {
    State([], seq(c.n + c.m, _ => []), [], seq(c.m, _ => []),
          Selecting, seq(|c.stageOf|, _ => Receiving), seq(c.n, _ => Running), seq(c.m, _ => Idle),
          seq(c.n + c.m, _ => false), false, c.base + c.n + 1 + c.m, [], Ranging, Waiting)
  }

  datatype Label<V> =
    | Cancel
    | SourceFetch
    | SourceTake(payload: V)
    | SourceNone
    | SourceQuit
    | SourceReport(emission: Emission)
    | SourceClose
    | SourceFinish
    | SourceSend(to: nat)
    | WorkerProcess(w: nat, verdict: Verdict<V>)
    | WorkerSend(w: nat, to: nat, clone: V)
    | WorkerDeliver(w: nat, sink: nat, clone: V)
    | WorkerCancel(w: nat)
    | WorkerEnd(w: nat)
    | StageClose(stage: nat)
    | StageFinish(stage: nat)
    | SinkDrain(sink: nat, clone: V)
    | SinkFail(sink: nat, emission: Emission)
    | SinkCancel(sink: nat)
    | SinkEnd(sink: nat)
    | SinkFinish(sink: nat)
    | ConsumerError
    | CollectorCancel
    | CollectorReturn
    | CloserClose
    | CloserCancel

  ghost predicate ErrClosedOf<V>(s: State<V>) {
    !s.closer.Waiting?
  }

  /** A non-blocking send on the unbuffered errCh succeeds only with a receiver; otherwise the error is lost. */
  ghost predicate CanEmit<V>(s: State<V>, e: Emission) {
    e.TakenError? ==> s.collector.Ranging? && !ErrClosedOf(s)
  }

  /** The collector after an error was received, and the errors it has received. */
  ghost function Emit<V>(s: State<V>, e: Emission, o: Origin): State<V> {
    s.(errors := if e.TakenError? then s.errors + [o] else s.errors,
       collector := if e.TakenError? then Cancelling else s.collector)
  }

  ghost predicate AllExited<V>(c: Config, s: State<V>, i: nat) {
    forall x :: 0 <= x < |c.stageOf| && x < |s.workers| && c.stageOf[x] == i ==> s.workers[x].Exited?
  }

  /** How many output channels a worker of stage i broadcasts to, and the number of the j-th of them. */
  ghost function Fanout(c: Config, i: nat): nat {
    if i + 1 == c.n then c.m else 1
  }

  ghost function OutChannel(i: nat, j: nat): nat {
    i + 1 + j
  }

  /** Worker x after its item was taken from output channel number j of its stage. */
  ghost function AfterSend<V>(c: Config, i: nat, item: Item<V>, j: nat): Worker<V> {
    if j + 1 == Fanout(c, i) then Receiving else Broadcasting(item, j + 1)
  }

  ghost function Append<T>(ss: seq<seq<T>>, k: nat, t: T): seq<seq<T>>
    requires k < |ss|
  {
    ss[k := ss[k] + [t]]
  }

  /** The lengths every state of a run has. */
  ghost predicate Shaped<V>(c: Config, s: State<V>) {
    && |s.log| == |s.closed| == c.n + c.m
    && |s.workers| == |c.stageOf| && |s.stages| == c.n
    && |s.sinks| == |s.drained| == c.m
    && (forall x :: 0 <= x < |c.stageOf| ==> c.stageOf[x] < c.n)
    && c.n >= 1 && c.m >= 1
  }

  ghost predicate Enabled<V>(c: Config, s: State<V>, l: Label<V>)
    requires Shaped(c, s)
  {
    match l
    case Cancel => true
    case SourceFetch => s.source.Selecting? && !s.cancelled
    case SourceTake(_) => s.source.Fetching?
    case SourceNone => s.source.Fetching?
    case SourceQuit => s.source.Selecting? && s.cancelled
    case SourceReport(e) => s.source.Reporting? && CanEmit(s, e)
    case SourceClose => s.source.SourceReturned?
    case SourceFinish => s.source.SourceClosed?
    case SourceSend(y) =>
      && s.source.Sending? && !s.closed[0]
      && y < |s.workers| && c.stageOf[y] == 0 && s.workers[y].Receiving?
    case WorkerProcess(x, v) =>
      && x < |s.workers| && s.workers[x].Processing?
      && (v.Fail? ==> !v.emission.NoError? && CanEmit(s, v.emission))
    case WorkerSend(x, y, _) =>
      && x < |s.workers| && y < |s.workers|
      && s.workers[x].Broadcasting? && s.workers[x].next == 0
      && c.stageOf[x] + 1 < c.n && c.stageOf[y] == c.stageOf[x] + 1
      && !s.closed[c.stageOf[y]] && s.workers[y].Receiving?
    case WorkerDeliver(x, j, _) =>
      && x < |s.workers| && j < c.m
      && s.workers[x].Broadcasting? && s.workers[x].next == j
      && c.stageOf[x] + 1 == c.n
      && !s.closed[c.n + j] && s.sinks[j].Idle?
    case WorkerCancel(x) =>
      && x < |s.workers| && s.cancelled
      && (s.workers[x].Receiving? || s.workers[x].Broadcasting?)
    case WorkerEnd(x) =>
      x < |s.workers| && s.workers[x].Receiving? && s.closed[c.stageOf[x]]
    case StageClose(i) => i < c.n && s.stages[i].Running? && AllExited(c, s, i)
    case StageFinish(i) => i < c.n && s.stages[i].StageClosed?
    case SinkDrain(j, _) => j < c.m && s.sinks[j].Draining?
    case SinkFail(j, e) => j < c.m && s.sinks[j].Draining? && !e.NoError? && CanEmit(s, e)
    case SinkCancel(j) => j < c.m && s.sinks[j].Idle? && s.cancelled
    case SinkEnd(j) => j < c.m && s.sinks[j].Idle? && s.closed[c.n + j]
    case SinkFinish(j) => j < c.m && s.sinks[j].SinkReturned?
    case ConsumerError => s.collector.Ranging? && !ErrClosedOf(s)
    case CollectorCancel => s.collector.Cancelling?
    case CollectorReturn => s.collector.Ranging? && ErrClosedOf(s)
    case CloserClose => s.closer.Waiting? && s.wg == 0
    case CloserCancel => s.closer.ErrClosed?
  }

  /** A worker after the verdict on the item it was processing. */
  ghost function Judged<V>(item: Item<V>, v: Verdict<V>): Worker<V> {
    match v
    case Forward(out) => Broadcasting(Item(item.id, out), 0)
    case Discard => Receiving
    case Refuse => Exited(Refused(item))
    case Fail(_) => Exited(Failed(item))
  }

  ghost function Judge<V>(c: Config, s: State<V>, x: nat, v: Verdict<V>): (s': State<V>)
    requires Shaped(c, s) && x < |s.workers| && s.workers[x].Processing?
  {
    var item := s.workers[x].item;
    Emit(s.(workers := s.workers[x := Judged(item, v)],
            discarded := if v.Discard? then s.discarded + [item] else s.discarded),
         if v.Fail? then v.emission else NoError, FromStage(c.stageOf[x]))
  }

  /** A step that is not one of the source or of a worker. */
  ghost predicate Closing<V>(l: Label<V>) {
    || l.Cancel? || l.StageClose? || l.StageFinish?
    || l.SinkDrain? || l.SinkFail? || l.SinkCancel? || l.SinkEnd? || l.SinkFinish?
    || l.ConsumerError? || l.CollectorCancel? || l.CollectorReturn? || l.CloserClose? || l.CloserCancel?
  }

  ghost function ApplyClosing<V>(c: Config, s: State<V>, l: Label<V>): (s': State<V>)
    requires Shaped(c, s) && Enabled(c, s, l) && Closing(l)
    ensures Shaped(c, s')
  {
    match l
    case Cancel => s.(cancelled := true)
    case StageClose(i) => s.(stages := s.stages[i := StageClosed], closed := s.closed[i + 1 := true])
    case StageFinish(i) => s.(stages := s.stages[i := StageDone], wg := s.wg - 1)
    case SinkDrain(j, v) =>
      s.(sinks := s.sinks[j := Idle], drained := Append(s.drained, j, Item(s.sinks[j].item.id, v)))
    case SinkFail(j, e) => Emit(s.(sinks := s.sinks[j := SinkReturned]), e, FromSink(j))
    case SinkCancel(j) => s.(sinks := s.sinks[j := SinkReturned])
    case SinkEnd(j) => s.(sinks := s.sinks[j := SinkReturned])
    case SinkFinish(j) => s.(sinks := s.sinks[j := SinkDone], wg := s.wg - 1)
    case ConsumerError => Emit(s, TakenError, FromConsumer)
    case CollectorCancel => s.(collector := Ranging, cancelled := true)
    case CollectorReturn => s.(collector := CollectorReturned)
    case CloserClose => s.(closer := ErrClosed)
    case CloserCancel => s.(closer := CloserDone, cancelled := true)
  }

  ghost function Apply<V>(c: Config, s: State<V>, l: Label<V>): (s': State<V>)
    requires Shaped(c, s) && Enabled(c, s, l)
    ensures Shaped(c, s')
  {
    match l
    case SourceFetch => s.(source := Fetching)
    case SourceTake(v) => s.(source := Sending(Item(|s.taken|, v)), taken := s.taken + [v])
    case SourceNone => s.(source := Selecting)
    case SourceQuit => s.(source := Reporting)
    case SourceReport(e) => Emit(s.(source := SourceReturned), e, FromSource)
    case SourceClose => s.(source := SourceClosed, closed := s.closed[0 := true])
    case SourceFinish => s.(source := SourceDone, wg := s.wg - 1)
    case SourceSend(y) =>
      s.(source := Selecting, workers := s.workers[y := Processing(s.source.item)],
         log := Append(s.log, 0, s.source.item))
    case WorkerProcess(x, v) => Judge(c, s, x, v)
    case WorkerSend(x, y, v) =>
      var moved := Item(s.workers[x].item.id, v);
      s.(workers := s.workers[x := AfterSend(c, c.stageOf[x], s.workers[x].item, 0)][y := Processing(moved)],
         log := Append(s.log, OutChannel(c.stageOf[x], 0), moved))
    case WorkerDeliver(x, j, v) =>
      var moved := Item(s.workers[x].item.id, v);
      s.(workers := s.workers[x := AfterSend(c, c.stageOf[x], s.workers[x].item, j)],
         sinks := s.sinks[j := Draining(moved)],
         log := Append(s.log, OutChannel(c.stageOf[x], j), moved))
    case WorkerCancel(x) =>
      var exit := if s.workers[x].Receiving? then Clean else Abandoned(s.workers[x].item, s.workers[x].next);
      s.(workers := s.workers[x := Exited(exit)])
    case WorkerEnd(x) => s.(workers := s.workers[x := Exited(Clean)])
    case _ => ApplyClosing(c, s, l)
  }

  ghost predicate Run<V>(c: Config, s: State<V>, ls: seq<Label<V>>)
    requires Shaped(c, s)
    decreases ls, 0
  {
    ls == [] || (Run(c, s, ls[..|ls| - 1]) && Enabled(c, Exec(c, s, ls[..|ls| - 1]), ls[|ls| - 1]))
  }

  ghost function Exec<V>(c: Config, s: State<V>, ls: seq<Label<V>>): (s': State<V>)
    requires Shaped(c, s) && Run(c, s, ls)
    ensures Shaped(c, s')
    decreases ls, 1
  {
    if ls == [] then s else Apply(c, Exec(c, s, ls[..|ls| - 1]), ls[|ls| - 1])
  }

  /** How a run may crash the process: a send on, or a second close of, a closed channel, or a negative WaitGroup. */
  ghost predicate CanPanic<V>(c: Config, s: State<V>)
    requires Shaped(c, s)
  {
    || (s.source.Sending? && s.closed[0])
    || (s.source.SourceReturned? && s.closed[0])
    || (exists x :: 0 <= x < |s.workers| && s.workers[x].Broadcasting? && s.workers[x].next < Fanout(c, c.stageOf[x])
                    && s.closed[OutChannel(c.stageOf[x], s.workers[x].next)])
    || (exists i :: 0 <= i < c.n && s.stages[i].Running? && AllExited(c, s, i) && s.closed[i + 1])
    || (ErrClosedOf(s) && (|| s.source.Reporting?
                           || (exists x :: 0 <= x < |s.workers| && s.workers[x].Processing?)
                           || (exists j :: 0 <= j < c.m && s.sinks[j].Draining?)))
    || (s.wg <= 0 && (|| s.source.SourceClosed?
                      || (exists i :: 0 <= i < c.n && s.stages[i].StageClosed?)
                      || (exists j :: 0 <= j < c.m && s.sinks[j].SinkReturned?)))
  }
}
