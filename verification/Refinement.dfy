/**
 * The pipeline over pooled payload objects refines the pipeline over payload values: whatever the recycling,
 * the sharing of Value maps and the scheduling, everybody reads the payloads the value machine says.
 */
module Refinement {
  import opened Payloads
  import opened Control
  import D = Dataflow
  import opened Ownership
  import opened PoolSafety

  /** The same step, about payload values. */
  ghost function Relabel(l: Label<Addr>): Label<Payload>
    requires !Touches(l)
  {
    match l
    case Cancel => Cancel
    case SourceFetch => SourceFetch
    case SourceNone => SourceNone
    case SourceQuit => SourceQuit
    case SourceReport(e) => SourceReport(e)
    case SourceClose => SourceClose
    case SourceFinish => SourceFinish
    case SourceSend(y) => SourceSend(y)
    case WorkerCancel(x) => WorkerCancel(x)
    case WorkerEnd(x) => WorkerEnd(x)
    case StageClose(i) => StageClose(i)
    case StageFinish(i) => StageFinish(i)
    case SinkFail(j, e) => SinkFail(j, e)
    case SinkCancel(j) => SinkCancel(j)
    case SinkEnd(j) => SinkEnd(j)
    case SinkFinish(j) => SinkFinish(j)
    case ConsumerError => ConsumerError
    case CollectorCancel => CollectorCancel
    case CollectorReturn => CollectorReturn
    case CloserClose => CloserClose
    case CloserCancel => CloserCancel
  }

  ghost function ValueVerdict(r: D.Result, e: Emission): Verdict<Payload> {
    match r
    case Error => Fail(e)
    case Out(out) => if out.NoPayload? then Discard else Forward(out)
  }

  /** The step of the value machine an action performs: none for the storage and the garbage collector. */
  ghost function Lift(p: D.Program, w: World, act: Action): seq<Label<Payload>>
    requires Ready(p.c, w) && Possible(p, w, act)
  {
    match act
    case Take(_, message) => [SourceTake(message)]
    case Process(x, clone, e, _) =>
      [WorkerProcess(x, ValueVerdict(Answer(p, w, p.c.stageOf[x], w.ctl.workers[x].item, clone), e))]
    case Send(x, y, _) => [WorkerSend(x, y, CloneOf(Look(w, w.ctl.workers[x].item.body)))]
    case Deliver(x, j, _) => [WorkerDeliver(x, j, CloneOf(Look(w, w.ctl.workers[x].item.body)))]
    case Drain(j, _) => [SinkDrain(j, CloneOf(Look(w, w.ctl.sinks[j].item.body)))]
    case Other(l) => [Relabel(l)]
    case StorageWrite(_, _) => []
    case Evict(_) => []
  }

  ghost predicate Match(w: World, it: Item<Addr>, value: Item<Payload>) {
    it.id == value.id && Readable(w, it.body) && Look(w, it.body) == value.body
  }

  ghost predicate SourceMatch(w: World, a: Source<Addr>, b: Source<Payload>) {
    match a
    case Selecting => b.Selecting?
    case Fetching => b.Fetching?
    case Sending(it) => b.Sending? && Match(w, it, b.item)
    case Reporting => b.Reporting?
    case SourceReturned => b.SourceReturned?
    case SourceClosed => b.SourceClosed?
    case SourceDone => b.SourceDone?
  }

  ghost predicate WorkerMatch(w: World, a: Worker<Addr>, b: Worker<Payload>) {
    match a
    case Receiving => b.Receiving?
    case Processing(it) => b.Processing? && Match(w, it, b.item)
    case Broadcasting(it, next) => b.Broadcasting? && b.next == next && Match(w, it, b.item)
    case Exited(_) => b.Exited?
  }

  ghost predicate SinkMatch(w: World, a: Sink<Addr>, b: Sink<Payload>) {
    match a
    case Idle => b.Idle?
    case Draining(it) => b.Draining? && Match(w, it, b.item)
    case SinkReturned => b.SinkReturned?
    case SinkDone => b.SinkDone?
  }

  ghost predicate SlotMatch(w: World, a: Slot, b: Item<Payload>) {
    match a
    case Queued(it) => Match(w, it, b)
    case Stored(read) => read == b.body
  }

  ghost predicate SameControl(s: State<Addr>, v: State<Payload>) {
    && |s.taken| == |v.taken| && s.stages == v.stages && s.closed == v.closed && s.cancelled == v.cancelled
    && s.wg == v.wg && s.errors == v.errors && s.collector == v.collector && s.closer == v.closer
  }

  ghost predicate Matched(c: Config, w: World, v: State<Payload>)
    requires Ready(c, w) && Shaped(c, v)
  {
    && SourceMatch(w, w.ctl.source, v.source)
    && (forall x :: 0 <= x < |w.ctl.workers| ==> WorkerMatch(w, w.ctl.workers[x], v.workers[x]))
    && (forall j :: 0 <= j < c.m ==> SinkMatch(w, w.ctl.sinks[j], v.sinks[j]))
    && (forall j :: 0 <= j < c.m ==> |w.queue[j]| == |v.drained[j]|)
    && (forall j, i :: 0 <= j < c.m && 0 <= i < |w.queue[j]| ==> SlotMatch(w, w.queue[j][i], v.drained[j][i]))
  }

  ghost predicate Coupled(c: Config, w: World, v: State<Payload>) {
    Ready(c, w) && Shaped(c, v) && SameControl(w.ctl, v) && Matched(c, w, v)
  }

  /** In w' everyone but `except` still matches. */
  ghost predicate MatchedBut(c: Config, w: World, w': World, v: State<Payload>, except: Option<Holder>)
    requires Ready(c, w) && Shaped(c, v)
  {
    && (except != Some(AtSource) ==> SourceMatch(w', w.ctl.source, v.source))
    && (forall x :: 0 <= x < |w.ctl.workers| && except != Some(AtWorker(x))
          ==> WorkerMatch(w', w.ctl.workers[x], v.workers[x]))
    && (forall j :: 0 <= j < c.m && except != Some(AtSink(j)) ==> SinkMatch(w', w.ctl.sinks[j], v.sinks[j]))
    && (forall j :: 0 <= j < c.m ==> |w.queue[j]| == |v.drained[j]|)
    && (forall j, i :: 0 <= j < c.m && 0 <= i < |w.queue[j]| && except != Some(AtStorage(j, i))
          ==> SlotMatch(w', w.queue[j][i], v.drained[j][i]))
  }

  /** Whoever still sees the same payload still matches. */
  lemma StillMatched(c: Config, w: World, w': World, v: State<Payload>, except: Option<Holder>)
    requires Coupled(c, w, v) && LooksKept(w, w', except)
    ensures MatchedBut(c, w, w', v, except)
  {
    assert w.ctl.source.Sending? ==> ItemOf(w, AtSource) == Some(w.ctl.source.item);
    forall x | 0 <= x < |w.ctl.workers| && except != Some(AtWorker(x))
      ensures WorkerMatch(w', w.ctl.workers[x], v.workers[x])
    {
      assert WorkerMatch(w, w.ctl.workers[x], v.workers[x]);
      assert ItemOf(w, AtWorker(x)).Some? ==> ItemOf(w, AtWorker(x)) == Some(w.ctl.workers[x].item);
    }
    forall j | 0 <= j < c.m && except != Some(AtSink(j)) ensures SinkMatch(w', w.ctl.sinks[j], v.sinks[j]) {
      assert SinkMatch(w, w.ctl.sinks[j], v.sinks[j]);
      assert ItemOf(w, AtSink(j)).Some? ==> ItemOf(w, AtSink(j)) == Some(w.ctl.sinks[j].item);
    }
    forall j, i | 0 <= j < c.m && 0 <= i < |w.queue[j]| && except != Some(AtStorage(j, i))
      ensures SlotMatch(w', w.queue[j][i], v.drained[j][i])
    {
      assert SlotMatch(w, w.queue[j][i], v.drained[j][i]);
      assert ItemOf(w, AtStorage(j, i)).Some? ==> ItemOf(w, AtStorage(j, i)) == Some(w.queue[j][i].item);
    }
  }

  /** At most the source changed. */
  lemma MatchSource(c: Config, w: World, w': World, v: State<Payload>, v': State<Payload>)
    requires Ready(c, w) && Ready(c, w') && Shaped(c, v) && Shaped(c, v')
    requires MatchedBut(c, w, w', v, None)
    requires w'.queue == w.queue && w'.ctl.workers == w.ctl.workers && w'.ctl.sinks == w.ctl.sinks
    requires v'.drained == v.drained && v'.workers == v.workers && v'.sinks == v.sinks
    requires SourceMatch(w', w'.ctl.source, v'.source)
    ensures Matched(c, w', v')
  {
  }

  /** Only worker x changed. */
  lemma MatchWorker(c: Config, w: World, w': World, v: State<Payload>, v': State<Payload>, x: nat)
    requires Ready(c, w) && Ready(c, w') && Shaped(c, v) && Shaped(c, v') && x < |w.ctl.workers|
    requires MatchedBut(c, w, w', v, Some(AtWorker(x)))
    requires w'.queue == w.queue && w'.ctl.sinks == w.ctl.sinks && w'.ctl.source == w.ctl.source
    requires v'.drained == v.drained && v'.sinks == v.sinks && v'.source == v.source
    requires w'.ctl.workers == w.ctl.workers[x := w'.ctl.workers[x]] && v'.workers == v.workers[x := v'.workers[x]]
    requires WorkerMatch(w', w'.ctl.workers[x], v'.workers[x])
    ensures Matched(c, w', v')
  {
  }

  /** Only workers x and y changed. */
  lemma MatchWorkers(c: Config, w: World, w': World, v: State<Payload>, v': State<Payload>, x: nat, y: nat)
    requires Ready(c, w) && Ready(c, w') && Shaped(c, v) && Shaped(c, v') && x < |w.ctl.workers| && y < |w.ctl.workers|
    requires MatchedBut(c, w, w', v, None)
    requires w'.queue == w.queue && w'.ctl.sinks == w.ctl.sinks && w'.ctl.source == w.ctl.source
    requires v'.drained == v.drained && v'.sinks == v.sinks && v'.source == v.source
    requires w'.ctl.workers == w.ctl.workers[x := w'.ctl.workers[x]][y := w'.ctl.workers[y]]
    requires v'.workers == v.workers[x := v'.workers[x]][y := v'.workers[y]]
    requires WorkerMatch(w', w'.ctl.workers[x], v'.workers[x]) && WorkerMatch(w', w'.ctl.workers[y], v'.workers[y])
    ensures Matched(c, w', v')
  {
  }

  /** Only worker x and sink j changed. */
  lemma MatchDelivery(c: Config, w: World, w': World, v: State<Payload>, v': State<Payload>, x: nat, j: nat)
    requires Ready(c, w) && Ready(c, w') && Shaped(c, v) && Shaped(c, v') && x < |w.ctl.workers| && j < c.m
    requires MatchedBut(c, w, w', v, None)
    requires w'.queue == w.queue && w'.ctl.source == w.ctl.source
    requires v'.drained == v.drained && v'.source == v.source
    requires w'.ctl.workers == w.ctl.workers[x := w'.ctl.workers[x]] && v'.workers == v.workers[x := v'.workers[x]]
    requires w'.ctl.sinks == w.ctl.sinks[j := w'.ctl.sinks[j]] && v'.sinks == v.sinks[j := v'.sinks[j]]
    requires WorkerMatch(w', w'.ctl.workers[x], v'.workers[x]) && SinkMatch(w', w'.ctl.sinks[j], v'.sinks[j])
    ensures Matched(c, w', v')
  {
  }

  /** Only sink j changed, and its storage was handed one more clone. */
  lemma MatchSink(c: Config, w: World, w': World, v: State<Payload>, v': State<Payload>, j: nat, a: Slot,
                  b: Item<Payload>)
    requires Ready(c, w) && Ready(c, w') && Shaped(c, v) && Shaped(c, v') && j < c.m
    requires MatchedBut(c, w, w', v, Some(AtSink(j)))
    requires w'.queue == Append(w.queue, j, a) && v'.drained == Append(v.drained, j, b) && SlotMatch(w', a, b)
    requires w'.ctl.workers == w.ctl.workers && w'.ctl.source == w.ctl.source
    requires v'.workers == v.workers && v'.source == v.source
    requires w'.ctl.sinks == w.ctl.sinks[j := Idle] && v'.sinks == v.sinks[j := Idle]
    ensures Matched(c, w', v')
  {
  }

  /** One step of the value machine that the code could take, to a state that matches again. */
  ghost predicate Follows(p: D.Program, w': World, v: State<Payload>, l: Label<Payload>)
    requires Shaped(p.c, v)
  {
    Enabled(p.c, v, l) && D.Allowed(p, v, l) && Coupled(p.c, w', Apply(p.c, v, l))
  }

  ghost predicate Refined(p: D.Program, w: World, v: State<Payload>, act: Action)
    requires Shaped(p.c, v) && Ready(p.c, w) && Possible(p, w, act)
  {
    var ls, w' := Lift(p, w, act), Perform(p, w, act);
    if ls == [] then Coupled(p.c, w', v) else Follows(p, w', v, ls[0])
  }

  lemma RefineTake(p: D.Program, w: World, v: State<Payload>, a: Addr, message: Payload)
    requires Safe(p.c, w) && Coupled(p.c, w, v) && Possible(p, w, Take(a, message))
    ensures Refined(p, w, v, Take(a, message))
  {
    var w' := Perform(p, w, Take(a, message));
    assert LooksKept(w, w', None);
    StillMatched(p.c, w, w', v, None);
  }

  lemma SendMatches(p: D.Program, w: World, v: State<Payload>, x: nat, y: nat, clone: Addr)
    requires Safe(p.c, w) && Coupled(p.c, w, v) && Possible(p, w, Send(x, y, clone))
    ensures var w' := Perform(p, w, Send(x, y, clone));
            && MatchedBut(p.c, w, w', v, None)
            && v.workers[x].Broadcasting? && v.workers[x].next == 0 && v.workers[y].Receiving?
            && v.workers[x].item.id == w.ctl.workers[x].item.id
            && Look(w, w.ctl.workers[x].item.body) == v.workers[x].item.body
            && Match(w', Item(v.workers[x].item.id, clone),
                     Item(v.workers[x].item.id, CloneOf(v.workers[x].item.body)))
  {
    var w' := Perform(p, w, Send(x, y, clone));
    var it := w.ctl.workers[x].item;
    assert ItemOf(w, AtWorker(x)) == Some(it);
    assert WorkerMatch(w, w.ctl.workers[x], v.workers[x]) && WorkerMatch(w, w.ctl.workers[y], v.workers[y]);
    CloneMeans(w, it.body, clone);
    KeptByClone(w, w', it.body, clone);
    StillMatched(p.c, w, w', v, None);
  }

  lemma FollowsSend(p: D.Program, w: World, w': World, v: State<Payload>, x: nat, y: nat, a: Addr, b: Payload)
    requires Ready(p.c, w) && Ready(p.c, w') && Shaped(p.c, v) && SameControl(w.ctl, v)
    requires Enabled(p.c, w.ctl, WorkerSend(x, y, a)) && w'.ctl == Apply(p.c, w.ctl, WorkerSend(x, y, a))
    requires w'.queue == w.queue && MatchedBut(p.c, w, w', v, None)
    requires v.workers[x].Broadcasting? && v.workers[x].next == 0 && v.workers[y].Receiving?
    requires b == CloneOf(v.workers[x].item.body) && v.workers[x].item.id == w.ctl.workers[x].item.id
    requires Match(w', Item(v.workers[x].item.id, a), Item(v.workers[x].item.id, b))
    ensures Follows(p, w', v, WorkerSend(x, y, b))
  {
    var v' := Apply(p.c, v, WorkerSend(x, y, b));
    assert WorkerMatch(w', w.ctl.workers[x], v.workers[x]);
    MatchWorkers(p.c, w, w', v, v', x, y);
  }

  lemma RefineSend(p: D.Program, w: World, v: State<Payload>, x: nat, y: nat, clone: Addr)
    requires Safe(p.c, w) && Coupled(p.c, w, v) && Possible(p, w, Send(x, y, clone))
    ensures Refined(p, w, v, Send(x, y, clone))
  {
    SendMatches(p, w, v, x, y, clone);
    FollowsSend(p, w, Perform(p, w, Send(x, y, clone)), v, x, y, clone, CloneOf(v.workers[x].item.body));
  }

  lemma DeliverMatches(p: D.Program, w: World, v: State<Payload>, x: nat, j: nat, clone: Addr)
    requires Safe(p.c, w) && Coupled(p.c, w, v) && Possible(p, w, Deliver(x, j, clone))
    ensures var w' := Perform(p, w, Deliver(x, j, clone));
            && MatchedBut(p.c, w, w', v, None)
            && v.workers[x].Broadcasting? && v.workers[x].next == j && v.sinks[j].Idle?
            && v.workers[x].item.id == w.ctl.workers[x].item.id
            && Look(w, w.ctl.workers[x].item.body) == v.workers[x].item.body
            && Match(w', Item(v.workers[x].item.id, clone),
                     Item(v.workers[x].item.id, CloneOf(v.workers[x].item.body)))
  {
    var w' := Perform(p, w, Deliver(x, j, clone));
    var it := w.ctl.workers[x].item;
    assert ItemOf(w, AtWorker(x)) == Some(it);
    assert WorkerMatch(w, w.ctl.workers[x], v.workers[x]) && SinkMatch(w, w.ctl.sinks[j], v.sinks[j]);
    CloneMeans(w, it.body, clone);
    KeptByClone(w, w', it.body, clone);
    StillMatched(p.c, w, w', v, None);
  }

  lemma FollowsDeliver(p: D.Program, w: World, w': World, v: State<Payload>, x: nat, j: nat, a: Addr, b: Payload)
    requires Ready(p.c, w) && Ready(p.c, w') && Shaped(p.c, v) && SameControl(w.ctl, v)
    requires Enabled(p.c, w.ctl, WorkerDeliver(x, j, a)) && w'.ctl == Apply(p.c, w.ctl, WorkerDeliver(x, j, a))
    requires w'.queue == w.queue && MatchedBut(p.c, w, w', v, None)
    requires v.workers[x].Broadcasting? && v.workers[x].next == j && v.sinks[j].Idle?
    requires b == CloneOf(v.workers[x].item.body) && v.workers[x].item.id == w.ctl.workers[x].item.id
    requires Match(w', Item(v.workers[x].item.id, a), Item(v.workers[x].item.id, b))
    ensures Follows(p, w', v, WorkerDeliver(x, j, b))
  {
    var v' := Apply(p.c, v, WorkerDeliver(x, j, b));
    assert WorkerMatch(w', w.ctl.workers[x], v.workers[x]);
    MatchDelivery(p.c, w, w', v, v', x, j);
  }

  lemma RefineDeliver(p: D.Program, w: World, v: State<Payload>, x: nat, j: nat, clone: Addr)
    requires Safe(p.c, w) && Coupled(p.c, w, v) && Possible(p, w, Deliver(x, j, clone))
    ensures Refined(p, w, v, Deliver(x, j, clone))
  {
    DeliverMatches(p, w, v, x, j, clone);
    FollowsDeliver(p, w, Perform(p, w, Deliver(x, j, clone)), v, x, j, clone, CloneOf(v.workers[x].item.body));
  }

  lemma DrainMatches(p: D.Program, w: World, v: State<Payload>, j: nat, clone: Addr)
    requires Safe(p.c, w) && Coupled(p.c, w, v) && Possible(p, w, Drain(j, clone))
    ensures var w' := Perform(p, w, Drain(j, clone));
            v.sinks[j].Draining? && Match(w', Item(v.sinks[j].item.id, clone),
                                          Item(v.sinks[j].item.id, CloneOf(v.sinks[j].item.body)))
    ensures Look(w, w.ctl.sinks[j].item.body) == v.sinks[j].item.body
    ensures w.ctl.sinks[j].item.id == v.sinks[j].item.id
  {
    var it := w.ctl.sinks[j].item;
    assert ItemOf(w, AtSink(j)) == Some(it);
    assert SinkMatch(w, w.ctl.sinks[j], v.sinks[j]);
    CloneMeans(w, it.body, clone);
    RecycleMeans(Clone(w, it.body, clone), it.body);
  }

  lemma FollowsDrain(p: D.Program, w: World, w': World, v: State<Payload>, j: nat, a: Addr, b: Payload)
    requires Ready(p.c, w) && Ready(p.c, w') && Shaped(p.c, v) && SameControl(w.ctl, v)
    requires Enabled(p.c, w.ctl, SinkDrain(j, a)) && w'.ctl == Apply(p.c, w.ctl, SinkDrain(j, a))
    requires MatchedBut(p.c, w, w', v, Some(AtSink(j)))
    requires v.sinks[j].Draining? && b == CloneOf(v.sinks[j].item.body)
    requires w'.queue == Append(w.queue, j, Queued(Item(v.sinks[j].item.id, a)))
    requires Match(w', Item(v.sinks[j].item.id, a), Item(v.sinks[j].item.id, b))
    ensures Follows(p, w', v, SinkDrain(j, b))
  {
    var id := v.sinks[j].item.id;
    MatchSink(p.c, w, w', v, Apply(p.c, v, SinkDrain(j, b)), j, Queued(Item(id, a)), Item(id, b));
  }

  lemma RefineDrain(p: D.Program, w: World, v: State<Payload>, j: nat, clone: Addr)
    requires Safe(p.c, w) && Coupled(p.c, w, v) && Possible(p, w, Drain(j, clone))
    ensures Refined(p, w, v, Drain(j, clone))
  {
    var w' := Perform(p, w, Drain(j, clone));
    DrainMatches(p, w, v, j, clone);
    SafeDrain(p, w, j, clone);
    StillMatched(p.c, w, w', v, Some(AtSink(j)));
    FollowsDrain(p, w, w', v, j, clone, CloneOf(v.sinks[j].item.body));
  }

  lemma ProcessMatches(p: D.Program, w: World, v: State<Payload>, x: nat, clone: Addr, e: Emission, left: Fields)
    requires Safe(p.c, w) && InPlace(p) && Coupled(p.c, w, v) && Possible(p, w, Process(x, clone, e, left))
    ensures var it := w.ctl.workers[x].item;
            var r := Answer(p, w, p.c.stageOf[x], it, clone);
            && v.workers[x].Processing? && v.workers[x].item.id == it.id && !v.workers[x].item.body.NoPayload?
            && r == p.proc(p.c.stageOf[x], it.id, CloneOf(v.workers[x].item.body))
            && (r.Out? && !r.payload.NoPayload? ==>
                  Match(Perform(p, w, Process(x, clone, e, left)), Item(it.id, clone), Item(it.id, r.payload)))
  {
    var it := w.ctl.workers[x].item;
    assert ItemOf(w, AtWorker(x)) == Some(it);
    assert WorkerMatch(w, w.ctl.workers[x], v.workers[x]);
    CloneMeans(w, it.body, clone);
    var r := Answer(p, w, p.c.stageOf[x], it, clone);
    if r.Out? && !r.payload.NoPayload? {
      ForwardMeans(w, it, clone, r.payload, left);
    }
  }

  /** Judging an item alike has the same effect on the goroutines of both machines. */
  lemma JudgeBoth(c: Config, s: State<Addr>, v: State<Payload>, x: nat, va: Verdict<Addr>, vb: Verdict<Payload>)
    requires Shaped(c, s) && Shaped(c, v) && SameControl(s, v) && Enabled(c, s, WorkerProcess(x, va))
    requires v.workers[x].Processing?
    requires match va
             case Forward(_) => vb.Forward?
             case Discard => vb.Discard?
             case Refuse => vb.Refuse?
             case Fail(e) => vb == Fail(e)
    ensures Enabled(c, v, WorkerProcess(x, vb))
    ensures var s', v' := Apply(c, s, WorkerProcess(x, va)), Apply(c, v, WorkerProcess(x, vb));
            && SameControl(s', v')
            && s'.source == s.source && s'.sinks == s.sinks && s'.workers == s.workers[x := s'.workers[x]]
            && v'.source == v.source && v'.sinks == v.sinks && v'.workers == v.workers[x := v'.workers[x]]
            && v'.drained == v.drained
  {
  }

  lemma FollowsProcess(p: D.Program, w: World, w': World, v: State<Payload>, x: nat, va: Verdict<Addr>,
                       vb: Verdict<Payload>)
    requires Ready(p.c, w) && Ready(p.c, w') && Shaped(p.c, v) && SameControl(w.ctl, v)
    requires Enabled(p.c, w.ctl, WorkerProcess(x, va)) && w'.ctl == Apply(p.c, w.ctl, WorkerProcess(x, va))
    requires w'.queue == w.queue && MatchedBut(p.c, w, w', v, Some(AtWorker(x)))
    requires v.workers[x].Processing? && v.workers[x].item.id == w.ctl.workers[x].item.id
    requires match va
             case Forward(a) =>
               vb.Forward? && Match(w', Item(v.workers[x].item.id, a), Item(v.workers[x].item.id, vb.out))
             case Discard => vb.Discard?
             case Refuse => vb.Refuse?
             case Fail(e) => vb == Fail(e)
    ensures Enabled(p.c, v, WorkerProcess(x, vb))
    ensures Coupled(p.c, w', Apply(p.c, v, WorkerProcess(x, vb)))
  {
    JudgeBoth(p.c, w.ctl, v, x, va, vb);
    MatchWorker(p.c, w, w', v, Apply(p.c, v, WorkerProcess(x, vb)), x);
  }

  lemma RefineProcess(p: D.Program, w: World, v: State<Payload>, x: nat, clone: Addr, e: Emission, left: Fields)
    requires Safe(p.c, w) && InPlace(p) && Coupled(p.c, w, v) && Possible(p, w, Process(x, clone, e, left))
    ensures Refined(p, w, v, Process(x, clone, e, left))
  {
    var w' := Perform(p, w, Process(x, clone, e, left));
    var r := Answer(p, w, p.c.stageOf[x], w.ctl.workers[x].item, clone);
    ProcessMatches(p, w, v, x, clone, e, left);
    OthersKeepProcess(p, w, x, clone, e, left);
    StillMatched(p.c, w, w', v, Some(AtWorker(x)));
    FollowsProcess(p, w, w', v, x, VerdictFor(r, clone, e), ValueVerdict(r, e));
  }

  lemma RefineFeed(p: D.Program, w: World, v: State<Payload>, y: nat)
    requires Safe(p.c, w) && Coupled(p.c, w, v) && Possible(p, w, Other(SourceSend(y)))
    ensures Refined(p, w, v, Other(SourceSend(y)))
  {
    StillMatched(p.c, w, Perform(p, w, Other(SourceSend(y))), v, None);
  }

  lemma RefineWorkerExit(p: D.Program, w: World, v: State<Payload>, l: Label<Addr>)
    requires Safe(p.c, w) && Coupled(p.c, w, v) && Possible(p, w, Other(l)) && (l.WorkerCancel? || l.WorkerEnd?)
    ensures Refined(p, w, v, Other(l))
  {
    var w' := Perform(p, w, Other(l));
    StillMatched(p.c, w, w', v, None);
    assert WorkerMatch(w, w.ctl.workers[l.w], v.workers[l.w]);
    MatchWorker(p.c, w, w', v, Apply(p.c, v, Relabel(l)), l.w);
  }

  /** A sink's exit has the same effect on the goroutines of both machines. */
  lemma SinkExitBoth(c: Config, s: State<Addr>, v: State<Payload>, l: Label<Addr>)
    requires Shaped(c, s) && Shaped(c, v) && SameControl(s, v) && Enabled(c, s, l)
    requires l.SinkFail? || l.SinkCancel? || l.SinkEnd? || l.SinkFinish?
    requires match s.sinks[l.sink]
             case Idle => v.sinks[l.sink].Idle?
             case Draining(_) => v.sinks[l.sink].Draining?
             case SinkReturned => v.sinks[l.sink].SinkReturned?
             case SinkDone => v.sinks[l.sink].SinkDone?
    ensures Enabled(c, v, Relabel(l))
    ensures var s', v', j := Apply(c, s, l), Apply(c, v, Relabel(l)), l.sink;
            && SameControl(s', v')
            && s'.source == s.source && s'.workers == s.workers && s'.sinks == s.sinks[j := s'.sinks[j]]
            && v'.source == v.source && v'.workers == v.workers && v'.sinks == v.sinks[j := v'.sinks[j]]
            && v'.drained == v.drained
            && (s'.sinks[j].SinkReturned? || s'.sinks[j].SinkDone?)
            && (s'.sinks[j].SinkReturned? <==> v'.sinks[j].SinkReturned?)
            && (s'.sinks[j].SinkDone? <==> v'.sinks[j].SinkDone?)
  {
  }

  /** Only sink j changed. */
  lemma MatchSinkOnly(c: Config, w: World, w': World, v: State<Payload>, v': State<Payload>, j: nat)
    requires Ready(c, w) && Ready(c, w') && Shaped(c, v) && Shaped(c, v') && j < c.m
    requires MatchedBut(c, w, w', v, None)
    requires w'.queue == w.queue && w'.ctl.source == w.ctl.source && w'.ctl.workers == w.ctl.workers
    requires v'.drained == v.drained && v'.source == v.source && v'.workers == v.workers
    requires w'.ctl.sinks == w.ctl.sinks[j := w'.ctl.sinks[j]] && v'.sinks == v.sinks[j := v'.sinks[j]]
    requires SinkMatch(w', w'.ctl.sinks[j], v'.sinks[j])
    ensures Matched(c, w', v')
  {
  }

  lemma FollowsSinkExit(p: D.Program, w: World, w': World, v: State<Payload>, l: Label<Addr>)
    requires Coupled(p.c, w, v) && Ready(p.c, w') && MatchedBut(p.c, w, w', v, None)
    requires l.SinkFail? || l.SinkCancel? || l.SinkEnd? || l.SinkFinish?
    requires Enabled(p.c, w.ctl, l) && w'.ctl == Apply(p.c, w.ctl, l) && w'.queue == w.queue
    ensures Follows(p, w', v, Relabel(l))
  {
    assert SinkMatch(w, w.ctl.sinks[l.sink], v.sinks[l.sink]);
    SinkExitBoth(p.c, w.ctl, v, l);
    UntouchedAllowed(p, v, Relabel(l));
    MatchSinkOnly(p.c, w, w', v, Apply(p.c, v, Relabel(l)), l.sink);
  }

  lemma RefineSinkExit(p: D.Program, w: World, v: State<Payload>, l: Label<Addr>)
    requires Safe(p.c, w) && Coupled(p.c, w, v) && Possible(p, w, Other(l))
    requires l.SinkFail? || l.SinkCancel? || l.SinkEnd? || l.SinkFinish?
    ensures Refined(p, w, v, Other(l))
  {
    StillMatched(p.c, w, Perform(p, w, Other(l)), v, None);
    FollowsSinkExit(p, w, Perform(p, w, Other(l)), v, l);
  }

  ghost predicate SameSource(a: Source<Addr>, b: Source<Payload>) {
    match a
    case Selecting => b.Selecting?
    case Fetching => b.Fetching?
    case Sending(_) => b.Sending?
    case Reporting => b.Reporting?
    case SourceReturned => b.SourceReturned?
    case SourceClosed => b.SourceClosed?
    case SourceDone => b.SourceDone?
  }

  /** A step of the source, a stage, the collector or the closer. */
  ghost predicate IsQuiet<V>(l: Label<V>) {
    && !Touches(l) && !l.SourceSend? && !l.WorkerCancel? && !l.WorkerEnd?
    && !l.SinkFail? && !l.SinkCancel? && !l.SinkEnd? && !l.SinkFinish?
  }

  lemma QuietEnabled(c: Config, s: State<Addr>, v: State<Payload>, l: Label<Addr>)
    requires Shaped(c, s) && Shaped(c, v) && SameControl(s, v) && SameSource(s.source, v.source)
    requires forall x :: 0 <= x < |s.workers| ==> (s.workers[x].Exited? <==> v.workers[x].Exited?)
    requires Enabled(c, s, l) && IsQuiet(l)
    ensures Enabled(c, v, Relabel(l))
  {
  }

  /** It touches no payload, and nobody who holds one. */
  lemma QuietFrame<V>(c: Config, s: State<V>, l: Label<V>)
    requires Shaped(c, s) && Enabled(c, s, l) && IsQuiet(l)
    ensures var s' := Apply(c, s, l);
            && s'.workers == s.workers && s'.sinks == s.sinks && s'.drained == s.drained && s'.taken == s.taken
            && (s'.source.Sending? ==> s'.source == s.source)
  {
  }

  ghost predicate OfSource<V>(l: Label<V>) {
    || l.SourceFetch? || l.SourceNone? || l.SourceQuit? || l.SourceReport? || l.SourceClose? || l.SourceFinish?
  }

  /** It has the same effect on the goroutines of both machines. */
  lemma QuietSource(c: Config, s: State<Addr>, v: State<Payload>, l: Label<Addr>)
    requires Shaped(c, s) && Shaped(c, v) && SameControl(s, v) && SameSource(s.source, v.source) && OfSource(l)
    requires Enabled(c, s, l) && Enabled(c, v, Relabel(l))
    ensures SameControl(Apply(c, s, l), Apply(c, v, Relabel(l)))
    ensures SameSource(Apply(c, s, l).source, Apply(c, v, Relabel(l)).source)
  {
  }

  lemma QuietStage(c: Config, s: State<Addr>, v: State<Payload>, l: Label<Addr>)
    requires Shaped(c, s) && Shaped(c, v) && SameControl(s, v) && SameSource(s.source, v.source)
    requires (l.StageClose? || l.StageFinish?) && Enabled(c, s, l) && Enabled(c, v, Relabel(l))
    ensures SameControl(Apply(c, s, l), Apply(c, v, Relabel(l)))
    ensures SameSource(Apply(c, s, l).source, Apply(c, v, Relabel(l)).source)
  {
  }

  lemma QuietEnd(c: Config, s: State<Addr>, v: State<Payload>, l: Label<Addr>)
    requires Shaped(c, s) && Shaped(c, v) && SameControl(s, v) && SameSource(s.source, v.source)
    requires IsQuiet(l) && !OfSource(l) && !l.StageClose? && !l.StageFinish?
    requires Enabled(c, s, l) && Enabled(c, v, Relabel(l))
    ensures SameControl(Apply(c, s, l), Apply(c, v, Relabel(l)))
    ensures SameSource(Apply(c, s, l).source, Apply(c, v, Relabel(l)).source)
  {
  }

  lemma QuietBoth(c: Config, s: State<Addr>, v: State<Payload>, l: Label<Addr>)
    requires Shaped(c, s) && Shaped(c, v) && SameControl(s, v) && SameSource(s.source, v.source)
    requires IsQuiet(l) && Enabled(c, s, l) && Enabled(c, v, Relabel(l))
    ensures SameControl(Apply(c, s, l), Apply(c, v, Relabel(l)))
    ensures SameSource(Apply(c, s, l).source, Apply(c, v, Relabel(l)).source)
  {
    if OfSource(l) {
      QuietSource(c, s, v, l);
    } else if l.StageClose? || l.StageFinish? {
      QuietStage(c, s, v, l);
    } else {
      QuietEnd(c, s, v, l);
    }
  }

  lemma UntouchedAllowed(p: D.Program, v: State<Payload>, l: Label<Payload>)
    requires Shaped(p.c, v) && Enabled(p.c, v, l) && !Touches(l)
    ensures D.Allowed(p, v, l)
  {
  }

  lemma CoupledShape(c: Config, w: World, v: State<Payload>)
    requires Coupled(c, w, v)
    ensures SameSource(w.ctl.source, v.source)
    ensures forall x :: 0 <= x < |w.ctl.workers| ==> (w.ctl.workers[x].Exited? <==> v.workers[x].Exited?)
  {
    forall x | 0 <= x < |w.ctl.workers| ensures w.ctl.workers[x].Exited? <==> v.workers[x].Exited? {
      assert WorkerMatch(w, w.ctl.workers[x], v.workers[x]);
    }
  }

  lemma QuietSourceMatch(w': World, a: Source<Addr>, b: Source<Payload>, a': Source<Addr>, b': Source<Payload>)
    requires SourceMatch(w', a, b) && SameSource(a', b') && (a'.Sending? ==> a' == a && b' == b)
    ensures SourceMatch(w', a', b')
  {
  }

  lemma QuietCoupled(c: Config, w: World, w': World, v: State<Payload>, l: Label<Addr>)
    requires Ready(c, w) && Ready(c, w') && Shaped(c, v) && SameControl(w.ctl, v) && SameSource(w.ctl.source, v.source)
    requires MatchedBut(c, w, w', v, None) && IsQuiet(l) && Enabled(c, w.ctl, l) && Enabled(c, v, Relabel(l))
    requires w'.ctl == Apply(c, w.ctl, l) && w'.queue == w.queue
    ensures Coupled(c, w', Apply(c, v, Relabel(l)))
  {
    var v' := Apply(c, v, Relabel(l));
    QuietBoth(c, w.ctl, v, l);
    QuietFrame(c, w.ctl, l);
    QuietFrame(c, v, Relabel(l));
    QuietSourceMatch(w', w.ctl.source, v.source, w'.ctl.source, v'.source);
    MatchSource(c, w, w', v, v');
  }

  lemma FollowsQuiet(p: D.Program, w: World, w': World, v: State<Payload>, l: Label<Addr>)
    requires Coupled(p.c, w, v) && Ready(p.c, w') && MatchedBut(p.c, w, w', v, None) && IsQuiet(l)
    requires Enabled(p.c, w.ctl, l) && w'.ctl == Apply(p.c, w.ctl, l) && w'.queue == w.queue
    ensures Follows(p, w', v, Relabel(l))
  {
    CoupledShape(p.c, w, v);
    QuietEnabled(p.c, w.ctl, v, l);
    UntouchedAllowed(p, v, Relabel(l));
    QuietCoupled(p.c, w, w', v, l);
  }

  lemma RefineQuiet(p: D.Program, w: World, v: State<Payload>, l: Label<Addr>)
    requires Safe(p.c, w) && Coupled(p.c, w, v) && Possible(p, w, Other(l)) && IsQuiet(l)
    ensures Refined(p, w, v, Other(l))
  {
    var w' := Perform(p, w, Other(l));
    assert LooksKept(w, w', None);
    StillMatched(p.c, w, w', v, None);
    FollowsQuiet(p, w, w', v, l);
  }

  lemma RefineOther(p: D.Program, w: World, v: State<Payload>, l: Label<Addr>)
    requires Safe(p.c, w) && Coupled(p.c, w, v) && Possible(p, w, Other(l))
    ensures Refined(p, w, v, Other(l))
  {
    if l.SourceSend? {
      RefineFeed(p, w, v, l.to);
    } else if l.WorkerCancel? || l.WorkerEnd? {
      RefineWorkerExit(p, w, v, l);
    } else if l.SinkFail? || l.SinkCancel? || l.SinkEnd? || l.SinkFinish? {
      RefineSinkExit(p, w, v, l);
    } else {
      RefineQuiet(p, w, v, l);
    }
  }

  lemma RefineStorage(p: D.Program, w: World, v: State<Payload>, act: Action)
    requires Safe(p.c, w) && Coupled(p.c, w, v) && Possible(p, w, act) && (act.StorageWrite? || act.Evict?)
    ensures Refined(p, w, v, act)
  {
    var w' := Perform(p, w, act);
    StillMatched(p.c, w, w', v, None);
    if act.StorageWrite? {
      assert SlotMatch(w, w.queue[act.j][act.i], v.drained[act.j][act.i]);
    }
  }

  lemma RefineTransfer(p: D.Program, w: World, v: State<Payload>, act: Action)
    requires Safe(p.c, w) && InPlace(p) && Coupled(p.c, w, v) && Possible(p, w, act)
    requires act.Send? || act.Deliver? || act.Drain?
    ensures Refined(p, w, v, act)
  {
    match act
    case Send(x, y, clone) => RefineSend(p, w, v, x, y, clone);
    case Deliver(x, j, clone) => RefineDeliver(p, w, v, x, j, clone);
    case Drain(j, clone) => RefineDrain(p, w, v, j, clone);
  }

  lemma RefineStep(p: D.Program, w: World, v: State<Payload>, act: Action)
    requires Safe(p.c, w) && InPlace(p) && Coupled(p.c, w, v) && Possible(p, w, act)
    ensures Refined(p, w, v, act)
  {
    if act.Send? || act.Deliver? || act.Drain? {
      RefineTransfer(p, w, v, act);
    } else if act.StorageWrite? || act.Evict? {
      RefineStorage(p, w, v, act);
    } else if act.Take? {
      RefineTake(p, w, v, act.a, act.message);
    } else if act.Process? {
      RefineProcess(p, w, v, act.x, act.clone, act.emission, act.left);
    } else {
      RefineOther(p, w, v, act.step);
    }
  }

  /** The run of the value machine that a run over objects performs. */
  ghost function LiftRun(p: D.Program, acts: seq<Action>): seq<Label<Payload>>
    requires Wired(p.c) && Runs(p, acts)
  {
    if acts == [] then []
    else
      var front := acts[..|acts| - 1];
      LiftRun(p, front) + Lift(p, Reach(p, front), acts[|acts| - 1])
  }

  lemma LiftIsOne(p: D.Program, w: World, act: Action)
    requires Ready(p.c, w) && Possible(p, w, act)
    ensures var ls := Lift(p, w, act); ls == [] || ls == [ls[0]]
  {
  }

  /** A run of the value machine goes on as the action says. */
  lemma LiftExtends(p: D.Program, before: seq<Label<Payload>>, w: World, act: Action)
    requires Wired(p.c) && D.Computes(p, before) && Safe(p.c, w) && InPlace(p)
    requires Coupled(p.c, w, D.After(p, before)) && Possible(p, w, act)
    ensures var ls := before + Lift(p, w, act);
            D.Computes(p, ls) && Coupled(p.c, Perform(p, w, act), D.After(p, ls))
  {
    var ls := Lift(p, w, act);
    RefineStep(p, w, D.After(p, before), act);
    LiftIsOne(p, w, act);
    if ls == [] {
      assert before + ls == before;
    } else {
      D.Longer(p, before, ls[0]);
    }
  }

  /**
   * Every run over pooled objects performs a run of the value machine, and at its end every holder's object
   * reads as the payload the value machine puts there.
   */
  lemma {:induction false} ObjectsRefineValues(p: D.Program, acts: seq<Action>)
    requires Wired(p.c) && InPlace(p) && Runs(p, acts)
    ensures var ls := LiftRun(p, acts);
            D.Computes(p, ls) && Coupled(p.c, Reach(p, acts), D.After(p, ls))
  {
    if acts != [] {
      var front, act := acts[..|acts| - 1], acts[|acts| - 1];
      ObjectsRefineValues(p, front);
      SafeRun(p, front);
      LiftExtends(p, LiftRun(p, front), Reach(p, front), act);
    }
  }

  // ----- What this means for the pool, the shared maps and the storages -----

  /** The payload objects an action hands to the pool. */
  ghost function Recycles(p: D.Program, w: World, act: Action): set<Addr>
    requires Ready(p.c, w) && Possible(p, w, act)
  {
    match act
    case Process(x, clone, e, _) =>
      if Judgement(p, w, x, clone, e).verdict.Discard? then {w.ctl.workers[x].item.body} else {}
    case Drain(j, _) => {w.ctl.sinks[j].item.body}
    case _ => {}
  }

  /**
   * No object is put into the pool while it is there already or while anybody else will still read it, and
   * every pooled object is zero.
   */
  lemma PoolOwnership(p: D.Program, acts: seq<Action>, act: Action, a: Addr)
    requires Wired(p.c) && InPlace(p) && Runs(p, acts) && Possible(p, Reach(p, acts), act)
    requires a in Recycles(p, Reach(p, acts), act)
    ensures var w, w' := Reach(p, acts), Perform(p, Reach(p, acts), act);
            && a !in w.pool && a in w'.pool
            && a in w'.heap && IsZero(w'.heap[a]) && SameKind(w.heap[a].fields, w'.heap[a].fields)
            && (forall h :: ItemOf(w', h).Some? ==> ItemOf(w', h).value.body != a)
  {
    var w := Reach(p, acts);
    SafeRun(p, acts);
    SafeStep(p, w, act);
    if act.Process? {
      RecycledByWorker(p, w, act);
    } else {
      RecycledBySink(p, w, act);
    }
    PooledIsUnheld(p.c, Perform(p, w, act), a);
  }

  /** The discarded input was not in the pool, and is put there zero. */
  lemma RecycledByWorker(p: D.Program, w: World, act: Action)
    requires Safe(p.c, w) && Possible(p, w, act) && act.Process? && Recycles(p, w, act) != {}
    ensures var w', a := Perform(p, w, act), w.ctl.workers[act.x].item.body;
            && a in w.heap && a !in w.pool && a in w'.pool
            && a in w'.heap && IsZero(w'.heap[a]) && SameKind(w.heap[a].fields, w'.heap[a].fields)
  {
    assert ItemOf(w, AtWorker(act.x)) == Some(w.ctl.workers[act.x].item);
  }

  lemma RecycledBySink(p: D.Program, w: World, act: Action)
    requires Safe(p.c, w) && Possible(p, w, act) && act.Drain?
    ensures var w', a := Perform(p, w, act), w.ctl.sinks[act.j].item.body;
            && a in w.heap && a !in w.pool && a in w'.pool
            && a in w'.heap && IsZero(w'.heap[a]) && SameKind(w.heap[a].fields, w'.heap[a].fields)
  {
    assert ItemOf(w, AtSink(act.j)) == Some(w.ctl.sinks[act.j].item);
  }

  lemma PooledIsUnheld(c: Config, w: World, a: Addr)
    requires Safe(c, w) && a in w.pool
    ensures forall h :: ItemOf(w, h).Some? ==> ItemOf(w, h).value.body != a
  {
  }

  /** Whatever object the pool supplies, a clone is the payload cloned, with a zero timestamp for Kafka. */
  lemma CloneIgnoresThePool(p: D.Program, acts: seq<Action>, a: Addr, clone: Addr, h: Holder)
    requires Wired(p.c) && InPlace(p) && Runs(p, acts)
    requires ItemOf(Reach(p, acts), h).Some? && ItemOf(Reach(p, acts), h).value.body == a
    requires CanGet(Reach(p, acts), a, clone)
    ensures var w := Reach(p, acts);
            var w' := Clone(w, a, clone);
            && Readable(w', clone) && Look(w', clone) == CloneOf(Look(w, a))
            && (forall g :: ItemOf(w, g).Some? ==> ItemOf(w, g).value.body != clone)
  {
    var w := Reach(p, acts);
    SafeRun(p, acts);
    CloneMeans(w, a, clone);
    forall g | ItemOf(w, g).Some? ensures ItemOf(w, g).value.body != clone {
      CloneIsUnheld(w, a, clone, g);
    }
  }

  /**
   * While a processor may write into a Value map nobody else holds a payload that refers to it; once a sink or
   * a storage holds a clone of that payload, no processor works on it any more.
   */
  lemma ExclusiveMutation(p: D.Program, acts: seq<Action>, x: nat, h: Holder)
    requires Wired(p.c) && InPlace(p) && Runs(p, acts)
    requires x < |Reach(p, acts).ctl.workers| && Reach(p, acts).ctl.workers[x].Processing?
    requires h != AtWorker(x) && ItemOf(Reach(p, acts), h).Some?
    ensures var w := Reach(p, acts);
            var mine, other := w.ctl.workers[x].item, ItemOf(w, h).value;
            && other.id != mine.id && other.body != mine.body
            && other.body in w.heap && w.heap[other.body].ref != Some(mine.id)
            && mine.body in w.heap && (w.heap[mine.body].ref.Some? ==> w.heap[mine.body].ref.value == mine.id)
  {
    var w := Reach(p, acts);
    SafeRun(p, acts);
    assert ItemOf(w, AtWorker(x)) == Some(w.ctl.workers[x].item);
    AloneWhileProcessing(p.c, w, x, h);
  }

  /** What a storage read when it wrote is the payload the value machine drained there, however late it wrote. */
  lemma StorageReadsResults(p: D.Program, acts: seq<Action>, j: nat, i: nat)
    requires Wired(p.c) && InPlace(p) && Runs(p, acts) && j < p.c.m
    requires i < |Reach(p, acts).queue[j]| && Reach(p, acts).queue[j][i].Stored?
    ensures D.Computes(p, LiftRun(p, acts))
    ensures var v := D.After(p, LiftRun(p, acts));
            i < |v.drained[j]| && Reach(p, acts).queue[j][i].payload == v.drained[j][i].body
  {
    ObjectsRefineValues(p, acts);
    var v := D.After(p, LiftRun(p, acts));
    assert SlotMatch(Reach(p, acts), Reach(p, acts).queue[j][i], v.drained[j][i]);
  }

  /** The objects an action gets from the pool, or makes new. */
  ghost function Gets(act: Action): set<Addr> {
    match act
    case Process(_, clone, _, _) => {clone}
    case Send(_, _, clone) => {clone}
    case Deliver(_, _, clone) => {clone}
    case Drain(_, clone) => {clone}
    case Evict(a) => {a}
    case _ => {}
  }

  lemma PoolStep(p: D.Program, w: World, act: Action)
    requires Safe(p.c, w) && Possible(p, w, act)
    ensures Perform(p, w, act).pool == (w.pool - Gets(act)) + Recycles(p, w, act)
  {
    if act.Process? {
      assert ItemOf(w, AtWorker(act.x)) == Some(w.ctl.workers[act.x].item);
    }
  }

  /** Nothing else enters or leaves the pool: in particular not the payloads of workers and sinks that return. */
  lemma PoolExactly(p: D.Program, acts: seq<Action>, act: Action)
    requires Wired(p.c) && InPlace(p) && Runs(p, acts) && Possible(p, Reach(p, acts), act)
    ensures Perform(p, Reach(p, acts), act).pool
         == (Reach(p, acts).pool - Gets(act)) + Recycles(p, Reach(p, acts), act)
  {
    SafeRun(p, acts);
    PoolStep(p, Reach(p, acts), act);
  }
}
