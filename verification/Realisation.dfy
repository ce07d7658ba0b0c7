/**
 * The converse of the refinement: whatever the pipeline over payload values can do, the pipeline over pooled
 * objects can do, with whatever object the pool supplies and wherever a message is decoded to.
 */
module Realisation {
  import opened Payloads
  import opened Control
  import D = Dataflow
  import opened Ownership
  import opened PoolSafety
  import opened Refinement
  import opened WorkerPool
  import opened StorageRuns

  /** The same step, about objects. */
  ghost function Unlabel(l: Label<Payload>): Label<Addr>
    requires !Touches(l)
  {
    match l
    case Cancel => Cancel
    case SourceFetch => SourceFetch
    case SourceNone => SourceNone
    case SourceQuit => SourceQuit
    case SourceReport(e) => SourceReport(e)
    case SourceClose => SourceClose
    case SourceFinish => SourceFinish
    case SourceSend(y) => SourceSend(y)
    case WorkerCancel(x) => WorkerCancel(x)
    case WorkerEnd(x) => WorkerEnd(x)
    case StageClose(i) => StageClose(i)
    case StageFinish(i) => StageFinish(i)
    case SinkFail(j, e) => SinkFail(j, e)
    case SinkCancel(j) => SinkCancel(j)
    case SinkEnd(j) => SinkEnd(j)
    case SinkFinish(j) => SinkFinish(j)
    case ConsumerError => ConsumerError
    case CollectorCancel => CollectorCancel
    case CollectorReturn => CollectorReturn
    case CloserClose => CloserClose
    case CloserCancel => CloserCancel
  }

  /** The action by which the objects take the step, with the object they get for it. */
  ghost function ActFor(l: Label<Payload>, clone: Addr): Action {
    match l
    case SourceTake(message) => Take(clone, message)
    case WorkerProcess(x, verdict) => Process(x, clone, if verdict.Fail? then verdict.emission else NoError, map[])
    case WorkerSend(x, y, _) => Send(x, y, clone)
    case WorkerDeliver(x, j, _) => Deliver(x, j, clone)
    case SinkDrain(j, _) => Drain(j, clone)
    case _ => Action.Other(Unlabel(l))
  }

  /** A new object where a message is decoded; where a payload is cloned, one the pool may supply. */
  ghost predicate Supplied(c: Config, w: World, l: Label<Payload>, clone: Addr)
    requires Ready(c, w)
  {
    match l
    case SourceTake(message) => !message.NoPayload? && clone !in w.heap
    case WorkerProcess(x, _) =>
      x < |w.ctl.workers| && w.ctl.workers[x].Processing? && CanGet(w, w.ctl.workers[x].item.body, clone)
    case WorkerSend(x, _, _) =>
      x < |w.ctl.workers| && w.ctl.workers[x].Broadcasting? && CanGet(w, w.ctl.workers[x].item.body, clone)
    case WorkerDeliver(x, _, _) =>
      x < |w.ctl.workers| && w.ctl.workers[x].Broadcasting? && CanGet(w, w.ctl.workers[x].item.body, clone)
    case SinkDrain(j, _) => j < c.m && w.ctl.sinks[j].Draining? && CanGet(w, w.ctl.sinks[j].item.body, clone)
    case _ => true
  }

  /** The objects can take step l of the value machine, and that is the step they perform. */
  ghost predicate Realised(p: D.Program, w: World, l: Label<Payload>, clone: Addr)
    requires Ready(p.c, w)
  {
    Possible(p, w, ActFor(l, clone)) && Lift(p, w, ActFor(l, clone)) == [l]
  }

  // ----- Steps that touch no payload -----

  lemma FeedEnabled(c: Config, w: World, v: State<Payload>, y: nat)
    requires Coupled(c, w, v) && Enabled(c, v, SourceSend(y))
    ensures Enabled(c, w.ctl, SourceSend(y))
  {
    assert WorkerMatch(w, w.ctl.workers[y], v.workers[y]);
  }

  lemma WorkerExitEnabled(c: Config, w: World, v: State<Payload>, l: Label<Payload>)
    requires Coupled(c, w, v) && Enabled(c, v, l) && (l.WorkerCancel? || l.WorkerEnd?)
    ensures Enabled(c, w.ctl, Unlabel(l))
  {
    assert WorkerMatch(w, w.ctl.workers[l.w], v.workers[l.w]);
  }

  lemma SinkExitEnabled(c: Config, w: World, v: State<Payload>, l: Label<Payload>)
    requires Coupled(c, w, v) && Enabled(c, v, l)
    requires l.SinkFail? || l.SinkCancel? || l.SinkEnd? || l.SinkFinish?
    ensures Enabled(c, w.ctl, Unlabel(l))
  {
    assert SinkMatch(w, w.ctl.sinks[l.sink], v.sinks[l.sink]);
  }

  lemma QuietEnabledBack(c: Config, s: State<Addr>, v: State<Payload>, l: Label<Payload>)
    requires Shaped(c, s) && Shaped(c, v) && SameControl(s, v) && SameSource(s.source, v.source)
    requires forall x :: 0 <= x < |s.workers| ==> (s.workers[x].Exited? <==> v.workers[x].Exited?)
    requires Enabled(c, v, l) && IsQuiet(l)
    ensures Enabled(c, s, Unlabel(l))
  {
  }

  lemma UntouchedEnabled(c: Config, w: World, v: State<Payload>, l: Label<Payload>)
    requires Coupled(c, w, v) && Enabled(c, v, l) && !Touches(l)
    ensures Enabled(c, w.ctl, Unlabel(l)) && !Touches(Unlabel(l)) && Relabel(Unlabel(l)) == l
  {
    if l.SourceSend? {
      FeedEnabled(c, w, v, l.to);
    } else if l.WorkerCancel? || l.WorkerEnd? {
      WorkerExitEnabled(c, w, v, l);
    } else if l.SinkFail? || l.SinkCancel? || l.SinkEnd? || l.SinkFinish? {
      SinkExitEnabled(c, w, v, l);
    } else {
      CoupledShape(c, w, v);
      QuietEnabledBack(c, w.ctl, v, l);
    }
  }

  // ----- Steps that clone one -----

  lemma RealiseProcess(p: D.Program, w: World, v: State<Payload>, l: Label<Payload>, clone: Addr)
    requires Safe(p.c, w) && Coupled(p.c, w, v) && Enabled(p.c, v, l) && D.Allowed(p, v, l) && l.WorkerProcess?
    requires Supplied(p.c, w, l, clone)
    ensures Realised(p, w, l, clone)
  {
    var it := w.ctl.workers[l.w].item;
    assert ItemOf(w, AtWorker(l.w)) == Some(it);
    assert WorkerMatch(w, w.ctl.workers[l.w], v.workers[l.w]);
    CloneMeans(w, it.body, clone);
    assert Answer(p, w, p.c.stageOf[l.w], it, clone)
        == p.proc(p.c.stageOf[l.w], it.id, CloneOf(v.workers[l.w].item.body));
  }

  lemma RealiseSend(p: D.Program, w: World, v: State<Payload>, l: Label<Payload>, clone: Addr)
    requires Safe(p.c, w) && Coupled(p.c, w, v) && Enabled(p.c, v, l) && D.Allowed(p, v, l) && l.WorkerSend?
    requires Supplied(p.c, w, l, clone)
    ensures Realised(p, w, l, clone)
  {
    assert WorkerMatch(w, w.ctl.workers[l.w], v.workers[l.w]);
    assert WorkerMatch(w, w.ctl.workers[l.to], v.workers[l.to]);
  }

  lemma RealiseDeliver(p: D.Program, w: World, v: State<Payload>, l: Label<Payload>, clone: Addr)
    requires Safe(p.c, w) && Coupled(p.c, w, v) && Enabled(p.c, v, l) && D.Allowed(p, v, l) && l.WorkerDeliver?
    requires Supplied(p.c, w, l, clone)
    ensures Realised(p, w, l, clone)
  {
    assert WorkerMatch(w, w.ctl.workers[l.w], v.workers[l.w]);
    assert SinkMatch(w, w.ctl.sinks[l.sink], v.sinks[l.sink]);
  }

  lemma RealiseDrain(p: D.Program, w: World, v: State<Payload>, l: Label<Payload>, clone: Addr)
    requires Safe(p.c, w) && Coupled(p.c, w, v) && Enabled(p.c, v, l) && D.Allowed(p, v, l) && l.SinkDrain?
    requires Supplied(p.c, w, l, clone)
    ensures Realised(p, w, l, clone)
  {
    assert SinkMatch(w, w.ctl.sinks[l.sink], v.sinks[l.sink]);
  }

  lemma RealiseTake(p: D.Program, w: World, v: State<Payload>, l: Label<Payload>, clone: Addr)
    requires Coupled(p.c, w, v) && Enabled(p.c, v, l) && l.SourceTake? && Supplied(p.c, w, l, clone)
    ensures Realised(p, w, l, clone)
  {
    CoupledShape(p.c, w, v);
  }

  lemma RealiseOther(p: D.Program, w: World, v: State<Payload>, l: Label<Payload>, clone: Addr)
    requires Coupled(p.c, w, v) && Enabled(p.c, v, l) && !Touches(l)
    ensures Realised(p, w, l, clone)
  {
    UntouchedEnabled(p.c, w, v, l);
    assert ActFor(l, clone) == Action.Other(Unlabel(l));
  }

  /** Whatever object is supplied. */
  lemma RealiseStep(p: D.Program, w: World, v: State<Payload>, l: Label<Payload>, clone: Addr)
    requires Safe(p.c, w) && Coupled(p.c, w, v) && Enabled(p.c, v, l) && D.Allowed(p, v, l)
    requires Supplied(p.c, w, l, clone)
    ensures Realised(p, w, l, clone)
  {
    if l.SourceTake? {
      RealiseTake(p, w, v, l, clone);
    } else if l.WorkerProcess? {
      RealiseProcess(p, w, v, l, clone);
    } else if l.WorkerSend? {
      RealiseSend(p, w, v, l, clone);
    } else if l.WorkerDeliver? {
      RealiseDeliver(p, w, v, l, clone);
    } else if l.SinkDrain? {
      RealiseDrain(p, w, v, l, clone);
    } else {
      RealiseOther(p, w, v, l, clone);
    }
  }

  // ----- Runs -----

  lemma {:induction false} Fresh(used: set<Addr>) returns (a: Addr)
    ensures forall b :: b in used ==> b < a
  {
    if used == {} {
      a := 0;
    } else {
      var b :| b in used;
      var above := Fresh(used - {b});
      a := if above > b then above else b + 1;
      assert forall x :: x in used ==> x == b || x in used - {b};
    }
  }

  /** There is always memory for a new object, and the pool may always supply one. */
  lemma FreshIsSupplied(c: Config, w: World, v: State<Payload>, l: Label<Payload>) returns (a: Addr)
    requires Coupled(c, w, v) && Enabled(c, v, l) && (l.SourceTake? ==> !l.payload.NoPayload?)
    ensures Supplied(c, w, l, a)
  {
    a := Fresh(w.heap.Keys);
    assert a !in w.heap;
    match l
    case WorkerProcess(x, _) => assert WorkerMatch(w, w.ctl.workers[x], v.workers[x]);
    case WorkerSend(x, _, _) => assert WorkerMatch(w, w.ctl.workers[x], v.workers[x]);
    case WorkerDeliver(x, _, _) => assert WorkerMatch(w, w.ctl.workers[x], v.workers[x]);
    case SinkDrain(j, _) => assert SinkMatch(w, w.ctl.sinks[j], v.sinks[j]);
    case _ =>
  }

  /** So may any object of that kind that was put back: a clone may get what a sink has just marked as processed. */
  lemma PooledIsSupplied(p: D.Program, acts: seq<Action>, h: Holder, b: Addr)
    requires Wired(p.c) && InPlace(p) && Runs(p, acts)
    requires var w := Reach(p, acts);
             && ItemOf(w, h).Some? && b in w.pool && b in w.heap
             && ItemOf(w, h).value.body in w.heap
             && SameKind(w.heap[b].fields, w.heap[ItemOf(w, h).value.body].fields)
    ensures CanGet(Reach(p, acts), ItemOf(Reach(p, acts), h).value.body, b)
  {
    SafeRun(p, acts);
  }

  lemma LiftsOn(p: D.Program, acts: seq<Action>, act: Action)
    requires Wired(p.c) && Runs(p, acts) && Possible(p, Reach(p, acts), act)
    ensures Runs(p, acts + [act]) && Reach(p, acts + [act]) == Perform(p, Reach(p, acts), act)
    ensures LiftRun(p, acts + [act]) == LiftRun(p, acts) + Lift(p, Reach(p, acts), act)
  {
    RunsOn(p, acts, act);
    assert (acts + [act])[..|acts|] == acts;
  }

  /** Every run of the value machine in which the source hands out no nil is performed by a run over objects. */
  lemma {:induction false} ValuesAreRealised(p: D.Program, ls: seq<Label<Payload>>) returns (acts: seq<Action>)
    requires Wired(p.c) && InPlace(p) && D.Computes(p, ls)
    requires forall i :: 0 <= i < |ls| && ls[i].SourceTake? ==> !ls[i].payload.NoPayload?
    ensures Runs(p, acts) && LiftRun(p, acts) == ls && Coupled(p.c, Reach(p, acts), D.After(p, ls))
  {
    if ls == [] {
      acts := [];
    } else {
      var front, l := ls[..|ls| - 1], ls[|ls| - 1];
      assert ls == front + [l];
      acts := ValuesAreRealised(p, front);
      SafeRun(p, acts);
      var a := FreshIsSupplied(p.c, Reach(p, acts), D.After(p, front), l);
      RealiseStep(p, Reach(p, acts), D.After(p, front), l, a);
      LiftsOn(p, acts, ActFor(l, a));
      acts := acts + [ActFor(l, a)];
    }
    ObjectsRefineValues(p, acts);
  }

  lemma EvictOne(p: D.Program, w: World, a: Addr)
    requires Ready(p.c, w) && a in w.pool
    ensures Possible(p, w, Evict(a)) && Lift(p, w, Evict(a)) == []
    ensures Perform(p, w, Evict(a)) == w.(pool := w.pool - {a})
  {
  }

  lemma EvictNext(p: D.Program, acts: seq<Action>, a: Addr)
    requires Wired(p.c) && Runs(p, acts) && a in Reach(p, acts).pool
    ensures Runs(p, acts + [Evict(a)]) && LiftRun(p, acts + [Evict(a)]) == LiftRun(p, acts)
    ensures Reach(p, acts + [Evict(a)]) == Reach(p, acts).(pool := Reach(p, acts).pool - {a})
  {
    EvictOne(p, Reach(p, acts), a);
    LiftsOn(p, acts, Evict(a));
  }

  /** The garbage collector may empty the pool at any time, and nobody notices. */
  lemma {:induction false} PoolMayBeEmptied(p: D.Program, acts: seq<Action>) returns (all: seq<Action>)
    requires Wired(p.c) && Runs(p, acts)
    ensures Runs(p, all) && acts <= all && (forall i :: |acts| <= i < |all| ==> all[i].Evict?)
    ensures Reach(p, all) == Reach(p, acts).(pool := {}) && LiftRun(p, all) == LiftRun(p, acts)
    decreases Reach(p, acts).pool
  {
    if a :| a in Reach(p, acts).pool {
      EvictNext(p, acts, a);
      all := PoolMayBeEmptied(p, acts + [Evict(a)]);
    } else {
      all := acts;
    }
  }

  // ----- With the worker pools of the storages -----

  lemma EventOn(d: Design, es: seq<Event>, e: Event)
    requires Built(d) && Works(d, es) && May(d, Arrive(d, es), e)
    ensures Works(d, es + [e]) && Arrive(d, es + [e]) == Happen(d, Arrive(d, es), e)
    ensures Acts(d, es + [e]) == Acts(d, es) + ActsIn(d, Arrive(d, es), e)
  {
    assert (es + [e])[..|es|] == es;
  }

  /** An event in which the pipeline performs an action. */
  lemma EventLifts(d: Design, es: seq<Event>, e: Event, act: Action)
    requires Built(d) && Works(d, es) && May(d, Arrive(d, es), e) && ActsIn(d, Arrive(d, es), e) == [act]
    requires Possible(d.p, Arrive(d, es).w, act)
    ensures Works(d, es + [e])
    ensures Values(d, es + [e]) == Values(d, es) + Lift(d.p, Arrive(d, es).w, act)
  {
    EventOn(d, es, e);
    PipelineRuns(d, es);
    LiftsOn(d.p, Acts(d, es), act);
  }

  /** Nothing is queued for the storages, and the first worker of each waits. */
  ghost predicate Resting(d: Design, s: Plant)
    requires Standing(d, s)
  {
    forall j :: 0 <= j < d.p.c.m ==>
      s.pools[j].queue == [] && |s.pools[j].runners| > 0 && s.pools[j].runners[0].Waiting?
  }

  /** All pools but the j-th rest. */
  ghost predicate OthersRest(d: Design, s: Plant, j: nat)
    requires Standing(d, s)
  {
    forall k :: 0 <= k < d.p.c.m && k != j ==>
      s.pools[k].queue == [] && |s.pools[k].runners| > 0 && s.pools[k].runners[0].Waiting?
  }

  lemma HandRest(d: Design, s: Plant, j: nat, clone: Addr)
    requires Standing(d, s) && Resting(d, s) && j < d.p.c.m && Possible(d.p, s.w, Drain(j, clone))
    ensures May(d, s, Hand(j, clone, Some(0)))
    ensures var s' := Happen(d, s, Hand(j, clone, Some(0)));
            OthersRest(d, s', j) && s'.pools[j].queue == [] && Can(s'.pools[j], Finish(0))
  {
  }

  lemma TaskRest(d: Design, s: Plant, j: nat)
    requires Standing(d, s) && May(d, s, Task(j, 0)) && OthersRest(d, s, j) && s.pools[j].queue == []
    ensures Resting(d, Happen(d, s, Task(j, 0)))
    ensures Lift(d.p, s.w, StorageWrite(j, s.pools[j].runners[0].data)) == []
  {
  }

  /** The storage takes the clone at once and writes it. */
  lemma HandAndWrite(d: Design, es: seq<Event>, j: nat, clone: Addr) returns (all: seq<Event>)
    requires Built(d) && Works(d, es) && InPlace(d.p) && j < d.p.c.m && Resting(d, Arrive(d, es))
    requires Possible(d.p, Arrive(d, es).w, Drain(j, clone))
    ensures Works(d, all) && Resting(d, Arrive(d, all))
    ensures Values(d, all) == Values(d, es) + Lift(d.p, Arrive(d, es).w, Drain(j, clone))
  {
    var hand := Hand(j, clone, Some(0));
    HandRest(d, Arrive(d, es), j, clone);
    EventLifts(d, es, hand, Drain(j, clone));
    EventOn(d, es, hand);
    all := TaskFollows(d, es + [hand], j);
  }

  lemma TaskFollows(d: Design, mid: seq<Event>, j: nat) returns (all: seq<Event>)
    requires Built(d) && Works(d, mid) && InPlace(d.p) && j < d.p.c.m && OthersRest(d, Arrive(d, mid), j)
    requires Arrive(d, mid).pools[j].queue == [] && Can(Arrive(d, mid).pools[j], Finish(0))
    ensures Works(d, all) && Resting(d, Arrive(d, all)) && Values(d, all) == Values(d, mid)
  {
    var s := Arrive(d, mid);
    TaskIsPossible(d, mid, j, 0);
    TaskRest(d, s, j);
    EventOn(d, mid, Task(j, 0));
    EventLifts(d, mid, Task(j, 0), StorageWrite(j, s.pools[j].runners[0].data));
    all := mid + [Task(j, 0)];
  }

  lemma StepOnly(d: Design, es: seq<Event>, act: Action)
    requires Built(d) && Works(d, es) && Resting(d, Arrive(d, es)) && !act.Drain? && !act.StorageWrite?
    requires Possible(d.p, Arrive(d, es).w, act)
    ensures Works(d, es + [Step(act)]) && Resting(d, Arrive(d, es + [Step(act)]))
    ensures Values(d, es + [Step(act)]) == Values(d, es) + Lift(d.p, Arrive(d, es).w, act)
  {
    EventOn(d, es, Step(act));
    EventLifts(d, es, Step(act), act);
  }

  lemma PlantAct(d: Design, es: seq<Event>, l: Label<Payload>, a: Addr) returns (all: seq<Event>)
    requires Built(d) && Works(d, es) && InPlace(d.p) && Resting(d, Arrive(d, es))
    requires Realised(d.p, Arrive(d, es).w, l, a)
    ensures Works(d, all) && Resting(d, Arrive(d, all)) && Values(d, all) == Values(d, es) + [l]
  {
    if l.SinkDrain? {
      all := HandAndWrite(d, es, l.sink, a);
    } else {
      StepOnly(d, es, ActFor(l, a));
      all := es + [Step(ActFor(l, a))];
    }
  }

  lemma PlantStep(d: Design, es: seq<Event>, l: Label<Payload>) returns (a: Addr)
    requires Built(d) && Works(d, es) && InPlace(d.p)
    requires D.Computes(d.p, Values(d, es)) && Coupled(d.p.c, Arrive(d, es).w, D.After(d.p, Values(d, es)))
    requires var v := D.After(d.p, Values(d, es)); Enabled(d.p.c, v, l) && D.Allowed(d.p, v, l)
    requires l.SourceTake? ==> !l.payload.NoPayload?
    ensures Realised(d.p, Arrive(d, es).w, l, a)
  {
    var w, v := Arrive(d, es).w, D.After(d.p, Values(d, es));
    PipelineRuns(d, es);
    SafeRun(d.p, Acts(d, es));
    a := FreshIsSupplied(d.p.c, w, v, l);
    RealiseStep(d.p, w, v, l, a);
  }

  /** So the storages never stand in the way: every such run is possible with their pools attached, of any size. */
  lemma {:induction false} PlantsRealiseValues(d: Design, ls: seq<Label<Payload>>) returns (es: seq<Event>)
    requires Built(d) && InPlace(d.p) && (forall j :: 0 <= j < d.p.c.m ==> d.sizes[j] > 0) && D.Computes(d.p, ls)
    requires forall i :: 0 <= i < |ls| && ls[i].SourceTake? ==> !ls[i].payload.NoPayload?
    ensures Works(d, es) && Resting(d, Arrive(d, es)) && Values(d, es) == ls
  {
    if ls == [] {
      es := [];
    } else {
      var front, l := ls[..|ls| - 1], ls[|ls| - 1];
      assert ls == front + [l];
      es := PlantsRealiseValues(d, front);
      PipelineRuns(d, es);
      ObjectsRefineValues(d.p, Acts(d, es));
      var a := PlantStep(d, es, l);
      es := PlantAct(d, es, l, a);
    }
  }
}
