/** The pipeline together with the worker pools of its storages: a storage's write is its pool's task. */
module StorageRuns {
  import opened Tally
  import opened Payloads
  import opened Control
  import D = Dataflow
  import opened Ordering
  import Flow
  import opened Ownership
  import opened PoolSafety
  import opened Refinement
  import opened WorkerPool
  import opened EndToEnd

  /** pools[j] runs its task on positions in the queue of storage j. */
  datatype Plant = Plant(w: World, pools: seq<Pool<nat>>)

  /** The pipeline's program, and the size and channel capacity of each storage's pool. */
  datatype Design = Design(p: D.Program, sizes: seq<nat>, capacities: seq<nat>)

  ghost predicate Built(d: Design) {
    Wired(d.p.c) && |d.sizes| == |d.capacities| == d.p.c.m
  }

  datatype Event =
    | Step(act: Action)                           // anything but handing over to a storage and writing
    | Hand(j: nat, clone: Addr, to: Option<nat>)  // Drain sends the clone: into the buffer, or to a waiting worker
    | Task(j: nat, x: nat)                        // worker x writes the clone in its hand
    | Other(j: nat, move: Move<nat>)              // a worker dequeues, Stop is called, a worker takes its signal

  /** The move of the pool by which Drain hands over position i. */
  ghost function HandMove(i: nat, to: Option<nat>): Move<nat> {
    if to.Some? then HandOver(to.value, i) else Enqueue(i)
  }

  ghost predicate Standing(d: Design, s: Plant) {
    Built(d) && Ready(d.p.c, s.w) && |s.pools| == d.p.c.m
  }

  ghost predicate May(d: Design, s: Plant, e: Event)
    requires Standing(d, s)
  {
    match e
    case Step(act) => !act.Drain? && !act.StorageWrite? && Possible(d.p, s.w, act)
    case Hand(j, clone, to) =>
      j < d.p.c.m && Possible(d.p, s.w, Drain(j, clone)) && Can(s.pools[j], HandMove(|s.w.queue[j]|, to))
    case Task(j, x) =>
      && j < d.p.c.m && Can(s.pools[j], Finish(x))
      && Possible(d.p, s.w, StorageWrite(j, s.pools[j].runners[x].data))
    case Other(j, mv) => j < d.p.c.m && (mv.Dequeue? || mv.CallStop? || mv.Signal?) && Can(s.pools[j], mv)
  }

  /** What the pipeline does in an event. */
  ghost function ActsIn(d: Design, s: Plant, e: Event): seq<Action>
    requires Standing(d, s) && May(d, s, e)
  {
    match e
    case Step(act) => [act]
    case Hand(j, clone, _) => [Drain(j, clone)]
    case Task(j, x) => [StorageWrite(j, s.pools[j].runners[x].data)]
    case Other(_, _) => []
  }

  /** What the pool of storage j does in it. */
  ghost function MovesIn(d: Design, s: Plant, e: Event, j: nat): seq<Move<nat>>
    requires Standing(d, s) && May(d, s, e)
  {
    if e.Step? || e.j != j then []
    else match e
      case Hand(_, _, to) => [HandMove(|s.w.queue[j]|, to)]
      case Task(_, x) => [Finish(x)]
      case Other(_, mv) => [mv]
  }

  ghost function Happen(d: Design, s: Plant, e: Event): (s': Plant)
    requires Standing(d, s) && May(d, s, e)
    ensures Standing(d, s')
  {
    match e
    case Step(act) => s.(w := Perform(d.p, s.w, act))
    case Hand(j, clone, to) =>
      Plant(Perform(d.p, s.w, Drain(j, clone)), s.pools[j := Do(s.pools[j], HandMove(|s.w.queue[j]|, to))])
    case Task(j, x) =>
      Plant(Perform(d.p, s.w, StorageWrite(j, s.pools[j].runners[x].data)),
            s.pools[j := Do(s.pools[j], Finish(x))])
    case Other(j, mv) => s.(pools := s.pools[j := Do(s.pools[j], mv)])
  }

  ghost function Opening(d: Design): (s: Plant)
    requires Built(d)
    ensures Standing(d, s)
  {
    Plant(Start(d.p.c), seq(d.p.c.m, j requires 0 <= j < d.p.c.m => Started(d.sizes[j], d.capacities[j])))
  }

  ghost predicate Works(d: Design, es: seq<Event>)
    requires Built(d)
    decreases es, 0
  {
    es == [] || (Works(d, es[..|es| - 1]) && May(d, Arrive(d, es[..|es| - 1]), es[|es| - 1]))
  }

  ghost function Arrive(d: Design, es: seq<Event>): (s: Plant)
    requires Built(d) && Works(d, es)
    ensures Standing(d, s)
    decreases es, 1
  {
    if es == [] then Opening(d) else Happen(d, Arrive(d, es[..|es| - 1]), es[|es| - 1])
  }

  // ----- A run of both is a run of each -----

  ghost function Acts(d: Design, es: seq<Event>): seq<Action>
    requires Built(d) && Works(d, es)
  {
    if es == [] then []
    else
      var front := es[..|es| - 1];
      Acts(d, front) + ActsIn(d, Arrive(d, front), es[|es| - 1])
  }

  ghost function Moves(d: Design, es: seq<Event>, j: nat): seq<Move<nat>>
    requires Built(d) && Works(d, es)
  {
    if es == [] then []
    else
      var front := es[..|es| - 1];
      Moves(d, front, j) + MovesIn(d, Arrive(d, front), es[|es| - 1], j)
  }

  lemma {:induction false} PipelineRuns(d: Design, es: seq<Event>)
    requires Built(d) && Works(d, es)
    ensures Runs(d.p, Acts(d, es)) && Reach(d.p, Acts(d, es)) == Arrive(d, es).w
  {
    if es != [] {
      var front, e := es[..|es| - 1], es[|es| - 1];
      PipelineRuns(d, front);
      var acts := ActsIn(d, Arrive(d, front), e);
      if acts != [] {
        assert acts == [acts[0]];
        RunsOn(d.p, Acts(d, front), acts[0]);
      } else {
        assert Acts(d, front) + acts == Acts(d, front);
      }
    }
  }

  /** None or one move leads a pool from one state to the next. */
  ghost predicate Leads(pool: Pool<nat>, moves: seq<Move<nat>>, pool': Pool<nat>) {
    if moves == [] then pool' == pool
    else moves == [moves[0]] && Can(pool, moves[0]) && pool' == Do(pool, moves[0])
  }

  lemma MovesMean(d: Design, s: Plant, e: Event, j: nat)
    requires Standing(d, s) && May(d, s, e) && j < d.p.c.m
    ensures Leads(s.pools[j], MovesIn(d, s, e, j), Happen(d, s, e).pools[j])
  {
  }

  lemma PlaysAll(start: Pool<nat>, before: seq<Move<nat>>, moves: seq<Move<nat>>, pool': Pool<nat>)
    requires Plays(start, before) && Leads(Played(start, before), moves, pool')
    ensures Plays(start, before + moves) && Played(start, before + moves) == pool'
  {
    if moves == [] {
      assert before + moves == before;
    } else {
      PlaysOn(start, before, moves[0]);
    }
  }

  lemma {:induction false} PoolPlays(d: Design, es: seq<Event>, j: nat)
    requires Built(d) && Works(d, es) && j < d.p.c.m
    ensures var pool := Started(d.sizes[j], d.capacities[j]);
            Plays(pool, Moves(d, es, j)) && Played(pool, Moves(d, es, j)) == Arrive(d, es).pools[j]
  {
    if es != [] {
      var front, e := es[..|es| - 1], es[|es| - 1];
      PoolPlays(d, front, j);
      MovesMean(d, Arrive(d, front), e, j);
      PlaysAll(Started(d.sizes[j], d.capacities[j]), Moves(d, front, j), MovesIn(d, Arrive(d, front), e, j),
               Arrive(d, es).pools[j]);
    }
  }

  // ----- What the pools have done -----

  ghost function Upto(n: nat): (r: seq<nat>)
    ensures |r| == n
  {
    seq(n, i => i)
  }

  ghost function Positions(written: seq<(nat, Payload)>): (r: seq<nat>)
    ensures |r| == |written|
  {
    seq(|written|, k requires 0 <= k < |written| => written[k].0)
  }

  /** The pool was sent the whole queue, in order, and has finished exactly what was written. */
  ghost predicate Linked(w: World, pool: Pool<nat>, j: nat, written: seq<(nat, Payload)>) {
    j < |w.queue| && pool.enqueued == Upto(|w.queue[j]|) && pool.finished == Positions(written)
  }

  lemma WritesIn(p: D.Program, acts: seq<Action>, act: Action, j: nat)
    requires Wired(p.c) && Runs(p, acts) && Possible(p, Reach(p, acts), act)
    ensures Runs(p, acts + [act])
    ensures Positions(Writes(p, acts + [act], j))
         == Positions(Writes(p, acts, j)) + (if act.StorageWrite? && act.j == j then [act.i] else [])
  {
    RunsOn(p, acts, act);
    assert (acts + [act])[..|acts|] == acts;
  }

  lemma QueueIn(p: D.Program, w: World, act: Action, j: nat)
    requires Ready(p.c, w) && Possible(p, w, act) && j < p.c.m
    ensures |Perform(p, w, act).queue[j]| == |w.queue[j]| + if act.Drain? && act.j == j then 1 else 0
  {
  }

  /** What an event sends to pool j, and what the pool finishes. */
  lemma PoolIn(d: Design, s: Plant, e: Event, j: nat)
    requires Standing(d, s) && May(d, s, e) && j < d.p.c.m
    ensures var pool, pool' := s.pools[j], Happen(d, s, e).pools[j];
            && pool'.enqueued == pool.enqueued + (if e.Hand? && e.j == j then [|s.w.queue[j]|] else [])
            && pool'.finished == pool.finished + (if e.Task? && e.j == j then [pool.runners[e.x].data] else [])
  {
  }

  lemma LinkedNext(w: World, w': World, pool: Pool<nat>, pool': Pool<nat>, j: nat, written: seq<(nat, Payload)>,
                   written': seq<(nat, Payload)>, handed: bool, done: seq<nat>)
    requires Linked(w, pool, j, written) && j < |w'.queue|
    requires |w'.queue[j]| == |w.queue[j]| + if handed then 1 else 0
    requires pool'.enqueued == pool.enqueued + if handed then [|w.queue[j]|] else []
    requires pool'.finished == pool.finished + done && Positions(written') == Positions(written) + done
    ensures Linked(w', pool', j, written')
  {
    UptoNext(|w.queue[j]|);
  }

  /** The action of an event, if it has one, and what it means to storage j. */
  lemma ActIn(d: Design, s: Plant, e: Event, j: nat)
    requires Standing(d, s) && May(d, s, e) && j < d.p.c.m
    ensures var acts, s' := ActsIn(d, s, e), Happen(d, s, e);
            && (acts == [] ==> s'.w == s.w && !e.Hand? && !e.Task?)
            && (acts != [] ==>
                  && acts == [acts[0]] && Possible(d.p, s.w, acts[0]) && s'.w == Perform(d.p, s.w, acts[0])
                  && (acts[0].Drain? && acts[0].j == j <==> e.Hand? && e.j == j)
                  && (acts[0].StorageWrite? && acts[0].j == j <==> e.Task? && e.j == j)
                  && (e.Task? ==> acts[0].i == s.pools[e.j].runners[e.x].data))
  {
  }

  /** The pipeline performs an action, and the pool is sent the clone it hands over and finishes the one it writes. */
  lemma LinkedAct(p: D.Program, before: seq<Action>, act: Action, pool: Pool<nat>, pool': Pool<nat>, j: nat)
    requires Wired(p.c) && Runs(p, before) && Possible(p, Reach(p, before), act) && j < p.c.m
    requires var w := Reach(p, before);
             && Linked(w, pool, j, Writes(p, before, j))
             && pool'.enqueued == pool.enqueued + (if act.Drain? && act.j == j then [|w.queue[j]|] else [])
             && pool'.finished == pool.finished + (if act.StorageWrite? && act.j == j then [act.i] else [])
    ensures Runs(p, before + [act])
    ensures Linked(Perform(p, Reach(p, before), act), pool', j, Writes(p, before + [act], j))
  {
    var w := Reach(p, before);
    WritesIn(p, before, act, j);
    QueueIn(p, w, act, j);
    LinkedNext(w, Perform(p, w, act), pool, pool', j, Writes(p, before, j), Writes(p, before + [act], j),
               act.Drain? && act.j == j, if act.StorageWrite? && act.j == j then [act.i] else []);
  }

  lemma LinkedHappen(d: Design, s: Plant, before: seq<Action>, e: Event, j: nat)
    requires Standing(d, s) && May(d, s, e) && j < d.p.c.m && Runs(d.p, before) && Reach(d.p, before) == s.w
    requires Linked(s.w, s.pools[j], j, Writes(d.p, before, j))
    ensures var s', acts := Happen(d, s, e), before + ActsIn(d, s, e);
            Runs(d.p, acts) && Linked(s'.w, s'.pools[j], j, Writes(d.p, acts, j))
  {
    var acts, s' := ActsIn(d, s, e), Happen(d, s, e);
    PoolIn(d, s, e, j);
    ActIn(d, s, e, j);
    if acts == [] {
      assert before + acts == before;
    } else {
      LinkedAct(d.p, before, acts[0], s.pools[j], s'.pools[j], j);
    }
  }

  lemma UptoNext(n: nat)
    ensures Upto(n + 1) == Upto(n) + [n]
  {
  }

  lemma {:induction false} AlwaysLinked(d: Design, es: seq<Event>, j: nat)
    requires Built(d) && Works(d, es) && j < d.p.c.m
    ensures Runs(d.p, Acts(d, es))
    ensures Linked(Arrive(d, es).w, Arrive(d, es).pools[j], j, Writes(d.p, Acts(d, es), j))
  {
    PipelineRuns(d, es);
    if es != [] {
      var front := es[..|es| - 1];
      PipelineRuns(d, front);
      AlwaysLinked(d, front, j);
      LinkedHappen(d, Arrive(d, front), Acts(d, front), es[|es| - 1], j);
    }
  }

  lemma {:induction false} MassOnlyUpto(i: nat, n: nat)
    ensures Mass(Flow.Only(i), Upto(n)) == if i < n then 1 else 0
  {
    if n > 0 {
      var only: nat -> nat, last: nat := Flow.Only(i), n - 1;
      MassOnlyUpto(i, last);
      UptoNext(last);
      MassAppend(only, Upto(last), last);
    }
  }

  /** Each position handed over is once among what is finished, in hand and queued. */
  lemma OncePerPosition(d: Design, es: seq<Event>, j: nat, i: nat)
    requires Built(d) && Works(d, es) && j < d.p.c.m
    ensures var s := Arrive(d, es);
            var only, pool := Flow.Only(i), s.pools[j];
            Mass(only, pool.finished) + Sum(InHand(only, pool.runners)) + Mass(only, pool.queue)
            == if i < |s.w.queue[j]| then 1 else 0
  {
    AlwaysLinked(d, es, j);
    PoolPlays(d, es, j);
    DataConserved(Flow.Only(i), d.sizes[j], d.capacities[j], Moves(d, es, j));
    MassOnlyUpto(i, |Arrive(d, es).w.queue[j]|);
  }

  /** What a worker has in hand was handed over and not written. */
  lemma HandNotFinished(d: Design, es: seq<Event>, j: nat, x: nat)
    requires Built(d) && Works(d, es) && j < d.p.c.m && Can(Arrive(d, es).pools[j], Finish(x))
    ensures var s := Arrive(d, es);
            var i := s.pools[j].runners[x].data;
            i < |s.w.queue[j]| && i !in s.pools[j].finished
  {
    var s := Arrive(d, es);
    var pool := s.pools[j];
    var i := pool.runners[x].data;
    OncePerPosition(d, es, j, i);
    SumAtLeast(InHand(Flow.Only(i), pool.runners), x);
    if i in pool.finished {
      var k :| 0 <= k < |pool.finished| && pool.finished[k] == i;
      MassOfMember(Flow.Only(i), pool.finished, k);
    }
  }

  lemma StoredIsFinished(d: Design, es: seq<Event>, j: nat, i: nat)
    requires Built(d) && Works(d, es) && j < d.p.c.m
    requires i < |Arrive(d, es).w.queue[j]| && Arrive(d, es).w.queue[j][i].Stored?
    ensures i in Arrive(d, es).pools[j].finished
  {
    var s, acts := Arrive(d, es), Acts(d, es);
    AlwaysLinked(d, es, j);
    PipelineRuns(d, es);
    StoredWasWritten(d.p, acts, j, i);
    var k :| 0 <= k < |Writes(d.p, acts, j)| && Writes(d.p, acts, j)[k].0 == i;
    assert s.pools[j].finished[k] == i;
  }

  lemma QueuedCanBeWritten(p: D.Program, w: World, j: nat, i: nat)
    requires Safe(p.c, w) && j < p.c.m && i < |w.queue[j]| && w.queue[j][i].Queued?
    ensures Possible(p, w, StorageWrite(j, i))
  {
    assert ItemOf(w, AtStorage(j, i)) == Some(w.queue[j][i].item);
  }

  /** A worker with a clone in hand can always write it: pooling of objects never takes it away. */
  lemma TaskIsPossible(d: Design, es: seq<Event>, j: nat, x: nat)
    requires Built(d) && Works(d, es) && InPlace(d.p) && j < d.p.c.m && Can(Arrive(d, es).pools[j], Finish(x))
    ensures May(d, Arrive(d, es), Task(j, x))
  {
    var s, acts := Arrive(d, es), Acts(d, es);
    var i := s.pools[j].runners[x].data;
    HandNotFinished(d, es, j, x);
    PipelineRuns(d, es);
    SafeRun(d.p, acts);
    if s.w.queue[j][i].Stored? {
      StoredIsFinished(d, es, j, i);
    } else {
      QueuedCanBeWritten(d.p, s.w, j, i);
    }
  }

  // ----- What the storages write -----

  /** What storage j has written, in order. */
  ghost function Written(d: Design, es: seq<Event>, j: nat): seq<(nat, Payload)>
    requires Built(d) && Works(d, es)
  {
    PipelineRuns(d, es);
    Writes(d.p, Acts(d, es), j)
  }

  /** The run of the pipeline over payload values. */
  ghost function Values(d: Design, es: seq<Event>): seq<Label<Payload>>
    requires Built(d) && Works(d, es)
  {
    PipelineRuns(d, es);
    LiftRun(d.p, Acts(d, es))
  }

  lemma ValuesCompute(d: Design, es: seq<Event>)
    requires Built(d) && Works(d, es) && InPlace(d.p)
    ensures D.Computes(d.p, Values(d, es))
  {
    PipelineRuns(d, es);
    ObjectsRefineValues(d.p, Acts(d, es));
  }

  /** The k-th write of a single worker is of the k-th clone. */
  lemma WriteInOrder(d: Design, es: seq<Event>, j: nat, k: nat)
    requires Built(d) && Works(d, es) && j < d.p.c.m && d.sizes[j] == 1 && k < |Written(d, es, j)|
    ensures Written(d, es, j)[k].0 == k
  {
    var s := Arrive(d, es);
    AlwaysLinked(d, es, j);
    PoolPlays(d, es, j);
    SingleWorkerOrder(d.capacities[j], Moves(d, es, j));
    assert s.pools[j].finished[k] == s.pools[j].enqueued[k] == k;
  }

  /** A storage with one worker behind a FIFO pipeline writes a prefix of the filter-map, in order. */
  lemma SingleWorkerWritesPrefix(d: Design, es: seq<Event>, j: nat)
    requires Built(d) && Works(d, es) && InPlace(d.p) && Fifo(d.p.c) && j < d.p.c.m && d.sizes[j] == 1
    ensures D.Computes(d.p, Values(d, es))
    ensures var out := D.FilterMap(d.p, d.p.c.n, D.After(d.p, Values(d, es)).taken).out;
            && |Written(d, es, j)| <= |out|
            && forall k :: 0 <= k < |Written(d, es, j)| ==> Written(d, es, j)[k] == (k, out[k].body)
  {
    ValuesCompute(d, es);
    var written := Written(d, es, j);
    var out := D.FilterMap(d.p, d.p.c.n, D.After(d.p, Values(d, es)).taken).out;
    if written != [] {
      WriteIsResult(d, es, j, |written| - 1);
    }
    forall k | 0 <= k < |written| ensures written[k] == (k, out[k].body) {
      WriteIsResult(d, es, j, k);
    }
  }

  lemma WriteIsResult(d: Design, es: seq<Event>, j: nat, k: nat)
    requires Built(d) && Works(d, es) && InPlace(d.p) && Fifo(d.p.c) && j < d.p.c.m && d.sizes[j] == 1
    requires k < |Written(d, es, j)|
    ensures D.Computes(d.p, Values(d, es))
    ensures var out := D.FilterMap(d.p, d.p.c.n, D.After(d.p, Values(d, es)).taken).out;
            k < |out| && Written(d, es, j)[k] == (k, out[k].body)
  {
    PipelineRuns(d, es);
    WriteInOrder(d, es, j, k);
    WritesAreStored(d.p, Acts(d, es), j);
    assert IsStored(Reach(d.p, Acts(d, es)), j, Written(d, es, j)[k]);
    StorageWritesFilterMap(d.p, Acts(d, es), j, k);
  }

  // ----- Pools of any size -----

  /** Once nothing is queued or in hand, everything handed over has been written. */
  lemma IdlePoolHasWrittenAll(d: Design, es: seq<Event>, j: nat, i: nat)
    requires Built(d) && Works(d, es) && j < d.p.c.m && i < |Arrive(d, es).w.queue[j]|
    requires var pool := Arrive(d, es).pools[j];
             pool.queue == [] && forall x :: 0 <= x < |pool.runners| ==> !pool.runners[x].Busy?
    ensures exists k :: 0 <= k < |Written(d, es, j)| && Written(d, es, j)[k].0 == i
  {
    var pool := Arrive(d, es).pools[j];
    var only: nat -> nat := Flow.Only(i);
    OncePerPosition(d, es, j, i);
    SumZero(InHand(only, pool.runners));
    MassPositive(only, pool.finished);
    AlwaysLinked(d, es, j);
    var k :| 0 <= k < |pool.finished| && only(pool.finished[k]) > 0;
    assert pool.finished[k] == Written(d, es, j)[k].0;
  }
}
