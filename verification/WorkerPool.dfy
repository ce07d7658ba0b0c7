/** The worker pool behind a storage: start, hand-off of data, and stop by one signal a worker. */
module WorkerPool {
  import opened Tally

  datatype Runner<T> = Waiting | Busy(data: T) | Stopped

  /** capacity is that of the data channel: 0 for Elasticsearch, configured for the file system. */
  datatype Pool<T> = Pool(
    size: nat,
    capacity: nat,
    runners: seq<Runner<T>>,
    queue: seq<T>,        // in the channel's buffer
    enqueued: seq<T>,     // everything sent to the channel so far
    finished: seq<T>,     // everything the task was run on so far
    stopping: bool,       // Stop has been called
    signals: nat,         // signals received by some worker
    took: seq<nat>)       // signals received by each worker

  ghost function Started<T>(size: nat, capacity: nat): Pool<T> {
    Pool(size, capacity, seq(size, _ => Waiting), [], [], [], false, 0, seq(size, _ => 0))
  }

  datatype Move<T> =
    | Enqueue(data: T)          // a send into the buffer
    | HandOver(x: nat, data: T) // a send taken by a waiting worker
    | Dequeue(x: nat)
    | Finish(x: nat)
    | CallStop
    | Signal(x: nat)

  ghost predicate Can<T>(p: Pool<T>, mv: Move<T>) {
    match mv
    case Enqueue(_) => |p.queue| < p.capacity
    case HandOver(x, _) => p.queue == [] && x < |p.runners| && p.runners[x].Waiting?
    case Dequeue(x) => p.queue != [] && x < |p.runners| && p.runners[x].Waiting?
    case Finish(x) => x < |p.runners| && p.runners[x].Busy?
    case CallStop => !p.stopping
    case Signal(x) =>
      p.stopping && p.signals < p.size && x < |p.runners| && x < |p.took| && p.runners[x].Waiting?
  }

  ghost function Do<T>(p: Pool<T>, mv: Move<T>): Pool<T>
    requires Can(p, mv)
  {
    match mv
    case Enqueue(d) => p.(queue := p.queue + [d], enqueued := p.enqueued + [d])
    case HandOver(x, d) => p.(runners := p.runners[x := Busy(d)], enqueued := p.enqueued + [d])
    case Dequeue(x) => p.(runners := p.runners[x := Busy(p.queue[0])], queue := p.queue[1..])
    case Finish(x) => p.(runners := p.runners[x := Waiting], finished := p.finished + [p.runners[x].data])
    case CallStop => p.(stopping := true)
    case Signal(x) =>
      p.(runners := p.runners[x := Stopped], signals := p.signals + 1, took := p.took[x := p.took[x] + 1])
  }

  ghost predicate Plays<T>(p: Pool<T>, moves: seq<Move<T>>)
    decreases moves, 0
  {
    moves == [] || (Plays(p, moves[..|moves| - 1]) && Can(Played(p, moves[..|moves| - 1]), moves[|moves| - 1]))
  }

  ghost function Played<T>(p: Pool<T>, moves: seq<Move<T>>): Pool<T>
    requires Plays(p, moves)
    decreases moves, 1
  {
    if moves == [] then p else Do(Played(p, moves[..|moves| - 1]), moves[|moves| - 1])
  }

  // ----- Workers and signals -----

  ghost function LiveOnes<T>(rs: seq<Runner<T>>): (r: seq<nat>)
    ensures |r| == |rs|
  {
    seq(|rs|, x requires 0 <= x < |rs| => if rs[x].Stopped? then 0 else 1)
  }

  ghost predicate Counted<T>(p: Pool<T>) {
    && |p.runners| == |p.took| == p.size
    && Sum(LiveOnes(p.runners)) + p.signals == p.size
    && (forall x :: 0 <= x < p.size ==> p.took[x] == if p.runners[x].Stopped? then 1 else 0)
  }

  lemma OneLive<T>(rs: seq<Runner<T>>, x: nat, r: Runner<T>)
    requires x < |rs|
    ensures Sum(LiveOnes(rs[x := r])) + LiveOnes(rs)[x] == Sum(LiveOnes(rs)) + if r.Stopped? then 0 else 1
  {
    var v := if r.Stopped? then 0 else 1;
    SumUpdate(LiveOnes(rs), x, v);
    assert LiveOnes(rs[x := r]) == LiveOnes(rs)[x := v];
  }

  lemma CountedStep<T>(p: Pool<T>, mv: Move<T>)
    requires Counted(p) && Can(p, mv)
    ensures Counted(Do(p, mv))
  {
    if mv.HandOver? || mv.Dequeue? || mv.Finish? || mv.Signal? {
      OneLive(p.runners, mv.x, Do(p, mv).runners[mv.x]);
    }
  }

  lemma {:induction false} CountedRun<T>(size: nat, capacity: nat, moves: seq<Move<T>>)
    requires Plays(Started(size, capacity), moves)
    ensures Counted(Played(Started(size, capacity), moves)) && Played(Started(size, capacity), moves).size == size
  {
    if moves == [] {
      SumOnes(LiveOnes<T>(Started(size, capacity).runners));
    } else {
      CountedRun(size, capacity, moves[..|moves| - 1]);
      CountedStep(Played(Started(size, capacity), moves[..|moves| - 1]), moves[|moves| - 1]);
    }
  }

  /**
   * Live workers and received signals always add up to the size, so as long as Stop has a signal left some
   * worker lives, which takes it as soon as its task returns.
   */
  lemma StopFindsReceiver<T>(size: nat, capacity: nat, moves: seq<Move<T>>) returns (x: nat)
    requires Plays(Started(size, capacity), moves)
    requires var p := Played(Started(size, capacity), moves); p.stopping && p.signals < size
    ensures var p := Played(Started(size, capacity), moves);
            && Sum(LiveOnes(p.runners)) + p.signals == size
            && x < size && |p.runners| == size
            && (Can(p, Signal(x)) || (Can(p, Finish(x)) && Can(Do(p, Finish(x)), Signal(x))))
  {
    CountedRun(size, capacity, moves);
    var p := Played(Started(size, capacity), moves);
    SumZero(LiveOnes(p.runners));
    x :| x < |p.runners| && LiveOnes(p.runners)[x] != 0;
  }

  /** When Stop returns every worker has returned, each on exactly one signal. */
  lemma StopStopsAll<T>(size: nat, capacity: nat, moves: seq<Move<T>>)
    requires Plays(Started(size, capacity), moves) && Played(Started(size, capacity), moves).signals == size
    ensures var p := Played(Started(size, capacity), moves);
            |p.runners| == |p.took| == size
            && forall x :: 0 <= x < size ==> p.runners[x].Stopped? && p.took[x] == 1
  {
    CountedRun(size, capacity, moves);
    var p := Played(Started(size, capacity), moves);
    SumZero(LiveOnes(p.runners));
    forall x | 0 <= x < size ensures p.runners[x].Stopped? && p.took[x] == 1 {
      assert LiveOnes(p.runners)[x] == 0;
    }
  }

  // ----- Data -----

  ghost function InHand<T>(f: T -> nat, rs: seq<Runner<T>>): (r: seq<nat>)
    ensures |r| == |rs|
  {
    seq(|rs|, x requires 0 <= x < |rs| => if rs[x].Busy? then f(rs[x].data) else 0)
  }

  lemma OneInHand<T>(f: T -> nat, rs: seq<Runner<T>>, x: nat, r: Runner<T>)
    requires x < |rs|
    ensures Sum(InHand(f, rs[x := r])) + InHand(f, rs)[x] == Sum(InHand(f, rs)) + if r.Busy? then f(r.data) else 0
  {
    var v := if r.Busy? then f(r.data) else 0;
    SumUpdate(InHand(f, rs), x, v);
    assert InHand(f, rs[x := r]) == InHand(f, rs)[x := v];
  }

  ghost predicate Conserved<T>(f: T -> nat, p: Pool<T>) {
    Mass(f, p.enqueued) == Mass(f, p.finished) + Sum(InHand(f, p.runners)) + Mass(f, p.queue)
  }

  lemma ConservedStep<T>(f: T -> nat, p: Pool<T>, mv: Move<T>)
    requires Conserved(f, p) && Can(p, mv)
    ensures Conserved(f, Do(p, mv))
  {
    if mv.HandOver? || mv.Dequeue? || mv.Finish? || mv.Signal? {
      OneInHand(f, p.runners, mv.x, Do(p, mv).runners[mv.x]);
    }
    if mv.HandOver? || mv.Enqueue? {
      MassAppend(f, p.enqueued, mv.data);
    }
    if mv.Enqueue? {
      MassAppend(f, p.queue, mv.data);
    } else if mv.Dequeue? {
      MassFront(f, p.queue);
    } else if mv.Finish? {
      MassAppend(f, p.finished, p.runners[mv.x].data);
    }
  }

  /** Whatever data is weighed by: what was enqueued is what was finished, is in hand, or is queued. */
  lemma {:induction false} DataConserved<T>(f: T -> nat, size: nat, capacity: nat, moves: seq<Move<T>>)
    requires Plays(Started(size, capacity), moves)
    ensures Conserved(f, Played(Started(size, capacity), moves))
  {
    if moves == [] {
      SumZero(InHand(f, Started<T>(size, capacity).runners));
    } else {
      DataConserved(f, size, capacity, moves[..|moves| - 1]);
      ConservedStep(f, Played(Started(size, capacity), moves[..|moves| - 1]), moves[|moves| - 1]);
    }
  }

  ghost predicate InSequence<T>(p: Pool<T>) {
    && |p.runners| == 1
    && p.enqueued == p.finished + (if p.runners[0].Busy? then [p.runners[0].data] else []) + p.queue
  }

  lemma SequenceStep<T>(p: Pool<T>, mv: Move<T>)
    requires InSequence(p) && Can(p, mv)
    ensures InSequence(Do(p, mv))
  {
    if mv.Dequeue? {
      assert p.queue == [p.queue[0]] + p.queue[1..];
    }
  }

  /** A single worker runs the task on the data in the order in which it was sent. */
  lemma {:induction false} SingleWorkerOrder<T>(capacity: nat, moves: seq<Move<T>>)
    requires Plays(Started(1, capacity), moves)
    ensures InSequence(Played(Started(1, capacity), moves))
  {
    if moves != [] {
      SingleWorkerOrder(capacity, moves[..|moves| - 1]);
      SequenceStep(Played(Started(1, capacity), moves[..|moves| - 1]), moves[|moves| - 1]);
    }
  }

  /** What Stop loses is exactly what is still in the channel's buffer when the last worker returns. */
  lemma StopLosesQueued<T>(f: T -> nat, size: nat, capacity: nat, moves: seq<Move<T>>)
    requires Plays(Started(size, capacity), moves) && Played(Started(size, capacity), moves).signals == size
    ensures var p := Played(Started(size, capacity), moves);
            Mass(f, p.enqueued) == Mass(f, p.finished) + Mass(f, p.queue)
  {
    StopStopsAll(size, capacity, moves);
    DataConserved(f, size, capacity, moves);
    SumZero(InHand(f, Played(Started(size, capacity), moves).runners));
  }

  /** The buffer holds no more than its capacity, and nobody takes a signal before Stop sends it. */
  lemma {:induction false} WithinCapacity<T>(size: nat, capacity: nat, moves: seq<Move<T>>)
    requires Plays(Started(size, capacity), moves)
    ensures var p := Played(Started(size, capacity), moves);
            p.capacity == capacity && |p.queue| <= capacity && (p.signals > 0 ==> p.stopping)
  {
    if moves != [] {
      WithinCapacity(size, capacity, moves[..|moves| - 1]);
    }
  }

  /** With an unbuffered channel, as in front of Elasticsearch, Stop loses nothing that was handed over. */
  lemma UnbufferedStopLosesNothing<T>(f: T -> nat, size: nat, moves: seq<Move<T>>)
    requires Plays(Started(size, 0), moves) && Played(Started(size, 0), moves).signals == size
    ensures var p := Played(Started(size, 0), moves); p.queue == [] && Mass(f, p.enqueued) == Mass(f, p.finished)
  {
    WithinCapacity(size, 0, moves);
    StopLosesQueued(f, size, 0, moves);
  }

  // ----- What can happen -----

  lemma PlaysOn<T>(p: Pool<T>, moves: seq<Move<T>>, mv: Move<T>)
    requires Plays(p, moves) && Can(Played(p, moves), mv)
    ensures Plays(p, moves + [mv]) && Played(p, moves + [mv]) == Do(Played(p, moves), mv)
  {
    assert (moves + [mv])[..|moves|] == moves;
  }

  /** Steps of the workers alone. */
  ghost predicate Working<T>(before: seq<Move<T>>, after: seq<Move<T>>) {
    before <= after && forall i :: |before| <= i < |after| ==> after[i].Dequeue? || after[i].Finish?
  }

  lemma WorkingOn<T>(p: Pool<T>, before: seq<Move<T>>, after: seq<Move<T>>, mv: Move<T>)
    requires Plays(p, after) && Working(before, after) && Can(Played(p, after), mv) && (mv.Dequeue? || mv.Finish?)
    ensures Plays(p, after + [mv]) && Working(before, after + [mv])
    ensures Played(p, after + [mv]) == Do(Played(p, after), mv)
  {
    PlaysOn(p, after, mv);
  }

  ghost function BusyOnes<T>(rs: seq<Runner<T>>): (r: seq<nat>)
    ensures |r| == |rs|
  {
    seq(|rs|, x requires 0 <= x < |rs| => if rs[x].Busy? then 1 else 0)
  }

  lemma FinishOne<T>(p: Pool<T>, moves: seq<Move<T>>, x: nat)
    requires Plays(p, moves) && x < |Played(p, moves).runners| && Played(p, moves).runners[x].Busy?
    ensures Plays(p, moves + [Finish(x)])
    ensures var q, q' := Played(p, moves), Played(p, moves + [Finish(x)]);
            && q'.runners == q.runners[x := Waiting] && q'.queue == q.queue && q'.enqueued == q.enqueued
            && Sum(BusyOnes(q'.runners)) < Sum(BusyOnes(q.runners))
  {
    var q := Played(p, moves);
    PlaysOn(p, moves, Finish(x));
    SumUpdate(BusyOnes(q.runners), x, 0);
    assert BusyOnes(q.runners[x := Waiting]) == BusyOnes(q.runners)[x := 0];
  }

  /** Every worker finishes what it has in hand. */
  lemma {:induction false} FinishAll<T>(p: Pool<T>, moves: seq<Move<T>>) returns (all: seq<Move<T>>)
    requires Plays(p, moves)
    ensures Plays(p, all) && Working(moves, all)
    ensures var q, q' := Played(p, moves), Played(p, all);
            && |q'.runners| == |q.runners| && q'.queue == q.queue && q'.enqueued == q.enqueued
            && (forall x :: 0 <= x < |q.runners| ==>
                  !q'.runners[x].Busy? && (q'.runners[x].Stopped? <==> q.runners[x].Stopped?))
    decreases Sum(BusyOnes(Played(p, moves).runners))
  {
    if x: nat :| x < |Played(p, moves).runners| && Played(p, moves).runners[x].Busy? {
      FinishOne(p, moves, x);
      all := FinishAll(p, moves + [Finish(x)]);
    } else {
      all := moves;
    }
  }

  /** A waiting worker empties the queue. */
  lemma {:induction false} EmptyQueue<T>(p: Pool<T>, moves: seq<Move<T>>, x: nat) returns (all: seq<Move<T>>)
    requires Plays(p, moves) && x < |Played(p, moves).runners| && Played(p, moves).runners[x].Waiting?
    ensures Plays(p, all) && Working(moves, all)
    ensures var q, q' := Played(p, moves), Played(p, all);
            q'.runners == q.runners && q'.queue == [] && q'.enqueued == q.enqueued
    decreases |Played(p, moves).queue|
  {
    var q := Played(p, moves);
    if q.queue == [] {
      all := moves;
    } else {
      WorkingOn(p, moves, moves, Dequeue(x));
      var next := moves + [Dequeue(x)];
      WorkingOn(p, moves, next, Finish(x));
      all := EmptyQueue(p, next + [Finish(x)], x);
      assert Played(p, next + [Finish(x)]).runners == q.runners;
    }
  }

  /**
   * As long as Stop has a signal left, the workers can finish everything sent so far by themselves, and then some
   * worker takes the next data at once, whatever the capacity.
   */
  lemma PoolCanFinish<T>(f: T -> nat, size: nat, capacity: nat, moves: seq<Move<T>>, d: T)
    returns (all: seq<Move<T>>, x: nat)
    requires Plays(Started(size, capacity), moves) && Played(Started(size, capacity), moves).signals < size
    ensures Plays(Started(size, capacity), all) && Working(moves, all)
    ensures var p, p' := Played(Started(size, capacity), moves), Played(Started(size, capacity), all);
            && p'.enqueued == p.enqueued && p'.queue == [] && Mass(f, p'.finished) == Mass(f, p'.enqueued)
            && Can(p', HandOver(x, d))
  {
    var start := Started<T>(size, capacity);
    CountedRun(size, capacity, moves);
    SumZero(LiveOnes(Played(start, moves).runners));
    x :| x < |Played(start, moves).runners| && LiveOnes(Played(start, moves).runners)[x] != 0;
    var mid := FinishAll(start, moves);
    all := EmptyQueue(start, mid, x);
    DataConserved(f, size, capacity, all);
    SumZero(InHand(f, Played(start, all).runners));
  }

  /** All data in the buffer. */
  lemma {:induction false} Fill<T>(size: nat, capacity: nat, data: seq<T>) returns (moves: seq<Move<T>>)
    requires |data| <= capacity
    ensures Plays(Started(size, capacity), moves)
    ensures Played(Started(size, capacity), moves) == Started(size, capacity).(queue := data, enqueued := data)
  {
    if data == [] {
      moves := [];
    } else {
      var last := |data| - 1;
      moves := Fill(size, capacity, data[..last]);
      PlaysOn(Started(size, capacity), moves, Enqueue(data[last]));
      moves := moves + [Enqueue(data[last])];
      assert data[..last] + [data[last]] == data;
    }
  }

  /** The workers take the signals of Stop, one after the other. */
  lemma {:induction false} SignalAll<T>(start: Pool<T>, moves: seq<Move<T>>, n: nat) returns (all: seq<Move<T>>)
    requires Plays(start, moves)
    requires var p := Played(start, moves);
             && p.stopping && |p.runners| == |p.took| == p.size && n <= p.size && p.signals == n
             && forall x :: n <= x < p.size ==> p.runners[x].Waiting?
    ensures Plays(start, all)
    ensures var p, p' := Played(start, moves), Played(start, all);
            p'.signals == p.size && p'.queue == p.queue && p'.enqueued == p.enqueued && p'.finished == p.finished
    decreases Played(start, moves).size - n
  {
    if n == Played(start, moves).size {
      all := moves;
    } else {
      PlaysOn(start, moves, Signal(n));
      all := SignalAll(start, moves + [Signal(n)], n + 1);
    }
  }

  /** Stop may lose as much as the buffer holds: the workers may all take their signals and leave the data. */
  lemma StopMayLoseAll<T>(size: nat, capacity: nat, data: seq<T>) returns (moves: seq<Move<T>>)
    requires |data| <= capacity
    ensures Plays(Started(size, capacity), moves)
    ensures var p := Played(Started(size, capacity), moves);
            p.signals == size && p.enqueued == data && p.queue == data && p.finished == []
  {
    var start := Started<T>(size, capacity);
    var filled := Fill(size, capacity, data);
    PlaysOn(start, filled, CallStop);
    moves := SignalAll(start, filled + [CallStop], 0);
  }
}
