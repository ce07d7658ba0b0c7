/**
 * The pipeline over payload objects: clones come from a pool of recycled objects, share their Value map with
 * the original, and are put back when marked as processed.  The machine here has only references in its
 * goroutines; that every reference still means the payload value it stands for is proved, not assumed.
 */
module Ownership {
  import opened Payloads
  import opened Control
  import D = Dataflow

  type Addr = nat

  /** A payload struct; its Value field is the reference `ref`, and `fields.value` is unused. */
  datatype Struct = Struct(fields: Payload, ref: Option<nat>)

  /** A clone handed to a storage: still to be written, or written with what was read then. */
  datatype Slot = Queued(item: Item<Addr>) | Stored(payload: Payload)

  datatype World = World(
    ctl: State<Addr>,
    heap: map<Addr, Struct>,   // every payload struct ever allocated
    pool: set<Addr>,
    maps: map<nat, Fields>,    // the Value maps, numbered like the payloads they were decoded for
    queue: seq<seq<Slot>>)     // queue[j]: every clone handed to storage j

  ghost function Start(c: Config): World {
    World(Init(c), map[], {}, map[], seq(c.m, _ => []))
  }

  ghost function ZeroOf(p: Payload): Payload {
    match p
    case Kafka(_, _, _, _, _, _, _, _, _) => Kafka("", 0, 0, "", None, 0, "", "", "")
    case RabbitMQ(_, _, _, _, _, _, _, _, _, _, _) => RabbitMQ(0, "", "", "", "", "", None, 0, "", "", "")
    case NoPayload => NoPayload
  }

  ghost predicate SameKind(a: Payload, b: Payload) {
    (a.Kafka? <==> b.Kafka?) && (a.RabbitMQ? <==> b.RabbitMQ?)
  }

  /** The payload with that value and that timestamp. */
  ghost function With(p: Payload, value: Option<Fields>, timestamp: Time): Payload {
    match p
    case NoPayload => NoPayload
    case Kafka(topic, part, off, key, _, _, index, docID, data) =>
      Kafka(topic, part, off, key, value, timestamp, index, docID, data)
    case RabbitMQ(id, email, gender, first, last, queue, _, _, index, docID, data) =>
      RabbitMQ(id, email, gender, first, last, queue, value, timestamp, index, docID, data)
  }

  ghost function TimeOf(p: Payload): Time {
    match p
    case Kafka(_, _, _, _, _, t, _, _, _) => t
    case RabbitMQ(_, _, _, _, _, _, _, t, _, _, _) => t
    case NoPayload => 0
  }

  ghost function ValueOf(p: Payload): Option<Fields> {
    match p
    case Kafka(_, _, _, _, v, _, _, _, _) => v
    case RabbitMQ(_, _, _, _, _, _, v, _, _, _, _) => v
    case NoPayload => None
  }

  ghost function Attach(p: Payload, value: Option<Fields>): Payload {
    With(p, value, TimeOf(p))
  }

  ghost predicate Readable(w: World, a: Addr) {
    a in w.heap && !w.heap[a].fields.NoPayload? && (w.heap[a].ref.Some? ==> w.heap[a].ref.value in w.maps)
  }

  /** The payload value a reader of object a sees. */
  ghost function Look(w: World, a: Addr): Payload
    requires Readable(w, a)
  {
    var o := w.heap[a];
    Attach(o.fields, if o.ref.Some? then Some(w.maps[o.ref.value]) else None)
  }

  /** sync.Pool.Get: a pooled object of that type, or a new zero one. */
  ghost predicate Gettable(w: World, a: Addr, like: Payload) {
    if a in w.heap then a in w.pool && SameKind(w.heap[a].fields, like) else true
  }

  /** What the pooled object's fields are before Clone assigns to them. */
  ghost function Recycled(w: World, a: Addr, like: Payload): Payload {
    if a in w.heap then w.heap[a].fields else ZeroOf(like)
  }

  /** Clone's assignments: every field but the timestamp of a Kafka payload, which stays what it was. */
  ghost function Fill(stale: Payload, from: Payload): Payload {
    if from.Kafka? then With(from, ValueOf(from), TimeOf(stale)) else from
  }

  ghost function Clone(w: World, a: Addr, into: Addr): World
    requires a in w.heap
  {
    var filled := Fill(Recycled(w, into, w.heap[a].fields), w.heap[a].fields);
    w.(heap := w.heap[into := Struct(filled, w.heap[a].ref)], pool := w.pool - {into})
  }

  ghost function MarkAsProcessed(w: World, a: Addr): World
    requires a in w.heap
  {
    w.(heap := w.heap[a := Struct(ZeroOf(w.heap[a].fields), None)], pool := w.pool + {a})
  }

  /** The processor's writes: to the struct it was given, and into the map its Value field refers to. */
  ghost function Write(w: World, a: Addr, out: Payload): World
    requires a in w.heap
  {
    var o := w.heap[a];
    w.(heap := w.heap[a := Struct(Attach(out, None), o.ref)],
       maps := if o.ref.Some? && ValueOf(out).Some?
               then w.maps[o.ref.value := ValueOf(out).value] else w.maps)
  }

  ghost function Scribble(w: World, a: Addr, left: Fields): World
    requires a in w.heap
  {
    if w.heap[a].ref.Some? then w.(maps := w.maps[w.heap[a].ref.value := left]) else w
  }

  /** Processors change payloads in place: same struct, same Value map. */
  ghost predicate InPlace(p: D.Program) {
    forall k, q, body :: p.proc(k, q, body).Out? && !p.proc(k, q, body).payload.NoPayload? && !body.NoPayload?
      ==> && SameKind(body, p.proc(k, q, body).payload)
          && (ValueOf(body).Some? <==> ValueOf(p.proc(k, q, body).payload).Some?)
  }

  datatype Action =
    | Take(a: Addr, message: Payload)                              // the source decodes a message into a new struct
    | Process(x: nat, clone: Addr, emission: Emission, left: Fields)
    | Send(x: nat, y: nat, clone: Addr)
    | Deliver(x: nat, j: nat, clone: Addr)
    | Drain(j: nat, clone: Addr)
    | Other(step: Label<Addr>)                                     // steps that do not touch payload objects
    | StorageWrite(j: nat, i: nat)
    | Evict(a: Addr)                                               // the garbage collector empties the pool

  ghost predicate Ready(c: Config, w: World) {
    Shaped(c, w.ctl) && |w.queue| == c.m
  }

  ghost predicate Touches<V>(l: Label<V>) {
    l.SourceTake? || l.WorkerProcess? || l.WorkerSend? || l.WorkerDeliver? || l.SinkDrain?
  }

  ghost predicate CanGet(w: World, a: Addr, clone: Addr) {
    Readable(w, a) && Gettable(w, clone, w.heap[a].fields)
  }

  /** What the processor of stage k answers for the clone of item it. */
  ghost function Answer(p: D.Program, w: World, k: nat, it: Item<Addr>, clone: Addr): D.Result
    requires CanGet(w, it.body, clone)
  {
    var w1 := Clone(w, it.body, clone);
    if Readable(w1, clone) then p.proc(k, it.id, Look(w1, clone)) else D.Error
  }

  ghost function VerdictFor(r: D.Result, clone: Addr, e: Emission): Verdict<Addr> {
    match r
    case Error => Fail(e)
    case Out(out) => if out.NoPayload? then Discard else Forward(clone)
  }

  /** The step of the goroutine machine by which worker x processes its item, in clone. */
  ghost function Judgement(p: D.Program, w: World, x: nat, clone: Addr, e: Emission): Label<Addr>
    requires Ready(p.c, w) && x < |w.ctl.workers| && w.ctl.workers[x].Processing?
    requires CanGet(w, w.ctl.workers[x].item.body, clone)
  {
    WorkerProcess(x, VerdictFor(Answer(p, w, p.c.stageOf[x], w.ctl.workers[x].item, clone), clone, e))
  }

  ghost predicate Possible(p: D.Program, w: World, act: Action)
    requires Ready(p.c, w)
  {
    match act
    case Take(a, message) => Enabled(p.c, w.ctl, SourceTake(a)) && a !in w.heap && !message.NoPayload?
    case Process(x, clone, e, _) =>
      && x < |w.ctl.workers| && w.ctl.workers[x].Processing?
      && CanGet(w, w.ctl.workers[x].item.body, clone)
      && Enabled(p.c, w.ctl, Judgement(p, w, x, clone, e))
    case Send(x, y, clone) =>
      Enabled(p.c, w.ctl, WorkerSend(x, y, clone)) && CanGet(w, w.ctl.workers[x].item.body, clone)
    case Deliver(x, j, clone) =>
      Enabled(p.c, w.ctl, WorkerDeliver(x, j, clone)) && CanGet(w, w.ctl.workers[x].item.body, clone)
    case Drain(j, clone) =>
      Enabled(p.c, w.ctl, SinkDrain(j, clone)) && CanGet(w, w.ctl.sinks[j].item.body, clone)
    case Other(l) => Enabled(p.c, w.ctl, l) && !Touches(l)
    case StorageWrite(j, i) =>
      j < p.c.m && i < |w.queue[j]| && w.queue[j][i].Queued? && Readable(w, w.queue[j][i].item.body)
    case Evict(a) => a in w.pool
  }

  ghost function Receive(w: World, a: Addr, message: Payload): World {
    var q := |w.ctl.taken|;
    var value := ValueOf(message);
    w.(heap := w.heap[a := Struct(Attach(message, None), if value.Some? then Some(q) else None)],
       maps := if value.Some? then w.maps[q := value.value] else w.maps)
  }

  /** The body of the fifo loop up to the broadcast: clone, process, and recycle the input if nothing came out. */
  ghost function Digest(w: World, from: Addr, clone: Addr, r: D.Result, left: Fields): World
    requires CanGet(w, from, clone)
  {
    var w1 := Clone(w, from, clone);
    match r
    case Error => Scribble(w1, clone, left)
    case Out(out) =>
      if out.NoPayload? then MarkAsProcessed(Scribble(w1, clone, left), from) else Write(w1, clone, out)
  }

  ghost function Perform(p: D.Program, w: World, act: Action): (w': World)
    requires Ready(p.c, w) && Possible(p, w, act)
    ensures Ready(p.c, w')
  {
    match act
    case Take(a, message) => Receive(w, a, message).(ctl := Apply(p.c, w.ctl, SourceTake(a)))
    case Process(x, clone, e, left) =>
      var it := w.ctl.workers[x].item;
      Digest(w, it.body, clone, Answer(p, w, p.c.stageOf[x], it, clone), left)
        .(ctl := Apply(p.c, w.ctl, Judgement(p, w, x, clone, e)))
    case Send(x, y, clone) =>
      Clone(w, w.ctl.workers[x].item.body, clone).(ctl := Apply(p.c, w.ctl, WorkerSend(x, y, clone)))
    case Deliver(x, j, clone) =>
      Clone(w, w.ctl.workers[x].item.body, clone).(ctl := Apply(p.c, w.ctl, WorkerDeliver(x, j, clone)))
    case Drain(j, clone) =>
      var it := w.ctl.sinks[j].item;
      MarkAsProcessed(Clone(w, it.body, clone), it.body)
        .(queue := Append(w.queue, j, Queued(Item(it.id, clone))), ctl := Apply(p.c, w.ctl, SinkDrain(j, clone)))
    case Other(l) => w.(ctl := Apply(p.c, w.ctl, l))
    case StorageWrite(j, i) =>
      w.(queue := w.queue[j := w.queue[j][i := Stored(Look(w, w.queue[j][i].item.body))]])
    case Evict(a) => w.(pool := w.pool - {a})
  }

  ghost predicate Runs(p: D.Program, acts: seq<Action>)
    requires Wired(p.c)
    decreases acts, 0
  {
    acts == [] || (Runs(p, acts[..|acts| - 1]) && Possible(p, Reach(p, acts[..|acts| - 1]), acts[|acts| - 1]))
  }

  ghost function Reach(p: D.Program, acts: seq<Action>): (w: World)
    requires Wired(p.c) && Runs(p, acts)
    ensures Ready(p.c, w)
    decreases acts, 1
  {
    if acts == [] then Start(p.c) else Perform(p, Reach(p, acts[..|acts| - 1]), acts[|acts| - 1])
  }

  lemma RunsOn(p: D.Program, acts: seq<Action>, act: Action)
    requires Wired(p.c) && Runs(p, acts) && Possible(p, Reach(p, acts), act)
    ensures Runs(p, acts + [act]) && Reach(p, acts + [act]) == Perform(p, Reach(p, acts), act)
  {
    assert (acts + [act])[..|acts|] == acts;
  }
}
