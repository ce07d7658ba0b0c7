/** Who may read or write which payload object and Value map. */
module PoolSafety {
  import opened Payloads
  import opened Control
  import D = Dataflow
  import opened Ownership

  /** Everyone who will still read a payload object. */
  datatype Holder = AtSource | AtWorker(x: nat) | AtSink(j: nat) | AtStorage(s: nat, i: nat)

  ghost function ItemOf(w: World, h: Holder): Option<Item<Addr>> {
    match h
    case AtSource => if w.ctl.source.Sending? then Some(w.ctl.source.item) else None
    case AtWorker(x) =>
      if x < |w.ctl.workers| && (w.ctl.workers[x].Processing? || w.ctl.workers[x].Broadcasting?)
      then Some(w.ctl.workers[x].item) else None
    case AtSink(j) =>
      if j < |w.ctl.sinks| && w.ctl.sinks[j].Draining? then Some(w.ctl.sinks[j].item) else None
    case AtStorage(j, i) =>
      if j < |w.queue| && i < |w.queue[j]| && w.queue[j][i].Queued? then Some(w.queue[j][i].item) else None
  }

  /** The holder is behind the last processor. */
  ghost predicate Behind(c: Config, w: World, h: Holder) {
    match h
    case AtSource => false
    case AtWorker(x) =>
      x < |w.ctl.workers| && x < |c.stageOf| && c.stageOf[x] + 1 == c.n && w.ctl.workers[x].Broadcasting?
    case _ => true
  }

  ghost predicate HeldWell(w: World, it: Item<Addr>) {
    && Readable(w, it.body) && it.body !in w.pool && it.id < |w.ctl.taken|
    && (w.heap[it.body].ref.Some? ==> w.heap[it.body].ref.value == it.id)
  }

  /** Nobody holds a pooled object, and a held object's Value map is the one decoded for its payload. */
  ghost predicate Owned(w: World) {
    forall h :: ItemOf(w, h).Some? ==> HeldWell(w, ItemOf(w, h).value)
  }

  /** No two holders hold the same object. */
  ghost predicate Apart(w: World) {
    forall h, g :: ItemOf(w, h).Some? && ItemOf(w, g).Some? && h != g
      ==> ItemOf(w, h).value.body != ItemOf(w, g).value.body
  }

  /** Only behind the last processor do two holders hold clones of the same payload. */
  ghost predicate Linear(c: Config, w: World) {
    forall h, g :: ItemOf(w, h).Some? && ItemOf(w, g).Some? && h != g && ItemOf(w, h).value.id == ItemOf(w, g).value.id
      ==> Behind(c, w, h)
  }

  /** The two payload structs with all fields zero. */
  ghost predicate IsZero(o: Struct) {
    && o.ref == None
    && (|| o.fields == Kafka("", 0, 0, "", None, 0, "", "", "")
        || o.fields == RabbitMQ(0, "", "", "", "", "", None, 0, "", "", ""))
  }

  /** Every pooled object has all fields zero. */
  ghost predicate PoolZero(w: World) {
    forall a :: a in w.pool ==> a in w.heap && IsZero(w.heap[a])
  }

  ghost predicate Safe(c: Config, w: World) {
    Ready(c, w) && Owned(w) && Apart(w) && Linear(c, w) && PoolZero(w)
  }

  /** Everyone but `except` sees in w' what they saw in w. */
  ghost predicate LooksKept(w: World, w': World, except: Option<Holder>) {
    forall h :: ItemOf(w, h).Some? && Some(h) != except ==>
      && Readable(w, ItemOf(w, h).value.body) && Readable(w', ItemOf(w, h).value.body)
      && Look(w', ItemOf(w, h).value.body) == Look(w, ItemOf(w, h).value.body)
  }

  // ----- The heap operations -----

  /** A clone depends only on the payload cloned, and touches no object anyone holds. */
  lemma CloneMeans(w: World, a: Addr, clone: Addr)
    requires PoolZero(w) && CanGet(w, a, clone) && a !in w.pool
    ensures var w' := Clone(w, a, clone);
            && PoolZero(w') && clone !in w'.pool && clone != a
            && Readable(w', clone) && Look(w', clone) == CloneOf(Look(w, a)) && w'.heap[clone].ref == w.heap[a].ref
            && (forall b :: b != clone && Readable(w, b) ==> Readable(w', b) && Look(w', b) == Look(w, b))
  {
  }

  lemma CloneIsUnheld(w: World, a: Addr, clone: Addr, h: Holder)
    requires Owned(w) && CanGet(w, a, clone) && ItemOf(w, h).Some?
    ensures ItemOf(w, h).value.body != clone
  {
  }

  lemma RecycleMeans(w: World, a: Addr)
    requires PoolZero(w) && Readable(w, a)
    ensures var w' := MarkAsProcessed(w, a);
            && PoolZero(w')
            && (forall b :: b != a && Readable(w, b) ==> Readable(w', b) && Look(w', b) == Look(w, b))
  {
  }

  // ----- Every action keeps the pool safe -----

  /** Everyone but these two holds what it held, as well as before. */
  ghost predicate OthersKeep(c: Config, w: World, w': World, from: Holder, to: Holder) {
    forall h :: h != from && h != to ==>
      && ItemOf(w', h) == ItemOf(w, h)
      && (Behind(c, w, h) ==> Behind(c, w', h))
      && (ItemOf(w, h).Some? ==> HeldWell(w', ItemOf(w, h).value))
  }

  /** A clone of what `from` holds passes to `to`; `from` lets its own go, or keeps it behind the last processor. */
  lemma SafeHandOver(c: Config, w: World, w': World, from: Holder, to: Holder, it: Item<Addr>, clone: Addr)
    requires Safe(c, w) && Ready(c, w') && PoolZero(w') && from != to
    requires ItemOf(w, from) == Some(it) && ItemOf(w', to) == Some(Item(it.id, clone))
    requires ItemOf(w', from) == None || (ItemOf(w', from) == Some(it) && HeldWell(w', it) && Behind(c, w', from))
    requires OthersKeep(c, w, w', from, to) && HeldWell(w', Item(it.id, clone))
    requires forall h :: ItemOf(w, h).Some? ==> ItemOf(w, h).value.body != clone
    requires Behind(c, w, from) || ItemOf(w', from).Some? ==> Behind(c, w', to)
    ensures Safe(c, w')
  {
    forall h, g | ItemOf(w', h).Some? && ItemOf(w', g).Some? && h != g
      ensures ItemOf(w', h).value.body != ItemOf(w', g).value.body
    {
      assert h != to ==> ItemOf(w, h) == ItemOf(w', h);
      assert g != to ==> ItemOf(w, g) == ItemOf(w', g);
    }
    forall h, g | ItemOf(w', h).Some? && ItemOf(w', g).Some? && h != g
                  && ItemOf(w', h).value.id == ItemOf(w', g).value.id
      ensures Behind(c, w', h)
    {
      var h0 := if h == to then from else h;
      var g0 := if g == to then from else g;
      assert ItemOf(w, h0).Some? && ItemOf(w, h0).value.id == ItemOf(w', h).value.id;
      assert ItemOf(w, g0).Some? && ItemOf(w, g0).value.id == ItemOf(w', g).value.id;
    }
  }

  lemma SafeTake(p: D.Program, w: World, act: Action)
    requires Safe(p.c, w) && act.Take? && Possible(p, w, act)
    ensures StaysSafe(p, w, act)
  {
    var Take(a, message) := act;
    var w' := Perform(p, w, act);
    assert forall h :: h != AtSource ==> ItemOf(w', h) == ItemOf(w, h);
    assert ItemOf(w', AtSource) == Some(Item(|w.ctl.taken|, a));
    assert forall h :: h != AtSource ==> (Behind(p.c, w', h) <==> Behind(p.c, w, h));
  }

  lemma KeptByClone(w: World, w': World, a: Addr, clone: Addr)
    requires Owned(w) && PoolZero(w) && CanGet(w, a, clone) && a !in w.pool
    requires var w1 := Clone(w, a, clone); w'.heap == w1.heap && w'.maps == w1.maps && w'.pool == w1.pool
    requires |w'.ctl.taken| == |w.ctl.taken|
    ensures forall h :: ItemOf(w, h).Some? ==> HeldWell(w', ItemOf(w, h).value) && ItemOf(w, h).value.body != clone
    ensures LooksKept(w, w', None)
  {
    CloneMeans(w, a, clone);
    forall h | ItemOf(w, h).Some?
      ensures HeldWell(w', ItemOf(w, h).value) && ItemOf(w, h).value.body != clone
      ensures Look(w', ItemOf(w, h).value.body) == Look(w, ItemOf(w, h).value.body)
    {
      CloneIsUnheld(w, a, clone, h);
    }
  }

  lemma SafeSend(p: D.Program, w: World, act: Action)
    requires Safe(p.c, w) && act.Send? && Possible(p, w, act)
    ensures StaysSafe(p, w, act)
  {
    var Send(x, y, clone) := act;
    var w' := Perform(p, w, act);
    var it := w.ctl.workers[x].item;
    assert ItemOf(w, AtWorker(x)) == Some(it);
    CloneMeans(w, it.body, clone);
    KeptByClone(w, w', it.body, clone);
    assert OthersKeep(p.c, w, w', AtWorker(x), AtWorker(y));
    SafeHandOver(p.c, w, w', AtWorker(x), AtWorker(y), it, clone);
  }

  lemma SafeDeliver(p: D.Program, w: World, act: Action)
    requires Safe(p.c, w) && act.Deliver? && Possible(p, w, act)
    ensures StaysSafe(p, w, act)
  {
    var Deliver(x, j, clone) := act;
    var w' := Perform(p, w, act);
    var it := w.ctl.workers[x].item;
    assert ItemOf(w, AtWorker(x)) == Some(it);
    CloneMeans(w, it.body, clone);
    KeptByClone(w, w', it.body, clone);
    assert OthersKeep(p.c, w, w', AtWorker(x), AtSink(j));
    SafeHandOver(p.c, w, w', AtWorker(x), AtSink(j), it, clone);
  }

  /** What a sink's step does to the objects: the clone is new, the payload is pooled, nobody else is touched. */
  lemma DrainObjects(p: D.Program, w: World, j: nat, clone: Addr)
    requires Safe(p.c, w) && Possible(p, w, Drain(j, clone))
    ensures var it, w' := w.ctl.sinks[j].item, Perform(p, w, Drain(j, clone));
            && PoolZero(w') && Readable(w', clone) && clone != it.body && clone !in w'.pool
            && (w'.heap[clone].ref.Some? ==> w'.heap[clone].ref.value == it.id)
            && (forall h :: h != AtSink(j) && ItemOf(w, h).Some? ==>
                  && ItemOf(w, h).value.body != clone && HeldWell(w', ItemOf(w, h).value)
                  && Look(w', ItemOf(w, h).value.body) == Look(w, ItemOf(w, h).value.body))
  {
    var it := w.ctl.sinks[j].item;
    var w1 := Clone(w, it.body, clone);
    assert ItemOf(w, AtSink(j)) == Some(it);
    CloneMeans(w, it.body, clone);
    KeptByClone(w, w1, it.body, clone);
    RecycleMeans(w1, it.body);
    forall h | ItemOf(w, h).Some? ensures ItemOf(w, h).value.body != clone {
      CloneIsUnheld(w, it.body, clone, h);
    }
  }

  lemma DrainHolders(p: D.Program, w: World, j: nat, clone: Addr)
    requires Safe(p.c, w) && Possible(p, w, Drain(j, clone))
    ensures var w', it, slot := Perform(p, w, Drain(j, clone)), w.ctl.sinks[j].item, AtStorage(j, |w.queue[j]|);
            && ItemOf(w, AtSink(j)) == Some(it) && ItemOf(w', AtSink(j)) == None
            && ItemOf(w', slot) == Some(Item(it.id, clone))
            && (forall h :: h != AtSink(j) && h != slot ==> ItemOf(w', h) == ItemOf(w, h))
            && (forall h :: Behind(p.c, w, h) ==> Behind(p.c, w', h))
            && w'.ctl.taken == w.ctl.taken
  {
  }

  lemma SafeDrain(p: D.Program, w: World, j: nat, clone: Addr)
    requires Safe(p.c, w) && Possible(p, w, Drain(j, clone))
    ensures StaysSafe(p, w, Drain(j, clone))
    ensures LooksKept(w, Perform(p, w, Drain(j, clone)), Some(AtSink(j)))
  {
    var w' := Perform(p, w, Drain(j, clone));
    var it, slot := w.ctl.sinks[j].item, AtStorage(j, |w.queue[j]|);
    DrainObjects(p, w, j, clone);
    DrainHolders(p, w, j, clone);
    assert OthersKeep(p.c, w, w', AtSink(j), slot);
    SafeHandOver(p.c, w, w', AtSink(j), slot, it, clone);
  }

  /** The processor changes only the clone and the payload's own Value map. */
  lemma DigestMeans(w: World, it: Item<Addr>, clone: Addr, r: D.Result, left: Fields)
    requires PoolZero(w) && HeldWell(w, it) && CanGet(w, it.body, clone)
    ensures var w' := Digest(w, it.body, clone, r, left);
            && PoolZero(w') && clone !in w'.pool && w'.ctl == w.ctl && w'.queue == w.queue
            && w'.pool <= w.pool + {it.body}
            && (forall b :: b != clone && b != it.body && Readable(w, b) && w.heap[b].ref != Some(it.id)
                  ==> Readable(w', b) && Look(w', b) == Look(w, b) && w'.heap[b] == w.heap[b])
  {
    CloneMeans(w, it.body, clone);
    var w1 := Clone(w, it.body, clone);
    if r.Error? || r.payload.NoPayload? {
      var w2 := Scribble(w1, clone, left);
      assert PoolZero(w2) && w2.heap == w1.heap && w2.pool == w1.pool;
      assert Readable(w2, it.body);
      if !r.Error? {
        RecycleMeans(w2, it.body);
      }
    }
  }

  lemma ForwardMeans(w: World, it: Item<Addr>, clone: Addr, out: Payload, left: Fields)
    requires PoolZero(w) && HeldWell(w, it) && CanGet(w, it.body, clone) && !out.NoPayload?
    requires ValueOf(out).Some? <==> w.heap[it.body].ref.Some?
    ensures var w' := Digest(w, it.body, clone, D.Out(out), left);
            && Readable(w', clone) && Look(w', clone) == out && w'.heap[clone].ref == w.heap[it.body].ref
  {
    CloneMeans(w, it.body, clone);
  }

  lemma SafeReplace(c: Config, w: World, w': World, h0: Holder, it: Item<Addr>)
    requires Safe(c, w) && Ready(c, w') && PoolZero(w')
    requires ItemOf(w, h0) == Some(it) && !Behind(c, w, h0)
    requires ItemOf(w', h0).Some? ==> ItemOf(w', h0).value.id == it.id && HeldWell(w', ItemOf(w', h0).value)
    requires OthersKeep(c, w, w', h0, h0)
    requires ItemOf(w', h0).Some?
      ==> forall h :: h != h0 && ItemOf(w, h).Some? ==> ItemOf(w, h).value.body != ItemOf(w', h0).value.body
    ensures Safe(c, w')
  {
    forall h, g | ItemOf(w', h).Some? && ItemOf(w', g).Some? && h != g
      ensures ItemOf(w', h).value.body != ItemOf(w', g).value.body
      ensures ItemOf(w', h).value.id == ItemOf(w', g).value.id ==> Behind(c, w', h)
    {
      assert ItemOf(w, h).Some? && ItemOf(w, h).value.id == ItemOf(w', h).value.id;
      assert ItemOf(w, g).Some? && ItemOf(w, g).value.id == ItemOf(w', g).value.id;
      assert h != h0 ==> ItemOf(w, h) == ItemOf(w', h);
      assert g != h0 ==> ItemOf(w, g) == ItemOf(w', g);
    }
  }

  /** While a worker has a payload in process, nobody else holds that payload. */
  lemma AloneWhileProcessing(c: Config, w: World, x: nat, h: Holder)
    requires Safe(c, w) && x < |w.ctl.workers| && w.ctl.workers[x].Processing? && h != AtWorker(x)
    requires ItemOf(w, h).Some?
    ensures ItemOf(w, h).value.id != w.ctl.workers[x].item.id
    ensures ItemOf(w, h).value.body != w.ctl.workers[x].item.body
    ensures w.heap[ItemOf(w, h).value.body].ref != Some(w.ctl.workers[x].item.id)
  {
    assert ItemOf(w, AtWorker(x)) == Some(w.ctl.workers[x].item);
    assert !Behind(c, w, AtWorker(x));
  }

  lemma ProcessKeeps(p: D.Program, w: World, x: nat, clone: Addr, e: Emission, left: Fields, h: Holder)
    requires Safe(p.c, w) && Possible(p, w, Process(x, clone, e, left)) && h != AtWorker(x) && ItemOf(w, h).Some?
    ensures var w', it := Perform(p, w, Process(x, clone, e, left)), ItemOf(w, h).value;
            Readable(w, it.body) && HeldWell(w', it) && Look(w', it.body) == Look(w, it.body)
  {
    var it := w.ctl.workers[x].item;
    assert ItemOf(w, AtWorker(x)) == Some(it);
    var r := Answer(p, w, p.c.stageOf[x], it, clone);
    DigestMeans(w, it, clone, r, left);
    AloneWhileProcessing(p.c, w, x, h);
    CloneIsUnheld(w, it.body, clone, h);
    var w1 := Digest(w, it.body, clone, r, left);
    var b := ItemOf(w, h).value.body;
    assert Readable(w1, b) && Look(w1, b) == Look(w, b) && b !in w1.pool && w1.heap[b] == w.heap[b];
  }

  lemma OthersKeepProcess(p: D.Program, w: World, x: nat, clone: Addr, e: Emission, left: Fields)
    requires Safe(p.c, w) && Possible(p, w, Process(x, clone, e, left))
    ensures OthersKeep(p.c, w, Perform(p, w, Process(x, clone, e, left)), AtWorker(x), AtWorker(x))
    ensures LooksKept(w, Perform(p, w, Process(x, clone, e, left)), Some(AtWorker(x)))
  {
    var w' := Perform(p, w, Process(x, clone, e, left));
    var it := w.ctl.workers[x].item;
    assert w'.queue == w.queue && w'.ctl.source == w.ctl.source && w'.ctl.sinks == w.ctl.sinks;
    forall h | h != AtWorker(x) && ItemOf(w, h).Some?
      ensures HeldWell(w', ItemOf(w, h).value) && Readable(w, ItemOf(w, h).value.body)
      ensures Look(w', ItemOf(w, h).value.body) == Look(w, ItemOf(w, h).value.body)
    {
      ProcessKeeps(p, w, x, clone, e, left, h);
    }
    assert forall h :: h != AtWorker(x) ==> ItemOf(w', h) == ItemOf(w, h);
  }

  /** What the processor's output looks like to the next reader. */
  lemma ForwardObjects(p: D.Program, w: World, x: nat, clone: Addr, e: Emission, left: Fields)
    requires Safe(p.c, w) && InPlace(p) && Possible(p, w, Process(x, clone, e, left))
    requires var r := Answer(p, w, p.c.stageOf[x], w.ctl.workers[x].item, clone); r.Out? && !r.payload.NoPayload?
    ensures var w', it := Perform(p, w, Process(x, clone, e, left)), w.ctl.workers[x].item;
            && PoolZero(w') && HeldWell(w', Item(it.id, clone))
            && ItemOf(w, AtWorker(x)) == Some(it) && ItemOf(w', AtWorker(x)) == Some(Item(it.id, clone))
  {
    var it := w.ctl.workers[x].item;
    var r := Answer(p, w, p.c.stageOf[x], it, clone);
    assert ItemOf(w, AtWorker(x)) == Some(it);
    DigestMeans(w, it, clone, r, left);
    CloneMeans(w, it.body, clone);
    assert ValueOf(Look(w, it.body)).Some? <==> w.heap[it.body].ref.Some?;
    ForwardMeans(w, it, clone, r.payload, left);
  }

  /** The processor's output, in the clone, takes the place of its input. */
  lemma SafeForward(p: D.Program, w: World, x: nat, clone: Addr, e: Emission, left: Fields)
    requires Safe(p.c, w) && InPlace(p) && Possible(p, w, Process(x, clone, e, left))
    requires var r := Answer(p, w, p.c.stageOf[x], w.ctl.workers[x].item, clone); r.Out? && !r.payload.NoPayload?
    ensures StaysSafe(p, w, Process(x, clone, e, left))
  {
    var it := w.ctl.workers[x].item;
    ForwardObjects(p, w, x, clone, e, left);
    OthersKeepProcess(p, w, x, clone, e, left);
    forall h | ItemOf(w, h).Some? ensures ItemOf(w, h).value.body != clone {
      CloneIsUnheld(w, it.body, clone, h);
    }
    SafeReplace(p.c, w, Perform(p, w, Process(x, clone, e, left)), AtWorker(x), it);
  }

  /** Without an output the worker lets go of its input. */
  lemma SafeSwallow(p: D.Program, w: World, x: nat, clone: Addr, e: Emission, left: Fields)
    requires Safe(p.c, w) && InPlace(p) && Possible(p, w, Process(x, clone, e, left))
    requires var r := Answer(p, w, p.c.stageOf[x], w.ctl.workers[x].item, clone); r.Error? || r.payload.NoPayload?
    ensures StaysSafe(p, w, Process(x, clone, e, left))
  {
    var w' := Perform(p, w, Process(x, clone, e, left));
    var it := w.ctl.workers[x].item;
    assert ItemOf(w, AtWorker(x)) == Some(it);
    OthersKeepProcess(p, w, x, clone, e, left);
    DigestMeans(w, it, clone, Answer(p, w, p.c.stageOf[x], it, clone), left);
    assert ItemOf(w', AtWorker(x)) == None;
    SafeReplace(p.c, w, w', AtWorker(x), it);
  }

  lemma SafeProcess(p: D.Program, w: World, act: Action)
    requires Safe(p.c, w) && InPlace(p) && act.Process? && Possible(p, w, act)
    ensures StaysSafe(p, w, act)
  {
    var Process(x, clone, e, left) := act;
    var r := Answer(p, w, p.c.stageOf[x], w.ctl.workers[x].item, clone);
    if r.Out? && !r.payload.NoPayload? {
      SafeForward(p, w, x, clone, e, left);
    } else {
      SafeSwallow(p, w, x, clone, e, left);
    }
  }

  lemma SafeFeed(p: D.Program, w: World, y: nat)
    requires Safe(p.c, w) && Possible(p, w, Other(SourceSend(y)))
    ensures StaysSafe(p, w, Other(SourceSend(y)))
  {
    var w' := Perform(p, w, Other(SourceSend(y)));
    var it := w.ctl.source.item;
    assert ItemOf(w, AtSource) == Some(it) && ItemOf(w', AtWorker(y)) == Some(it);
    forall h | h != AtSource && h != AtWorker(y)
      ensures ItemOf(w', h) == ItemOf(w, h) && (Behind(p.c, w, h) ==> Behind(p.c, w', h))
    {
    }
    assert forall h :: ItemOf(w', h).Some? ==> ItemOf(w', h) == ItemOf(w, if h == AtWorker(y) then AtSource else h);
  }

  /** Every other step only makes holders let go. */
  lemma SafeOther(p: D.Program, w: World, l: Label<Addr>)
    requires Safe(p.c, w) && Possible(p, w, Other(l)) && !l.SourceSend?
    ensures StaysSafe(p, w, Other(l))
  {
    var w' := Perform(p, w, Other(l));
    forall h | ItemOf(w', h).Some?
      ensures ItemOf(w', h) == ItemOf(w, h) && (Behind(p.c, w, h) ==> Behind(p.c, w', h))
    {
    }
  }

  lemma SafeAnyOther(p: D.Program, w: World, act: Action)
    requires Safe(p.c, w) && act.Other? && Possible(p, w, act)
    ensures StaysSafe(p, w, act)
  {
    if act.step.SourceSend? {
      SafeFeed(p, w, act.step.to);
    } else {
      SafeOther(p, w, act.step);
    }
  }

  lemma SafeStorage(p: D.Program, w: World, act: Action)
    requires Safe(p.c, w) && Possible(p, w, act) && (act.StorageWrite? || act.Evict?)
    ensures StaysSafe(p, w, act)
  {
    var w' := Perform(p, w, act);
    forall h | ItemOf(w', h).Some?
      ensures ItemOf(w', h) == ItemOf(w, h) && (Behind(p.c, w, h) ==> Behind(p.c, w', h))
    {
    }
  }

  /** What SafeStep proves of an action. */
  ghost predicate StaysSafe(p: D.Program, w: World, act: Action)
    requires Ready(p.c, w) && Possible(p, w, act)
  {
    Safe(p.c, Perform(p, w, act))
  }

  lemma SafeStep(p: D.Program, w: World, act: Action)
    requires Safe(p.c, w) && InPlace(p) && Possible(p, w, act)
    ensures StaysSafe(p, w, act)
  {
    if act.Send? {
      SafeSend(p, w, act);
    } else if act.Deliver? {
      SafeDeliver(p, w, act);
    } else if act.Drain? {
      SafeDrain(p, w, act.j, act.clone);
    } else if act.Take? {
      SafeTake(p, w, act);
    } else if act.Process? {
      SafeProcess(p, w, act);
    } else if act.StorageWrite? || act.Evict? {
      SafeStorage(p, w, act);
    } else {
      SafeAnyOther(p, w, act);
    }
  }

  lemma {:induction false} SafeRun(p: D.Program, acts: seq<Action>)
    requires Wired(p.c) && InPlace(p) && Runs(p, acts)
    ensures Safe(p.c, Reach(p, acts))
  {
    if acts == [] {
      assert forall h :: ItemOf(Start(p.c), h) == None;
    } else {
      SafeRun(p, acts[..|acts| - 1]);
      SafeStep(p, Reach(p, acts[..|acts| - 1]), acts[|acts| - 1]);
    }
  }
}
