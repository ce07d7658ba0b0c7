/** What reaches the storages: with any number of workers, through the sinks, and per partition. */
module Delivery {
  import opened Tally
  import opened Payloads
  import opened Control
  import Flow
  import D = Dataflow
  import opened Ordering

  // ----- Any number of workers -----

  lemma TimesPositive<V>(items: seq<Item<V>>, q: nat)
    requires Flow.Times(items, q) > 0
    ensures exists i :: 0 <= i < |items| && items[i].id == q
  {
    MassPositive(Flow.Only(q), Flow.Ids(items));
    var i :| 0 <= i < |items| && Flow.Only(q)(Flow.Ids(items)[i]) > 0;
    assert items[i].id == q;
  }

  lemma TimesOfMember<V>(items: seq<Item<V>>, i: nat)
    requires i < |items|
    ensures Flow.Times(items, items[i].id) > 0
  {
    MassOfMember(Flow.Only(items[i].id), Flow.Ids(items), i);
  }

  lemma LogTrue(p: D.Program, s: State<Payload>, k: nat, i: nat)
    requires Shaped(p.c, s) && D.Truthful(p, s) && p.c.n <= k < |s.log| && i < |s.log[k]|
    ensures D.At(p, s.taken, p.c.n, s.log[k][i])
  {
    assert D.At(p, s.taken, D.Depth(p.c, k), s.log[k][i]);
  }

  /** A sink receives only payloads that pass every stage, with the contents the stages give them, and each once. */
  lemma SinkReceivesOnlyResults(p: D.Program, ls: seq<Label<Payload>>, j: nat, i: nat)
    requires Wired(p.c) && D.Computes(p, ls) && j < p.c.m && i < |D.After(p, ls).log[p.c.n + j]|
    ensures var s := D.After(p, ls);
            var it := s.log[p.c.n + j][i];
            && it.id < |s.taken| && D.Chain(p, p.c.n, it.id, s.taken[it.id]) == D.Carried(it.body)
            && Flow.Times(s.log[p.c.n + j], it.id) == 1
  {
    var s := D.After(p, ls);
    D.TruthfulRun(p, ls);
    LogTrue(p, s, p.c.n + j, i);
    TimesOfMember(s.log[p.c.n + j], i);
    Flow.AtMostOnce(p.c, ls, j, s.log[p.c.n + j][i].id);
  }

  lemma TimesDelivered(p: D.Program, s: State<Payload>, q: nat)
    requires Shaped(p.c, s) && D.Truthful(p, s) && Flow.Times(Flow.Delivered(p.c, s), q) > 0
    ensures q < |s.taken| && D.Chain(p, p.c.n, q, s.taken[q]).Carried?
  {
    var items := Flow.Delivered(p.c, s);
    TimesPositive(items, q);
    var i :| 0 <= i < |items| && items[i].id == q;
    LogTrue(p, s, p.c.n + p.c.m - 1, i);
  }

  lemma TimesDiscarded(p: D.Program, s: State<Payload>, q: nat)
    requires Shaped(p.c, s) && D.Truthful(p, s) && Flow.Times(s.discarded, q) > 0
    ensures q < |s.taken| && D.Chain(p, p.c.n, q, s.taken[q]).Skipped?
  {
    TimesPositive(s.discarded, q);
    var i :| 0 <= i < |s.discarded| && s.discarded[i].id == q;
    assert D.Ends(p, s.taken, s.discarded[i].id, D.Skipped);
  }

  lemma SettledEmpty(s: State<Payload>, f: Flow.Weight)
    requires Settled(s)
    ensures Flow.FailedMass(f, s) + Flow.AbandonedMass(f, s) + Flow.InFlight(f, s) == 0
  {
    SumZero(Flow.Holdings(f, s.workers, Flow.Flying));
    SumZero(Flow.Holdings(f, s.workers, Flow.Lost));
    SumZero(Flow.Holdings(f, s.workers, Flow.Dropped));
  }

  /** Where nothing is under way a payload was delivered exactly if it passes every stage, and else discarded. */
  lemma SettledDelivery(p: D.Program, ls: seq<Label<Payload>>, q: nat)
    requires Wired(p.c) && D.Computes(p, ls) && Settled(D.After(p, ls)) && q < |D.After(p, ls).taken|
    ensures var s := D.After(p, ls);
            var fate := D.Chain(p, p.c.n, q, s.taken[q]);
            && Flow.Times(Flow.Delivered(p.c, s), q) == (if fate.Carried? then 1 else 0)
            && Flow.Times(s.discarded, q) == (if fate.Skipped? then 1 else 0)
            && !fate.Stopped?
  {
    var s := D.After(p, ls);
    D.TruthfulRun(p, ls);
    Flow.Conservation(p.c, ls, q);
    SettledEmpty(s, Flow.Only(q));
    if Flow.Times(s.discarded, q) > 0 {
      TimesDiscarded(p, s, q);
    } else {
      TimesDelivered(p, s, q);
    }
  }

  // ----- Through the sinks -----

  ghost function Cloned(items: seq<Item<Payload>>): (r: seq<Item<Payload>>)
    ensures |r| == |items|
  {
    seq(|items|, i requires 0 <= i < |items| => Item(items[i].id, CloneOf(items[i].body)))
  }

  /** What a sink has handed to its storage, given what it received. */
  ghost predicate HandedOver(sink: Sink<Payload>, received: seq<Item<Payload>>, drained: seq<Item<Payload>>) {
    match sink
    case Idle => drained == Cloned(received)
    case Draining(it) => received != [] && Last(received) == it && drained == Cloned(Front(received))
    case _ => drained <= Cloned(received) && |received| <= |drained| + 1
  }

  ghost predicate SinksTrue(c: Config, s: State<Payload>)
    requires Shaped(c, s)
  {
    forall j :: 0 <= j < c.m ==> HandedOver(s.sinks[j], s.log[c.n + j], s.drained[j])
  }

  lemma ClonedAppend(items: seq<Item<Payload>>, it: Item<Payload>)
    ensures Cloned(items + [it]) == Cloned(items) + [Item(it.id, CloneOf(it.body))]
  {
  }

  lemma SinksDeliver(p: D.Program, s: State<Payload>, x: nat, j: nat, v: Payload)
    requires Shaped(p.c, s) && Enabled(p.c, s, WorkerDeliver(x, j, v)) && SinksTrue(p.c, s)
    ensures SinksTrue(p.c, Apply(p.c, s, WorkerDeliver(x, j, v)))
  {
    assert HandedOver(s.sinks[j], s.log[p.c.n + j], s.drained[j]);
    FrontOfAppend(s.log[p.c.n + j], Item(s.workers[x].item.id, v));
  }

  /** A sink that drains its item, or returns with it. */
  lemma HandsOn(it: Item<Payload>, received: seq<Item<Payload>>, drained: seq<Item<Payload>>)
    requires HandedOver(Draining(it), received, drained)
    ensures HandedOver(Idle, received, drained + [Item(it.id, CloneOf(it.body))])
    ensures HandedOver(SinkReturned, received, drained)
  {
    ClonedAppend(Front(received), Last(received));
    assert received == Front(received) + [Last(received)];
  }

  /** Only sink j and what it handed over changed. */
  lemma SinksOne(c: Config, s: State<Payload>, s': State<Payload>, j: nat)
    requires Shaped(c, s) && Shaped(c, s') && SinksTrue(c, s) && j < c.m && s'.log == s.log
    requires s'.sinks == s.sinks[j := s'.sinks[j]] && s'.drained == s.drained[j := s'.drained[j]]
    requires HandedOver(s'.sinks[j], s.log[c.n + j], s'.drained[j])
    ensures SinksTrue(c, s')
  {
    forall i | 0 <= i < c.m && i != j ensures HandedOver(s'.sinks[i], s'.log[c.n + i], s'.drained[i]) {
      assert HandedOver(s.sinks[i], s.log[c.n + i], s.drained[i]);
    }
  }

  lemma SinksDrain(p: D.Program, s: State<Payload>, j: nat, v: Payload)
    requires Shaped(p.c, s) && Enabled(p.c, s, SinkDrain(j, v)) && D.Allowed(p, s, SinkDrain(j, v))
    requires SinksTrue(p.c, s)
    ensures SinksTrue(p.c, Apply(p.c, s, SinkDrain(j, v)))
  {
    var s' := Apply(p.c, s, SinkDrain(j, v));
    HandsOn(s.sinks[j].item, s.log[p.c.n + j], s.drained[j]);
    assert s'.log == s.log && s'.drained == Append(s.drained, j, Item(s.sinks[j].item.id, v));
    SinksOne(p.c, s, s', j);
  }

  lemma SinksExit(p: D.Program, s: State<Payload>, l: Label<Payload>)
    requires Shaped(p.c, s) && Enabled(p.c, s, l) && SinksTrue(p.c, s)
    requires l.SinkFail? || l.SinkCancel? || l.SinkEnd? || l.SinkFinish?
    ensures SinksTrue(p.c, Apply(p.c, s, l))
  {
    var s', j := Apply(p.c, s, l), l.sink;
    assert HandedOver(s.sinks[j], s.log[p.c.n + j], s.drained[j]);
    if l.SinkFail? {
      HandsOn(s.sinks[j].item, s.log[p.c.n + j], s.drained[j]);
    }
    assert s'.log == s.log && s'.drained == s.drained;
    SinksOne(p.c, s, s', j);
  }

  lemma SinksQuiet(p: D.Program, s: State<Payload>, l: Label<Payload>)
    requires Shaped(p.c, s) && Enabled(p.c, s, l) && SinksTrue(p.c, s) && !l.WorkerDeliver? && !l.SinkDrain?
    requires !l.SinkFail? && !l.SinkCancel? && !l.SinkEnd? && !l.SinkFinish?
    ensures SinksTrue(p.c, Apply(p.c, s, l))
  {
    var s' := Apply(p.c, s, l);
    assert s'.sinks == s.sinks && s'.drained == s.drained;
    forall j | 0 <= j < p.c.m ensures HandedOver(s'.sinks[j], s'.log[p.c.n + j], s'.drained[j]) {
      assert HandedOver(s.sinks[j], s.log[p.c.n + j], s.drained[j]);
      assert s'.log[p.c.n + j] == s.log[p.c.n + j];
    }
  }

  lemma SinksStep(p: D.Program, s: State<Payload>, l: Label<Payload>)
    requires Shaped(p.c, s) && Enabled(p.c, s, l) && D.Allowed(p, s, l) && SinksTrue(p.c, s)
    ensures SinksTrue(p.c, Apply(p.c, s, l))
  {
    if l.WorkerDeliver? {
      SinksDeliver(p, s, l.w, l.sink, l.clone);
    } else if l.SinkDrain? {
      SinksDrain(p, s, l.sink, l.clone);
    } else if l.SinkFail? || l.SinkCancel? || l.SinkEnd? || l.SinkFinish? {
      SinksExit(p, s, l);
    } else {
      SinksQuiet(p, s, l);
    }
  }

  lemma {:induction false} SinksRun(p: D.Program, ls: seq<Label<Payload>>)
    requires Wired(p.c) && D.Computes(p, ls)
    ensures SinksTrue(p.c, D.After(p, ls))
  {
    if ls != [] {
      SinksRun(p, ls[..|ls| - 1]);
      SinksStep(p, D.After(p, ls[..|ls| - 1]), ls[|ls| - 1]);
    }
  }

  /** Items whose contents their own chain gives them, in the order of the source. */
  ghost predicate Results(p: D.Program, k: nat, taken: seq<Payload>, out: seq<Item<Payload>>) {
    && (forall i :: 0 <= i < |out| ==> D.At(p, taken, k, out[i]))
    && (forall i, j :: 0 <= i < j < |out| ==> out[i].id < out[j].id)
  }

  lemma {:induction false} FilterMapResults(p: D.Program, k: nat, taken: seq<Payload>)
    ensures Results(p, k, taken, D.FilterMap(p, k, taken).out)
  {
    if taken != [] {
      var earlier := taken[..|taken| - 1];
      FilterMapResults(p, k, earlier);
      var before := D.FilterMap(p, k, earlier).out;
      forall i | 0 <= i < |before| ensures D.At(p, taken, k, before[i]) && before[i].id < |earlier| {
        assert D.At(p, earlier, k, before[i]);
      }
    }
  }

  /** Behind the last stage a clone changes nothing any more. */
  lemma HandedPrefix(p: D.Program, taken: seq<Payload>, sink: Sink<Payload>, received: seq<Item<Payload>>,
                     drained: seq<Item<Payload>>)
    requires p.c.n >= 1 && HandedOver(sink, received, drained)
    requires var out := D.FilterMap(p, p.c.n, taken).out; received <= out && Results(p, p.c.n, taken, out)
    ensures drained <= received && |received| <= |drained| + 1
  {
    var out := D.FilterMap(p, p.c.n, taken).out;
    forall i | 0 <= i < |received| ensures Cloned(received)[i] == received[i] {
      assert D.At(p, taken, p.c.n, out[i]);
    }
    assert Cloned(received) == received;
    if sink.Draining? {
      assert Cloned(Front(received)) == Front(Cloned(received));
    }
  }

  /** End to end: each storage is handed a prefix of the filter-map, at most one payload behind its sink. */
  lemma StorageReceivesPrefix(p: D.Program, ls: seq<Label<Payload>>, j: nat)
    requires Wired(p.c) && Fifo(p.c) && D.Computes(p, ls) && j < p.c.m
    ensures var s := D.After(p, ls);
            && s.drained[j] <= D.FilterMap(p, p.c.n, s.taken).out
            && |s.drained[j]| <= |s.log[p.c.n + j]| <= |s.drained[j]| + 1
  {
    var s := D.After(p, ls);
    SinkReceivesPrefix(p, ls, j);
    SinksRun(p, ls);
    FilterMapResults(p, p.c.n, s.taken);
    HandedPrefix(p, s.taken, s.sinks[j], s.log[p.c.n + j], s.drained[j]);
  }

  // ----- Order within a partition -----

  /** Payload b comes from the same message as a, as far as partition and offset tell. */
  ghost predicate SameMessage(a: Payload, b: Payload) {
    a.Kafka? ==> b.Kafka? && b.partition == a.partition && b.offset == a.offset
  }

  /** The processors keep partition and offset, as every processor of the repository does. */
  ghost predicate Keeps(p: D.Program) {
    forall k, q, body :: p.proc(k, q, body).Out? && !p.proc(k, q, body).payload.NoPayload?
      ==> SameMessage(body, p.proc(k, q, body).payload)
  }

  /** Offsets never fall, or strictly rise, within a partition. */
  ghost predicate Rising(xs: seq<Payload>, strict: bool) {
    forall i, j :: 0 <= i < j < |xs| && xs[i].Kafka? && xs[j].Kafka? && xs[i].partition == xs[j].partition
      ==> xs[i].offset <= xs[j].offset && (strict ==> xs[i].offset < xs[j].offset)
  }

  ghost function Bodies(items: seq<Item<Payload>>): (r: seq<Payload>)
    ensures |r| == |items|
  {
    seq(|items|, i requires 0 <= i < |items| => items[i].body)
  }

  lemma {:induction false} ChainKeeps(p: D.Program, k: nat, q: nat, body: Payload)
    requires Keeps(p) && body.Kafka? && D.Chain(p, k, q, body).Carried?
    ensures SameMessage(body, D.Chain(p, k, q, body).body)
  {
    if k > 0 {
      ChainKeeps(p, k - 1, q, body);
      var b := D.Chain(p, k - 1, q, body).body;
      assert SameMessage(CloneOf(b), p.proc(k - 1, q, CloneOf(b)).payload);
    }
  }

  /** A subsequence of the same messages keeps their order. */
  lemma RisingFrom(taken: seq<Payload>, received: seq<Item<Payload>>, strict: bool)
    requires Rising(taken, strict) && forall q :: 0 <= q < |taken| ==> taken[q].Kafka?
    requires forall i :: 0 <= i < |received| ==>
               received[i].id < |taken| && SameMessage(taken[received[i].id], received[i].body)
    requires forall i, k :: 0 <= i < k < |received| ==> received[i].id < received[k].id
    ensures Rising(Bodies(received), strict)
  {
    var bodies := Bodies(received);
    forall i, k | 0 <= i < k < |bodies| && bodies[i].Kafka? && bodies[k].Kafka?
                  && bodies[i].partition == bodies[k].partition
      ensures bodies[i].offset <= bodies[k].offset && (strict ==> bodies[i].offset < bodies[k].offset)
    {
      assert SameMessage(taken[received[i].id], bodies[i]) && SameMessage(taken[received[k].id], bodies[k]);
    }
  }

  /** If the source hands out each partition in order, every sink sees each partition in order. */
  lemma PartitionOrder(p: D.Program, ls: seq<Label<Payload>>, j: nat, strict: bool)
    requires Wired(p.c) && Fifo(p.c) && D.Computes(p, ls) && j < p.c.m && Keeps(p)
    requires Rising(D.After(p, ls).taken, strict)
    requires forall q :: 0 <= q < |D.After(p, ls).taken| ==> D.After(p, ls).taken[q].Kafka?
    ensures Rising(Bodies(D.After(p, ls).log[p.c.n + j]), strict)
  {
    var s := D.After(p, ls);
    var received := s.log[p.c.n + j];
    var out := D.FilterMap(p, p.c.n, s.taken).out;
    SinkReceivesPrefix(p, ls, j);
    FilterMapResults(p, p.c.n, s.taken);
    forall i | 0 <= i < |received|
      ensures received[i].id < |s.taken| && SameMessage(s.taken[received[i].id], received[i].body)
    {
      assert D.At(p, s.taken, p.c.n, out[i]);
      ChainKeeps(p, p.c.n, out[i].id, s.taken[out[i].id]);
    }
    assert forall i :: 0 <= i < |received| ==> received[i] == out[i];
    RisingFrom(s.taken, received, strict);
  }
}
