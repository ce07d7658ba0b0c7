/** One poller per Kafka partition, all sending on one unbuffered stream from which the source takes. */
module KafkaStream {
  import opened Payloads
  import opened Control
  import D = Dataflow
  import Float64
  import opened Ordering
  import opened Delivery

  datatype Message = Message(offset: nat, key: Bytes, value: Option<Fields>, timestamp: Time)

  /** log[i] is what poller i's partition delivers; it has polled next[i] messages and sends the last one or not. */
  datatype Stream = Stream(
    text: Bytes -> Bytes,  // what the JSON round trip makes of a key
    topic: Bytes,
    log: seq<seq<Message>>,
    next: seq<nat>,
    sending: seq<bool>,
    taken: seq<Payload>)   // what the source made of the records it took, in order

  ghost predicate Rises(ms: seq<Message>) {
    forall i, j :: 0 <= i < j < |ms| ==> ms[i].offset < ms[j].offset
  }

  ghost function Opened(text: Bytes -> Bytes, topic: Bytes, log: seq<seq<Message>>): Stream {
    Stream(text, topic, log, seq(|log|, _ => 0), seq(|log|, _ => false), [])
  }

  /** The record poller i makes of a message, and the payload the source decodes from it. */
  ghost function PayloadOf(text: Bytes -> Bytes, topic: Bytes, i: nat, m: Message): Payload {
    Kafka(topic, Float64.OfInt(i), Float64.OfInt(m.offset), text(m.key), m.value, m.timestamp, "", "", "")
  }

  /** The payload says of message m of partition i what the message says, and nothing else yet. */
  ghost predicate ReadsAs(text: Bytes -> Bytes, topic: Bytes, i: nat, m: Message, p: Payload) {
    && p.Kafka? && p.topic == topic && p.partition == Float64.OfInt(i) && p.offset == Float64.OfInt(m.offset)
    && p.key == text(m.key) && p.value == m.value && p.timestamp == m.timestamp
    && p.index == "" && p.docID == "" && p.data == ""
  }

  datatype Event =
    | Poll(i: nat)    // poller i gets its next message and blocks in sending it
    | Take(i: nat)    // the source takes it
    | Garble(i: nat)  // the source takes it and fails to marshal it: Next returns false

  ghost predicate Happens(s: Stream, e: Event) {
    && |s.next| == |s.sending| == |s.log| && e.i < |s.log|
    && (match e
        case Poll(i) => !s.sending[i] && s.next[i] < |s.log[i]|
        case Take(i) => s.sending[i] && 0 < s.next[i] <= |s.log[i]|
        case Garble(i) => s.sending[i])
  }

  ghost function Next(s: Stream, e: Event): Stream
    requires Happens(s, e)
  {
    match e
    case Poll(i) => s.(next := s.next[i := s.next[i] + 1], sending := s.sending[i := true])
    case Take(i) =>
      s.(sending := s.sending[i := false], taken := s.taken + [PayloadOf(s.text, s.topic, i, s.log[i][s.next[i] - 1])])
    case Garble(i) => s.(sending := s.sending[i := false])
  }

  ghost predicate Flows(s: Stream, es: seq<Event>)
    decreases es, 0
  {
    es == [] || (Flows(s, es[..|es| - 1]) && Happens(Flowing(s, es[..|es| - 1]), es[|es| - 1]))
  }

  ghost function Flowing(s: Stream, es: seq<Event>): Stream
    requires Flows(s, es)
    decreases es, 1
  {
    if es == [] then s else Next(Flowing(s, es[..|es| - 1]), es[|es| - 1])
  }

  // ----- Every interleaving keeps each partition in order -----

  /** Partition numbers and, if strict, offsets are exact as float64. */
  ghost predicate Ordered(log: seq<seq<Message>>, strict: bool) {
    && |log| <= Float64.EXACT
    && (forall i :: 0 <= i < |log| ==> Rises(log[i]))
    && (strict ==> forall i, k :: 0 <= i < |log| && 0 <= k < |log[i]| ==> log[i][k].offset <= Float64.EXACT)
  }

  /** What was taken from partition i is message k of its log for some k before `bound`. */
  ghost predicate FromLog(s: Stream, p: Payload, i: nat, k: nat, bound: nat)
    requires i < |s.log|
  {
    k < |s.log[i]| && k < bound && ReadsAs(s.text, s.topic, i, s.log[i][k], p)
  }

  /** The messages of poller i that have been taken or lost. */
  ghost function Gone(s: Stream, i: nat): nat
    requires i < |s.next| && i < |s.sending|
  {
    if s.sending[i] && s.next[i] > 0 then s.next[i] - 1 else s.next[i]
  }

  /** The payload was made of a message its poller has delivered. */
  ghost predicate Came(s: Stream, p: Payload)
    requires |s.next| == |s.sending| == |s.log|
  {
    exists i, k :: 0 <= i < |s.log| && FromLog(s, p, i, k, Gone(s, i))
  }

  ghost predicate Sound(s: Stream, strict: bool) {
    && |s.next| == |s.sending| == |s.log| && Ordered(s.log, strict)
    && (forall i :: 0 <= i < |s.log| ==> s.next[i] <= |s.log[i]| && (s.sending[i] ==> s.next[i] > 0))
    && (forall t :: 0 <= t < |s.taken| ==> Came(s, s.taken[t]))
    && Rising(s.taken, strict)
  }

  lemma OffsetsRise(s: Stream, i: nat, k: nat, l: nat, strict: bool)
    requires Ordered(s.log, strict) && i < |s.log| && k < l < |s.log[i]|
    ensures var a, b := PayloadOf(s.text, s.topic, i, s.log[i][k]), PayloadOf(s.text, s.topic, i, s.log[i][l]);
            a.offset <= b.offset && (strict ==> a.offset < b.offset)
  {
    Float64.OfIntMonotone(s.log[i][k].offset, s.log[i][l].offset);
  }

  /** What was taken of the partition before has smaller offsets. */
  lemma OffsetBefore(s: Stream, i: nat, h: nat, k: nat, q: Payload, strict: bool)
    requires Ordered(s.log, strict) && i < |s.log| && h < |s.log| && i < |s.next|
    requires 0 < s.next[i] <= |s.log[i]| && FromLog(s, q, h, k, |s.log[h]|) && (h == i ==> k < s.next[i] - 1)
    ensures var p := PayloadOf(s.text, s.topic, i, s.log[i][s.next[i] - 1]);
            q.partition == p.partition ==> q.offset <= p.offset && (strict ==> q.offset < p.offset)
  {
    Float64.OfIntExact(h);
    Float64.OfIntExact(i);
    if h == i {
      OffsetsRise(s, i, k, s.next[i] - 1, strict);
    }
  }

  /** Everything taken before belongs to another partition or has a smaller offset. */
  lemma TakenBefore(s: Stream, i: nat, t: nat, strict: bool)
    requires Sound(s, strict) && Happens(s, Take(i)) && t < |s.taken|
    ensures Came(Next(s, Take(i)), s.taken[t])
    ensures var p, q := PayloadOf(s.text, s.topic, i, s.log[i][s.next[i] - 1]), s.taken[t];
            q.Kafka? && q.partition == p.partition ==> q.offset <= p.offset && (strict ==> q.offset < p.offset)
  {
    var s' := Next(s, Take(i));
    assert Came(s, s.taken[t]);
    var h, k :| 0 <= h < |s.log| && FromLog(s, s.taken[t], h, k, Gone(s, h));
    assert FromLog(s', s.taken[t], h, k, Gone(s', h));
    OffsetBefore(s, i, h, k, s.taken[t], strict);
  }

  lemma RisingAppend(xs: seq<Payload>, p: Payload, strict: bool)
    requires Rising(xs, strict)
    requires forall t :: 0 <= t < |xs| ==>
      xs[t].Kafka? && p.Kafka? && xs[t].partition == p.partition
      ==> xs[t].offset <= p.offset && (strict ==> xs[t].offset < p.offset)
    ensures Rising(xs + [p], strict)
  {
  }

  lemma TakeRises(s: Stream, i: nat, strict: bool)
    requires Sound(s, strict) && Happens(s, Take(i))
    ensures Rising(Next(s, Take(i)).taken, strict)
  {
    var p := PayloadOf(s.text, s.topic, i, s.log[i][s.next[i] - 1]);
    forall t | 0 <= t < |s.taken|
      ensures s.taken[t].Kafka? && s.taken[t].partition == p.partition
              ==> s.taken[t].offset <= p.offset && (strict ==> s.taken[t].offset < p.offset)
    {
      TakenBefore(s, i, t, strict);
    }
    RisingAppend(s.taken, p, strict);
  }

  lemma TakeSound(s: Stream, i: nat, strict: bool)
    requires Sound(s, strict) && Happens(s, Take(i))
    ensures Sound(Next(s, Take(i)), strict)
  {
    var s' := Next(s, Take(i));
    var l := s.next[i] - 1;
    TakeRises(s, i, strict);
    assert s'.log == s.log && s'.next == s.next;
    forall t | 0 <= t < |s'.taken|
      ensures Came(s', s'.taken[t])
    {
      if t < |s.taken| {
        TakenBefore(s, i, t, strict);
      } else {
        assert FromLog(s', s'.taken[t], i, l, Gone(s', i));
      }
    }
  }

  lemma QuietSound(s: Stream, e: Event, strict: bool)
    requires Sound(s, strict) && Happens(s, e) && !e.Take?
    ensures Sound(Next(s, e), strict)
  {
    var s' := Next(s, e);
    assert forall i :: 0 <= i < |s.log| ==> Gone(s, i) <= Gone(s', i);
    forall t | 0 <= t < |s.taken|
      ensures Came(s', s'.taken[t])
    {
      assert Came(s, s.taken[t]);
      var h, k :| 0 <= h < |s.log| && FromLog(s, s.taken[t], h, k, Gone(s, h));
      assert FromLog(s', s'.taken[t], h, k, Gone(s', h));
    }
  }

  lemma {:induction false} SoundRun(text: Bytes -> Bytes, topic: Bytes, log: seq<seq<Message>>, es: seq<Event>,
                                    strict: bool)
    requires Ordered(log, strict) && Flows(Opened(text, topic, log), es)
    ensures Sound(Flowing(Opened(text, topic, log), es), strict)
  {
    if es != [] {
      SoundRun(text, topic, log, es[..|es| - 1], strict);
      var s := Flowing(Opened(text, topic, log), es[..|es| - 1]);
      if es[|es| - 1].Take? {
        TakeSound(s, es[|es| - 1].i, strict);
      } else {
        QuietSound(s, es[|es| - 1], strict);
      }
    }
  }

  lemma {:induction false} AllKafka(s: Stream, es: seq<Event>)
    requires Flows(s, es) && s.taken == []
    ensures forall t :: 0 <= t < |Flowing(s, es).taken| ==> Flowing(s, es).taken[t].Kafka?
  {
    if es != [] {
      AllKafka(s, es[..|es| - 1]);
    }
  }

  /**
   * From the partitions to the sinks: however the pollers interleave and the pipeline is scheduled, each sink of
   * a FIFO pipeline sees the offsets of a partition rise, strictly if none exceeds 2^53.
   */
  lemma PartitionsStayInOrder(text: Bytes -> Bytes, topic: Bytes, log: seq<seq<Message>>, es: seq<Event>,
                              p: D.Program, ls: seq<Label<Payload>>, j: nat, strict: bool)
    requires Ordered(log, strict) && Flows(Opened(text, topic, log), es)
    requires Wired(p.c) && Fifo(p.c) && Keeps(p) && D.Computes(p, ls) && j < p.c.m
    requires D.After(p, ls).taken == Flowing(Opened(text, topic, log), es).taken
    ensures Rising(Bodies(D.After(p, ls).log[p.c.n + j]), strict)
  {
    SoundRun(text, topic, log, es, strict);
    AllKafka(Opened(text, topic, log), es);
    PartitionOrder(p, ls, j, strict);
  }

  // ----- No message is read twice, and none without being read -----

  /** How many messages of poller i the source took off the stream, to keep or to lose. */
  ghost function Received(es: seq<Event>, i: nat): nat {
    if es == [] then 0
    else Received(es[..|es| - 1], i) + if !es[|es| - 1].Poll? && es[|es| - 1].i == i then 1 else 0
  }

  ghost function Kept(es: seq<Event>): nat {
    if es == [] then 0 else Kept(es[..|es| - 1]) + if es[|es| - 1].Take? then 1 else 0
  }

  /** Each message polled was taken off the stream once, but for the one its poller is sending; each kept is there. */
  lemma {:induction false} ReadOnce(text: Bytes -> Bytes, topic: Bytes, log: seq<seq<Message>>, es: seq<Event>, i: nat)
    requires Flows(Opened(text, topic, log), es) && i < |log|
    ensures var s := Flowing(Opened(text, topic, log), es);
            && |s.next| == |s.sending| == |log| && |s.taken| == Kept(es)
            && s.next[i] == Received(es, i) + (if s.sending[i] then 1 else 0)
            && s.next[i] <= |log[i]| && s.log == log
  {
    if es != [] {
      ReadOnce(text, topic, log, es[..|es| - 1], i);
    }
  }
}
