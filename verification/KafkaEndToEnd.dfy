/** From the partitions' messages to the documents that the sinks receive. */
module KafkaEndToEnd {
  import opened Payloads
  import opened Control
  import D = Dataflow
  import DocIds
  import opened KafkaStream
  import opened Processors

  /** The payload is the document of message k of partition i. */
  ghost predicate DocumentOf(text: Bytes -> Bytes, topic: Bytes, log: seq<seq<Message>>, env: Env, i: nat, k: nat,
                             body: Payload)
    requires i < |log| && k < |log[i]|
  {
    && body.Kafka? && body.topic == topic && body.key == text(log[i][k].key)
    && body.docID == DocIds.MessageDocID(text, topic, DocIds.Coordinates(log[i][k].key, i, log[i][k].offset))
    && body.index == "event-data-" + env.date(0)
  }

  /** Its data is a marshalled value that says what the message says, but for the meta entry. */
  ghost predicate DataOf(env: Env, m: Message, body: Payload, value: Option<Fields>) {
    body.Kafka? && env.marshal(value) == Some(body.data) && SameButMeta(m.value, value)
  }

  lemma TakenIsMessage(s: Stream, strict: bool, t: nat) returns (i: nat, k: nat)
    requires Sound(s, strict) && t < |s.taken|
    ensures i < |s.log| && k < |s.log[i]| && ReadsAs(s.text, s.topic, i, s.log[i][k], s.taken[t])
  {
    assert Came(s, s.taken[t]);
    i, k :| 0 <= i < |s.log| && FromLog(s, s.taken[t], i, k, Gone(s, i));
  }

  lemma DocumentOfMessage(text: Bytes -> Bytes, topic: Bytes, log: seq<seq<Message>>, env: Env, i: nat, k: nat,
                          message: Payload, body: Payload)
    requires i < |log| && k < |log[i]| && ReadsAs(text, topic, i, log[i][k], message) && Labels(body, env, message)
    ensures DocumentOf(text, topic, log, env, i, k, body)
  {
  }

  /**
   * However the pollers interleave and the pipeline is scheduled, what a sink receives behind a Kafka normalizer
   * is the document of a message of one of the partitions, with the value of this message.
   */
  lemma SinkReceivesMessages(text: Bytes -> Bytes, topic: Bytes, log: seq<seq<Message>>, es: seq<Event>, c: Config,
                             kinds: seq<Kind>, env: Env, ls: seq<Label<Payload>>, at: nat, j: nat, h: nat)
    returns (i: nat, k: nat, value: Option<Fields>)
    requires Ordered(log, false) && Flows(Opened(text, topic, log), es)
    requires Wired(c) && |kinds| == c.n && LastNormalizer(kinds, at, c.n)
    requires D.Computes(Standard(c, kinds, env), ls)
    requires D.After(Standard(c, kinds, env), ls).taken == Flowing(Opened(text, topic, log), es).taken
    requires j < c.m && h < |D.After(Standard(c, kinds, env), ls).log[c.n + j]|
    ensures i < |log| && k < |log[i]|
    ensures var body := D.After(Standard(c, kinds, env), ls).log[c.n + j][h].body;
            DocumentOf(text, topic, log, env, i, k, body) && DataOf(env, log[i][k], body, value)
  {
    var p := Standard(c, kinds, env);
    var s, stream := D.After(p, ls), Flowing(Opened(text, topic, log), es);
    var it := s.log[c.n + j][h];
    SinkReceivesDocuments(c, kinds, env, ls, at, j, h);
    SoundRun(text, topic, log, es, false);
    SameStream(Opened(text, topic, log), es);
    i, k := TakenIsMessage(stream, false, it.id);
    DocumentOfMessage(text, topic, log, env, i, k, s.taken[it.id], it.body);
    value := D.Chain(p, at, it.id, s.taken[it.id]).body.value;
  }

  /** Topic and partitions stay what they are. */
  lemma {:induction false} SameStream(s: Stream, es: seq<Event>)
    requires Flows(s, es)
    ensures var s' := Flowing(s, es); s'.text == s.text && s'.topic == s.topic && s'.log == s.log
  {
    if es != [] {
      SameStream(s, es[..|es| - 1]);
    }
  }
}
