/** The processors of the repository, as functions of payload values. */
module Processors {
  import opened Payloads
  import opened Control
  import opened Dataflow
  import DocIds
  import Delivery
  import Ownership

  /** What the processors ask of their surroundings: the clock, time.Format and json.Marshal (None: an error). */
  datatype Env = Env(now: (nat, nat) -> Time, date: Time -> Bytes, marshal: Option<Fields> -> Option<Bytes>)

  datatype Kind = Noop | KafkaDefault | KafkaNormalizer | RabbitMQDefault | RabbitMQNormalizer

  const INDEX: Bytes := "event-data-"

  function MetaOf(id: Bytes, now: Time): Json {
    Object(map["data-processor-id" := Text(id), "data-processor-timestamp" := Number(now),
               "data-processor-env" := Text("local")])
  }

  function WithMeta(value: Option<Fields>, id: Bytes, now: Time): Option<Fields> {
    match value
    case None => None
    case Some(fields) => Some(fields["meta" := MetaOf(id, now)])
  }

  /** kafka_default: an error without a value, else the meta data is injected. */
  function Default(p: Payload, now: Time): Result {
    match p
    case Kafka(t, part, off, key, value, ts, index, docID, data) =>
      if value.None? then Error
      else Out(Kafka(t, part, off, key, WithMeta(value, "kafka-event-data-processor", now), ts, index, docID, data))
    case RabbitMQ(id, email, gender, first, last, queue, value, ts, index, docID, data) =>
      if value.None? then Error
      else Out(RabbitMQ(id, email, gender, first, last, queue, WithMeta(value, "rabbitmq-event-data-processor", now),
                        ts, index, docID, data))
    case NoPayload => Error
  }

  /** The payload with the index and the identifier that the normalizers give it. */
  function Labelled(p: Payload, env: Env): Payload {
    match p
    case Kafka(topic, part, off, key, value, ts, _, _, data) =>
      Kafka(topic, part, off, key, value, ts, INDEX + env.date(ts), DocIds.KafkaDocID(key, topic, part, off), data)
    case RabbitMQ(id, email, gender, first, last, queue, value, ts, _, _, data) =>
      RabbitMQ(id, email, gender, first, last, queue, value, ts, INDEX + env.date(ts),
               DocIds.RabbitMQDocID(queue, id, email, gender), data)
    case NoPayload => NoPayload
  }

  /** The normalizers: index, document identifier and data, or the error of json.Marshal. */
  function Normalize(p: Payload, env: Env): Result {
    if p.NoPayload? then Error
    else match env.marshal(p.value)
      case None => Error
      case Some(data) => Out(Labelled(p, env).(data := data))
  }

  /** One processor; a payload of the other type is outside its use. */
  function Process(kind: Kind, env: Env, k: nat, q: nat, p: Payload): Result {
    match kind
    case Noop => Out(p)
    case KafkaDefault => if p.Kafka? then Default(p, env.now(k, q)) else Error
    case KafkaNormalizer => if p.Kafka? then Normalize(p, env) else Error
    case RabbitMQDefault => if p.RabbitMQ? then Default(p, env.now(k, q)) else Error
    case RabbitMQNormalizer => if p.RabbitMQ? then Normalize(p, env) else Error
  }

  /** A pipeline of these processors, one for each stage. */
  ghost function Standard(c: Config, kinds: seq<Kind>, env: Env): Program {
    Program(c, (k: nat, q: nat, p: Payload) => if k < |kinds| then Process(kinds[k], env, k, q, p) else Error)
  }

  /** The two are payloads of the same message, as far as processors and clones must not touch them. */
  ghost predicate SameOrigin(a: Payload, b: Payload) {
    match a
    case Kafka(topic, partition, offset, key, _, _, _, _, _) =>
      b.Kafka? && b.topic == topic && b.partition == partition && b.offset == offset && b.key == key
    case RabbitMQ(id, email, gender, firstName, lastName, queue, _, timestamp, _, _, _) =>
      && b.RabbitMQ? && b.id == id && b.email == email && b.gender == gender
      && b.firstName == firstName && b.lastName == lastName && b.queue == queue && b.timestamp == timestamp
    case NoPayload => false
  }

  /** The values agree in everything but the meta entry. */
  ghost predicate SameButMeta(a: Option<Fields>, b: Option<Fields>) {
    && (a.Some? <==> b.Some?)
    && (a.Some? ==> forall key :: key != "meta" ==>
          (key in a.value <==> key in b.value) && (key in a.value ==> a.value[key] == b.value[key]))
  }

  /** Processors keep what identifies the message of a payload, and its value but for the meta entry. */
  ghost predicate KeepsOrigin(p: Program) {
    forall k, q, body :: p.proc(k, q, body).Out? && !p.proc(k, q, body).payload.NoPayload? && !body.NoPayload?
      ==> && SameOrigin(body, p.proc(k, q, body).payload)
          && SameButMeta(body.value, p.proc(k, q, body).payload.value)
  }

  /** They do so, keep topic, key, partition and offset, and change payloads in place. */
  lemma StandardKeeps(c: Config, kinds: seq<Kind>, env: Env)
    ensures Delivery.Keeps(Standard(c, kinds, env)) && Ownership.InPlace(Standard(c, kinds, env))
    ensures KeepsOrigin(Standard(c, kinds, env))
  {
    var p := Standard(c, kinds, env);
    forall k: nat, q: nat, body: Payload | p.proc(k, q, body).Out? && !p.proc(k, q, body).payload.NoPayload?
      ensures Delivery.SameMessage(body, p.proc(k, q, body).payload)
      ensures !body.NoPayload? ==>
                && Ownership.SameKind(body, p.proc(k, q, body).payload)
                && (Ownership.ValueOf(body).Some? <==> Ownership.ValueOf(p.proc(k, q, body).payload).Some?)
                && SameOrigin(body, p.proc(k, q, body).payload)
                && SameButMeta(body.value, p.proc(k, q, body).payload.value)
    {
      assert p.proc(k, q, body) == Process(kinds[k], env, k, q, body);
    }
  }

  lemma SameOriginClone(a: Payload, b: Payload)
    requires !a.NoPayload? && !b.NoPayload?
    ensures SameOrigin(a, CloneOf(b)) <==> SameOrigin(a, b)
    ensures SameOrigin(CloneOf(a), b) <==> SameOrigin(a, b)
    ensures CloneOf(a).value == a.value
  {
  }

  lemma {:induction false} ChainKeepsOrigin(p: Program, k: nat, q: nat, message: Payload)
    requires KeepsOrigin(p) && Chain(p, k, q, message).Carried? && !message.NoPayload?
    ensures var body := Chain(p, k, q, message).body;
            !body.NoPayload? && SameOrigin(message, body) && SameButMeta(message.value, body.value)
  {
    if k > 0 {
      ChainKeepsOrigin(p, k - 1, q, message);
      StageKeepsOrigin(p, k - 1, q, Chain(p, k - 1, q, message).body);
    }
  }

  lemma StageKeepsOrigin(p: Program, k: nat, q: nat, body: Payload)
    requires KeepsOrigin(p) && StageFate(p, k, q, body).Carried?
    ensures var out := StageFate(p, k, q, body).body;
            !body.NoPayload? && !out.NoPayload? && SameOrigin(body, out) && SameButMeta(body.value, out.value)
  {
    var out := p.proc(k, q, CloneOf(body)).payload;
    SameOriginClone(body, out);
    SameOriginClone(out, body);
    assert SameOrigin(CloneOf(body), out) && SameButMeta(CloneOf(body).value, out.value);
    SameOriginClone(body, CloneOf(out));
  }

  // ----- What a normalizer writes reaches the sinks -----

  ghost predicate IsNormalizer(kind: Kind) {
    kind.KafkaNormalizer? || kind.RabbitMQNormalizer?
  }

  /**
   * The document of a message: its identifier, and an index that tells the date of its timestamp for RabbitMQ,
   * but that of the zero time for Kafka.
   */
  ghost predicate Labels(body: Payload, env: Env, message: Payload) {
    SameOrigin(message, body) &&
    match message
    case Kafka(topic, partition, offset, key, _, _, _, _, _) =>
      && body.timestamp == 0 && body.index == "event-data-" + env.date(0)
      && body.docID == key + "." + topic + "." + DocIds.Decimal(partition) + "." + DocIds.Decimal(offset)
    case RabbitMQ(id, email, gender, _, _, queue, _, timestamp, _, _, _) =>
      && body.index == "event-data-" + env.date(timestamp)
      && body.docID == queue + "." + DocIds.Decimal(id) + "." + email + "." + gender
    case NoPayload => false
  }

  lemma NormalizedIsLabelled(kind: Kind, env: Env, k: nat, q: nat, body: Payload, message: Payload)
    requires SameOrigin(message, body) && IsNormalizer(kind)
    ensures var r := Process(kind, env, k, q, CloneOf(body));
            r.Out? ==> && Labels(CloneOf(r.payload), env, message)
                       && env.marshal(body.value) == Some(CloneOf(r.payload).data)
  {
  }

  lemma ProcessedStaysLabelled(kind: Kind, env: Env, k: nat, q: nat, body: Payload, message: Payload)
    requires Labels(body, env, message)
    ensures var r := Process(kind, env, k, q, CloneOf(body));
            r.Out? ==> && Labels(CloneOf(r.payload), env, message)
                       && (!IsNormalizer(kind) ==> CloneOf(r.payload).data == body.data)
  {
    if IsNormalizer(kind) {
      NormalizedIsLabelled(kind, env, k, q, body, message);
    }
  }

  /** What stage k does is what its processor does. */
  lemma StandardStage(c: Config, kinds: seq<Kind>, env: Env, k: nat, q: nat, body: Payload)
    requires k < |kinds| && !body.NoPayload?
    ensures var fate := StageFate(Standard(c, kinds, env), k, q, body);
            var r := Process(kinds[k], env, k, q, CloneOf(body));
            fate.Carried? ==> r.Out? && fate.body == CloneOf(r.payload)
  {
    assert Standard(c, kinds, env).proc(k, q, CloneOf(body)) == Process(kinds[k], env, k, q, CloneOf(body));
  }

  /** No normalizer comes after stage `at`, before stage k. */
  ghost predicate LastNormalizer(kinds: seq<Kind>, at: nat, k: nat) {
    at < k <= |kinds| && IsNormalizer(kinds[at]) && forall i :: at < i < k ==> !IsNormalizer(kinds[i])
  }

  /** The data is the marshalled value of the payload as it came to the last normalizer. */
  ghost predicate HoldsValue(p: Program, env: Env, at: nat, q: nat, message: Payload, body: Payload) {
    && !message.NoPayload? && !body.NoPayload?
    && Chain(p, at, q, message).Carried? && !Chain(p, at, q, message).body.NoPayload?
    && env.marshal(Chain(p, at, q, message).body.value) == Some(body.data)
    && SameButMeta(message.value, Chain(p, at, q, message).body.value)
  }

  /** What a payload is before its last stage, and what that stage makes of it. */
  lemma LastStage(c: Config, kinds: seq<Kind>, env: Env, k: nat, q: nat, message: Payload)
    requires k < |kinds| && !message.NoPayload? && Chain(Standard(c, kinds, env), k + 1, q, message).Carried?
    ensures var p := Standard(c, kinds, env);
            var before := Chain(p, k, q, message);
            && before.Carried? && !before.body.NoPayload?
            && SameOrigin(message, before.body) && SameButMeta(message.value, before.body.value)
            && var r := Process(kinds[k], env, k, q, CloneOf(before.body));
               r.Out? && Chain(p, k + 1, q, message).body == CloneOf(r.payload)
  {
    var p := Standard(c, kinds, env);
    StandardKeeps(c, kinds, env);
    ChainKeepsOrigin(p, k, q, message);
    StandardStage(c, kinds, env, k, q, Chain(p, k, q, message).body);
  }

  lemma {:induction false} ChainLabels(c: Config, kinds: seq<Kind>, env: Env, at: nat, k: nat, q: nat, message: Payload)
    requires at < k <= |kinds| && IsNormalizer(kinds[at]) && !message.NoPayload?
    requires Chain(Standard(c, kinds, env), k, q, message).Carried?
    ensures Labels(Chain(Standard(c, kinds, env), k, q, message).body, env, message)
  {
    LastStage(c, kinds, env, k - 1, q, message);
    var before := Chain(Standard(c, kinds, env), k - 1, q, message).body;
    if at < k - 1 {
      ChainLabels(c, kinds, env, at, k - 1, q, message);
      ProcessedStaysLabelled(kinds[k - 1], env, k - 1, q, before, message);
    } else {
      NormalizedIsLabelled(kinds[k - 1], env, k - 1, q, before, message);
    }
  }

  lemma {:induction false} ChainHolds(c: Config, kinds: seq<Kind>, env: Env, at: nat, k: nat, q: nat, message: Payload)
    requires LastNormalizer(kinds, at, k) && !message.NoPayload?
    requires Chain(Standard(c, kinds, env), k, q, message).Carried?
    ensures HoldsValue(Standard(c, kinds, env), env, at, q, message, Chain(Standard(c, kinds, env), k, q, message).body)
  {
    LastStage(c, kinds, env, k - 1, q, message);
    var before := Chain(Standard(c, kinds, env), k - 1, q, message).body;
    if at < k - 1 {
      ChainHolds(c, kinds, env, at, k - 1, q, message);
      ChainLabels(c, kinds, env, at, k - 1, q, message);
      ProcessedStaysLabelled(kinds[k - 1], env, k - 1, q, before, message);
    } else {
      NormalizedIsLabelled(kinds[k - 1], env, k - 1, q, before, message);
    }
  }

  /**
   * Behind a normalizer, at whatever stage it is, everything a sink receives is labelled as the document of the
   * message the source handed out.  Its data is the marshalled value of the payload as it came to the last
   * normalizer, which but for the meta entry is the value of the message.
   */
  lemma SinkReceivesDocuments(c: Config, kinds: seq<Kind>, env: Env, ls: seq<Label<Payload>>, at: nat, j: nat, i: nat)
    requires Wired(c) && |kinds| == c.n && LastNormalizer(kinds, at, c.n)
    requires Computes(Standard(c, kinds, env), ls)
    requires j < c.m && i < |After(Standard(c, kinds, env), ls).log[c.n + j]|
    ensures var s := After(Standard(c, kinds, env), ls);
            var it := s.log[c.n + j][i];
            && it.id < |s.taken| && Labels(it.body, env, s.taken[it.id])
            && HoldsValue(Standard(c, kinds, env), env, at, it.id, s.taken[it.id], it.body)
  {
    var p := Standard(c, kinds, env);
    var s := After(p, ls);
    Delivery.SinkReceivesOnlyResults(p, ls, j, i);
    var it := s.log[c.n + j][i];
    FirstNotNil(p, c.n, it.id, s.taken[it.id]);
    ChainLabels(c, kinds, env, at, c.n, it.id, s.taken[it.id]);
    ChainHolds(c, kinds, env, at, c.n, it.id, s.taken[it.id]);
  }

  /**
   * The Kafka normalizer only ever sees clones, whose timestamp is zero: whatever reaches a sink of a pipeline
   * with one carries the index of the zero time, whatever the time of its message, and the message's identifier.
   */
  lemma OneKafkaIndex(c: Config, kinds: seq<Kind>, env: Env, ls: seq<Label<Payload>>, at: nat, j: nat, i: nat)
    requires Wired(c) && |kinds| == c.n && at < c.n && kinds[at].KafkaNormalizer?
    requires Computes(Standard(c, kinds, env), ls)
    requires j < c.m && i < |After(Standard(c, kinds, env), ls).log[c.n + j]|
    ensures var s := After(Standard(c, kinds, env), ls);
            var it := s.log[c.n + j][i];
            && it.id < |s.taken| && s.taken[it.id].Kafka? && it.body.Kafka?
            && it.body.timestamp == 0 && it.body.index == "event-data-" + env.date(0)
            && Labels(it.body, env, s.taken[it.id])
  {
    var p := Standard(c, kinds, env);
    var s := After(p, ls);
    Delivery.SinkReceivesOnlyResults(p, ls, j, i);
    var it := s.log[c.n + j][i];
    FirstNotNil(p, c.n, it.id, s.taken[it.id]);
    ChainLabels(c, kinds, env, at, c.n, it.id, s.taken[it.id]);
    OnlyKafkaPasses(c, kinds, env, at, c.n, it.id, s.taken[it.id]);
  }

  /** A Kafka normalizer lets only Kafka payloads pass. */
  lemma {:induction false} OnlyKafkaPasses(c: Config, kinds: seq<Kind>, env: Env, at: nat, k: nat, q: nat,
                                           message: Payload)
    requires at < k <= |kinds| && kinds[at].KafkaNormalizer? && !message.NoPayload?
    requires Chain(Standard(c, kinds, env), k, q, message).Carried?
    ensures message.Kafka?
  {
    if at < k - 1 {
      OnlyKafkaPasses(c, kinds, env, at, k - 1, q, message);
    } else {
      LastStage(c, kinds, env, k - 1, q, message);
    }
  }

  /** A nil payload does not get past the first stage. */
  lemma {:induction false} FirstNotNil(p: Program, k: nat, q: nat, message: Payload)
    requires k > 0 && Chain(p, k, q, message).Carried?
    ensures !message.NoPayload?
  {
    if k > 1 {
      FirstNotNil(p, k - 1, q, message);
    } else {
      assert Chain(p, 0, q, message) == Carried(message);
    }
  }

  /**
   * Which processors answer which payloads with an error, and what the others make of theirs: noop hands on what it
   * is given, the default processors add the meta entry, the normalizers set index, identifier and data.
   */
  lemma ProcessMeans(kind: Kind, env: Env, k: nat, q: nat, p: Payload)
    requires !p.NoPayload?
    ensures Process(kind, env, k, q, p).Error? <==>
      match kind
      case Noop => false
      case KafkaDefault => !p.Kafka? || p.value.None?
      case RabbitMQDefault => !p.RabbitMQ? || p.value.None?
      case KafkaNormalizer => !p.Kafka? || env.marshal(p.value).None?
      case RabbitMQNormalizer => !p.RabbitMQ? || env.marshal(p.value).None?
    ensures var r := Process(kind, env, k, q, p);
            r.Out? ==>
              match kind
              case Noop => r.payload == p
              case KafkaDefault =>
                && p.Kafka?
                && p.value.Some?
                && r.payload == Kafka(p.topic, p.partition, p.offset, p.key,
                                      Some(Entered(p.value.value, "kafka-event-data-processor", env.now(k, q))),
                                      p.timestamp, p.index, p.docID, p.data)
              case RabbitMQDefault =>
                && p.RabbitMQ?
                && p.value.Some?
                && r.payload == RabbitMQ(p.id, p.email, p.gender, p.firstName, p.lastName, p.queue,
                                         Some(Entered(p.value.value, "rabbitmq-event-data-processor", env.now(k, q))),
                                         p.timestamp, p.index, p.docID, p.data)
              case KafkaNormalizer =>
                && p.Kafka?
                && env.marshal(p.value).Some?
                && r.payload == Kafka(p.topic, p.partition, p.offset, p.key, p.value, p.timestamp,
                                      "event-data-" + env.date(p.timestamp),
                                      p.key + "." + p.topic + "." + DocIds.Decimal(p.partition) + "."
                                        + DocIds.Decimal(p.offset),
                                      env.marshal(p.value).value)
              case RabbitMQNormalizer =>
                && p.RabbitMQ?
                && env.marshal(p.value).Some?
                && r.payload == RabbitMQ(p.id, p.email, p.gender, p.firstName, p.lastName, p.queue, p.value,
                                         p.timestamp, "event-data-" + env.date(p.timestamp),
                                         p.queue + "." + DocIds.Decimal(p.id) + "." + p.email + "." + p.gender,
                                         env.marshal(p.value).value)
  {
  }

  /** The map with the three entries of a default processor under the meta key. */
  ghost function Entered(fields: Fields, id: Bytes, now: Time): Fields {
    fields["meta" := Object(map["data-processor-id" := Text(id), "data-processor-timestamp" := Number(now),
                                "data-processor-env" := Text("local")])]
  }
}
