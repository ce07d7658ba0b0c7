/** The payload structs, their pools, and the processors that write into them. */
module PayloadObjects {
  import opened Payloads
  import DocIds
  import opened Processors
  import D = Dataflow
  import Ownership

  /** A Go map[string]interface{}: shared by reference. */
  class ValueMap {
    var fields: Fields

    constructor (fields: Fields)
      ensures this.fields == fields
    {
      this.fields := fields;
    }
  }

  ghost function Deref(value: ValueMap?): Option<Fields>
    reads value
  {
    if value == null then None else Some(value.fields)
  }

  class KafkaPayload {
    var topic: Bytes
    var partition: int
    var offset: int
    var key: Bytes
    var value: ValueMap?
    var timestamp: Time
    var index: Bytes
    var docID: Bytes
    var data: Bytes

    constructor ()
      ensures Zero()
    {
      topic, partition, offset, key, value, timestamp := "", 0, 0, "", null, 0;
      index, docID, data := "", "", "";
    }

    ghost function View(): Payload
      reads this, value
    {
      Kafka(topic, partition, offset, key, Deref(value), timestamp, index, docID, data)
    }

    ghost predicate Zero()
      reads this
    {
      value == null && View() == Kafka("", 0, 0, "", None, 0, "", "", "")
    }

    /** Every field but the timestamp. */
    method Assign(from: KafkaPayload)
      requires from != this
      modifies this
      ensures timestamp == old(timestamp) && value == from.value
      ensures View() == Ownership.With(from.View(), Deref(from.value), old(timestamp))
    {
      topic, partition, offset, key, value := from.topic, from.partition, from.offset, from.key, from.value;
      index, docID, data := from.index, from.docID, from.data;
    }

    method Clone(pool: KafkaPayloadPool) returns (p: KafkaPayload)
      requires pool.Valid() && this !in pool.free
      modifies pool, pool.free
      ensures pool.Valid() && p !in pool.free && (fresh(p) || p in old(pool.free)) && pool.free == old(pool.free) - {p}
      ensures p != this && p.value == value && p.View() == CloneOf(View())
      ensures p.topic == topic && p.partition == partition && p.offset == offset && p.key == key && p.timestamp == 0
      ensures p.index == index && p.docID == docID && p.data == data
    {
      p := pool.Get();
      p.Assign(this);
    }

    method Out() returns (index: Bytes, docID: Bytes, data: Bytes)
      ensures index == this.index && docID == this.docID && data == this.data
      ensures Doc(index, Record(docID, data)) == Payloads.Out(View())
    {
      return this.index, this.docID, this.data;
    }

    method MarkAsProcessed(pool: KafkaPayloadPool)
      requires pool.Valid() && this !in pool.free
      modifies this, pool
      ensures pool.Valid() && pool.free == old(pool.free) + {this} && Zero()
      ensures old(value) != null ==> unchanged(old(value))
    {
      topic := "";
      partition := 0;
      offset := 0;
      key := "";
      value := null;
      timestamp := 0;
      docID := "";
      index := "";
      data := "";
      pool.Put(this);
    }
  }

  class KafkaPayloadPool {
    var free: set<KafkaPayload>

    ghost predicate Valid()
      reads this, free
    {
      forall p :: p in free ==> p.Zero()
    }

    constructor ()
      ensures Valid() && free == {}
    {
      free := {};
    }

    /** A recycled payload or a new one: either is zero. */
    method Get() returns (p: KafkaPayload)
      requires Valid()
      modifies this
      ensures Valid() && p.Zero() && (fresh(p) || p in old(free)) && free == old(free) - {p}
    {
      if free != {} {
        p :| p in free;
        free := free - {p};
      } else {
        p := new KafkaPayload();
      }
    }

    method Put(p: KafkaPayload)
      requires Valid() && p.Zero() && p !in free
      modifies this
      ensures Valid() && free == old(free) + {p}
    {
      free := free + {p};
    }
  }

  class RabbitMQPayload {
    var id: int
    var email: Bytes
    var gender: Bytes
    var firstName: Bytes
    var lastName: Bytes
    var queue: Bytes
    var value: ValueMap?
    var timestamp: Time
    var index: Bytes
    var docID: Bytes
    var data: Bytes

    constructor ()
      ensures Zero()
    {
      id, email, gender, firstName, lastName, queue := 0, "", "", "", "", "";
      value, timestamp, index, docID, data := null, 0, "", "", "";
    }

    ghost function View(): Payload
      reads this, value
    {
      RabbitMQ(id, email, gender, firstName, lastName, queue, Deref(value), timestamp, index, docID, data)
    }

    ghost predicate Zero()
      reads this
    {
      value == null && View() == RabbitMQ(0, "", "", "", "", "", None, 0, "", "", "")
    }

    method Assign(from: RabbitMQPayload)
      requires from != this
      modifies this
      ensures value == from.value && View() == from.View()
    {
      id, email, gender, firstName, lastName := from.id, from.email, from.gender, from.firstName, from.lastName;
      queue, value, timestamp := from.queue, from.value, from.timestamp;
      index, docID, data := from.index, from.docID, from.data;
    }

    method Clone(pool: RabbitMQPayloadPool) returns (p: RabbitMQPayload)
      requires pool.Valid() && this !in pool.free
      modifies pool, pool.free
      ensures pool.Valid() && p !in pool.free && (fresh(p) || p in old(pool.free)) && pool.free == old(pool.free) - {p}
      ensures p != this && p.value == value && p.View() == CloneOf(View())
      ensures p.id == id && p.email == email && p.gender == gender && p.queue == queue
      ensures p.firstName == firstName && p.lastName == lastName && p.timestamp == timestamp
      ensures p.index == index && p.docID == docID && p.data == data
    {
      p := pool.Get();
      p.Assign(this);
    }

    method Out() returns (index: Bytes, docID: Bytes, data: Bytes)
      ensures index == this.index && docID == this.docID && data == this.data
      ensures Doc(index, Record(docID, data)) == Payloads.Out(View())
    {
      return this.index, this.docID, this.data;
    }

    method MarkAsProcessed(pool: RabbitMQPayloadPool)
      requires pool.Valid() && this !in pool.free
      modifies this, pool
      ensures pool.Valid() && pool.free == old(pool.free) + {this} && Zero()
      ensures old(value) != null ==> unchanged(old(value))
    {
      id := 0;
      email := "";
      gender := "";
      lastName := "";
      firstName := "";
      queue := "";
      value := null;
      timestamp := 0;
      docID := "";
      index := "";
      data := "";
      pool.Put(this);
    }
  }

  class RabbitMQPayloadPool {
    var free: set<RabbitMQPayload>

    ghost predicate Valid()
      reads this, free
    {
      forall p :: p in free ==> p.Zero()
    }

    constructor ()
      ensures Valid() && free == {}
    {
      free := {};
    }

    method Get() returns (p: RabbitMQPayload)
      requires Valid()
      modifies this
      ensures Valid() && p.Zero() && (fresh(p) || p in old(free)) && free == old(free) - {p}
    {
      if free != {} {
        p :| p in free;
        free := free - {p};
      } else {
        p := new RabbitMQPayload();
      }
    }

    method Put(p: RabbitMQPayload)
      requires Valid() && p.Zero() && p !in free
      modifies this
      ensures Valid() && free == old(free) + {p}
    {
      free := free + {p};
    }
  }

  /** Writes the meta entry into the shared map, and nothing else; without a map it fails. */
  method KafkaDefaultProcess(p: KafkaPayload, now: Time) returns (ok: bool)
    modifies p.value
    ensures ok <==> p.value != null
    ensures ok ==> p.value.fields == old(p.value.fields)["meta" := Object(map[
                     "data-processor-id" := Text("kafka-event-data-processor"),
                     "data-processor-timestamp" := Number(now), "data-processor-env" := Text("local")])]
    ensures Default(old(p.View()), now) == if ok then D.Out(p.View()) else D.Error
  {
    if p.value == null {
      return false;
    }
    InjectMeta(p.value, "kafka-event-data-processor", now);
    return true;
  }

  method RabbitMQDefaultProcess(p: RabbitMQPayload, now: Time) returns (ok: bool)
    modifies p.value
    ensures ok <==> p.value != null
    ensures ok ==> p.value.fields == old(p.value.fields)["meta" := Object(map[
                     "data-processor-id" := Text("rabbitmq-event-data-processor"),
                     "data-processor-timestamp" := Number(now), "data-processor-env" := Text("local")])]
    ensures Default(old(p.View()), now) == if ok then D.Out(p.View()) else D.Error
  {
    if p.value == null {
      return false;
    }
    InjectMeta(p.value, "rabbitmq-event-data-processor", now);
    return true;
  }

  /** Writes the meta entry into the map, whoever else refers to it. */
  method InjectMeta(value: ValueMap, id: Bytes, now: Time)
    modifies value
    ensures value.fields == old(value.fields)["meta" := Object(map[
              "data-processor-id" := Text(id), "data-processor-timestamp" := Number(now),
              "data-processor-env" := Text("local")])]
  {
    var meta: Fields := map[];
    meta := meta["data-processor-id" := Text(id)];
    meta := meta["data-processor-timestamp" := Number(now)];
    meta := meta["data-processor-env" := Text("local")];
    value.fields := value.fields["meta" := Object(meta)];
    assert meta == map["data-processor-id" := Text(id), "data-processor-timestamp" := Number(now),
                       "data-processor-env" := Text("local")];
  }

  /** Writes index and identifier, and the marshalled value if there is no error; nothing else changes. */
  method NormalizeKafkaPayload(p: KafkaPayload, env: Env) returns (ok: bool)
    modifies p
    ensures ok <==> env.marshal(old(Deref(p.value))).Some?
    ensures p.index == "event-data-" + env.date(old(p.timestamp))
    ensures p.docID == old(p.key) + "." + old(p.topic) + "." + DocIds.Decimal(old(p.partition)) + "."
                         + DocIds.Decimal(old(p.offset))
    ensures if ok then env.marshal(old(Deref(p.value))) == Some(p.data) else p.data == old(p.data)
    ensures p.topic == old(p.topic) && p.partition == old(p.partition) && p.offset == old(p.offset)
    ensures p.key == old(p.key) && p.value == old(p.value) && p.timestamp == old(p.timestamp)
    ensures Normalize(old(p.View()), env) == if ok then D.Out(p.View()) else D.Error
  {
    p.index := INDEX + env.date(p.timestamp);
    p.docID := DocIds.KafkaDocID(p.key, p.topic, p.partition, p.offset);
    var data := env.marshal(if p.value == null then None else Some(p.value.fields));
    match data
    case None =>
      return false;
    case Some(bytes) =>
      p.data := bytes;
      return true;
  }

  method NormalizeRabbitMQPayload(p: RabbitMQPayload, env: Env) returns (ok: bool)
    modifies p
    ensures ok <==> env.marshal(old(Deref(p.value))).Some?
    ensures p.index == "event-data-" + env.date(old(p.timestamp))
    ensures p.docID == old(p.queue) + "." + DocIds.Decimal(old(p.id)) + "." + old(p.email) + "." + old(p.gender)
    ensures if ok then env.marshal(old(Deref(p.value))) == Some(p.data) else p.data == old(p.data)
    ensures p.id == old(p.id) && p.email == old(p.email) && p.gender == old(p.gender) && p.queue == old(p.queue)
    ensures p.firstName == old(p.firstName) && p.lastName == old(p.lastName)
    ensures p.value == old(p.value) && p.timestamp == old(p.timestamp)
    ensures Normalize(old(p.View()), env) == if ok then D.Out(p.View()) else D.Error
  {
    p.index := INDEX + env.date(p.timestamp);
    p.docID := DocIds.RabbitMQDocID(p.queue, p.id, p.email, p.gender);
    var data := env.marshal(if p.value == null then None else Some(p.value.fields));
    match data
    case None =>
      return false;
    case Some(bytes) =>
      p.data := bytes;
      return true;
  }
}
