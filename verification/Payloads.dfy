/** Payload values: the fields of the two payload types, and what a clone keeps of them. */
module Payloads {

  /** A Go string or []byte is a sequence of bytes; each byte is one char here. */
  type Bytes = seq<char>

  datatype Option<+T> = None | Some(value: T)

  /** A decoded JSON value; a Go map[string]interface{} is an object's field map. */
  datatype Json = Null | Text(text: Bytes) | Number(number: int) | Object(fields: map<Bytes, Json>)

  type Fields = map<Bytes, Json>

  /** time.Time in nanoseconds; the zero time is 0. */
  type Time = int

  /** The payload interface value: nil, or a pointer to one of the two payload structs. */
  datatype Payload =
    | NoPayload
    | Kafka(topic: Bytes, partition: int, offset: int, key: Bytes, value: Option<Fields>, timestamp: Time,
            index: Bytes, docID: Bytes, data: Bytes)
    | RabbitMQ(id: int, email: Bytes, gender: Bytes, firstName: Bytes, lastName: Bytes, queue: Bytes,
               value: Option<Fields>, timestamp: Time, index: Bytes, docID: Bytes, data: Bytes)

  /** A document without its index, as it stands in the body of a bulk request. */
  datatype Record = Record(docID: Bytes, data: Bytes)

  datatype Doc = Doc(index: Bytes, record: Record)

  /** What Payload.Out returns. */
  function Out(p: Payload): Doc
    requires !p.NoPayload?
  {
    Doc(p.index, Record(p.docID, p.data))
  }

  /** What a clone keeps: the Kafka clone leaves the timestamp at its zero value. */
  function CloneOf(p: Payload): Payload {
    match p
    case Kafka(t, part, off, key, value, _, index, docID, data) =>
      Kafka(t, part, off, key, value, 0, index, docID, data)
    case _ => p
  }
}
