/** The document identifiers the normalizers print, and that they can be read back. */
module DocIds {
  import opened Payloads
  import Float64

  // ----- Decimal numbers -----

  function Digit(d: nat): char
    requires d < 10
  {
    ['0', '1', '2', '3', '4', '5', '6', '7', '8', '9'][d]
  }

  function Digits(n: nat): Bytes {
    if n < 10 then [Digit(n)] else Digits(n / 10) + [Digit(n % 10)]
  }

  /** An integer printed in decimal: strconv.FormatFloat(f, 'f', 0, 64) of an integral f, and %v of an int. */
  function Decimal(n: int): Bytes {
    if n < 0 then "-" + Digits(-n) else Digits(n)
  }

  function DigitValue(c: char): nat {
    if '0' <= c <= '9' then (c - '0') as int else 0
  }

  function DigitsValue(b: Bytes): nat {
    if b == [] then 0 else 10 * DigitsValue(b[..|b| - 1]) + DigitValue(b[|b| - 1])
  }

  function DecimalValue(b: Bytes): int {
    if b != [] && b[0] == '-' then 0 - DigitsValue(b[1..]) else DigitsValue(b)
  }

  ghost predicate Dotless(b: Bytes) {
    forall i :: 0 <= i < |b| ==> b[i] != '.'
  }

  lemma DigitRead(d: nat)
    requires d < 10
    ensures DigitValue(Digit(d)) == d && Digit(d) != '.' && Digit(d) != '-'
  {
    assert d == 0 || d == 1 || d == 2 || d == 3 || d == 4 || d == 5 || d == 6 || d == 7 || d == 8 || d == 9;
  }

  lemma {:induction false} DigitsRead(n: nat)
    ensures DigitsValue(Digits(n)) == n && Digits(n) != [] && Digits(n)[0] != '-' && Dotless(Digits(n))
  {
    DigitRead(n % 10);
    if n < 10 {
      assert [Digit(n)][..0] == [];
    } else {
      var front := Digits(n / 10);
      DigitsRead(n / 10);
      assert (front + [Digit(n % 10)])[..|front|] == front;
    }
  }

  /** Decimal numbers have no slashes. */
  lemma {:induction false} DigitsSlashless(n: nat)
    ensures '/' !in Digits(n)
  {
    if n >= 10 {
      DigitsSlashless(n / 10);
    }
  }

  lemma DecimalRead(n: int)
    ensures DecimalValue(Decimal(n)) == n && Dotless(Decimal(n))
  {
    if n < 0 {
      var digits := Digits(-n);
      DigitsRead(-n);
      assert Decimal(n) == ['-'] + digits;
      assert (['-'] + digits)[1..] == digits;
    } else {
      DigitsRead(n);
    }
  }

  /** Numbers are written as one is used to. */
  lemma DecimalText()
    ensures Decimal(0) == "0" && Decimal(7309) == "7309" && Decimal(-1248) == "-1248" && Decimal(56) == "56"
  {
    assert Digits(730) == Digits(73) + ['0'];
    assert Digits(124) == Digits(12) + ['4'];
  }

  // ----- Splitting at dots -----

  function FirstDot(b: Bytes): (k: nat)
    ensures k <= |b|
  {
    if b == [] || b[0] == '.' then 0 else 1 + FirstDot(b[1..])
  }

  function LastDot(b: Bytes): (k: int)
    ensures -1 <= k < |b|
  {
    if b == [] then -1 else if b[|b| - 1] == '.' then |b| - 1 else LastDot(b[..|b| - 1])
  }

  lemma {:induction false} FirstDotAfter(a: Bytes, b: Bytes)
    requires Dotless(a)
    ensures FirstDot(a + "." + b) == |a|
  {
    if a != [] {
      FirstDotAfter(a[1..], b);
      assert (a + "." + b)[1..] == a[1..] + "." + b;
    }
  }

  lemma {:induction false} LastDotBefore(a: Bytes, b: Bytes)
    requires Dotless(b)
    ensures LastDot(a + "." + b) == |a|
  {
    var s := a + "." + b;
    if b != [] {
      LastDotBefore(a, b[..|b| - 1]);
      assert s[..|s| - 1] == a + "." + b[..|b| - 1];
    }
  }

  // ----- Kafka -----

  function KafkaDocID(key: Bytes, topic: Bytes, partition: int, offset: int): Bytes {
    key + "." + topic + "." + Decimal(partition) + "." + Decimal(offset)
  }

  /** Reads the identifier from the right, knowing the topic. */
  function ReadKafkaDocID(topic: Bytes, docID: Bytes): Option<(Bytes, int, int)> {
    var k := LastDot(docID);
    if k < 0 then None
    else
      var j := LastDot(docID[..k]);
      if j < |topic| + 1 then None
      else Some((docID[..j - |topic| - 1], DecimalValue(docID[j + 1..k]), DecimalValue(docID[k + 1..])))
  }

  lemma KafkaTailRead(key: Bytes, topic: Bytes, partition: Bytes, offset: Bytes)
    requires Dotless(partition) && Dotless(offset)
    ensures var id := key + "." + topic + "." + partition + "." + offset;
            var k, j := |key| + |topic| + |partition| + 2, |key| + |topic| + 1;
            && LastDot(id) == k && LastDot(id[..k]) == j
            && id[..|key|] == key && id[j + 1..k] == partition && id[k + 1..] == offset
  {
    var a := key + "." + topic;
    var b := a + "." + partition;
    var id := b + "." + offset;
    LastDotBefore(b, offset);
    assert id[..|b|] == b;
    LastDotBefore(a, partition);
  }

  lemma KafkaStringsRead(key: Bytes, topic: Bytes, partition: Bytes, offset: Bytes)
    requires Dotless(partition) && Dotless(offset)
    ensures ReadKafkaDocID(topic, key + "." + topic + "." + partition + "." + offset)
         == Some((key, DecimalValue(partition), DecimalValue(offset)))
  {
    KafkaTailRead(key, topic, partition, offset);
  }

  /** For a fixed topic the identifier determines key, partition and offset. */
  lemma KafkaDocIDRead(key: Bytes, topic: Bytes, partition: int, offset: int)
    ensures ReadKafkaDocID(topic, KafkaDocID(key, topic, partition, offset)) == Some((key, partition, offset))
  {
    DecimalRead(partition);
    DecimalRead(offset);
    KafkaStringsRead(key, topic, Decimal(partition), Decimal(offset));
  }

  /** It has slashes only if the key or the topic has. */
  lemma KafkaDocIDSlashless(key: Bytes, topic: Bytes, partition: int, offset: int)
    requires '/' !in key && '/' !in topic
    ensures '/' !in KafkaDocID(key, topic, partition, offset) && |KafkaDocID(key, topic, partition, offset)| > 2
  {
    DecimalSlashless(partition);
    DecimalSlashless(offset);
  }

  lemma DecimalSlashless(n: int)
    ensures '/' !in Decimal(n)
  {
    DigitsSlashless(if n < 0 then -n else n);
  }

  /** What identifies a consumed message in its topic: partition and offset travel as float64. */
  datatype Coordinates = Coordinates(key: Bytes, partition: int, offset: int)

  /**
   * The identifier of a consumed message.  text(key) is the key after the JSON round trip on the way to the
   * payload: json.Marshal replaces bytes that are not UTF-8, so different keys can come out the same.
   */
  function MessageDocID(text: Bytes -> Bytes, topic: Bytes, m: Coordinates): Bytes {
    KafkaDocID(text(m.key), topic, Float64.OfInt(m.partition), Float64.OfInt(m.offset))
  }

  /** Partitions are 32-bit, offsets 63-bit numbers. */
  ghost predicate WellFormed(m: Coordinates) {
    0 <= m.partition < 0x8000_0000 && 0 <= m.offset < 0x8000_0000_0000_0000
  }

  /**
   * Two messages of a topic share an identifier exactly if their partitions agree, their keys as text, and their
   * offsets as binary64 numbers.
   */
  lemma MessageDocIDEqual(text: Bytes -> Bytes, topic: Bytes, a: Coordinates, b: Coordinates)
    requires WellFormed(a) && WellFormed(b)
    ensures MessageDocID(text, topic, a) == MessageDocID(text, topic, b)
       <==> && text(a.key) == text(b.key) && a.partition == b.partition
            && Float64.OfInt(a.offset) == Float64.OfInt(b.offset)
    ensures a.offset <= Float64.EXACT && b.offset <= Float64.EXACT
            ==> (Float64.OfInt(a.offset) == Float64.OfInt(b.offset) <==> a.offset == b.offset)
  {
    KafkaDocIDRead(text(a.key), topic, Float64.OfInt(a.partition), Float64.OfInt(a.offset));
    KafkaDocIDRead(text(b.key), topic, Float64.OfInt(b.partition), Float64.OfInt(b.offset));
    Float64.OfIntExact(a.partition);
    Float64.OfIntExact(b.partition);
    Float64.OfIntExact(a.offset);
    Float64.OfIntExact(b.offset);
  }

  /** With keys that survive the round trip and offsets up to 2^53 the identifier is the message's own. */
  lemma MessageDocIDUnique(text: Bytes -> Bytes, topic: Bytes, a: Coordinates, b: Coordinates)
    requires WellFormed(a) && WellFormed(b) && text(a.key) == a.key && text(b.key) == b.key
    requires a.offset <= Float64.EXACT && b.offset <= Float64.EXACT
    ensures MessageDocID(text, topic, a) == MessageDocID(text, topic, b) <==> a == b
  {
    MessageDocIDEqual(text, topic, a, b);
  }

  /** Beyond 2^53, and with keys that become the same text, different messages do share one: these. */
  lemma MessageDocIDCollides(text: Bytes -> Bytes, topic: Bytes, key: Bytes, other: Bytes)
    requires text(key) == text(other)
    ensures MessageDocID(text, topic, Coordinates(key, 0, Float64.EXACT))
         == MessageDocID(text, topic, Coordinates(other, 0, Float64.EXACT + 1))
  {
    Float64.OfIntCollides();
  }

  // ----- RabbitMQ -----

  function RabbitMQDocID(queue: Bytes, id: int, email: Bytes, gender: Bytes): Bytes {
    queue + "." + Decimal(id) + "." + email + "." + gender
  }

  /** Reads the number up to the first dot behind the queue, and the gender behind the last one. */
  function ReadRabbitMQDocID(queue: Bytes, docID: Bytes): Option<(int, Bytes, Bytes)> {
    if |docID| < |queue| + 1 then None
    else
      var rest := docID[|queue| + 1..];
      var i, k := FirstDot(rest), LastDot(rest);
      if k <= i then None else Some((DecimalValue(rest[..i]), rest[i + 1..k], rest[k + 1..]))
  }

  lemma RabbitMQTailRead(number: Bytes, email: Bytes, gender: Bytes)
    requires Dotless(number) && Dotless(gender)
    ensures var rest := number + "." + email + "." + gender;
            && FirstDot(rest) == |number| && LastDot(rest) == |number| + 1 + |email|
            && rest[..|number|] == number && rest[|number| + 1..|number| + 1 + |email|] == email
            && rest[|number| + 2 + |email|..] == gender
  {
    var rest := number + "." + email + "." + gender;
    assert rest == number + "." + (email + "." + gender);
    FirstDotAfter(number, email + "." + gender);
    LastDotBefore(number + "." + email, gender);
  }

  lemma BehindQueue(queue: Bytes, number: Bytes, email: Bytes, gender: Bytes)
    ensures var docID := queue + "." + number + "." + email + "." + gender;
            |docID| >= |queue| + 1 && docID[|queue| + 1..] == number + "." + email + "." + gender
  {
    var tail := number + "." + email + "." + gender;
    assert queue + "." + number + "." + email + "." + gender == (queue + ".") + tail;
  }

  lemma RabbitMQStringsRead(queue: Bytes, number: Bytes, email: Bytes, gender: Bytes)
    requires Dotless(number) && Dotless(gender)
    ensures ReadRabbitMQDocID(queue, queue + "." + number + "." + email + "." + gender)
         == Some((DecimalValue(number), email, gender))
  {
    RabbitMQTailRead(number, email, gender);
    BehindQueue(queue, number, email, gender);
  }

  /** For a fixed queue and a gender without dots the identifier determines id, email and gender. */
  lemma RabbitMQDocIDRead(queue: Bytes, id: int, email: Bytes, gender: Bytes)
    requires Dotless(gender)
    ensures ReadRabbitMQDocID(queue, RabbitMQDocID(queue, id, email, gender)) == Some((id, email, gender))
  {
    DecimalRead(id);
    RabbitMQStringsRead(queue, Decimal(id), email, gender);
  }

  /** The number can always be read, and what follows it. */
  lemma RabbitMQHeadRead(queue: Bytes, id: int, rest: Bytes, docID: Bytes)
    requires docID == (queue + ".") + (Decimal(id) + "." + rest)
    ensures |docID| >= |queue| + 1
    ensures var tail := docID[|queue| + 1..];
            FirstDot(tail) < |tail| && DecimalValue(tail[..FirstDot(tail)]) == id && tail[FirstDot(tail) + 1..] == rest
  {
    var number := Decimal(id);
    assert docID[|queue| + 1..] == number + "." + rest;
    DecimalRead(id);
    FirstDotAfter(number, rest);
    assert (number + "." + rest)[..|number|] == number;
  }

  lemma JoinedWith(queue: Bytes, number: Bytes, email: Bytes, gender: Bytes)
    ensures queue + "." + number + "." + email + "." + gender
         == (queue + ".") + (number + "." + (email + "." + gender))
  {
  }

  /** Two messages of a queue share an identifier exactly if the ids agree and the emails and genders do, joined. */
  lemma RabbitMQDocIDEqual(queue: Bytes, id: int, email: Bytes, gender: Bytes, id': int, email': Bytes, gender': Bytes)
    ensures RabbitMQDocID(queue, id, email, gender) == RabbitMQDocID(queue, id', email', gender')
       <==> id == id' && email + "." + gender == email' + "." + gender'
  {
    var a, b := RabbitMQDocID(queue, id, email, gender), RabbitMQDocID(queue, id', email', gender');
    JoinedWith(queue, Decimal(id), email, gender);
    JoinedWith(queue, Decimal(id'), email', gender');
    RabbitMQHeadRead(queue, id, email + "." + gender, a);
    RabbitMQHeadRead(queue, id', email' + "." + gender', b);
  }

  lemma SplitAtDot(b: Bytes) returns (front: Bytes, back: Bytes)
    requires !Dotless(b)
    ensures b == front + "." + back
  {
    var i :| 0 <= i < |b| && b[i] == '.';
    front, back := b[..i], b[i + 1..];
  }

  /** Every gender with a dot gives an ambiguous identifier: what is before the dot can move into the email. */
  lemma RabbitMQDocIDAmbiguous(queue: Bytes, id: int, email: Bytes, gender: Bytes)
    returns (email': Bytes, gender': Bytes)
    requires !Dotless(gender)
    ensures gender' != gender && RabbitMQDocID(queue, id, email, gender) == RabbitMQDocID(queue, id, email', gender')
  {
    var front, back := SplitAtDot(gender);
    email', gender' := email + "." + front, back;
    assert email + "." + gender == email' + "." + gender';
    RabbitMQDocIDEqual(queue, id, email, gender, id, email', gender');
  }

  /** And so does every email with a dot, moved into the gender. */
  lemma RabbitMQEmailAmbiguous(queue: Bytes, id: int, email: Bytes, gender: Bytes)
    returns (email': Bytes, gender': Bytes)
    requires !Dotless(email)
    ensures gender' != gender && RabbitMQDocID(queue, id, email, gender) == RabbitMQDocID(queue, id, email', gender')
  {
    var front, back := SplitAtDot(email);
    email', gender' := front, back + "." + gender;
    assert email + "." + gender == email' + "." + gender';
    RabbitMQDocIDEqual(queue, id, email, gender, id, email', gender');
  }

  ghost predicate OnlyOf(queue: Bytes, id: int, email: Bytes, gender: Bytes) {
    forall id', email', gender' :: RabbitMQDocID(queue, id', email', gender') == RabbitMQDocID(queue, id, email, gender)
      ==> id' == id && email' == email && gender' == gender
  }

  /** An identifier belongs to one message of its queue exactly if neither the email nor the gender has a dot. */
  lemma RabbitMQDocIDUnique(queue: Bytes, id: int, email: Bytes, gender: Bytes)
    ensures OnlyOf(queue, id, email, gender) <==> Dotless(email) && Dotless(gender)
  {
    if !Dotless(gender) {
      var email', gender' := RabbitMQDocIDAmbiguous(queue, id, email, gender);
    } else if !Dotless(email) {
      var email', gender' := RabbitMQEmailAmbiguous(queue, id, email, gender);
    } else {
      forall id', email', gender' |
        RabbitMQDocID(queue, id', email', gender') == RabbitMQDocID(queue, id, email, gender)
        ensures id' == id && email' == email && gender' == gender
      {
        RabbitMQDocIDEqual(queue, id', email', gender', id, email, gender);
        OneDot(email, gender, email', gender');
      }
    }
  }

  lemma OneDot(a: Bytes, b: Bytes, a': Bytes, b': Bytes)
    requires Dotless(a) && Dotless(b) && a + "." + b == a' + "." + b'
    ensures a == a' && b == b'
  {
    var s := a + "." + b;
    assert s[|a'|] == '.';
    assert forall i :: 0 <= i < |s| && i != |a| ==> s[i] == (if i < |a| then a[i] else b[i - |a| - 1]);
    assert |a'| == |a|;
    assert s[..|a|] == a && s[..|a|] == a' && s[|a| + 1..] == b && s[|a| + 1..] == b';
  }
}
