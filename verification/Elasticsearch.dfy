/**
 * The Elasticsearch storage: a buffer of records flushed as one bulk request at 1000 records, kept on failure,
 * and a retry loop over one reader.  The server answers adversarially.
 */
module Elasticsearch {
  import opened Payloads
  import opened BulkBody

  /**
   * What one call of client.Bulk does: it fails, having taken some bytes from the reader, or the server answers
   * with an error status, an unreadable body, or a status per item.  A server may have applied records of any
   * request but one it answers item by item.  Fatal is an answer that the code does not survive: an error status
   * whose body has no error object, or a body that is the JSON value null.
   */
  datatype Attempt =
    | RequestError(taken: nat, applied: seq<Record>)
    | HttpError(applied: seq<Record>)
    | BadBody(applied: seq<Record>)
    | Fatal(applied: seq<Record>)
    | Response(statuses: seq<nat>)

  datatype Outcome = Indexed(n: nat) | Rejected | GaveUp | Unparsed | Panicked

  const THRESHOLD: nat := 1000

  // ----- The server's documents -----

  type Docs = map<(Bytes, Bytes), Bytes>

  /** Records written one after the other: the last writer of a document wins. */
  ghost function Fold(docs: Docs, index: Bytes, rs: seq<Record>): Docs {
    if rs == [] then docs
    else Fold(docs, index, rs[..|rs| - 1])[(index, rs[|rs| - 1].docID) := rs[|rs| - 1].data]
  }

  /** The answer has an item for record i, and its status is no error. */
  ghost predicate Fine(statuses: seq<nat>, i: nat) {
    i < |statuses| && statuses[i] <= 201
  }

  /** The records that the answer says were written. */
  ghost function Passed(rs: seq<Record>, statuses: seq<nat>): seq<Record> {
    if rs == [] then []
    else Passed(rs[..|rs| - 1], statuses) + if Fine(statuses, |rs| - 1) then [rs[|rs| - 1]] else []
  }

  ghost function Ingest(docs: Docs, index: Bytes, body: Bytes, statuses: seq<nat>): Docs {
    match Parse(body)
    case None => docs
    case Some(rs) => Fold(docs, index, Passed(rs, statuses))
  }

  // ----- bulkWrite -----

  function GoodItems(statuses: seq<nat>): (n: nat)
    ensures n <= |statuses|
  {
    if statuses == [] then 0
    else GoodItems(statuses[..|statuses| - 1]) + if statuses[|statuses| - 1] > 201 then 0 else 1
  }

  ghost function Good(statuses: seq<nat>): set<nat> {
    set i: nat | i < |statuses| && statuses[i] <= 201
  }

  lemma GoodLast(statuses: seq<nat>)
    requires statuses != []
    ensures var last: nat := |statuses| - 1;
            && Good(statuses) == Good(statuses[..last]) + (if statuses[last] <= 201 then {last} else {})
            && last !in Good(statuses[..last])
  {
    var last: nat := |statuses| - 1;
    forall i: nat | i < last ensures i in Good(statuses) <==> i in Good(statuses[..last]) {
      assert statuses[..last][i] == statuses[i];
    }
  }

  /** It counts the items whose status is at most 201, created and updated. */
  lemma {:induction false} GoodItemsCounts(statuses: seq<nat>)
    ensures GoodItems(statuses) == |Good(statuses)|
  {
    if statuses != [] {
      var last: nat := |statuses| - 1;
      GoodItemsCounts(statuses[..last]);
      GoodLast(statuses);
    }
  }

  predicate MayRetry(maxRetries: int, retry: nat) {
    !(maxRetries >= 0 && retry > maxRetries)
  }

  /** After this answer the loop goes round again. */
  ghost predicate Retries(maxRetries: int, retry: nat, a: Attempt) {
    a.RequestError? && MayRetry(maxRetries, retry + 1)
  }

  /** The script has an answer for every request that a call makes. */
  ghost predicate Decided(maxRetries: int, retry: nat, script: seq<Attempt>)
    decreases script
  {
    script != [] && (Retries(maxRetries, retry, script[0]) ==> Decided(maxRetries, retry + 1, script[1..]))
  }

  /** How many requests a call makes: the last one ends it. */
  ghost function Requests(maxRetries: int, retry: nat, script: seq<Attempt>): (n: nat)
    requires Decided(maxRetries, retry, script)
    ensures 1 <= n <= |script|
    decreases script
  {
    if Retries(maxRetries, retry, script[0]) then 1 + Requests(maxRetries, retry + 1, script[1..]) else 1
  }

  function Remaining(rest: Bytes, taken: nat): Bytes {
    if taken < |rest| then rest[taken..] else []
  }

  /** What a call comes to when this is the answer to its last request. */
  ghost function OutcomeOf(a: Attempt): Outcome {
    match a
    case RequestError(_, _) => GaveUp
    case HttpError(_) => Rejected
    case BadBody(_) => Unparsed
    case Fatal(_) => Panicked
    case Response(statuses) => Indexed(GoodItems(statuses))
  }

  /** The server's documents after a request that offered these bytes. */
  ghost function DocsAfter(docs: Docs, index: Bytes, offered: Bytes, a: Attempt): Docs {
    if a.Response? then Ingest(docs, index, offered, a.statuses) else Fold(docs, index, a.applied)
  }

  /** The bytes each request of a call offered, and what came of the call. */
  datatype Sent = Sent(bodies: seq<Bytes>, outcome: Outcome, docs: Docs)

  /** The same call with requests made before. */
  ghost function Behind(bodies: seq<Bytes>, sent: Sent): Sent {
    Sent(bodies + sent.bodies, sent.outcome, sent.docs)
  }

  ghost function BulkSpec(maxRetries: int, retry: nat, index: Bytes, rest: Bytes, script: seq<Attempt>, docs: Docs)
    : Sent
    requires Decided(maxRetries, retry, script)
    decreases script
  {
    var docs' := DocsAfter(docs, index, rest, script[0]);
    if Retries(maxRetries, retry, script[0]) then
      Behind([rest], BulkSpec(maxRetries, retry + 1, index, Remaining(rest, script[0].taken), script[1..], docs'))
    else Sent([rest], OutcomeOf(script[0]), docs')
  }

  lemma {:induction false} OutcomeLasts(maxRetries: int, retry: nat, index: Bytes, rest: Bytes, script: seq<Attempt>,
                                        docs: Docs)
    requires Decided(maxRetries, retry, script)
    ensures BulkSpec(maxRetries, retry, index, rest, script, docs).outcome
         == OutcomeOf(LastOf(maxRetries, retry, script))
    decreases script
  {
    if Retries(maxRetries, retry, script[0]) {
      OutcomeLasts(maxRetries, retry + 1, index, Remaining(rest, script[0].taken), script[1..],
                   DocsAfter(docs, index, rest, script[0]));
    }
  }

  /** The attempt that ends the call. */
  ghost function LastOf(maxRetries: int, retry: nat, script: seq<Attempt>): Attempt
    requires Decided(maxRetries, retry, script)
    decreases script
  {
    if Retries(maxRetries, retry, script[0]) then LastOf(maxRetries, retry + 1, script[1..]) else script[0]
  }

  lemma {:induction false} LastIsAt(maxRetries: int, retry: nat, script: seq<Attempt>)
    requires Decided(maxRetries, retry, script)
    ensures LastOf(maxRetries, retry, script) == script[Requests(maxRetries, retry, script) - 1]
    decreases script
  {
    if Retries(maxRetries, retry, script[0]) {
      LastIsAt(maxRetries, retry + 1, script[1..]);
    }
  }

  /** The outcome of a call is that of its last attempt. */
  lemma LastAttempt(maxRetries: int, retry: nat, index: Bytes, rest: Bytes, script: seq<Attempt>, docs: Docs)
    requires Decided(maxRetries, retry, script)
    ensures BulkSpec(maxRetries, retry, index, rest, script, docs).outcome
         == OutcomeOf(script[Requests(maxRetries, retry, script) - 1])
  {
    OutcomeLasts(maxRetries, retry, index, rest, script, docs);
    LastIsAt(maxRetries, retry, script);
  }

  /** One round of the loop, after requests that offered `bodies`. */
  lemma OneRound(maxRetries: int, retry: nat, index: Bytes, rest: Bytes, script: seq<Attempt>, docs: Docs,
                 bodies: seq<Bytes>)
    requires Decided(maxRetries, retry, script)
    ensures var docs' := DocsAfter(docs, index, rest, script[0]);
            Behind(bodies, BulkSpec(maxRetries, retry, index, rest, script, docs))
            == if Retries(maxRetries, retry, script[0]) then
                 Behind(bodies + [rest], BulkSpec(maxRetries, retry + 1, index, Remaining(rest, script[0].taken),
                                                  script[1..], docs'))
               else Sent(bodies + [rest], OutcomeOf(script[0]), docs')
  {
    if Retries(maxRetries, retry, script[0]) {
      var later := BulkSpec(maxRetries, retry + 1, index, Remaining(rest, script[0].taken), script[1..],
                            DocsAfter(docs, index, rest, script[0]));
      assert bodies + ([rest] + later.bodies) == bodies + [rest] + later.bodies;
    }
  }

  // ----- Write -----

  datatype Batch = Batch(index: Bytes, docs: seq<Doc>, failures: nat, outcome: Outcome)

  datatype Store = Store(
    buffered: seq<Doc>,
    completed: seq<Batch>,
    failures: nat,        // failed flushes since the buffer was last reset
    total: nat,           // the write-total counter
    returned: nat,        // sum of all numbers Write returned
    docs: Docs)           // the server's documents

  function Records(ds: seq<Doc>): (rs: seq<Record>)
    ensures |rs| == |ds|
  {
    seq(|ds|, i requires 0 <= i < |ds| => ds[i].record)
  }

  lemma EncodeRecords(ds: seq<Doc>, d: Doc)
    ensures Encode(Records(ds + [d])) == Encode(Records(ds)) + (Meta(d.record.docID) + "\n") + (d.record.data + "\n")
  {
    assert Records(ds + [d]) == Records(ds) + [d.record];
    EncodeAppend(Records(ds), d.record);
  }

  predicate Valid(doc: Option<Doc>) {
    doc.Some? && doc.value.index != "" && doc.value.record.docID != "" && doc.value.record.data != ""
  }

  ghost function Flush(maxRetries: int, st: Store, index: Bytes, script: seq<Attempt>): Sent
    requires Decided(maxRetries, 0, script)
  {
    BulkSpec(maxRetries, 0, index, Encode(Records(st.buffered)), script, st.docs)
  }

  /** A panic leaves the buffer as a failure does; it ends the process. */
  ghost function AfterFlush(st: Store, index: Bytes, sent: Sent): Store {
    match sent.outcome
    case Indexed(n) =>
      Store([], st.completed + [Batch(index, st.buffered, st.failures, sent.outcome)], 0, st.total + n,
            st.returned + n, sent.docs)
    case Rejected =>
      Store([], st.completed + [Batch(index, st.buffered, st.failures, sent.outcome)], 0, st.total, st.returned,
            sent.docs)
    case _ => st.(failures := st.failures + 1, docs := sent.docs)
  }

  ghost function WriteSpec(maxRetries: int, st: Store, doc: Option<Doc>, script: seq<Attempt>): Store
    requires Decided(maxRetries, 0, script)
  {
    if !Valid(doc) then st
    else
      var st1 := st.(buffered := st.buffered + [doc.value]);
      if |st1.buffered| < THRESHOLD then st1
      else AfterFlush(st1, doc.value.index, Flush(maxRetries, st1, doc.value.index, script))
  }

  /** Which flushes empty the buffer, and what they count. */
  lemma FlushMeans(st: Store, index: Bytes, sent: Sent)
    ensures var st', n := AfterFlush(st, index, sent), if sent.outcome.Indexed? then sent.outcome.n else 0;
            && st'.total == st.total + n && st'.returned == st.returned + n
            && st'.buffered == (if sent.outcome.Indexed? || sent.outcome.Rejected? then [] else st.buffered)
  {
  }

  lemma CallPanics(maxRetries: int, index: Bytes, body: Bytes, script: seq<Attempt>, docs: Docs)
    requires Decided(maxRetries, 0, script)
    ensures BulkSpec(maxRetries, 0, index, body, script, docs).outcome.Panicked?
       <==> script[Requests(maxRetries, 0, script) - 1].Fatal?
  {
    LastAttempt(maxRetries, 0, index, body, script, docs);
  }

  /** Which end in a panic. */
  lemma FlushPanics(maxRetries: int, st: Store, index: Bytes, script: seq<Attempt>)
    requires Decided(maxRetries, 0, script)
    ensures Flush(maxRetries, st, index, script).outcome.Panicked?
       <==> script[Requests(maxRetries, 0, script) - 1].Fatal?
  {
    CallPanics(maxRetries, index, Encode(Records(st.buffered)), script, st.docs);
  }

  class ElasticSearchClient {
    const maxRetries: int
    var buf: Bytes
    var count: int
    var writeTotal: nat
    ghost var store: Store

    ghost predicate Consistent()
      reads this
    {
      buf == Encode(Records(store.buffered)) && count == |store.buffered| && writeTotal == store.total
    }

    constructor (maxRetries: int, ghost docs: Docs)
      ensures Consistent() && this.maxRetries == maxRetries && store == Store([], [], 0, 0, 0, docs)
    {
      this.maxRetries := maxRetries;
      buf := "";
      count := 0;
      writeTotal := 0;
      store := Store([], [], 0, 0, 0, docs);
    }

    /** Adds a document to the buffer, and flushes the buffer from the thousandth document on. */
    method Write(doc: Option<Doc>, script: seq<Attempt>) returns (written: nat, failed: bool, panicked: bool)
      requires Consistent() && Decided(maxRetries, 0, script)
      modifies this
      ensures Consistent() && store == WriteSpec(maxRetries, old(store), doc, script)
      ensures failed <==> || doc.None? || doc.value.index == "" || doc.value.record.docID == ""
                          || doc.value.record.data == ""
      ensures written == store.returned - old(store.returned)
      ensures panicked <==> && !failed && |old(store.buffered)| >= 999
                            && script[Requests(maxRetries, 0, script) - 1].Fatal?
    {
      if !Valid(doc) {
        return 0, true, false;
      }
      var Doc(index, record) := doc.value;
      EncodeRecords(store.buffered, doc.value);
      count := count + 1;
      buf := buf + (Meta(record.docID) + "\n");
      buf := buf + (record.data + "\n");
      store := store.(buffered := store.buffered + [doc.value]);
      assert buf == Encode(Records(store.buffered));
      if count >= THRESHOLD {
        ghost var before := store;
        var n, outcome, sent := BulkWrite(index, buf, script);
        store := AfterFlush(before, index, sent);
        FlushMeans(before, index, sent);
        FlushPanics(maxRetries, before, index, script);
        if outcome.Panicked? {
          return 0, false, true;
        }
        if outcome.GaveUp? || outcome.Unparsed? {
          return 0, false, false;
        }
        buf := "";
        count := 0;
        return n, false, false;
      }
      return 0, false, false;
    }

    /** Sends the data until a request is answered or the retries are used up, from one reader. */
    method BulkWrite(index: Bytes, data: Bytes, script: seq<Attempt>)
      returns (n: nat, outcome: Outcome, ghost sent: Sent)
      requires Decided(maxRetries, 0, script)
      modifies this`writeTotal
      ensures sent == BulkSpec(maxRetries, 0, index, data, script, store.docs) && outcome == sent.outcome
      ensures n == (if outcome.Indexed? then outcome.n else 0) && writeTotal == old(writeTotal) + n
    {
      var retry := 0;
      var reader := data;
      ghost var bodies, docs := [], store.docs;
      assert BulkSpec(maxRetries, 0, index, data, script, docs)
          == Behind([], BulkSpec(maxRetries, 0, index, data, script, docs));
      while true
        invariant 0 <= retry <= |script| && Decided(maxRetries, retry, script[retry..])
        invariant BulkSpec(maxRetries, 0, index, data, script, store.docs)
               == Behind(bodies, BulkSpec(maxRetries, retry, index, reader, script[retry..], docs))
        invariant writeTotal == old(writeTotal)
        decreases |script| - retry
      {
        OneRound(maxRetries, retry, index, reader, script[retry..], docs, bodies);
        assert script[retry..][1..] == script[retry + 1..];
        var answer := script[retry];
        bodies, docs := bodies + [reader], DocsAfter(docs, index, reader, answer);
        if answer.RequestError? {
          retry := retry + 1;
          if maxRetries >= 0 && retry > maxRetries {
            return 0, GaveUp, Sent(bodies, GaveUp, docs);
          }
          reader := Remaining(reader, answer.taken);
        } else if answer.HttpError? {
          return 0, Rejected, Sent(bodies, Rejected, docs);
        } else if answer.BadBody? {
          return 0, Unparsed, Sent(bodies, Unparsed, docs);
        } else if answer.Fatal? {
          return 0, Panicked, Sent(bodies, Panicked, docs);
        } else {
          var numIndexed := CountIndexed(answer.statuses);
          writeTotal := writeTotal + numIndexed;
          return numIndexed, Indexed(numIndexed), Sent(bodies, Indexed(numIndexed), docs);
        }
      }
    }

    /** The items whose status is at most 201. */
    static method CountIndexed(statuses: seq<nat>) returns (numIndexed: nat)
      ensures numIndexed == |Good(statuses)| == GoodItems(statuses)
    {
      numIndexed := 0;
      for i := 0 to |statuses|
        invariant numIndexed == GoodItems(statuses[..i])
      {
        assert statuses[..i + 1][..i] == statuses[..i];
        if statuses[i] <= 201 {
          numIndexed := numIndexed + 1;
        }
      }
      assert statuses[..|statuses|] == statuses;
      GoodItemsCounts(statuses);
    }
  }
}
