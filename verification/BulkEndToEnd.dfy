/** From the messages the source handed out to the documents the Elasticsearch server holds. */
module BulkEndToEnd {
  import opened Payloads
  import D = Dataflow
  import opened Control
  import opened Ordering
  import opened Ownership
  import opened Elasticsearch
  import opened BulkRuns
  import opened BulkReplay
  import opened StorageRuns

  /** What Write takes out of the payload it is given. */
  ghost function DocOf(p: Payload): Option<Doc> {
    if p.NoPayload? then None else Some(Out(p))
  }

  /** The documents that Write accepts of these payloads. */
  ghost function DocsOf(bodies: seq<Payload>): seq<Doc> {
    if bodies == [] then []
    else
      var doc := DocOf(bodies[|bodies| - 1]);
      DocsOf(bodies[..|bodies| - 1]) + if Valid(doc) then [doc.value] else []
  }

  /** The calls of Write by which the pool's task wrote these payloads. */
  ghost predicate CallsOf(calls: seq<Call>, bodies: seq<Payload>) {
    |calls| == |bodies| && forall k :: 0 <= k < |calls| ==> calls[k].doc == DocOf(bodies[k])
  }

  lemma {:induction false} AcceptedIs(calls: seq<Call>, bodies: seq<Payload>)
    requires CallsOf(calls, bodies)
    ensures Accepted(calls) == DocsOf(bodies)
  {
    if calls != [] {
      AcceptedIs(calls[..|calls| - 1], bodies[..|bodies| - 1]);
    }
  }

  ghost function Read(written: seq<(nat, Payload)>): (r: seq<Payload>)
    ensures |r| == |written|
  {
    seq(|written|, k requires 0 <= k < |written| => written[k].1)
  }

  ghost function FirstBodies(items: seq<Item<Payload>>, n: nat): (r: seq<Payload>)
    requires n <= |items|
    ensures |r| == n
  {
    seq(n, k requires 0 <= k < n => items[k].body)
  }

  /**
   * Storage j is an Elasticsearch client with one worker behind a FIFO pipeline, all documents have one index, and
   * the server answers cooperatively.  With the k payloads written so far, however the goroutines were scheduled:
   * whenever the buffer is empty the server holds the last-writer-wins result of the first k results of the
   * filter-map over the payloads the source handed out; else the buffer makes up the difference.
   */
  lemma ServerHoldsPrefix(d: Design, es: seq<Event>, j: nat, maxRetries: int, docs: Docs, index: Bytes,
                          calls: seq<Call>)
    requires Built(d) && Works(d, es) && InPlace(d.p) && Fifo(d.p.c) && j < d.p.c.m && d.sizes[j] == 1
    requires CallsOf(calls, Read(Written(d, es, j)))
    requires Answered(maxRetries, calls) && Replayable(maxRetries, docs, index, calls)
    ensures D.Computes(d.p, Values(d, es))
    ensures var out := D.FilterMap(d.p, d.p.c.n, D.After(d.p, Values(d, es)).taken).out;
            var st, k := AfterCalls(maxRetries, docs, calls), |Written(d, es, j)|;
            && k <= |out|
            && Accepted(calls) == DocsOf(FirstBodies(out, k))
            && (st.buffered == [] ==> st.docs == Fold(docs, index, Records(DocsOf(FirstBodies(out, k)))))
            && Fold(st.docs, index, Records(st.buffered)) == Fold(docs, index, Records(DocsOf(FirstBodies(out, k))))
  {
    var written := Written(d, es, j);
    SingleWorkerWritesPrefix(d, es, j);
    var out := D.FilterMap(d.p, d.p.c.n, D.After(d.p, Values(d, es)).taken).out;
    assert Read(written) == FirstBodies(out, |written|);
    AcceptedIs(calls, Read(written));
    IdempotentReplay(maxRetries, docs, index, calls);
  }
}
