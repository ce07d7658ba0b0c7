/** Whole runs of the Elasticsearch storage: what is kept, sent, counted, and in the end stored. */
module BulkRuns {
  import opened Payloads
  import opened BulkBody
  import opened Elasticsearch

  /** One call of Write, and what the server would answer to the requests it may trigger. */
  datatype Call = Call(doc: Option<Doc>, script: seq<Attempt>)

  ghost predicate Answered(maxRetries: int, calls: seq<Call>) {
    forall i :: 0 <= i < |calls| ==> Decided(maxRetries, 0, calls[i].script)
  }

  /** The state after the calls, in the order in which they got the lock. */
  ghost function AfterCalls(maxRetries: int, docs: Docs, calls: seq<Call>): Store
    requires Answered(maxRetries, calls)
  {
    if calls == [] then Store([], [], 0, 0, 0, docs)
    else
      var last := |calls| - 1;
      WriteSpec(maxRetries, AfterCalls(maxRetries, docs, calls[..last]), calls[last].doc, calls[last].script)
  }

  /** The documents Write did not refuse. */
  ghost function Accepted(calls: seq<Call>): seq<Doc> {
    if calls == [] then []
    else
      var last := calls[|calls| - 1];
      Accepted(calls[..|calls| - 1]) + if Valid(last.doc) then [last.doc.value] else []
  }

  ghost function Flushed(batches: seq<Batch>): seq<Doc> {
    if batches == [] then [] else Flushed(batches[..|batches| - 1]) + batches[|batches| - 1].docs
  }

  // ----- Conservation and counting -----

  lemma WriteConserves(maxRetries: int, st: Store, doc: Option<Doc>, script: seq<Attempt>)
    requires Decided(maxRetries, 0, script)
    ensures var st' := WriteSpec(maxRetries, st, doc, script);
            Flushed(st'.completed) + st'.buffered
              == Flushed(st.completed) + st.buffered + if Valid(doc) then [doc.value] else []
  {
    if Valid(doc) {
      var st1 := st.(buffered := st.buffered + [doc.value]);
      assert Flushed(st.completed) + st1.buffered == Flushed(st.completed) + st.buffered + [doc.value];
      if |st1.buffered| >= THRESHOLD {
        var sent := Flush(maxRetries, st1, doc.value.index, script);
        var batch := Batch(doc.value.index, st1.buffered, st.failures, sent.outcome);
        assert (st.completed + [batch])[..|st.completed|] == st.completed;
        assert AfterFlush(st1, doc.value.index, sent).completed == st.completed + [batch] ==>
            Flushed(st.completed + [batch]) == Flushed(st.completed) + st1.buffered;
      }
    }
  }

  /** Every accepted document is in exactly one completed batch or in the buffer, in the order of acceptance. */
  lemma {:induction false} BulkConservation(maxRetries: int, docs: Docs, calls: seq<Call>)
    requires Answered(maxRetries, calls)
    ensures var st := AfterCalls(maxRetries, docs, calls); Accepted(calls) == Flushed(st.completed) + st.buffered
  {
    if calls != [] {
      var front, last := calls[..|calls| - 1], calls[|calls| - 1];
      BulkConservation(maxRetries, docs, front);
      WriteConserves(maxRetries, AfterCalls(maxRetries, docs, front), last.doc, last.script);
    }
  }

  /** The buffer size is determined by the failed flushes since the last reset, and so is every batch's size. */
  ghost predicate CountLaw(st: Store) {
    && (if st.failures == 0 then |st.buffered| <= 999 else |st.buffered| == 999 + st.failures)
    && (forall i :: 0 <= i < |st.completed| ==> |st.completed[i].docs| == 1000 + st.completed[i].failures)
  }

  lemma {:induction false} FlushCountLaw(maxRetries: int, docs: Docs, calls: seq<Call>)
    requires Answered(maxRetries, calls)
    ensures CountLaw(AfterCalls(maxRetries, docs, calls))
  {
    if calls != [] {
      FlushCountLaw(maxRetries, docs, calls[..|calls| - 1]);
    }
  }

  lemma {:induction false} CounterAgrees(maxRetries: int, docs: Docs, calls: seq<Call>)
    requires Answered(maxRetries, calls)
    ensures var st := AfterCalls(maxRetries, docs, calls); st.total == st.returned
  {
    if calls != [] {
      CounterAgrees(maxRetries, docs, calls[..|calls| - 1]);
    }
  }

  // ----- Requests of one call -----

  ghost predicate Suffix(a: Bytes, b: Bytes) {
    |a| <= |b| && a == b[|b| - |a|..]
  }

  /** Each request offers a suffix of what the one before offered. */
  ghost predicate Shrinking(bodies: seq<Bytes>) {
    forall i :: 0 < i < |bodies| ==> Suffix(bodies[i], bodies[i - 1])
  }

  lemma ShrinkingBehind(body: Bytes, later: seq<Bytes>)
    requires later != [] && Shrinking(later) && Suffix(later[0], body)
    ensures Shrinking([body] + later)
  {
    forall i | 0 < i < 1 + |later| ensures Suffix(([body] + later)[i], ([body] + later)[i - 1]) {
      if i > 1 {
        var k := i - 1;
        assert Suffix(later[k], later[k - 1]);
      }
    }
  }

  lemma {:induction false} RequestCount(maxRetries: int, retry: nat, script: seq<Attempt>)
    requires Decided(maxRetries, retry, script)
    ensures retry <= maxRetries ==> Requests(maxRetries, retry, script) + retry <= maxRetries + 1
    decreases script
  {
    if Retries(maxRetries, retry, script[0]) {
      RequestCount(maxRetries, retry + 1, script[1..]);
    }
  }

  lemma {:induction false} BodiesShrink(maxRetries: int, retry: nat, index: Bytes, body: Bytes, script: seq<Attempt>,
                                        docs: Docs)
    requires Decided(maxRetries, retry, script)
    ensures var bodies := BulkSpec(maxRetries, retry, index, body, script, docs).bodies;
            && |bodies| == Requests(maxRetries, retry, script) && bodies[0] == body && Shrinking(bodies)
            && |bodies[|bodies| - 1]| <= |body|
    decreases script
  {
    if Retries(maxRetries, retry, script[0]) {
      var rest := Remaining(body, script[0].taken);
      var docs' := DocsAfter(docs, index, body, script[0]);
      BodiesShrink(maxRetries, retry + 1, index, rest, script[1..], docs');
      ShrinkingBehind(body, BulkSpec(maxRetries, retry + 1, index, rest, script[1..], docs').bodies);
    }
  }

  /**
   * A call makes at most maxRetries + 1 requests; the first offers the whole body and each later one a suffix
   * of what the one before offered; the number returned is at most the number of items of the last answer.
   */
  lemma RetryBound(maxRetries: int, index: Bytes, body: Bytes, script: seq<Attempt>, docs: Docs)
    requires Decided(maxRetries, 0, script)
    ensures var sent := BulkSpec(maxRetries, 0, index, body, script, docs);
            && 1 <= |sent.bodies| <= |script| && sent.bodies[0] == body && Shrinking(sent.bodies)
            && (maxRetries >= 0 ==> |sent.bodies| <= maxRetries + 1)
            && (sent.outcome.Indexed? ==>
                  var last := script[|sent.bodies| - 1]; last.Response? && sent.outcome.n <= |last.statuses|)
  {
    RequestCount(maxRetries, 0, script);
    BodiesShrink(maxRetries, 0, index, body, script, docs);
    LastAttempt(maxRetries, 0, index, body, script, docs);
  }

  /** None of the first n attempts took anything from the reader. */
  ghost predicate Untouched(script: seq<Attempt>, n: nat)
    requires n <= |script|
  {
    n == 0 || ((script[0].RequestError? ==> script[0].taken == 0) && Untouched(script[1..], n - 1))
  }

  /** The request that ends the call offers the whole body exactly if no earlier one took anything from the reader. */
  lemma {:induction false} WholeBodyIff(maxRetries: int, retry: nat, index: Bytes, body: Bytes, script: seq<Attempt>,
                                        docs: Docs)
    requires Decided(maxRetries, retry, script) && body != []
    ensures var bodies := BulkSpec(maxRetries, retry, index, body, script, docs).bodies;
            1 <= |bodies| <= |script| && (bodies[|bodies| - 1] == body <==> Untouched(script, |bodies| - 1))
    decreases script
  {
    if Retries(maxRetries, retry, script[0]) {
      var rest := Remaining(body, script[0].taken);
      var docs' := DocsAfter(docs, index, body, script[0]);
      var later := BulkSpec(maxRetries, retry + 1, index, rest, script[1..], docs').bodies;
      BodiesShrink(maxRetries, retry + 1, index, rest, script[1..], docs');
      assert ([body] + later)[|later|] == later[|later| - 1];
      if script[0].taken == 0 {
        WholeBodyIff(maxRetries, retry + 1, index, rest, script[1..], docs');
      }
    }
  }

  /** The first n attempts get no answer. */
  ghost predicate AllFail(script: seq<Attempt>, n: int) {
    n <= |script| && forall i :: 0 <= i < n ==> script[i].RequestError?
  }

  lemma {:induction false} GivesUpAfter(maxRetries: int, retry: nat, script: seq<Attempt>)
    requires Decided(maxRetries, retry, script) && (maxRetries < 0 || retry <= maxRetries)
    ensures LastOf(maxRetries, retry, script).RequestError?
       <==> 0 <= maxRetries && AllFail(script, maxRetries - retry + 1)
    decreases script
  {
    if Retries(maxRetries, retry, script[0]) {
      GivesUpAfter(maxRetries, retry + 1, script[1..]);
      if AllFail(script[1..], maxRetries - retry) {
        forall i | 0 <= i < maxRetries - retry + 1 ensures script[i].RequestError? {
          assert i > 0 ==> script[i] == script[1..][i - 1];
        }
      } else if 0 <= maxRetries && AllFail(script, maxRetries - retry + 1) {
        forall i | 0 <= i < maxRetries - retry ensures script[1..][i].RequestError? {
          assert script[1..][i] == script[i + 1];
        }
      }
    }
  }

  /** A call gives up exactly if maxRetries + 1 requests got no answer; with a negative limit it never does. */
  lemma GaveUpIff(maxRetries: int, index: Bytes, body: Bytes, script: seq<Attempt>, docs: Docs)
    requires Decided(maxRetries, 0, script)
    ensures BulkSpec(maxRetries, 0, index, body, script, docs).outcome.GaveUp?
       <==> 0 <= maxRetries && AllFail(script, maxRetries + 1)
  {
    GivesUpAfter(maxRetries, 0, script);
    OutcomeLasts(maxRetries, 0, index, body, script, docs);
  }

  /** Otherwise it ends with the first answer. */
  lemma {:induction false} FirstAnswerCounts(maxRetries: int, retry: nat, script: seq<Attempt>, k: nat)
    requires Decided(maxRetries, retry, script) && k < |script| && AllFail(script, k) && !script[k].RequestError?
    requires maxRetries < 0 || retry + k <= maxRetries
    ensures Requests(maxRetries, retry, script) == k + 1
    decreases script
  {
    if k > 0 {
      forall i | 0 <= i < k - 1 ensures script[1..][i].RequestError? {
        assert script[1..][i] == script[i + 1];
      }
      FirstAnswerCounts(maxRetries, retry + 1, script[1..], k - 1);
    }
  }
}
