/** What the server holds: replay after failed flushes, and where the code loses or misplaces a batch. */
module BulkReplay {
  import opened Payloads
  import opened BulkBody
  import opened Elasticsearch
  import opened BulkRuns

  ghost predicate Touched(key: (Bytes, Bytes), index: Bytes, rs: seq<Record>) {
    key.0 == index && exists i :: 0 <= i < |rs| && rs[i].docID == key.1
  }

  /** The two document maps differ at most in documents of these records. */
  ghost predicate Agree(a: Docs, b: Docs, index: Bytes, rs: seq<Record>) {
    forall key :: !Touched(key, index, rs) ==> (key in a <==> key in b) && (key in a ==> a[key] == b[key])
  }

  ghost predicate Among(some: seq<Record>, rs: seq<Record>) {
    forall i :: 0 <= i < |some| ==> some[i] in rs
  }

  lemma {:induction false} FoldAt(docs: Docs, index: Bytes, rs: seq<Record>, key: (Bytes, Bytes))
    ensures key in Fold(docs, index, rs) <==> key in docs || Touched(key, index, rs)
    ensures !Touched(key, index, rs) && key in docs ==> Fold(docs, index, rs)[key] == docs[key]
  {
    if rs != [] {
      var front := rs[..|rs| - 1];
      FoldAt(docs, index, front, key);
      assert Touched(key, index, rs) <==> Touched(key, index, front) || key == (index, rs[|rs| - 1].docID) by {
        if key == (index, rs[|rs| - 1].docID) {
          assert rs[|rs| - 1].docID == key.1;
        }
        forall i | 0 <= i < |front| ensures front[i] == rs[i] {
        }
      }
    }
  }

  /** The last writer determines a document that is written at all. */
  lemma {:induction false} FoldTouched(a: Docs, b: Docs, index: Bytes, rs: seq<Record>, key: (Bytes, Bytes))
    requires Touched(key, index, rs)
    ensures key in Fold(a, index, rs) && key in Fold(b, index, rs)
    ensures Fold(a, index, rs)[key] == Fold(b, index, rs)[key]
  {
    var last := |rs| - 1;
    if key != (index, rs[last].docID) {
      var i :| 0 <= i < |rs| && rs[i].docID == key.1;
      assert rs[..last][i].docID == key.1;
      FoldTouched(a, b, index, rs[..last], key);
    }
  }

  lemma FoldAgree(a: Docs, b: Docs, index: Bytes, rs: seq<Record>)
    requires Agree(a, b, index, rs)
    ensures Fold(a, index, rs) == Fold(b, index, rs)
  {
    var fa, fb := Fold(a, index, rs), Fold(b, index, rs);
    forall key ensures (key in fa <==> key in fb) && (key in fa ==> fa[key] == fb[key]) {
      FoldAt(a, index, rs, key);
      FoldAt(b, index, rs, key);
      if Touched(key, index, rs) {
        FoldTouched(a, b, index, rs, key);
      }
    }
    assert fa.Keys == fb.Keys;
  }

  lemma TouchedAmong(key: (Bytes, Bytes), index: Bytes, some: seq<Record>, rs: seq<Record>)
    requires Among(some, rs)
    ensures Touched(key, index, some) ==> Touched(key, index, rs)
  {
    if Touched(key, index, some) {
      var i :| 0 <= i < |some| && some[i].docID == key.1;
      var k :| 0 <= k < |rs| && rs[k] == some[i];
      assert rs[k].docID == key.1;
    }
  }

  /** Applying some of the records leaves the agreement as it was. */
  lemma FoldSome(a: Docs, b: Docs, index: Bytes, some: seq<Record>, rs: seq<Record>)
    requires Agree(a, b, index, rs) && Among(some, rs)
    ensures Agree(Fold(a, index, some), b, index, rs)
  {
    forall key | !Touched(key, index, rs)
      ensures (key in Fold(a, index, some) <==> key in b) && (key in b ==> Fold(a, index, some)[key] == b[key])
    {
      FoldAt(a, index, some, key);
      TouchedAmong(key, index, some, rs);
    }
  }

  lemma {:induction false} FoldConcat(docs: Docs, index: Bytes, a: seq<Record>, b: seq<Record>)
    ensures Fold(docs, index, a + b) == Fold(Fold(docs, index, a), index, b)
  {
    if b == [] {
      assert a + b == a;
    } else {
      FoldConcat(docs, index, a, b[..|b| - 1]);
      assert (a + b)[..|a + b| - 1] == a + b[..|b| - 1];
    }
  }

  /** The answer has n items and none of the first n has an error status. */
  ghost predicate AllFine(statuses: seq<nat>, n: nat) {
    forall i :: 0 <= i < n ==> Fine(statuses, i)
  }

  lemma {:induction false} FinePass(rs: seq<Record>, statuses: seq<nat>)
    requires AllFine(statuses, |rs|)
    ensures Passed(rs, statuses) == rs
  {
    if rs != [] {
      FinePass(rs[..|rs| - 1], statuses);
    }
  }

  // ----- Replay -----

  /**
   * The answers to one call under which nothing is lost: failing attempts leave the reader alone unless they are
   * the last, the server applies nothing but records of the request, and it does not answer with an error status,
   * with errors in items or with too few items.
   */
  ghost predicate Cooperative(maxRetries: int, retry: nat, script: seq<Attempt>, rs: seq<Record>)
    requires Decided(maxRetries, retry, script)
    decreases script
  {
    if Retries(maxRetries, retry, script[0]) then
      && Among(script[0].applied, rs) && script[0].taken == 0
      && Cooperative(maxRetries, retry + 1, script[1..], rs)
    else if script[0].Response? then AllFine(script[0].statuses, |rs|)
    else !script[0].HttpError? && Among(script[0].applied, rs)
  }

  /** A request with the whole body that is answered without errors. */
  lemma IngestAll(docs: Docs, goal: Docs, index: Bytes, rs: seq<Record>, statuses: seq<nat>)
    requires Clean(rs) && Agree(docs, goal, index, rs) && AllFine(statuses, |rs|)
    ensures Ingest(docs, index, Encode(rs), statuses) == Fold(goal, index, rs)
  {
    RoundTrip(rs);
    FinePass(rs, statuses);
    FoldAgree(docs, goal, index, rs);
  }

  lemma {:induction false} CooperativeFlush(maxRetries: int, retry: nat, index: Bytes, rs: seq<Record>,
                                            script: seq<Attempt>, docs: Docs, goal: Docs)
    requires Decided(maxRetries, retry, script) && Cooperative(maxRetries, retry, script, rs)
    requires Clean(rs) && Agree(docs, goal, index, rs)
    ensures var sent := BulkSpec(maxRetries, retry, index, Encode(rs), script, docs);
            && !sent.outcome.Rejected?
            && (if sent.outcome.Indexed? then sent.docs == Fold(goal, index, rs) else Agree(sent.docs, goal, index, rs))
    decreases script
  {
    if script[0].Response? {
      IngestAll(docs, goal, index, rs, script[0].statuses);
    } else {
      FoldSome(docs, goal, index, script[0].applied, rs);
      if Retries(maxRetries, retry, script[0]) {
        assert Remaining(Encode(rs), 0) == Encode(rs);
        CooperativeFlush(maxRetries, retry + 1, index, rs, script[1..], Fold(docs, index, script[0].applied), goal);
      }
    }
  }

  /** One index value, records without line breaks, and cooperative answers to every flush. */
  ghost predicate Replayable(maxRetries: int, docs: Docs, index: Bytes, calls: seq<Call>)
    requires Answered(maxRetries, calls)
  {
    calls == [] ||
    var last := |calls| - 1;
    var st := AfterCalls(maxRetries, docs, calls[..last]);
    && Replayable(maxRetries, docs, index, calls[..last])
    && (Valid(calls[last].doc) ==>
          var d := calls[last].doc.value;
          && d.index == index && OneLine(d.record.docID) && OneLine(d.record.data)
          && (|st.buffered| + 1 >= THRESHOLD ==>
                Cooperative(maxRetries, 0, calls[last].script, Records(st.buffered + [d]))))
  }

  ghost predicate Recoverable(docs: Docs, index: Bytes, st: Store) {
    && Clean(Records(st.buffered))
    && Agree(st.docs, Fold(docs, index, Records(Flushed(st.completed))), index, Records(st.buffered))
  }

  lemma RecordsConcat(a: seq<Doc>, b: seq<Doc>)
    ensures Records(a + b) == Records(a) + Records(b)
  {
  }

  lemma AgreeMore(a: Docs, b: Docs, index: Bytes, rs: seq<Record>, r: Record)
    requires Agree(a, b, index, rs)
    ensures Agree(a, b, index, rs + [r])
  {
    forall key | !Touched(key, index, rs + [r]) ensures !Touched(key, index, rs) {
      TouchedAmong(key, index, rs, rs + [r]);
    }
  }

  lemma RecoverableBuffered(docs: Docs, index: Bytes, st: Store, d: Doc)
    requires Recoverable(docs, index, st) && OneLine(d.record.docID) && OneLine(d.record.data)
    ensures Recoverable(docs, index, st.(buffered := st.buffered + [d]))
  {
    RecordsConcat(st.buffered, [d]);
    assert Records(st.buffered + [d]) == Records(st.buffered) + [d.record];
    AgreeMore(st.docs, Fold(docs, index, Records(Flushed(st.completed))), index, Records(st.buffered), d.record);
  }

  /** Flushing the buffer, which is the whole batch. */
  lemma RecoverableFlushed(maxRetries: int, docs: Docs, index: Bytes, st: Store, script: seq<Attempt>)
    requires Decided(maxRetries, 0, script) && Recoverable(docs, index, st)
    requires Cooperative(maxRetries, 0, script, Records(st.buffered))
    ensures Recoverable(docs, index, AfterFlush(st, index, Flush(maxRetries, st, index, script)))
  {
    var rs := Records(st.buffered);
    var goal := Fold(docs, index, Records(Flushed(st.completed)));
    CooperativeFlush(maxRetries, 0, index, rs, script, st.docs, goal);
    var sent := Flush(maxRetries, st, index, script);
    if sent.outcome.Indexed? {
      var batch := Batch(index, st.buffered, st.failures, sent.outcome);
      assert (st.completed + [batch])[..|st.completed|] == st.completed;
      RecordsConcat(Flushed(st.completed), st.buffered);
      FoldConcat(docs, index, Records(Flushed(st.completed)), rs);
    }
  }

  lemma RecoverableStep(maxRetries: int, docs: Docs, index: Bytes, st: Store, d: Doc, script: seq<Attempt>)
    requires Decided(maxRetries, 0, script) && Recoverable(docs, index, st)
    requires Valid(Some(d)) && d.index == index && OneLine(d.record.docID) && OneLine(d.record.data)
    requires |st.buffered| + 1 >= THRESHOLD ==> Cooperative(maxRetries, 0, script, Records(st.buffered + [d]))
    ensures Recoverable(docs, index, WriteSpec(maxRetries, st, Some(d), script))
  {
    RecoverableBuffered(docs, index, st, d);
    if |st.buffered| + 1 >= THRESHOLD {
      RecoverableFlushed(maxRetries, docs, index, st.(buffered := st.buffered + [d]), script);
    }
  }

  lemma {:induction false} RecoverableRun(maxRetries: int, docs: Docs, index: Bytes, calls: seq<Call>)
    requires Answered(maxRetries, calls) && Replayable(maxRetries, docs, index, calls)
    ensures Recoverable(docs, index, AfterCalls(maxRetries, docs, calls))
  {
    if calls != [] {
      var last := |calls| - 1;
      RecoverableRun(maxRetries, docs, index, calls[..last]);
      if Valid(calls[last].doc) {
        RecoverableStep(maxRetries, docs, index, AfterCalls(maxRetries, docs, calls[..last]),
                        calls[last].doc.value, calls[last].script);
      }
    }
  }

  /**
   * Whenever the buffer is empty the server holds exactly the last-writer-wins result of all records accepted so
   * far, even if failed flushes before had been applied in part; in between it differs in buffered records only.
   */
  lemma IdempotentReplay(maxRetries: int, docs: Docs, index: Bytes, calls: seq<Call>)
    requires Answered(maxRetries, calls) && Replayable(maxRetries, docs, index, calls)
    ensures var st := AfterCalls(maxRetries, docs, calls);
            && (st.buffered == [] ==> st.docs == Fold(docs, index, Records(Accepted(calls))))
            && Fold(st.docs, index, Records(st.buffered)) == Fold(docs, index, Records(Accepted(calls)))
  {
    var st := AfterCalls(maxRetries, docs, calls);
    RecoverableRun(maxRetries, docs, index, calls);
    BulkConservation(maxRetries, docs, calls);
    RecordsConcat(Flushed(st.completed), st.buffered);
    FoldConcat(docs, index, Records(Flushed(st.completed)), Records(st.buffered));
    FoldAgree(st.docs, Fold(docs, index, Records(Flushed(st.completed))), index, Records(st.buffered));
  }

  // ----- Where it goes wrong -----

  /** A retry whose first attempt had read the whole body completes the batch, and none of it is stored. */
  lemma RetryLosesBatch(maxRetries: int, st: Store, d: Doc)
    requires Valid(Some(d)) && |st.buffered| + 1 >= THRESHOLD && maxRetries != 0
    ensures var body := Encode(Records(st.buffered + [d]));
            var script := [RequestError(|body|, []), Response([])];
            && Decided(maxRetries, 0, script)
            && var st' := WriteSpec(maxRetries, st, Some(d), script);
               st'.buffered == [] && |st'.completed| == |st.completed| + 1 && st'.docs == st.docs
  {
    var rs := Records(st.buffered + [d]);
    var script := [RequestError(|Encode(rs)|, []), Response([])];
    assert script[1..] == [Response([])];
    assert Decided(maxRetries, 1, script[1..]);
    assert Parse([]) == Some([]);
    assert BulkSpec(maxRetries, 1, d.index, [], script[1..], st.docs).docs == st.docs;
  }

  /**
   * An error status drops the batch: the buffer is emptied and no error is reported, though the server holds no
   * more of the batch than it applied before it answered so; and nothing of it at all if it applied nothing.
   */
  lemma ErrorStatusDropsBatch(maxRetries: int, st: Store, d: Doc, applied: seq<Record>)
    requires Valid(Some(d)) && |st.buffered| + 1 >= THRESHOLD
    ensures Decided(maxRetries, 0, [HttpError(applied)])
    ensures var st' := WriteSpec(maxRetries, st, Some(d), [HttpError(applied)]);
            && st'.buffered == [] && st'.failures == 0 && st'.returned == st.returned
            && (forall key :: !Touched(key, d.index, applied) ==> (key in st'.docs <==> key in st.docs))
            && (applied == [] ==> st'.docs == st.docs)
  {
    var st' := WriteSpec(maxRetries, st, Some(d), [HttpError(applied)]);
    forall key | !Touched(key, d.index, applied) ensures key in st'.docs <==> key in st.docs {
      FoldAt(st.docs, d.index, applied, key);
    }
  }

  /**
   * The code does not count the items of an answer: one with too few completes the batch, and of what it is silent
   * about nothing is stored.  An answer without items loses the whole batch; no error is reported.
   */
  lemma ShortAnswerLosesRecords(maxRetries: int, st: Store, d: Doc, statuses: seq<nat>)
    requires Valid(Some(d)) && |st.buffered| + 1 >= THRESHOLD && Clean(Records(st.buffered + [d]))
    ensures Decided(maxRetries, 0, [Response(statuses)])
    ensures var rs, st' := Records(st.buffered + [d]), WriteSpec(maxRetries, st, Some(d), [Response(statuses)]);
            && st'.buffered == [] && st'.failures == 0 && st'.docs == Fold(st.docs, d.index, Passed(rs, statuses))
            && |Passed(rs, statuses)| <= |statuses|
            && (statuses == [] ==> st'.docs == st.docs && st'.returned == st.returned)
  {
    var rs := Records(st.buffered + [d]);
    RoundTrip(rs);
    PassedAnswered(rs, statuses);
  }

  lemma {:induction false} PassedAnswered(rs: seq<Record>, statuses: seq<nat>)
    ensures |Passed(rs, statuses)| <= |statuses| && |Passed(rs, statuses)| <= |rs|
  {
    if rs != [] {
      PassedAnswered(rs[..|rs| - 1], statuses);
    }
  }

  lemma {:induction false} PassedCount(rs: seq<Record>, statuses: seq<nat>)
    requires |statuses| == |rs|
    ensures |Passed(rs, statuses)| == GoodItems(statuses)
  {
    if rs != [] {
      var last := |rs| - 1;
      PassedPrefix(rs[..last], statuses);
      PassedCount(rs[..last], statuses[..last]);
    }
  }

  lemma {:induction false} PassedPrefix(rs: seq<Record>, statuses: seq<nat>)
    requires |rs| <= |statuses|
    ensures Passed(rs, statuses) == Passed(rs, statuses[..|rs|])
  {
    if rs != [] {
      var last := |rs| - 1;
      PassedPrefix(rs[..last], statuses);
      PassedPrefix(rs[..last], statuses[..|rs|]);
      assert statuses[..|rs|][..last] == statuses[..last];
    }
  }

  /** The number returned: where the answer has an item for every record, as many as were stored. */
  lemma ReturnsWhatIsStored(maxRetries: int, st: Store, d: Doc, statuses: seq<nat>)
    requires Valid(Some(d)) && |st.buffered| >= 999 && |statuses| == |st.buffered| + 1
    requires Clean(Records(st.buffered + [d]))
    ensures Decided(maxRetries, 0, [Response(statuses)])
    ensures var rs, st' := Records(st.buffered + [d]), WriteSpec(maxRetries, st, Some(d), [Response(statuses)]);
            && st'.returned == st.returned + |Passed(rs, statuses)| && st'.total == st.total + |Passed(rs, statuses)|
            && st'.docs == Fold(st.docs, d.index, Passed(rs, statuses))
            && |Passed(rs, statuses)| == |Good(statuses)|
  {
    var rs := Records(st.buffered + [d]);
    RoundTrip(rs);
    PassedCount(rs, statuses);
    GoodItemsCounts(statuses);
  }

  /** The document stands under its own index. */
  ghost predicate Placed(docs: Docs, d: Doc) {
    (d.index, d.record.docID) in docs
  }

  /**
   * A batch answered without errors goes to the index of the document that triggered it: its documents, new to
   * the server, all stand under their own index exactly if they share that one.
   */
  lemma PlacedIffSameIndex(maxRetries: int, st: Store, d: Doc, statuses: seq<nat>)
    requires Valid(Some(d)) && |st.buffered| + 1 >= THRESHOLD && Clean(Records(st.buffered + [d]))
    requires AllFine(statuses, |st.buffered| + 1)
    requires forall i :: 0 <= i < |st.buffered| ==> !Placed(st.docs, st.buffered[i])
    ensures Decided(maxRetries, 0, [Response(statuses)])
    ensures var docs' := WriteSpec(maxRetries, st, Some(d), [Response(statuses)]).docs;
            && docs' == Fold(st.docs, d.index, Records(st.buffered + [d]))
            && ((forall i :: 0 <= i < |st.buffered| ==> Placed(docs', st.buffered[i]))
                <==> (forall i :: 0 <= i < |st.buffered| ==> st.buffered[i].index == d.index))
  {
    var rs := Records(st.buffered + [d]);
    IngestAll(st.docs, st.docs, d.index, rs, statuses);
    var docs' := Fold(st.docs, d.index, rs);
    forall i | 0 <= i < |st.buffered|
      ensures Placed(docs', st.buffered[i]) <==> st.buffered[i].index == d.index
    {
      FoldAt(st.docs, d.index, rs, (st.buffered[i].index, st.buffered[i].record.docID));
      assert rs[i].docID == st.buffered[i].record.docID;
    }
  }
}
