/** Exactly when a flushed batch is on the server. */
module BulkStored {
  import opened Payloads
  import opened BulkBody
  import opened Elasticsearch
  import opened BulkRuns
  import opened BulkReplay

  // ----- What the server parses is what the bytes encode -----

  ghost predicate Ended(b: Bytes) {
    b == "" || b[|b| - 1] == '\n'
  }

  lemma DocIdOfOnly(line: Bytes)
    requires DocIdOf(line).Some?
    ensures line == Meta(DocIdOf(line).value)
  {
    var middle := DocIdOf(line).value;
    assert line == line[..|PREFIX|] + middle + line[|line| - |SUFFIX|..];
  }

  lemma BreakFound(b: Bytes)
    requires b != "" && Ended(b)
    ensures FirstBreak(b) < |b|
  {
    assert b[|b| - 1] in b;
    assert b[..|b|] == b;
  }

  /** A body that ends in a line break starts with a whole line. */
  lemma FirstLine(b: Bytes) returns (line: Bytes, tail: Bytes)
    requires b != "" && Ended(b)
    ensures b == line + "\n" + tail && |tail| < |b| && Ended(tail) && OneLine(line)
  {
    BreakFound(b);
    var k := FirstBreak(b);
    line, tail := b[..k], b[k + 1..];
  }

  /** What is read from two lines and more. */
  lemma PairRead(first: Bytes, second: Bytes, more: seq<Bytes>)
    requires Pair([first] + ([second] + more)).Some?
    ensures DocIdOf(first).Some? && Pair(more).Some?
    ensures var r := Record(DocIdOf(first).value, second);
            && Pair([first] + ([second] + more)).value == [r] + Pair(more).value
            && Encode([r] + Pair(more).value) == EncodeOne(r) + Encode(Pair(more).value)
  {
    assert ([first] + ([second] + more))[2..] == more;
    assert ([Record(DocIdOf(first).value, second)] + Pair(more).value)[1..] == Pair(more).value;
  }

  lemma OneLineUnread(line: Bytes)
    requires OneLine(line)
    ensures Parse(line + "\n" + "").None?
  {
    LinesOfLine(line, "");
    assert Lines("") == [];
    assert Lines(line + "\n" + "") == [line];
  }

  lemma TwoLinesRead(first: Bytes, second: Bytes, rest: Bytes)
    requires OneLine(first) && OneLine(second) && Parse(first + "\n" + (second + "\n" + rest)).Some?
    ensures DocIdOf(first).Some? && Parse(rest).Some?
    ensures Encode(Parse(first + "\n" + (second + "\n" + rest)).value)
         == EncodeOne(Record(DocIdOf(first).value, second)) + Encode(Parse(rest).value)
  {
    LinesOfLine(first, second + "\n" + rest);
    LinesOfLine(second, rest);
    PairRead(first, second, Lines(rest));
  }

  /** A body that ends in a line break and can be read is the encoding of what is read. */
  lemma {:induction false} ParseOnly(b: Bytes)
    requires Ended(b) && Parse(b).Some?
    ensures Encode(Parse(b).value) == b
    decreases |b|
  {
    if b != "" {
      var first, tail := FirstLine(b);
      if tail == "" {
        OneLineUnread(first);
      } else {
        var second, rest := FirstLine(tail);
        TwoLinesRead(first, second, rest);
        ParseOnly(rest);
        DocIdOfOnly(first);
      }
    }
  }

  // ----- Lengths -----

  ghost function Length(r: Record): (n: nat)
    ensures n > 0
  {
    |EncodeOne(r)|
  }

  ghost function Size(rs: seq<Record>): nat {
    if rs == [] then 0 else Size(rs[..|rs| - 1]) + Length(rs[|rs| - 1])
  }

  lemma {:induction false} SizeIsLength(rs: seq<Record>)
    ensures |Encode(rs)| == Size(rs)
  {
    if rs != [] {
      SizeIsLength(rs[..|rs| - 1]);
      EncodeAppend(rs[..|rs| - 1], rs[|rs| - 1]);
      assert rs[..|rs| - 1] + [rs[|rs| - 1]] == rs;
    }
  }

  lemma SizeAppend(rs: seq<Record>, r: Record)
    ensures Size(rs + [r]) == Size(rs) + Length(r)
  {
    assert (rs + [r])[..|rs|] == rs;
  }

  lemma {:induction false} SizeWithout(rs: seq<Record>, i: nat)
    requires i < |rs|
    ensures Size(rs[..i] + rs[i + 1..]) + Length(rs[i]) == Size(rs)
  {
    var last := |rs| - 1;
    SizeAppend(rs[..last], rs[last]);
    assert rs[..last] + [rs[last]] == rs;
    if i < last {
      var less := rs[..last][..i] + rs[..last][i + 1..];
      SizeWithout(rs[..last], i);
      SizeAppend(less, rs[last]);
      assert less + [rs[last]] == rs[..i] + rs[i + 1..];
    } else {
      assert rs[..i] + rs[i + 1..] == rs[..last];
    }
  }

  ghost predicate Different(rs: seq<Record>) {
    forall i, k :: 0 <= i < k < |rs| ==> rs[i].docID != rs[k].docID
  }

  /** Records with different identifiers that are all among others are no longer than those. */
  lemma {:induction false} SizeAmong(rs: seq<Record>, others: seq<Record>)
    requires Different(rs) && Among(rs, others)
    ensures Size(rs) <= Size(others)
  {
    if rs != [] {
      var front, last := rs[..|rs| - 1], rs[|rs| - 1];
      var i :| 0 <= i < |others| && others[i] == last;
      var less := others[..i] + others[i + 1..];
      forall k | 0 <= k < |front| ensures front[k] in less {
        var h :| 0 <= h < |others| && others[h] == front[k];
        assert h != i;
        assert less[if h < i then h else h - 1] == front[k];
      }
      SizeAmong(front, less);
      SizeWithout(others, i);
      SizeAppend(front, last);
      assert front + [last] == rs;
    }
  }

  lemma {:induction false} PassedAmong(rs: seq<Record>, statuses: seq<nat>)
    ensures Among(Passed(rs, statuses), rs)
  {
    if rs != [] {
      PassedAmong(rs[..|rs| - 1], statuses);
    }
  }

  /** Records are lost from a request exactly if an item fails. */
  lemma {:induction false} PassedSize(rs: seq<Record>, statuses: seq<nat>)
    ensures Size(Passed(rs, statuses)) <= Size(rs)
    ensures Size(Passed(rs, statuses)) == Size(rs) <==> AllFine(statuses, |rs|)
  {
    if rs != [] {
      var last := |rs| - 1;
      PassedSize(rs[..last], statuses);
      assert AllFine(statuses, |rs|) <==> AllFine(statuses, last) && Fine(statuses, last);
      if Fine(statuses, last) {
        SizeAppend(Passed(rs[..last], statuses), rs[last]);
      } else {
        assert Passed(rs, statuses) == Passed(rs[..last], statuses);
      }
    }
  }

  // ----- What the server holds was in a request -----

  lemma {:induction false} FoldHolds(docs: Docs, index: Bytes, rs: seq<Record>, i: nat)
    requires Different(rs) && i < |rs|
    ensures (index, rs[i].docID) in Fold(docs, index, rs)
    ensures Fold(docs, index, rs)[(index, rs[i].docID)] == rs[i].data
  {
    var last := |rs| - 1;
    if i < last {
      FoldHolds(docs, index, rs[..last], i);
    }
  }

  lemma {:induction false} FoldOnly(docs: Docs, index: Bytes, rs: seq<Record>, r: Record)
    requires (index, r.docID) !in docs
    requires (index, r.docID) in Fold(docs, index, rs) && Fold(docs, index, rs)[(index, r.docID)] == r.data
    ensures r in rs
  {
    var last := |rs| - 1;
    if rs[last].docID != r.docID {
      FoldOnly(docs, index, rs[..last], r);
    }
  }

  ghost predicate New(docs: Docs, index: Bytes, rs: seq<Record>) {
    forall i :: 0 <= i < |rs| ==> (index, rs[i].docID) !in docs
  }

  lemma SameFold(docs: Docs, index: Bytes, rs: seq<Record>, others: seq<Record>)
    requires Different(rs) && New(docs, index, rs) && Fold(docs, index, others) == Fold(docs, index, rs)
    ensures Among(rs, others)
  {
    forall i | 0 <= i < |rs| ensures rs[i] in others {
      FoldHolds(docs, index, rs, i);
      FoldOnly(docs, index, others, rs[i]);
    }
  }

  lemma IngestedWhole(docs: Docs, index: Bytes, rs: seq<Record>, body: Bytes, statuses: seq<nat>)
    requires Different(rs) && New(docs, index, rs) && |body| <= Size(rs) && Ended(body) && Parse(body).Some?
    requires Ingest(docs, index, body, statuses) == Fold(docs, index, rs)
    ensures |body| == Size(rs) && AllFine(statuses, |Parse(body).value|)
  {
    var read := Parse(body).value;
    ParseOnly(body);
    SizeIsLength(read);
    PassedSize(read, statuses);
    PassedAmong(read, statuses);
    SameFold(docs, index, rs, Passed(read, statuses));
    SizeAmong(rs, Passed(read, statuses));
  }

  lemma StoresNot(docs: Docs, index: Bytes, rs: seq<Record>)
    requires rs != [] && Different(rs) && New(docs, index, rs)
    ensures Fold(docs, index, rs) != docs
  {
    FoldHolds(docs, index, rs, 0);
  }

  lemma IngestedPart(docs: Docs, index: Bytes, rs: seq<Record>, body: Bytes, statuses: seq<nat>)
    requires rs != [] && Clean(rs) && Different(rs) && New(docs, index, rs) && Suffix(body, Encode(rs)) && Ended(body)
    requires Ingest(docs, index, body, statuses) == Fold(docs, index, rs)
    ensures body == Encode(rs) && AllFine(statuses, |rs|)
  {
    StoresNot(docs, index, rs);
    assert Parse(body).Some?;
    SizeIsLength(rs);
    IngestedWhole(docs, index, rs, body, statuses);
    RoundTrip(rs);
  }

  /** A request with the end of the body stores the batch exactly if it is the whole body and no item fails. */
  lemma IngestedIff(docs: Docs, index: Bytes, rs: seq<Record>, body: Bytes, statuses: seq<nat>)
    requires rs != [] && Clean(rs) && Different(rs) && New(docs, index, rs) && Suffix(body, Encode(rs)) && Ended(body)
    ensures Ingest(docs, index, body, statuses) == Fold(docs, index, rs)
       <==> body == Encode(rs) && AllFine(statuses, |rs|)
  {
    if Ingest(docs, index, body, statuses) == Fold(docs, index, rs) {
      IngestedPart(docs, index, rs, body, statuses);
    } else if body == Encode(rs) && AllFine(statuses, |rs|) {
      IngestAll(docs, docs, index, rs, statuses);
    }
  }

  // ----- Everything the server wrote in one call -----

  /** The records of one request that the server wrote. */
  ghost function WrittenBy(a: Attempt, offered: Bytes): seq<Record> {
    if !a.Response? then a.applied
    else match Parse(offered)
      case None => []
      case Some(rs) => Passed(rs, a.statuses)
  }

  /** The records that the server wrote in all requests of a call, in order. */
  ghost function Written(maxRetries: int, retry: nat, rest: Bytes, script: seq<Attempt>): seq<Record>
    requires Decided(maxRetries, retry, script)
    decreases script
  {
    if Retries(maxRetries, retry, script[0]) then
      script[0].applied + Written(maxRetries, retry + 1, Remaining(rest, script[0].taken), script[1..])
    else WrittenBy(script[0], rest)
  }

  lemma {:induction false} WrittenFolds(maxRetries: int, retry: nat, index: Bytes, rest: Bytes, script: seq<Attempt>,
                                        docs: Docs)
    requires Decided(maxRetries, retry, script)
    ensures BulkSpec(maxRetries, retry, index, rest, script, docs).docs
         == Fold(docs, index, Written(maxRetries, retry, rest, script))
    decreases script
  {
    if Retries(maxRetries, retry, script[0]) {
      var left := Remaining(rest, script[0].taken);
      WrittenFolds(maxRetries, retry + 1, index, left, script[1..], Fold(docs, index, script[0].applied));
      FoldConcat(docs, index, script[0].applied, Written(maxRetries, retry + 1, left, script[1..]));
    }
  }

  /** A document that was written holds what some record said. */
  lemma {:induction false} FoldFrom(docs: Docs, index: Bytes, rs: seq<Record>, key: (Bytes, Bytes)) returns (r: Record)
    requires Touched(key, index, rs)
    ensures r in rs && r.docID == key.1
    ensures key in Fold(docs, index, rs) && Fold(docs, index, rs)[key] == r.data
  {
    var last := |rs| - 1;
    if rs[last].docID == key.1 {
      r := rs[last];
    } else {
      var i :| 0 <= i < |rs| && rs[i].docID == key.1;
      assert rs[..last][i].docID == key.1;
      r := FoldFrom(docs, index, rs[..last], key);
    }
  }

  /** Records with different identifiers, written in any order and any number of times, come to the same. */
  lemma FoldSameRecords(docs: Docs, index: Bytes, rs: seq<Record>, others: seq<Record>)
    requires Different(rs) && Among(rs, others) && Among(others, rs)
    ensures Fold(docs, index, others) == Fold(docs, index, rs)
  {
    var a, b := Fold(docs, index, others), Fold(docs, index, rs);
    forall key ensures (key in a <==> key in b) && (key in a ==> a[key] == b[key]) {
      FoldAt(docs, index, others, key);
      FoldAt(docs, index, rs, key);
      TouchedAmong(key, index, rs, others);
      TouchedAmong(key, index, others, rs);
      if Touched(key, index, others) {
        var r := FoldFrom(docs, index, others, key);
        var i :| 0 <= i < |rs| && rs[i] == r;
        FoldHolds(docs, index, rs, i);
      }
    }
    assert a.Keys == b.Keys;
  }

  /**
   * If the server writes only records of the batch, new ones with different identifiers, the batch is stored
   * exactly if each of its records was applied in some request of the call or passed in the last one.
   */
  lemma FlushStoresIffWritten(maxRetries: int, st: Store, d: Doc, script: seq<Attempt>)
    requires Decided(maxRetries, 0, script) && Valid(Some(d)) && |st.buffered| + 1 >= THRESHOLD
    requires var rs := Records(st.buffered + [d]);
             && Different(rs) && New(st.docs, d.index, rs)
             && Among(Written(maxRetries, 0, Encode(rs), script), rs)
    ensures var rs := Records(st.buffered + [d]);
            (WriteSpec(maxRetries, st, Some(d), script).docs == Fold(st.docs, d.index, rs)
             <==> Among(rs, Written(maxRetries, 0, Encode(rs), script)))
  {
    var rs := Records(st.buffered + [d]);
    var written := Written(maxRetries, 0, Encode(rs), script);
    WrittenFolds(maxRetries, 0, d.index, Encode(rs), script, st.docs);
    if Among(rs, written) {
      FoldSameRecords(st.docs, d.index, rs, written);
    } else if Fold(st.docs, d.index, written) == Fold(st.docs, d.index, rs) {
      SameFold(st.docs, d.index, rs, written);
    }
  }

  // ----- One call whose unanswered requests were not applied -----

  /** What the server applied of a request that it does not answer item by item. */
  ghost function AppliedBy(a: Attempt): seq<Record> {
    if a.Response? then [] else a.applied
  }

  ghost predicate Unapplied(script: seq<Attempt>) {
    forall i :: 0 <= i < |script| ==> AppliedBy(script[i]) == []
  }

  /** Only the request that ends the call changes the server, and it offers the end of the body. */
  ghost predicate LastCounts(sent: Sent, index: Bytes, body: Bytes, script: seq<Attempt>, docs: Docs) {
    && 1 <= |sent.bodies| <= |script|
    && var offered, last := sent.bodies[|sent.bodies| - 1], script[|sent.bodies| - 1];
       && Suffix(offered, body)
       && sent.docs == if last.Response? then Ingest(docs, index, offered, last.statuses) else docs
  }

  lemma LaterCounts(later: Sent, index: Bytes, body: Bytes, rest: Bytes, script: seq<Attempt>, docs: Docs)
    requires script != [] && LastCounts(later, index, rest, script[1..], docs) && Suffix(rest, body)
    ensures LastCounts(Behind([body], later), index, body, script, docs)
  {
    assert ([body] + later.bodies)[|later.bodies|] == later.bodies[|later.bodies| - 1];
    assert script[1..][|later.bodies| - 1] == script[|later.bodies|];
  }

  lemma {:induction false} LastRequest(maxRetries: int, retry: nat, index: Bytes, body: Bytes, script: seq<Attempt>,
                                       docs: Docs)
    requires Decided(maxRetries, retry, script) && Unapplied(script)
    ensures LastCounts(BulkSpec(maxRetries, retry, index, body, script, docs), index, body, script, docs)
    decreases script
  {
    assert AppliedBy(script[0]) == [];
    if Retries(maxRetries, retry, script[0]) {
      var rest := Remaining(body, script[0].taken);
      forall i | 0 <= i < |script[1..]| ensures AppliedBy(script[1..][i]) == [] {
        assert AppliedBy(script[i + 1]) == [];
      }
      LastRequest(maxRetries, retry + 1, index, rest, script[1..], docs);
      LaterCounts(BulkSpec(maxRetries, retry + 1, index, rest, script[1..], docs), index, body, rest, script, docs);
    }
  }

  lemma EncodeEnded(rs: seq<Record>, b: Bytes)
    requires Suffix(b, Encode(rs))
    ensures Ended(b)
  {
    if rs != [] {
      EncodeAppend(rs[..|rs| - 1], rs[|rs| - 1]);
      assert rs[..|rs| - 1] + [rs[|rs| - 1]] == rs;
    }
  }

  lemma SentStoresIff(sent: Sent, index: Bytes, rs: seq<Record>, script: seq<Attempt>, docs: Docs)
    requires LastCounts(sent, index, Encode(rs), script, docs)
    requires rs != [] && Clean(rs) && Different(rs) && New(docs, index, rs)
    ensures var k := |sent.bodies| - 1;
            (sent.docs == Fold(docs, index, rs)
             <==> script[k].Response? && sent.bodies[k] == Encode(rs) && AllFine(script[k].statuses, |rs|))
  {
    var k := |sent.bodies| - 1;
    EncodeEnded(rs, sent.bodies[k]);
    if script[k].Response? {
      IngestedIff(docs, index, rs, sent.bodies[k], script[k].statuses);
    } else {
      StoresNot(docs, index, rs);
    }
  }

  lemma EncodeNonempty(rs: seq<Record>)
    requires rs != []
    ensures Encode(rs) != []
  {
  }

  /** One call of bulkWrite stores its records exactly if that holds of the answers it gets. */
  lemma CallStoresIff(maxRetries: int, index: Bytes, rs: seq<Record>, script: seq<Attempt>, docs: Docs)
    requires Decided(maxRetries, 0, script) && Unapplied(script)
    requires rs != [] && Clean(rs) && Different(rs) && New(docs, index, rs)
    ensures var n := Requests(maxRetries, 0, script);
            (BulkSpec(maxRetries, 0, index, Encode(rs), script, docs).docs == Fold(docs, index, rs)
             <==> script[n - 1].Response? && Untouched(script, n - 1) && AllFine(script[n - 1].statuses, |rs|))
  {
    var body := Encode(rs);
    EncodeNonempty(rs);
    BodiesShrink(maxRetries, 0, index, body, script, docs);
    LastRequest(maxRetries, 0, index, body, script, docs);
    WholeBodyIff(maxRetries, 0, index, body, script, docs);
    SentStoresIff(BulkSpec(maxRetries, 0, index, body, script, docs), index, rs, script, docs);
  }

  /**
   * A flushed batch of new documents is stored exactly if the request that ends the call is answered, no attempt
   * before it took a byte from the reader, and no item of the answer has an error status.
   */
  lemma FlushStoresIff(maxRetries: int, st: Store, d: Doc, script: seq<Attempt>)
    requires Decided(maxRetries, 0, script) && Unapplied(script)
    requires Valid(Some(d)) && |st.buffered| + 1 >= THRESHOLD
    requires var rs := Records(st.buffered + [d]); Clean(rs) && Different(rs) && New(st.docs, d.index, rs)
    ensures var rs, n := Records(st.buffered + [d]), Requests(maxRetries, 0, script);
            (WriteSpec(maxRetries, st, Some(d), script).docs == Fold(st.docs, d.index, rs)
             <==> script[n - 1].Response? && Untouched(script, n - 1) && AllFine(script[n - 1].statuses, |rs|))
  {
    CallStoresIff(maxRetries, d.index, Records(st.buffered + [d]), script, st.docs);
  }
}
