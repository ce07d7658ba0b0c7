/** The body of an Elasticsearch bulk request: two lines a record, and how the server reads it back. */
module BulkBody {
  import opened Payloads

  const PREFIX: Bytes := "{ \"index\" : { \"_id\" : \""
  const SUFFIX: Bytes := "\" } }"

  /** The action line, without its line break. */
  function Meta(docID: Bytes): Bytes {
    PREFIX + docID + SUFFIX
  }

  function EncodeOne(r: Record): Bytes {
    (Meta(r.docID) + "\n") + (r.data + "\n")
  }

  function Encode(rs: seq<Record>): Bytes {
    if rs == [] then "" else EncodeOne(rs[0]) + Encode(rs[1..])
  }

  // ----- The server's side -----

  function FirstBreak(b: Bytes): (k: nat)
    ensures k <= |b| && '\n' !in b[..k] && (k < |b| ==> b[k] == '\n')
  {
    if b == "" || b[0] == '\n' then 0
    else
      var k := 1 + FirstBreak(b[1..]);
      assert b[..k] == [b[0]] + b[1..][..k - 1];
      k
  }

  function Lines(b: Bytes): seq<Bytes> {
    var k := FirstBreak(b);
    if b == "" then []
    else if k == |b| then [b]
    else [b[..k]] + Lines(b[k + 1..])
  }

  function DocIdOf(line: Bytes): Option<Bytes> {
    if |line| >= |PREFIX| + |SUFFIX| && line[..|PREFIX|] == PREFIX && line[|line| - |SUFFIX|..] == SUFFIX
    then Some(line[|PREFIX|..|line| - |SUFFIX|])
    else None
  }

  function Pair(lines: seq<Bytes>): Option<seq<Record>> {
    if lines == [] then Some([])
    else if |lines| == 1 then None
    else
      match (DocIdOf(lines[0]), Pair(lines[2..]))
      case (Some(docID), Some(rest)) => Some([Record(docID, lines[1])] + rest)
      case _ => None
  }

  function Parse(body: Bytes): Option<seq<Record>> {
    Pair(Lines(body))
  }

  // ----- Round trip -----

  ghost predicate OneLine(b: Bytes) {
    '\n' !in b
  }

  ghost predicate Clean(rs: seq<Record>) {
    forall i :: 0 <= i < |rs| ==> OneLine(rs[i].docID) && OneLine(rs[i].data)
  }

  lemma FirstBreakAt(b: Bytes, k: nat)
    requires k < |b| && b[k] == '\n' && '\n' !in b[..k]
    ensures FirstBreak(b) == k
  {
    var f := FirstBreak(b);
    forall i | 0 <= i < k ensures b[i] != '\n' {
      assert b[..k][i] == b[i];
    }
    forall i | 0 <= i < f ensures b[i] != '\n' {
      assert b[..f][i] == b[i];
    }
  }

  lemma LinesOfLine(line: Bytes, rest: Bytes)
    requires OneLine(line)
    ensures Lines(line + "\n" + rest) == [line] + Lines(rest)
  {
    var b := line + "\n" + rest;
    assert b[..|line|] == line && b[|line|] == '\n' && b[|line| + 1..] == rest;
    FirstBreakAt(b, |line|);
  }

  lemma DocIdOfMeta(docID: Bytes)
    ensures DocIdOf(Meta(docID)) == Some(docID)
  {
    var line := Meta(docID);
    assert line[..|PREFIX|] == PREFIX;
    assert line[|line| - |SUFFIX|..] == SUFFIX;
    assert line[|PREFIX|..|line| - |SUFFIX|] == docID;
  }

  lemma OneLineMeta(docID: Bytes)
    requires OneLine(docID)
    ensures OneLine(Meta(docID))
  {
    assert OneLine(PREFIX) && OneLine(SUFFIX);
  }

  lemma LinesOfRecord(r: Record, rest: Bytes)
    requires OneLine(r.docID) && OneLine(r.data)
    ensures Lines(EncodeOne(r) + rest) == [Meta(r.docID), r.data] + Lines(rest)
  {
    var line := Meta(r.docID);
    var tail := r.data + "\n" + rest;
    OneLineMeta(r.docID);
    assert EncodeOne(r) + rest == line + "\n" + tail;
    LinesOfLine(line, tail);
    LinesOfLine(r.data, rest);
    assert [line] + ([r.data] + Lines(rest)) == [line, r.data] + Lines(rest);
  }

  lemma PairOfRecord(r: Record, lines: seq<Bytes>)
    requires Pair(lines).Some?
    ensures Pair([Meta(r.docID), r.data] + lines) == Some([r] + Pair(lines).value)
  {
    DocIdOfMeta(r.docID);
    assert ([Meta(r.docID), r.data] + lines)[2..] == lines;
  }

  /** The server reads back exactly the records, from exactly two lines each. */
  lemma {:induction false} RoundTrip(rs: seq<Record>)
    requires Clean(rs)
    ensures Parse(Encode(rs)) == Some(rs) && |Lines(Encode(rs))| == 2 * |rs|
  {
    if rs != [] {
      RoundTrip(rs[1..]);
      LinesOfRecord(rs[0], Encode(rs[1..]));
      PairOfRecord(rs[0], Lines(Encode(rs[1..])));
      assert rs == [rs[0]] + rs[1..];
    }
  }

  /** Different buffered lists have different bodies. */
  lemma EncodeInjective(a: seq<Record>, b: seq<Record>)
    requires Clean(a) && Clean(b) && Encode(a) == Encode(b)
    ensures a == b
  {
    RoundTrip(a);
    RoundTrip(b);
  }

  lemma {:induction false} EncodeAppend(rs: seq<Record>, r: Record)
    ensures Encode(rs + [r]) == Encode(rs) + EncodeOne(r)
  {
    if rs == [] {
      assert rs + [r] == [r] && [r][1..] == [];
      assert Encode([r]) == EncodeOne(r) + Encode([]);
      assert Encode([]) == "" && Encode(rs) == "";
    } else {
      EncodeAppend(rs[1..], r);
      assert (rs + [r])[1..] == rs[1..] + [r];
      assert Encode(rs + [r]) == EncodeOne(rs[0]) + (Encode(rs[1..]) + EncodeOne(r));
    }
  }

  /** The text that one more record adds to a body. */
  lemma EncodeText(rs: seq<Record>, r: Record)
    ensures Encode(rs + [r])
         == Encode(rs) + "{ \"index\" : { \"_id\" : \"" + r.docID + "\" } }\n" + r.data + "\n"
  {
    EncodeAppend(rs, r);
    assert EncodeOne(r) == "{ \"index\" : { \"_id\" : \"" + r.docID + "\" } }\n" + r.data + "\n";
  }
}
