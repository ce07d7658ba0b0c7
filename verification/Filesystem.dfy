/** The file system storage: one file a document, written in one attempt. */
module Filesystem {
  import opened Payloads
  import DocIds

  /** The names on the way from the root to a file. */
  type FilePath = seq<Bytes>

  type Files = map<FilePath, Bytes>

  // ----- Paths -----

  /** One step down a path: an empty name and "." stay, ".." goes up. */
  function Enter(dir: FilePath, name: Bytes): FilePath {
    if name == "" || name == "." then dir
    else if name == ".." then (if dir == [] then [] else dir[..|dir| - 1])
    else dir + [name]
  }

  function FirstSlash(path: Bytes): (k: nat)
    ensures k <= |path| && (k < |path| ==> path[k] == '/')
  {
    if path == "" || path[0] == '/' then 0 else 1 + FirstSlash(path[1..])
  }

  function Walk(dir: FilePath, path: Bytes): FilePath
    decreases |path|
  {
    var k := FirstSlash(path);
    if k == |path| then Enter(dir, path) else Walk(Enter(dir, path[..k]), path[k + 1..])
  }

  /** A name that stands for itself. */
  ghost predicate Proper(name: Bytes) {
    '/' !in name && name != "" && name != "." && name != ".."
  }

  lemma {:induction false} FirstSlashAfter(name: Bytes, rest: Bytes)
    requires '/' !in name
    ensures FirstSlash(name) == FirstSlash(name + "/" + rest) == |name|
  {
    if name != "" {
      FirstSlashAfter(name[1..], rest);
      assert (name + "/" + rest)[1..] == name[1..] + "/" + rest;
    }
  }

  lemma WalkName(dir: FilePath, name: Bytes)
    requires '/' !in name
    ensures Walk(dir, name) == Enter(dir, name)
  {
    FirstSlashAfter(name, "");
  }

  lemma WalkStep(dir: FilePath, name: Bytes, rest: Bytes)
    requires '/' !in name
    ensures Walk(dir, name + "/" + rest) == Walk(Enter(dir, name), rest)
  {
    FirstSlashAfter(name, rest);
    var path := name + "/" + rest;
    assert path[..|name|] == name && path[|name| + 1..] == rest;
  }

  lemma {:induction false} SplitPath(path: Bytes) returns (name: Bytes, rest: Bytes)
    requires '/' in path
    ensures '/' !in name && path == name + "/" + rest
  {
    if path[0] == '/' {
      name, rest := "", path[1..];
    } else {
      name, rest := SplitPath(path[1..]);
      name := [path[0]] + name;
    }
  }

  lemma {:induction false} WalkJoin(dir: FilePath, a: Bytes, b: Bytes)
    ensures Walk(dir, a + "/" + b) == Walk(Walk(dir, a), b)
    decreases |a|
  {
    if '/' in a {
      var name, rest := SplitPath(a);
      WalkStep(dir, name, rest);
      WalkJoin(Enter(dir, name), rest, b);
      assert a + "/" + b == name + "/" + (rest + "/" + b);
      WalkStep(dir, name, rest + "/" + b);
    } else {
      WalkName(dir, a);
      WalkStep(dir, a, b);
    }
  }

  // ----- Writing -----

  /** What ioutil.WriteFile does: it writes the file, or fails and may leave something else in its place. */
  datatype Attempted = Done | Broken(left: Option<Bytes>)

  /** The file that the path root/subDir/name leads to. */
  function Path(root: Bytes, subDir: Bytes, name: Bytes): FilePath {
    Walk([], root + "/" + subDir + "/" + name)
  }

  function WriteFile(files: Files, path: FilePath, data: Bytes, a: Attempted): Files {
    match a
    case Done => files[path := data]
    case Broken(None) => files
    case Broken(Some(left)) => files[path := left]
  }

  /** The files after trying up to the first success, and whether there was one. */
  function TryAll(files: Files, path: FilePath, data: Bytes, attempts: seq<Attempted>): (Files, bool)
    decreases attempts
  {
    if attempts == [] then (files, false)
    else if attempts[0].Done? then (WriteFile(files, path, data, attempts[0]), true)
    else TryAll(WriteFile(files, path, data, attempts[0]), path, data, attempts[1..])
  }

  function PathOf(root: Bytes, d: Doc): FilePath {
    Path(root, d.index, d.record.docID)
  }

  datatype File = File(subDir: Bytes, name: Bytes, data: Bytes)

  class FilesystemClient {
    const rootDir: Bytes
    var file: File
    var count: nat
    var files: Files    // what is on disk

    constructor (rootDir: Bytes, files: Files)
      ensures this.rootDir == rootDir && this.files == files && count == 0
    {
      this.rootDir := rootDir;
      this.files := files;
      file := File("", "", "");
      count := 0;
    }

    /** Writes the payload's file.  The retry limit of one leaves a single attempt. */
    method Write(payload: Option<Doc>, attempt: Attempted) returns (written: nat, failed: bool)
      modifies this
      ensures payload.None? ==> failed && written == 0 && files == old(files) && count == old(count)
      ensures payload.Some? ==>
                && files == WriteFile(old(files), PathOf(rootDir, payload.value), payload.value.record.data, attempt)
                && file == File(payload.value.index, payload.value.record.docID, payload.value.record.data)
                && count == old(count) + 1
                && failed == attempt.Broken? && written == if failed then 0 else 1
    {
      if payload.None? {
        return 0, true;
      }
      var Doc(index, Record(docID, data)) := payload.value;
      file := File(index, docID, data);
      count := count + 1;
      written, failed := Retry(1, [attempt]);
    }

    /** The loop of Write, for any limit: attempts until one succeeds or the limit is reached. */
    method Retry(limit: nat, attempts: seq<Attempted>) returns (written: nat, failed: bool)
      requires 1 <= limit == |attempts|
      modifies this`files
      ensures files == TryAll(old(files), Path(rootDir, file.subDir, file.name), file.data, attempts).0
      ensures failed == !TryAll(old(files), Path(rootDir, file.subDir, file.name), file.data, attempts).1
      ensures written == if failed then 0 else 1
    {
      var retry := 0;
      ghost var path := Path(rootDir, file.subDir, file.name);
      while true
        invariant 0 <= retry < limit
        invariant TryAll(files, path, file.data, attempts[retry..]) == TryAll(old(files), path, file.data, attempts)
        decreases limit - retry
      {
        assert attempts[retry..][1..] == attempts[retry + 1..];
        files := WriteFile(files, Path(rootDir, file.subDir, file.name), file.data, attempts[retry]);
        if attempts[retry].Done? {
          return 1, false;
        }
        retry := retry + 1;
        if limit >= 0 && retry >= limit {
          return 0, true;
        }
      }
    }
  }

  // ----- Whole runs -----

  /** A write, and how it went. */
  datatype Put = Put(path: FilePath, data: Bytes, attempt: Attempted)

  ghost function AfterPuts(files: Files, puts: seq<Put>): Files {
    if puts == [] then files
    else
      var put := puts[|puts| - 1];
      WriteFile(AfterPuts(files, puts[..|puts| - 1]), put.path, put.data, put.attempt)
  }

  ghost predicate OwnPaths(puts: seq<Put>) {
    forall i, k :: 0 <= i < k < |puts| ==> puts[i].path != puts[k].path
  }

  ghost predicate PathAmong(path: FilePath, puts: seq<Put>) {
    exists i :: 0 <= i < |puts| && path == puts[i].path
  }

  ghost predicate Leaves(a: Attempted) {
    a.Done? || a.left.Some?
  }

  ghost function Left(puts: seq<Put>): nat {
    if puts == [] then 0 else Left(puts[..|puts| - 1]) + if Leaves(puts[|puts| - 1].attempt) then 1 else 0
  }

  /** The paths on disk are the old ones and those written to. */
  lemma {:induction false} OnlyTheirPaths(files: Files, puts: seq<Put>, path: FilePath)
    requires path in AfterPuts(files, puts)
    ensures path in files || PathAmong(path, puts)
  {
    if puts != [] {
      var front := puts[..|puts| - 1];
      if path != puts[|puts| - 1].path {
        OnlyTheirPaths(files, front, path);
        if PathAmong(path, front) {
          var i :| 0 <= i < |front| && path == front[i].path;
          assert path == puts[i].path;
        }
      }
    }
  }

  lemma {:induction false} PutStays(files: Files, puts: seq<Put>, i: nat)
    requires OwnPaths(puts) && i < |puts| && puts[i].attempt.Done?
    ensures var files' := AfterPuts(files, puts); puts[i].path in files' && files'[puts[i].path] == puts[i].data
  {
    var last := |puts| - 1;
    if i < last {
      PutStays(files, puts[..last], i);
      assert puts[i].path != puts[last].path;
    }
  }

  lemma {:induction false} PutsCount(files: Files, puts: seq<Put>)
    requires OwnPaths(puts) && forall i :: 0 <= i < |puts| ==> puts[i].path !in files
    ensures |AfterPuts(files, puts)| == |files| + Left(puts)
  {
    if puts != [] {
      var last := |puts| - 1;
      var front := puts[..last];
      PutsCount(files, front);
      if puts[last].path in AfterPuts(files, front) {
        OnlyTheirPaths(files, front, puts[last].path);
      }
    }
  }

  // ----- Whole runs of documents -----

  datatype Job = Job(doc: Doc, attempt: Attempted)

  ghost function Puts(root: Bytes, jobs: seq<Job>): (r: seq<Put>)
    ensures |r| == |jobs|
  {
    seq(|jobs|, i requires 0 <= i < |jobs| =>
      Put(PathOf(root, jobs[i].doc), jobs[i].doc.record.data, jobs[i].attempt))
  }

  ghost predicate SameFile(a: Doc, b: Doc) {
    a.index == b.index && a.record.docID == b.record.docID
  }

  ghost predicate Distinct(jobs: seq<Job>) {
    forall i, k :: 0 <= i < k < |jobs| ==> !SameFile(jobs[i].doc, jobs[k].doc)
  }

  ghost predicate Plain(jobs: seq<Job>) {
    forall i :: 0 <= i < |jobs| ==> Proper(jobs[i].doc.index) && Proper(jobs[i].doc.record.docID)
  }

  lemma PathOfNames(root: Bytes, d: Doc)
    requires '/' !in d.index && '/' !in d.record.docID
    ensures PathOf(root, d) == Enter(Enter(Walk([], root), d.index), d.record.docID)
  {
    WalkJoin([], root + "/" + d.index, d.record.docID);
    WalkJoin([], root, d.index);
    WalkName(Walk([], root), d.index);
    WalkName(Enter(Walk([], root), d.index), d.record.docID);
  }

  /** Documents with proper names get the same file exactly if index and identifier agree. */
  lemma PathInjective(root: Bytes, a: Doc, b: Doc)
    requires Proper(a.index) && Proper(b.index) && Proper(a.record.docID) && Proper(b.record.docID)
    ensures PathOf(root, a) == PathOf(root, b) <==> SameFile(a, b)
  {
    PathOfNames(root, a);
    PathOfNames(root, b);
    var base := Walk([], root);
    assert PathOf(root, a)[|base|] == a.index && PathOf(root, a)[|base| + 1] == a.record.docID;
    assert PathOf(root, b)[|base|] == b.index && PathOf(root, b)[|base| + 1] == b.record.docID;
  }

  /** The other names are not files of their own: these indexes share all their files. */
  lemma NamesAlias(root: Bytes, r: Record)
    requires '/' !in r.docID
    ensures PathOf(root, Doc("", r)) == PathOf(root, Doc(".", r)) == Enter(Walk([], root), r.docID)
  {
    PathOfNames(root, Doc("", r));
    PathOfNames(root, Doc(".", r));
  }

  lemma DistinctPaths(root: Bytes, jobs: seq<Job>)
    requires Distinct(jobs) && Plain(jobs)
    ensures OwnPaths(Puts(root, jobs))
  {
    forall i, k | 0 <= i < k < |jobs| ensures PathOf(root, jobs[i].doc) != PathOf(root, jobs[k].doc) {
      PathInjective(root, jobs[i].doc, jobs[k].doc);
    }
  }

  /** Every document written successfully keeps its file and its data, whatever comes after it. */
  lemma KeepsItsFile(root: Bytes, files: Files, jobs: seq<Job>, i: nat)
    requires Distinct(jobs) && Plain(jobs) && i < |jobs| && jobs[i].attempt.Done?
    ensures var files', path := AfterPuts(files, Puts(root, jobs)), PathOf(root, jobs[i].doc);
            path in files' && files'[path] == jobs[i].doc.record.data
  {
    DistinctPaths(root, jobs);
    PutStays(files, Puts(root, jobs), i);
  }

  /**
   * Distinct documents with proper names, new on the disk: there is one new file for each write that left
   * something, so k successful writes among failures that leave nothing make exactly k files.
   */
  lemma OneFileEach(root: Bytes, files: Files, jobs: seq<Job>)
    requires Distinct(jobs) && Plain(jobs)
    requires forall i :: 0 <= i < |jobs| ==> PathOf(root, jobs[i].doc) !in files
    ensures |AfterPuts(files, Puts(root, jobs))| == |files| + Left(Puts(root, jobs))
  {
    DistinctPaths(root, jobs);
    PutsCount(files, Puts(root, jobs));
  }

  function KafkaDoc(text: Bytes -> Bytes, index: Bytes, topic: Bytes, m: DocIds.Coordinates, data: Bytes): Doc {
    Doc(index, Record(DocIds.MessageDocID(text, topic, m), data))
  }

  /**
   * Two Kafka messages of a topic, with offsets up to 2^53 and no slashes in key and topic, get the same file
   * exactly if partition and offset agree and the keys become the same text.
   */
  lemma KafkaFilesDistinct(root: Bytes, text: Bytes -> Bytes, index: Bytes, topic: Bytes, a: DocIds.Coordinates,
                           b: DocIds.Coordinates, da: Bytes, db: Bytes)
    requires DocIds.WellFormed(a) && DocIds.WellFormed(b)
    requires a.offset <= DocIds.Float64.EXACT && b.offset <= DocIds.Float64.EXACT
    requires Proper(index) && '/' !in text(a.key) && '/' !in text(b.key) && '/' !in topic
    ensures PathOf(root, KafkaDoc(text, index, topic, a, da)) == PathOf(root, KafkaDoc(text, index, topic, b, db))
       <==> text(a.key) == text(b.key) && a.partition == b.partition && a.offset == b.offset
  {
    DocIds.MessageDocIDEqual(text, topic, a, b);
    ProperDocID(text, topic, a);
    ProperDocID(text, topic, b);
    PathInjective(root, KafkaDoc(text, index, topic, a, da), KafkaDoc(text, index, topic, b, db));
  }

  lemma ProperDocID(text: Bytes -> Bytes, topic: Bytes, m: DocIds.Coordinates)
    requires '/' !in text(m.key) && '/' !in topic
    ensures Proper(DocIds.MessageDocID(text, topic, m))
  {
    DocIds.KafkaDocIDSlashless(text(m.key), topic, DocIds.Float64.OfInt(m.partition), DocIds.Float64.OfInt(m.offset));
  }

  /** With slashes in the key they need not: "x/../k" leads to the file of "k". */
  lemma KafkaFilesAlias(root: Bytes, text: Bytes -> Bytes, index: Bytes, topic: Bytes, partition: nat, offset: nat,
                        data: Bytes)
    requires text("x/../k") == "x/../k" && text("k") == "k"
    ensures var a, b := DocIds.Coordinates("x/../k", partition, offset), DocIds.Coordinates("k", partition, offset);
            PathOf(root, KafkaDoc(text, index, topic, a, data)) == PathOf(root, KafkaDoc(text, index, topic, b, data))
  {
    var p, o := DocIds.Decimal(DocIds.Float64.OfInt(partition)), DocIds.Decimal(DocIds.Float64.OfInt(offset));
    KeyAlias(topic, p, o);
    DownAndUp(root + "/" + index, "k" + "." + topic + "." + p + "." + o);
  }

  lemma KeyAlias(topic: Bytes, p: Bytes, o: Bytes)
    ensures "x/../k" + "." + topic + "." + p + "." + o
         == "x" + "/" + (".." + "/" + ("k" + "." + topic + "." + p + "." + o))
  {
  }

  lemma DownAndUp(dir: Bytes, id: Bytes)
    ensures Walk([], dir + "/" + ("x" + "/" + (".." + "/" + id))) == Walk([], dir + "/" + id)
  {
    var here := Walk([], dir);
    WalkJoin([], dir, "x" + "/" + (".." + "/" + id));
    WalkJoin([], dir, id);
    WalkStep(here, "x", ".." + "/" + id);
    WalkStep(here + ["x"], "..", id);
    assert Enter(here + ["x"], "..") == here;
  }

  // ----- The loop of Write -----

  /** It stops at the first success, whatever later attempts would do, and that file holds the data. */
  lemma {:induction false} FirstSuccessCounts(files: Files, path: FilePath, data: Bytes, attempts: seq<Attempted>,
                                              k: nat)
    requires k < |attempts| && attempts[k].Done? && forall i :: 0 <= i < k ==> attempts[i].Broken?
    ensures TryAll(files, path, data, attempts) == TryAll(files, path, data, attempts[..k + 1])
    ensures TryAll(files, path, data, attempts) == (files[path := data], true)
    decreases attempts
  {
    if k > 0 {
      var after := WriteFile(files, path, data, attempts[0]);
      FirstSuccessCounts(after, path, data, attempts[1..], k - 1);
      assert attempts[..k + 1][1..] == attempts[1..][..k];
      assert after[path := data] == files[path := data];
    }
  }

  /** Without a success it reports the failure. */
  lemma {:induction false} AllBrokenFails(files: Files, path: FilePath, data: Bytes, attempts: seq<Attempted>)
    requires forall i :: 0 <= i < |attempts| ==> attempts[i].Broken?
    ensures !TryAll(files, path, data, attempts).1
    decreases attempts
  {
    if attempts != [] {
      AllBrokenFails(WriteFile(files, path, data, attempts[0]), path, data, attempts[1..]);
    }
  }
}
