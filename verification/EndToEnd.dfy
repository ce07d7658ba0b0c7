/** From the messages the source handed out to what the storages write, over pooled and shared payload objects. */
module EndToEnd {
  import opened Tally
  import opened Payloads
  import opened Control
  import D = Dataflow
  import opened Ordering
  import Delivery
  import Flow
  import opened Ownership
  import opened Refinement

  /**
   * In a FIFO pipeline over recycled payload objects, the i-th clone a storage was handed reads, whenever the
   * storage comes to write it, as the i-th result of the filter-map over the payloads the source handed out.
   */
  lemma StorageWritesFilterMap(p: D.Program, acts: seq<Action>, j: nat, i: nat)
    requires Wired(p.c) && Fifo(p.c) && InPlace(p) && Runs(p, acts) && j < p.c.m
    requires i < |Reach(p, acts).queue[j]| && Reach(p, acts).queue[j][i].Stored?
    ensures D.Computes(p, LiftRun(p, acts))
    ensures var v := D.After(p, LiftRun(p, acts));
            var out := D.FilterMap(p, p.c.n, v.taken).out;
            i < |out| && Reach(p, acts).queue[j][i].payload == out[i].body
  {
    StorageReadsResults(p, acts, j, i);
    Delivery.StorageReceivesPrefix(p, LiftRun(p, acts), j);
  }

  // ----- In which order -----

  /** Storage j's writes, in order: the position each has in its queue, and the payload that was read. */
  ghost function Writes(p: D.Program, acts: seq<Action>, j: nat): seq<(nat, Payload)>
    requires Wired(p.c) && Runs(p, acts)
  {
    if acts == [] then []
    else
      var front, act := acts[..|acts| - 1], acts[|acts| - 1];
      if act.StorageWrite? && act.j == j then
        Writes(p, front, j) + [(act.i, Look(Reach(p, front), Reach(p, front).queue[j][act.i].item.body))]
      else Writes(p, front, j)
  }

  ghost predicate IsStored(w: World, j: nat, written: (nat, Payload)) {
    j < |w.queue| && written.0 < |w.queue[j]| && w.queue[j][written.0] == Stored(written.1)
  }

  lemma StoredStays(p: D.Program, w: World, act: Action, j: nat, written: (nat, Payload))
    requires Ready(p.c, w) && Possible(p, w, act) && IsStored(w, j, written)
    ensures IsStored(Perform(p, w, act), j, written)
  {
  }

  lemma WriteStores(p: D.Program, w: World, j: nat, i: nat)
    requires Ready(p.c, w) && Possible(p, w, StorageWrite(j, i))
    ensures IsStored(Perform(p, w, StorageWrite(j, i)), j, (i, Look(w, w.queue[j][i].item.body)))
  {
  }

  lemma {:induction false} WritesAreStored(p: D.Program, acts: seq<Action>, j: nat)
    requires Wired(p.c) && Runs(p, acts)
    ensures forall k :: 0 <= k < |Writes(p, acts, j)| ==> IsStored(Reach(p, acts), j, Writes(p, acts, j)[k])
  {
    if acts != [] {
      var front, act := acts[..|acts| - 1], acts[|acts| - 1];
      WritesAreStored(p, front, j);
      var w, before := Reach(p, front), Writes(p, front, j);
      forall k | 0 <= k < |before| ensures IsStored(Perform(p, w, act), j, before[k]) {
        StoredStays(p, w, act, j, before[k]);
      }
      if act.StorageWrite? && act.j == j {
        WriteStores(p, w, j, act.i);
      }
    }
  }

  lemma {:induction false} StoredWasWritten(p: D.Program, acts: seq<Action>, j: nat, i: nat)
    requires Wired(p.c) && Runs(p, acts) && j < p.c.m
    requires i < |Reach(p, acts).queue[j]| && Reach(p, acts).queue[j][i].Stored?
    ensures exists k :: 0 <= k < |Writes(p, acts, j)| && Writes(p, acts, j)[k].0 == i
  {
    var front, act := acts[..|acts| - 1], acts[|acts| - 1];
    var w, before := Reach(p, front), Writes(p, front, j);
    StoredBefore(p, w, act, j, i);
    if act == StorageWrite(j, i) {
      assert Writes(p, acts, j)[|before|].0 == i;
    } else {
      StoredWasWritten(p, front, j, i);
      var k :| 0 <= k < |before| && before[k].0 == i;
      assert Writes(p, acts, j)[k].0 == i;
    }
  }

  /** Only a write stores. */
  lemma StoredBefore(p: D.Program, w: World, act: Action, j: nat, i: nat)
    requires Ready(p.c, w) && Possible(p, w, act) && j < p.c.m
    requires i < |Perform(p, w, act).queue[j]| && Perform(p, w, act).queue[j][i].Stored?
    ensures act == StorageWrite(j, i) || (i < |w.queue[j]| && w.queue[j][i].Stored?)
  {
  }

  /** No clone is written twice. */
  lemma {:induction false} WritesDiffer(p: D.Program, acts: seq<Action>, j: nat)
    requires Wired(p.c) && Runs(p, acts)
    ensures forall h, k :: 0 <= h < k < |Writes(p, acts, j)| ==> Writes(p, acts, j)[h].0 != Writes(p, acts, j)[k].0
  {
    if acts != [] {
      var front, act := acts[..|acts| - 1], acts[|acts| - 1];
      WritesDiffer(p, front, j);
      WritesAreStored(p, front, j);
      if act.StorageWrite? && act.j == j {
        forall h | 0 <= h < |Writes(p, front, j)| ensures Writes(p, front, j)[h].0 != act.i {
          assert IsStored(Reach(p, front), j, Writes(p, front, j)[h]);
        }
      }
    }
  }

  // ----- Stages and storages of any size -----

  lemma {:induction false} ResultIsClone(p: D.Program, k: nat, q: nat, message: Payload)
    requires k > 0 && D.Chain(p, k, q, message).Carried?
    ensures CloneOf(D.Chain(p, k, q, message).body) == D.Chain(p, k, q, message).body
  {
    assert D.Chain(p, k - 1, q, message).Carried?;
  }

  /** What a sink hands over is what the stages make of a payload taken. */
  lemma DrainedIsResult(p: D.Program, ls: seq<Label<Payload>>, j: nat, i: nat)
    requires Wired(p.c) && D.Computes(p, ls) && j < p.c.m && i < |D.After(p, ls).drained[j]|
    ensures var s := D.After(p, ls);
            && i < |s.log[p.c.n + j]| && s.drained[j][i].id == s.log[p.c.n + j][i].id
            && D.At(p, s.taken, p.c.n, s.drained[j][i])
  {
    var s := D.After(p, ls);
    Delivery.SinksRun(p, ls);
    assert Delivery.HandedOver(s.sinks[j], s.log[p.c.n + j], s.drained[j]);
    var it := s.log[p.c.n + j][i];
    assert s.drained[j][i] == Item(it.id, CloneOf(it.body));
    Delivery.SinkReceivesOnlyResults(p, ls, j, i);
    ResultIsClone(p, p.c.n, it.id, s.taken[it.id]);
  }

  /** A sink receives no payload in two places. */
  lemma ReceivedOnce(p: D.Program, ls: seq<Label<Payload>>, j: nat, h: nat, i: nat)
    requires Wired(p.c) && D.Computes(p, ls) && j < p.c.m && h < |D.After(p, ls).log[p.c.n + j]|
    requires h != i < |D.After(p, ls).log[p.c.n + j]|
    ensures D.After(p, ls).log[p.c.n + j][h].id != D.After(p, ls).log[p.c.n + j][i].id
  {
    var received := D.After(p, ls).log[p.c.n + j];
    var q := received[i].id;
    Flow.AtMostOnce(p.c, ls, j, q);
    if received[h].id == q {
      MassOfTwo(Flow.Only(q), Flow.Ids(received), if h < i then h else i, if h < i then i else h);
    }
  }

  /** What sink j handed over: results of payloads taken, each of its own one. */
  ghost predicate OwnResults(p: D.Program, s: State<Payload>, j: nat)
    requires Shaped(p.c, s) && j < p.c.m
  {
    && (forall i :: 0 <= i < |s.drained[j]| ==> D.At(p, s.taken, p.c.n, s.drained[j][i]))
    && (forall h, i :: 0 <= h < i < |s.drained[j]| ==> s.drained[j][h].id != s.drained[j][i].id)
  }

  lemma DrainedOwnResults(p: D.Program, ls: seq<Label<Payload>>, j: nat)
    requires Wired(p.c) && D.Computes(p, ls) && j < p.c.m
    ensures OwnResults(p, D.After(p, ls), j)
  {
    var s := D.After(p, ls);
    forall i | 0 <= i < |s.drained[j]| ensures D.At(p, s.taken, p.c.n, s.drained[j][i]) {
      DrainedIsResult(p, ls, j, i);
    }
    forall h, i | 0 <= h < i < |s.drained[j]| ensures s.drained[j][h].id != s.drained[j][i].id {
      DrainedIsResult(p, ls, j, h);
      DrainedIsResult(p, ls, j, i);
      ReceivedOnce(p, ls, j, h, i);
    }
  }

  /** What was written: clones that were handed over, with their contents, and no clone twice. */
  ghost predicate OfDrained(drained: seq<Item<Payload>>, written: seq<(nat, Payload)>) {
    && (forall k :: 0 <= k < |written| ==>
          written[k].0 < |drained| && written[k].1 == drained[written[k].0].body)
    && (forall h, k :: 0 <= h < k < |written| ==> written[h].0 != written[k].0)
  }

  lemma WritesOfDrained(p: D.Program, acts: seq<Action>, j: nat)
    requires Wired(p.c) && InPlace(p) && Runs(p, acts) && j < p.c.m
    ensures D.Computes(p, LiftRun(p, acts))
    ensures OfDrained(D.After(p, LiftRun(p, acts)).drained[j], Writes(p, acts, j))
  {
    ObjectsRefineValues(p, acts);
    WritesAreStored(p, acts, j);
    WritesDiffer(p, acts, j);
    forall k | 0 <= k < |Writes(p, acts, j)|
      ensures var written := Writes(p, acts, j)[k];
              var drained := D.After(p, LiftRun(p, acts)).drained[j];
              written.0 < |drained| && written.1 == drained[written.0].body
    {
      assert IsStored(Reach(p, acts), j, Writes(p, acts, j)[k]);
      StorageReadsResults(p, acts, j, Writes(p, acts, j)[k].0);
    }
  }

  /** Payloads taken, results of different ones written. */
  ghost predicate WritesResults(p: D.Program, taken: seq<Payload>, written: seq<(nat, Payload)>, origin: seq<nat>) {
    && |origin| == |written|
    && (forall k :: 0 <= k < |written| ==> D.At(p, taken, p.c.n, Item(origin[k], written[k].1)))
    && (forall h, k :: 0 <= h < k < |written| ==> origin[h] != origin[k])
  }

  ghost function Origins(drained: seq<Item<Payload>>, written: seq<(nat, Payload)>): (r: seq<nat>)
    requires OfDrained(drained, written)
    ensures |r| == |written|
  {
    seq(|written|, k requires 0 <= k < |written| => drained[written[k].0].id)
  }

  lemma OriginsOwn(p: D.Program, s: State<Payload>, j: nat, written: seq<(nat, Payload)>)
    requires Shaped(p.c, s) && j < p.c.m && OwnResults(p, s, j) && OfDrained(s.drained[j], written)
    ensures WritesResults(p, s.taken, written, Origins(s.drained[j], written))
  {
    var drained, origins := s.drained[j], Origins(s.drained[j], written);
    forall k | 0 <= k < |written| ensures D.At(p, s.taken, p.c.n, Item(origins[k], written[k].1)) {
      assert drained[written[k].0] == Item(origins[k], written[k].1);
    }
  }

  /**
   * Whatever the sizes of stages and of the storage's worker pool: a storage writes only what the stages make of
   * payloads the source handed out, of each at most once.
   */
  lemma StorageWritesResults(p: D.Program, acts: seq<Action>, j: nat) returns (origin: seq<nat>)
    requires Wired(p.c) && InPlace(p) && Runs(p, acts) && j < p.c.m
    ensures D.Computes(p, LiftRun(p, acts))
    ensures WritesResults(p, D.After(p, LiftRun(p, acts)).taken, Writes(p, acts, j), origin)
  {
    WritesOfDrained(p, acts, j);
    var s := D.After(p, LiftRun(p, acts));
    DrainedOwnResults(p, LiftRun(p, acts), j);
    OriginsOwn(p, s, j, Writes(p, acts, j));
    origin := Origins(s.drained[j], Writes(p, acts, j));
  }
}
