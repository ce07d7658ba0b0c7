/**
 * What the pipeline computes.  A run of the goroutine machine whose bodies are payload values is compared with
 * a plain filter-map: clone, process, drop nil, stop at the first error, clone, stage after stage.
 */
module Dataflow {
  import opened Payloads
  import opened Control

  /** What Processor.Process returns. */
  datatype Result = Out(payload: Payload) | Error

  /**
   * proc(k, q, p) is what the processor of stage k answers when given p for the q-th payload.  Stage k sees each
   * payload once, so this covers processors that read clocks or keep state.
   */
  datatype Program = Program(c: Config, proc: (nat, nat, Payload) -> Result)

  datatype Fate = Carried(body: Payload) | Skipped | Stopped

  /** One stage on one payload: its input is cloned and processed, its output cloned for the next channel. */
  ghost function StageFate(p: Program, k: nat, q: nat, body: Payload): Fate {
    if body.NoPayload? then Stopped
    else match p.proc(k, q, CloneOf(body))
      case Error => Stopped
      case Out(out) => if out.NoPayload? then Skipped else Carried(CloneOf(out))
  }

  /** The first k stages on one payload. */
  ghost function Chain(p: Program, k: nat, q: nat, body: Payload): Fate {
    if k == 0 then Carried(body)
    else match Chain(p, k - 1, q, body)
      case Carried(b) => StageFate(p, k - 1, q, b)
      case other => other
  }

  datatype Flowed = Flowed(out: seq<Item<Payload>>, stopped: bool)

  ghost function Extend(r: Flowed, q: nat, fate: Fate): Flowed {
    if r.stopped then r
    else match fate
      case Carried(b) => Flowed(r.out + [Item(q, b)], false)
      case Skipped => r
      case Stopped => Flowed(r.out, true)
  }

  /** The specification: the first k stages as one filter-map that stops at the first error. */
  ghost function FilterMap(p: Program, k: nat, taken: seq<Payload>): Flowed {
    if taken == [] then Flowed([], false)
    else
      var last := |taken| - 1;
      Extend(FilterMap(p, k, taken[..last]), last, Chain(p, k, last, taken[last]))
  }

  /** Stage k alone on the sequence of items it receives. */
  ghost function StageOut(p: Program, k: nat, items: seq<Item<Payload>>): Flowed {
    if items == [] then Flowed([], false)
    else
      var last := items[|items| - 1];
      Extend(StageOut(p, k, items[..|items| - 1]), last.id, StageFate(p, k, last.id, last.body))
  }

  /** The verdict of stage k on the item is what its processor's answer asks for. */
  ghost predicate Justified(p: Program, k: nat, it: Item<Payload>, v: Verdict<Payload>) {
    if it.body.NoPayload? then v.Refuse?
    else match p.proc(k, it.id, CloneOf(it.body))
      case Error => v.Fail?
      case Out(out) => if out.NoPayload? then v.Discard? else v == Forward(out)
  }

  /** The steps whose payloads are the ones the code computes. */
  ghost predicate Allowed(p: Program, s: State<Payload>, l: Label<Payload>)
    requires Shaped(p.c, s) && Enabled(p.c, s, l)
  {
    match l
    case WorkerProcess(x, v) => Justified(p, p.c.stageOf[x], s.workers[x].item, v)
    case WorkerSend(x, _, v) => v == CloneOf(s.workers[x].item.body)
    case WorkerDeliver(x, _, v) => v == CloneOf(s.workers[x].item.body)
    case SinkDrain(j, v) => v == CloneOf(s.sinks[j].item.body)
    case _ => true
  }

  /** A run from state s whose payloads are the ones the code computes. */
  ghost predicate Goes(p: Program, s: State<Payload>, ls: seq<Label<Payload>>)
    requires Shaped(p.c, s)
  {
    && Run(p.c, s, ls)
    && (ls != [] ==>
          && Goes(p, s, ls[..|ls| - 1])
          && Allowed(p, Exec(p.c, s, ls[..|ls| - 1]), ls[|ls| - 1]))
  }

  ghost predicate Computes(p: Program, ls: seq<Label<Payload>>)
    requires Wired(p.c)
  {
    Goes(p, Init(p.c), ls)
  }

  ghost function After(p: Program, ls: seq<Label<Payload>>): State<Payload>
    requires Wired(p.c) && Computes(p, ls)
  {
    Exec(p.c, Init(p.c), ls)
  }

  /** A run with one more step. */
  lemma GoesOn(p: Program, s: State<Payload>, ls: seq<Label<Payload>>, l: Label<Payload>)
    requires Shaped(p.c, s) && Goes(p, s, ls)
    requires Enabled(p.c, Exec(p.c, s, ls), l) && Allowed(p, Exec(p.c, s, ls), l)
    ensures Goes(p, s, ls + [l]) && Exec(p.c, s, ls + [l]) == Apply(p.c, Exec(p.c, s, ls), l)
  {
    assert (ls + [l])[..|ls|] == ls;
  }

  lemma Longer(p: Program, ls: seq<Label<Payload>>, l: Label<Payload>)
    requires Wired(p.c) && Computes(p, ls) && Enabled(p.c, After(p, ls), l) && Allowed(p, After(p, ls), l)
    ensures Computes(p, ls + [l]) && After(p, ls + [l]) == Apply(p.c, After(p, ls), l)
  {
    GoesOn(p, Init(p.c), ls, l);
  }

  /** One run after another. */
  lemma {:induction false} ComputesOn(p: Program, ls: seq<Label<Payload>>, more: seq<Label<Payload>>)
    requires Wired(p.c) && Computes(p, ls) && Goes(p, After(p, ls), more)
    ensures Computes(p, ls + more) && After(p, ls + more) == Exec(p.c, After(p, ls), more)
  {
    if more == [] {
      assert ls + more == ls;
    } else {
      var last := |more| - 1;
      ComputesOn(p, ls, more[..last]);
      Longer(p, ls + more[..last], more[last]);
      assert ls + more == ls + more[..last] + [more[last]];
    }
  }

  // ----- Any number of workers: every payload is where its own chain puts it -----

  /** Number of stages an item on channel k has passed. */
  ghost function Depth(c: Config, k: nat): nat {
    if k <= c.n then k else c.n
  }

  ghost predicate At(p: Program, taken: seq<Payload>, k: nat, it: Item<Payload>) {
    it.id < |taken| && Chain(p, k, it.id, taken[it.id]) == Carried(it.body)
  }

  ghost predicate Ends(p: Program, taken: seq<Payload>, q: nat, fate: Fate) {
    q < |taken| && Chain(p, p.c.n, q, taken[q]) == fate
  }

  ghost predicate WorkerTrue(p: Program, taken: seq<Payload>, i: nat, w: Worker<Payload>) {
    match w
    case Processing(it) => At(p, taken, i, it)
    case Broadcasting(it, _) => At(p, taken, i + 1, Item(it.id, CloneOf(it.body)))
    case Exited(Refused(it)) => Ends(p, taken, it.id, Stopped)
    case Exited(Failed(it)) => Ends(p, taken, it.id, Stopped)
    case Exited(Abandoned(it, _)) => At(p, taken, i + 1, Item(it.id, CloneOf(it.body)))
    case _ => true
  }

  ghost predicate Truthful(p: Program, s: State<Payload>)
    requires Shaped(p.c, s)
  {
    && (s.source.Sending? ==> At(p, s.taken, 0, s.source.item))
    && (forall k, i :: 0 <= k < |s.log| && 0 <= i < |s.log[k]| ==> At(p, s.taken, Depth(p.c, k), s.log[k][i]))
    && (forall i :: 0 <= i < |s.discarded| ==> Ends(p, s.taken, s.discarded[i].id, Skipped))
    && (forall x :: 0 <= x < |s.workers| ==> WorkerTrue(p, s.taken, p.c.stageOf[x], s.workers[x]))
  }

  lemma {:induction false} ChainEnds(p: Program, k: nat, m: nat, q: nat, body: Payload)
    requires k <= m && !Chain(p, k, q, body).Carried?
    ensures Chain(p, m, q, body) == Chain(p, k, q, body)
  {
    if k < m {
      ChainEnds(p, k, m - 1, q, body);
    }
  }

  lemma TruthfulTake(p: Program, s: State<Payload>, v: Payload)
    requires Shaped(p.c, s) && Enabled(p.c, s, SourceTake(v)) && Truthful(p, s)
    ensures Truthful(p, Apply(p.c, s, SourceTake(v)))
  {
    var taken' := s.taken + [v];
    assert forall q :: 0 <= q < |s.taken| ==> taken'[q] == s.taken[q];
  }

  /** A verdict leaves the item where its chain puts it. */
  lemma JudgedTrue(p: Program, taken: seq<Payload>, i: nat, it: Item<Payload>, v: Verdict<Payload>)
    requires At(p, taken, i, it) && Justified(p, i, it, v) && i < p.c.n
    ensures WorkerTrue(p, taken, i, Judged(it, v))
    ensures v.Discard? ==> Ends(p, taken, it.id, Skipped)
  {
    var fate := Chain(p, i + 1, it.id, taken[it.id]);
    assert fate == StageFate(p, i, it.id, it.body);
    if !fate.Carried? {
      ChainEnds(p, i + 1, p.c.n, it.id, taken[it.id]);
    }
  }

  lemma TruthfulProcess(p: Program, s: State<Payload>, x: nat, v: Verdict<Payload>)
    requires Shaped(p.c, s) && Enabled(p.c, s, WorkerProcess(x, v)) && Allowed(p, s, WorkerProcess(x, v))
    requires Truthful(p, s)
    ensures Truthful(p, Apply(p.c, s, WorkerProcess(x, v)))
  {
    var it, s' := s.workers[x].item, Apply(p.c, s, WorkerProcess(x, v));
    assert WorkerTrue(p, s.taken, p.c.stageOf[x], s.workers[x]);
    JudgedTrue(p, s.taken, p.c.stageOf[x], it, v);
    assert s'.taken == s.taken && s'.source == s.source && s'.log == s.log;
    assert s'.workers == s.workers[x := Judged(it, v)];
    assert s'.discarded == if v.Discard? then s.discarded + [it] else s.discarded;
  }

  /** An item was transferred over channel k, and the workers hold what they should. */
  lemma TruthfulSent(p: Program, s: State<Payload>, s': State<Payload>, k: nat, it: Item<Payload>)
    requires Shaped(p.c, s) && Shaped(p.c, s') && Truthful(p, s) && k < |s.log|
    requires s'.taken == s.taken && s'.discarded == s.discarded && (s'.source == s.source || s'.source.Selecting?)
    requires s'.log == Append(s.log, k, it) && At(p, s.taken, Depth(p.c, k), it)
    requires forall x :: 0 <= x < |s.workers| && s'.workers[x] != s.workers[x]
               ==> WorkerTrue(p, s.taken, p.c.stageOf[x], s'.workers[x])
    ensures Truthful(p, s')
  {
  }

  lemma TruthfulFeed(p: Program, s: State<Payload>, y: nat)
    requires Shaped(p.c, s) && Enabled(p.c, s, SourceSend(y)) && Truthful(p, s)
    ensures Truthful(p, Apply(p.c, s, SourceSend(y)))
  {
    TruthfulSent(p, s, Apply(p.c, s, SourceSend(y)), 0, s.source.item);
  }

  lemma TruthfulSend(p: Program, s: State<Payload>, x: nat, y: nat, v: Payload)
    requires Shaped(p.c, s) && Enabled(p.c, s, WorkerSend(x, y, v)) && Truthful(p, s)
    requires Allowed(p, s, WorkerSend(x, y, v))
    ensures Truthful(p, Apply(p.c, s, WorkerSend(x, y, v)))
  {
    assert WorkerTrue(p, s.taken, p.c.stageOf[x], s.workers[x]);
    TruthfulSent(p, s, Apply(p.c, s, WorkerSend(x, y, v)), p.c.stageOf[x] + 1, Item(s.workers[x].item.id, v));
  }

  lemma TruthfulDeliver(p: Program, s: State<Payload>, x: nat, j: nat, v: Payload)
    requires Shaped(p.c, s) && Enabled(p.c, s, WorkerDeliver(x, j, v)) && Truthful(p, s)
    requires Allowed(p, s, WorkerDeliver(x, j, v))
    ensures Truthful(p, Apply(p.c, s, WorkerDeliver(x, j, v)))
  {
    assert WorkerTrue(p, s.taken, p.c.stageOf[x], s.workers[x]);
    TruthfulSent(p, s, Apply(p.c, s, WorkerDeliver(x, j, v)), p.c.n + j, Item(s.workers[x].item.id, v));
  }

  lemma TruthfulExit(p: Program, s: State<Payload>, l: Label<Payload>)
    requires Shaped(p.c, s) && Enabled(p.c, s, l) && Truthful(p, s) && (l.WorkerCancel? || l.WorkerEnd?)
    ensures Truthful(p, Apply(p.c, s, l))
  {
    var s' := Apply(p.c, s, l);
    assert WorkerTrue(p, s.taken, p.c.stageOf[l.w], s.workers[l.w]);
    assert s'.workers == s.workers[l.w := s'.workers[l.w]] && s'.taken == s.taken && s'.log == s.log;
  }

  lemma TruthfulQuiet(p: Program, s: State<Payload>, l: Label<Payload>)
    requires Shaped(p.c, s) && Enabled(p.c, s, l) && Truthful(p, s)
    requires !l.SourceTake? && !l.SourceSend? && !l.WorkerProcess? && !l.WorkerSend? && !l.WorkerDeliver?
    requires !l.WorkerCancel? && !l.WorkerEnd?
    ensures Truthful(p, Apply(p.c, s, l))
  {
    var s' := Apply(p.c, s, l);
    assert s'.taken == s.taken && s'.log == s.log && s'.workers == s.workers && s'.discarded == s.discarded;
    assert s'.source.Sending? ==> s'.source == s.source;
  }

  lemma TruthfulStep(p: Program, s: State<Payload>, l: Label<Payload>)
    requires Shaped(p.c, s) && Enabled(p.c, s, l) && Allowed(p, s, l) && Truthful(p, s)
    ensures Truthful(p, Apply(p.c, s, l))
  {
    if l.SourceTake? {
      TruthfulTake(p, s, l.payload);
    } else if l.WorkerProcess? {
      TruthfulProcess(p, s, l.w, l.verdict);
    } else if l.SourceSend? {
      TruthfulFeed(p, s, l.to);
    } else if l.WorkerSend? {
      TruthfulSend(p, s, l.w, l.to, l.clone);
    } else if l.WorkerDeliver? {
      TruthfulDeliver(p, s, l.w, l.sink, l.clone);
    } else if l.WorkerCancel? || l.WorkerEnd? {
      TruthfulExit(p, s, l);
    } else {
      TruthfulQuiet(p, s, l);
    }
  }

  lemma {:induction false} TruthfulRun(p: Program, ls: seq<Label<Payload>>)
    requires Wired(p.c) && Computes(p, ls)
    ensures Truthful(p, After(p, ls))
  {
    if ls != [] {
      TruthfulRun(p, ls[..|ls| - 1]);
      TruthfulStep(p, After(p, ls[..|ls| - 1]), ls[|ls| - 1]);
    }
  }
}
