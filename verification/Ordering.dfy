/** FIFO pipelines (one worker a stage): what each sink and each storage sees is a prefix of the filter-map. */
module Ordering {
  import opened Payloads
  import opened Control
  import opened Dataflow

  ghost predicate Fifo(c: Config) {
    forall x, y :: 0 <= x < |c.stageOf| && 0 <= y < |c.stageOf| && c.stageOf[x] == c.stageOf[y] ==> x == y
  }

  ghost function WorkerOf(c: Config, i: nat): (x: nat)
    requires Wired(c) && i < c.n
    ensures x < |c.stageOf| && c.stageOf[x] == i
  {
    assert i in c.stageOf;
    var x :| 0 <= x < |c.stageOf| && c.stageOf[x] == i;
    x
  }

  ghost function Front<T>(xs: seq<T>): seq<T>
    requires xs != []
  {
    xs[..|xs| - 1]
  }

  ghost function Last<T>(xs: seq<T>): T
    requires xs != []
  {
    xs[|xs| - 1]
  }

  /** The items the source handed out, in order. */
  ghost function Numbered(taken: seq<Payload>): (r: seq<Item<Payload>>)
    ensures |r| == |taken|
  {
    seq(|taken|, q requires 0 <= q < |taken| => Item(q, taken[q]))
  }

  // ----- Invariant -----

  /** What output channel number j of a stage has carried when its worker, fed with `fed`, is w. */
  ghost predicate Sent(p: Program, i: nat, fed: seq<Item<Payload>>, w: Worker<Payload>, j: nat,
                       sent: seq<Item<Payload>>)
  {
    var r := StageOut(p, i, fed);
    match w
    case Processing(_) => fed != [] && sent == StageOut(p, i, Front(fed)).out
    case Broadcasting(_, next) => if j < next then sent == r.out else r.out != [] && sent == Front(r.out)
    case Exited(Abandoned(_, next)) => if j < next then sent == r.out else r.out != [] && sent == Front(r.out)
    case _ => sent == r.out
  }

  /** What worker w of stage i has been fed. */
  ghost predicate Fed(p: Program, i: nat, fed: seq<Item<Payload>>, w: Worker<Payload>) {
    match w
    case Receiving => !StageOut(p, i, fed).stopped
    case Processing(it) => fed != [] && Last(fed) == it && !StageOut(p, i, Front(fed)).stopped
    case Broadcasting(it, _) =>
      var r := StageOut(p, i, fed);
      !r.stopped && r.out != [] && Last(r.out) == Item(it.id, CloneOf(it.body))
    case Exited(_) => true
  }

  ghost predicate InOrder(p: Program, s: State<Payload>)
    requires Shaped(p.c, s)
  {
    && Numbered(s.taken) == s.log[0] + (if s.source.Sending? then [s.source.item] else [])
    && (forall x :: 0 <= x < |s.workers| ==> Fed(p, p.c.stageOf[x], s.log[p.c.stageOf[x]], s.workers[x]))
    && (forall x, j :: 0 <= x < |s.workers| && 0 <= j < Fanout(p.c, p.c.stageOf[x])
          ==> Sent(p, p.c.stageOf[x], s.log[p.c.stageOf[x]], s.workers[x], j,
                   s.log[OutChannel(p.c.stageOf[x], j)]))
  }

  lemma FrontOfAppend<T>(xs: seq<T>, x: T)
    ensures Front(xs + [x]) == xs && Last(xs + [x]) == x
  {
  }

  lemma NumberedAppend(taken: seq<Payload>, v: Payload)
    ensures Numbered(taken + [v]) == Numbered(taken) + [Item(|taken|, v)]
  {
  }

  lemma OrderFeed(p: Program, s: State<Payload>, y: nat)
    requires Shaped(p.c, s) && Fifo(p.c) && Enabled(p.c, s, SourceSend(y)) && InOrder(p, s)
    ensures InOrder(p, Apply(p.c, s, SourceSend(y)))
  {
    FrontOfAppend(s.log[0], s.source.item);
    assert Fed(p, 0, s.log[0], s.workers[y]);
    assert forall j :: 0 <= j < Fanout(p.c, 0) ==> Sent(p, 0, s.log[0], s.workers[y], j, s.log[OutChannel(0, j)]);
  }

  /** Only worker x of stage i changed. */
  lemma OrderOne(p: Program, s: State<Payload>, s': State<Payload>, x: nat, i: nat, w: Worker<Payload>)
    requires Shaped(p.c, s) && Shaped(p.c, s') && InOrder(p, s) && x < |s.workers| && p.c.stageOf[x] == i
    requires s'.taken == s.taken && s'.source == s.source && s'.log == s.log && s'.workers == s.workers[x := w]
    requires Fed(p, i, s.log[i], w)
    requires forall j :: 0 <= j < Fanout(p.c, i) ==> Sent(p, i, s.log[i], w, j, s.log[OutChannel(i, j)])
    ensures InOrder(p, s')
  {
  }

  /** A stage that judges the last item it was fed. */
  lemma JudgedInOrder(p: Program, i: nat, fed: seq<Item<Payload>>, item: Item<Payload>, v: Verdict<Payload>)
    requires Fed(p, i, fed, Processing(item)) && Justified(p, i, item, v)
    ensures Fed(p, i, fed, Judged(item, v))
    ensures forall j: nat, sent ::
              Sent(p, i, fed, Processing(item), j, sent) ==> Sent(p, i, fed, Judged(item, v), j, sent)
  {
    if v.Forward? {
      FrontOfAppend(StageOut(p, i, Front(fed)).out, Item(item.id, CloneOf(v.out)));
    }
  }

  lemma OrderProcess(p: Program, s: State<Payload>, x: nat, v: Verdict<Payload>)
    requires Shaped(p.c, s) && Enabled(p.c, s, WorkerProcess(x, v))
    requires Allowed(p, s, WorkerProcess(x, v)) && InOrder(p, s)
    ensures InOrder(p, Apply(p.c, s, WorkerProcess(x, v)))
  {
    var i, item := p.c.stageOf[x], s.workers[x].item;
    assert Fed(p, i, s.log[i], s.workers[x]);
    JudgedInOrder(p, i, s.log[i], item, v);
    forall j | 0 <= j < Fanout(p.c, i) ensures Sent(p, i, s.log[i], Judged(item, v), j, s.log[OutChannel(i, j)]) {
      assert Sent(p, i, s.log[i], s.workers[x], j, s.log[OutChannel(i, j)]);
    }
    OrderOne(p, s, Apply(p.c, s, WorkerProcess(x, v)), x, i, Judged(item, v));
  }

  /** A worker that returns without a payload, or with one it was sending. */
  lemma OrderExit(p: Program, s: State<Payload>, l: Label<Payload>)
    requires Shaped(p.c, s) && Enabled(p.c, s, l) && InOrder(p, s) && (l.WorkerCancel? || l.WorkerEnd?)
    ensures InOrder(p, Apply(p.c, s, l))
  {
    var s' := Apply(p.c, s, l);
    var i, w := p.c.stageOf[l.w], s'.workers[l.w];
    forall j | 0 <= j < Fanout(p.c, i) ensures Sent(p, i, s.log[i], w, j, s.log[OutChannel(i, j)]) {
      assert Sent(p, i, s.log[i], s.workers[l.w], j, s.log[OutChannel(i, j)]);
    }
    OrderOne(p, s, s', l.w, i, w);
  }

  /** A broadcasting worker's next send completes what its channel should have carried. */
  lemma SentNext(p: Program, i: nat, fed: seq<Item<Payload>>, item: Item<Payload>, j: nat, sent: seq<Item<Payload>>,
                 v: Payload)
    requires Fed(p, i, fed, Broadcasting(item, j)) && Sent(p, i, fed, Broadcasting(item, j), j, sent)
    requires v == CloneOf(item.body)
    ensures sent + [Item(item.id, v)] == StageOut(p, i, fed).out && !StageOut(p, i, fed).stopped
    ensures Fed(p, i, fed, Receiving) && Fed(p, i, fed, Broadcasting(item, j + 1))
  {
    var r := StageOut(p, i, fed);
    assert r.out == Front(r.out) + [Last(r.out)];
  }

  /** The receiver of a stage's output has been fed one more item. */
  lemma OrderReceive(p: Program, s: State<Payload>, k: nat, y: nat, it: Item<Payload>)
    requires Shaped(p.c, s) && InOrder(p, s)
    requires y < |s.workers| && p.c.stageOf[y] == k && s.workers[y].Receiving? && k < |s.log|
    ensures Fed(p, k, s.log[k] + [it], Processing(it))
    ensures forall j :: 0 <= j < Fanout(p.c, k)
              ==> Sent(p, k, s.log[k] + [it], Processing(it), j, s.log[OutChannel(k, j)])
  {
    FrontOfAppend(s.log[k], it);
    assert Fed(p, k, s.log[k], s.workers[y]);
    assert forall j :: 0 <= j < Fanout(p.c, k) ==> Sent(p, k, s.log[k], s.workers[y], j, s.log[OutChannel(k, j)]);
  }

  /** Worker x has passed its item to worker y of the next stage k. */
  lemma OrderMoved(p: Program, s: State<Payload>, s': State<Payload>, x: nat, y: nat, k: nat)
    requires Shaped(p.c, s) && Shaped(p.c, s') && Fifo(p.c) && InOrder(p, s)
    requires x < |s.workers| && y < |s.workers| && p.c.stageOf[y] == k == p.c.stageOf[x] + 1 < p.c.n
    requires s'.taken == s.taken && s'.source == s.source && s'.log == s.log[k := s'.log[k]]
    requires s'.workers == s.workers[x := Receiving][y := s'.workers[y]]
    requires Fed(p, k - 1, s.log[k - 1], Receiving) && Fed(p, k, s'.log[k], s'.workers[y])
    requires Sent(p, k - 1, s.log[k - 1], Receiving, 0, s'.log[k])
    requires forall j :: 0 <= j < Fanout(p.c, k) ==> Sent(p, k, s'.log[k], s'.workers[y], j, s.log[OutChannel(k, j)])
    ensures InOrder(p, s')
  {
  }

  lemma OrderSend(p: Program, s: State<Payload>, x: nat, y: nat, v: Payload)
    requires Shaped(p.c, s) && Fifo(p.c) && Enabled(p.c, s, WorkerSend(x, y, v))
    requires Allowed(p, s, WorkerSend(x, y, v)) && InOrder(p, s)
    ensures InOrder(p, Apply(p.c, s, WorkerSend(x, y, v)))
  {
    var i := p.c.stageOf[x];
    var s' := Apply(p.c, s, WorkerSend(x, y, v));
    assert Fed(p, i, s.log[i], s.workers[x]);
    assert Sent(p, i, s.log[i], s.workers[x], 0, s.log[OutChannel(i, 0)]);
    SentNext(p, i, s.log[i], s.workers[x].item, 0, s.log[i + 1], v);
    OrderReceive(p, s, i + 1, y, Item(s.workers[x].item.id, v));
    assert s'.log == Append(s.log, i + 1, Item(s.workers[x].item.id, v));
    OrderMoved(p, s, s', x, y, i + 1);
  }

  /** Worker x of the last stage has sent the j-th clone. */
  lemma OrderSent(p: Program, s: State<Payload>, s': State<Payload>, x: nat, i: nat, j: nat, w: Worker<Payload>)
    requires Shaped(p.c, s) && Shaped(p.c, s') && Fifo(p.c) && InOrder(p, s)
    requires x < |s.workers| && p.c.stageOf[x] == i && i + 1 == p.c.n && j < p.c.m
    requires s'.taken == s.taken && s'.source == s.source && s'.workers == s.workers[x := w]
    requires s'.log == s.log[p.c.n + j := s'.log[p.c.n + j]]
    requires Fed(p, i, s.log[i], w)
    requires forall j' :: 0 <= j' < p.c.m ==> Sent(p, i, s.log[i], w, j', s'.log[OutChannel(i, j')])
    ensures InOrder(p, s')
  {
  }

  lemma OrderDeliver(p: Program, s: State<Payload>, x: nat, j: nat, v: Payload)
    requires Shaped(p.c, s) && Fifo(p.c) && Enabled(p.c, s, WorkerDeliver(x, j, v))
    requires Allowed(p, s, WorkerDeliver(x, j, v)) && InOrder(p, s)
    ensures InOrder(p, Apply(p.c, s, WorkerDeliver(x, j, v)))
  {
    var i := p.c.stageOf[x];
    var s', w := Apply(p.c, s, WorkerDeliver(x, j, v)), AfterSend(p.c, i, s.workers[x].item, j);
    assert Fed(p, i, s.log[i], s.workers[x]);
    assert Sent(p, i, s.log[i], s.workers[x], j, s.log[OutChannel(i, j)]);
    SentNext(p, i, s.log[i], s.workers[x].item, j, s.log[p.c.n + j], v);
    assert s'.log == Append(s.log, p.c.n + j, Item(s.workers[x].item.id, v));
    forall j' | 0 <= j' < p.c.m ensures Sent(p, i, s.log[i], w, j', s'.log[OutChannel(i, j')]) {
      assert Sent(p, i, s.log[i], s.workers[x], j', s.log[OutChannel(i, j')]);
    }
    OrderSent(p, s, s', x, i, j, w);
  }

  lemma OrderQuiet(p: Program, s: State<Payload>, l: Label<Payload>)
    requires Shaped(p.c, s) && Enabled(p.c, s, l) && InOrder(p, s)
    requires !l.SourceTake? && !l.SourceSend? && !l.WorkerProcess? && !l.WorkerSend? && !l.WorkerDeliver?
    requires !l.WorkerCancel? && !l.WorkerEnd?
    ensures InOrder(p, Apply(p.c, s, l))
  {
    var s' := Apply(p.c, s, l);
    assert s'.taken == s.taken && s'.log == s.log && s'.workers == s.workers;
    assert s'.source.Sending? <==> s.source.Sending?;
    assert s.source.Sending? ==> s'.source == s.source;
  }

  lemma OrderTake(p: Program, s: State<Payload>, v: Payload)
    requires Shaped(p.c, s) && Enabled(p.c, s, SourceTake(v)) && InOrder(p, s)
    ensures InOrder(p, Apply(p.c, s, SourceTake(v)))
  {
    var s' := Apply(p.c, s, SourceTake(v));
    NumberedAppend(s.taken, v);
    assert s'.log == s.log && s'.workers == s.workers;
  }

  lemma OrderStep(p: Program, s: State<Payload>, l: Label<Payload>)
    requires Shaped(p.c, s) && Fifo(p.c) && Enabled(p.c, s, l) && Allowed(p, s, l) && InOrder(p, s)
    ensures InOrder(p, Apply(p.c, s, l))
  {
    if l.SourceTake? {
      OrderTake(p, s, l.payload);
    } else if l.SourceSend? {
      OrderFeed(p, s, l.to);
    } else if l.WorkerProcess? {
      OrderProcess(p, s, l.w, l.verdict);
    } else if l.WorkerSend? {
      OrderSend(p, s, l.w, l.to, l.clone);
    } else if l.WorkerDeliver? {
      OrderDeliver(p, s, l.w, l.sink, l.clone);
    } else if l.WorkerCancel? || l.WorkerEnd? {
      OrderExit(p, s, l);
    } else {
      OrderQuiet(p, s, l);
    }
  }

  lemma {:induction false} OrderRun(p: Program, ls: seq<Label<Payload>>)
    requires Wired(p.c) && Fifo(p.c) && Computes(p, ls)
    ensures InOrder(p, After(p, ls))
  {
    if ls != [] {
      OrderRun(p, ls[..|ls| - 1]);
      OrderStep(p, After(p, ls[..|ls| - 1]), ls[|ls| - 1]);
    }
  }

  // ----- The stages one after the other are one filter-map -----

  lemma {:induction false} StageOutGrows(p: Program, k: nat, xs: seq<Item<Payload>>, ys: seq<Item<Payload>>)
    requires xs <= ys
    ensures StageOut(p, k, xs).out <= StageOut(p, k, ys).out
  {
    if |xs| == |ys| {
      assert xs == ys;
    } else {
      StageOutGrows(p, k, xs, Front(ys));
    }
  }

  lemma {:induction false} FilterMapZero(p: Program, taken: seq<Payload>)
    ensures FilterMap(p, 0, taken) == Flowed(Numbered(taken), false)
  {
    if taken != [] {
      FilterMapZero(p, Front(taken));
      NumberedAppend(Front(taken), Last(taken));
      assert taken == Front(taken) + [Last(taken)];
    }
  }

  /** Stage k after the first k stages is the first k + 1 stages. */
  lemma {:induction false} StagesCompose(p: Program, k: nat, taken: seq<Payload>)
    ensures var a, b := FilterMap(p, k, taken), FilterMap(p, k + 1, taken);
            && StageOut(p, k, a.out).out == b.out
            && (a.stopped ==> b.stopped)
            && (!a.stopped ==> StageOut(p, k, a.out) == b)
  {
    if taken != [] {
      StagesCompose(p, k, Front(taken));
      var a := FilterMap(p, k, Front(taken));
      var q := |taken| - 1;
      var fate := Chain(p, k, q, taken[q]);
      if !a.stopped && fate.Carried? {
        FrontOfAppend(a.out, Item(q, fate.body));
      }
    }
  }

  lemma {:induction false} ChannelPrefix(p: Program, s: State<Payload>, k: nat)
    requires Shaped(p.c, s) && Wired(p.c) && InOrder(p, s) && k < p.c.n
    ensures s.log[k] <= FilterMap(p, k, s.taken).out
  {
    if k == 0 {
      FilterMapZero(p, s.taken);
    } else {
      ChannelPrefix(p, s, k - 1);
      OutPrefix(p, s, k - 1, 0);
    }
  }

  lemma OutPrefix(p: Program, s: State<Payload>, i: nat, j: nat)
    requires Shaped(p.c, s) && Wired(p.c) && InOrder(p, s) && i < p.c.n && j < Fanout(p.c, i)
    requires s.log[i] <= FilterMap(p, i, s.taken).out
    ensures s.log[OutChannel(i, j)] <= FilterMap(p, i + 1, s.taken).out
  {
    var x := WorkerOf(p.c, i);
    assert Sent(p, i, s.log[i], s.workers[x], j, s.log[OutChannel(i, j)]);
    if s.workers[x].Processing? {
      StageOutGrows(p, i, Front(s.log[i]), s.log[i]);
    }
    StageOutGrows(p, i, s.log[i], FilterMap(p, i, s.taken).out);
    StagesCompose(p, i, s.taken);
  }

  lemma SinkPrefix(p: Program, s: State<Payload>, j: nat)
    requires Shaped(p.c, s) && Wired(p.c) && InOrder(p, s) && j < p.c.m
    ensures s.log[p.c.n + j] <= FilterMap(p, p.c.n, s.taken).out
  {
    ChannelPrefix(p, s, p.c.n - 1);
    OutPrefix(p, s, p.c.n - 1, j);
  }

  // ----- Main results -----

  /**
   * In every reachable state of a FIFO pipeline each sink has received a prefix of the filter-map over the
   * payloads the source handed out.
   */
  lemma SinkReceivesPrefix(p: Program, ls: seq<Label<Payload>>, j: nat)
    requires Wired(p.c) && Fifo(p.c) && Computes(p, ls) && j < p.c.m
    ensures After(p, ls).log[p.c.n + j] <= FilterMap(p, p.c.n, After(p, ls).taken).out
  {
    OrderRun(p, ls);
    SinkPrefix(p, After(p, ls), j);
  }

  /** No payload is under way: the source holds none and every worker is waiting for the next one. */
  ghost predicate Settled(s: State<Payload>) {
    !s.source.Sending? && forall x :: 0 <= x < |s.workers| ==> s.workers[x].Receiving?
  }

  lemma {:induction false} SettledChannel(p: Program, s: State<Payload>, k: nat)
    requires Shaped(p.c, s) && Wired(p.c) && InOrder(p, s) && Settled(s) && k < p.c.n
    ensures FilterMap(p, k, s.taken) == Flowed(s.log[k], false)
  {
    if k == 0 {
      FilterMapZero(p, s.taken);
    } else {
      SettledChannel(p, s, k - 1);
      SettledOut(p, s, k - 1, 0);
    }
  }

  lemma SettledOut(p: Program, s: State<Payload>, i: nat, j: nat)
    requires Shaped(p.c, s) && Wired(p.c) && InOrder(p, s) && Settled(s) && i < p.c.n && j < Fanout(p.c, i)
    requires FilterMap(p, i, s.taken) == Flowed(s.log[i], false)
    ensures FilterMap(p, i + 1, s.taken) == Flowed(s.log[OutChannel(i, j)], false)
  {
    var x := WorkerOf(p.c, i);
    assert Fed(p, i, s.log[i], s.workers[x]);
    assert Sent(p, i, s.log[i], s.workers[x], j, s.log[OutChannel(i, j)]);
    StagesCompose(p, i, s.taken);
  }

  lemma SettledSink(p: Program, s: State<Payload>, j: nat)
    requires Shaped(p.c, s) && Wired(p.c) && InOrder(p, s) && Settled(s) && j < p.c.m
    ensures s.log[p.c.n + j] == FilterMap(p, p.c.n, s.taken).out
  {
    SettledChannel(p, s, p.c.n - 1);
    SettledOut(p, s, p.c.n - 1, j);
  }

  /** Whenever nothing is under way every sink has received the whole filter-map: nothing is lost before that. */
  lemma SettledSinkReceivesAll(p: Program, ls: seq<Label<Payload>>, j: nat)
    requires Wired(p.c) && Fifo(p.c) && Computes(p, ls) && j < p.c.m && Settled(After(p, ls))
    ensures After(p, ls).log[p.c.n + j] == FilterMap(p, p.c.n, After(p, ls).taken).out
  {
    OrderRun(p, ls);
    SettledSink(p, After(p, ls), j);
  }

  lemma InOrderSkew(p: Program, s: State<Payload>, a: nat, b: nat)
    requires Shaped(p.c, s) && Wired(p.c) && InOrder(p, s) && a < b < p.c.m
    ensures var la, lb := s.log[p.c.n + a], s.log[p.c.n + b]; lb <= la && |la| <= |lb| + 1
  {
    var i := p.c.n - 1;
    var x := WorkerOf(p.c, i);
    assert Sent(p, i, s.log[i], s.workers[x], a, s.log[OutChannel(i, a)]);
    assert Sent(p, i, s.log[i], s.workers[x], b, s.log[OutChannel(i, b)]);
  }

  /** Between two sinks of a FIFO pipeline the later one in broadcast order lags by at most one payload. */
  lemma FifoSkew(p: Program, ls: seq<Label<Payload>>, a: nat, b: nat)
    requires Wired(p.c) && Fifo(p.c) && Computes(p, ls) && a < b < p.c.m
    ensures var la, lb := After(p, ls).log[p.c.n + a], After(p, ls).log[p.c.n + b];
            lb <= la && |la| <= |lb| + 1
  {
    OrderRun(p, ls);
    InOrderSkew(p, After(p, ls), a, b);
  }
}
