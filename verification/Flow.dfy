/**
 * Where every payload the source handed out is: conservation, back-pressure and broadcast skew.
 *
 * The laws are balances of a weight f on payload positions: with f the indicator of one position they say
 * where that payload is, with f constantly 1 they count payloads.
 */
module Flow {
  import opened Tally
  import opened Control

  type Weight = nat -> nat

  ghost function Only(q: nat): Weight {
    p => if p == q then 1 else 0
  }

  ghost function Each(): Weight {
    _ => 1
  }

  ghost function Ids<V>(items: seq<Item<V>>): (r: seq<nat>)
    ensures |r| == |items|
  {
    seq(|items|, i requires 0 <= i < |items| => items[i].id)
  }

  ghost function Weigh<V>(f: Weight, items: seq<Item<V>>): nat {
    Mass(f, Ids(items))
  }

  ghost function MassUpTo(f: Weight, n: nat): nat {
    if n == 0 then 0 else MassUpTo(f, n - 1) + f(n - 1)
  }

  lemma WeighAppend<V>(f: Weight, items: seq<Item<V>>, item: Item<V>)
    ensures Weigh(f, items + [item]) == Weigh(f, items) + f(item.id)
  {
    assert Ids(items + [item]) == Ids(items) + [item.id];
    MassAppend(f, Ids(items), item.id);
  }

  lemma {:induction false} MassEach(ids: seq<nat>)
    ensures Mass(Each(), ids) == |ids|
  {
    if ids != [] {
      MassEach(ids[..|ids| - 1]);
    }
  }

  lemma WeighEach<V>(items: seq<Item<V>>)
    ensures Weigh(Each(), items) == |items|
  {
    MassEach(Ids(items));
  }

  lemma {:induction false} MassUpToEach(n: nat)
    ensures MassUpTo(Each(), n) == n
  {
    if n > 0 {
      MassUpToEach(n - 1);
    }
  }

  lemma {:induction false} MassUpToOnly(q: nat, n: nat)
    ensures MassUpTo(Only(q), n) == if q < n then 1 else 0
  {
    if n > 0 {
      MassUpToOnly(q, n - 1);
    }
  }

  /** How often payload q occurs among the items. */
  ghost function Times<V>(items: seq<Item<V>>, q: nat): nat {
    Weigh(Only(q), items)
  }

  datatype Hold = Flying | Lost | Dropped | Any

  /** The weight of the payload that worker w holds, or held when it returned, if it is of that kind. */
  ghost function Holding<V>(f: Weight, w: Worker<V>, h: Hold): nat {
    match w
    case Receiving => 0
    case Processing(it) => if h.Flying? || h.Any? then f(it.id) else 0
    case Broadcasting(it, _) => if h.Flying? || h.Any? then f(it.id) else 0
    case Exited(Clean) => 0
    case Exited(Refused(it)) => if h.Lost? || h.Any? then f(it.id) else 0
    case Exited(Failed(it)) => if h.Lost? || h.Any? then f(it.id) else 0
    case Exited(Abandoned(it, _)) => if h.Dropped? || h.Any? then f(it.id) else 0
  }

  ghost function Holdings<V>(f: Weight, ws: seq<Worker<V>>, h: Hold): (r: seq<nat>)
    ensures |r| == |ws|
  {
    seq(|ws|, x requires 0 <= x < |ws| => Holding(f, ws[x], h))
  }

  ghost function AtSource<V>(f: Weight, s: State<V>): nat {
    if s.source.Sending? then f(s.source.item.id) else 0
  }

  /** Payloads on their way: held by the source or by a live worker. */
  ghost function InFlight<V>(f: Weight, s: State<V>): nat {
    AtSource(f, s) + Sum(Holdings(f, s.workers, Flying))
  }

  /** Payloads a worker failed on: processor error, or a nil payload. */
  ghost function FailedMass<V>(f: Weight, s: State<V>): nat {
    Sum(Holdings(f, s.workers, Lost))
  }

  /** Payloads a worker still had to broadcast when it saw the cancellation. */
  ghost function AbandonedMass<V>(f: Weight, s: State<V>): nat {
    Sum(Holdings(f, s.workers, Dropped))
  }

  /** A broadcast goes through the sink channels in order, so it is complete once the last one took it. */
  ghost function Delivered<V>(c: Config, s: State<V>): seq<Item<V>>
    requires Shaped(c, s)
  {
    s.log[c.n + c.m - 1]
  }

  ghost predicate Balanced<V>(f: Weight, c: Config, s: State<V>)
    requires Shaped(c, s)
  {
    MassUpTo(f, |s.taken|)
      == Weigh(f, s.discarded) + Weigh(f, Delivered(c, s)) + AtSource(f, s) + Sum(Holdings(f, s.workers, Any))
  }

  lemma OneHolding<V>(f: Weight, ws: seq<Worker<V>>, x: nat, w: Worker<V>)
    requires x < |ws|
    ensures Sum(Holdings(f, ws[x := w], Any)) + Holding(f, ws[x], Any)
         == Sum(Holdings(f, ws, Any)) + Holding(f, w, Any)
  {
    SumUpdate(Holdings(f, ws, Any), x, Holding(f, w, Any));
    assert Holdings(f, ws[x := w], Any) == Holdings(f, ws, Any)[x := Holding(f, w, Any)];
  }

  /** One worker changed, and what it held went where the ledger says. */
  lemma BalanceOne<V>(f: Weight, c: Config, s: State<V>, s': State<V>, x: nat, w: Worker<V>)
    requires Shaped(c, s) && Shaped(c, s') && x < |s.workers| && Balanced(f, c, s)
    requires s'.workers == s.workers[x := w] && |s'.taken| == |s.taken|
    requires Weigh(f, s'.discarded) + Weigh(f, Delivered(c, s')) + AtSource(f, s') + Holding(f, w, Any)
          == Weigh(f, s.discarded) + Weigh(f, Delivered(c, s)) + AtSource(f, s) + Holding(f, s.workers[x], Any)
    ensures Balanced(f, c, s')
  {
    OneHolding(f, s.workers, x, w);
  }

  lemma BalanceProcess<V>(f: Weight, c: Config, s: State<V>, x: nat, v: Verdict<V>)
    requires Shaped(c, s) && Enabled(c, s, WorkerProcess(x, v)) && Balanced(f, c, s)
    ensures Balanced(f, c, Apply(c, s, WorkerProcess(x, v)))
  {
    var s' := Apply(c, s, WorkerProcess(x, v));
    var item := s.workers[x].item;
    assert s'.log == s.log && s'.source == s.source && s'.taken == s.taken;
    WeighAppend(f, s.discarded, item);
    assert Holding(f, Judged(item, v), Any) == if v.Discard? then 0 else f(item.id);
    BalanceOne(f, c, s, s', x, Judged(item, v));
  }

  lemma BalanceSend<V>(f: Weight, c: Config, s: State<V>, x: nat, y: nat, v: V)
    requires Shaped(c, s) && Enabled(c, s, WorkerSend(x, y, v)) && Balanced(f, c, s)
    ensures Balanced(f, c, Apply(c, s, WorkerSend(x, y, v)))
  {
    var s' := Apply(c, s, WorkerSend(x, y, v));
    OneHolding(f, s.workers, x, Receiving);
    OneHolding(f, s.workers[x := Receiving], y, s'.workers[y]);
    assert Delivered(c, s') == Delivered(c, s);
  }

  lemma BalanceDeliver<V>(f: Weight, c: Config, s: State<V>, x: nat, j: nat, v: V)
    requires Shaped(c, s) && Enabled(c, s, WorkerDeliver(x, j, v)) && Balanced(f, c, s)
    ensures Balanced(f, c, Apply(c, s, WorkerDeliver(x, j, v)))
  {
    var s' := Apply(c, s, WorkerDeliver(x, j, v));
    var item := s.workers[x].item;
    var w := AfterSend(c, c.stageOf[x], item, j);
    assert s'.workers == s.workers[x := w] && s'.discarded == s.discarded && s'.source == s.source;
    WeighAppend(f, s.log[c.n + j], Item(item.id, v));
    assert Holding(f, w, Any) == if j + 1 == c.m then 0 else f(item.id);
    assert j + 1 < c.m ==> Delivered(c, s') == Delivered(c, s);
    BalanceOne(f, c, s, s', x, w);
  }

  lemma BalanceExit<V>(f: Weight, c: Config, s: State<V>, l: Label<V>)
    requires Shaped(c, s) && Enabled(c, s, l) && Balanced(f, c, s) && (l.WorkerCancel? || l.WorkerEnd?)
    ensures Balanced(f, c, Apply(c, s, l))
  {
    var s' := Apply(c, s, l);
    BalanceOne(f, c, s, s', l.w, s'.workers[l.w]);
  }

  lemma BalanceFeed<V>(f: Weight, c: Config, s: State<V>, y: nat)
    requires Shaped(c, s) && Enabled(c, s, SourceSend(y)) && Balanced(f, c, s)
    ensures Balanced(f, c, Apply(c, s, SourceSend(y)))
  {
    var s' := Apply(c, s, SourceSend(y));
    assert Delivered(c, s') == Delivered(c, s);
    BalanceOne(f, c, s, s', y, Processing(s.source.item));
  }

  lemma BalanceQuiet<V>(f: Weight, c: Config, s: State<V>, l: Label<V>)
    requires Shaped(c, s) && Enabled(c, s, l) && Balanced(f, c, s)
    requires !l.WorkerProcess? && !l.WorkerSend? && !l.WorkerDeliver? && !l.WorkerCancel? && !l.WorkerEnd?
    requires !l.SourceSend?
    ensures Balanced(f, c, Apply(c, s, l))
  {
    var s' := Apply(c, s, l);
    assert s'.workers == s.workers && s'.log == s.log && s'.discarded == s.discarded;
    assert MassUpTo(f, |s'.taken|) - AtSource(f, s') == MassUpTo(f, |s.taken|) - AtSource(f, s);
  }

  lemma BalanceStep<V>(f: Weight, c: Config, s: State<V>, l: Label<V>)
    requires Shaped(c, s) && Enabled(c, s, l) && Balanced(f, c, s)
    ensures Balanced(f, c, Apply(c, s, l))
  {
    if l.WorkerProcess? {
      BalanceProcess(f, c, s, l.w, l.verdict);
    } else if l.WorkerSend? {
      BalanceSend(f, c, s, l.w, l.to, l.clone);
    } else if l.WorkerDeliver? {
      BalanceDeliver(f, c, s, l.w, l.sink, l.clone);
    } else if l.WorkerCancel? || l.WorkerEnd? {
      BalanceExit(f, c, s, l);
    } else if l.SourceSend? {
      BalanceFeed(f, c, s, l.to);
    } else {
      BalanceQuiet(f, c, s, l);
    }
  }

  lemma {:induction false} BalanceRun<V>(f: Weight, c: Config, ls: seq<Label<V>>)
    requires Wired(c) && Run(c, Init(c), ls)
    ensures Balanced(f, c, Exec(c, Init(c), ls))
  {
    if ls == [] {
      SumZero(Holdings(f, Init<V>(c).workers, Any));
    } else {
      BalanceRun(f, c, ls[..|ls| - 1]);
      BalanceStep(f, c, Exec(c, Init(c), ls[..|ls| - 1]), ls[|ls| - 1]);
    }
  }

  lemma HeldSplits<V>(f: Weight, ws: seq<Worker<V>>)
    ensures Sum(Holdings(f, ws, Any))
         == Sum(Holdings(f, ws, Flying)) + Sum(Holdings(f, ws, Lost)) + Sum(Holdings(f, ws, Dropped))
  {
    var ended := seq(|ws|, x requires 0 <= x < |ws| => Holding(f, ws[x], Lost) + Holding(f, ws[x], Dropped));
    SumSplit(ended, Holdings(f, ws, Lost), Holdings(f, ws, Dropped));
    SumSplit(Holdings(f, ws, Any), Holdings(f, ws, Flying), ended);
  }

  lemma Accounted<V>(f: Weight, c: Config, ls: seq<Label<V>>)
    requires Wired(c) && Run(c, Init(c), ls)
    ensures var s := Exec(c, Init(c), ls);
            MassUpTo(f, |s.taken|) == Weigh(f, s.discarded) + Weigh(f, Delivered(c, s))
                                      + FailedMass(f, s) + AbandonedMass(f, s) + InFlight(f, s)
  {
    BalanceRun(f, c, ls);
    HeldSplits(f, Exec(c, Init(c), ls).workers);
  }

  /**
   * In every reachable state each payload the source handed out is exactly one of discarded, delivered to all
   * sinks, failed, abandoned and in flight, and no other payload is any of these.
   */
  lemma Conservation<V>(c: Config, ls: seq<Label<V>>, q: nat)
    requires Wired(c) && Run(c, Init(c), ls)
    ensures var s := Exec(c, Init(c), ls);
            Times(s.discarded, q) + Times(Delivered(c, s), q)
              + FailedMass(Only(q), s) + AbandonedMass(Only(q), s) + InFlight(Only(q), s)
            == if q < |s.taken| then 1 else 0
  {
    Accounted(Only(q), c, ls);
    MassUpToOnly(q, |Exec(c, Init(c), ls).taken|);
  }

  /**
   * Back-pressure: the source is never ahead of discarded and fully delivered payloads by more than one payload
   * per worker and its own; this allowance covers everything in flight, failed and abandoned together.
   */
  lemma BackPressure<V>(c: Config, ls: seq<Label<V>>)
    requires Wired(c) && Run(c, Init(c), ls)
    ensures var s := Exec(c, Init(c), ls);
            && |s.taken| == |s.discarded| + |Delivered(c, s)|
                            + FailedMass(Each(), s) + AbandonedMass(Each(), s) + InFlight(Each(), s)
            && FailedMass(Each(), s) + AbandonedMass(Each(), s) + InFlight(Each(), s) <= 1 + |c.stageOf|
  {
    var s := Exec(c, Init(c), ls);
    Accounted(Each(), c, ls);
    MassUpToEach(|s.taken|);
    WeighEach(s.discarded);
    WeighEach(Delivered(c, s));
    HeldSplits(Each(), s.workers);
    SumBounded(Holdings(Each(), s.workers, Any), 1);
  }

  // ----- Broadcast skew -----

  /** The weight of the payload worker w, of the last stage, has sent to sink a but not, or not yet, to sink b. */
  ghost function Gap<V>(f: Weight, w: Worker<V>, a: nat, b: nat): nat {
    match w
    case Broadcasting(it, j) => if a < j <= b then f(it.id) else 0
    case Exited(Abandoned(it, j)) => if a < j <= b then f(it.id) else 0
    case _ => 0
  }

  ghost function Gaps<V>(f: Weight, c: Config, ws: seq<Worker<V>>, a: nat, b: nat): (r: seq<nat>)
    requires |ws| == |c.stageOf|
    ensures |r| == |ws|
  {
    seq(|ws|, x requires 0 <= x < |ws| => if c.stageOf[x] + 1 == c.n then Gap(f, ws[x], a, b) else 0)
  }

  ghost predicate Skewed<V>(f: Weight, c: Config, s: State<V>, a: nat, b: nat)
    requires Shaped(c, s) && a <= b < c.m
  {
    Weigh(f, s.log[c.n + a]) == Weigh(f, s.log[c.n + b]) + Sum(Gaps(f, c, s.workers, a, b))
  }

  lemma OneGap<V>(f: Weight, c: Config, ws: seq<Worker<V>>, a: nat, b: nat, x: nat, w: Worker<V>)
    requires |ws| == |c.stageOf| && x < |ws|
    ensures var gaps, gaps' := Gaps(f, c, ws, a, b), Gaps(f, c, ws[x := w], a, b);
            Sum(gaps') + gaps[x] == Sum(gaps) + gaps'[x]
  {
    var gaps, gaps' := Gaps(f, c, ws, a, b), Gaps(f, c, ws[x := w], a, b);
    SumUpdate(gaps, x, gaps'[x]);
    assert gaps' == gaps[x := gaps'[x]];
  }

  /** One worker changed, and what the two sinks received with it. */
  lemma SkewOne<V>(f: Weight, c: Config, s: State<V>, s': State<V>, x: nat, w: Worker<V>, a: nat, b: nat)
    requires Shaped(c, s) && Shaped(c, s') && x < |s.workers| && a < b < c.m && Skewed(f, c, s, a, b)
    requires s'.workers == s.workers[x := w]
    requires Weigh(f, s'.log[c.n + a]) + Weigh(f, s.log[c.n + b]) + Gaps(f, c, s.workers, a, b)[x]
          == Weigh(f, s'.log[c.n + b]) + Weigh(f, s.log[c.n + a]) + Gaps(f, c, s.workers[x := w], a, b)[x]
    ensures Skewed(f, c, s', a, b)
  {
    OneGap(f, c, s.workers, a, b, x, w);
  }

  lemma SkewDeliver<V>(f: Weight, c: Config, s: State<V>, x: nat, j: nat, v: V, a: nat, b: nat)
    requires Shaped(c, s) && Enabled(c, s, WorkerDeliver(x, j, v)) && a < b < c.m && Skewed(f, c, s, a, b)
    ensures Skewed(f, c, Apply(c, s, WorkerDeliver(x, j, v)), a, b)
  {
    var s' := Apply(c, s, WorkerDeliver(x, j, v));
    var item := s.workers[x].item;
    var w := AfterSend(c, c.stageOf[x], item, j);
    WeighAppend(f, s.log[c.n + j], Item(item.id, v));
    assert s'.workers == s.workers[x := w];
    assert Gap(f, s.workers[x], a, b) == if a < j <= b then f(item.id) else 0;
    assert Gap(f, w, a, b) == if a <= j < b then f(item.id) else 0;
    assert Weigh(f, s'.log[c.n + a]) == Weigh(f, s.log[c.n + a]) + if a == j then f(item.id) else 0;
    assert Weigh(f, s'.log[c.n + b]) == Weigh(f, s.log[c.n + b]) + if b == j then f(item.id) else 0;
    SkewOne(f, c, s, s', x, w, a, b);
  }

  lemma SkewSend<V>(f: Weight, c: Config, s: State<V>, x: nat, y: nat, v: V, a: nat, b: nat)
    requires Shaped(c, s) && Enabled(c, s, WorkerSend(x, y, v)) && a < b < c.m && Skewed(f, c, s, a, b)
    ensures Skewed(f, c, Apply(c, s, WorkerSend(x, y, v)), a, b)
  {
    var s' := Apply(c, s, WorkerSend(x, y, v));
    OneGap(f, c, s.workers, a, b, x, Receiving);
    OneGap(f, c, s.workers[x := Receiving], a, b, y, s'.workers[y]);
    assert s'.workers == s.workers[x := Receiving][y := s'.workers[y]];
    assert s'.log[c.n + a] == s.log[c.n + a] && s'.log[c.n + b] == s.log[c.n + b];
  }

  lemma SkewProcess<V>(f: Weight, c: Config, s: State<V>, x: nat, v: Verdict<V>, a: nat, b: nat)
    requires Shaped(c, s) && Enabled(c, s, WorkerProcess(x, v)) && a < b < c.m && Skewed(f, c, s, a, b)
    ensures Skewed(f, c, Apply(c, s, WorkerProcess(x, v)), a, b)
  {
    var s' := Apply(c, s, WorkerProcess(x, v));
    assert s'.log == s.log;
    SkewOne(f, c, s, s', x, Judged(s.workers[x].item, v), a, b);
  }

  lemma SkewExit<V>(f: Weight, c: Config, s: State<V>, l: Label<V>, a: nat, b: nat)
    requires Shaped(c, s) && Enabled(c, s, l) && a < b < c.m && Skewed(f, c, s, a, b)
    requires l.WorkerCancel? || l.WorkerEnd?
    ensures Skewed(f, c, Apply(c, s, l), a, b)
  {
    var s' := Apply(c, s, l);
    assert s'.log == s.log;
    SkewOne(f, c, s, s', l.w, s'.workers[l.w], a, b);
  }

  lemma SkewFeed<V>(f: Weight, c: Config, s: State<V>, y: nat, a: nat, b: nat)
    requires Shaped(c, s) && Enabled(c, s, SourceSend(y)) && a < b < c.m && Skewed(f, c, s, a, b)
    ensures Skewed(f, c, Apply(c, s, SourceSend(y)), a, b)
  {
    var s' := Apply(c, s, SourceSend(y));
    assert s'.log[c.n + a] == s.log[c.n + a] && s'.log[c.n + b] == s.log[c.n + b];
    SkewOne(f, c, s, s', y, Processing(s.source.item), a, b);
  }

  lemma SkewStep<V>(f: Weight, c: Config, s: State<V>, l: Label<V>, a: nat, b: nat)
    requires Shaped(c, s) && Enabled(c, s, l) && a < b < c.m && Skewed(f, c, s, a, b)
    ensures Skewed(f, c, Apply(c, s, l), a, b)
  {
    if l.WorkerDeliver? {
      SkewDeliver(f, c, s, l.w, l.sink, l.clone, a, b);
    } else if l.WorkerSend? {
      SkewSend(f, c, s, l.w, l.to, l.clone, a, b);
    } else if l.WorkerProcess? {
      SkewProcess(f, c, s, l.w, l.verdict, a, b);
    } else if l.WorkerCancel? || l.WorkerEnd? {
      SkewExit(f, c, s, l, a, b);
    } else if l.SourceSend? {
      SkewFeed(f, c, s, l.to, a, b);
    } else {
      assert Apply(c, s, l).workers == s.workers && Apply(c, s, l).log == s.log;
    }
  }

  lemma {:induction false} SkewRun<V>(f: Weight, c: Config, ls: seq<Label<V>>, a: nat, b: nat)
    requires Wired(c) && Run(c, Init(c), ls) && a < b < c.m
    ensures Skewed(f, c, Exec(c, Init(c), ls), a, b)
  {
    if ls == [] {
      SumZero(Gaps(f, c, Init<V>(c).workers, a, b));
    } else {
      SkewRun(f, c, ls[..|ls| - 1], a, b);
      SkewStep(f, c, Exec(c, Init(c), ls[..|ls| - 1]), ls[|ls| - 1], a, b);
    }
  }

  /** 1 for each worker of the last stage. */
  ghost function LastWorkers(c: Config): (r: seq<nat>)
    ensures |r| == |c.stageOf|
  {
    seq(|c.stageOf|, x requires 0 <= x < |c.stageOf| => if c.stageOf[x] + 1 == c.n then 1 else 0)
  }

  /**
   * Also after cancellation: what sink b received, sink a < b received too, and b lacks at most one payload
   * for each worker of the last stage.
   */
  lemma BroadcastSkew<V>(c: Config, ls: seq<Label<V>>, a: nat, b: nat, q: nat)
    requires Wired(c) && Run(c, Init(c), ls) && a < b < c.m
    ensures var s := Exec(c, Init(c), ls);
            && Times(s.log[c.n + b], q) <= Times(s.log[c.n + a], q)
            && |s.log[c.n + b]| <= |s.log[c.n + a]| <= |s.log[c.n + b]| + Sum(LastWorkers(c))
  {
    var s := Exec(c, Init(c), ls);
    SkewRun(Only(q), c, ls, a, b);
    SkewRun(Each(), c, ls, a, b);
    WeighEach(s.log[c.n + a]);
    WeighEach(s.log[c.n + b]);
    SumLeq(Gaps(Each(), c, s.workers, a, b), LastWorkers(c));
  }

  lemma GapsHeld<V>(f: Weight, c: Config, ws: seq<Worker<V>>, a: nat, b: nat)
    requires |ws| == |c.stageOf|
    ensures Sum(Gaps(f, c, ws, a, b)) <= Sum(Holdings(f, ws, Any))
  {
    SumLeq(Gaps(f, c, ws, a, b), Holdings(f, ws, Any));
  }

  lemma OnceBefore<V>(c: Config, s: State<V>, a: nat, q: nat)
    requires Shaped(c, s) && a < c.m - 1 && Balanced(Only(q), c, s) && Skewed(Only(q), c, s, a, c.m - 1)
    ensures Times(s.log[c.n + a], q) <= 1
  {
    MassUpToOnly(q, |s.taken|);
    GapsHeld(Only(q), c, s.workers, a, c.m - 1);
  }

  lemma OnceLast<V>(c: Config, s: State<V>, a: nat, q: nat)
    requires Shaped(c, s) && a == c.m - 1 && Balanced(Only(q), c, s)
    ensures Times(s.log[c.n + a], q) <= 1
  {
    MassUpToOnly(q, |s.taken|);
    assert s.log[c.n + a] == Delivered(c, s);
  }

  lemma OnceIn<V>(c: Config, s: State<V>, a: nat, q: nat)
    requires Shaped(c, s) && a < c.m && Balanced(Only(q), c, s)
    requires a < c.m - 1 ==> Skewed(Only(q), c, s, a, c.m - 1)
    ensures Times(s.log[c.n + a], q) <= 1
  {
    if a < c.m - 1 {
      OnceBefore(c, s, a, q);
    } else {
      OnceLast(c, s, a, q);
    }
  }

  /** No sink receives a payload twice. */
  lemma AtMostOnce<V>(c: Config, ls: seq<Label<V>>, a: nat, q: nat)
    requires Wired(c) && Run(c, Init(c), ls) && a < c.m
    ensures Times(Exec(c, Init(c), ls).log[c.n + a], q) <= 1
  {
    BalanceRun(Only(q), c, ls);
    if a < c.m - 1 {
      SkewRun(Only(q), c, ls, a, c.m - 1);
    }
    OnceIn(c, Exec(c, Init(c), ls), a, q);
  }
}
