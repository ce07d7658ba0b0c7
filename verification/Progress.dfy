/** Without failures and without cancellation nothing gets stuck: whatever was taken arrives, or is discarded. */
module Progress {
  import opened Payloads
  import opened Control
  import opened CloseDiscipline
  import opened Shutdown
  import D = Dataflow
  import opened Ordering
  import opened Delivery
  import Flow
  import Stopping

  /** The steps that move payloads on. */
  ghost predicate Moving<V>(l: Label<V>) {
    l.SourceSend? || l.WorkerProcess? || l.WorkerSend? || l.WorkerDeliver? || l.SinkDrain?
  }

  /** Nobody has returned. */
  ghost predicate Healthy<V>(c: Config, s: State<V>)
    requires Shaped(c, s)
  {
    && !s.closed[0]
    && (forall x :: 0 <= x < |s.workers| ==> !s.workers[x].Exited?)
    && (forall j :: 0 <= j < |s.sinks| ==> s.sinks[j].Idle? || s.sinks[j].Draining?)
  }

  /** No payload taken so far makes a stage stop. */
  ghost predicate Unfailing(p: D.Program, taken: seq<Payload>) {
    forall q :: 0 <= q < |taken| ==> !D.Chain(p, p.c.n, q, taken[q]).Stopped?
  }

  ghost predicate Fit(p: D.Program, s: State<Payload>) {
    Inv(p.c, s) && Healthy(p.c, s) && D.Truthful(p, s) && Unfailing(p, s.taken)
  }

  /** No step that the code allows moves a payload on. */
  ghost predicate AtRest(p: D.Program, s: State<Payload>)
    requires Shaped(p.c, s)
  {
    forall l :: Moving(l) && Enabled(p.c, s, l) ==> !D.Allowed(p, s, l)
  }

  // ----- Where somebody holds a payload, some payload can move -----

  lemma StaysOpen<V>(c: Config, s: State<V>, i: nat)
    requires Inv(c, s) && Healthy(c, s) && i < c.n
    ensures !s.closed[i + 1]
  {
    assert i in c.stageOf;
    var x :| 0 <= x < |c.stageOf| && c.stageOf[x] == i;
    assert s.stages[i].Running?;
  }

  /** A broadcasting worker can send, or one further down the pipeline can. */
  lemma {:induction false} SendExists(p: D.Program, s: State<Payload>, x: nat) returns (l: Label<Payload>)
    requires Inv(p.c, s) && Healthy(p.c, s) && x < |s.workers| && s.workers[x].Broadcasting?
    requires forall j :: 0 <= j < |s.sinks| ==> s.sinks[j].Idle?
    requires forall y :: 0 <= y < |s.workers| ==> !s.workers[y].Processing?
    ensures Moving(l) && Enabled(p.c, s, l) && D.Allowed(p, s, l)
    decreases p.c.n - p.c.stageOf[x]
  {
    var i, clone := p.c.stageOf[x], CloneOf(s.workers[x].item.body);
    OpenForSends(p.c, s, x);
    if i + 1 == p.c.n {
      return WorkerDeliver(x, s.workers[x].next, clone);
    }
    assert i + 1 in p.c.stageOf;
    var y: nat :| y < |p.c.stageOf| && p.c.stageOf[y] == i + 1;
    if s.workers[y].Receiving? {
      return WorkerSend(x, y, clone);
    } else {
      l := SendExists(p, s, y);
    }
  }

  lemma MoveExists(p: D.Program, s: State<Payload>) returns (l: Label<Payload>)
    requires Inv(p.c, s) && Healthy(p.c, s)
    requires !Settled(s) || exists j :: 0 <= j < |s.sinks| && s.sinks[j].Draining?
    ensures Moving(l) && Enabled(p.c, s, l) && D.Allowed(p, s, l)
  {
    if j: nat :| j < |s.sinks| && s.sinks[j].Draining? {
      return SinkDrain(j, CloneOf(s.sinks[j].item.body));
    } else if x: nat :| x < |s.workers| && s.workers[x].Processing? {
      return WorkerProcess(x, Stopping.VerdictOf(p, p.c.stageOf[x], s.workers[x].item));
    } else if x: nat :| x < |s.workers| && s.workers[x].Broadcasting? {
      l := SendExists(p, s, x);
    } else {
      assert 0 in p.c.stageOf;
      var y: nat :| y < |p.c.stageOf| && p.c.stageOf[y] == 0;
      return SourceSend(y);
    }
  }

  // ----- Moving steps keep everybody healthy, and lower the rank -----

  lemma MoveRank<V>(c: Config, s: State<V>, l: Label<V>)
    requires Inv(c, s) && Enabled(c, s, l) && Moving(l)
    ensures Inv(c, Apply(c, s, l)) && Rank(c, Apply(c, s, l)) < Rank(c, s)
  {
    InvStep(c, s, l);
    if l.SourceSend? {
      RankFeed(c, s, l.to);
    } else if l.WorkerProcess? {
      RankProcess(c, s, l.w, l.verdict);
    } else if l.WorkerSend? {
      RankSend(c, s, l.w, l.to, l.clone);
    } else if l.WorkerDeliver? {
      RankDeliver(c, s, l.w, l.sink, l.clone);
    } else {
      RankSink(c, s, l);
    }
  }

  /** The verdict on a payload that makes no stage stop lets the worker go on. */
  lemma NoFailure(p: D.Program, s: State<Payload>, x: nat, v: Verdict<Payload>)
    requires Fit(p, s) && Enabled(p.c, s, WorkerProcess(x, v)) && D.Allowed(p, s, WorkerProcess(x, v))
    ensures v.Forward? || v.Discard?
  {
    assert D.WorkerTrue(p, s.taken, p.c.stageOf[x], s.workers[x]);
    D.JudgedTrue(p, s.taken, p.c.stageOf[x], s.workers[x].item, v);
  }

  lemma MoveKeepsHealth<V>(c: Config, s: State<V>, l: Label<V>)
    requires Shaped(c, s) && Enabled(c, s, l) && Moving(l) && Healthy(c, s)
    requires l.WorkerProcess? ==> l.verdict.Forward? || l.verdict.Discard?
    ensures Healthy(c, Apply(c, s, l)) && Apply(c, s, l).taken == s.taken
  {
    var s' := Apply(c, s, l);
    assert s'.closed == s.closed;
  }

  lemma MoveKeeps(p: D.Program, s: State<Payload>, l: Label<Payload>)
    requires Fit(p, s) && Enabled(p.c, s, l) && D.Allowed(p, s, l) && Moving(l)
    ensures Fit(p, Apply(p.c, s, l)) && Apply(p.c, s, l).taken == s.taken
  {
    InvStep(p.c, s, l);
    D.TruthfulStep(p, s, l);
    if l.WorkerProcess? {
      NoFailure(p, s, l.w, l.verdict);
    }
    MoveKeepsHealth(p.c, s, l);
  }

  lemma {:induction false} MovesKeep(p: D.Program, s: State<Payload>, more: seq<Label<Payload>>)
    requires Fit(p, s) && D.Goes(p, s, more) && forall l :: l in more ==> Moving(l)
    ensures var s' := Exec(p.c, s, more);
            Fit(p, s') && s'.taken == s.taken && |more| + Rank(p.c, s') <= Rank(p.c, s)
  {
    if more != [] {
      var front, last := more[..|more| - 1], more[|more| - 1];
      MovesKeep(p, s, front);
      MoveKeeps(p, Exec(p.c, s, front), last);
      MoveRank(p.c, Exec(p.c, s, front), last);
    }
  }

  lemma RestIsSettled(p: D.Program, s: State<Payload>)
    requires Inv(p.c, s) && Healthy(p.c, s) && AtRest(p, s)
    ensures Settled(s) && forall j :: 0 <= j < |s.sinks| ==> s.sinks[j].Idle?
  {
    if !Settled(s) || exists j :: 0 <= j < |s.sinks| && s.sinks[j].Draining? {
      var l := MoveExists(p, s);
    }
  }

  /** Every payload taken was delivered to all sinks, which handed it over, or was discarded, as its chain says. */
  ghost predicate Arrived(p: D.Program, s: State<Payload>)
    requires Shaped(p.c, s)
  {
    && (forall j :: 0 <= j < p.c.m ==> s.drained[j] == Cloned(s.log[p.c.n + j]))
    && (forall q :: 0 <= q < |s.taken| ==>
          var fate := D.Chain(p, p.c.n, q, s.taken[q]);
          && Flow.Times(Flow.Delivered(p.c, s), q) == (if fate.Carried? then 1 else 0)
          && Flow.Times(s.discarded, q) == (if fate.Skipped? then 1 else 0))
  }

  /**
   * While nobody has returned and no payload taken makes a stage stop, however the payloads are moved on: at most
   * a fixed number of moves follow, nobody returns, and where none is left every payload taken was delivered to
   * all sinks, which handed it to their storages, or discarded, as its own chain of stages says.
   */
  lemma EverythingArrives(p: D.Program, ls: seq<Label<Payload>>, more: seq<Label<Payload>>)
    requires Wired(p.c) && D.Computes(p, ls) && D.Goes(p, D.After(p, ls), more)
    requires Healthy(p.c, D.After(p, ls)) && Unfailing(p, D.After(p, ls).taken)
    requires forall l :: l in more ==> Moving(l)
    ensures |more| <= MaxRank(p.c)
    ensures var s, s' := D.After(p, ls), Exec(p.c, D.After(p, ls), more);
            s'.taken == s.taken && Healthy(p.c, s') && (AtRest(p, s') ==> Arrived(p, s'))
  {
    var s := D.After(p, ls);
    InitInv<Payload>(p.c);
    InvRun(p.c, Init(p.c), ls);
    D.TruthfulRun(p, ls);
    MovesKeep(p, s, more);
    RankBounded(p.c, s);
    D.ComputesOn(p, ls, more);
    if AtRest(p, Exec(p.c, s, more)) {
      ArrivedAtRest(p, ls + more);
    }
  }

  lemma ArrivedAtRest(p: D.Program, all: seq<Label<Payload>>)
    requires Wired(p.c) && D.Computes(p, all) && Fit(p, D.After(p, all)) && AtRest(p, D.After(p, all))
    ensures Arrived(p, D.After(p, all))
  {
    var s := D.After(p, all);
    RestIsSettled(p, s);
    SinksRun(p, all);
    forall j | 0 <= j < p.c.m ensures s.drained[j] == Cloned(s.log[p.c.n + j]) {
      assert HandedOver(s.sinks[j], s.log[p.c.n + j], s.drained[j]);
    }
    forall q | 0 <= q < |s.taken|
      ensures Flow.Times(Flow.Delivered(p.c, s), q)
           == (if D.Chain(p, p.c.n, q, s.taken[q]).Carried? then 1 else 0)
      ensures Flow.Times(s.discarded, q) == (if D.Chain(p, p.c.n, q, s.taken[q]).Skipped? then 1 else 0)
    {
      SettledDelivery(p, all, q);
    }
  }
}
