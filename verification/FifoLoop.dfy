/** The loop of one fifo worker, run against scripted channels: it computes what the specification of a stage says. */
module FifoLoop {
  import opened Payloads
  import opened Control
  import opened Dataflow
  import opened Ordering

  datatype Returned = ByClose | ByCancel | ByNil | ByError

  /** A send: the number of the output channel, and the item. */
  type Send = (nat, Item<Payload>)

  ghost function Copies(it: Item<Payload>, m: nat): (r: seq<Send>)
    ensures |r| == m
  {
    seq(m, j requires 0 <= j < m => (j, it))
  }

  /** Each item goes to every output channel, one channel after the other, before the next item. */
  ghost function Broadcast(items: seq<Item<Payload>>, m: nat): seq<Send> {
    if items == [] then [] else Broadcast(Front(items), m) + Copies(Last(items), m)
  }

  ghost function Skips(p: Program, k: nat, items: seq<Item<Payload>>): seq<Item<Payload>> {
    if items == [] then []
    else
      var it := Last(items);
      var before := Skips(p, k, Front(items));
      if StageFate(p, k, it.id, it.body).Skipped? && !StageOut(p, k, Front(items)).stopped
      then before + [it] else before
  }

  lemma {:induction false} BroadcastGrows(xs: seq<Item<Payload>>, ys: seq<Item<Payload>>, m: nat)
    requires xs <= ys
    ensures Broadcast(xs, m) <= Broadcast(ys, m)
  {
    if |xs| == |ys| {
      assert xs == ys;
    } else {
      BroadcastGrows(xs, Front(ys), m);
    }
  }

  /** After the item that stops a stage nothing changes any more. */
  lemma {:induction false} StoppedStays(p: Program, k: nat, xs: seq<Item<Payload>>, ys: seq<Item<Payload>>)
    requires xs <= ys && StageOut(p, k, xs).stopped
    ensures StageOut(p, k, ys) == StageOut(p, k, xs) && Skips(p, k, ys) == Skips(p, k, xs)
  {
    if |xs| == |ys| {
      assert xs == ys;
    } else {
      StoppedStays(p, k, xs, Front(ys));
    }
  }

  /** One more item for a stage that has not stopped. */
  lemma OneMore(p: Program, k: nat, inbox: seq<Item<Payload>>, i: nat)
    requires i < |inbox| && !StageOut(p, k, inbox[..i]).stopped
    ensures var it, r := inbox[i], StageOut(p, k, inbox[..i]);
            && StageOut(p, k, inbox[..i + 1]) == Extend(r, it.id, StageFate(p, k, it.id, it.body))
            && Skips(p, k, inbox[..i + 1]) == Skips(p, k, inbox[..i])
                 + (if StageFate(p, k, it.id, it.body).Skipped? then [it] else [])
  {
    assert Front(inbox[..i + 1]) == inbox[..i] && Last(inbox[..i + 1]) == inbox[i];
  }

  lemma OneStops(p: Program, k: nat, inbox: seq<Item<Payload>>, i: nat)
    requires i < |inbox| && !StageOut(p, k, inbox[..i]).stopped
    requires StageFate(p, k, inbox[i].id, inbox[i].body).Stopped?
    ensures StageOut(p, k, inbox) == StageOut(p, k, inbox[..i + 1]) == Flowed(StageOut(p, k, inbox[..i]).out, true)
    ensures Skips(p, k, inbox) == Skips(p, k, inbox[..i + 1]) == Skips(p, k, inbox[..i])
  {
    OneMore(p, k, inbox, i);
    StoppedStays(p, k, inbox[..i + 1], inbox);
  }

  /** What the stage sends if it forwards the next item, and that it is part of all it sends. */
  lemma OneForwarded(p: Program, k: nat, inbox: seq<Item<Payload>>, i: nat, m: nat)
    requires i < |inbox| && !StageOut(p, k, inbox[..i]).stopped
    requires StageFate(p, k, inbox[i].id, inbox[i].body).Carried?
    ensures var sent := Broadcast(StageOut(p, k, inbox[..i + 1]).out, m);
            && sent == Broadcast(StageOut(p, k, inbox[..i]).out, m)
                         + Copies(Item(inbox[i].id, StageFate(p, k, inbox[i].id, inbox[i].body).body), m)
            && sent <= Broadcast(StageOut(p, k, inbox).out, m)
  {
    OneMore(p, k, inbox, i);
    FrontOfAppend(StageOut(p, k, inbox[..i]).out, Item(inbox[i].id, StageFate(p, k, inbox[i].id, inbox[i].body).body));
    StageOutGrows(p, k, inbox[..i + 1], inbox);
    BroadcastGrows(StageOut(p, k, inbox[..i + 1]).out, StageOut(p, k, inbox).out, m);
  }

  /** What a worker sends if the context cuts it short after a number of sends. */
  ghost function Cut(all: seq<Send>, sends: nat): seq<Send> {
    if |all| <= sends then all else all[..sends]
  }

  lemma CutPrefix(all: seq<Send>, before: seq<Send>, clone: Item<Payload>, m: nat, sends: nat)
    requires before + Copies(clone, m) <= all && |before| <= sends < |before| + m
    ensures before + Copies(clone, sends - |before|) == Cut(all, sends)
  {
    assert Copies(clone, m)[..sends - |before|] == Copies(clone, sends - |before|);
    assert all[..sends] == (before + Copies(clone, m))[..sends];
  }

  /** Sends a clone to every output channel until the context is cancelled, which it is after `room` sends. */
  method SendAll(clone: Item<Payload>, fanout: nat, room: nat) returns (sent: seq<Send>, complete: bool)
    ensures complete <==> fanout <= room
    ensures sent == Copies(clone, if complete then fanout else room)
  {
    sent := [];
    for j := 0 to fanout
      invariant j <= room && sent == Copies(clone, j)
    {
      if j == room {
        return sent, false;
      }
      sent := sent + [(j, clone)];
    }
    return sent, true;
  }

  /** Clones and processes one payload: what becomes of it, with the clone that goes out. */
  method Handle(p: Program, k: nat, payloadIn: Item<Payload>) returns (fate: Fate)
    ensures fate == StageFate(p, k, payloadIn.id, payloadIn.body)
  {
    if payloadIn.body.NoPayload? {
      return Stopped;
    }
    var result := p.proc(k, payloadIn.id, CloneOf(payloadIn.body));
    if result.Error? {
      return Stopped;
    }
    if result.payload.NoPayload? {
      return Skipped;
    }
    return Carried(CloneOf(result.payload));
  }

  /** What the worker has done when it waits for item i. */
  ghost predicate Upto(p: Program, k: nat, fanout: nat, inbox: seq<Item<Payload>>, i: nat, trace: seq<Send>,
                       discarded: seq<Item<Payload>>)
    requires i <= |inbox|
  {
    && !StageOut(p, k, inbox[..i]).stopped
    && trace == Broadcast(StageOut(p, k, inbox[..i]).out, fanout)
    && discarded == Skips(p, k, inbox[..i])
  }

  lemma UptoNext(p: Program, k: nat, fanout: nat, inbox: seq<Item<Payload>>, i: nat, trace: seq<Send>,
                 discarded: seq<Item<Payload>>)
    requires i < |inbox| && Upto(p, k, fanout, inbox, i, trace, discarded)
    ensures var it := inbox[i];
            var fate := StageFate(p, k, it.id, it.body);
            && (fate.Skipped? ==> Upto(p, k, fanout, inbox, i + 1, trace, discarded + [it]))
            && (fate.Carried? ==>
                  Upto(p, k, fanout, inbox, i + 1, trace + Copies(Item(it.id, fate.body), fanout), discarded))
  {
    OneMore(p, k, inbox, i);
    if StageFate(p, k, inbox[i].id, inbox[i].body).Carried? {
      OneForwarded(p, k, inbox, i, fanout);
    }
  }

  /** What a worker that returns has sent and discarded, and why it returned, having received so many items. */
  ghost predicate Done(p: Program, k: nat, fanout: nat, inbox: seq<Item<Payload>>, cancelled: bool, sends: nat,
                       trace: seq<Send>, discarded: seq<Item<Payload>>, received: nat, why: Returned)
  {
    var all := Broadcast(StageOut(p, k, inbox).out, fanout);
    && trace == Cut(all, sends)
    && received <= |inbox| && discarded == Skips(p, k, inbox[..received])
    && (|all| <= sends ==>
          && StageOut(p, k, inbox[..received]) == StageOut(p, k, inbox) && discarded == Skips(p, k, inbox)
          && (why.ByError? || why.ByNil? <==> StageOut(p, k, inbox).stopped)
          && (why.ByCancel? ==> cancelled) && (why.ByClose? ==> !cancelled))
    && (|all| > sends ==>
          && why.ByCancel? && received > 0
          && |Broadcast(StageOut(p, k, inbox[..received - 1]).out, fanout)| <= sends
               < |Broadcast(StageOut(p, k, inbox[..received]).out, fanout)|)
  }

  lemma DoneStopped(p: Program, k: nat, fanout: nat, inbox: seq<Item<Payload>>, i: nat, cancelled: bool, sends: nat,
                    trace: seq<Send>, discarded: seq<Item<Payload>>, why: Returned)
    requires i < |inbox| && Upto(p, k, fanout, inbox, i, trace, discarded) && |trace| <= sends
    requires StageFate(p, k, inbox[i].id, inbox[i].body).Stopped? && (why.ByNil? || why.ByError?)
    ensures Done(p, k, fanout, inbox, cancelled, sends, trace, discarded, i + 1, why)
  {
    OneStops(p, k, inbox, i);
  }

  lemma DoneCut(p: Program, k: nat, fanout: nat, inbox: seq<Item<Payload>>, i: nat, cancelled: bool, sends: nat,
                trace: seq<Send>, discarded: seq<Item<Payload>>, clone: Item<Payload>)
    requires i < |inbox| && Upto(p, k, fanout, inbox, i, trace, discarded) && |trace| <= sends < |trace| + fanout
    requires StageFate(p, k, inbox[i].id, inbox[i].body) == Carried(clone.body) && clone.id == inbox[i].id
    ensures Done(p, k, fanout, inbox, cancelled, sends, trace + Copies(clone, sends - |trace|), discarded, i + 1,
                 ByCancel)
  {
    OneForwarded(p, k, inbox, i, fanout);
    OneMore(p, k, inbox, i);
    CutPrefix(Broadcast(StageOut(p, k, inbox).out, fanout), trace, clone, fanout, sends);
  }

  /** The processor is given a clone of the item and answers without an error. */
  ghost predicate Passes(p: Program, k: nat, it: Item<Payload>) {
    !it.body.NoPayload? && p.proc(k, it.id, CloneOf(it.body)).Out?
  }

  /** The send is of a clone of what the processor made of one of the items. */
  ghost predicate IsOutput(p: Program, k: nat, inbox: seq<Item<Payload>>, it: Item<Payload>) {
    exists i :: 0 <= i < |inbox| && Passes(p, k, inbox[i]) && it.id == inbox[i].id
                && var out := p.proc(k, it.id, CloneOf(inbox[i].body)).payload;
                   !out.NoPayload? && it.body == CloneOf(out)
  }

  /** The worker goes on past payloads that pass, sends what comes of them, and discards those nothing comes of. */
  ghost predicate Plainly(p: Program, k: nat, inbox: seq<Item<Payload>>, trace: seq<Send>,
                          discarded: seq<Item<Payload>>)
  {
    && (forall t :: 0 <= t < |trace| ==> IsOutput(p, k, inbox, trace[t].1))
    && (forall i :: 0 <= i < |discarded| ==>
          && discarded[i] in inbox && Passes(p, k, discarded[i])
          && p.proc(k, discarded[i].id, CloneOf(discarded[i].body)).payload.NoPayload?)
  }

  /** The output channels take turns, from the first to the last, and each item goes to all before the next. */
  ghost predicate InTurn(fanout: nat, trace: seq<Send>) {
    && (trace != [] ==> trace[0].0 == 0)
    && (forall t :: 0 <= t < |trace| - 1 ==>
          if trace[t].0 + 1 == fanout then trace[t + 1].0 == 0
          else trace[t + 1] == (trace[t].0 + 1, trace[t].1))
  }

  ghost predicate RoundEnds(fanout: nat, trace: seq<Send>) {
    trace != [] ==> trace[|trace| - 1].0 + 1 == fanout
  }

  lemma InTurnCopies(fanout: nat, trace: seq<Send>, clone: Item<Payload>)
    requires InTurn(fanout, trace) && RoundEnds(fanout, trace)
    ensures InTurn(fanout, trace + Copies(clone, fanout)) && RoundEnds(fanout, trace + Copies(clone, fanout))
  {
  }

  lemma {:induction false} BroadcastInTurn(items: seq<Item<Payload>>, m: nat)
    ensures InTurn(m, Broadcast(items, m)) && RoundEnds(m, Broadcast(items, m))
  {
    if items != [] {
      BroadcastInTurn(Front(items), m);
      InTurnCopies(m, Broadcast(Front(items), m), Last(items));
    }
  }

  /** So are the sends of a worker, wherever it was cut short. */
  lemma SendsInTurn(p: Program, k: nat, fanout: nat, inbox: seq<Item<Payload>>, cancelled: bool, sends: nat,
                    trace: seq<Send>, discarded: seq<Item<Payload>>, received: nat, why: Returned)
    requires Done(p, k, fanout, inbox, cancelled, sends, trace, discarded, received, why)
    ensures InTurn(fanout, trace) && (!why.ByCancel? ==> RoundEnds(fanout, trace))
  {
    BroadcastInTurn(StageOut(p, k, inbox).out, fanout);
  }

  lemma PlainlySends(p: Program, k: nat, inbox: seq<Item<Payload>>, i: nat, trace: seq<Send>,
                     discarded: seq<Item<Payload>>, clone: Item<Payload>, n: nat)
    requires i < |inbox| && Plainly(p, k, inbox[..i], trace, discarded) && Passes(p, k, inbox[i])
    requires clone.id == inbox[i].id
    requires var out := p.proc(k, clone.id, CloneOf(inbox[i].body)).payload;
             !out.NoPayload? && clone.body == CloneOf(out)
    ensures Plainly(p, k, inbox[..i + 1], trace + Copies(clone, n), discarded)
  {
    var sent := trace + Copies(clone, n);
    PlainlyMore(p, k, inbox, i, trace, discarded);
    assert inbox[..i + 1][i] == inbox[i] && IsOutput(p, k, inbox[..i + 1], clone);
    forall t | 0 <= t < |sent| ensures IsOutput(p, k, inbox[..i + 1], sent[t].1) {
      assert t < |trace| ==> sent[t] == trace[t];
    }
  }

  lemma PlainlyMore(p: Program, k: nat, inbox: seq<Item<Payload>>, i: nat, trace: seq<Send>,
                    discarded: seq<Item<Payload>>)
    requires i < |inbox| && Plainly(p, k, inbox[..i], trace, discarded)
    ensures Plainly(p, k, inbox[..i + 1], trace, discarded)
  {
    forall t | 0 <= t < |trace| ensures IsOutput(p, k, inbox[..i + 1], trace[t].1) {
      assert IsOutput(p, k, inbox[..i], trace[t].1);
      var h :| 0 <= h < i && Passes(p, k, inbox[..i][h]) && trace[t].1.id == inbox[..i][h].id
               && var out := p.proc(k, trace[t].1.id, CloneOf(inbox[..i][h].body)).payload;
                  !out.NoPayload? && trace[t].1.body == CloneOf(out);
      assert inbox[..i + 1][h] == inbox[..i][h];
    }
    forall d | 0 <= d < |discarded| ensures discarded[d] in inbox[..i + 1] {
      assert discarded[d] in inbox[..i];
    }
  }

  /**
   * The input channel delivers `inbox` and is then closed, or the context is cancelled; `sends` of the worker's
   * sends find a receiver before the cancellation cuts in.  The worker has received `received` items: all of them,
   * or those up to the one that stops it or in whose broadcast it is cut short.
   */
  method Run(p: Program, k: nat, fanout: nat, inbox: seq<Item<Payload>>, cancelled: bool, sends: nat)
    returns (trace: seq<Send>, discarded: seq<Item<Payload>>, received: nat, why: Returned)
    ensures Done(p, k, fanout, inbox, cancelled, sends, trace, discarded, received, why)
    ensures Plainly(p, k, inbox[..received], trace, discarded)
    ensures forall i :: 0 <= i < received - 1 ==> Passes(p, k, inbox[i])
    ensures why.ByNil? <==> received > 0 && inbox[received - 1].body.NoPayload?
    ensures why.ByError? <==>
              && received > 0 && !inbox[received - 1].body.NoPayload? && !Passes(p, k, inbox[received - 1])
  {
    trace, discarded, received := [], [], 0;
    while received < |inbox|
      invariant received <= |inbox| && |trace| <= sends
      invariant Upto(p, k, fanout, inbox, received, trace, discarded)
      invariant Plainly(p, k, inbox[..received], trace, discarded)
      invariant forall i :: 0 <= i < received ==> Passes(p, k, inbox[i])
    {
      var i, payloadIn := received, inbox[received];
      received := received + 1;
      var fate := Handle(p, k, payloadIn);
      UptoNext(p, k, fanout, inbox, i, trace, discarded);
      PlainlyMore(p, k, inbox, i, trace, discarded);
      if fate.Stopped? {
        why := if payloadIn.body.NoPayload? then ByNil else ByError;
        DoneStopped(p, k, fanout, inbox, i, cancelled, sends, trace, discarded, why);
        return;
      } else if fate.Skipped? {
        discarded := discarded + [payloadIn];
        assert payloadIn == inbox[..received][i];
      } else {
        var clone := Item(payloadIn.id, fate.body);
        var sent, complete := SendAll(clone, fanout, sends - |trace|);
        PlainlySends(p, k, inbox, i, trace, discarded, clone, |sent|);
        if !complete {
          DoneCut(p, k, fanout, inbox, i, cancelled, sends, trace, discarded, clone);
          return trace + sent, discarded, received, ByCancel;
        }
        trace := trace + sent;
      }
    }
    assert inbox[..received] == inbox;
    why := if cancelled then ByCancel else ByClose;
  }
}
