/**
 * The loops of module Channels and the protocol of module FlowState. Under every schedule of all
 * goroutines of both ends the protocol hands over the payloads, and the confirms, that the loops compute;
 * and from every state it can carry the loops out as a whole.
 */
module ChannelFlow {
  import opened Bytes
  import opened FlowState
  import opened FlowLedger
  import opened FlowRuns
  import Channels

  // ---- Serve ----

  /** The `Serve` of `x` is in its inner loop. */
  predicate Pumping(x: End) {
    && (x.tx.pc.Pump? || x.tx.pc.Handed?) && !x.life.table.Pending?
    && Uncounted(x.tx) <= |x.tx.leftover| && x.tx.writed + Uncounted(x.tx) <= x.remote
  }

  /** What the pass that `x` is in still has to do, as the loop computes it. */
  function Ahead(x: End): Channels.Pass
    requires Pumping(x)
  {
    Channels.PumpAll(x.tx.leftover[Uncounted(x.tx)..], x.tx.writed + Uncounted(x.tx), x.remote)
  }

  function NextPayload(x: End): seq<byte>
    requires CanServe(x, Hand)
  {
    x.tx.leftover[..NextSize(|x.tx.leftover|, x.remote - x.tx.writed)]
  }

  /** Payloads that the `Serve` of one end hands over in `run`. */
  function HandedIn(s: Link, left: bool, run: seq<Event>): seq<seq<byte>>
    requires Possible(s, run)
    decreases |run|
  {
    if run == [] then []
    else
      (if run[0] == Event(left, Serving(Hand)) then [NextPayload(Mine(s, left))] else [])
      + HandedIn(Step(s, run[0]), left, run[1..])
  }

  /** In `run` the `Serve` of one end stays in its inner loop; everything else is free. */
  predicate StaysPumping(run: seq<Event>, left: bool) {
    forall e | e in run && e.left == left && e.act.Serving? :: e.act.serve.Hand? || e.act.serve.Count?
  }

  lemma HandsNext(x: End)
    requires Pumping(x) && CanServe(x, Hand)
    ensures var x' := ServeStep(x, Hand);
      Pumping(x') && Ahead(x) == Channels.Prepend(NextPayload(x), Ahead(x'))
  {
    assert x.tx.leftover[0..] == x.tx.leftover;
  }

  lemma CountsHanded(x: End)
    requires Pumping(x) && CanServe(x, Count)
    ensures Pumping(ServeStep(x, Count)) && Ahead(ServeStep(x, Count)) == Ahead(x)
  {
    var rest := x.tx.leftover[x.tx.pc.size..];
    assert rest[0..] == rest;
  }

  /** No other goroutine touches the variables of `Serve`, except the mailbox. */
  ghost predicate ServeStands(x: End, x': End) {
    x'.tx == x.tx.(slot := x'.tx.slot) && x'.remote == x.remote && (!x.life.table.Pending? ==> !x'.life.table.Pending?)
  }

  lemma LoopLeavesServe(x: End, y: End, act: LoopAct)
    requires CanLoop(x, y, act) && !x.life.table.Pending?
    ensures ServeStands(x, LoopStep(x, y, act))
  {
  }

  lemma OthersLeaveServe(s: Link, left: bool, e: Event)
    requires Pumping(Mine(s, left)) && Enabled(s, e) && !(e.left == left && e.act.Serving?)
    ensures ServeStands(Mine(s, left), Mine(Step(s, e), left))
  {
    if e.left == left && e.act.Looping? {
      LoopLeavesServe(Mine(s, left), Theirs(s, left), e.act.loop);
    }
  }

  /** `p` after some payloads more. */
  function Behind(handed: seq<seq<byte>>, p: Channels.Pass): Channels.Pass {
    p.(payloads := handed + p.payloads)
  }

  lemma PumpSteps(s: Link, left: bool, e: Event)
    requires Pumping(Mine(s, left)) && Enabled(s, e) && StaysPumping([e], left)
    ensures Pumping(Mine(Step(s, e), left))
    ensures Ahead(Mine(s, left)) ==
      Behind(if e == Event(left, Serving(Hand)) then [NextPayload(Mine(s, left))] else [], Ahead(Mine(Step(s, e), left)))
  {
    assert e in [e];
    var x := Mine(s, left);
    if e == Event(left, Serving(Hand)) {
      HandsNext(x);
    } else {
      if e == Event(left, Serving(Count)) {
        CountsHanded(x);
      } else {
        OthersLeaveServe(s, left, e);
      }
      assert [] + Ahead(x).payloads == Ahead(x).payloads;
    }
  }

  /** Whatever the schedule, the payloads handed over so far are the first ones the loop computes. */
  lemma {:induction false} PassIsPump(s: Link, left: bool, run: seq<Event>)
    requires Possible(s, run) && Pumping(Mine(s, left)) && StaysPumping(run, left)
    ensures Pumping(Mine(After(s, run), left))
    ensures Ahead(Mine(s, left)) == Behind(HandedIn(s, left, run), Ahead(Mine(After(s, run), left)))
    decreases |run|
  {
    if run == [] {
      assert [] + Ahead(Mine(s, left)).payloads == Ahead(Mine(s, left)).payloads;
    } else {
      assert run[0] in run;
      PumpSteps(s, left, run[0]);
      PassIsPump(Step(s, run[0]), left, run[1..]);
      Regroup(if run[0] == Event(left, Serving(Hand)) then [NextPayload(Mine(s, left))] else [],
              HandedIn(Step(s, run[0]), left, run[1..]), Ahead(Mine(After(s, run), left)).payloads);
    }
  }

  /** When the pass is over, they are all of them, and `b` and `writed` are what the loop computes. */
  lemma PassEnds(s: Link, left: bool, run: seq<Event>)
    requires Possible(s, run) && Mine(s, left).tx.pc.Pump? && Pumping(Mine(s, left)) && StaysPumping(run, left)
    requires CanServe(Mine(After(s, run), left), FlowState.Rest)
    ensures var x, x' := Mine(s, left), Mine(After(s, run), left);
      Channels.PumpAll(x.tx.leftover, x.tx.writed, x.remote)
        == Channels.Pass(HandedIn(s, left, run), x'.tx.leftover, x'.tx.writed)
  {
    var x, x' := Mine(s, left), Mine(After(s, run), left);
    PassIsPump(s, left, run);
    assert x.tx.leftover[0..] == x.tx.leftover && x'.tx.leftover[0..] == x'.tx.leftover;
    assert Ahead(x') == Channels.Pass([], x'.tx.leftover, x'.tx.writed);
    assert HandedIn(s, left, run) + [] == HandedIn(s, left, run);
  }

  /** Any buffer is taken when nothing is left over, whatever the credit, and none while something is. */
  lemma TakesBuffers(x: End, data: seq<byte>)
    requires x.tx.pc.Choose?
    ensures CanServe(x, Accept(data)) <==> x.tx.leftover == []
    ensures CanServe(x, TakeConfirm) <==> x.tx.slot.Some?
  {
  }

  /** Credit is taken off `writed`; if it is more than that, whoever the peer is, `Serve` leaves and closes. */
  lemma OverpaidLeaves(x: End)
    requires CanServe(x, ApplyConfirm)
    ensures var x' := ServeStep(x, ApplyConfirm);
      && (x'.tx.pc.Leaving? <==> x.tx.pc.confirm > x.tx.writed)
      && (x'.tx.pc.Leaving? ==> x'.life.closed && x'.tx.writed == x.tx.writed)
      && (!x'.tx.pc.Leaving? ==> x'.tx.pc.Pump? && x'.tx.writed + x.tx.pc.confirm == x.tx.writed && x'.life == x.life)
      && x'.tx.leftover == x.tx.leftover && x'.port == x.port
  {
  }

  /** From any state, whatever is in the queue, the protocol can carry out a whole pass. */
  lemma {:induction false} PumpRuns(start: Link, s: Link, left: bool) returns (t: Link)
    requires Leads(start, s)
    requires Mine(s, left).tx.pc == Pump && Mine(s, left).tx.writed <= Mine(s, left).remote
    ensures Leads(start, t) && Theirs(t, left) == Theirs(s, left)
    ensures var x, x' := Mine(s, left), Mine(t, left);
      var p := Channels.PumpAll(x.tx.leftover, x.tx.writed, x.remote);
      && x'.tx == x.tx.(leftover := p.rest, writed := p.spent)
      && x'.port == Port([], x.port.transit + x.port.queue + Frames(p.payloads))
    decreases |Mine(s, left).tx.leftover|
  {
    var x := Mine(s, left);
    t := FlushAll(start, s, left);
    var wire := x.port.transit + x.port.queue;
    if x.tx.leftover == [] || x.tx.writed == x.remote {
      assert wire + Frames([]) == wire;
    } else {
      var size := NextSize(|x.tx.leftover|, x.remote - x.tx.writed);
      var payload := x.tx.leftover[..size];
      t := SendOne(start, t, left);
      var next := Channels.PumpAll(x.tx.leftover[size..], x.tx.writed + size, x.remote);
      t := PumpRuns(start, t, left);
      assert ([payload] + next.payloads)[1..] == next.payloads;
      Regroup(wire, [WriteFrame(payload)], Frames(next.payloads));
    }
  }

  function Frames(payloads: seq<seq<byte>>): seq<Frame> {
    if payloads == [] then [] else [WriteFrame(payloads[0])] + Frames(payloads[1..])
  }

  lemma SendOne(start: Link, s: Link, left: bool) returns (t: Link)
    requires Leads(start, s) && Mine(s, left).port.queue == []
    requires var x := Mine(s, left); x.tx.pc == Pump && x.tx.leftover != [] && x.tx.writed < x.remote
    ensures Leads(start, t) && Theirs(t, left) == Theirs(s, left)
    ensures var x, x' := Mine(s, left), Mine(t, left);
      var size := NextSize(|x.tx.leftover|, x.remote - x.tx.writed);
      && x'.tx == x.tx.(leftover := x.tx.leftover[size..], writed := x.tx.writed + size)
      && x'.port == Port([WriteFrame(x.tx.leftover[..size])], x.port.transit) && x'.remote == x.remote
  {
    t := Next(start, s, left, Serving(Hand));
    t := Next(start, t, left, Serving(Count));
  }

  // ---- serveConfirm ----

  /** The `serveConfirm` of `x` is in its split loop. */
  predicate Splitting(x: End) {
    x.rx.ack.Emitting? || (x.rx.ack.Emitted? && x.rx.ack.sent <= x.rx.ack.n)
  }

  /** Values of the Confirm frames that one end hands over in `run`. */
  function EmittedIn(s: Link, left: bool, run: seq<Event>): seq<nat>
    requires Possible(s, run)
    decreases |run|
  {
    if run == [] then []
    else
      (if run[0] == Event(left, Acking(Emit)) then [AckSize(Mine(s, left).rx.ack.n)] else [])
      + EmittedIn(Step(s, run[0]), left, run[1..])
  }

  predicate StaysSplitting(run: seq<Event>, left: bool) {
    forall e | e in run && e.left == left && e.act.Acking? :: e.act.ack.Emit? || e.act.ack.Settle?
  }

  lemma AckStepSplits(x: End, act: AckAct)
    requires Splitting(x) && CanAck(x, act) && (act.Emit? || act.Settle?)
    ensures var x' := AckStep(x, act);
      && Splitting(x')
      && Channels.Splits(Gathered(x.rx.ack))
         == (if act.Emit? then [AckSize(x.rx.ack.n)] else []) + Channels.Splits(Gathered(x'.rx.ack))
  {
  }

  lemma OthersLeaveAck(s: Link, left: bool, e: Event)
    requires Enabled(s, e) && !(e.left == left && e.act.Acking?)
    ensures Mine(Step(s, e), left).rx.ack == Mine(s, left).rx.ack
  {
  }

  lemma SplitSteps(s: Link, left: bool, e: Event)
    requires Splitting(Mine(s, left)) && Enabled(s, e) && StaysSplitting([e], left)
    ensures Splitting(Mine(Step(s, e), left))
    ensures Channels.Splits(Gathered(Mine(s, left).rx.ack))
         == (if e == Event(left, Acking(Emit)) then [AckSize(Mine(s, left).rx.ack.n)] else [])
            + Channels.Splits(Gathered(Mine(Step(s, e), left).rx.ack))
  {
    assert e in [e];
    if e.left == left && e.act.Acking? {
      AckStepSplits(Mine(s, left), e.act.ack);
    } else {
      OthersLeaveAck(s, left, e);
    }
  }

  /** Whatever the schedule, the values handed over so far are the first ones the split loop computes. */
  lemma {:induction false} SplitIsSplits(s: Link, left: bool, run: seq<Event>)
    requires Possible(s, run) && Splitting(Mine(s, left)) && StaysSplitting(run, left)
    ensures Splitting(Mine(After(s, run), left))
    ensures Channels.Splits(Gathered(Mine(s, left).rx.ack))
         == EmittedIn(s, left, run) + Channels.Splits(Gathered(Mine(After(s, run), left).rx.ack))
    decreases |run|
  {
    if run != [] {
      assert run[0] in run;
      SplitSteps(s, left, run[0]);
      SplitIsSplits(Step(s, run[0]), left, run[1..]);
      Regroup(if run[0] == Event(left, Acking(Emit)) then [AckSize(Mine(s, left).rx.ack.n)] else [],
              EmittedIn(Step(s, run[0]), left, run[1..]), Channels.Splits(Gathered(Mine(After(s, run), left).rx.ack)));
    }
  }

  /** From any state, whatever is in the queue, the protocol can carry out the split loop. */
  lemma {:induction false} SettleRuns(start: Link, s: Link, left: bool, n: nat) returns (t: Link)
    requires Leads(start, s) && Mine(s, left).rx.ack == Emitting(n)
    ensures Leads(start, t) && Theirs(t, left) == Theirs(s, left)
    ensures var x := Mine(s, left);
      Mine(t, left) == x.(rx := x.rx.(ack := Waiting),
                          port := Port([], x.port.transit + x.port.queue + Acks(Channels.Splits(n))))
    decreases n
  {
    var x := Mine(s, left);
    t := FlushAll(start, s, left);
    var wire := x.port.transit + x.port.queue;
    if n == 0 {
      t := Next(start, t, left, Acking(Finish));
      assert wire + Acks([]) == wire;
    } else {
      var size := AckSize(n);
      t := EmitOne(start, t, left, n);
      t := SettleRuns(start, t, left, n - size);
      assert ([size] + Channels.Splits(n - size))[1..] == Channels.Splits(n - size);
      Regroup(wire, [ConfirmFrame(size)], Acks(Channels.Splits(n - size)));
    }
  }

  lemma EmitOne(start: Link, s: Link, left: bool, n: nat) returns (t: Link)
    requires Leads(start, s) && n > 0 && Mine(s, left).rx.ack == Emitting(n) && Mine(s, left).port.queue == []
    ensures Leads(start, t) && Theirs(t, left) == Theirs(s, left)
    ensures var x := Mine(s, left);
      Mine(t, left) == x.(rx := x.rx.(ack := Emitting(n - AckSize(n))),
                          port := Port([ConfirmFrame(AckSize(n))], x.port.transit))
  {
    t := Next(start, s, left, Acking(Emit));
    t := Next(start, t, left, Acking(Settle));
  }

  function Acks(sizes: seq<nat>): seq<Frame> {
    if sizes == [] then [] else [ConfirmFrame(sizes[0])] + Acks(sizes[1..])
  }

  // ---- the drain loop ----

  /** Counts that the drain loop of one end takes in `run`. */
  function GatheredIn(s: Link, left: bool, run: seq<Event>): seq<nat>
    requires Possible(s, run)
    decreases |run|
  {
    if run == [] then []
    else
      (if run[0] == Event(left, Acking(Gather)) then [Mine(s, left).rx.acks[0]] else [])
      + GatheredIn(Step(s, run[0]), left, run[1..])
  }

  predicate StaysGathering(run: seq<Event>, left: bool) {
    forall e | e in run && e.left == left && e.act.Acking? :: e.act.ack.Gather?
  }

  lemma RemoteStays(s: Link, left: bool, e: Event)
    requires Enabled(s, e)
    ensures Mine(Step(s, e), left).remote == Mine(s, left).remote
  {
  }

  lemma GatherSteps(s: Link, left: bool, e: Event)
    requires Enabled(s, e) && Mine(s, left).rx.ack.Gathering? && StaysGathering([e], left)
    ensures var x, x' := Mine(s, left), Mine(Step(s, e), left);
      && x'.rx.ack.Gathering? && x'.remote == x.remote
      && (e == Event(left, Acking(Gather)) ==>
            x.rx.ack.n < x.remote / 3 && x.rx.acks != [] && x'.rx.ack.n == x.rx.ack.n + x.rx.acks[0])
      && (e != Event(left, Acking(Gather)) ==> x'.rx.ack.n == x.rx.ack.n)
  {
    assert e in [e];
    RemoteStays(s, left, e);
    if e != Event(left, Acking(Gather)) {
      OthersLeaveAck(s, left, e);
    }
  }

  /**
   * Whatever the schedule, the drain loop adds up the counts it takes, and takes none once a third of the
   * window is gathered.
   */
  lemma {:induction false} GatherIsDrain(s: Link, left: bool, run: seq<Event>)
    requires Possible(s, run) && Mine(s, left).rx.ack.Gathering? && StaysGathering(run, left)
    ensures Mine(After(s, run), left).rx.ack.Gathering?
    ensures var n, counts, third := Mine(s, left).rx.ack.n, GatheredIn(s, left, run), Mine(s, left).remote / 3;
      && Mine(After(s, run), left).rx.ack.n == n + Sum(counts)
      && (forall k | 0 <= k < |counts| :: n + Sum(counts[..k]) < third)
    decreases |run|
  {
    if run != [] {
      assert run[0] in run;
      GatherSteps(s, left, run[0]);
      GatherIsDrain(Step(s, run[0]), left, run[1..]);
      var first := if run[0] == Event(left, Acking(Gather)) then [Mine(s, left).rx.acks[0]] else [];
      var later := GatheredIn(Step(s, run[0]), left, run[1..]);
      SumAppend(first, later);
      assert first != [] ==> first[1..] == [];
      forall k | 0 <= k < |first + later|
        ensures Mine(s, left).rx.ack.n + Sum((first + later)[..k]) < Mine(s, left).remote / 3
      {
        if k >= |first| {
          assert (first + later)[..k] == first + later[..k - |first|];
          SumAppend(first, later[..k - |first|]);
        } else {
          assert (first + later)[..k] == [];
        }
      }
    }
  }
}
