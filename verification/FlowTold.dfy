/**
 * Close frames. Each one an end queues has a cause, and each cause is answered by one: an overflow, a
 * Confirm for a channel that is not open, a reply nobody waits for, or the `delete` of a channel that was
 * still in the table. Also, how long the queues get.
 */
module FlowTold {
  import opened Bytes
  import opened FlowState
  import opened FlowRuns

  function Closes(frames: seq<Frame>): nat {
    if frames == [] then 0 else (if frames[0].CloseFrame? then 1 else 0) + Closes(frames[1..])
  }

  lemma {:induction false} ClosesAppend(frames: seq<Frame>, f: Frame)
    ensures Closes(frames + [f]) == Closes(frames) + if f.CloseFrame? then 1 else 0
  {
    if frames == [] {
      assert frames + [f] == [f];
      assert Closes([f][1..]) == 0;
    } else {
      assert (frames + [f])[1..] == frames[1..] + [f];
      ClosesAppend(frames[1..], f);
    }
  }

  /** Close frames that are queued, or on the wire. */
  function Said(p: Port): nat {
    Closes(p.transit) + Closes(p.queue)
  }

  /** Close frames that a goroutine is about to queue. */
  function Owing(x: End): nat {
    (if x.loop.Closing? then 1 else 0) + if x.tx.pc.Farewell? then 1 else 0
  }

  /** A Confirm without an open channel, or a reply that is not the first. */
  predicate Unwanted(x: End, f: Frame) {
    match f
    case ConfirmFrame(_) => !x.life.table.Open?
    case OpenedFrame => !x.life.table.Pending?
    case _ => false
  }

  /** A Close frame for the peer is due to this step of `x`. */
  predicate Causes(x: End, y: End, act: Action) {
    match act
    case Serving(Delete) => x.life.table.Open?
    case Looping(Merge) =>
      x.loop.Confirming? && x.tx.slot.Some? && x.loop.value + x.tx.slot.value >= x.remote
    case Looping(Receive) => y.port.transit != [] && Unwanted(x, y.port.transit[0])
    case _ => false
  }

  lemma PushSays(p: Port, f: Frame)
    ensures Said(Push(p, f)) == Said(p) + if f.CloseFrame? then 1 else 0
  {
    ClosesAppend(p.queue, f);
  }

  lemma FlushSays(p: Port)
    requires p.queue != []
    ensures Said(Port(p.queue[1..], p.transit + [p.queue[0]])) == Said(p)
  {
    ClosesAppend(p.transit, p.queue[0]);
  }

  lemma ServeTells(x: End, y: End, act: ServeAct)
    requires CanServe(x, act)
    ensures var x' := ServeStep(x, act);
      Said(x'.port) + Owing(x') == Said(x.port) + Owing(x) + if Causes(x, y, Serving(act)) then 1 else 0
  {
    match act
    case Hand =>
      PushSays(x.port, WriteFrame(x.tx.leftover[..NextSize(|x.tx.leftover|, x.remote - x.tx.writed)]));
    case SayClose => PushSays(x.port, CloseFrame);
    case _ =>
  }

  lemma LoopTells(x: End, y: End, act: LoopAct)
    requires CanLoop(x, y, act) && (x.life.table.Pending? ==> x.tx.pc.Dormant?)
    ensures var x' := LoopStep(x, y, act);
      Said(x'.port) + Owing(x') == Said(x.port) + Owing(x) + if Causes(x, y, Looping(act)) then 1 else 0
  {
    if act.Reject? { PushSays(x.port, CloseFrame); }
  }

  lemma OthersTell(x: End, y: End, act: Action)
    requires Can(x, y, act) && !act.Serving? && !act.Looping?
    ensures var x' := Do(x, y, act); Said(x'.port) + Owing(x') == Said(x.port) + Owing(x)
  {
    match act
    case Moving(Flush) => FlushSays(x.port);
    case Moving(Reply) => PushSays(x.port, OpenedFrame);
    case Acking(Emit) => PushSays(x.port, ConfirmFrame(AckSize(x.rx.ack.n)));
    case _ =>
  }

  lemma StepTells(x: End, y: End, act: Action)
    requires Can(x, y, act) && (x.life.table.Pending? ==> x.tx.pc.Dormant?)
    ensures var x' := Do(x, y, act);
      Said(x'.port) + Owing(x') == Said(x.port) + Owing(x) + if Causes(x, y, act) then 1 else 0
  {
    match act
    case Serving(a) => ServeTells(x, y, a);
    case Looping(a) => LoopTells(x, y, a);
    case _ => OthersTell(x, y, act);
  }

  /** In `sendClose` the loop does one thing: it queues the Close. */
  lemma ClosingTells(x: End, y: End, act: Action)
    requires Can(x, y, act) && x.loop.Closing?
    ensures Do(x, y, act).loop.Closing?
         || (Do(x, y, act).loop.Idle? && Do(x, y, act).port == x.port.(queue := x.port.queue + [CloseFrame]))
  {
  }

  // ---- runs ----

  /** How often a step of one end in `run` was due a Close frame. */
  function CausesIn(s: Link, left: bool, run: seq<Event>): nat
    requires Possible(s, run)
    decreases |run|
  {
    if run == [] then 0
    else
      (if run[0].left == left && Causes(Mine(s, left), Theirs(s, left), run[0].act) then 1 else 0)
      + CausesIn(Step(s, run[0]), left, run[1..])
  }

  /** How many Close frames of one end the peer took off the wire in `run`. */
  function TakenIn(s: Link, left: bool, run: seq<Event>): nat
    requires Possible(s, run)
    decreases |run|
  {
    if run == [] then 0
    else
      (if run[0] == Event(!left, Looping(Receive)) && Mine(s, left).port.transit[0].CloseFrame? then 1 else 0)
      + TakenIn(Step(s, run[0]), left, run[1..])
  }

  ghost predicate PendingOk(x: End) {
    x.life.table.Pending? ==> x.tx.pc.Dormant?
  }

  lemma PendingKeeps(x: End, y: End, act: Action)
    requires Can(x, y, act) && PendingOk(x)
    ensures PendingOk(Do(x, y, act))
  {
  }

  lemma EventTells(s: Link, left: bool, e: Event)
    requires Enabled(s, e) && PendingOk(Mine(s, left))
    ensures var x, x' := Mine(s, left), Mine(Step(s, e), left);
      && PendingOk(x')
      && Said(x'.port) + Owing(x') + TakenIn(s, left, [e]) == Said(x.port) + Owing(x) + CausesIn(s, left, [e])
  {
    assert [e][1..] == [];
    assert Possible(Step(s, e), [e][1..]) && Possible(s, [e]);
    if e.left == left {
      StepTells(Mine(s, left), Theirs(s, left), e.act);
      PendingKeeps(Mine(s, left), Theirs(s, left), e.act);
    }
  }

  /** What is said and about to be said is what there was to say, in every run. */
  lemma {:induction false} EveryCauseIsTold(s: Link, left: bool, run: seq<Event>)
    requires Possible(s, run) && PendingOk(Mine(s, left))
    ensures var x, x' := Mine(s, left), Mine(After(s, run), left);
      Said(x'.port) + Owing(x') + TakenIn(s, left, run) == Said(x.port) + Owing(x) + CausesIn(s, left, run)
    decreases |run|
  {
    if run != [] {
      var t := Step(s, run[0]);
      assert Possible(t, []) && Possible(s, [run[0]]) by { assert [run[0]][1..] == []; }
      EventTells(s, left, run[0]);
      assert CausesIn(t, left, []) == 0 && TakenIn(t, left, []) == 0;
      assert [run[0]][1..] == [];
      EveryCauseIsTold(t, left, run[1..]);
    }
  }

  /** From the start of a channel: as many Close frames as there were causes, each taken, on its way, or next. */
  lemma ClosesExactly(clientWindow: nat, serverWindow: nat, left: bool, run: seq<Event>)
    requires Possible(Created(clientWindow, serverWindow), run)
    ensures var s := Created(clientWindow, serverWindow);
      var x := Mine(After(s, run), left);
      TakenIn(s, left, run) + Said(x.port) + Owing(x) == CausesIn(s, left, run)
  {
    EveryCauseIsTold(Created(clientWindow, serverWindow), left, run);
  }

  // ---- bounds ----

  /** The capacities of the two Go channels (server_transport.go:32, client_transport.go:79, channel.go:69). */
  predicate Bounded(x: End) {
    |x.port.queue| <= 50 && |x.rx.acks| <= 10
  }

  lemma StepKeepsBounded(x: End, y: End, act: Action)
    requires Can(x, y, act) && Bounded(x)
    ensures Bounded(Do(x, y, act))
  {
  }

  lemma {:induction false} QueuesAreBounded(s: Link, left: bool, run: seq<Event>)
    requires Possible(s, run) && Bounded(Mine(s, left))
    ensures Bounded(Mine(After(s, run), left))
    decreases |run|
  {
    if run != [] {
      if run[0].left == left {
        StepKeepsBounded(Mine(s, left), Theirs(s, left), run[0].act);
      }
      QueuesAreBounded(Step(s, run[0]), left, run[1..]);
    }
  }
}
