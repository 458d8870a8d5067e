/**
 * Progress. Every step of every goroutine lowers a weight, except `Serve` taking a buffer from the
 * application; so nothing can run forever on its own, and what can no longer run has delivered
 * everything and got all its credit back.
 */
module FlowProgress {
  import opened Bytes
  import opened FlowState
  import opened FlowLedger
  import opened FlowOrder

  // Weight of one byte in each stage of its life.
  const UNSENT := 18
  const CARRIED := 14
  const STORED := 13
  const READ := 8

  function FrameWeight(f: Frame): nat {
    match f
    case WriteFrame(payload) => CARRIED * |payload| + 1
    case ConfirmFrame(_) => 5
    case CloseFrame => 1
    case OpenedFrame => 5
  }

  function Weights(frames: seq<Frame>): nat {
    if frames == [] then 0 else FrameWeight(frames[0]) + Weights(frames[1..])
  }

  /** A frame in the queue weighs one more than on the wire. */
  function PortWeight(p: Port): nat {
    Weights(p.transit) + Weights(p.queue) + |p.queue|
  }

  function ServeWeight(tx: Sender): nat {
    UNSENT * |Unsent(tx)| + (if tx.slot.Some? then 3 else 0)
    + match tx.pc
      case Left => 0
      case Farewell => 3
      case Leaving => 4
      case Choose => 5
      case Pump => 6
      case Dormant => 6
      case Apply(_) => 7
      case Handed(_) => 7
  }

  function LoopWeight(loop: LoopPc): nat {
    match loop
    case Idle => 0
    case Piping(rest) => CARRIED * |rest|
    case Confirming(_) => 4
    case Closing => 3
  }

  function AckWeight(ack: AckPc): nat {
    READ * Gathered(ack)
    + match ack
      case Returned(_) => 0
      case Waiting => 1
      case Gathering(_) => 3
      case Emitting(_) => 2
      case Emitted(_, _) => 3
  }

  function ReceiverWeight(rx: Receiver): nat {
    STORED * |rx.ring| + READ * Sum(rx.hand) + 4 * |rx.hand| + READ * Sum(rx.acks) + 3 * |rx.acks| + AckWeight(rx.ack)
  }

  function StatusWeight(life: Status): nat {
    (if life.closed then 0 else 1) + (if life.sealed then 0 else 1) + (if life.replyDue then 7 else 0)
  }

  function EndWeight(x: End): nat {
    ServeWeight(x.tx) + LoopWeight(x.loop) + PortWeight(x.port) + ReceiverWeight(x.rx) + StatusWeight(x.life)
  }

  lemma {:induction false} WeightsAppend(frames: seq<Frame>, f: Frame)
    ensures Weights(frames + [f]) == Weights(frames) + FrameWeight(f)
  {
    if frames == [] {
      assert frames + [f] == [f];
      assert Weights([f][1..]) == 0;
    } else {
      assert (frames + [f])[1..] == frames[1..] + [f];
      WeightsAppend(frames[1..], f);
    }
  }

  lemma UseSpends(x: End, act: UserAct)
    requires CanUse(x, act)
    ensures EndWeight(Use(x, act)) < EndWeight(x)
  {
    match act {
      case Read(k) => SumAppend(x.rx.hand, [k]);
      case Return(i) =>
        SumRemove(x.rx.hand, i);
        SumAppend(x.rx.acks, [x.rx.hand[i]]);
      case Forget(i) => SumRemove(x.rx.hand, i);
      case _ =>
    }
  }

  lemma HandSpends(x: End)
    requires CanServe(x, Hand)
    ensures EndWeight(ServeStep(x, Hand)) < EndWeight(x)
  {
    var size := NextSize(|x.tx.leftover|, x.remote - x.tx.writed);
    var f := WriteFrame(x.tx.leftover[..size]);
    WeightsAppend(x.port.queue, f);
    assert PortWeight(Push(x.port, f)) == PortWeight(x.port) + CARRIED * size + 2;
    assert |Unsent(ServeStep(x, Hand).tx)| == |x.tx.leftover| - size;
  }

  lemma CountSpends(x: End)
    requires CanServe(x, Count)
    ensures EndWeight(ServeStep(x, Count)) < EndWeight(x)
  {
    assert Unsent(ServeStep(x, Count).tx) == Unsent(x.tx);
  }

  lemma TurnSpends(x: End, act: ServeAct)
    requires CanServe(x, act) && !act.Accept? && !act.Hand? && !act.Count? && !act.SayClose?
    ensures var x' := ServeStep(x, act);
      && ServeWeight(x'.tx) < ServeWeight(x.tx) && StatusWeight(x'.life) <= StatusWeight(x.life)
      && x'.loop == x.loop && x'.port == x.port && x'.rx == x.rx
  {
  }

  lemma ServeSpends(x: End, act: ServeAct)
    requires CanServe(x, act) && !act.Accept?
    ensures EndWeight(ServeStep(x, act)) < EndWeight(x)
  {
    match act {
      case Hand => HandSpends(x);
      case Count => CountSpends(x);
      case SayClose => WeightsAppend(x.port.queue, CloseFrame);
      case _ => TurnSpends(x, act);
    }
  }

  lemma HandleSpends(x: End, f: Frame)
    requires x.loop.Idle? && (x.life.table.Pending? ==> x.tx.pc.Dormant?)
    ensures EndWeight(Handle(x, f)) < EndWeight(x) + FrameWeight(f)
  {
  }

  lemma PipeSpends(x: End, y: End, n: nat)
    requires CanLoop(x, y, Pipe(n))
    ensures EndWeight(LoopStep(x, y, Pipe(n))) < EndWeight(x)
  {
    var x' := Absorb(x, x.loop.rest[..n]);
    assert ReceiverWeight(x'.rx) <= ReceiverWeight(x.rx) + STORED * n;
    assert StatusWeight(x'.life) <= StatusWeight(x.life);
  }

  lemma ConfirmSpends(x: End, y: End, act: LoopAct)
    requires CanLoop(x, y, act) && (act.Deposit? || act.Merge? || act.Abandon?)
    ensures var x' := LoopStep(x, y, act);
      && LoopWeight(x'.loop) + ServeWeight(x'.tx) < LoopWeight(x.loop) + ServeWeight(x.tx)
      && StatusWeight(x'.life) <= StatusWeight(x.life) && x'.port == x.port && x'.rx == x.rx
  {
    assert Unsent(LoopStep(x, y, act).tx) == Unsent(x.tx);
  }

  lemma LoopSpends(x: End, y: End, act: LoopAct)
    requires CanLoop(x, y, act) && !act.Receive?
    ensures EndWeight(LoopStep(x, y, act)) < EndWeight(x)
  {
    match act {
      case Pipe(n) => PipeSpends(x, y, n);
      case Reject => WeightsAppend(x.port.queue, CloseFrame);
      case _ => ConfirmSpends(x, y, act);
    }
  }

  lemma MoveSpends(x: End, act: PortAct)
    requires CanMove(x, act)
    ensures EndWeight(Move(x, act)) < EndWeight(x)
  {
    match act
    case Flush => WeightsAppend(x.port.transit, x.port.queue[0]);
    case Reply => WeightsAppend(x.port.queue, OpenedFrame);
  }

  lemma AckSpends(x: End, act: AckAct)
    requires CanAck(x, act)
    ensures EndWeight(AckStep(x, act)) < EndWeight(x)
  {
    if act.Emit? { WeightsAppend(x.port.queue, ConfirmFrame(AckSize(x.rx.ack.n))); }
  }

  lemma StepSpends(x: End, y: End, act: Action)
    requires Can(x, y, act) && (act.Serving? ==> !act.serve.Accept?)
    requires x.life.table.Pending? ==> x.tx.pc.Dormant?
    ensures EndWeight(Do(x, y, act)) + EndWeight(Peer(x, y, act)) < EndWeight(x) + EndWeight(y)
  {
    match act
    case Using(u) => UseSpends(x, u);
    case Serving(s) => ServeSpends(x, s);
    case Looping(l) =>
      if l.Receive? {
        HandleSpends(x, y.port.transit[0]);
        assert EndWeight(Taken(y)) + FrameWeight(y.port.transit[0]) == EndWeight(y);
      } else {
        LoopSpends(x, y, l);
      }
    case Moving(m) => MoveSpends(x, m);
    case Acking(a) => AckSpends(x, a);
  }

  function Weight(s: Link): nat {
    EndWeight(s.a) + EndWeight(s.b)
  }

  /** What a step may add to the number of steps still possible: nothing, or what a buffer pays for. */
  function Allowance(act: Action): nat {
    if act.Serving? && act.serve.Accept? then UNSENT * |act.serve.data| + 2 else 0
  }

  function Allowances(run: seq<Event>): nat {
    if run == [] then 0 else Allowance(run[0].act) + Allowances(run[1..])
  }

  lemma AcceptSpends(x: End, data: seq<byte>)
    requires CanServe(x, Accept(data))
    ensures EndWeight(ServeStep(x, Accept(data))) == EndWeight(x) + UNSENT * |data| + 1
  {
  }

  lemma EventSpends(s: Link, e: Event)
    requires Sound(s.a, s.b) && Enabled(s, e)
    ensures Weight(Step(s, e)) + 1 <= Weight(s) + Allowance(e.act)
  {
    var x, y := if e.left then s.a else s.b, if e.left then s.b else s.a;
    if e.act.Serving? && e.act.serve.Accept? {
      AcceptSpends(x, e.act.serve.data);
    } else {
      StepSpends(x, y, e.act);
    }
  }

  /**
   * No run is longer than what the buffers accepted in it pay for, wherever it starts; so without
   * new buffers every schedule of all the goroutines comes to rest.
   */
  lemma {:induction false} RunsEnd(s: Link, run: seq<Event>)
    requires Sound(s.a, s.b) && Possible(s, run)
    ensures |run| + Weight(After(s, run)) <= Weight(s) + Allowances(run)
    decreases |run|
  {
    if run != [] {
      EventSpends(s, run[0]);
      EventKeeps(s, run[0]);
      RunsEnd(Step(s, run[0]), run[1..]);
    }
  }

  /** End `x` can do nothing unless its application writes, closes or reads. */
  ghost predicate Still(x: End, y: End) {
    forall act | Can(x, y, act) ::
      match act
      case Serving(Accept(_)) => true
      case Using(u) => u.Read? || u.Shut?
      case _ => false
  }

  lemma PortRests(x: End, y: End)
    requires Still(x, y)
    ensures x.port.queue == [] && !x.life.replyDue
  {
    assert !Can(x, y, Moving(Flush));
    assert !Can(x, y, Moving(Reply));
  }

  lemma LoopRests(x: End, y: End)
    requires Still(x, y) && SenderOk(x)
    ensures x.loop.Idle? && y.port.transit == []
  {
    PortRests(x, y);
    if x.loop.Piping? { assert Can(x, y, Looping(Pipe(1))); }
    assert !Can(x, y, Looping(Deposit));
    assert !Can(x, y, Looping(Merge));
    assert !Can(x, y, Looping(Reject));
    assert !Can(x, y, Looping(Receive));
  }

  lemma ServeRests(x: End, y: End)
    requires Still(x, y) && SenderOk(x) && !x.life.closed
    ensures x.tx.pc.Dormant? || (x.tx.pc.Choose? && x.tx.slot.None?)
  {
    PortRests(x, y);
    assert !Can(x, y, Serving(TakeConfirm));
    assert !Can(x, y, Serving(ApplyConfirm));
    assert !Can(x, y, Serving(FlowState.Rest));
    assert !Can(x, y, Serving(Hand));
    assert !Can(x, y, Serving(Count));
  }

  lemma AckRests(x: End, y: End)
    requires Still(x, y) && Local(x) && !x.life.closed
    ensures x.rx.ack.Waiting? && x.rx.acks == [] && x.rx.hand == []
  {
    PortRests(x, y);
    assert !Can(x, y, Acking(Collect));
    assert !Can(x, y, Acking(Gather));
    assert !Can(x, y, Acking(Ready));
    assert !Can(x, y, Acking(Emit));
    assert !Can(x, y, Acking(Settle));
    assert !Can(x, y, Acking(Finish));
    assert !Can(x, y, Using(Return(0)));
  }

  /** Neither end has closed or removed the channel, and the sender has not reported overflow. */
  ghost predicate Healthy(x: End, y: End) {
    x.life.table.Open? && y.life.table.Open? && !x.life.closed && !y.life.closed && !x.life.overflowed
  }

  /** When all goroutines rest, the only bytes `Serve` is owed credit for are in the peer's ring. */
  lemma AtRest(x: End, y: End)
    requires Sound(x, y) && Still(x, y) && Still(y, x) && Healthy(x, y)
    ensures x.tx.writed == |y.rx.ring| + |y.log.missed|
    ensures x.tx.leftover != [] ==> |y.rx.ring| + |y.log.missed| == y.window
    ensures Underway(x, y) == x.tx.leftover
  {
    PortRests(x, y);
    PortRests(y, x);
    LoopRests(x, y);
    LoopRests(y, x);
    ServeRests(x, y);
    AckRests(y, x);
  }
}
