/**
 * Order. At every moment the bytes a `Serve` accepted are, in order: the ones that reached the
 * peer before it had the channel, the ones its `Read` returned, the ones in its ring, the ones it
 * discarded after closing, the ones on their way, and the ones not sent yet.
 */
module FlowOrder {
  import opened Bytes
  import opened FlowState
  import opened FlowLedger

  function Unsent(tx: Sender): seq<byte> {
    if tx.pc.Handed? && tx.pc.size <= |tx.leftover| then tx.leftover[tx.pc.size..] else tx.leftover
  }

  /** The bytes from `x` that have been taken off the wire at `y`, in order. */
  function Arrived(y: End): seq<byte> {
    y.log.missed + y.log.delivered + y.rx.ring + y.log.voided
  }

  /** The bytes from `x` that the chunk loop of `y` has not dealt with, in order. */
  function Underway(x: End, y: End): seq<byte> {
    Piped(y.loop) + Flight(x.port) + Unsent(x.tx)
  }

  ghost predicate Ordered(x: End, y: End) {
    x.log.accepted == Arrived(y) + Underway(x, y)
  }

  lemma ReadKeepsArrived<T>(before: seq<T>, ring: seq<T>, after: seq<T>, k: nat)
    requires k <= |ring|
    ensures (before + ring[..k]) + ring[k..] + after == before + ring + after
  {
    assert ring == ring[..k] + ring[k..];
  }

  lemma UseKeepsArrived(x: End, act: UserAct)
    requires CanUse(x, act)
    ensures Arrived(Use(x, act)) == Arrived(x)
  {
    if act.Read? {
      ReadKeepsArrived(x.log.missed + x.log.delivered, x.rx.ring, x.log.voided, act.k);
      Regroup(x.log.missed, x.log.delivered, x.rx.ring[..act.k]);
    }
  }

  lemma UseKeepsOrder(x: End, y: End, act: UserAct)
    requires CanUse(x, act)
    ensures Arrived(Use(x, act)) == Arrived(x)
    ensures Underway(y, Use(x, act)) == Underway(y, x) && Underway(Use(x, act), y) == Underway(x, y)
  {
    UseKeepsArrived(x, act);
  }

  lemma AcceptKeepsOrder(x: End, y: End, data: seq<byte>)
    requires CanServe(x, Accept(data)) && Ordered(x, y)
    ensures Ordered(ServeStep(x, Accept(data)), y)
  {
    var next := ServeStep(x, Accept(data));
    assert Unsent(x.tx) == [] && Unsent(next.tx) == data;
    assert Underway(x, y) + data == Underway(next, y);
    Regroup(Arrived(y), Underway(x, y), data);
  }

  /** Handing a frame over moves its payload from what is not sent to what is on its way. */
  lemma HandKeepsOrder(x: End, y: End)
    requires CanServe(x, Hand) && Ordered(x, y)
    ensures Ordered(ServeStep(x, Hand), y)
  {
    var next := ServeStep(x, Hand);
    var size := NextSize(|x.tx.leftover|, x.remote - x.tx.writed);
    var payload := x.tx.leftover[..size];
    PayloadAppend(x.port.queue, WriteFrame(payload));
    assert x.tx.leftover == payload + x.tx.leftover[size..];
    assert Flight(next.port) == Flight(x.port) + payload;
    Regroup(Flight(x.port), payload, x.tx.leftover[size..]);
    Regroup(Piped(y.loop), Flight(x.port), x.tx.leftover);
    Regroup(Piped(y.loop), Flight(next.port), x.tx.leftover[size..]);
  }

  lemma ServeKeepsOrder(x: End, y: End, act: ServeAct)
    requires Sound(x, y) && CanServe(x, act)
    requires Ordered(x, y)
    ensures Ordered(ServeStep(x, act), y)
  {
    match act {
      case Accept(data) => AcceptKeepsOrder(x, y, data);
      case Hand => HandKeepsOrder(x, y);
      case SayClose => PayloadAppend(x.port.queue, CloseFrame);
      case _ =>
    }
  }

  /** `x'` has accepted, sent and left to send what `x` has. */
  ghost predicate SameSending(x: End, x': End) {
    x'.log.accepted == x.log.accepted && Flight(x'.port) == Flight(x.port) && Unsent(x'.tx) == Unsent(x.tx)
  }

  lemma PushKeepsSending(x: End, f: Frame)
    ensures f.WriteFrame? || Flight(Push(x.port, f)) == Flight(x.port)
  {
    PayloadAppend(x.port.queue, f);
  }

  lemma HandleKeepsSending(x: End, f: Frame)
    requires x.life.table.Pending? ==> x.tx.pc.Dormant?
    ensures SameSending(x, Handle(x, f))
  {
  }

  lemma AbsorbKeepsSending(x: End, chunk: seq<byte>)
    ensures SameSending(x, Absorb(x, chunk))
  {
  }

  lemma LoopKeepsSending(x: End, y: End, act: LoopAct)
    requires CanLoop(x, y, act) && (x.life.table.Pending? ==> x.tx.pc.Dormant?)
    ensures SameSending(x, LoopStep(x, y, act))
  {
    match act
    case Receive => HandleKeepsSending(x, y.port.transit[0]);
    case Pipe(n) => AbsorbKeepsSending(x, x.loop.rest[..n]);
    case Reject => PushKeepsSending(x, CloseFrame);
    case _ =>
  }

  lemma MoveKeepsSending(x: End, act: PortAct)
    requires CanMove(x, act)
    ensures SameSending(x, Move(x, act))
  {
    match act
    case Flush => PayloadAppend(x.port.transit, x.port.queue[0]);
    case Reply => PushKeepsSending(x, OpenedFrame);
  }

  lemma AckKeepsSending(x: End, act: AckAct)
    requires CanAck(x, act)
    ensures SameSending(x, AckStep(x, act))
  {
    if act.Emit? { PushKeepsSending(x, ConfirmFrame(AckSize(x.rx.ack.n))); }
  }

  /** The order of data from the acting end survives. */
  lemma SendingKeepsOrder(x: End, y: End, act: Action)
    requires Sound(x, y) && Can(x, y, act) && Ordered(x, y)
    ensures Ordered(Do(x, y, act), Peer(x, y, act))
  {
    match act
    case Using(u) => assert SameSending(x, Use(x, u));
    case Serving(s) => ServeKeepsOrder(x, y, s);
    case Looping(l) => LoopKeepsSending(x, y, l);
    case Moving(m) => MoveKeepsSending(x, m);
    case Acking(a) => AckKeepsSending(x, a);
  }

  lemma AbsorbKeepsOrder(x: End, chunk: seq<byte>)
    requires Local(x)
    requires |x.rx.ring| + |chunk| <= x.window
    ensures Arrived(Absorb(x, chunk)) == Arrived(x) + chunk
  {
  }

  lemma ReceiveKeepsOrder(x: End, y: End)
    requires CanLoop(x, y, Receive) && Ordered(y, x)
    ensures Ordered(Taken(y), Handle(x, y.port.transit[0]))
  {
    var x' := Handle(x, y.port.transit[0]);
    assert Underway(y, x) == Underway(Taken(y), x');
    assert Arrived(x') == Arrived(x);
  }

  lemma MoveChunk<T>(arrived: seq<T>, chunk: seq<T>, rest: seq<T>, flight: seq<T>, unsent: seq<T>)
    ensures arrived + ((chunk + rest) + flight + unsent) == (arrived + chunk) + (rest + flight + unsent)
  {
  }

  lemma AbsorbArrives(x: End, y: End, n: nat)
    requires Local(x) && CanLoop(x, y, Pipe(n))
    requires |x.rx.ring| + |x.loop.rest| <= x.window
    ensures var x' := LoopStep(x, y, Pipe(n));
      Arrived(x') == Arrived(x) + x.loop.rest[..n] && Piped(x'.loop) == x.loop.rest[n..]
  {
    AbsorbKeepsOrder(x, x.loop.rest[..n]);
  }

  lemma PipeKeepsOrder(x: End, y: End, n: nat)
    requires Sound(x, y) && CanLoop(x, y, Pipe(n)) && Ordered(y, x)
    ensures Ordered(y, LoopStep(x, y, Pipe(n)))
  {
    var chunk, rest := x.loop.rest[..n], x.loop.rest[n..];
    FitsPeer(y, x);
    AbsorbArrives(x, y, n);
    assert x.loop.rest == chunk + rest;
    MoveChunk(Arrived(x), chunk, rest, Flight(y.port), Unsent(y.tx));
  }

  lemma LoopKeepsOrder(x: End, y: End, act: LoopAct)
    requires CanLoop(x, y, act) && Ordered(y, x) && !act.Receive? && !act.Pipe?
    ensures Ordered(y, LoopStep(x, y, act))
  {
  }

  lemma ServeKeepsArrived(x: End, y: End, act: ServeAct)
    requires CanServe(x, act) && Ordered(y, x)
    ensures Ordered(y, ServeStep(x, act))
  {
  }

  lemma AckKeepsArrived(x: End, y: End, act: AckAct)
    requires CanAck(x, act) && Ordered(y, x)
    ensures Ordered(y, AckStep(x, act))
  {
  }

  /** The order of data towards the acting end survives. */
  lemma ReceivingKeepsOrder(x: End, y: End, act: Action)
    requires Sound(x, y) && Can(x, y, act) && Ordered(y, x)
    ensures Ordered(Peer(x, y, act), Do(x, y, act))
  {
    match act
    case Using(u) => UseKeepsOrder(x, y, u);
    case Serving(s) => ServeKeepsArrived(x, y, s);
    case Looping(l) =>
      match l {
        case Receive => ReceiveKeepsOrder(x, y);
        case Pipe(n) => PipeKeepsOrder(x, y, n);
        case _ => LoopKeepsOrder(x, y, l);
      }
    case Moving(m) => assert Arrived(Move(x, m)) == Arrived(x);
    case Acking(a) => AckKeepsArrived(x, y, a);
  }
}
