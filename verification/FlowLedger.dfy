/**
 * Credit conservation. What `Serve` has spent and not got back is, byte for byte, either payload
 * on its way, bytes the peer has not read, credit on its way back, or an entry in an explicit
 * account of losses; and the losses stay empty until a close, an overflow report, or data sent
 * ahead of the Create reply.
 */
module FlowLedger {
  import opened Bytes
  import opened FlowState

  function Payload(frames: seq<Frame>): seq<byte> {
    if frames == [] then []
    else (if frames[0].WriteFrame? then frames[0].payload else []) + Payload(frames[1..])
  }

  function Credit(frames: seq<Frame>): nat {
    if frames == [] then 0
    else (if frames[0].ConfirmFrame? then frames[0].size else 0) + Credit(frames[1..])
  }

  lemma {:induction false} PayloadAppend(frames: seq<Frame>, f: Frame)
    ensures Payload(frames + [f]) == Payload(frames) + (if f.WriteFrame? then f.payload else [])
    ensures Credit(frames + [f]) == Credit(frames) + (if f.ConfirmFrame? then f.size else 0)
  {
    if frames == [] {
      assert frames + [f] == [f];
      assert Payload([f][1..]) == [];
    } else {
      assert (frames + [f])[1..] == frames[1..] + [f];
      PayloadAppend(frames[1..], f);
    }
  }

  /** Payload bytes sent through `p` that the peer's transport loop has not read. */
  function Flight(p: Port): seq<byte> {
    Payload(p.transit) + Payload(p.queue)
  }

  function CreditIn(p: Port): nat {
    Credit(p.transit) + Credit(p.queue)
  }

  function Piped(loop: LoopPc): seq<byte> {
    if loop.Piping? then loop.rest else []
  }

  /** Bytes handed to the queue that `writed` does not count yet. */
  function Uncounted(tx: Sender): nat {
    if tx.pc.Handed? then tx.pc.size else 0
  }

  function Gathered(ack: AckPc): nat {
    match ack
    case Waiting => 0
    case Gathering(n) => n
    case Emitting(n) => n
    case Emitted(n, sent) => if sent <= n then n - sent else 0
    case Returned(n) => n
  }

  /** Bytes that reached the ring and have not been confirmed. */
  function Unconfirmed(rx: Receiver): nat {
    |rx.ring| + Sum(rx.hand) + Sum(rx.acks) + Gathered(rx.ack)
  }

  function Merging(loop: LoopPc): nat {
    if loop.Confirming? then loop.value else 0
  }

  /** Credit in the mailbox, or taken by `Serve` and not applied. */
  function Mailed(tx: Sender): nat {
    (if tx.slot.Some? then tx.slot.value else 0) + (if tx.pc.Apply? then tx.pc.confirm else 0)
  }

  /** Credit for data from `x` to `y` that will never come back. */
  function Lost(x: End, y: End): nat {
    |y.log.missed| + |y.log.voided| + y.log.forgotten + x.log.wasted
  }

  /** What `x` has spent and is not on its way to the peer, in its own hands again, or wasted there. */
  function Outstanding(x: End): int {
    x.tx.writed + Uncounted(x.tx) - |Flight(x.port)| - Merging(x.loop) - Mailed(x.tx) - x.log.wasted
  }

  /** What `y` has received and not confirmed, or lost, or confirmed by frames still on their way. */
  function Owed(y: End): int {
    |Piped(y.loop)| + Unconfirmed(y.rx) + CreditIn(y.port) + |y.log.missed| + |y.log.voided| + y.log.forgotten
  }

  /** The account for data from `x` to `y`. */
  ghost predicate Balanced(x: End, y: End) {
    Outstanding(x) == Owed(y)
  }

  ghost predicate SenderOk(x: End) {
    && x.tx.writed + Uncounted(x.tx) <= x.remote
    && (x.tx.pc.Handed? ==> 0 < x.tx.pc.size <= |x.tx.leftover|)
    && (x.tx.pc.Choose? ==> x.tx.leftover == [] || x.tx.writed == x.remote)
    && (x.tx.pc.Leaving? || x.tx.pc.Farewell? || x.tx.pc.Left? ==> x.life.closed)
    && (x.rx.ack.Emitted? ==> 0 < x.rx.ack.sent <= x.rx.ack.n)
    && (x.loop.Piping? ==> x.loop.rest != [])
  }

  ghost predicate StatusOk(x: End) {
    && (x.life.sealed ==> x.life.closed)
    && (x.life.replyDue ==> x.server)
    && (x.tx.pc.Farewell? || x.tx.pc.Left? ==> x.life.table.Gone?)
    && (x.rx.ack.Returned? ==> x.life.closed)
    && (x.life.table.Pending? <==> x.tx.pc.Dormant? && !x.life.table.Gone?)
    && (x.tx.pc.Dormant? ==> !x.server && !x.life.closed && x.tx.leftover == [] && x.tx.writed == 0
                             && !x.loop.Confirming? && x.rx.ring == []
                             && x.log.delivered == [] && x.log.accepted == [])
    && (x.life.table.Pending? ==> x.log.voided == [])
    && (x.life.table.Gone? ==> x.tx.pc.Dormant? || x.life.closed)
  }

  /** Every loss has a cause. */
  ghost predicate LossOk(x: End) {
    && (x.log.missed != [] ==> !x.server)
    && (x.log.voided != [] ==> x.life.sealed || x.life.table.Gone?)
    && (x.log.forgotten > 0 ==> x.life.closed)
    && (x.log.wasted > 0 ==> x.life.closed || x.life.overflowed || !x.life.table.Open?)
  }

  ghost predicate Local(x: End) {
    SenderOk(x) && StatusOk(x) && LossOk(x)
  }

  ghost predicate Sound(x: End, y: End) {
    && x.remote == y.window && y.remote == x.window
    && Local(x) && Local(y)
    && Balanced(x, y) && Balanced(y, x)
  }

  /** Nothing `y` is asked to hold exceeds its ring, and no credit comes back that was not spent. */
  lemma FitsPeer(x: End, y: End)
    requires Sound(x, y)
    ensures |Flight(x.port)| + |Piped(y.loop)| + |y.rx.ring| <= y.window
    ensures Merging(x.loop) + Mailed(x.tx) <= x.tx.writed + Uncounted(x.tx) <= x.remote
    ensures x.tx.pc.Apply? ==> x.tx.pc.confirm <= x.tx.writed
  {
  }

  // Each goroutine in turn. Most steps of an end keep its side of both accounts.

  ghost predicate SameAccounts(x: End, x': End) {
    Outstanding(x') == Outstanding(x) && Owed(x') == Owed(x)
  }

  lemma AccountsKeep(x: End, y: End, x': End)
    requires Sound(x, y) && SameAccounts(x, x') && Local(x') && x'.remote == x.remote && x'.window == x.window
    ensures Sound(x', y)
  {
  }

  lemma PushMoves(p: Port, f: Frame)
    ensures |Flight(Push(p, f))| == |Flight(p)| + (if f.WriteFrame? then |f.payload| else 0)
    ensures CreditIn(Push(p, f)) == CreditIn(p) + (if f.ConfirmFrame? then f.size else 0)
  {
    PayloadAppend(p.queue, f);
  }

  lemma FlushMoves(p: Port)
    requires p.queue != []
    ensures var q := Port(p.queue[1..], p.transit + [p.queue[0]]);
      |Flight(q)| == |Flight(p)| && CreditIn(q) == CreditIn(p)
  {
    PayloadAppend(p.transit, p.queue[0]);
  }

  lemma PopMoves(p: Port)
    requires p.transit != []
    ensures var q, f := Port(p.queue, p.transit[1..]), p.transit[0];
      && |Flight(q)| + (if f.WriteFrame? then |f.payload| else 0) == |Flight(p)|
      && CreditIn(q) + (if f.ConfirmFrame? then f.size else 0) == CreditIn(p)
  {
  }

  lemma ReturnKeepsAccounts(x: End, i: nat)
    requires CanUse(x, Return(i))
    ensures SameAccounts(x, Use(x, Return(i)))
  {
    SumRemove(x.rx.hand, i);
    SumAppend(x.rx.acks, [x.rx.hand[i]]);
  }

  lemma UseKeeps(x: End, y: End, act: UserAct)
    requires Sound(x, y) && CanUse(x, act)
    ensures Sound(Use(x, act), y)
  {
    match act {
      case Read(k) => SumAppend(x.rx.hand, [k]);
      case Return(i) => ReturnKeepsAccounts(x, i);
      case Forget(i) => SumRemove(x.rx.hand, i);
      case _ =>
    }
    AccountsKeep(x, y, Use(x, act));
  }

  lemma ServeKeepsLocal(x: End, y: End, act: ServeAct)
    requires Sound(x, y) && CanServe(x, act)
    ensures Local(ServeStep(x, act))
  {
    FitsPeer(x, y);
  }

  lemma HandKeepsAccounts(x: End)
    requires CanServe(x, Hand)
    ensures SameAccounts(x, ServeStep(x, Hand))
  {
    PushMoves(x.port, WriteFrame(x.tx.leftover[..NextSize(|x.tx.leftover|, x.remote - x.tx.writed)]));
  }

  lemma ServeKeepsAccounts(x: End, act: ServeAct)
    requires SenderOk(x) && CanServe(x, act)
    ensures SameAccounts(x, ServeStep(x, act))
  {
    match act
    case Hand => HandKeepsAccounts(x);
    case SayClose => PushMoves(x.port, CloseFrame);
    case _ =>
  }

  function Taken(y: End): End
    requires y.port.transit != []
  {
    y.(port := y.port.(transit := y.port.transit[1..]))
  }

  lemma HandleKeepsLocal(x: End, f: Frame)
    requires Local(x) && x.loop.Idle?
    requires x.tx.pc.Dormant? ==> x.log.wasted == 0
    ensures Local(Handle(x, f))
  {
  }

  /** Handling a frame only moves its payload or its credit into the loop. */
  lemma WriteMoves(x: End, payload: seq<byte>)
    requires x.loop.Idle?
    ensures Outstanding(Handle(x, WriteFrame(payload))) == Outstanding(x)
    ensures Owed(Handle(x, WriteFrame(payload))) == Owed(x) + |payload|
  {
  }

  lemma ConfirmMoves(x: End, size: nat)
    requires x.loop.Idle?
    ensures Outstanding(Handle(x, ConfirmFrame(size))) == Outstanding(x) - size
    ensures Owed(Handle(x, ConfirmFrame(size))) == Owed(x)
  {
  }

  lemma SignalMoves(x: End, f: Frame)
    requires x.loop.Idle? && (x.life.table.Pending? ==> x.tx.pc.Dormant?) && (f.CloseFrame? || f.OpenedFrame?)
    ensures SameAccounts(x, Handle(x, f))
  {
  }

  lemma HandleMoves(x: End, f: Frame)
    requires x.loop.Idle? && (x.life.table.Pending? ==> x.tx.pc.Dormant?)
    ensures Outstanding(Handle(x, f)) == Outstanding(x) - if f.ConfirmFrame? then f.size else 0
    ensures Owed(Handle(x, f)) == Owed(x) + if f.WriteFrame? then |f.payload| else 0
  {
    match f
    case WriteFrame(payload) => WriteMoves(x, payload);
    case ConfirmFrame(size) => ConfirmMoves(x, size);
    case _ => SignalMoves(x, f);
  }

  lemma TakenMoves(y: End)
    requires Local(y) && y.port.transit != []
    ensures var f := y.port.transit[0];
      && Outstanding(Taken(y)) == Outstanding(y) + (if f.WriteFrame? then |f.payload| else 0)
      && Owed(Taken(y)) == Owed(y) - if f.ConfirmFrame? then f.size else 0
    ensures Local(Taken(y))
  {
    PopMoves(y.port);
  }

  lemma HandleKeepsWindows(x: End, f: Frame)
    ensures Handle(x, f).remote == x.remote && Handle(x, f).window == x.window
  {
  }

  lemma TakenBalance(x: End, y: End, x': End, y': End)
    requires Sound(x, y) && y.port.transit != []
    requires var f := y.port.transit[0];
      && Outstanding(x') == Outstanding(x) - (if f.ConfirmFrame? then f.size else 0)
      && Owed(x') == Owed(x) + (if f.WriteFrame? then |f.payload| else 0)
      && Outstanding(y') == Outstanding(y) + (if f.WriteFrame? then |f.payload| else 0)
      && Owed(y') == Owed(y) - (if f.ConfirmFrame? then f.size else 0)
    requires Local(x') && Local(y') && x'.remote == x.remote && x'.window == x.window
    requires y'.remote == y.remote && y'.window == y.window
    ensures Sound(x', y')
  {
  }

  lemma ReceiveKeeps(x: End, y: End)
    requires Sound(x, y) && CanLoop(x, y, Receive)
    ensures Sound(LoopStep(x, y, Receive), Taken(y))
  {
    var f := y.port.transit[0];
    HandleKeepsLocal(x, f);
    HandleMoves(x, f);
    HandleKeepsWindows(x, f);
    TakenMoves(y);
    TakenBalance(x, y, Handle(x, f), Taken(y));
  }

  lemma AbsorbKeeps(x: End, chunk: seq<byte>)
    requires Local(x) && x.loop.Piping? && |chunk| <= |x.loop.rest|
    requires |x.rx.ring| + |Piped(x.loop)| <= x.window
    ensures Local(Absorb(x, chunk))
    ensures Outstanding(Absorb(x, chunk)) == Outstanding(x) && Owed(Absorb(x, chunk)) == Owed(x) + |chunk|
  {
  }

  lemma PipeKeepsAccounts(x: End, y: End, n: nat)
    requires Local(x) && CanLoop(x, y, Pipe(n)) && |x.rx.ring| + |Piped(x.loop)| <= x.window
    ensures SameAccounts(x, LoopStep(x, y, Pipe(n))) && Local(LoopStep(x, y, Pipe(n)))
  {
    AbsorbKeeps(x, x.loop.rest[..n]);
  }

  lemma PipeKeeps(x: End, y: End, n: nat)
    requires Sound(x, y) && CanLoop(x, y, Pipe(n))
    ensures Sound(LoopStep(x, y, Pipe(n)), y)
  {
    FitsPeer(y, x);
    PipeKeepsAccounts(x, y, n);
    AccountsKeep(x, y, LoopStep(x, y, Pipe(n)));
  }

  lemma ConfirmKeepsLocal(x: End, y: End, act: LoopAct)
    requires Local(x) && CanLoop(x, y, act) && !act.Receive? && !act.Pipe?
    ensures Local(LoopStep(x, y, act))
  {
  }

  lemma ConfirmKeepsAccounts(x: End, y: End, act: LoopAct)
    requires CanLoop(x, y, act) && !act.Receive? && !act.Pipe?
    ensures SameAccounts(x, LoopStep(x, y, act))
  {
    if act.Reject? { PushMoves(x.port, CloseFrame); }
  }

  lemma ConfirmKeeps(x: End, y: End, act: LoopAct)
    requires Sound(x, y) && CanLoop(x, y, act) && !act.Receive? && !act.Pipe?
    ensures Sound(LoopStep(x, y, act), y)
  {
    ConfirmKeepsLocal(x, y, act);
    ConfirmKeepsAccounts(x, y, act);
    AccountsKeep(x, y, LoopStep(x, y, act));
  }

  lemma MoveKeeps(x: End, y: End, act: PortAct)
    requires Sound(x, y) && CanMove(x, act)
    ensures Sound(Move(x, act), y)
  {
    match act {
      case Flush => FlushMoves(x.port);
      case Reply => PushMoves(x.port, OpenedFrame);
    }
    AccountsKeep(x, y, Move(x, act));
  }

  lemma AckKeepsAccounts(x: End, act: AckAct)
    requires CanAck(x, act)
    ensures SameAccounts(x, AckStep(x, act))
  {
    if act.Emit? { PushMoves(x.port, ConfirmFrame(AckSize(x.rx.ack.n))); }
  }

  lemma AckKeepsLocal(x: End, act: AckAct)
    requires Local(x) && CanAck(x, act)
    ensures Local(AckStep(x, act))
  {
  }

  lemma AckKeeps(x: End, y: End, act: AckAct)
    requires Sound(x, y) && CanAck(x, act)
    ensures Sound(AckStep(x, act), y)
  {
    AckKeepsAccounts(x, act);
    AckKeepsLocal(x, act);
    AccountsKeep(x, y, AckStep(x, act));
  }

  lemma ServeKeeps(x: End, y: End, act: ServeAct)
    requires Sound(x, y) && CanServe(x, act)
    ensures Sound(ServeStep(x, act), y)
  {
    ServeKeepsLocal(x, y, act);
    ServeKeepsAccounts(x, act);
    AccountsKeep(x, y, ServeStep(x, act));
  }

  lemma LoopKeeps(x: End, y: End, act: LoopAct)
    requires Sound(x, y) && CanLoop(x, y, act)
    ensures Sound(LoopStep(x, y, act), Peer(x, y, Looping(act)))
  {
    match act
    case Receive => ReceiveKeeps(x, y);
    case Pipe(n) => PipeKeeps(x, y, n);
    case _ => ConfirmKeeps(x, y, act);
  }

  lemma StepKeeps(x: End, y: End, act: Action)
    requires Sound(x, y) && Can(x, y, act)
    ensures Sound(Do(x, y, act), Peer(x, y, act))
  {
    match act
    case Using(u) => UseKeeps(x, y, u);
    case Serving(s) => ServeKeeps(x, y, s);
    case Looping(l) => LoopKeeps(x, y, l);
    case Moving(m) => MoveKeeps(x, y, m);
    case Acking(a) => AckKeeps(x, y, a);
  }

  lemma EventKeeps(s: Link, e: Event)
    requires Sound(s.a, s.b) && Enabled(s, e)
    ensures Sound(Step(s, e).a, Step(s, e).b)
  {
    if e.left { StepKeeps(s.a, s.b, e.act); } else { StepKeeps(s.b, s.a, e.act); }
  }
}
