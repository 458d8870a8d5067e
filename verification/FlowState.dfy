/**
 * One channel seen as a protocol: two `ioChannel`s, the transport loop that feeds each of them,
 * and the two frame queues between them (channel.go, base_transport.go, server_transport.go,
 * client_transport.go). Every goroutine of an end is a program counter; an `Action` is the work
 * one goroutine does between two points where another one can run.
 */
module FlowState {
  import opened Bytes

  /** The frames of one channel; the channel id is the same in all of them. */
  datatype Frame =
    | WriteFrame(payload: seq<byte>)
    | ConfirmFrame(size: nat)
    | CloseFrame
    | OpenedFrame // the server's Create reply with code 0

  /** The entry of this channel in an end's `keys` table. */
  datatype Table = Pending | Open | Gone

  /** `ioChannel.Serve`. `Dormant`: the client has not created the channel object yet. */
  datatype ServePc =
    | Dormant
    | Choose
    | Apply(confirm: nat)
    | Pump
    | Handed(size: nat) // the frame is in the queue, `writed += size` is still to come
    | Leaving
    | Farewell
    | Left

  /** The transport loop, as far as this channel is concerned. */
  datatype LoopPc =
    | Idle
    | Piping(rest: seq<byte>) // the chunk loop of a Write frame
    | Confirming(value: nat)  // inside `ioChannel.Confirm`
    | Closing                 // inside `sendClose`

  /** `ioChannel.serveConfirm`. `Returned`: it is over, with a count it had taken and not confirmed. */
  datatype AckPc =
    | Waiting
    | Gathering(n: nat)
    | Emitting(n: nat)
    | Emitted(n: nat, sent: nat) // the frame is in the queue, `confirmed -= ok` is still to come
    | Returned(n: nat)

  /** `Serve` with its variables `b` and `writed` and the mailbox `confirm`. */
  datatype Sender = Sender(pc: ServePc, leftover: seq<byte>, writed: nat, slot: Option<nat>)

  /** Frames in the queue `ch`, and frames on the TCP connection the peer has not read. */
  datatype Port = Port(queue: seq<Frame>, transit: seq<Frame>)

  /** The ring, counts held by `Read` calls, the channel `sendConfirm`, and `serveConfirm`. */
  datatype Receiver = Receiver(ring: seq<byte>, hand: seq<nat>, acks: seq<nat>, ack: AckPc)

  /** `sealed` is the `closed` flag of the pipe; `replyDue`: the Create reply is not posted yet. */
  datatype Status = Status(table: Table, closed: bool, sealed: bool, replyDue: bool, overflowed: bool)

  /** What has happened so far; no step reads it. */
  datatype History = History(
    accepted: seq<byte>,  // bytes `Serve` took from `Write`
    early: seq<byte>,     // payload queued before the Create reply was posted
    delivered: seq<byte>, // bytes `Read` returned
    missed: seq<byte>,    // payload that arrived before the channel existed here
    voided: seq<byte>,    // payload that arrived after it was closed or removed here
    forgotten: nat,       // read counts `Read` dropped because the channel was closed
    wasted: nat           // returned credit that never reached `Serve`
  )

  /** `window` is the capacity of this end's ring, `remote` its `remoteWindow`. */
  datatype End = End(
    server: bool, window: nat, remote: nat,
    tx: Sender, loop: LoopPc, port: Port, rx: Receiver, life: Status, log: History)

  datatype Link = Link(a: End, b: End)

  /** Calls of the application and what they set off. */
  datatype UserAct = Shut | Seal | Read(k: nat) | Return(i: nat) | Forget(i: nat)

  datatype ServeAct =
    Accept(data: seq<byte>) | TakeConfirm | ApplyConfirm | Rest | Hand | Count | Leave | Delete | SayClose

  datatype LoopAct = Receive | Pipe(n: nat) | Deposit | Merge | Abandon | Reject

  datatype PortAct = Flush | Reply

  datatype AckAct = Collect | Gather | Ready | Emit | Settle | Finish | Quit

  datatype Action =
    Using(user: UserAct) | Serving(serve: ServeAct) | Looping(loop: LoopAct) | Moving(port: PortAct) | Acking(ack: AckAct)

  const QUEUE_CAPACITY := 50
  const ACK_CAPACITY := 10

  /** Payload size of the next Write frame. */
  function NextSize(length: nat, available: nat): (size: nat)
    ensures size <= length && size <= available && size <= MAX_UINT16
    ensures length > 0 && available > 0 ==> size > 0
  {
    Min(Min(length, available), MAX_UINT16)
  }

  /** Value of the next Confirm frame. */
  function AckSize(confirmed: nat): (size: nat)
    ensures size <= confirmed && size <= MAX_UINT16
    ensures confirmed > 0 ==> size > 0
  {
    Min(confirmed, MAX_UINT16)
  }

  predicate HasRoom(p: Port) {
    |p.queue| < QUEUE_CAPACITY
  }

  function Push(p: Port, f: Frame): Port {
    p.(queue := p.queue + [f])
  }

  function Without(s: seq<nat>, i: nat): seq<nat>
    requires i < |s|
  {
    s[..i] + s[i + 1..]
  }

  // ---- application ----

  predicate CanUse(x: End, act: UserAct) {
    match act
    case Shut => !x.tx.pc.Dormant? && !x.life.closed
    case Seal => x.life.closed && !x.life.sealed
    case Read(k) => 0 < k <= |x.rx.ring|
    case Return(i) => i < |x.rx.hand| && |x.rx.acks| < ACK_CAPACITY
    case Forget(i) => i < |x.rx.hand| && x.life.closed
  }

  function Use(x: End, act: UserAct): End
    requires CanUse(x, act)
  {
    match act
    case Shut => x.(life := x.life.(closed := true))
    case Seal => x.(life := x.life.(sealed := true))
    case Read(k) =>
      x.(rx := x.rx.(ring := x.rx.ring[k..], hand := x.rx.hand + [k]),
         log := x.log.(delivered := x.log.delivered + x.rx.ring[..k]))
    case Return(i) =>
      x.(rx := x.rx.(hand := Without(x.rx.hand, i), acks := x.rx.acks + [x.rx.hand[i]]))
    case Forget(i) =>
      x.(rx := x.rx.(hand := Without(x.rx.hand, i)),
         log := x.log.(forgotten := x.log.forgotten + x.rx.hand[i]))
  }

  // ---- Serve ----

  predicate CanServe(x: End, act: ServeAct) {
    match act
    case Accept(data) => x.tx.pc.Choose? && x.tx.leftover == []
    case TakeConfirm => x.tx.pc.Choose? && x.tx.slot.Some?
    case ApplyConfirm => x.tx.pc.Apply?
    case Rest => x.tx.pc.Pump? && (x.tx.leftover == [] || x.remote <= x.tx.writed)
    case Hand => x.tx.pc.Pump? && x.tx.leftover != [] && x.tx.writed < x.remote && HasRoom(x.port)
    case Count => x.tx.pc.Handed? && x.tx.pc.size <= |x.tx.leftover|
    case Leave => (x.tx.pc.Choose? || x.tx.pc.Pump?) && x.life.closed
    case Delete => x.tx.pc.Leaving?
    case SayClose => x.tx.pc.Farewell? && HasRoom(x.port)
  }

  function ServeStep(x: End, act: ServeAct): End
    requires CanServe(x, act)
  {
    match act
    case Accept(data) =>
      x.(tx := x.tx.(pc := Pump, leftover := data), log := x.log.(accepted := x.log.accepted + data))
    case TakeConfirm => x.(tx := x.tx.(pc := Apply(x.tx.slot.value), slot := None))
    case ApplyConfirm =>
      if x.tx.writed < x.tx.pc.confirm then
        x.(tx := x.tx.(pc := Leaving), life := x.life.(closed := true),
           log := x.log.(wasted := x.log.wasted + x.tx.pc.confirm))
      else
        x.(tx := x.tx.(pc := Pump, writed := x.tx.writed - x.tx.pc.confirm))
    case Rest => x.(tx := x.tx.(pc := Choose))
    case Hand =>
      var size := NextSize(|x.tx.leftover|, x.remote - x.tx.writed);
      var payload := x.tx.leftover[..size];
      x.(tx := x.tx.(pc := Handed(size)), port := Push(x.port, WriteFrame(payload)),
         log := x.log.(early := x.log.early + if x.life.replyDue then payload else []))
    case Count =>
      var size := x.tx.pc.size;
      x.(tx := x.tx.(pc := Pump, writed := x.tx.writed + size, leftover := x.tx.leftover[size..]))
    case Leave => x.(tx := x.tx.(pc := Leaving))
    case Delete =>
      if x.life.table.Open? then x.(tx := x.tx.(pc := Farewell), life := x.life.(table := Gone))
      else x.(tx := x.tx.(pc := Left))
    case SayClose => x.(tx := x.tx.(pc := Left), port := Push(x.port, CloseFrame))
  }

  // ---- transport loop ----

  predicate CanLoop(x: End, y: End, act: LoopAct) {
    match act
    case Receive => x.loop.Idle? && y.port.transit != []
    case Pipe(n) => x.loop.Piping? && 0 < n <= |x.loop.rest|
    case Deposit => x.loop.Confirming? && x.tx.slot.None?
    case Merge => x.loop.Confirming? && x.tx.slot.Some?
    case Abandon => x.loop.Confirming? && x.life.closed
    case Reject => x.loop.Closing? && HasRoom(x.port)
  }

  /** What the transport loop does first with frame `f`. */
  function Handle(x: End, f: Frame): End {
    match f
    case WriteFrame(payload) => x.(loop := if payload == [] then Idle else Piping(payload))
    case ConfirmFrame(size) =>
      if x.life.table.Open? then x.(loop := Confirming(size))
      else x.(loop := Closing, log := x.log.(wasted := x.log.wasted + size))
    case CloseFrame =>
      x.(life := x.life.(table := Gone, closed := x.life.closed || x.life.table.Open?))
    case OpenedFrame =>
      match x.life.table
      case Pending => x.(life := x.life.(table := Open), tx := x.tx.(pc := Choose))
      case Open => x.(life := x.life.(table := Gone, closed := true), loop := Closing)
      case Gone => x.(loop := Closing)
  }

  /** `ioChannel.Pipe` on one chunk, or its silent loss when there is no open channel. */
  function Absorb(x: End, chunk: seq<byte>): End {
    match x.life.table
    case Pending => x.(log := x.log.(missed := x.log.missed + chunk))
    case Gone => x.(log := x.log.(voided := x.log.voided + chunk))
    case Open =>
      if x.life.sealed || x.window - |x.rx.ring| < |chunk| then
        x.(log := x.log.(voided := x.log.voided + chunk), life := x.life.(closed := true))
      else
        x.(rx := x.rx.(ring := x.rx.ring + chunk))
  }

  function LoopStep(x: End, y: End, act: LoopAct): End
    requires CanLoop(x, y, act)
  {
    match act
    case Receive => Handle(x, y.port.transit[0])
    case Pipe(n) =>
      var rest := x.loop.rest[n..];
      Absorb(x, x.loop.rest[..n]).(loop := if rest == [] then Idle else Piping(rest))
    case Deposit => x.(tx := x.tx.(slot := Some(x.loop.value)), loop := Idle)
    case Merge =>
      var total := x.loop.value + x.tx.slot.value;
      if x.remote <= total then
        x.(tx := x.tx.(slot := None), loop := Closing,
           life := x.life.(overflowed := true, closed := x.life.closed || !x.server),
           log := x.log.(wasted := x.log.wasted + total))
      else
        x.(tx := x.tx.(slot := None), loop := Confirming(total))
    case Abandon => x.(loop := Idle, log := x.log.(wasted := x.log.wasted + x.loop.value))
    case Reject => x.(loop := Idle, port := Push(x.port, CloseFrame))
  }

  // ---- the queue ----

  predicate CanMove(x: End, act: PortAct) {
    match act
    case Flush => x.port.queue != []
    case Reply => x.life.replyDue && HasRoom(x.port)
  }

  function Move(x: End, act: PortAct): End
    requires CanMove(x, act)
  {
    match act
    case Flush => x.(port := Port(x.port.queue[1..], x.port.transit + [x.port.queue[0]]))
    case Reply => x.(life := x.life.(replyDue := false), port := Push(x.port, OpenedFrame))
  }

  // ---- serveConfirm ----

  /**
   * Each select of `serveConfirm` may find the channel closed, and must if no other case is possible:
   * then the drain loop does not get to its default, and what waited in a select returns.
   */
  predicate CanAck(x: End, act: AckAct) {
    match act
    case Collect => x.rx.ack.Waiting? && x.rx.acks != []
    case Gather => x.rx.ack.Gathering? && x.rx.ack.n < x.remote / 3 && x.rx.acks != []
    case Ready => x.rx.ack.Gathering? && (x.remote / 3 <= x.rx.ack.n || (x.rx.acks == [] && !x.life.closed))
    case Emit => x.rx.ack.Emitting? && x.rx.ack.n != 0 && HasRoom(x.port)
    case Settle => x.rx.ack.Emitted? && x.rx.ack.sent <= x.rx.ack.n
    case Finish => x.rx.ack.Emitting? && x.rx.ack.n == 0
    case Quit =>
      && x.life.closed
      && match x.rx.ack
         case Waiting => true
         case Gathering(n) => n < x.remote / 3
         case Emitting(n) => n != 0
         case _ => false
  }

  function AckStep(x: End, act: AckAct): End
    requires CanAck(x, act)
  {
    match act
    case Collect => x.(rx := x.rx.(ack := Gathering(x.rx.acks[0]), acks := x.rx.acks[1..]))
    case Gather => x.(rx := x.rx.(ack := Gathering(x.rx.ack.n + x.rx.acks[0]), acks := x.rx.acks[1..]))
    case Ready => x.(rx := x.rx.(ack := Emitting(x.rx.ack.n)))
    case Emit =>
      var size := AckSize(x.rx.ack.n);
      x.(rx := x.rx.(ack := Emitted(x.rx.ack.n, size)), port := Push(x.port, ConfirmFrame(size)))
    case Settle => x.(rx := x.rx.(ack := Emitting(x.rx.ack.n - x.rx.ack.sent)))
    case Finish => x.(rx := x.rx.(ack := Waiting))
    case Quit => x.(rx := x.rx.(ack := Returned(if x.rx.ack.Waiting? then 0 else x.rx.ack.n)))
  }

  // ---- the link ----

  /** Whether end `x` can take step `act` while its peer is `y`. */
  predicate Can(x: End, y: End, act: Action) {
    match act
    case Using(u) => CanUse(x, u)
    case Serving(s) => CanServe(x, s)
    case Looping(l) => CanLoop(x, y, l)
    case Moving(m) => CanMove(x, m)
    case Acking(a) => CanAck(x, a)
  }

  function Do(x: End, y: End, act: Action): End
    requires Can(x, y, act)
  {
    match act
    case Using(u) => Use(x, u)
    case Serving(s) => ServeStep(x, s)
    case Looping(l) => LoopStep(x, y, l)
    case Moving(m) => Move(x, m)
    case Acking(a) => AckStep(x, a)
  }

  /** Only reading a frame touches the peer. */
  function Peer(x: End, y: End, act: Action): End
    requires Can(x, y, act)
  {
    if act == Looping(Receive) then y.(port := y.port.(transit := y.port.transit[1..])) else y
  }

  /** `left` says which end of the link runs. */
  datatype Event = Event(left: bool, act: Action)

  function Mine(s: Link, left: bool): End {
    if left then s.a else s.b
  }

  function Theirs(s: Link, left: bool): End {
    if left then s.b else s.a
  }

  predicate Enabled(s: Link, e: Event) {
    if e.left then Can(s.a, s.b, e.act) else Can(s.b, s.a, e.act)
  }

  function Step(s: Link, e: Event): Link
    requires Enabled(s, e)
  {
    if e.left then Link(Do(s.a, s.b, e.act), Peer(s.a, s.b, e.act))
    else Link(Peer(s.b, s.a, e.act), Do(s.b, s.a, e.act))
  }

  /** Every event of `run` can happen in turn from `s`. */
  predicate Possible(s: Link, run: seq<Event>)
    decreases |run|
  {
    run == [] || (Enabled(s, run[0]) && Possible(Step(s, run[0]), run[1..]))
  }

  function After(s: Link, run: seq<Event>): Link
    requires Possible(s, run)
    decreases |run|
  {
    if run == [] then s else After(Step(s, run[0]), run[1..])
  }

  function NewEnd(server: bool, window: nat, remote: nat): End {
    End(server, window, remote,
        Sender(if server then Choose else Dormant, [], 0, None),
        Idle,
        Port([], []),
        Receiver([], [], [], Waiting),
        Status(if server then Open else Pending, false, false, server, false),
        History([], [], [], [], [], 0, 0))
  }

  /**
   * The moment the server has stored the channel it was asked for: its goroutines run, its reply
   * is still to be posted, and the client only holds a pending entry.
   */
  function Created(clientWindow: nat, serverWindow: nat): Link {
    Link(NewEnd(false, clientWindow, serverWindow), NewEnd(true, serverWindow, clientWindow))
  }
}
