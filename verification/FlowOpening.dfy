/**
 * Opening. The server starts the goroutines of a channel before it posts the Create reply
 * (server_transport.go:105-114), and the client drops payload for an entry that has no channel yet
 * (client_transport.go:220-225). So what the server's application sends can be lost on the way to
 * a client that did nothing wrong. This module says exactly which bytes are lost.
 */
module FlowOpening {
  import opened Bytes
  import opened FlowState
  import opened FlowLedger

  function Wire(p: Port): seq<Frame> {
    p.transit + p.queue
  }

  /** Payload ahead of the Create reply. */
  function Before(frames: seq<Frame>): seq<byte> {
    if frames == [] || frames[0].OpenedFrame? then []
    else (if frames[0].WriteFrame? then frames[0].payload else []) + Before(frames[1..])
  }

  function Replies(frames: seq<Frame>): nat {
    if frames == [] then 0 else (if frames[0].OpenedFrame? then 1 else 0) + Replies(frames[1..])
  }

  lemma {:induction false} WireAppend(frames: seq<Frame>, f: Frame)
    ensures Replies(frames + [f]) == Replies(frames) + if f.OpenedFrame? then 1 else 0
    ensures Before(frames + [f]) == Before(frames) + if Replies(frames) == 0 && f.WriteFrame? then f.payload else []
  {
    if frames == [] {
      assert frames + [f] == [f];
      assert [f][1..] == [];
    } else {
      assert (frames + [f])[1..] == frames[1..] + [f];
      WireAppend(frames[1..], f);
    }
  }

  function Due(s: End): nat {
    if s.life.replyDue then 1 else 0
  }

  /** The client has not created its channel object: `early` is lost or about to be. */
  ghost predicate Unopened(c: End, s: End) {
    && Replies(Wire(s.port)) + Due(s) == 1
    && s.log.early == c.log.missed + Piped(c.loop) + Before(Wire(s.port))
  }

  ghost predicate OpeningOk(c: End, s: End) {
    && !c.server && s.server
    && Replies(Wire(c.port)) == 0 && !c.life.replyDue && c.log.early == []
    && Replies(Wire(s.port)) + Due(s) <= 1
    && (c.life.table.Pending? ==> Unopened(c, s))
    && (!c.tx.pc.Dormant? ==> Replies(Wire(s.port)) + Due(s) == 0 && s.log.early == c.log.missed)
    && (c.tx.pc.Dormant? ==> c.log.missed <= s.log.early)
  }

  /** What a step of `x` does to its wire: nothing it queues overtakes the reply. */
  ghost predicate Sent(x: End, x': End) {
    && x'.server == x.server
    && Replies(Wire(x'.port)) + Due(x') == Replies(Wire(x.port)) + Due(x)
    && x.log.early <= x'.log.early
    && (Due(x) == 0 ==> x'.log.early == x.log.early)
    && (Replies(Wire(x.port)) + Due(x) == 1 ==>
          Before(Wire(x'.port)) == Before(Wire(x.port)) + x'.log.early[|x.log.early|..])
  }

  lemma PushSends(x: End, f: Frame)
    requires !f.OpenedFrame? && !f.WriteFrame?
    ensures Replies(Wire(Push(x.port, f))) == Replies(Wire(x.port))
    ensures Before(Wire(Push(x.port, f))) == Before(Wire(x.port))
  {
    WireAppend(Wire(x.port), f);
    assert Wire(Push(x.port, f)) == Wire(x.port) + [f];
  }

  lemma ServeSends(x: End, act: ServeAct)
    requires CanServe(x, act)
    ensures Sent(x, ServeStep(x, act))
  {
    if act.Hand? {
      var payload := x.tx.leftover[..NextSize(|x.tx.leftover|, x.remote - x.tx.writed)];
      WireAppend(Wire(x.port), WriteFrame(payload));
      assert Wire(ServeStep(x, act).port) == Wire(x.port) + [WriteFrame(payload)];
    } else if act.SayClose? {
      PushSends(x, CloseFrame);
    }
  }

  lemma StillSends(x: End, x': End)
    requires x'.server == x.server && x'.port == x.port && x'.log.early == x.log.early && Due(x') == Due(x)
    ensures Sent(x, x')
  {
  }

  lemma LoopSends(x: End, y: End, act: LoopAct)
    requires CanLoop(x, y, act)
    ensures Sent(x, LoopStep(x, y, act))
  {
    if act.Reject? {
      PushSends(x, CloseFrame);
    } else {
      StillSends(x, LoopStep(x, y, act));
    }
  }

  lemma MoveSends(x: End, act: PortAct)
    requires CanMove(x, act)
    ensures Sent(x, Move(x, act))
  {
    match act
    case Flush => assert Wire(Move(x, act).port) == Wire(x.port);
    case Reply =>
      WireAppend(Wire(x.port), OpenedFrame);
      assert Wire(Push(x.port, OpenedFrame)) == Wire(x.port) + [OpenedFrame];
  }

  lemma AckSends(x: End, act: AckAct)
    requires CanAck(x, act)
    ensures Sent(x, AckStep(x, act))
  {
    if act.Emit? { PushSends(x, ConfirmFrame(AckSize(x.rx.ack.n))); }
  }

  lemma StepSends(x: End, y: End, act: Action)
    requires Can(x, y, act)
    ensures Sent(x, Do(x, y, act))
  {
    match act
    case Using(u) => StillSends(x, Use(x, u));
    case Serving(s) => ServeSends(x, s);
    case Looping(l) => LoopSends(x, y, l);
    case Moving(m) => MoveSends(x, m);
    case Acking(a) => AckSends(x, a);
  }

  /** What the client has missed, and whether it has its channel, is as before. */
  ghost predicate Stands(c: End, c': End) {
    && c'.log.missed == c.log.missed && Piped(c'.loop) == Piped(c.loop)
    && c'.life.table.Pending? == c.life.table.Pending? && c'.tx.pc.Dormant? == c.tx.pc.Dormant?
  }

  lemma ConfirmStands(c: End, s: End, act: LoopAct)
    requires CanLoop(c, s, act) && !act.Receive? && !act.Pipe?
    ensures Stands(c, LoopStep(c, s, act))
  {
  }

  lemma ServeStands(c: End, act: ServeAct)
    requires CanServe(c, act)
    ensures Stands(c, ServeStep(c, act))
  {
  }

  lemma UseStands(c: End, act: UserAct)
    requires CanUse(c, act)
    ensures Stands(c, Use(c, act))
  {
  }

  lemma AckStands(c: End, act: AckAct)
    requires CanAck(c, act)
    ensures Stands(c, AckStep(c, act))
  {
  }

  /** A step leaves these alone, unless the client's loop works on a frame. */
  lemma ClientStands(c: End, s: End, act: Action)
    requires Can(c, s, act) && !(act.Looping? && (act.loop.Receive? || act.loop.Pipe?))
    ensures Stands(c, Do(c, s, act))
  {
    match act
    case Using(u) => UseStands(c, u);
    case Serving(a) => ServeStands(c, a);
    case Looping(l) => ConfirmStands(c, s, l);
    case Acking(a) => AckStands(c, a);
    case Moving(_) =>
  }

  lemma Pop(s: End)
    requires s.port.transit != []
    ensures Wire(s.port)[0] == s.port.transit[0] && Wire(s.port)[1..] == Wire(Taken(s).port)
  {
  }

  lemma ClientReceives(c: End, s: End)
    requires Local(c) && OpeningOk(c, s) && CanLoop(c, s, Receive)
    ensures OpeningOk(Handle(c, s.port.transit[0]), Taken(s))
  {
    Pop(s);
    LoopSends(c, s, Receive);
  }

  lemma ClientPipes(c: End, s: End, n: nat)
    requires Local(c) && OpeningOk(c, s) && CanLoop(c, s, Pipe(n))
    ensures OpeningOk(LoopStep(c, s, Pipe(n)), s)
  {
    LoopSends(c, s, Pipe(n));
    assert c.loop.rest == c.loop.rest[..n] + c.loop.rest[n..];
  }

  lemma ClientKeepsOpening(c: End, s: End, act: Action)
    requires Sound(c, s) && OpeningOk(c, s) && Can(c, s, act)
    ensures OpeningOk(Do(c, s, act), Peer(c, s, act))
  {
    if act == Looping(Receive) {
      ClientReceives(c, s);
    } else if act.Looping? && act.loop.Pipe? {
      ClientPipes(c, s, act.loop.n);
    } else {
      StepSends(c, s, act);
      ClientStands(c, s, act);
    }
  }

  lemma ServerReceives(s: End, c: End)
    requires OpeningOk(c, s) && CanLoop(s, c, Receive) && StatusOk(s)
    ensures OpeningOk(Taken(c), Handle(s, c.port.transit[0]))
  {
    Pop(c);
    StillSends(s, Handle(s, c.port.transit[0]));
  }

  lemma ServerSends(s: End, s': End, c: End)
    requires OpeningOk(c, s) && Sent(s, s')
    ensures OpeningOk(c, s')
  {
  }

  lemma ServerKeepsOpening(s: End, c: End, act: Action)
    requires Sound(s, c) && OpeningOk(c, s) && Can(s, c, act)
    ensures OpeningOk(Peer(s, c, act), Do(s, c, act))
  {
    if act == Looping(Receive) {
      ServerReceives(s, c);
    } else {
      StepSends(s, c, act);
      ServerSends(s, Do(s, c, act), c);
    }
  }
}
