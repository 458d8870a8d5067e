/**
 * The command loops and the protocol. What a loop does with the commands for one id, among any commands
 * for others, is a run of module FlowState at that end; so the bytes a connection delivers have the
 * effect on each channel that module Flow reasons about.
 */
module LoopFlow {
  import opened Bytes
  import opened Frames
  import opened FlowState
  import opened FlowRuns
  import opened PipeReaders
  import opened ServerTable
  import C = ClientTransports
  import T = ServerTransports
  import ServerRuns
  import O = FlowOpening

  /** Pipe, mailbox and table say of channel `r` what they say of end `x`, whose `Close` calls are through. */
  ghost predicate Same(s: Server, id: nat, r: Ref, x: End) {
    && r < |s.chans| && (id in s.keys ==> s.keys[id] == r)
    && x.life.table == (if id in s.keys then Table.Open else Gone)
    && x.rx.ring == s.chans[r].pipe.contents && x.tx.slot == s.chans[r].slot
    && x.life.closed == x.life.sealed == s.chans[r].pipe.closed
    && x.window == s.window && x.remote == s.remote
  }

  /** The link `t` is reached from `s` by steps of one end alone, and the peer has `wire` left to be read. */
  ghost predicate Reaches(start: Link, s: Link, t: Link, left: bool, wire: seq<Frame>) {
    && Leads(start, t)
    && Theirs(t, left) == Theirs(s, left).(port := Theirs(s, left).port.(transit := wire))
    && Mine(t, left).server == Mine(s, left).server
  }

  /** What the loop has put into the queue for channel `id`. */
  function Told(id: nat, outs: seq<Out>): seq<Frame> {
    if outs == [] then [] else (if outs[0] == CloseId(id) then [CloseFrame] else []) + Told(id, outs[1..])
  }

  lemma {:induction false} ToldAppend(id: nat, a: seq<Out>, b: seq<Out>)
    ensures Told(id, a + b) == Told(id, a) + Told(id, b)
  {
    if a == [] {
      assert a + b == b;
    } else {
      assert (a + b)[1..] == a[1..] + b;
      ToldAppend(id, a[1..], b);
      Regroup(if a[0] == CloseId(id) then [CloseFrame] else [], Told(id, a[1..]), Told(id, b));
    }
  }

  /** What end `x` has sent since it was `was` is what the queue has grown by from `ch` to `ch'`. */
  ghost predicate Tells(id: nat, was: End, x: End, ch: seq<Out>, ch': seq<Out>) {
    ch <= ch' && O.Wire(x.port) == O.Wire(was.port) + Told(id, ch'[|ch|..])
  }

  lemma TellsNothing(id: nat, was: End, x: End, ch: seq<Out>)
    requires O.Wire(x.port) == O.Wire(was.port)
    ensures Tells(id, was, x, ch, ch)
  {
  }

  lemma TellsOne(id: nat, was: End, x: End, ch: seq<Out>, o: Out)
    requires O.Wire(x.port) == O.Wire(was.port) + if o == CloseId(id) then [CloseFrame] else []
    ensures Tells(id, was, x, ch, ch + [o])
  {
    assert (ch + [o])[|ch|..] == [o] && [o][1..] == [];
    assert Told(id, [o]) == if o == CloseId(id) then [CloseFrame] else [];
  }

  lemma TellsMore(id: nat, x: End, y: End, z: End, a: seq<Out>, b: seq<Out>, c: seq<Out>)
    requires Tells(id, x, y, a, b) && Tells(id, y, z, b, c)
    ensures Tells(id, x, z, a, c)
  {
    assert c[|a|..] == b[|a|..] + c[|b|..];
    ToldAppend(id, b[|a|..], c[|b|..]);
    Regroup(O.Wire(x.port), Told(id, b[|a|..]), Told(id, c[|b|..]));
  }

  /** A `Close` in progress gets through to the pipe. */
  lemma Seals(start: Link, s: Link, left: bool) returns (t: Link)
    requires Leads(start, s)
    ensures Reaches(start, s, t, left, Theirs(s, left).port.transit)
    ensures var x := Mine(s, left);
      Mine(t, left) == x.(life := x.life.(sealed := x.life.sealed || x.life.closed))
  {
    t := s;
    if Mine(s, left).life.closed && !Mine(s, left).life.sealed {
      t := Next(start, s, left, Using(Seal));
    }
  }

  lemma Receives(start: Link, s: Link, left: bool, f: Frame, wire: seq<Frame>) returns (t: Link)
    requires Leads(start, s) && Mine(s, left).loop.Idle? && Theirs(s, left).port.transit == [f] + wire
    ensures Reaches(start, s, t, left, wire) && Mine(t, left) == Handle(Mine(s, left), f)
  {
    t := Next(start, s, left, Looping(Receive));
  }

  // ---- Write ----

  /** `Absorb`, followed by what is left of a `Close` it sets off. */
  function Settled(x: End): End {
    x.(life := x.life.(sealed := x.life.sealed || x.life.closed))
  }

  lemma AbsorbIsChunk(s: Server, id: nat, r: Ref, x: End, chunk: seq<byte>)
    requires Same(s, id, r, x)
    ensures Same(OnChunk(s, id, chunk), id, r, Settled(Absorb(x, chunk)))
  {
  }

  lemma ChunkRuns(start: Link, l: Link, left: bool, s: Server, id: nat, r: Ref, n: nat) returns (t: Link)
    requires Leads(start, l) && Mine(l, left).loop.Piping? && Same(s, id, r, Mine(l, left))
    requires 0 < n <= |Mine(l, left).loop.rest|
    ensures Reaches(start, l, t, left, Theirs(l, left).port.transit)
    ensures Mine(t, left).port == Mine(l, left).port
    ensures var rest := Mine(l, left).loop.rest;
      && Same(OnChunk(s, id, rest[..n]), id, r, Mine(t, left))
      && Mine(t, left).loop == if rest[n..] == [] then Idle else Piping(rest[n..])
  {
    AbsorbIsChunk(s, id, r, Mine(l, left), Mine(l, left).loop.rest[..n]);
    t := Next(start, l, left, Looping(Pipe(n)));
    t := Seals(start, t, left);
  }

  lemma {:induction false} ChunksRun(start: Link, l: Link, left: bool, s: Server, id: nat, r: Ref, max: nat)
    returns (t: Link)
    requires Leads(start, l) && Mine(l, left).loop.Piping? && Same(s, id, r, Mine(l, left))
    requires Mine(l, left).loop.rest != [] && max > 0
    ensures Reaches(start, l, t, left, Theirs(l, left).port.transit) && Mine(t, left).loop.Idle?
    ensures Same(OnChunks(s, id, Mine(l, left).loop.rest, max), id, r, Mine(t, left))
    ensures Mine(t, left).port == Mine(l, left).port
    decreases |Mine(l, left).loop.rest|
  {
    var rest := Mine(l, left).loop.rest;
    var n := Min(|rest|, max);
    t := ChunkRuns(start, l, left, s, id, r, n);
    if rest[n..] != [] {
      t := ChunksRun(start, t, left, OnChunk(s, id, rest[..n]), id, r, max);
    }
  }

  lemma WriteRuns(
    start: Link, l: Link, left: bool, s: Server, id: nat, r: Ref, payload: seq<byte>, max: nat, wire: seq<Frame>)
    returns (t: Link)
    requires Leads(start, l) && Mine(l, left).loop.Idle? && Same(s, id, r, Mine(l, left))
    requires Theirs(l, left).port.transit == [WriteFrame(payload)] + wire && (payload != [] ==> max > 0)
    ensures Reaches(start, l, t, left, wire) && Mine(t, left).loop.Idle?
    ensures Same(OnChunks(s, id, payload, max), id, r, Mine(t, left))
    ensures Mine(t, left).port == Mine(l, left).port
  {
    t := Receives(start, l, left, WriteFrame(payload), wire);
    if payload != [] {
      t := ChunksRun(start, t, left, s, id, r, max);
    }
  }

  // ---- Close ----

  lemma CloseRuns(start: Link, l: Link, left: bool, s: Server, id: nat, r: Ref, wire: seq<Frame>) returns (t: Link)
    requires Leads(start, l) && Mine(l, left).loop.Idle? && Same(s, id, r, Mine(l, left))
    requires Theirs(l, left).port.transit == [CloseFrame] + wire
    ensures Reaches(start, l, t, left, wire) && Mine(t, left).loop.Idle?
    ensures Same(OnClose(s, id), id, r, Mine(t, left))
    ensures Mine(t, left).port == Mine(l, left).port
  {
    t := Receives(start, l, left, CloseFrame, wire);
    t := Seals(start, t, left);
  }

  // ---- Confirm ----

  /** `Confirm` and what the loop makes of its result: the client also closes the channel on overflow. */
  function Confirmed(s: Server, id: nat, size: nat, server: bool): Server {
    var t := OnConfirm(s, id, size);
    if !server && t.ch != s.ch && id in s.keys then CloseChan(t, s.keys[id]) else t
  }

  /** The loop sends a Close, if need be after the queue has moved. */
  lemma Rejects(start: Link, l: Link, left: bool) returns (t: Link)
    requires Leads(start, l) && Mine(l, left).loop.Closing?
    ensures Reaches(start, l, t, left, Theirs(l, left).port.transit) && Mine(t, left).loop.Idle?
    ensures Mine(t, left) == Mine(l, left).(loop := Idle, port := Mine(t, left).port)
    ensures O.Wire(Mine(t, left).port) == O.Wire(Mine(l, left).port) + [CloseFrame]
  {
    t := FlushAll(start, l, left);
    t := Next(start, t, left, Looping(Reject));
  }

  lemma GoneConfirms(start: Link, l: Link, left: bool, s: Server, id: nat, r: Ref, size: nat, wire: seq<Frame>)
    returns (t: Link)
    requires Leads(start, l) && Mine(l, left).loop.Idle? && Same(s, id, r, Mine(l, left)) && id !in s.keys
    requires Theirs(l, left).port.transit == [ConfirmFrame(size)] + wire
    ensures Reaches(start, l, t, left, wire) && Mine(t, left).loop.Idle?
    ensures Same(Confirmed(s, id, size, Mine(l, left).server), id, r, Mine(t, left))
    ensures Tells(id, Mine(l, left), Mine(t, left), s.ch, Confirmed(s, id, size, Mine(l, left).server).ch)
  {
    t := Receives(start, l, left, ConfirmFrame(size), wire);
    t := Rejects(start, t, left);
    TellsOne(id, Mine(l, left), Mine(t, left), s.ch, CloseId(id));
  }

  lemma MergeOverflows(start: Link, l: Link, left: bool, s: Server, id: nat, r: Ref) returns (t: Link)
    requires Leads(start, l) && Mine(l, left).loop.Confirming? && Same(s, id, r, Mine(l, left))
    requires id in s.keys && !s.chans[r].pipe.closed
    requires s.chans[r].slot.Some? && s.chans[r].slot.value + Mine(l, left).loop.value >= s.remote
    ensures Reaches(start, l, t, left, Theirs(l, left).port.transit) && Mine(t, left).loop.Idle?
    ensures Same(Confirmed(s, id, Mine(l, left).loop.value, Mine(l, left).server), id, r, Mine(t, left))
    ensures Tells(id, Mine(l, left), Mine(t, left), s.ch,
                  Confirmed(s, id, Mine(l, left).loop.value, Mine(l, left).server).ch)
  {
    t := Next(start, l, left, Looping(Merge));
    t := Rejects(start, t, left);
    t := Seals(start, t, left);
    TellsOne(id, Mine(l, left), Mine(t, left), s.ch, CloseId(id));
  }

  lemma MergeFits(start: Link, l: Link, left: bool, s: Server, id: nat, r: Ref) returns (t: Link)
    requires Leads(start, l) && Mine(l, left).loop.Confirming? && Same(s, id, r, Mine(l, left))
    requires id in s.keys && !s.chans[r].pipe.closed
    requires s.chans[r].slot.Some? ==> s.chans[r].slot.value + Mine(l, left).loop.value < s.remote
    ensures Reaches(start, l, t, left, Theirs(l, left).port.transit) && Mine(t, left).loop.Idle?
    ensures Same(Confirmed(s, id, Mine(l, left).loop.value, Mine(l, left).server), id, r, Mine(t, left))
    ensures Tells(id, Mine(l, left), Mine(t, left), s.ch,
                  Confirmed(s, id, Mine(l, left).loop.value, Mine(l, left).server).ch)
  {
    t := l;
    if s.chans[r].slot.Some? {
      t := Next(start, t, left, Looping(Merge));
    }
    t := Next(start, t, left, Looping(LoopAct.Deposit));
    TellsNothing(id, Mine(l, left), Mine(t, left), s.ch);
  }

  lemma ConfirmRuns(start: Link, l: Link, left: bool, s: Server, id: nat, r: Ref, size: nat, wire: seq<Frame>)
    returns (t: Link)
    requires Leads(start, l) && Mine(l, left).loop.Idle? && Same(s, id, r, Mine(l, left))
    requires Theirs(l, left).port.transit == [ConfirmFrame(size)] + wire
    ensures Reaches(start, l, t, left, wire) && Mine(t, left).loop.Idle?
    ensures Same(Confirmed(s, id, size, Mine(l, left).server), id, r, Mine(t, left))
    ensures Tells(id, Mine(l, left), Mine(t, left), s.ch, Confirmed(s, id, size, Mine(l, left).server).ch)
  {
    if id !in s.keys {
      t := GoneConfirms(start, l, left, s, id, r, size, wire);
    } else {
      t := Receives(start, l, left, ConfirmFrame(size), wire);
      var slot := s.chans[r].slot;
      if s.chans[r].pipe.closed {
        t := Next(start, t, left, Looping(Abandon));
        TellsNothing(id, Mine(l, left), Mine(t, left), s.ch);
      } else if slot.Some? && slot.value + size >= s.remote {
        t := MergeOverflows(start, t, left, s, id, r);
      } else {
        t := MergeFits(start, t, left, s, id, r);
      }
    }
  }

  // ---- the server's commands ----

  /** The frame of channel `id` that a command is, if it is one. */
  function FrameOf(id: nat, c: Command): seq<Frame> {
    match c
    case Write(i, payload) => if i == id then [WriteFrame(payload)] else []
    case Confirm(i, size) => if i == id then [ConfirmFrame(size)] else []
    case Close(i) => if i == id then [CloseFrame] else []
    case _ => []
  }

  function FramesOf(id: nat, cs: seq<Command>): seq<Frame> {
    if cs == [] then [] else FrameOf(id, cs[0]) + FramesOf(id, cs[1..])
  }

  /** The command makes a channel for `id`; a conforming client does not use an id twice. */
  predicate Makes(id: nat, c: Command) {
    c.Create? && c.id == id
  }

  /** A Create that is answered with 0 is where the protocol starts. */
  lemma CreateStarts(s: Server, id: nat)
    requires CreateCode(s, id) == 0
    ensures Same(OnCreate(s, id), id, |s.chans|, NewEnd(true, s.window, s.remote))
  {
  }

  lemma OtherChunks(s: Server, id: nat, r: Ref, x: End, other: nat, payload: seq<byte>, max: nat)
    requires TableOk(s) && Same(s, id, r, x) && s.chans[r].id == id && other != id && (payload != [] ==> max > 0)
    ensures Same(OnChunks(s, other, payload, max), id, r, x)
  {
    ServerRuns.ChunksLeave(s, other, payload, max, r);
    ServerRuns.ChunksStand(s, other, payload, max);
  }

  lemma OthersKeepSame(s: Server, id: nat, r: Ref, x: End, c: Command)
    requires TableOk(s) && Same(s, id, r, x) && s.chans[r].id == id && FrameOf(id, c) == [] && !Makes(id, c)
    ensures Same(OnCommand(s, c), id, r, x)
  {
    if c.Write? {
      OtherChunks(s, id, r, x, c.id, c.payload, BufferSize(LOOP_BUFFER, |c.payload|));
    }
  }

  lemma IdStays(s: Server, c: Command, r: Ref)
    requires r < |s.chans|
    ensures r < |OnCommand(s, c).chans| && OnCommand(s, c).chans[r].id == s.chans[r].id
  {
    if c.Write? {
      ServerRuns.ChunksStand(s, c.id, c.payload, BufferSize(LOOP_BUFFER, |c.payload|));
    }
  }

  /** Commands for others put nothing into the queue that is for this channel. */
  lemma OthersTellNothing(s: Server, id: nat, x: End, c: Command)
    requires FrameOf(id, c) == []
    ensures Tells(id, x, x, s.ch, OnCommand(s, c).ch)
  {
    ServerRuns.CarryGrows(s, c);
    var t := OnCommand(s, c);
    if c.Write? {
      ServerRuns.ChunksStand(s, c.id, c.payload, BufferSize(LOOP_BUFFER, |c.payload|));
    }
    if t.ch == s.ch {
      TellsNothing(id, x, x, s.ch);
    } else {
      assert t.ch == s.ch + [t.ch[|s.ch|]] && t.ch[|s.ch|] != CloseId(id);
      assert O.Wire(x.port) + [] == O.Wire(x.port);
      TellsOne(id, x, x, s.ch, t.ch[|s.ch|]);
    }
  }

  /** One command at the server, of the channel or not. */
  lemma CommandRuns(start: Link, l: Link, left: bool, s: Server, id: nat, r: Ref, c: Command, wire: seq<Frame>)
    returns (t: Link)
    requires Leads(start, l) && Mine(l, left).server && Mine(l, left).loop.Idle?
    requires TableOk(s) && Same(s, id, r, Mine(l, left)) && s.chans[r].id == id && !Makes(id, c)
    requires Theirs(l, left).port.transit == FrameOf(id, c) + wire
    ensures Reaches(start, l, t, left, wire) && Mine(t, left).loop.Idle?
    ensures Same(OnCommand(s, c), id, r, Mine(t, left))
    ensures Tells(id, Mine(l, left), Mine(t, left), s.ch, OnCommand(s, c).ch)
  {
    if FrameOf(id, c) == [] {
      OthersKeepSame(s, id, r, Mine(l, left), c);
      t := l;
      OthersTellNothing(s, id, Mine(l, left), c);
    } else {
      match c {
        case Write(_, payload) =>
          t := WriteRuns(start, l, left, s, id, r, payload, BufferSize(LOOP_BUFFER, |payload|), wire);
          ServerRuns.ChunksStand(s, id, payload, BufferSize(LOOP_BUFFER, |payload|));
          TellsNothing(id, Mine(l, left), Mine(t, left), s.ch);
        case Close(_) =>
          t := CloseRuns(start, l, left, s, id, r, wire);
          C.CloseIds(s, id);
          TellsNothing(id, Mine(l, left), Mine(t, left), s.ch);
        case Confirm(_, size) => t := ConfirmRuns(start, l, left, s, id, r, size, wire);
      }
    }
  }

  /**
   * Whatever the commands, and whatever channels they are for: if the peer's wire holds what they
   * contain for channel `id`, the protocol takes it off the wire and ends up with the pipe, the mailbox
   * and the table entry that the command loop leaves, and sends a Close frame for each one of its.
   */
  lemma {:induction false} CommandsRun(
    start: Link, l: Link, left: bool, s: Server, id: nat, r: Ref, cs: seq<Command>) returns (t: Link)
    requires Leads(start, l) && Mine(l, left).server && Mine(l, left).loop.Idle?
    requires TableOk(s) && Same(s, id, r, Mine(l, left)) && s.chans[r].id == id
    requires forall c | c in cs :: !Makes(id, c)
    requires Theirs(l, left).port.transit == FramesOf(id, cs)
    ensures Reaches(start, l, t, left, []) && Mine(t, left).loop.Idle?
    ensures Same(OnCommands(s, cs), id, r, Mine(t, left))
    ensures Tells(id, Mine(l, left), Mine(t, left), s.ch, OnCommands(s, cs).ch)
    decreases |cs|
  {
    if cs == [] {
      t := l;
      TellsNothing(id, Mine(l, left), Mine(t, left), s.ch);
    } else {
      assert cs[0] in cs && (forall c | c in cs[1..] :: c in cs);
      ghost var was := Mine(l, left);
      t := CommandRuns(start, l, left, s, id, r, cs[0], FramesOf(id, cs[1..]));
      ghost var mid := Mine(t, left);
      CarryKeepsTable(s, cs[0]);
      IdStays(s, cs[0], r);
      t := CommandsRun(start, t, left, OnCommand(s, cs[0]), id, r, cs[1..]);
      TellsMore(id, was, mid, Mine(t, left), s.ch, OnCommand(s, cs[0]).ch, OnCommands(s, cs).ch);
    }
  }

  /** The same from the bytes: the loop on the encoded frames, up to its final clean-up. */
  lemma BytesRun(start: Link, l: Link, left: bool, s: Server, id: nat, r: Ref, cs: seq<Command>) returns (t: Link)
    requires Leads(start, l) && Mine(l, left).server && Mine(l, left).loop.Idle?
    requires TableOk(s) && Same(s, id, r, Mine(l, left)) && s.chans[r].id == id
    requires forall c | c in cs :: !Makes(id, c) && Sendable(true, c)
    requires Theirs(l, left).port.transit == FramesOf(id, cs)
    ensures Reaches(start, l, t, left, [])
    ensures Same(T.Served(s, EncodeAll(cs)), id, r, Mine(t, left))
    ensures Tells(id, Mine(l, left), Mine(t, left), s.ch, T.Served(s, EncodeAll(cs)).ch)
  {
    t := CommandsRun(start, l, left, s, id, r, cs);
    T.ServesFrames(s, cs);
  }

  // ---- the client's commands ----

  lemma ClientCloses(c: C.Client, id: nat)
    ensures C.View(C.OnCommand(c, Command.Close(id))) == OnClose(C.View(c), id)
  {
    C.ReadyDrops(c.table.keys, id);
    C.CloseIds(C.View(c), id);
  }

  lemma ClientConfirms(c: C.Client, id: nat, size: nat)
    ensures C.View(C.OnCommand(c, Command.Confirm(id, size))) == Confirmed(C.View(c), id, size, false)
  {
  }

  lemma ClientChunks(c: C.Client, id: nat, payload: seq<byte>)
    ensures C.View(C.OnCommand(c, Command.Write(id, payload)))
         == OnChunks(C.View(c), id, payload, BufferSize(C.CLIENT_BUFFER, |payload|))
  {
    ServerRuns.ChunksStand(C.View(c), id, payload, BufferSize(C.CLIENT_BUFFER, |payload|));
  }

  lemma CloseChanKeepsSame(s: Server, id: nat, r: Ref, x: End, other: Ref)
    requires Same(s, id, r, x) && other != r
    ensures Same(CloseChan(s, other), id, r, x)
  {
  }

  lemma OtherConfirmed(s: Server, id: nat, r: Ref, x: End, other: nat, size: nat)
    requires TableOk(s) && Same(s, id, r, x) && s.chans[r].id == id && other != id
    ensures Same(Confirmed(s, other, size, false), id, r, x)
  {
    OthersKeepSame(s, id, r, x, Command.Confirm(other, size));
    if other in s.keys {
      CloseChanKeepsSame(OnConfirm(s, other, size), id, r, x, s.keys[other]);
    }
  }

  lemma OtherCreated(c: C.Client, id: nat, r: Ref, x: End, other: nat, code: byte)
    requires C.ViewOk(c) && Same(C.View(c), id, r, x) && c.chans[r].id == id && other != id
    ensures Same(C.View(C.OnCreated(c, other, code)), id, r, x)
  {
    var keys := c.table.keys;
    if other in C.Ready(keys) {
      C.RepeatedReply(c, other, code);
      ClientCloses(c, other);
      OthersKeepSame(C.View(c), id, r, x, Command.Close(other));
    } else if other in keys && keys[other].waiting {
      C.ReadyOpens(keys, other, |c.chans|);
      C.ReadyWaits(keys, other, false);
    }
  }

  /** At the client a Create reply is a frame of the channel too. */
  function ClientFrameOf(id: nat, c: Command): seq<Frame> {
    if c.Created? && c.id == id then [OpenedFrame] else FrameOf(id, c)
  }

  function ClientFramesOf(id: nat, cs: seq<Command>): seq<Frame> {
    if cs == [] then [] else ClientFrameOf(id, cs[0]) + ClientFramesOf(id, cs[1..])
  }

  /** The client has channel object `r` for `id`, in its table or not; no call waits for that id any more. */
  ghost predicate Keeps(c: C.Client, id: nat, r: Ref, x: End) {
    && C.ViewOk(c) && Same(C.View(c), id, r, x) && c.chans[r].id == id
    && (id in c.table.keys ==> id in C.Ready(c.table.keys))
  }

  lemma ClientOthersKeep(c: C.Client, id: nat, r: Ref, x: End, command: Command)
    requires Keeps(c, id, r, x) && ClientFrameOf(id, command) == []
    ensures Same(C.View(C.OnCommand(c, command)), id, r, x)
  {
    match command
    case Write(other, payload) =>
      ClientChunks(c, other, payload);
      OtherChunks(C.View(c), id, r, x, other, payload, BufferSize(C.CLIENT_BUFFER, |payload|));
    case Close(other) =>
      ClientCloses(c, other);
      OthersKeepSame(C.View(c), id, r, x, command);
    case Confirm(other, size) =>
      ClientConfirms(c, other, size);
      OtherConfirmed(C.View(c), id, r, x, other, size);
    case Created(other, code) => OtherCreated(c, id, r, x, other, code);
    case _ =>
  }

  lemma ClientOthersTellNothing(c: C.Client, id: nat, x: End, command: Command)
    requires ClientFrameOf(id, command) == []
    ensures Tells(id, x, x, c.ch, C.OnCommand(c, command).ch)
  {
    var d := C.OnCommand(c, command);
    if command.Write? {
      ClientChunks(c, command.id, command.payload);
      ServerRuns.ChunksStand(C.View(c), command.id, command.payload, BufferSize(C.CLIENT_BUFFER, |command.payload|));
    }
    if d.ch == c.ch {
      TellsNothing(id, x, x, c.ch);
    } else {
      assert d.ch == c.ch + [d.ch[|c.ch|]] && d.ch[|c.ch|] != CloseId(id);
      assert O.Wire(x.port) + [] == O.Wire(x.port);
      TellsOne(id, x, x, c.ch, d.ch[|c.ch|]);
    }
  }

  lemma EntriesStay(c: C.Client, command: Command, id: nat)
    requires id in c.table.keys ==> id in C.Ready(c.table.keys)
    ensures var keys := C.OnCommand(c, command).table.keys; id in keys ==> id in C.Ready(keys)
  {
  }

  /** A reply that comes again takes the channel out and is answered with a Close, and so is any later one. */
  lemma RepliesRun(start: Link, l: Link, left: bool, c: C.Client, id: nat, r: Ref, code: byte, wire: seq<Frame>)
    returns (t: Link)
    requires Leads(start, l) && Mine(l, left).loop.Idle? && Keeps(c, id, r, Mine(l, left))
    requires Theirs(l, left).port.transit == [OpenedFrame] + wire
    ensures Reaches(start, l, t, left, wire) && Mine(t, left).loop.Idle?
    ensures Same(C.View(C.OnCreated(c, id, code)), id, r, Mine(t, left))
    ensures Tells(id, Mine(l, left), Mine(t, left), c.ch, C.OnCreated(c, id, code).ch)
  {
    if id in c.table.keys {
      C.RepeatedReply(c, id, code);
      ClientCloses(c, id);
      C.CloseIds(C.View(c), id);
    }
    t := Receives(start, l, left, OpenedFrame, wire);
    t := Rejects(start, t, left);
    t := Seals(start, t, left);
    TellsOne(id, Mine(l, left), Mine(t, left), c.ch, CloseId(id));
  }

  /** One command at the client, of the channel or not. */
  lemma ClientCommandRuns(
    start: Link, l: Link, left: bool, c: C.Client, id: nat, r: Ref, command: Command, wire: seq<Frame>)
    returns (t: Link)
    requires Leads(start, l) && !Mine(l, left).server && Mine(l, left).loop.Idle? && Keeps(c, id, r, Mine(l, left))
    requires Theirs(l, left).port.transit == ClientFrameOf(id, command) + wire
    ensures Reaches(start, l, t, left, wire) && Mine(t, left).loop.Idle?
    ensures Same(C.View(C.OnCommand(c, command)), id, r, Mine(t, left))
    ensures Tells(id, Mine(l, left), Mine(t, left), c.ch, C.OnCommand(c, command).ch)
  {
    if ClientFrameOf(id, command) == [] {
      ClientOthersKeep(c, id, r, Mine(l, left), command);
      t := l;
      ClientOthersTellNothing(c, id, Mine(l, left), command);
    } else {
      match command {
        case Write(_, payload) =>
          ClientChunks(c, id, payload);
          t := WriteRuns(start, l, left, C.View(c), id, r, payload, BufferSize(C.CLIENT_BUFFER, |payload|), wire);
          ServerRuns.ChunksStand(C.View(c), id, payload, BufferSize(C.CLIENT_BUFFER, |payload|));
          TellsNothing(id, Mine(l, left), Mine(t, left), c.ch);
        case Close(_) =>
          ClientCloses(c, id);
          t := CloseRuns(start, l, left, C.View(c), id, r, wire);
          C.CloseIds(C.View(c), id);
          TellsNothing(id, Mine(l, left), Mine(t, left), c.ch);
        case Confirm(_, size) =>
          ClientConfirms(c, id, size);
          t := ConfirmRuns(start, l, left, C.View(c), id, r, size, wire);
        case Created(_, code) => t := RepliesRun(start, l, left, c, id, r, code, wire);
      }
    }
  }

  lemma ClientIdStays(c: C.Client, command: Command, r: Ref)
    requires C.ViewOk(c) && r < |c.chans|
    ensures r < |C.OnCommand(c, command).chans| && C.OnCommand(c, command).chans[r].id == c.chans[r].id
  {
    if command.Write? {
      ServerRuns.ChunksStand(C.View(c), command.id, command.payload, BufferSize(C.CLIENT_BUFFER, |command.payload|));
    }
  }

  function ClientCommands(c: C.Client, cs: seq<Command>): C.Client
    decreases |cs|
  {
    if cs == [] then c else ClientCommands(C.OnCommand(c, cs[0]), cs[1..])
  }

  /** As `CommandsRun`, for a channel that the client has made, repeated replies included. */
  lemma {:induction false} ClientCommandsRun(
    start: Link, l: Link, left: bool, c: C.Client, id: nat, r: Ref, cs: seq<Command>) returns (t: Link)
    requires Leads(start, l) && !Mine(l, left).server && Mine(l, left).loop.Idle? && Keeps(c, id, r, Mine(l, left))
    requires Theirs(l, left).port.transit == ClientFramesOf(id, cs)
    ensures Reaches(start, l, t, left, []) && Mine(t, left).loop.Idle?
    ensures Same(C.View(ClientCommands(c, cs)), id, r, Mine(t, left))
    ensures Tells(id, Mine(l, left), Mine(t, left), c.ch, ClientCommands(c, cs).ch)
    decreases |cs|
  {
    if cs == [] {
      t := l;
      TellsNothing(id, Mine(l, left), Mine(t, left), c.ch);
    } else {
      t := ClientCommandRuns(start, l, left, c, id, r, cs[0], ClientFramesOf(id, cs[1..]));
      ghost var was, mid := Mine(l, left), Mine(t, left);
      C.CommandKeepsView(c, cs[0]);
      ClientIdStays(c, cs[0], r);
      EntriesStay(c, cs[0], id);
      t := ClientCommandsRun(start, t, left, C.OnCommand(c, cs[0]), id, r, cs[1..]);
      TellsMore(id, was, mid, Mine(t, left), c.ch, C.OnCommand(c, cs[0]).ch, ClientCommands(c, cs).ch);
    }
  }
}
