/**
 * The channel table of server_transport.go over whole runs: the command loop, the goroutines of the
 * channels and the queue, in any interleaving. A channel object is known by the order of its
 * creation; `keys` maps an id to the object that holds it.
 */
module ServerTable {
  import opened Bytes
  import opened PipeReaders
  import opened Frames

  type Ref = nat

  /** `Serve`: inside its loop, before `delete`, before the Close of `delete`, over. */
  datatype ChanPc = Running | Stopping | Saying | Ended

  /** `unconfirmed` counts the bytes read and not confirmed. */
  datatype Chan = Chan(id: nat, pc: ChanPc, pipe: Shared, slot: Option<nat>, unconfirmed: nat)

  function NewChan(id: nat): Chan {
    Chan(id, Running, Shared([], false), None, 0)
  }

  /** What is put into the queue, with the channel object it comes from. */
  datatype Out =
    | Reply(id: nat, code: byte)
    | WriteOf(writer: Ref, payload: seq<byte>)
    | ConfirmOf(confirmer: Ref, size: nat)
    | CloseOf(closer: Ref) // by `delete`
    | CloseId(id: nat)     // by the command loop
    | Echo(tag: seq<byte>)

  datatype Server = Server(
    limit: int,           // opts.channels
    window: nat,
    remote: nat,
    keys: map<nat, Ref>,
    chans: seq<Chan>,
    ch: seq<Out>,         // the queue
    posts: seq<Out>,      // in goroutines started by `postWrite`
    wire: seq<Out>        // taken from the queue
  )

  const QUEUE_CAPACITY := 50

  function Fresh(limit: int, window: nat, remote: nat): Server {
    Server(limit, window, remote, map[], [], [], [], [])
  }

  // ---- the command loop ----

  function Post(s: Server, o: Out): Server {
    if |s.ch| < QUEUE_CAPACITY then s.(ch := s.ch + [o]) else s.(posts := s.posts + [o])
  }

  predicate Full(s: Server) {
    s.limit > 0 && |s.keys| >= s.limit
  }

  function CreateCode(s: Server, id: nat): byte {
    if id in s.keys then 1 else if Full(s) then 2 else 0
  }

  function OnCreate(s: Server, id: nat): Server {
    var answer := Reply(id, CreateCode(s, id));
    var t := if CreateCode(s, id) != 0 then s
             else s.(keys := s.keys[id := |s.chans|], chans := s.chans + [NewChan(id)]);
    Post(t, answer)
  }

  function CloseChan(s: Server, r: Ref): Server {
    if r < |s.chans| then s.(chans := s.chans[r := s.chans[r].(pipe := s.chans[r].pipe.(closed := true))]) else s
  }

  function OnClose(s: Server, id: nat): Server {
    if id in s.keys then CloseChan(s, s.keys[id]).(keys := s.keys - {id}) else s
  }

  /** One chunk of a Write frame. `Pipe` closes the channel if its pipe refuses the chunk. */
  function OnChunk(s: Server, id: nat, chunk: seq<byte>): Server {
    if id in s.keys && s.keys[id] < |s.chans| then
      var r := s.keys[id];
      var c := s.chans[r];
      var refused := c.pipe.closed || |c.pipe.contents| + |chunk| > s.window;
      var pipe := TakeTurn(c.pipe, Writes(chunk), s.window);
      s.(chans := s.chans[r := c.(pipe := pipe.(closed := pipe.closed || refused))])
    else s
  }

  /** Bytes in one pass of the chunk loop: what is left, but no more than the chosen buffer. */
  function BufferSize(capacity: nat, size: nat): (max: nat)
    ensures size > 0 ==> max > 0
    ensures max < size ==> max == 32768 && capacity <= size
    ensures max <= size && max <= 32768 + capacity
  {
    if size < capacity then size else if size > 32 * 1024 then 32 * 1024 else size
  }

  function OnChunks(s: Server, id: nat, payload: seq<byte>, max: nat): Server
    requires payload != [] ==> max > 0
    decreases |payload|
  {
    if payload == [] then s
    else
      var n := Min(|payload|, max);
      OnChunks(OnChunk(s, id, payload[..n]), id, payload[n..], max)
  }

  /** The mailbox while `Serve` does not touch it; overflow is answered with a Close. */
  function Deposit(s: Server, id: nat, size: nat): Server
    requires id in s.keys && s.keys[id] < |s.chans|
  {
    var r := s.keys[id];
    var c := s.chans[r];
    if c.slot.None? then s.(chans := s.chans[r := c.(slot := Some(size))])
    else if c.slot.value + size >= s.remote then s.(chans := s.chans[r := c.(slot := None)], ch := s.ch + [CloseId(id)])
    else s.(chans := s.chans[r := c.(slot := Some(c.slot.value + size))])
  }

  /** On a closed channel this is the case that `select` finds it closed; step `Late` is the other. */
  function OnConfirm(s: Server, id: nat, size: nat): Server {
    if id in s.keys && s.keys[id] < |s.chans| then
      if s.chans[s.keys[id]].pipe.closed then s else Deposit(s, id, size)
    else s.(ch := s.ch + [CloseId(id)])
  }

  /** The buffer the command loop is started with (server.go:149). */
  const LOOP_BUFFER := 256

  function OnCommand(s: Server, c: Command): Server {
    match c
    case Ping => s
    case Pong(tag) => Post(s, Echo(tag))
    case Create(id) => OnCreate(s, id)
    case Created(_, _) => s
    case Close(id) => OnClose(s, id)
    case Write(id, payload) => OnChunks(s, id, payload, BufferSize(LOOP_BUFFER, |payload|))
    case Confirm(id, size) => OnConfirm(s, id, size)
  }

  function OnCommands(s: Server, cs: seq<Command>): Server
    decreases |cs|
  {
    if cs == [] then s else OnCommands(OnCommand(s, cs[0]), cs[1..])
  }

  // ---- the goroutines ----

  datatype Act =
    | Carry(c: Command)                 // the command loop, one command
    | Chunk(id: nat, chunk: seq<byte>)  // the command loop, one chunk of a Write
    | Late(id: nat, size: nat)          // the command loop, a Confirm that a closed channel still takes
    | Emit(r: Ref, payload: seq<byte>)  // `Serve` hands over a Write frame
    | Ack(r: Ref, size: nat)            // `serveConfirm` hands over a Confirm frame
    | Shut(r: Ref)                      // `Close` by the application
    | Stop(r: Ref)                      // `Serve` leaves its loop and closes the channel
    | Remove(r: Ref)                    // `delete` takes the channel from the table, if it is still there
    | Say(r: Ref)                       // `delete` sends Close
    | Drain(r: Ref)                     // `Serve` takes the mailbox
    | Take(r: Ref, k: nat)              // `Read`
    | Settle(i: nat)                    // a goroutine of `postWrite` gets its frame into the queue
    | Flush                             // `serveWrite`

  predicate Can(s: Server, a: Act) {
    match a
    case Carry(c) => true
    case Chunk(id, chunk) => true
    case Late(id, size) => id in s.keys && s.keys[id] < |s.chans| && s.chans[s.keys[id]].pipe.closed
    case Emit(r, payload) => r < |s.chans| && s.chans[r].pc.Running? && 1 <= |payload| <= MAX_UINT16
    case Ack(r, size) => r < |s.chans| && 1 <= size <= MAX_UINT16 && size <= s.chans[r].unconfirmed
    case Shut(r) => r < |s.chans|
    case Stop(r) => r < |s.chans| && s.chans[r].pc.Running?
    case Remove(r) => r < |s.chans| && s.chans[r].pc.Stopping?
    case Say(r) => r < |s.chans| && s.chans[r].pc.Saying?
    case Drain(r) => r < |s.chans|
    case Take(r, k) => r < |s.chans| && k <= |s.chans[r].pipe.contents|
    case Settle(i) => i < |s.posts|
    case Flush => s.ch != []
  }

  function Goes(s: Server, r: Ref, pc: ChanPc): Server
    requires r < |s.chans|
  {
    s.(chans := s.chans[r := s.chans[r].(pc := pc)])
  }

  function Holds(s: Server, r: Ref): bool
    requires r < |s.chans|
  {
    s.chans[r].id in s.keys && s.keys[s.chans[r].id] == r
  }

  function Do(s: Server, a: Act): Server
    requires Can(s, a)
  {
    match a
    case Carry(c) => OnCommand(s, c)
    case Chunk(id, chunk) => OnChunk(s, id, chunk)
    case Late(id, size) => Deposit(s, id, size)
    case Emit(r, payload) => s.(ch := s.ch + [WriteOf(r, payload)])
    case Ack(r, size) =>
      var left := s.chans[r].unconfirmed - size;
      s.(ch := s.ch + [ConfirmOf(r, size)], chans := s.chans[r := s.chans[r].(unconfirmed := left)])
    case Shut(r) => CloseChan(s, r)
    case Stop(r) => Goes(CloseChan(s, r), r, Stopping)
    case Remove(r) =>
      if Holds(s, r) then Goes(s, r, Saying).(keys := s.keys - {s.chans[r].id}) else Goes(s, r, Ended)
    case Say(r) => Goes(s, r, Ended).(ch := s.ch + [CloseOf(r)])
    case Drain(r) => s.(chans := s.chans[r := s.chans[r].(slot := None)])
    case Take(r, k) =>
      var pipe, unconfirmed := s.chans[r].pipe, s.chans[r].unconfirmed + k;
      s.(chans := s.chans[r := s.chans[r].(pipe := pipe.(contents := pipe.contents[k..]), unconfirmed := unconfirmed)])
    case Settle(i) => s.(ch := s.ch + [s.posts[i]], posts := s.posts[..i] + s.posts[i + 1..])
    case Flush => s.(wire := s.wire + [s.ch[0]], ch := s.ch[1..])
  }

  predicate Possible(s: Server, run: seq<Act>)
    decreases |run|
  {
    run == [] || (Can(s, run[0]) && Possible(Do(s, run[0]), run[1..]))
  }

  function After(s: Server, run: seq<Act>): Server
    requires Possible(s, run)
    decreases |run|
  {
    if run == [] then s else After(Do(s, run[0]), run[1..])
  }

  // ---- the invariant ----

  /** Everything put into the queue so far, in order. */
  function Sent(s: Server): seq<Out> {
    s.wire + s.ch
  }

  predicate Held(keys: map<nat, Ref>, c: Chan, r: Ref) {
    c.id in keys && keys[c.id] == r
  }

  /** What the table means for channel `r`: out of the table it is closed, and after `delete` it is out of it. */
  predicate ChanOk(keys: map<nat, Ref>, c: Chan, r: Ref, window: nat) {
    && (!c.pc.Running? ==> c.pipe.closed)
    && (c.pc.Saying? || c.pc.Ended? ==> !Held(keys, c, r))
    && (!Held(keys, c, r) ==> c.pipe.closed)
    && |c.pipe.contents| <= window
  }

  ghost predicate KeysOk(keys: map<nat, Ref>, chans: seq<Chan>) {
    forall id | id in keys :: keys[id] < |chans| && chans[keys[id]].id == id
  }

  ghost predicate TableOk(s: Server) {
    && KeysOk(s.keys, s.chans)
    && (s.limit > 0 ==> |s.keys| <= s.limit)
    && (forall r | 0 <= r < |s.chans| :: ChanOk(s.keys, s.chans[r], r, s.window))
  }

  lemma SetKeepsTable(s: Server, r: Ref, c: Chan)
    requires TableOk(s) && r < |s.chans| && c.id == s.chans[r].id && ChanOk(s.keys, c, r, s.window)
    ensures TableOk(s.(chans := s.chans[r := c]))
  {
  }

  lemma AddKeepsTable(s: Server, id: nat)
    requires TableOk(s) && id !in s.keys && !Full(s)
    ensures TableOk(s.(keys := s.keys[id := |s.chans|], chans := s.chans + [NewChan(id)]))
  {
    var keys := s.keys[id := |s.chans|];
    assert keys.Keys == s.keys.Keys + {id};
    assert |keys| == |keys.Keys| == |s.keys| + 1;
    forall r | 0 <= r < |s.chans| ensures Held(keys, s.chans[r], r) == Held(s.keys, s.chans[r], r) {
    }
  }

  /** Taking a closed channel out of the table. */
  lemma DropKeepsTable(s: Server, id: nat)
    requires TableOk(s) && id in s.keys && s.chans[s.keys[id]].pipe.closed
    ensures TableOk(s.(keys := s.keys - {id}))
  {
    var keys := s.keys - {id};
    assert keys.Keys == s.keys.Keys - {id};
    assert |keys| == |keys.Keys| <= |s.keys|;
    forall r | 0 <= r < |s.chans| && r != s.keys[id]
      ensures Held(keys, s.chans[r], r) == Held(s.keys, s.chans[r], r)
    {
    }
  }

  lemma ChunkKeepsTable(s: Server, id: nat, chunk: seq<byte>)
    requires TableOk(s)
    ensures TableOk(OnChunk(s, id, chunk))
  {
    if id in s.keys {
      var r := s.keys[id];
      SetKeepsTable(s, r, OnChunk(s, id, chunk).chans[r]);
    }
  }

  lemma {:induction false} ChunksKeepTable(s: Server, id: nat, payload: seq<byte>, max: nat)
    requires TableOk(s) && (payload != [] ==> max > 0)
    ensures TableOk(OnChunks(s, id, payload, max))
    decreases |payload|
  {
    if payload != [] {
      var n := Min(|payload|, max);
      ChunkKeepsTable(s, id, payload[..n]);
      ChunksKeepTable(OnChunk(s, id, payload[..n]), id, payload[n..], max);
    }
  }

  lemma ShutKeepsTable(s: Server, r: Ref)
    requires TableOk(s) && r < |s.chans|
    ensures TableOk(CloseChan(s, r))
  {
    SetKeepsTable(s, r, CloseChan(s, r).chans[r]);
  }

  lemma CloseKeepsTable(s: Server, id: nat)
    requires TableOk(s)
    ensures TableOk(OnClose(s, id))
  {
    if id in s.keys {
      ShutKeepsTable(s, s.keys[id]);
      DropKeepsTable(CloseChan(s, s.keys[id]), id);
    }
  }

  lemma ConfirmKeepsTable(s: Server, id: nat, size: nat)
    requires TableOk(s)
    ensures TableOk(OnConfirm(s, id, size))
  {
    if id in s.keys {
      var r := s.keys[id];
      SetKeepsTable(s, r, OnConfirm(s, id, size).chans[r]);
    }
  }

  lemma CarryKeepsTable(s: Server, c: Command)
    requires TableOk(s)
    ensures TableOk(OnCommand(s, c))
  {
    match c
    case Create(id) => if CreateCode(s, id) == 0 { AddKeepsTable(s, id); }
    case Close(id) => CloseKeepsTable(s, id);
    case Write(id, payload) => ChunksKeepTable(s, id, payload, BufferSize(LOOP_BUFFER, |payload|));
    case Confirm(id, size) => ConfirmKeepsTable(s, id, size);
    case _ =>
  }

  lemma RemoveKeepsTable(s: Server, r: Ref)
    requires TableOk(s) && Can(s, Remove(r))
    ensures TableOk(Do(s, Remove(r)))
  {
    var c := s.chans[r];
    if Holds(s, r) {
      DropKeepsTable(s, c.id);
      SetKeepsTable(s.(keys := s.keys - {c.id}), r, c.(pc := Saying));
    } else {
      SetKeepsTable(s, r, c.(pc := Ended));
    }
  }

  lemma LateKeepsTable(s: Server, id: nat, size: nat)
    requires TableOk(s) && Can(s, Late(id, size))
    ensures TableOk(Deposit(s, id, size))
  {
    SetKeepsTable(s, s.keys[id], Deposit(s, id, size).chans[s.keys[id]]);
  }

  lemma StopKeepsTable(s: Server, r: Ref)
    requires TableOk(s) && Can(s, Stop(r))
    ensures TableOk(Do(s, Stop(r)))
  {
    ShutKeepsTable(s, r);
    SetKeepsTable(CloseChan(s, r), r, Do(s, Stop(r)).chans[r]);
  }

  lemma SayKeepsTable(s: Server, r: Ref)
    requires TableOk(s) && Can(s, Say(r))
    ensures TableOk(Do(s, Say(r)))
  {
    SetKeepsTable(s, r, s.chans[r].(pc := Ended));
  }

  lemma AckKeepsTable(s: Server, r: Ref, size: nat)
    requires TableOk(s) && Can(s, Ack(r, size))
    ensures TableOk(Do(s, Ack(r, size)))
  {
    SetKeepsTable(s, r, Do(s, Ack(r, size)).chans[r]);
  }

  lemma DrainKeepsTable(s: Server, r: Ref)
    requires TableOk(s) && Can(s, Drain(r))
    ensures TableOk(Do(s, Drain(r)))
  {
    SetKeepsTable(s, r, s.chans[r].(slot := None));
  }

  lemma TakeKeepsTable(s: Server, r: Ref, k: nat)
    requires TableOk(s) && Can(s, Take(r, k))
    ensures TableOk(Do(s, Take(r, k)))
  {
    SetKeepsTable(s, r, Do(s, Take(r, k)).chans[r]);
  }

  lemma QueueKeepsTable(s: Server, a: Act)
    requires TableOk(s) && Can(s, a) && (a.Emit? || a.Settle? || a.Flush?)
    ensures TableOk(Do(s, a))
  {
  }

  lemma StepKeepsTable(s: Server, a: Act)
    requires TableOk(s) && Can(s, a)
    ensures TableOk(Do(s, a))
  {
    match a
    case Carry(c) => CarryKeepsTable(s, c);
    case Chunk(id, chunk) => ChunkKeepsTable(s, id, chunk);
    case Late(id, size) => LateKeepsTable(s, id, size);
    case Shut(r) => ShutKeepsTable(s, r);
    case Stop(r) => StopKeepsTable(s, r);
    case Remove(r) => RemoveKeepsTable(s, r);
    case Ack(r, size) => AckKeepsTable(s, r, size);
    case Say(r) => SayKeepsTable(s, r);
    case Drain(r) => DrainKeepsTable(s, r);
    case Take(r, k) => TakeKeepsTable(s, r, k);
    case _ => QueueKeepsTable(s, a);
  }
}
