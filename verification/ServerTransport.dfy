/** The command loop of server_transport.go on the bytes of the connection. */
module ServerTransports {
  import opened Bytes
  import opened PipeReaders
  import opened Frames
  import opened ServerTable

  /** What the loop does with a Write frame whose payload the stream may not hold: the whole chunks. */
  function OnPartial(s: Server, id: nat, size: nat, max: nat, r: seq<byte>): (t: (Server, bool, seq<byte>))
    requires size > 0 ==> max > 0
    ensures |t.2| <= |r|
    decreases size
  {
    if size == 0 then (s, true, r)
    else
      var n := Min(size, max);
      if |r| < n then (s, false, r)
      else OnPartial(OnChunk(s, id, r[..n]), id, size - n, max, r[n..])
  }

  lemma {:induction false} PartialIsChunks(s: Server, id: nat, payload: seq<byte>, max: nat, tail: seq<byte>)
    requires payload != [] ==> max > 0
    ensures OnPartial(s, id, |payload|, max, payload + tail) == (OnChunks(s, id, payload, max), true, tail)
    decreases |payload|
  {
    var r := payload + tail;
    if payload == [] {
      assert r == tail;
    } else {
      var n := Min(|payload|, max);
      assert r[..n] == payload[..n] && r[n..] == payload[n..] + tail;
      PartialIsChunks(OnChunk(s, id, payload[..n]), id, payload[n..], max, tail);
    }
  }

  /** The effect of a stream that ends inside a frame: only a Write leaves a trace. */
  function OnTail(s: Server, r: seq<byte>): Server {
    if |r| >= 11 && r[0] == 5 then
      var id, size := Number(r[1..9]), Number(r[9..11]);
      OnPartial(s, id, size, BufferSize(LOOP_BUFFER, size), r[11..]).0
    else s
  }

  /** The part of `n` bytes that whole chunks of `max` bytes take up. */
  function Whole(n: nat, max: nat): (whole: nat)
    ensures whole <= n
    decreases n
  {
    if max == 0 || n < max then 0 else max + Whole(n - max, max)
  }

  /** Of a Write the stream breaks off in, the whole chunks get through and what follows them is dropped. */
  lemma {:induction false} PartialTakesChunks(s: Server, id: nat, size: nat, max: nat, r: seq<byte>)
    requires |r| < size && 0 < max
    ensures OnPartial(s, id, size, max, r).0 == OnChunks(s, id, r[..Whole(|r|, max)], max)
    decreases size
  {
    if |r| >= max {
      var whole := r[..Whole(|r|, max)];
      assert whole[..max] == r[..max] && whole[max..] == r[max..][..Whole(|r| - max, max)];
      PartialTakesChunks(OnChunk(s, id, r[..max]), id, size - max, max, r[max..]);
    }
  }

  /** The channels in the table are closed when the loop is over. */
  function CloseAll(s: Server): Server {
    s.(chans := seq(|s.chans|, r requires 0 <= r < |s.chans| =>
      if Held(s.keys, s.chans[r], r) then s.chans[r].(pipe := s.chans[r].pipe.(closed := true)) else s.chans[r]))
  }

  /** Every channel is closed, and nothing else has changed. */
  ghost predicate AllClosed(before: Server, after: Server) {
    && after == before.(chans := after.chans) && |after.chans| == |before.chans|
    && (forall r | 0 <= r < |after.chans| ::
          after.chans[r] == before.chans[r].(pipe := Shared(before.chans[r].pipe.contents, true)))
  }

  /** Channels outside the table are closed already, so that no reader is left waiting. */
  lemma CloseAllCloses(s: Server)
    requires TableOk(s)
    ensures AllClosed(s, CloseAll(s))
  {
  }

  lemma {:induction false} PartialKeepsTable(s: Server, id: nat, size: nat, max: nat, r: seq<byte>)
    requires TableOk(s) && (size > 0 ==> max > 0)
    ensures TableOk(OnPartial(s, id, size, max, r).0)
    decreases size
  {
    if size != 0 {
      var n := Min(size, max);
      if |r| >= n {
        ChunkKeepsTable(s, id, r[..n]);
        PartialKeepsTable(OnChunk(s, id, r[..n]), id, size - n, max, r[n..]);
      }
    }
  }

  lemma {:induction false} CommandsKeepTable(s: Server, cs: seq<Command>)
    requires TableOk(s)
    ensures TableOk(OnCommands(s, cs))
    decreases |cs|
  {
    if cs != [] {
      CarryKeepsTable(s, cs[0]);
      CommandsKeepTable(OnCommand(s, cs[0]), cs[1..]);
    }
  }

  /** What the loop has done when the connection ends. */
  function Served(s: Server, input: seq<byte>): Server {
    OnTail(OnCommands(s, ParseAll(true, input).0), ParseAll(true, input).1)
  }

  lemma ServedKeepsTable(s: Server, input: seq<byte>)
    requires TableOk(s)
    ensures TableOk(Served(s, input))
  {
    var (cs, r) := ParseAll(true, input);
    CommandsKeepTable(s, cs);
    if |r| >= 11 && r[0] == 5 {
      var id, size := Number(r[1..9]), Number(r[9..11]);
      PartialKeepsTable(OnCommands(s, cs), id, size, BufferSize(LOOP_BUFFER, size), r[11..]);
    }
  }

  class ServerTransport {
    const limit: int
    const window: nat
    const remote: nat
    var keys: map<nat, Ref>
    var chans: seq<Chan>
    var ch: seq<Out>
    var posts: seq<Out>
    ghost var wire: seq<Out>

    ghost function State(): Server
      reads this
    {
      Server(limit, window, remote, keys, chans, ch, posts, wire)
    }

    constructor (limit: int, window: nat, remote: nat)
      ensures State() == Fresh(limit, window, remote)
    {
      this.limit, this.window, this.remote := limit, window, remote;
      keys, chans, ch, posts, wire := map[], [], [], [], [];
    }

    method PostWrite(o: Out)
      modifies this`ch, this`posts
      ensures State() == Post(old(State()), o)
    {
      if |ch| < QUEUE_CAPACITY {
        ch := ch + [o];
      } else {
        posts := posts + [o];
      }
    }

    method Create(id: nat)
      modifies this
      ensures State() == OnCreate(old(State()), id)
    {
      var code: byte := 0;
      if id in keys {
        code := 1;
      } else if limit > 0 && |keys| >= limit {
        code := 2;
      } else {
        keys := keys[id := |chans|];
        chans := chans + [NewChan(id)];
      }
      PostWrite(Reply(id, code));
    }

    method Close(id: nat)
      modifies this`keys, this`chans
      ensures State() == OnClose(old(State()), id)
    {
      if id in keys {
        var r := keys[id];
        if r < |chans| {
          chans := chans[r := chans[r].(pipe := chans[r].pipe.(closed := true))];
        }
        keys := keys - {id};
      }
    }

    method Pipe(id: nat, chunk: seq<byte>)
      modifies this`chans
      ensures State() == OnChunk(old(State()), id, chunk)
    {
      if id in keys && keys[id] < |chans| {
        var r := keys[id];
        var pipe := chans[r].pipe;
        if pipe.closed || window - |pipe.contents| < |chunk| {
          pipe := pipe.(closed := true);
        } else {
          pipe := pipe.(contents := pipe.contents + chunk);
        }
        chans := chans[r := chans[r].(pipe := pipe)];
      }
    }

    method Confirm(id: nat, val: nat)
      modifies this`chans, this`ch
      ensures State() == OnConfirm(old(State()), id, val)
    {
      if id in keys && keys[id] < |chans| {
        var r := keys[id];
        var slot := chans[r].slot;
        if !chans[r].pipe.closed {
          if slot.None? {
            chans := chans[r := chans[r].(slot := Some(val))];
          } else if slot.value + val >= remote {
            chans := chans[r := chans[r].(slot := None)];
            ch := ch + [CloseId(id)];
          } else {
            chans := chans[r := chans[r].(slot := Some(slot.value + val))];
          }
        }
      } else {
        ch := ch + [CloseId(id)];
      }
    }

    /** The chunk loop of Write on what the stream still holds. */
    method Write(id: nat, length: nat, r: seq<byte>) returns (ok: bool, left: seq<byte>)
      modifies this`chans
      ensures (State(), ok, left) == OnPartial(old(State()), id, length, BufferSize(LOOP_BUFFER, length), r)
      ensures ok <==> length <= |r|
      ensures ok ==> left == r[length..]
      ensures ok ==> State() == OnChunks(old(State()), id, r[..length], BufferSize(LOOP_BUFFER, length))
    {
      var size: nat := length;
      var max := BufferSize(LOOP_BUFFER, length);
      left, ok := r, true;
      while size != 0 && ok
        invariant size > 0 ==> max > 0
        invariant ok ==> OnPartial(State(), id, size, max, left) == OnPartial(old(State()), id, length, max, r)
        invariant !ok ==> (State(), false, left) == OnPartial(old(State()), id, length, max, r)
        decreases size, ok
      {
        var n: nat := size;
        if size > max {
          n := max;
        }
        if |left| < n {
          ok := false;
        } else {
          size := size - n;
          Pipe(id, left[..n]);
          left := left[n..];
        }
      }
      if length <= |r| {
        PartialIsChunks(old(State()), id, r[..length], max, r[length..]);
        assert r == r[..length] + r[length..];
      } else {
        PartialStops(old(State()), id, length, max, r);
      }
    }

    method CleanUp()
      modifies this`chans
      ensures State() == CloseAll(old(State()))
    {
      chans := seq(|chans|, r requires 0 <= r < |chans| reads this =>
        if Held(keys, chans[r], r) then chans[r].(pipe := chans[r].pipe.(closed := true)) else chans[r]);
    }

    /**
     * `Serve` on everything the connection delivers: the commands of the stream are carried out in
     * order, then the whole chunks of a Write it breaks off in, and then all channels are closed.
     */
    method Serve(input: seq<byte>)
      modifies this
      ensures State() == CloseAll(Served(old(State()), input))
      ensures TableOk(old(State())) ==> AllClosed(Served(old(State()), input), State())
    {
      var r, more := input, true;
      while more
        invariant more ==> ParseAll(true, r).1 == ParseAll(true, input).1
        invariant more ==> OnCommands(State(), ParseAll(true, r).0) == OnCommands(old(State()), ParseAll(true, input).0)
        invariant !more ==> State() == Served(old(State()), input)
        decreases more, |r|
      {
        more, r := Turn(r);
      }
      if TableOk(old(State())) {
        ServedKeepsTable(old(State()), input);
        CloseAllCloses(Served(old(State()), input));
      }
      CleanUp();
    }

    /** One turn of the loop. */
    method Turn(r: seq<byte>) returns (more: bool, left: seq<byte>)
      modifies this
      ensures more ==> Parse(true, r).Got? && left == Parse(true, r).rest && |left| < |r|
      ensures more ==> State() == OnCommand(old(State()), Parse(true, r).command)
      ensures !more ==> !Parse(true, r).Got? && State() == OnTail(old(State()), r)
    {
      more, left := false, r;
      if |r| < 1 {
        return;
      }
      var size := HeadSize(true, r[0]);
      if !(1 <= r[0] <= 6) || |r| < 1 + size {
        return;
      }
      var head := r[1..1 + size];
      more, left := true, r[1 + size..];
      match r[0]
      case 1 =>
      case 2 => PostWrite(Echo(head));
      case 3 => Create(Number(head));
      case 4 => Close(Number(head));
      case 5 =>
        var id, length := Number(head[..8]), Number(head[8..]);
        HeadSlices(r, head);
        more, left := Write(id, length, left);
      case 6 => Confirm(Number(head[..8]), Number(head[8..]));
    }
  }

  lemma HeadSlices<T>(r: seq<T>, head: seq<T>)
    requires |r| >= 11 && head == r[1..11]
    ensures head[..8] == r[1..9] && head[8..] == r[9..11]
  {
  }

  lemma {:induction false} PartialStops(s: Server, id: nat, size: nat, max: nat, r: seq<byte>)
    requires size > |r| && max > 0
    ensures !OnPartial(s, id, size, max, r).1
    decreases size
  {
    var n := Min(size, max);
    if |r| >= n {
      PartialStops(OnChunk(s, id, r[..n]), id, size - n, max, r[n..]);
    }
  }

  /** A server that is sent any sequence of frames ends up as if it had carried them out one by one. */
  lemma ServesFrames(s: Server, cs: seq<Command>)
    requires forall c | c in cs :: Sendable(true, c)
    ensures Served(s, EncodeAll(cs)) == OnCommands(s, cs)
  {
    StreamRoundTrip(true, cs, []);
    assert EncodeAll(cs) + [] == EncodeAll(cs);
    assert cs + [] == cs;
  }
}
