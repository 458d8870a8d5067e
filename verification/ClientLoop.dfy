/** The command loop of client_transport.go as a program on the bytes of the connection. */
module ClientLoops {
  import opened Bytes
  import opened PipeReaders
  import opened Frames
  import opened ServerTable
  import opened ServerTransports
  import C = ClientTransports
  import P = ClientPool

  /** A reply that finds no `rw` ends the program, so nothing after it counts. */
  function Carried(c: C.Client, cs: seq<Command>): C.Client
    decreases |cs|
  {
    if cs == [] || c.table.crashed then c else Carried(C.OnCommand(c, cs[0]), cs[1..])
  }

  /** The effect of a stream that ends inside a frame: only a Write leaves a trace. */
  function OnClientTail(c: C.Client, r: seq<byte>): C.Client {
    if |r| >= 11 && r[0] == 5 then
      var id, size := Number(r[1..9]), Number(r[9..11]);
      C.Back(c, OnPartial(C.View(c), id, size, BufferSize(C.CLIENT_BUFFER, size), r[11..]).0)
    else c
  }

  function Finish(c: C.Client): C.Client {
    C.Back(c, CloseAll(C.View(c)))
  }

  function OnStream(c: C.Client, input: seq<byte>): C.Client {
    var (cs, end) := ParseAll(false, input);
    var d := Carried(c, cs);
    if d.table.crashed then d else Finish(OnClientTail(d, end))
  }

  /** Every channel is closed, and nothing else has changed. */
  lemma FinishCloses(c: C.Client)
    requires C.ViewOk(c)
    ensures Finish(c) == c.(chans := Finish(c).chans) && AllClosed(C.View(c), C.View(Finish(c)))
  {
    CloseAllCloses(C.View(c));
  }

  lemma {:induction false} CarriedKeepsView(c: C.Client, cs: seq<Command>)
    requires C.ViewOk(c)
    ensures C.ViewOk(Carried(c, cs))
    decreases |cs|
  {
    if cs != [] && !c.table.crashed {
      C.CommandKeepsView(c, cs[0]);
      CarriedKeepsView(C.OnCommand(c, cs[0]), cs[1..]);
    }
  }

  lemma {:induction false} PartialStands(s: Server, id: nat, size: nat, max: nat, r: seq<byte>)
    requires size > 0 ==> max > 0
    ensures var t := OnPartial(s, id, size, max, r).0;
      t == s.(chans := t.chans) && C.SameIds(t.chans, s.chans)
    decreases size
  {
    if size != 0 {
      var n := Min(size, max);
      if |r| >= n {
        PartialStands(OnChunk(s, id, r[..n]), id, size - n, max, r[n..]);
      }
    }
  }

  lemma TailKeepsView(c: C.Client, r: seq<byte>)
    requires C.ViewOk(c)
    ensures C.ViewOk(OnClientTail(c, r))
  {
    if |r| >= 11 && r[0] == 5 {
      var id, size := Number(r[1..9]), Number(r[9..11]);
      var max := BufferSize(C.CLIENT_BUFFER, size);
      PartialKeepsTable(C.View(c), id, size, max, r[11..]);
      PartialStands(C.View(c), id, size, max, r[11..]);
      C.ViewKeeps(c, c.table, OnPartial(C.View(c), id, size, max, r[11..]).0);
    }
  }

  /** What the loop has done when the connection ends, or it crashes. */
  function Heard(c: C.Client, input: seq<byte>): C.Client {
    var (cs, end) := ParseAll(false, input);
    if Carried(c, cs).table.crashed then Carried(c, cs) else OnClientTail(Carried(c, cs), end)
  }

  lemma StreamCloses(c: C.Client, input: seq<byte>)
    requires C.ViewOk(c) && !OnStream(c, input).table.crashed
    ensures AllClosed(C.View(Heard(c, input)), C.View(OnStream(c, input)))
    ensures OnStream(c, input).table == Heard(c, input).table
  {
    var (cs, end) := ParseAll(false, input);
    CarriedKeepsView(c, cs);
    TailKeepsView(Carried(c, cs), end);
    FinishCloses(OnClientTail(Carried(c, cs), end));
  }

  class ClientTransport {
    const window: nat
    const remote: nat
    var used: nat
    var id: nat
    var keys: map<nat, P.Entry>
    var chans: seq<Chan>
    var ch: seq<Out>
    var posts: seq<Out>
    var crashed: bool
    ghost var granted: nat
    ghost var issued: seq<nat>
    ghost var ids: seq<nat>
    ghost var wire: seq<Out>

    ghost function State(): C.Client
      reads this
    {
      C.Client(P.Transport(used, id, keys, granted, issued, ids, crashed), window, remote, chans, ch, posts, wire)
    }

    ghost predicate Valid()
      reads this
    {
      |ids| == |chans|
    }

    constructor (window: nat, remote: nat, granted: nat)
      ensures Valid() && State() == C.Fresh(granted, window, remote)
    {
      this.window, this.remote, this.granted := window, remote, granted;
      used, id, keys, chans, ch, posts, crashed := 1, 0, map[], [], [], [], false;
      issued, ids, wire := [], [], [];
    }

    method PostWrite(o: Out)
      modifies this`ch, this`posts
      ensures State() == C.Back(old(State()), Post(C.View(old(State())), o))
    {
      if |ch| < QUEUE_CAPACITY {
        ch := ch + [o];
      } else {
        posts := posts + [o];
      }
    }

    method SendClose(id: nat)
      modifies this`ch
      ensures State() == old(State()).(ch := old(ch) + [CloseId(id)])
    {
      ch := ch + [CloseId(id)];
    }

    /** `Create`, up to the frame it sends. */
    method Create() returns (frame: seq<byte>)
      requires Valid()
      modifies this`id, this`keys, this`issued
      ensures Valid() && State() == old(State()).(table := P.OnDial(old(State()).table))
      ensures frame == Encode(Command.Create(id))
    {
      id := (id + 1) % (MAX_UINT64 + 1);
      frame := [3] + BigEndian(id, 8);
      keys := keys[id := P.Entry(true, None)];
      issued := issued + [id];
      assert Encode(Command.Create(id)) == [3] + BigEndian(id, 8) + [];
    }

    method CloseChannel(r: Ref)
      modifies this`chans
      ensures State() == C.Back(old(State()), CloseChan(C.View(old(State())), r))
    {
      if r < |chans| {
        chans := chans[r := chans[r].(pipe := chans[r].pipe.(closed := true))];
      }
    }

    method Created(id: nat, code: byte)
      requires Valid()
      modifies this`keys, this`chans, this`ch, this`crashed, this`ids
      ensures Valid() && State() == C.OnCreated(old(State()), id, code)
    {
      if id !in keys {
        SendClose(id);
      } else if keys[id].channel.Some? {
        var r := keys[id].channel.value;
        keys := keys - {id};
        CloseChannel(r);
        SendClose(id);
      } else if !keys[id].waiting {
        crashed := true;
      } else if code == 0 {
        keys := keys[id := P.Entry(false, Some(|chans|))];
        chans := chans + [NewChan(id)];
        ids := ids + [id];
      } else {
        keys := keys[id := P.Entry(false, None)];
      }
    }

    method Close(id: nat)
      requires Valid()
      modifies this`keys, this`chans
      ensures Valid() && State() == C.OnCommand(old(State()), Command.Close(id))
    {
      if id in keys {
        if keys[id].channel.Some? {
          CloseChannel(keys[id].channel.value);
        }
        keys := keys - {id};
      }
    }

    method Pipe(id: nat, chunk: seq<byte>)
      modifies this`chans
      ensures State() == C.Back(old(State()), OnChunk(C.View(old(State())), id, chunk))
      ensures |chans| == old(|chans|)
    {
      if id in keys && keys[id].channel.Some? && keys[id].channel.value < |chans| {
        var r := keys[id].channel.value;
        var pipe := chans[r].pipe;
        if pipe.closed || window - |pipe.contents| < |chunk| {
          pipe := pipe.(closed := true);
        } else {
          pipe := pipe.(contents := pipe.contents + chunk);
        }
        chans := chans[r := chans[r].(pipe := pipe)];
      }
    }

    method Confirm(id: nat, val: nat)
      requires Valid()
      modifies this`chans, this`ch
      ensures Valid() && State() == C.OnConfirmed(old(State()), id, val)
    {
      if id in keys && keys[id].channel.Some? && keys[id].channel.value < |chans| {
        var r := keys[id].channel.value;
        var slot := chans[r].slot;
        if !chans[r].pipe.closed {
          if slot.None? {
            chans := chans[r := chans[r].(slot := Some(val))];
          } else if slot.value + val >= remote {
            chans := chans[r := chans[r].(slot := None)];
            CloseChannel(r);
            SendClose(id);
          } else {
            chans := chans[r := chans[r].(slot := Some(slot.value + val))];
          }
        }
      } else {
        SendClose(id);
      }
    }

    /** The chunk loop of Write on what the stream still holds. */
    method Write(id: nat, length: nat, r: seq<byte>) returns (ok: bool, left: seq<byte>)
      requires Valid()
      modifies this`chans
      ensures Valid()
      ensures var p := OnPartial(old(C.View(State())), id, length, BufferSize(C.CLIENT_BUFFER, length), r);
        State() == C.Back(old(State()), p.0) && ok == p.1 && left == p.2
      ensures ok <==> length <= |r|
      ensures ok ==> left == r[length..] && State() == C.OnCommand(old(State()), Command.Write(id, r[..length]))
    {
      var size: nat := length;
      var max := BufferSize(C.CLIENT_BUFFER, length);
      ghost var s := C.View(State());
      left, ok := r, true;
      while size != 0 && ok
        invariant Valid() && State() == C.Back(old(State()), C.View(State()))
        invariant size > 0 ==> max > 0
        invariant ok ==> OnPartial(C.View(State()), id, size, max, left) == OnPartial(s, id, length, max, r)
        invariant !ok ==> (C.View(State()), false, left) == OnPartial(s, id, length, max, r)
        decreases size, ok
      {
        var n: nat := size;
        if size > max {
          n := max;
        }
        if |left| < n {
          ok := false;
        } else {
          size := size - n;
          Pipe(id, left[..n]);
          left := left[n..];
        }
      }
      if length <= |r| {
        PartialIsChunks(s, id, r[..length], max, r[length..]);
        assert r == r[..length] + r[length..];
      } else {
        PartialStops(s, id, length, max, r);
      }
    }

    /** One turn of the loop; it also ends with a crash. */
    method Turn(r: seq<byte>) returns (more: bool, left: seq<byte>)
      requires Valid() && !crashed
      modifies this`keys, this`chans, this`ch, this`posts, this`crashed, this`ids
      ensures Valid()
      ensures more ==> Parse(false, r).Got? && left == Parse(false, r).rest && |left| < |r|
      ensures more ==> State() == C.OnCommand(old(State()), Parse(false, r).command)
      ensures !more ==> !Parse(false, r).Got? && State() == OnClientTail(old(State()), r)
    {
      more, left := false, r;
      if |r| < 1 {
        return;
      }
      var size := HeadSize(false, r[0]);
      if !(1 <= r[0] <= 6) || |r| < 1 + size {
        return;
      }
      var head := r[1..1 + size];
      more, left := true, r[1 + size..];
      match r[0]
      case 1 =>
      case 2 => PostWrite(Echo(head));
      case 3 => Created(Number(head[..8]), head[8]);
      case 4 => Close(Number(head));
      case 5 =>
        var id, length := Number(head[..8]), Number(head[8..]);
        HeadSlices(r, head);
        more, left := Write(id, length, left);
      case 6 => Confirm(Number(head[..8]), Number(head[8..]));
    }

    method CleanUp()
      modifies this`chans
      ensures State() == Finish(old(State()))
    {
      chans := seq(|chans|, r requires 0 <= r < |chans| reads this =>
        if chans[r].id in keys && keys[chans[r].id].channel == Some(r)
        then chans[r].(pipe := chans[r].pipe.(closed := true)) else chans[r]);
    }

    /**
     * `Serve` on everything the connection delivers: the commands of the stream are carried out in
     * order, then the whole chunks of a Write it breaks off in, and then all channels are closed.
     */
    method Serve(input: seq<byte>)
      requires Valid() && !crashed
      modifies this`keys, this`chans, this`ch, this`posts, this`crashed, this`ids
      ensures State() == OnStream(old(State()), input)
      ensures C.ViewOk(old(State())) && !crashed ==>
                AllClosed(C.View(Heard(old(State()), input)), C.View(State())) && keys == Heard(old(State()), input).table.keys
    {
      var r, more := input, true;
      while more && !crashed
        invariant Valid()
        invariant more ==> ParseAll(false, r).1 == ParseAll(false, input).1
        invariant more ==> Carried(State(), ParseAll(false, r).0) == Carried(old(State()), ParseAll(false, input).0)
        invariant !more ==> !crashed && !Carried(old(State()), ParseAll(false, input).0).table.crashed
        invariant !more ==>
          State() == OnClientTail(Carried(old(State()), ParseAll(false, input).0), ParseAll(false, input).1)
        decreases more, |r|
      {
        more, r := Turn(r);
      }
      if !crashed {
        CleanUp();
      }
      if C.ViewOk(old(State())) && !crashed {
        StreamCloses(old(State()), input);
      }
    }
  }

  /** A client that is sent any sequence of frames ends up as if it had carried them out one by one. */
  lemma ClientServesFrames(c: C.Client, cs: seq<Command>)
    requires forall x | x in cs :: Sendable(false, x)
    ensures var d := Carried(c, cs);
      OnStream(c, EncodeAll(cs)) == if d.table.crashed then d else Finish(d)
  {
    StreamRoundTrip(false, cs, []);
    assert EncodeAll(cs) + [] == EncodeAll(cs);
    assert cs + [] == cs;
  }
}
