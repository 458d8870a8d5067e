/**
 * WebSocket messages inside a channel (document/forward.md): a type byte, chunks of flag, 16-bit
 * length and data, and flag 1 on the last chunk. There are two encoders, `websocketWriter` of the
 * client and `readWS` of the server, and two decoders, `websocketReader` and `writeWS`.
 */
module Websockets {
  import opened Bytes
  import opened ReadWriters

  const MORE: byte := 0
  const LAST: byte := 1

  function ChunkBytes(flag: byte, data: seq<byte>): seq<byte> {
    [flag] + BigEndian(|data|, 2) + data
  }

  function ChunksBytes(chunks: seq<seq<byte>>): seq<byte> {
    if chunks == [] then [] else ChunkBytes(MORE, chunks[0]) + ChunksBytes(chunks[1..])
  }

  function MessageBytes(kind: byte, chunks: seq<seq<byte>>, last: seq<byte>): seq<byte> {
    [kind] + (ChunksBytes(chunks) + ChunkBytes(LAST, last))
  }

  /** A text message "Hi" and its end as they go over the wire (document/forward.md). */
  lemma MessageOnTheWire()
    ensures MessageBytes(1, [[72, 105]], []) == [1, 0, 0, 2, 72, 105, 1, 0, 0]
  {
    assert [[72 as byte, 105]][1..] == [];
    assert BigEndian(2, 2) == [0, 2] && BigEndian(0, 2) == [0, 0];
    assert ChunksBytes([[72, 105]]) == ChunkBytes(MORE, [72, 105]);
  }

  predicate Fits(data: seq<byte>) {
    |data| <= MAX_UINT16
  }

  lemma {:induction false} ChunksAppend(chunks: seq<seq<byte>>, data: seq<byte>)
    ensures ChunksBytes(chunks + [data]) == ChunksBytes(chunks) + ChunkBytes(MORE, data)
  {
    if chunks == [] {
      assert chunks + [data] == [data];
      assert [data][1..] == [];
    } else {
      assert (chunks + [data])[1..] == chunks[1..] + [data];
      ChunksAppend(chunks[1..], data);
    }
  }

  // ---- decoding ----

  /**
   * `Whole`: the message and what follows it. `Cut`: the stream ends between chunks or inside the
   * data of a chunk, which is the last or not. `Broken`: it ends inside a chunk header.
   */
  datatype Decoded =
    | Whole(payload: seq<byte>, rest: seq<byte>)
    | Cut(payload: seq<byte>, last: bool)
    | Broken(payload: seq<byte>)

  function Prefix(data: seq<byte>, d: Decoded): Decoded {
    d.(payload := data + d.payload)
  }

  /** Which flags end a message: any but 0 for the client, 1 alone for the server. */
  predicate Ends(client: bool, flag: byte) {
    if client then flag != MORE else flag == LAST
  }

  /** Reading on when `n` bytes of a chunk with this flag are still to come. */
  function Decode(client: bool, flag: byte, n: nat, r: seq<byte>): Decoded
    decreases |r|
  {
    if |r| < n then Cut(r, Ends(client, flag))
    else if Ends(client, flag) then Whole(r[..n], r[n..])
    else Prefix(r[..n], DecodeNext(client, r[n..]))
  }

  function DecodeNext(client: bool, r: seq<byte>): Decoded
    decreases |r|, 0
  {
    if r == [] then Cut([], false)
    else if |r| < 3 then Broken([])
    else Decode(client, r[0], Number(r[1..3]), r[3..])
  }

  lemma DecodeChunk(client: bool, flag: byte, data: seq<byte>, tail: seq<byte>)
    requires Fits(data)
    ensures DecodeNext(client, ChunkBytes(flag, data) + tail)
         == if Ends(client, flag) then Whole(data, tail) else Prefix(data, DecodeNext(client, tail))
  {
    var r := ChunkBytes(flag, data) + tail;
    U16RoundTrip(|data|);
    assert r[0] == flag && r[1..3] == BigEndian(|data|, 2) && r[3..] == data + tail;
    assert (data + tail)[..|data|] == data && (data + tail)[|data|..] == tail;
  }

  lemma {:induction false} DecodeChunks(client: bool, chunks: seq<seq<byte>>, last: seq<byte>, tail: seq<byte>)
    requires Fits(last) && (forall c | c in chunks :: Fits(c))
    ensures DecodeNext(client, ChunksBytes(chunks) + ChunkBytes(LAST, last) + tail)
         == Whole(Concat(chunks) + last, tail)
  {
    if chunks == [] {
      assert ChunksBytes(chunks) + ChunkBytes(LAST, last) + tail == ChunkBytes(LAST, last) + tail;
      DecodeChunk(client, LAST, last, tail);
      assert Concat(chunks) + last == last;
    } else {
      var more := ChunksBytes(chunks[1..]) + ChunkBytes(LAST, last);
      Regroup(ChunkBytes(MORE, chunks[0]), ChunksBytes(chunks[1..]), ChunkBytes(LAST, last));
      Regroup(ChunkBytes(MORE, chunks[0]), more, tail);
      DecodeChunk(client, MORE, chunks[0], more + tail);
      DecodeChunks(client, chunks[1..], last, tail);
      Regroup(chunks[0], Concat(chunks[1..]), last);
    }
  }

  datatype Message = Message(kind: byte, body: Decoded) | Nothing

  /** Both decoders read the type and the first header in one go. */
  function DecodeMessage(client: bool, r: seq<byte>): Message {
    if |r| < 4 then Nothing else Message(r[0], DecodeNext(client, r[1..]))
  }

  /**
   * Both decoders recover type and payload, however the message was cut into chunks, and stop
   * exactly at its end.
   */
  lemma MessageRoundTrip(client: bool, kind: byte, chunks: seq<seq<byte>>, last: seq<byte>, tail: seq<byte>)
    requires Fits(last) && (forall c | c in chunks :: Fits(c))
    ensures DecodeMessage(client, MessageBytes(kind, chunks, last) + tail)
         == Message(kind, Whole(Concat(chunks) + last, tail))
  {
    var r := MessageBytes(kind, chunks, last) + tail;
    DecodeChunks(client, chunks, last, tail);
    assert r[1..] == ChunksBytes(chunks) + ChunkBytes(LAST, last) + tail;
  }

  lemma {:induction false} DecodeConsumes(client: bool, r: seq<byte>)
    ensures var d := DecodeNext(client, r); d.Whole? ==> |d.rest| <= |r| - 3
    decreases |r|
  {
    if |r| >= 3 {
      var n, next := Number(r[1..3]), r[3..];
      if |next| >= n {
        DecodeConsumes(client, next[n..]);
      }
    }
  }

  /** Up to the end of the message all flags are 0 or 1; `flag` is that of the current chunk. */
  predicate Plain(flag: byte, n: nat, r: seq<byte>)
    decreases |r|
  {
    && flag <= 1
    && (|r| >= n && flag == MORE && |r[n..]| >= 3 ==> Plain(r[n..][0], Number(r[n..][1..3]), r[n..][3..]))
  }

  lemma PrefixInjective(data: seq<byte>, d: Decoded, e: Decoded)
    requires Prefix(data, d) == Prefix(data, e)
    ensures d == e
  {
    assert (data + d.payload)[|data|..] == d.payload;
    assert (data + e.payload)[|data|..] == e.payload;
  }

  lemma {:induction false} ChunksAgree(flag: byte, n: nat, r: seq<byte>)
    ensures Decode(true, flag, n, r) == Decode(false, flag, n, r) <==> Plain(flag, n, r)
    decreases |r|
  {
    var next := if |r| >= n then r[n..] else [];
    if flag > 1 {
      DecodeConsumes(false, next);
    } else if flag == MORE && |next| >= 3 {
      ChunksAgree(next[0], Number(next[1..3]), next[3..]);
      var d, e := DecodeNext(true, next), DecodeNext(false, next);
      if Prefix(r[..n], d) == Prefix(r[..n], e) {
        PrefixInjective(r[..n], d, e);
      }
    }
  }

  predicate PlainMessage(r: seq<byte>) {
    |r| >= 4 ==> Plain(r[1], Number(r[2..4]), r[4..])
  }

  /** The two decoders agree on a stream exactly when the flags of its first message are 0 and 1. */
  lemma DecodersAgree(r: seq<byte>)
    ensures DecodeMessage(true, r) == DecodeMessage(false, r) <==> PlainMessage(r)
  {
    if |r| >= 4 {
      assert r[1..][1..3] == r[2..4] && r[1..][3..] == r[4..];
      ChunksAgree(r[1], Number(r[2..4]), r[4..]);
    }
  }

  // ---- websocketWriter ----

  class Writer {
    const kind: byte
    var closed: bool
    var writerd: bool
    var failed: bool
    /** Everything this writer has put on the channel. */
    var out: seq<byte>

    constructor (kind: byte)
      ensures this.kind == kind && !closed && !writerd && !failed && out == []
    {
      this.kind, closed, writerd, failed, out := kind, false, false, false, [];
    }

    /** A first `Write` puts the type byte ahead; only a second `Close` makes `Write` fail. */
    method Write(p: seq<byte>) returns (n: nat, ghost cut: seq<seq<byte>>)
      modifies this`writerd, this`out
      ensures failed ==> n == 0 && out == old(out) && writerd == old(writerd)
      ensures !failed ==> n == |p| && Concat(cut) == p && writerd
      ensures !failed ==> out == old(out) + Emitted(kind, !old(writerd), cut)
      ensures forall c | c in cut :: 0 < |c| && Fits(c)
    {
      n, cut := 0, [];
      if failed {
        return;
      }
      ghost var was, first := out, !writerd;
      if !writerd {
        out := out + [kind];
        writerd := true;
      }
      var b := p;
      while |b| != 0
        invariant n + |b| == |p| && Concat(cut) + b == p && writerd
        invariant forall c | c in cut :: 0 < |c| && Fits(c)
        invariant out == was + Emitted(kind, first, cut)
        decreases |b|
      {
        var size := if |b| > MAX_UINT16 then MAX_UINT16 else |b|;
        var data := b[..size];
        assert b == data + b[size..];
        EmitMore(was, kind, first, cut, data, b[size..]);
        out := out + ([MORE] + BigEndian(size, 2));
        out := out + data;
        cut := cut + [data];
        n := n + size;
        b := b[size..];
      }
    }

    /** The end of the message is written whether or not its type has been. */
    method Close() returns (ok: bool)
      modifies this`closed, this`failed, this`out
      ensures closed && ok == !old(closed) && failed == (old(failed) || old(closed))
      ensures out == if old(closed) then old(out) else old(out) + ChunkBytes(LAST, [])
    {
      ok := !closed;
      if closed {
        failed := true;
      } else {
        closed := true;
        assert ChunkBytes(LAST, []) == [LAST] + BigEndian(0, 2);
        out := out + ([LAST] + BigEndian(0, 2));
      }
    }
  }

  /** What a `Write` puts on the channel: its data in chunks, after the type if it is the first. */
  function Emitted(kind: byte, first: bool, cut: seq<seq<byte>>): seq<byte> {
    (if first then [kind] else []) + ChunksBytes(cut)
  }

  lemma EmitMore(out: seq<byte>, kind: byte, first: bool, cut: seq<seq<byte>>, data: seq<byte>, tail: seq<byte>)
    ensures Concat(cut + [data]) + tail == Concat(cut) + (data + tail)
    ensures out + Emitted(kind, first, cut + [data])
         == out + Emitted(kind, first, cut) + ([MORE] + BigEndian(|data|, 2)) + data
  {
    ConcatSnoc(cut, data);
    Regroup(Concat(cut), data, tail);
    EmitTogether(kind, first, cut, [data]);
    assert ChunksBytes([data]) == ChunkBytes(MORE, data) + ChunksBytes([]);
    assert ChunksBytes([data]) == ChunkBytes(MORE, data);
    Regroup(out, Emitted(kind, first, cut), ChunkBytes(MORE, data));
    Regroup(out + Emitted(kind, first, cut), [MORE] + BigEndian(|data|, 2), data);
  }

  lemma EmitTogether(kind: byte, first: bool, a: seq<seq<byte>>, b: seq<seq<byte>>)
    ensures Emitted(kind, first, a + b) == Emitted(kind, first, a) + ChunksBytes(b)
  {
    ChunksTogether(a, b);
    Regroup(if first then [kind] else [], ChunksBytes(a), ChunksBytes(b));
  }

  /** What one message leaves on the channel: its end always, its type only if `Write` was called. */
  function Sent(kind: byte, written: bool, chunks: seq<seq<byte>>): seq<byte> {
    if written then MessageBytes(kind, chunks, []) else ChunkBytes(LAST, [])
  }

  /** `out` is the bytes of the `Write` calls of `parts`, cut into `chunks`. */
  ghost predicate SentSoFar(kind: byte, parts: seq<seq<byte>>, chunks: seq<seq<byte>>, out: seq<byte>) {
    && Concat(chunks) == Concat(parts) && (forall c | c in chunks :: Fits(c))
    && (if parts == [] then out == [] && chunks == [] else out == Emitted(kind, true, chunks))
  }

  lemma SentMore(
    kind: byte, parts: seq<seq<byte>>, chunks: seq<seq<byte>>, out: seq<byte>,
    p: seq<byte>, cut: seq<seq<byte>>, next: seq<byte>)
    requires SentSoFar(kind, parts, chunks, out)
    requires Concat(cut) == p && (forall c | c in cut :: Fits(c))
    requires next == out + Emitted(kind, parts == [], cut)
    ensures SentSoFar(kind, parts + [p], chunks + cut, next)
  {
    ConcatSnoc(parts, p);
    ConcatAppend(chunks, cut);
    EmitTogether(kind, true, chunks, cut);
    assert parts == [] ==> chunks + cut == cut && [] + Emitted(kind, true, cut) == Emitted(kind, true, cut);
    assert [] + ChunksBytes(cut) == ChunksBytes(cut);
  }

  lemma SentEnds(kind: byte, parts: seq<seq<byte>>, chunks: seq<seq<byte>>, out: seq<byte>)
    requires SentSoFar(kind, parts, chunks, out)
    ensures out + ChunkBytes(LAST, []) == Sent(kind, parts != [], chunks)
  {
    Regroup([kind], ChunksBytes(chunks), ChunkBytes(LAST, []));
    assert [] + ChunkBytes(LAST, []) == ChunkBytes(LAST, []);
  }

  /** `NextWriter`, the `Write` calls of `parts`, `Close`. */
  method Send(kind: byte, parts: seq<seq<byte>>) returns (out: seq<byte>, ghost chunks: seq<seq<byte>>)
    ensures Concat(chunks) == Concat(parts) && (forall c | c in chunks :: Fits(c))
    ensures out == Sent(kind, parts != [], chunks)
  {
    var w := new Writer(kind);
    chunks := [];
    for i := 0 to |parts|
      invariant fresh(w) && !w.closed && !w.failed && w.kind == kind && (w.writerd <==> i > 0)
      invariant SentSoFar(kind, parts[..i], chunks, w.out)
    {
      ghost var was := w.out;
      var _, cut := w.Write(parts[i]);
      assert parts[..i + 1] == parts[..i] + [parts[i]];
      SentMore(kind, parts[..i], chunks, was, parts[i], cut, w.out);
      chunks := chunks + cut;
    }
    assert parts[..|parts|] == parts;
    SentEnds(kind, parts, chunks, w.out);
    var _ := w.Close();
    out := w.out;
  }

  lemma {:induction false} ChunksTogether(a: seq<seq<byte>>, b: seq<seq<byte>>)
    ensures ChunksBytes(a + b) == ChunksBytes(a) + ChunksBytes(b)
  {
    if a == [] {
      assert a + b == b;
    } else {
      assert (a + b)[1..] == a[1..] + b;
      ChunksTogether(a[1..], b);
      Regroup(ChunkBytes(MORE, a[0]), ChunksBytes(a[1..]), ChunksBytes(b));
    }
  }

  /** What `Send` leaves on the channel is read back as the message exactly when `Write` was called at all. */
  lemma SentIsRead(client: bool, kind: byte, parts: seq<seq<byte>>, chunks: seq<seq<byte>>, tail: seq<byte>)
    requires Concat(chunks) == Concat(parts) && (forall c | c in chunks :: Fits(c))
    ensures DecodeMessage(client, Sent(kind, parts != [], chunks) + tail) == Message(kind, Whole(Concat(parts), tail)) <==> parts != []
  {
    if parts != [] {
      MessageRoundTrip(client, kind, chunks, [], tail);
      assert Concat(chunks) + [] == Concat(parts);
    } else {
      var r := Sent(kind, false, chunks) + tail;
      assert r[3..] == tail;
      if |r| >= 4 {
        DecodeConsumes(client, r[1..]);
      }
    }
  }

  // ---- readWS ----

  const BUFFER := 1024 * 32

  /** What the reads of one message return: data each, and how many bytes come with EOF. */
  datatype Source = Source(pieces: seq<seq<byte>>, last: seq<byte>)

  /** `readWS`: header and data are put together in `b`, which is used again for every chunk. */
  method ReadWS(kind: byte, source: Source) returns (out: seq<byte>)
    requires source.pieces != [] ==> |source.pieces[0]| <= BUFFER - 4
    requires forall c | c in source.pieces :: |c| <= BUFFER - 3
    requires |source.last| <= BUFFER - 3
    ensures out == if source.pieces == [] then [] else MessageBytes(kind, source.pieces, source.last)
  {
    var b := new byte[BUFFER];
    out := [];
    if source.pieces == [] {
      // the first Read reports EOF: nothing is sent, not even for an empty message
      return;
    }
    out := PutFirst(b, kind, source.pieces[0]);
    assert source.pieces[..1] == [] + [source.pieces[0]];
    ChunksAppend([], source.pieces[0]);
    for i := 1 to |source.pieces|
      invariant out == [kind] + ChunksBytes(source.pieces[..i])
    {
      var data := source.pieces[i];
      var chunk := PutChunk(b, MORE, data);
      ChunksAppend(source.pieces[..i], data);
      assert source.pieces[..i + 1] == source.pieces[..i] + [data];
      Regroup([kind], ChunksBytes(source.pieces[..i]), chunk);
      out := out + chunk;
    }
    assert source.pieces[..|source.pieces|] == source.pieces;
    var end := PutChunk(b, LAST, source.last);
    Regroup([kind], ChunksBytes(source.pieces), end);
    out := out + end;
  }

  /** The type and the first chunk, at the start of `b`. */
  method PutFirst(b: array<byte>, kind: byte, data: seq<byte>) returns (head: seq<byte>)
    requires b.Length == BUFFER && |data| <= BUFFER - 4
    modifies b
    ensures head == [kind] + ChunkBytes(MORE, data)
  {
    var n := Copy(b, 4, b.Length, data);
    assert b[4..4 + n] == data;
    b[0] := kind;
    b[1] := MORE;
    assert b[4..4 + n] == data;
    var _ := Copy(b, 2, 4, BigEndian(n, 2));
    assert b[4..4 + n] == data && b[2..4] == BigEndian(n, 2);
    head := b[..4 + n];
    assert head == [kind] + ([MORE] + b[2..4] + b[4..4 + n]);
  }

  method PutChunk(b: array<byte>, flag: byte, data: seq<byte>) returns (chunk: seq<byte>)
    requires b.Length == BUFFER && |data| <= BUFFER - 3
    modifies b
    ensures chunk == ChunkBytes(flag, data)
  {
    var n := Copy(b, 3, b.Length, data);
    b[0] := flag;
    var _ := Copy(b, 1, 3, BigEndian(n, 2));
    chunk := b[..3 + n];
  }
}
