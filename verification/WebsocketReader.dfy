/** The two decoders of WebSocket messages as programs: `websocketReader` and `writeWS`. */
module WebsocketReaders {
  import opened Bytes
  import opened Websockets

  datatype ReadError = NoError | EOF | UnexpectedEOF

  /** `io.ReadFull(conn, b)` with `|b| == n > 0`. */
  function ReadFull(conn: seq<byte>, n: nat): (ReadError, seq<byte>, seq<byte>)
    requires n > 0
  {
    if conn == [] then (EOF, [], [])
    else if |conn| < n then (UnexpectedEOF, conn, [])
    else (NoError, conn[..n], conn[n..])
  }

  /** Taking the first bytes of a chunk does not change what is decoded in all. */
  lemma DecodeTake(client: bool, flag: byte, n: nat, r: seq<byte>, k: nat)
    requires k <= n && k <= |r|
    ensures Decode(client, flag, n, r) == Prefix(r[..k], Decode(client, flag, n - k, r[k..]))
  {
    var tail := r[k..];
    assert r == r[..k] + tail;
    if |r| >= n {
      assert tail[n - k..] == r[n..];
      assert r[..n] == r[..k] + tail[..n - k];
      Regroup(r[..k], tail[..n - k], DecodeNext(client, r[n..]).payload);
    }
  }

  /** A header opens its chunk; without data this is passed over, or ends the message. */
  lemma DecodeHeader(client: bool, r: seq<byte>, header: seq<byte>, rest: seq<byte>)
    requires |header| == 3 && r == header + rest
    ensures DecodeNext(client, r) == Decode(client, header[0], Number(header[1..3]), rest)
    ensures Number(header[1..3]) == 0 ==>
              DecodeNext(client, r) == if Ends(client, header[0]) then Whole([], rest) else DecodeNext(client, rest)
  {
    assert r[1..3] == header[1..3] && r[3..] == rest;
    assert rest[..0] == [] && rest[0..] == rest;
    var d := DecodeNext(client, rest);
    assert [] + d.payload == d.payload;
  }

  class Reader {
    /** What the channel still delivers. */
    var conn: seq<byte>
    /** `b`: the header of the current chunk; `r`: how much of it is left, if a chunk is open. */
    var flag: byte
    var left: Option<nat>
    var err: ReadError

    /** What is still to be read of the message. */
    ghost function ToCome(): Decoded
      reads this
    {
      if left.Some? then Decode(true, flag, left.value, conn) else DecodeNext(true, conn)
    }

    ghost function Work(): nat
      reads this
    {
      |conn| + if left.Some? then 1 else 0
    }

    /** `NextReader`, after its header of four bytes. */
    constructor (flag: byte, size: nat, conn: seq<byte>)
      ensures this.conn == conn && this.flag == flag && left == Some(size) && err == NoError
    {
      this.conn, this.flag, this.left, this.err := conn, flag, Some(size), NoError;
    }

    /**
     * The `for` loop of `Read`: headers are read until one opens a chunk with data or ends the
     * message.
     */
    method NextChunk() returns (e: ReadError)
      requires err == NoError
      modifies this`conn, this`flag, this`left, this`err
      ensures err == e
      ensures e == NoError ==> left.Some? && old(ToCome()) == ToCome() && Work() <= old(Work())
      ensures e == EOF ==> Over(old(ToCome()), conn)
      ensures e == UnexpectedEOF ==> old(ToCome()) == Broken([]) && conn == []
    {
      e := NoError;
      ghost var was := ToCome();
      while left == None && e == NoError
        invariant e == err
        invariant e == NoError ==> was == ToCome() && Work() <= old(Work())
        invariant e == EOF ==> Over(was, conn)
        invariant e == UnexpectedEOF ==> was == Broken([]) && conn == []
        decreases |conn|, left == None, e == NoError
      {
        var (failed, header, rest) := ReadFull(conn, 3);
        if failed == NoError {
          DecodeHeader(true, conn, header, rest);
        }
        conn, e := rest, failed;
        if e == NoError {
          flag := header[0];
          var size := Number(header[1..3]);
          if size != 0 {
            left := Some(size);
          } else if flag != MORE {
            e := EOF;
          }
        }
        err := e;
      }
    }

    /**
     * `Read(b)` with `|b| == size`, when the channel hands over at most `piece` bytes at a time. A
     * read of nothing without error is possible at the end of a chunk.
     */
    method Read(size: nat, piece: nat) returns (data: seq<byte>, e: ReadError)
      requires size > 0 && piece > 0
      modifies this`conn, this`flag, this`left, this`err
      ensures |data| <= size && |data| <= piece && (e != NoError ==> data == [])
      ensures old(err) != NoError ==> e == NoError && data == [] && conn == old(conn) && err == old(err)
      ensures old(err) == NoError ==> err == e
      ensures old(err) == e == NoError ==> old(ToCome()) == Prefix(data, ToCome()) && Work() < old(Work())
      ensures old(err) == NoError && e == EOF ==> Over(old(ToCome()), conn)
      ensures old(err) == NoError && e == UnexpectedEOF ==> old(ToCome()) == Broken([]) && conn == []
    {
      data, e := [], NoError;
      if err == NoError {
        e := NextChunk();
        if e == NoError {
          data, e := ReadChunk(Min(size, piece));
        }
      }
    }

    /** The read from the open chunk, of at most `limit` bytes. */
    method ReadChunk(limit: nat) returns (data: seq<byte>, e: ReadError)
      requires limit > 0 && left.Some? && err == NoError
      modifies this`conn, this`left, this`err
      ensures |data| <= limit && (e != NoError ==> data == []) && err == e != UnexpectedEOF
      ensures e == NoError ==> old(ToCome()) == Prefix(data, ToCome()) && Work() < old(Work())
      ensures e == EOF ==> Over(old(ToCome()), conn)
    {
      data, e := [], NoError;
      var n := Min(limit, Min(left.value, |conn|));
      if n > 0 {
        DecodeTake(true, flag, left.value, conn, n);
        data, conn, left := conn[..n], conn[n..], Some(left.value - n);
      } else if flag != MORE {
        e, err := EOF, EOF;
      } else {
        left := None;
      }
    }
  }

  /** Nothing is left to read of a message: it is complete, or the channel has ended. */
  predicate Over(d: Decoded, conn: seq<byte>) {
    d.payload == [] && (d == Whole([], conn) || (d.Cut? && conn == []))
  }

  /** What `ReadMessage` reports for a stream. */
  function Report(r: seq<byte>): (ReadError, seq<byte>, seq<byte>) {
    if r == [] then (EOF, [], [])
    else if |r| < 4 then (UnexpectedEOF, [], [])
    else
      match DecodeMessage(true, r).body
      case Whole(payload, rest) => (NoError, payload, rest)
      case Cut(payload, _) => (NoError, payload, [])
      case Broken(payload) => (UnexpectedEOF, payload, [])
  }

  /**
   * `ReadMessage`: `NextReader`, then `io.ReadAll`. Neither the sizes of its buffers nor how the
   * channel hands over its bytes change the result, which is what is decoded; but a message cut off
   * outside a header is taken for a complete one.
   */
  method ReadMessage(conn: seq<byte>, size: nat -> nat, piece: nat -> nat)
    returns (kind: byte, data: seq<byte>, e: ReadError, rest: seq<byte>)
    requires forall i :: size(i) > 0 && piece(i) > 0
    ensures (e, data, rest) == Report(conn)
    ensures |conn| >= 4 ==> kind == conn[0]
  {
    kind, data := 0, [];
    var (failed, header, after) := ReadFull(conn, 4);
    e, rest := failed, after;
    if e != NoError {
      return;
    }
    kind := header[0];
    DecodeHeader(true, conn[1..], header[1..4], after);
    assert header[1..4][1..3] == header[2..4];
    var reader := new Reader(header[1], Number(header[2..4]), after);
    ghost var all := reader.ToCome();
    var i := 0;
    while e == NoError
      invariant fresh(reader) && reader.err == e
      invariant e == NoError ==> all == Prefix(data, reader.ToCome())
      invariant e == EOF ==> all.payload == data
                             && (if all.Whole? then all.rest == reader.conn else all.Cut? && reader.conn == [])
      invariant e == UnexpectedEOF ==> all == Broken(data) && reader.conn == []
      decreases e == NoError, reader.Work()
    {
      ghost var was, before := data, reader.ToCome();
      var more: seq<byte>;
      more, e := reader.Read(size(i), piece(i));
      Regroup(was, more, reader.ToCome().payload);
      data := data + more;
      i := i + 1;
    }
    rest := reader.conn;
    if e == EOF {
      e := NoError;
    }
  }

  /** A whole message is reported with its data and leaves what follows it. */
  lemma WholeIsReported(kind: byte, chunks: seq<seq<byte>>, last: seq<byte>, tail: seq<byte>)
    requires Fits(last) && (forall c | c in chunks :: Fits(c))
    ensures Report(MessageBytes(kind, chunks, last) + tail) == (NoError, Concat(chunks) + last, tail)
  {
    MessageRoundTrip(true, kind, chunks, last, tail);
  }

  // ---- writeWS ----

  /** The message types of RFC 6455, section 5.2, that `NextWriter` accepts. */
  predicate Known(kind: byte) {
    kind in {1, 2, 8, 9, 10}
  }

  /** Text, binary, close, ping and pong, and no other. */
  lemma KnownTypes(kind: byte)
    ensures Known(kind) <==> kind == 1 || kind == 2 || (8 <= kind <= 10)
  {
  }

  /** What the WebSocket connection is given: a message type, and its data up to the writer's `Close`. */
  datatype Forwarded = Forwarded(kind: byte, data: seq<byte>)

  /** `io.Copy(w, io.LimitReader(conn, l))`, which does not report that the stream was too short. */
  function CopyLimited(conn: seq<byte>, l: nat): (seq<byte>, seq<byte>) {
    if l == 0 then ([], conn) else (conn[..Min(l, |conn|)], conn[Min(l, |conn|)..])
  }

  lemma DecodeCopied(flag: byte, n: nat, r: seq<byte>)
    ensures var (data, rest) := CopyLimited(r, n);
      Decode(false, flag, n, r)
        == if |r| < n then Cut(data, flag == LAST)
           else if flag == LAST then Whole(data, rest)
           else Prefix(data, DecodeNext(false, rest))
  {
    assert |r| < n ==> r[..|r|] == r;
    assert n == 0 ==> r[..0] == [] && r[0..] == r;
  }

  /** The server closes the channel after a message with this outcome. */
  predicate GivesUp(d: Decoded) {
    d.Broken? || (d.Cut? && !d.last)
  }

  /** The server closes the channel on this stream. */
  predicate ClosesOn(r: seq<byte>) {
    |r| < 4 || (Known(r[0]) && GivesUp(DecodeMessage(false, r).body))
  }

  /**
   * `writeWS` gives the WebSocket connection what is decoded, and keeps the channel open exactly when
   * the stream holds the last chunk's header, whether or not it holds all its data.
   */
  method WriteWS(conn: seq<byte>) returns (closed: bool, out: Option<Forwarded>, rest: seq<byte>)
    ensures closed == ClosesOn(conn)
    ensures |conn| < 4 ==> out == None
    ensures |conn| >= 4 && !Known(conn[0]) ==> out == None && rest == conn[4..]
    ensures |conn| >= 4 && Known(conn[0]) ==>
              var d := DecodeMessage(false, conn).body;
              && out == Some(Forwarded(conn[0], d.payload))
              && rest == if d.Whole? then d.rest else []
  {
    closed, out := false, None;
    var (failed, b, after) := ReadFull(conn, 4);
    rest := after;
    if failed != NoError {
      closed := true;
      return;
    }
    if !Known(b[0]) {
      return;
    }
    DecodeHeader(false, conn[1..], b[1..4], after);
    assert b[1..4][1..3] == b[2..4];
    ghost var all := DecodeMessage(false, conn).body;
    var end, l := b[1] == LAST, Number(b[2..4]);
    DecodeCopied(b[1], l, rest);
    var (data, left) := CopyLimited(rest, l);
    ghost var short := |rest| < l;
    rest := left;
    while !end && !closed
      invariant !closed && end ==> all == if short then Cut(data, true) else Whole(data, rest)
      invariant !closed && !end ==> all == Prefix(data, if short then Cut([], false) else DecodeNext(false, rest))
      invariant short ==> rest == []
      invariant closed ==> all.payload == data && rest == [] && GivesUp(all)
      decreases |rest|, !closed
    {
      assert data + [] == data;
      var (failed, b, after) := ReadFull(rest, 3);
      if failed != NoError {
        closed, rest := true, [];
      } else {
        DecodeHeader(false, rest, b, after);
        end, l := b[0] == LAST, Number(b[1..3]);
        DecodeCopied(b[0], l, after);
        short := |after| < l;
        var (more, left) := CopyLimited(after, l);
        Regroup(data, more, DecodeNext(false, left).payload);
        data, rest := data + more, left;
      }
    }
    out := Some(Forwarded(b[0], data));
  }

  // ---- streams of messages ----

  /** A message as its sender cut it. */
  datatype Packet = Packet(kind: byte, chunks: seq<seq<byte>>, last: seq<byte>)

  predicate Packed(p: Packet) {
    Fits(p.last) && forall c | c in p.chunks :: Fits(c)
  }

  function StreamBytes(packets: seq<Packet>): seq<byte> {
    if packets == [] then []
    else MessageBytes(packets[0].kind, packets[0].chunks, packets[0].last) + StreamBytes(packets[1..])
  }

  function Bodies(packets: seq<Packet>): seq<Forwarded> {
    if packets == [] then []
    else [Forwarded(packets[0].kind, Concat(packets[0].chunks) + packets[0].last)] + Bodies(packets[1..])
  }

  /** Message after message, as long as they are whole. */
  function DecodeAll(client: bool, r: seq<byte>): seq<Forwarded>
    decreases |r|
  {
    if |r| < 4 then [] else
      var m := DecodeMessage(client, r);
      DecodeConsumes(client, r[1..]);
      if !m.body.Whole? then [] else [Forwarded(m.kind, m.body.payload)] + DecodeAll(client, m.body.rest)
  }

  /** Any list of messages is recovered by the opposite decoder, type by type and byte by byte. */
  lemma {:induction false} MessagesRoundTrip(client: bool, packets: seq<Packet>)
    requires forall p | p in packets :: Packed(p)
    ensures DecodeAll(client, StreamBytes(packets)) == Bodies(packets)
  {
    if packets != [] {
      var p, rest := packets[0], StreamBytes(packets[1..]);
      assert Packed(p);
      MessageRoundTrip(client, p.kind, p.chunks, p.last, rest);
      MessagesRoundTrip(client, packets[1..]);
    }
  }

  // ---- reading while the stream still grows ----

  /** A message that is whole is not changed by what arrives after it. */
  lemma {:induction false} WholeExtends(client: bool, r: seq<byte>, more: seq<byte>)
    requires DecodeNext(client, r).Whole?
    ensures var d := DecodeNext(client, r);
      DecodeNext(client, r + more) == Whole(d.payload, d.rest + more)
    decreases |r|
  {
    var n, rest := Number(r[1..3]), r[3..];
    assert (r + more)[1..3] == r[1..3] && (r + more)[3..] == rest + more;
    assert (rest + more)[..n] == rest[..n] && (rest + more)[n..] == rest[n..] + more;
    if !Ends(client, r[0]) {
      WholeExtends(client, rest[n..], more);
    }
  }

  /** The messages decoded so far are the first ones of those decoded in the end. */
  lemma {:induction false} DecodedSoFar(client: bool, r: seq<byte>, more: seq<byte>)
    ensures DecodeAll(client, r) <= DecodeAll(client, r + more)
    decreases |r|
  {
    if |r| >= 4 && DecodeMessage(client, r).body.Whole? {
      assert (r + more)[1..] == r[1..] + more;
      WholeExtends(client, r[1..], more);
      DecodeConsumes(client, r[1..]);
      DecodedSoFar(client, DecodeMessage(client, r).body.rest, more);
    }
  }

  // ---- streams that are cut off ----

  /** Position `m` of the chunks lies strictly inside the header of one of them, or of the last chunk. */
  ghost predicate InsideHeader(chunks: seq<seq<byte>>, m: nat) {
    exists i | 0 <= i <= |chunks| :: |ChunksBytes(chunks[..i])| < m < |ChunksBytes(chunks[..i])| + 3
  }

  lemma InsideFirst(chunks: seq<seq<byte>>, m: nat)
    requires m < 3 || chunks == [] || m < 3 + |chunks[0]|
    ensures InsideHeader(chunks, m) <==> 0 < m < 3
  {
    assert chunks[..0] == [];
    forall i | 1 <= i <= |chunks| ensures |ChunksBytes(chunks[..i])| >= 3 + |chunks[0]| {
    }
  }

  lemma InsideLater(chunks: seq<seq<byte>>, m: nat)
    requires chunks != [] && m >= 3 + |chunks[0]|
    ensures InsideHeader(chunks, m) <==> InsideHeader(chunks[1..], m - 3 - |chunks[0]|)
  {
    var rest, k := chunks[1..], 3 + |chunks[0]|;
    assert chunks[..0] == [];
    forall i | 0 <= i <= |rest| ensures |ChunksBytes(chunks[..i + 1])| == k + |ChunksBytes(rest[..i])| {
      assert chunks[..i + 1][1..] == rest[..i];
    }
    if InsideHeader(chunks, m) {
      var i :| 0 <= i <= |chunks| && |ChunksBytes(chunks[..i])| < m < |ChunksBytes(chunks[..i])| + 3;
      assert |ChunksBytes(chunks[..(i - 1) + 1])| == k + |ChunksBytes(rest[..i - 1])|;
    }
    if InsideHeader(rest, m - k) {
      var i :| 0 <= i <= |rest| && |ChunksBytes(rest[..i])| < m - k < |ChunksBytes(rest[..i])| + 3;
      assert |ChunksBytes(chunks[..i + 1])| == k + |ChunksBytes(rest[..i])|;
    }
  }

  lemma CutParts<T>(flag: T, length: seq<T>, data: seq<T>, m: nat)
    requires |length| == 2 && 3 <= m <= 3 + |data|
    ensures var r := ([flag] + length + data)[..m];
      r[0] == flag && r[1..3] == length && r[3..] == data[..m - 3]
  {
  }

  lemma CutChunk(client: bool, flag: byte, data: seq<byte>, m: nat)
    requires Fits(data) && m < 3 + |data|
    ensures DecodeNext(client, ChunkBytes(flag, data)[..m])
         == if m == 0 then Cut([], false) else if m < 3 then Broken([]) else Cut(data[..m - 3], Ends(client, flag))
  {
    if m >= 3 {
      U16RoundTrip(|data|);
      CutParts(flag, BigEndian(|data|, 2), data, m);
    }
  }

  /** The data of the chunks ahead of position `m`. */
  function DataUpTo(chunks: seq<seq<byte>>, last: seq<byte>, m: nat): seq<byte> {
    if chunks == [] then last[..Min(|last|, if m < 3 then 0 else m - 3)]
    else
      var end := 3 + |chunks[0]|;
      if m < end then chunks[0][..if m < 3 then 0 else m - 3] else chunks[0] + DataUpTo(chunks[1..], last, m - end)
  }

  /** What is decoded of chunks that are cut off at position `m`. */
  ghost predicate CutAs(d: Decoded, chunks: seq<seq<byte>>, last: seq<byte>, m: nat) {
    && !d.Whole? && d.payload == DataUpTo(chunks, last, m) <= Concat(chunks) + last
    && (d.Broken? <==> InsideHeader(chunks, m))
    && (d.Cut? ==> (d.last <==> |ChunksBytes(chunks)| + 3 <= m))
  }

  function Stream(chunks: seq<seq<byte>>, last: seq<byte>): seq<byte> {
    ChunksBytes(chunks) + ChunkBytes(LAST, last)
  }

  lemma StreamSplits(chunks: seq<seq<byte>>, last: seq<byte>)
    requires chunks != []
    ensures Stream(chunks, last) == ChunkBytes(MORE, chunks[0]) + Stream(chunks[1..], last)
    ensures Concat(chunks) + last == chunks[0] + (Concat(chunks[1..]) + last)
  {
    Regroup(ChunkBytes(MORE, chunks[0]), ChunksBytes(chunks[1..]), ChunkBytes(LAST, last));
    Regroup(chunks[0], Concat(chunks[1..]), last);
  }

  lemma CutLast(client: bool, last: seq<byte>, m: nat)
    requires Fits(last) && m < 3 + |last|
    ensures CutAs(DecodeNext(client, Stream([], last)[..m]), [], last, m)
  {
    assert Stream([], last) == ChunkBytes(LAST, last);
    CutChunk(client, LAST, last, m);
    InsideFirst([], m);
  }

  lemma CutFirst(client: bool, chunks: seq<seq<byte>>, last: seq<byte>, m: nat)
    requires chunks != [] && Fits(chunks[0]) && m < 3 + |chunks[0]|
    ensures CutAs(DecodeNext(client, Stream(chunks, last)[..m]), chunks, last, m)
  {
    StreamSplits(chunks, last);
    assert Stream(chunks, last)[..m] == ChunkBytes(MORE, chunks[0])[..m];
    CutChunk(client, MORE, chunks[0], m);
    InsideFirst(chunks, m);
  }

  lemma CutBehind<T>(a: seq<T>, b: seq<T>, k: nat)
    requires k <= |b|
    ensures (a + b)[..|a| + k] == a + b[..k]
  {
  }

  lemma PrefixBehind<T>(a: seq<T>, b: seq<T>, c: seq<T>)
    requires b <= c
    ensures a + b <= a + c
  {
  }

  lemma CutLater(client: bool, chunks: seq<seq<byte>>, last: seq<byte>, k: nat)
    requires chunks != [] && Fits(chunks[0]) && k <= |Stream(chunks[1..], last)|
    requires CutAs(DecodeNext(client, Stream(chunks[1..], last)[..k]), chunks[1..], last, k)
    ensures CutAs(DecodeNext(client, Stream(chunks, last)[..3 + |chunks[0]| + k]), chunks, last, 3 + |chunks[0]| + k)
  {
    var data, rest := chunks[0], Stream(chunks[1..], last)[..k];
    StreamSplits(chunks, last);
    CutBehind(ChunkBytes(MORE, data), Stream(chunks[1..], last), k);
    DecodeChunk(client, MORE, data, rest);
    InsideLater(chunks, 3 + |data| + k);
    PrefixBehind(data, DecodeNext(client, rest).payload, Concat(chunks[1..]) + last);
    assert |ChunksBytes(chunks)| == 3 + |data| + |ChunksBytes(chunks[1..])|;
  }

  lemma {:induction false} CutDecodes(client: bool, chunks: seq<seq<byte>>, last: seq<byte>, m: nat)
    requires Fits(last) && (forall c | c in chunks :: Fits(c)) && m < |ChunksBytes(chunks)| + 3 + |last|
    ensures CutAs(DecodeNext(client, Stream(chunks, last)[..m]), chunks, last, m)
  {
    if chunks == [] {
      CutLast(client, last, m);
    } else if m < 3 + |chunks[0]| {
      CutFirst(client, chunks, last, m);
    } else {
      var k := m - 3 - |chunks[0]|;
      CutDecodes(client, chunks[1..], last, k);
      CutLater(client, chunks, last, k);
    }
  }

  /**
   * A message that is cut off after its first `k` bytes. The client reports an error exactly when that is
   * before the end of the first header or strictly inside a later one, the server, for
   * a message type it knows, gives the channel up exactly when the last header is not whole; in all other cases they take the part they got for the
   * message.
   */
  lemma CutMessage(kind: byte, chunks: seq<seq<byte>>, last: seq<byte>, k: nat)
    requires Fits(last) && (forall c | c in chunks :: Fits(c))
    requires k < |MessageBytes(kind, chunks, last)|
    ensures var r := MessageBytes(kind, chunks, last)[..k];
      && Report(r).0 == (if k == 0 then EOF else if k < 4 || InsideHeader(chunks, k - 1) then UnexpectedEOF else NoError)
      && (ClosesOn(r) <==> k < 4 || (Known(kind) && k < 1 + |ChunksBytes(chunks)| + 3))
      && Report(r).1 == (if k < 4 then [] else DataUpTo(chunks, last, k - 1)) <= Concat(chunks) + last
      && (k >= 4 ==> DecodeMessage(false, r).body.payload == DataUpTo(chunks, last, k - 1))
  {
    var r, all := MessageBytes(kind, chunks, last)[..k], Stream(chunks, last);
    if k >= 4 {
      CutHead(kind, all, k);
      CutDecodes(true, chunks, last, k - 1);
      CutDecodes(false, chunks, last, k - 1);
      if InsideHeader(chunks, k - 1) {
        InsideIsBefore(chunks, k - 1);
      }
    }
  }

  lemma CutHead<T>(head: T, tail: seq<T>, k: nat)
    requires 1 <= k <= 1 + |tail|
    ensures ([head] + tail)[..k][0] == head && ([head] + tail)[..k][1..] == tail[..k - 1]
  {
  }

  lemma InsideIsBefore(chunks: seq<seq<byte>>, m: nat)
    requires InsideHeader(chunks, m)
    ensures m < |ChunksBytes(chunks)| + 3
  {
    var i :| 0 <= i <= |chunks| && |ChunksBytes(chunks[..i])| < m < |ChunksBytes(chunks[..i])| + 3;
    assert chunks == chunks[..i] + chunks[i..];
    ChunksTogether(chunks[..i], chunks[i..]);
  }
}
