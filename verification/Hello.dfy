/** The hello messages of core/hello.go. Go strings are byte sequences here. */
module Hellos {
  import opened Bytes
  import opened ReadWriters

  /** Go's `StringToBytes` for the literals of the protocol, which are ASCII. */
  function Ascii(s: string): (b: seq<byte>)
    ensures |b| == |s|
  {
    seq(|s|, i requires 0 <= i < |s| => if (s[i] as int) < 256 then (s[i] as int) as byte else 63)
  }

  const FLAG_SIZE := 11
  const COMMA: byte := 44
  const DEFAULT_BUFFER := 128

  function Flag(): (b: seq<byte>)
    ensures |b| == FLAG_SIZE
  {
    Ascii("httpadapter")
  }

  type Code = byte

  const OK: Code := 0
  const INVALID_PROTOCOL: Code := 1
  const INVALID_VERSION: Code := 2
  const BUSY: Code := 3
  const SERVER_ERROR: Code := 4
  const INVALID_WINDOW: Code := 5

  // ---- version lists ----

  function Join(versions: seq<seq<byte>>): seq<byte> {
    if versions == [] then []
    else if |versions| == 1 then versions[0]
    else versions[0] + [COMMA] + Join(versions[1..])
  }

  /** `strings.Split(b, ",")`; of the empty string it is one empty string. */
  function Split(b: seq<byte>): (parts: seq<seq<byte>>)
    ensures parts != []
  {
    if b == [] then [[]]
    else
      var rest := Split(b[1..]);
      if b[0] == COMMA then [[]] + rest else [[b[0]] + rest[0]] + rest[1..]
  }

  lemma {:induction false} SplitPlain(b: seq<byte>)
    requires COMMA !in b
    ensures Split(b) == [b]
  {
    if b != [] {
      SplitPlain(b[1..]);
      assert b == [b[0]] + b[1..];
    }
  }

  lemma {:induction false} SplitHead(head: seq<byte>, tail: seq<byte>)
    requires COMMA !in head
    ensures Split(head + [COMMA] + tail) == [head] + Split(tail)
  {
    var b := head + [COMMA] + tail;
    if head == [] {
      assert b[1..] == tail;
    } else {
      assert b[1..] == head[1..] + [COMMA] + tail;
      SplitHead(head[1..], tail);
      assert head == [head[0]] + head[1..];
    }
  }

  lemma {:induction false} SplitJoin(versions: seq<seq<byte>>)
    requires versions != [] && (forall v | v in versions :: COMMA !in v)
    ensures Split(Join(versions)) == versions
  {
    if |versions| == 1 {
      SplitPlain(versions[0]);
    } else {
      SplitJoin(versions[1..]);
      SplitHead(versions[0], Join(versions[1..]));
    }
  }

  lemma {:induction false} JoinSplit(b: seq<byte>)
    ensures Join(Split(b)) == b
    ensures forall v | v in Split(b) :: COMMA !in v
  {
    if b != [] {
      var rest := Split(b[1..]);
      JoinSplit(b[1..]);
      assert b == [b[0]] + b[1..];
      if b[0] == COMMA {
        assert ([[]] + rest)[1..] == rest;
      } else {
        assert ([[b[0]] + rest[0]] + rest[1..])[1..] == rest[1..];
      }
    }
  }

  // ---- the client's hello ----

  datatype ClientHello = ClientHello(window: nat, version: seq<seq<byte>>)

  function ClientBytes(h: ClientHello): seq<byte> {
    Flag() + BigEndian(h.window, 4) + BigEndian(|Join(h.version)|, 2) + Join(h.version)
  }

  datatype HelloError = Fine | ShortBuffer | Refuses(code: Code) | BadMessage

  function Lengths(versions: seq<seq<byte>>): nat {
    if versions == [] then 0 else |versions[0]| + Lengths(versions[1..])
  }

  lemma {:induction false} JoinLength(versions: seq<seq<byte>>)
    requires versions != []
    ensures |Join(versions)| == Lengths(versions) + |versions| - 1
  {
    if |versions| > 1 {
      JoinLength(versions[1..]);
    } else {
      assert Lengths(versions[1..]) == 0;
    }
  }

  lemma {:induction false} LengthsAppend(a: seq<seq<byte>>, v: seq<byte>)
    ensures Lengths(a + [v]) == Lengths(a) + |v|
  {
    if a == [] {
      assert a + [v] == [v];
      assert Lengths([v][1..]) == 0;
    } else {
      assert (a + [v])[1..] == a[1..] + [v];
      LengthsAppend(a[1..], v);
    }
  }

  /** `verify`: the size of the message, or why there is none. */
  method VerifyClient(h: ClientHello) returns (size: nat, e: HelloError)
    ensures e == if h.window == 0 then Refuses(INVALID_WINDOW)
                 else if h.version == [] then Refuses(INVALID_VERSION)
                 else Fine
    ensures e.Fine? ==> size == FLAG_SIZE + 6 + |Join(h.version)|
  {
    size := 0;
    if h.window == 0 {
      return 0, Refuses(INVALID_WINDOW);
    }
    var vs := |h.version|;
    if vs == 0 {
      return 0, Refuses(INVALID_VERSION);
    } else if vs == 1 {
      vs := 0;
    } else {
      vs := vs - 1;
    }
    for i := 0 to |h.version|
      invariant vs == |h.version| - 1 + Lengths(h.version[..i])
    {
      assert h.version[..i + 1] == h.version[..i] + [h.version[i]];
      LengthsAppend(h.version[..i], h.version[i]);
      vs := vs + |h.version[i]|;
    }
    assert h.version[..|h.version|] == h.version;
    JoinLength(h.version);
    return FLAG_SIZE + 6 + vs, Fine;
  }

  /** One field after another is written at `at`. */
  method Put(b: array<byte>, at: nat, field: seq<byte>) returns (next: nat)
    requires at + |field| <= b.Length
    modifies b
    ensures next == at + |field|
    ensures b[..next] == old(b[..at]) + field
    ensures forall k | next <= k < b.Length :: b[k] == old(b[k])
  {
    next := at + |field|;
    var _ := Copy(b, at, b.Length, field);
  }

  /** `MarshalTo`: on success the message is at the start of `b` and the rest of `b` is untouched. */
  method MarshalClient(h: ClientHello, b: array<byte>) returns (size: nat, e: HelloError)
    modifies b
    ensures e == if h.window == 0 then Refuses(INVALID_WINDOW)
                 else if h.version == [] then Refuses(INVALID_VERSION)
                 else if b.Length < |ClientBytes(h)| then ShortBuffer
                 else if |Join(h.version)| > MAX_UINT16 then Refuses(INVALID_VERSION)
                 else Fine
    ensures e.Fine? ==> size <= b.Length && b[..size] == ClientBytes(h) && b[size..] == old(b[size..])
    ensures h.window == 0 || h.version == [] || e.ShortBuffer? ==> b[..] == old(b[..])
  {
    size, e := VerifyClient(h);
    if !e.Fine? {
      return;
    }
    if b.Length < size {
      return 0, ShortBuffer;
    }
    var n := Put(b, 0, Flag());
    n := Put(b, n, BigEndian(h.window, 4));
    var vs := Join(h.version);
    if |vs| > MAX_UINT16 {
      return 0, Refuses(INVALID_VERSION);
    }
    n := Put(b, n, BigEndian(|vs|, 2));
    n := Put(b, n, vs);
  }

  datatype ClientResult =
    | GotClient(hello: ClientHello, rest: seq<byte>)
    | RefuseClient(refusal: Code)
    | Foreign(seen: seq<byte>)  // not this protocol; what was read is passed on
    | TooShort                  // io.ErrShortBuffer
    | StreamEnds                // the stream ends inside the message
    | OutOfRange                // a slice expression goes past the end of the buffer

  /** `ReadClientHello` from stream `r` with a buffer of `size` bytes. */
  function ReadClient(r: seq<byte>, size: nat): ClientResult {
    var bufsize := if size == 0 then DEFAULT_BUFFER else size;
    if bufsize < FLAG_SIZE then TooShort
    else if |r| < FLAG_SIZE then StreamEnds
    else if r[..FLAG_SIZE] != Flag() then Foreign(r[..FLAG_SIZE])
    else if bufsize - FLAG_SIZE < 6 then OutOfRange
    else if |r| < FLAG_SIZE + 6 then StreamEnds
    else
      var window, vs := Number(r[11..15]), Number(r[15..17]);
      if window < 1 then RefuseClient(INVALID_WINDOW)
      else if vs < 1 then RefuseClient(INVALID_VERSION)
      else if bufsize < vs && size != 0 then TooShort
      else if bufsize >= vs && bufsize - FLAG_SIZE < vs then OutOfRange
      else if |r| < 17 + vs then StreamEnds
      else GotClient(ClientHello(window, Split(r[17..17 + vs])), r[17 + vs..])
  }

  /** `io.ReadFull` into `buf[from..to]`; `left` is the rest of the stream. */
  method ReadFull(r: seq<byte>, buf: array<byte>, from: nat, to: nat) returns (ok: bool, left: seq<byte>)
    requires from <= to <= buf.Length
    modifies buf
    ensures ok <==> |r| >= to - from
    ensures ok ==> buf[from..to] == r[..to - from] && left == r[to - from..]
    ensures forall k | 0 <= k < from :: buf[k] == old(buf[k])
  {
    var n := Copy(buf, from, to, r);
    ok, left := n == to - from, r[n..];
  }

  /** `ReadClientHello`: the fields are read through `buf`, or a buffer of its own if that is empty. */
  method ReadClientHello(r: seq<byte>, buf: array<byte>) returns (result: ClientResult)
    modifies buf
    ensures result == ReadClient(r, buf.Length)
  {
    var b, bufsize := buf, buf.Length;
    var autobuf := bufsize == 0;
    if autobuf {
      b := new byte[DEFAULT_BUFFER];
      bufsize := b.Length;
    } else if bufsize < FLAG_SIZE {
      return TooShort;
    }
    var ok, left := ReadFull(r, b, 0, FLAG_SIZE);
    if !ok {
      return StreamEnds;
    }
    if b[..FLAG_SIZE] != Flag() {
      return Foreign(b[..FLAG_SIZE]);
    }
    // `buf = buf[flagsize:]`: from here on the buffer is shorter than `bufsize`
    var at := FLAG_SIZE;
    if b.Length - at < 6 {
      return OutOfRange;
    }
    ok, left := ReadFull(left, b, at, at + 6);
    if !ok {
      return StreamEnds;
    }
    assert left == r[17..];
    assert b[at..at + 4] == b[at..at + 6][..4] == r[11..15];
    assert b[at + 4..at + 6] == b[at..at + 6][4..] == r[15..17];
    var window := Number(b[at..at + 4]);
    if window < 1 {
      return RefuseClient(INVALID_WINDOW);
    }
    var vs := Number(b[at + 4..at + 6]);
    if vs < 1 {
      return RefuseClient(INVALID_VERSION);
    } else if bufsize < vs {
      if autobuf {
        b := new byte[vs];
        at := 0;
      } else {
        return TooShort;
      }
    }
    if b.Length - at < vs {
      return OutOfRange;
    }
    ok, left := ReadFull(left, b, at, at + vs);
    if !ok {
      return StreamEnds;
    }
    assert b[at..at + vs] == r[17..17 + vs] && left == r[17 + vs..];
    return GotClient(ClientHello(window, Split(b[at..at + vs])), left);
  }

  /** "httpadapter". */
  lemma FlagSpelled()
    ensures Flag() == [104, 116, 116, 112, 97, 100, 97, 112, 116, 101, 114]
  {
  }

  /** A hello as it goes over the wire: flag, window, length, versions joined by commas. */
  lemma ClientOnTheWire()
    ensures ClientBytes(ClientHello(258, [[49, 46, 48], [48]]))
         == Flag() + [0, 0, 1, 2, 0, 5, 49, 46, 48, 44, 48]
  {
    var list := [[49, 46, 48], [48]];
    assert list[1..] == [[48]];
    assert Join(list) == [49, 46, 48, 44, 48];
    assert BigEndian(258, 4) == [0, 0, 1, 2] && BigEndian(5, 2) == [0, 5];
  }

  ghost predicate GoodClient(h: ClientHello) {
    && 1 <= h.window <= MAX_UINT32
    && h.version != [] && (forall v | v in h.version :: COMMA !in v)
    && 1 <= |Join(h.version)| <= MAX_UINT16
  }

  /** The buffers with which a version list of `vs` bytes can be read. */
  predicate Readable(size: nat, vs: nat) {
    if size == 0 then vs <= DEFAULT_BUFFER - FLAG_SIZE || DEFAULT_BUFFER < vs
    else FLAG_SIZE + 6 <= size && vs <= size - FLAG_SIZE
  }

  lemma ClientLayout(h: ClientHello, tail: seq<byte>)
    requires GoodClient(h)
    ensures var r, vs := ClientBytes(h) + tail, |Join(h.version)|;
      && |r| == 17 + vs + |tail|
      && r[..11] == Flag() && Number(r[11..15]) == h.window && Number(r[15..17]) == vs
      && r[17..17 + vs] == Join(h.version) && r[17 + vs..] == tail
  {
    var r, vs := ClientBytes(h) + tail, |Join(h.version)|;
    U32RoundTrip(h.window);
    U16RoundTrip(vs);
    assert r[11..15] == BigEndian(h.window, 4);
    assert r[15..17] == BigEndian(vs, 2);
  }

  /** A well-formed hello is read back exactly when the buffer is of one of the readable sizes. */
  lemma ClientRoundTrip(h: ClientHello, tail: seq<byte>, size: nat)
    requires GoodClient(h)
    ensures ReadClient(ClientBytes(h) + tail, size) == GotClient(h, tail) <==> Readable(size, |Join(h.version)|)
  {
    ClientLayout(h, tail);
    SplitJoin(h.version);
  }

  /** What is accepted is a hello, byte for byte. */
  lemma ClientCanonical(r: seq<byte>, size: nat)
    requires ReadClient(r, size).GotClient?
    ensures var GotClient(h, rest) := ReadClient(r, size);
      GoodClient(h) && r == ClientBytes(h) + rest
  {
    var GotClient(h, rest) := ReadClient(r, size);
    var vs := Number(r[15..17]);
    JoinSplit(r[17..17 + vs]);
    Powers();
    BigEndianOfNumber(r[11..15]);
    BigEndianOfNumber(r[15..17]);
    assert r == r[..11] + r[11..15] + r[15..17] + r[17..17 + vs] + rest;
  }

  // ---- the server's hello ----

  datatype ServerHello = ServerHello(code: Code, window: nat, message: seq<byte>)

  function ServerBytes(h: ServerHello): seq<byte> {
    Flag() + [h.code] + BigEndian(h.window, 4) + BigEndian(|h.message|, 2) + h.message
  }

  /** A reply as it goes over the wire: flag, code, window, length, message. */
  lemma ServerOnTheWire()
    ensures ServerBytes(ServerHello(2, 258, [78, 111])) == Flag() + [2, 0, 0, 1, 2, 0, 2, 78, 111]
  {
    assert BigEndian(258, 4) == [0, 0, 1, 2] && BigEndian(2, 2) == [0, 2];
  }

  ghost predicate GoodServer(h: ServerHello) {
    1 <= h.window <= MAX_UINT32 && (h.code == OK ==> h.message != []) && |h.message| <= MAX_UINT16
  }

  method MarshalServer(h: ServerHello, b: array<byte>) returns (size: nat, e: HelloError)
    modifies b
    ensures e == if h.window == 0 then Refuses(INVALID_WINDOW)
                 else if h.code == OK && h.message == [] then Refuses(INVALID_VERSION)
                 else if |h.message| > MAX_UINT16 then BadMessage
                 else if b.Length < |ServerBytes(h)| then ShortBuffer
                 else Fine
    ensures e.Fine? ==> size <= b.Length && b[..size] == ServerBytes(h) && b[size..] == old(b[size..])
    ensures !e.Fine? ==> b[..] == old(b[..])
  {
    size, e := 0, Fine;
    if h.window == 0 {
      return 0, Refuses(INVALID_WINDOW);
    }
    if h.code == OK && h.message == [] {
      return 0, Refuses(INVALID_VERSION);
    } else if |h.message| > MAX_UINT16 {
      return 0, BadMessage;
    }
    size := FLAG_SIZE + 7 + |h.message|;
    if b.Length < size {
      return 0, ShortBuffer;
    }
    var n := Put(b, 0, Flag());
    n := Put(b, n, [h.code]);
    n := Put(b, n, BigEndian(h.window, 4));
    n := Put(b, n, BigEndian(|h.message|, 2));
    n := Put(b, n, h.message);
  }

  datatype ServerResult =
    | GotServer(hello: ServerHello, rest: seq<byte>)
    | RefuseServer(refusal: Code)
    | UnknownProtocol
    | ServerTooShort
    | ServerStreamEnds

  /** `ReadServerHello` from stream `r` with a buffer of `size` bytes. */
  function ReadServer(r: seq<byte>, size: nat): ServerResult {
    if size != 0 && size < FLAG_SIZE then ServerTooShort
    else if |r| < FLAG_SIZE then ServerStreamEnds
    else if r[..FLAG_SIZE] != Flag() then UnknownProtocol
    else if |r| < FLAG_SIZE + 7 then ServerStreamEnds
    else
      var window, length := Number(r[12..16]), Number(r[16..18]);
      if window < 1 then RefuseServer(INVALID_WINDOW)
      else if size != 0 && size < length then ServerTooShort
      else if |r| < 18 + length then ServerStreamEnds
      else if r[11] == OK && length == 0 then RefuseServer(INVALID_VERSION)
      else GotServer(ServerHello(r[11], window, r[18..18 + length]), r[18 + length..])
  }

  /** `ReadServerHello`: every field is read to the start of the buffer. */
  method ReadServerHello(r: seq<byte>, buf: array<byte>) returns (result: ServerResult)
    modifies buf
    ensures result == ReadServer(r, buf.Length)
  {
    var b, bufsize := buf, buf.Length;
    var autobuf := bufsize == 0;
    if autobuf {
      b := new byte[DEFAULT_BUFFER];
      bufsize := b.Length;
    } else if bufsize < FLAG_SIZE {
      return ServerTooShort;
    }
    var ok, left := ReadFull(r, b, 0, FLAG_SIZE);
    if !ok {
      return ServerStreamEnds;
    }
    if b[..FLAG_SIZE] != Flag() {
      return UnknownProtocol;
    }
    ok, left := ReadFull(left, b, 0, 7);
    if !ok {
      return ServerStreamEnds;
    }
    assert b[0] == b[..7][0] == r[11];
    assert b[1..5] == b[..7][1..5] == r[12..16];
    assert b[5..7] == b[..7][5..] == r[16..18];
    var code := b[0];
    var window := Number(b[1..5]);
    if window < 1 {
      return RefuseServer(INVALID_WINDOW);
    }
    var length := Number(b[5..7]);
    if bufsize < length {
      if autobuf {
        b := new byte[length];
      } else {
        return ServerTooShort;
      }
    }
    ok, left := ReadFull(left, b, 0, length);
    if !ok {
      return ServerStreamEnds;
    }
    if code == OK && length == 0 {
      return RefuseServer(INVALID_VERSION);
    }
    return GotServer(ServerHello(code, window, b[..length]), left);
  }

  lemma ServerLayout(h: ServerHello, tail: seq<byte>)
    requires GoodServer(h)
    ensures var r, length := ServerBytes(h) + tail, |h.message|;
      && |r| == 18 + length + |tail|
      && r[..11] == Flag() && r[11] == h.code && Number(r[12..16]) == h.window && Number(r[16..18]) == length
      && r[18..18 + length] == h.message && r[18 + length..] == tail
  {
    var r, length := ServerBytes(h) + tail, |h.message|;
    U32RoundTrip(h.window);
    U16RoundTrip(length);
    assert r[12..16] == BigEndian(h.window, 4);
    assert r[16..18] == BigEndian(length, 2);
  }

  lemma ServerRoundTrip(h: ServerHello, tail: seq<byte>, size: nat)
    requires GoodServer(h)
    ensures ReadServer(ServerBytes(h) + tail, size) == GotServer(h, tail)
      <==> size == 0 || (FLAG_SIZE <= size && |h.message| <= size)
  {
    ServerLayout(h, tail);
  }

  lemma ServerCanonical(r: seq<byte>, size: nat)
    requires ReadServer(r, size).GotServer?
    ensures var GotServer(h, rest) := ReadServer(r, size);
      GoodServer(h) && r == ServerBytes(h) + rest
  {
    var GotServer(h, rest) := ReadServer(r, size);
    Powers();
    BigEndianOfNumber(r[12..16]);
    BigEndianOfNumber(r[16..18]);
    assert r == r[..11] + [r[11]] + r[12..16] + r[16..18] + h.message + rest;
  }
}
