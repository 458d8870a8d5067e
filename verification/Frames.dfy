/**
 * The frames of the transport layer (document/transport.md) as the code builds and reads them. The
 * two directions differ in Create alone: 9 bytes to the server, 10 bytes back.
 */
module Frames {
  import opened Bytes

  datatype Command =
    | Ping
    | Pong(tag: seq<byte>)
    | Create(id: nat)
    | Created(id: nat, code: byte)
    | Close(id: nat)
    | Write(id: nat, payload: seq<byte>)
    | Confirm(id: nat, size: nat)

  predicate IsId(id: nat) {
    id <= MAX_UINT64
  }

  /** What an end may send; `up` is the direction from client to server. */
  predicate Sendable(up: bool, c: Command) {
    match c
    case Ping => true
    case Pong(tag) => |tag| == 4
    case Create(id) => up && IsId(id)
    case Created(id, _) => !up && IsId(id)
    case Close(id) => IsId(id)
    case Write(id, payload) => IsId(id) && |payload| <= MAX_UINT16
    case Confirm(id, size) => IsId(id) && size <= MAX_UINT16
  }

  function Code(c: Command): byte {
    match c
    case Ping => 1
    case Pong(_) => 2
    case Create(_) => 3
    case Created(_, _) => 3
    case Close(_) => 4
    case Write(_, _) => 5
    case Confirm(_, _) => 6
  }

  function Head(c: Command): seq<byte> {
    match c
    case Ping => []
    case Pong(tag) => tag
    case Create(id) => BigEndian(id, 8)
    case Created(id, code) => BigEndian(id, 8) + [code]
    case Close(id) => BigEndian(id, 8)
    case Write(id, payload) => BigEndian(id, 8) + BigEndian(|payload|, 2)
    case Confirm(id, size) => BigEndian(id, 8) + BigEndian(size, 2)
  }

  function Body(c: Command): seq<byte> {
    if c.Write? then c.payload else []
  }

  function Encode(c: Command): seq<byte> {
    [Code(c)] + Head(c) + Body(c)
  }

  /** The frames of document/transport.md, field by field. */
  lemma WireLayout(id: nat, code: byte, tag: seq<byte>, payload: seq<byte>, size: nat)
    ensures Encode(Ping) == [1]
    ensures Encode(Pong(tag)) == [2] + tag
    ensures Encode(Create(id)) == [3] + BigEndian(id, 8)
    ensures Encode(Created(id, code)) == [3] + BigEndian(id, 8) + [code]
    ensures Encode(Close(id)) == [4] + BigEndian(id, 8)
    ensures Encode(Write(id, payload)) == [5] + BigEndian(id, 8) + BigEndian(|payload|, 2) + payload
    ensures Encode(Confirm(id, size)) == [6] + BigEndian(id, 8) + BigEndian(size, 2)
  {
  }

  /** `More`: the stream ends inside a frame. `Unknown`: no command has this number. */
  datatype Parsed = More | Unknown | Got(command: Command, rest: seq<byte>)

  /** Bytes the loop reads after the command byte, before any payload. */
  function HeadSize(up: bool, code: byte): (size: nat)
    ensures code == 5 || code == 6 ==> size == 10
    ensures code == 3 || code == 4 ==> size >= 8
  {
    match code
    case 2 => 4
    case 3 => if up then 8 else 9
    case 4 => 8
    case 5 => 10
    case 6 => 10
    case _ => 0
  }

  function Length(code: byte, head: seq<byte>): nat
    requires code == 5 ==> |head| == 10
  {
    if code == 5 then Number(head[8..]) else 0
  }

  function Build(up: bool, code: byte, head: seq<byte>, payload: seq<byte>): Command
    requires |head| == HeadSize(up, code)
  {
    match code
    case 1 => Ping
    case 2 => Pong(head)
    case 3 => if up then Create(Number(head)) else Created(Number(head[..8]), head[8])
    case 4 => Close(Number(head))
    case 5 => Write(Number(head[..8]), payload)
    case 6 => Confirm(Number(head[..8]), Number(head[8..]))
    case _ => Ping
  }

  /** One turn of the command loop. */
  function Parse(up: bool, b: seq<byte>): Parsed {
    if b == [] then More
    else if !(1 <= b[0] <= 6) then Unknown
    else
      var size := HeadSize(up, b[0]);
      if |b| < 1 + size then More
      else
        var head, rest := b[1..1 + size], b[1 + size..];
        var length := Length(b[0], head);
        if |rest| < length then More
        else Got(Build(up, b[0], head, rest[..length]), rest[length..])
  }

  lemma HeadRoundTrip(id: nat, size: nat)
    requires IsId(id) && size <= MAX_UINT16
    ensures Number(BigEndian(id, 8)) == id
    ensures var head := BigEndian(id, 8) + BigEndian(size, 2);
      Number(head[..8]) == id && Number(head[8..]) == size
  {
    U64RoundTrip(id);
    U16RoundTrip(size);
    assert (BigEndian(id, 8) + BigEndian(size, 2))[..8] == BigEndian(id, 8);
    assert (BigEndian(id, 8) + BigEndian(size, 2))[8..] == BigEndian(size, 2);
  }

  lemma BuildCreated(id: nat, code: byte)
    requires IsId(id)
    ensures Build(true, 3, Head(Create(id)), []) == Create(id)
    ensures Build(false, 3, Head(Created(id, code)), []) == Created(id, code)
  {
    HeadRoundTrip(id, 0);
    assert Head(Created(id, code))[..8] == BigEndian(id, 8);
  }

  lemma BuildWrite(up: bool, id: nat, payload: seq<byte>)
    requires IsId(id) && |payload| <= MAX_UINT16
    ensures var c := Write(id, payload);
      Length(5, Head(c)) == |payload| && Build(up, 5, Head(c), payload) == c
  {
    HeadRoundTrip(id, |payload|);
  }

  lemma BuildConfirm(up: bool, id: nat, size: nat)
    requires IsId(id) && size <= MAX_UINT16
    ensures Build(up, 6, Head(Confirm(id, size)), []) == Confirm(id, size)
    ensures Build(up, 4, Head(Close(id)), []) == Close(id)
  {
    HeadRoundTrip(id, size);
  }

  lemma BuildHead(up: bool, c: Command)
    requires Sendable(up, c)
    ensures |Head(c)| == HeadSize(up, Code(c)) && Length(Code(c), Head(c)) == |Body(c)|
    ensures Build(up, Code(c), Head(c), Body(c)) == c
  {
    match c
    case Create(id) => BuildCreated(id, 0);
    case Created(id, code) => BuildCreated(id, code);
    case Close(id) => BuildConfirm(up, id, 0);
    case Write(id, payload) => BuildWrite(up, id, payload);
    case Confirm(id, size) => BuildConfirm(up, id, size);
    case _ =>
  }

  lemma Slices<T>(code: T, head: seq<T>, body: seq<T>, tail: seq<T>)
    ensures var b := [code] + head + body + tail;
      b[0] == code && b[1..1 + |head|] == head && b[1 + |head|..] == body + tail
    ensures (body + tail)[..|body|] == body && (body + tail)[|body|..] == tail
  {
  }

  /** A frame is self-delimiting: it is read back and what follows it is left alone. */
  lemma ParseEncode(up: bool, c: Command, tail: seq<byte>)
    requires Sendable(up, c)
    ensures Parse(up, Encode(c) + tail) == Got(c, tail)
  {
    BuildHead(up, c);
    Slices(Code(c), Head(c), Body(c), tail);
  }

  lemma NumberFits(b: seq<byte>)
    ensures |b| == 8 ==> IsId(Number(b)) && BigEndian(Number(b), 8) == b
    ensures |b| == 2 ==> Number(b) <= MAX_UINT16 && BigEndian(Number(b), 2) == b
  {
    Powers();
    BigEndianOfNumber(b);
  }

  lemma HeadBuild(up: bool, code: byte, head: seq<byte>, payload: seq<byte>)
    requires 1 <= code <= 6 && |head| == HeadSize(up, code) && Length(code, head) == |payload|
    ensures var c := Build(up, code, head, payload);
      Sendable(up, c) && Code(c) == code && Head(c) == head && Body(c) == payload
  {
    NumberFits(head);
    if |head| >= 8 {
      NumberFits(head[..8]);
      NumberFits(head[8..]);
      assert head == head[..8] + head[8..];
    }
  }

  /** Nothing else is read as a frame: what the loop accepts is an encoding, byte for byte. */
  lemma EncodeParse(up: bool, b: seq<byte>)
    requires Parse(up, b).Got?
    ensures var Got(c, rest) := Parse(up, b); Sendable(up, c) && b == Encode(c) + rest
  {
    var size := HeadSize(up, b[0]);
    var head, after := b[1..1 + size], b[1 + size..];
    var length := Length(b[0], head);
    HeadBuild(up, b[0], head, after[..length]);
    assert b == [b[0]] + head + after[..length] + after[length..];
  }

  function EncodeAll(cs: seq<Command>): seq<byte> {
    if cs == [] then [] else Encode(cs[0]) + EncodeAll(cs[1..])
  }

  lemma ParseShrinks(up: bool, b: seq<byte>)
    ensures Parse(up, b).Got? ==> |Parse(up, b).rest| < |b|
  {
  }

  /** The commands the loop carries out on a stream, and the bytes it does not get through. */
  function ParseAll(up: bool, b: seq<byte>): (r: (seq<Command>, seq<byte>))
    decreases |b|
  {
    ParseShrinks(up, b);
    match Parse(up, b)
    case Got(c, rest) =>
      var (cs, end) := ParseAll(up, rest);
      ([c] + cs, end)
    case _ => ([], b)
  }

  lemma ParseAllGot(up: bool, b: seq<byte>, c: Command, rest: seq<byte>)
    requires Parse(up, b) == Got(c, rest)
    ensures ParseAll(up, b) == ([c] + ParseAll(up, rest).0, ParseAll(up, rest).1)
  {
  }

  lemma EncodeAllCons(c: Command, cs: seq<Command>, tail: seq<byte>)
    ensures EncodeAll([c] + cs) + tail == Encode(c) + (EncodeAll(cs) + tail)
  {
    assert ([c] + cs)[1..] == cs;
  }

  lemma ParseAllEncode(up: bool, c: Command, rest: seq<byte>)
    requires Sendable(up, c)
    ensures ParseAll(up, Encode(c) + rest) == ([c] + ParseAll(up, rest).0, ParseAll(up, rest).1)
  {
    ParseEncode(up, c, rest);
    ParseAllGot(up, Encode(c) + rest, c, rest);
  }

  lemma Uncons<T>(s: seq<T>, t: seq<T>)
    requires s != []
    ensures s == [s[0]] + s[1..] && [s[0]] + (s[1..] + t) == s + t
  {
  }

  /** Any sequence of frames is recovered from the stream, and its bytes are used up exactly. */
  lemma {:induction false} StreamRoundTrip(up: bool, cs: seq<Command>, tail: seq<byte>)
    requires forall c | c in cs :: Sendable(up, c)
    ensures ParseAll(up, EncodeAll(cs) + tail).0 == cs + ParseAll(up, tail).0
    ensures ParseAll(up, EncodeAll(cs) + tail).1 == ParseAll(up, tail).1
  {
    if cs == [] {
      assert EncodeAll(cs) + tail == tail;
    } else {
      Uncons(cs, ParseAll(up, tail).0);
      EncodeAllCons(cs[0], cs[1..], tail);
      ParseAllEncode(up, cs[0], EncodeAll(cs[1..]) + tail);
      StreamRoundTrip(up, cs[1..], tail);
    }
  }

  /** The commands carried out are an encoding of everything before the place where the loop stops. */
  lemma {:induction false} StreamIsEncoding(up: bool, b: seq<byte>)
    ensures b == EncodeAll(ParseAll(up, b).0) + ParseAll(up, b).1
    ensures forall c | c in ParseAll(up, b).0 :: Sendable(up, c)
    ensures !Parse(up, ParseAll(up, b).1).Got?
    decreases |b|
  {
    if Parse(up, b).Got? {
      var Got(c, rest) := Parse(up, b);
      ParseShrinks(up, b);
      EncodeParse(up, b);
      ParseAllGot(up, b, c, rest);
      StreamIsEncoding(up, rest);
      EncodeAllCons(c, ParseAll(up, rest).0, ParseAll(up, rest).1);
    }
  }

  /** Reading is incremental: bytes that arrive later never change a command already carried out. */
  lemma StreamExtends(up: bool, b: seq<byte>, more: seq<byte>)
    ensures var (cs, end) := ParseAll(up, b);
      && ParseAll(up, b + more).0 == cs + ParseAll(up, end + more).0
      && ParseAll(up, b + more).1 == ParseAll(up, end + more).1
  {
    StreamIsEncoding(up, b);
    var (cs, end) := ParseAll(up, b);
    Regroup(EncodeAll(cs), end, more);
    StreamRoundTrip(up, cs, end + more);
  }

  /** `onPong` answers with the five bytes it read, command byte included. */
  lemma PongEchoes(up: bool, b: seq<byte>)
    requires Parse(up, b).Got? && Parse(up, b).command.Pong?
    ensures Encode(Parse(up, b).command) == b[..5]
  {
    EncodeParse(up, b);
  }
}
