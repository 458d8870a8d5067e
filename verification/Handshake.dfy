/** Version negotiation and window exchange: server.go `hello` and `sendHello`, and newClientTransport. */
module Handshake {
  import opened Bytes
  import opened Hellos
  import F = FlowState

  const SERVER_BUFFER := 256
  const CLIENT_BUFFER := 128

  function ProtocolVersion(): seq<byte> {
    Ascii("1.0")
  }

  /** `Hello.String` for the codes the server sends. */
  function Describe(code: Code): (s: seq<byte>)
    ensures |s| <= 16
  {
    if code == OK then Ascii("Ok")
    else if code == INVALID_PROTOCOL then Ascii("Invalid Protocol")
    else if code == INVALID_VERSION then Ascii("Invalid Version")
    else if code == BUSY then Ascii("Server Busy")
    else if code == SERVER_ERROR then Ascii("Server Error")
    else if code == INVALID_WINDOW then Ascii("Invalid Window")
    else Ascii("Unknow")
  }

  /** `Hangup`: no answer is sent. `Crash`: a slice past its buffer ends the server process. */
  datatype Verdict = Answer(code: Code, window: nat) | Backend(seen: seq<byte>) | Hangup | Crash

  /** `Server.hello` on stream `r`; the versions are searched in the client's order. */
  method Hello(r: seq<byte>) returns (v: Verdict)
    ensures v == Judge(r)
  {
    var b := new byte[SERVER_BUFFER];
    var result := ReadClientHello(r, b);
    match result
    case Foreign(seen) => return Backend(seen);
    case TooShort => return Answer(INVALID_VERSION, 0);
    case StreamEnds => return Hangup;
    case OutOfRange => return Crash;
    case RefuseClient(code) => return Answer(code, 0);
    case GotClient(hello, rest) =>
      for i := 0 to |hello.version|
        invariant ProtocolVersion() !in hello.version[..i]
      {
        if hello.version[i] == ProtocolVersion() {
          return Answer(OK, hello.window);
        }
      }
      assert hello.version[..|hello.version|] == hello.version;
      return Answer(INVALID_VERSION, 0);
  }

  function Judge(r: seq<byte>): Verdict {
    match ReadClient(r, SERVER_BUFFER)
    case Foreign(seen) => Backend(seen)
    case TooShort => Answer(INVALID_VERSION, 0)
    case StreamEnds => Hangup
    case OutOfRange => Crash
    case RefuseClient(code) => Answer(code, 0)
    case GotClient(hello, rest) =>
      if ProtocolVersion() in hello.version then Answer(OK, hello.window) else Answer(INVALID_VERSION, 0)
  }

  function Reply(code: Code, window: nat): ServerHello {
    ServerHello(code, window, if code == OK then ProtocolVersion() else Describe(code))
  }

  /** `sendHello`: the bytes written, or none if the server's own window is 0. */
  method SendHello(code: Code, window: nat) returns (sent: seq<byte>)
    requires code <= 5 && window <= MAX_UINT32
    ensures sent == if window == 0 then [] else ServerBytes(Reply(code, window))
  {
    var b := new byte[SERVER_BUFFER];
    var size, e := MarshalServer(Reply(code, window), b);
    sent := if e.Fine? then b[..size] else [];
  }

  /** What the client accepts, and the remote window it then works with. */
  function Accepts(r: seq<byte>): Option<nat> {
    match ReadServer(r, CLIENT_BUFFER)
    case GotServer(hello, _) =>
      if hello.code == OK && hello.message == ProtocolVersion() then Some(hello.window) else None
    case _ => None
  }

  function Request(window: nat): ClientHello {
    ClientHello(window, [ProtocolVersion()])
  }

  /** `newClientTransport`, up to the bytes it sends. */
  method SendRequest(window: nat) returns (sent: seq<byte>)
    requires window <= MAX_UINT32
    ensures sent == if window == 0 then [] else ClientBytes(Request(window))
  {
    var buf := new byte[CLIENT_BUFFER];
    assert Join([ProtocolVersion()]) == ProtocolVersion();
    var size, e := MarshalClient(Request(window), buf);
    sent := if e.Fine? then buf[..size] else [];
  }

  lemma PlainVersion()
    ensures |ProtocolVersion()| == 3 && COMMA !in ProtocolVersion()
    ensures Join([ProtocolVersion()]) == ProtocolVersion()
  {
    var v := ProtocolVersion();
    assert v[0] == 49 && v[1] == 46 && v[2] == 48;
  }

  /** The server agrees exactly to a well-formed hello, short enough for its buffer, that lists "1.0". */
  lemma OkExactly(h: ClientHello, tail: seq<byte>)
    requires GoodClient(h)
    ensures Judge(ClientBytes(h) + tail) == Answer(OK, h.window)
      <==> ProtocolVersion() in h.version && |Join(h.version)| <= SERVER_BUFFER - FLAG_SIZE
  {
    ClientRoundTrip(h, tail, SERVER_BUFFER);
    ClientLayout(h, tail);
  }

  /** Nothing but such a hello is agreed to. */
  lemma OkOnly(r: seq<byte>, window: nat)
    requires Judge(r) == Answer(OK, window)
    ensures exists h, tail :: GoodClient(h) && r == ClientBytes(h) + tail && window == h.window && ProtocolVersion() in h.version
  {
    ClientCanonical(r, SERVER_BUFFER);
    var GotClient(h, rest) := ReadClient(r, SERVER_BUFFER);
    assert GoodClient(h) && r == ClientBytes(h) + rest;
  }

  /**
   * The verdict on any stream, field by field: 11 bytes of flag, 4 of window, 2 of length, and the list.
   * Codes are those of document/transport.md.
   */
  lemma VerdictExactly(r: seq<byte>)
    ensures var v := Judge(r);
      if |r| < 11 then v == Hangup
      else if r[..11] != Flag() then v == Backend(r[..11])
      else if |r| < 17 then v == Hangup
      else
        var window, length := Number(r[11..15]), Number(r[15..17]);
        if window == 0 then v == Answer(5, 0)
        else if length == 0 then v == Answer(2, 0)
        else if 245 < length <= 256 then v == Crash
        else if 256 < length then v == Answer(2, 0)
        else if |r| < 17 + length then v == Hangup
        else v == if ProtocolVersion() in Split(r[17..17 + length]) then Answer(0, window) else Answer(2, 0)
  {
  }

  /** The reply to a verdict, down to its fields. */
  lemma ReplyFields(code: Code, window: nat)
    requires 1 <= window <= MAX_UINT32
    ensures Reply(code, window).code == code && Reply(code, window).window == window
    ensures Reply(code, window).message == ProtocolVersion() <==> code == 0
  {
    VersionSpelled();
    assert Describe(code)[0] != 49;
  }

  /** "1.0". */
  lemma VersionSpelled()
    ensures ProtocolVersion() == [49, 46, 48]
  {
  }

  /** The client accepts nothing but the reply of a server that agreed. */
  lemma AcceptsOnly(r: seq<byte>, window: nat)
    requires Accepts(r) == Some(window)
    ensures 1 <= window <= MAX_UINT32 && exists tail :: r == ServerBytes(Reply(OK, window)) + tail
  {
    ServerCanonical(r, CLIENT_BUFFER);
    var GotServer(hello, rest) := ReadServer(r, CLIENT_BUFFER);
    assert hello == Reply(OK, window) && r == ServerBytes(Reply(OK, window)) + rest;
  }

  /**
   * The server process ends exactly on a hello whose flag, window and version list are in order up to
   * the length of the list, when that is one of the eleven from 246 to 256.
   */
  lemma CrashExactly(r: seq<byte>)
    ensures Judge(r) == Crash
      <==> && |r| >= FLAG_SIZE + 6 && r[..FLAG_SIZE] == Flag() && Number(r[11..15]) >= 1
           && SERVER_BUFFER - FLAG_SIZE < Number(r[15..17]) <= SERVER_BUFFER
  {
  }

  /** For a well-formed hello the length of the list decides. */
  lemma LongListCrashes(h: ClientHello, tail: seq<byte>)
    requires GoodClient(h)
    ensures Judge(ClientBytes(h) + tail) == Crash
      <==> SERVER_BUFFER - FLAG_SIZE < |Join(h.version)| <= SERVER_BUFFER
  {
    ClientLayout(h, tail);
    CrashExactly(ClientBytes(h) + tail);
  }

  /** The client learns the server's window exactly when the server agreed; every refusal is understood. */
  lemma ClientLearns(code: Code, window: nat, tail: seq<byte>)
    requires code <= 5 && 1 <= window <= MAX_UINT32
    ensures ReadServer(ServerBytes(Reply(code, window)) + tail, CLIENT_BUFFER) == GotServer(Reply(code, window), tail)
    ensures Accepts(ServerBytes(Reply(code, window)) + tail) == if code == OK then Some(window) else None
  {
    PlainVersion();
    ServerRoundTrip(Reply(code, window), tail, CLIENT_BUFFER);
  }

  /**
   * Two ends with windows of at least 1 agree, and then each works with the other's ring capacity
   * as its remote window: the assumption of the flow control.
   */
  lemma Agreement(clientWindow: nat, serverWindow: nat, up: seq<byte>, down: seq<byte>)
    requires 1 <= clientWindow <= MAX_UINT32 && 1 <= serverWindow <= MAX_UINT32
    ensures var verdict := Judge(ClientBytes(Request(clientWindow)) + up);
      && verdict == Answer(OK, clientWindow)
      && Accepts(ServerBytes(Reply(verdict.code, serverWindow)) + down) == Some(serverWindow)
      && F.Created(clientWindow, serverWindow).a.remote == serverWindow
      && F.Created(clientWindow, serverWindow).b.remote == verdict.window
  {
    PlainVersion();
    var h := Request(clientWindow);
    assert GoodClient(h);
    OkExactly(h, up);
    ClientLearns(OK, serverWindow, down);
  }
}
