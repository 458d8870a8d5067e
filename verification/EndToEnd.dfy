/**
 * The layers together: windows agreed on by the handshake, bytes carried by the flow control, and
 * messages cut into chunks on one side and decoded on the other.
 */
module EndToEnd {
  import opened Bytes
  import opened FlowState
  import opened Flow
  import opened FlowProgress
  import FlowShared
  import opened Websockets
  import opened WebsocketReaders
  import H = Handshake
  import Hellos
  import Frames

  /** The link of a channel between two ends that have exchanged hellos, each with what it learned. */
  function Connect(clientWindow: nat, serverWindow: nat): Option<Link> {
    match H.Judge(Hellos.ClientBytes(H.Request(clientWindow)))
    case Answer(code, learned) =>
      var accepted := H.Accepts(Hellos.ServerBytes(H.Reply(code, serverWindow)));
      if accepted == None then None
      else Some(Link(NewEnd(false, clientWindow, accepted.value), NewEnd(true, serverWindow, learned)))
    case _ => None
  }

  lemma Connects(clientWindow: nat, serverWindow: nat)
    requires 1 <= clientWindow <= MAX_UINT32 && 1 <= serverWindow <= MAX_UINT32
    ensures Connect(clientWindow, serverWindow) == Some(Created(clientWindow, serverWindow))
  {
    H.Agreement(clientWindow, serverWindow, [], []);
    var up, down := Hellos.ClientBytes(H.Request(clientWindow)), Hellos.ServerBytes(H.Reply(0, serverWindow));
    assert up + [] == up && down + [] == down;
  }

  /** What a decoder makes of the bytes that `y` has read so far. */
  function Messages(y: End): seq<Forwarded> {
    DecodeAll(!y.server, y.log.delivered)
  }

  lemma Delivered(clientWindow: nat, serverWindow: nat, run: seq<Event>, s: Link, x: End, y: End)
    requires Possible(Created(clientWindow, serverWindow), run)
    requires s == After(Created(clientWindow, serverWindow), run) && Flow.Ends(s, x, y) && x.log.early == []
    ensures y.log.delivered <= x.log.accepted
  {
    assert Reachable(s);
    InOrder(s, x, y);
  }

  /**
   * Whatever the windows (at least 1), the interleaving of both ends, the segments and the
   * chunks: when `x` writes messages, `y` has at any moment decoded the first ones of them, unless
   * `x` wrote ahead of the reply to its Create. The client never does.
   */
  lemma MessagesArrive(
    clientWindow: nat, serverWindow: nat, run: seq<Event>, s: Link, x: End, y: End, packets: seq<Packet>)
    requires 1 <= clientWindow <= MAX_UINT32 && 1 <= serverWindow <= MAX_UINT32
    requires Possible(Created(clientWindow, serverWindow), run)
    requires s == After(Created(clientWindow, serverWindow), run) && Flow.Ends(s, x, y)
    requires forall p | p in packets :: Packed(p)
    requires x.log.accepted <= StreamBytes(packets) && x.log.early == []
    ensures Connect(clientWindow, serverWindow) == Some(Created(clientWindow, serverWindow))
    ensures Messages(y) <= Bodies(packets)
  {
    Connects(clientWindow, serverWindow);
    Delivered(clientWindow, serverWindow, run, s, x, y);
    var all, got := StreamBytes(packets), y.log.delivered;
    assert all == got + all[|got|..];
    DecodedSoFar(!y.server, got, all[|got|..]);
    MessagesRoundTrip(!y.server, packets);
  }

  /** The same for each of any number of channels that share a connection. */
  lemma MessagesArriveOnEach(
    clientWindow: nat, serverWindow: nat, run: seq<FlowShared.Move>, id: nat, left: bool, packets: seq<Packet>)
    requires 1 <= clientWindow <= MAX_UINT32 && 1 <= serverWindow <= MAX_UINT32
    requires FlowShared.Possible(FlowShared.Fresh(clientWindow, serverWindow), run)
    requires FlowShared.Known(FlowShared.After(FlowShared.Fresh(clientWindow, serverWindow), run), id)
    requires forall p | p in packets :: Packed(p)
    requires var s := FlowShared.LinkOf(FlowShared.After(FlowShared.Fresh(clientWindow, serverWindow), run), id);
      Mine(s, left).log.accepted <= StreamBytes(packets) && Mine(s, left).log.early == []
    ensures var s := FlowShared.LinkOf(FlowShared.After(FlowShared.Fresh(clientWindow, serverWindow), run), id);
      Messages(Theirs(s, left)) <= Bodies(packets)
  {
    var s := FlowShared.LinkOf(FlowShared.After(FlowShared.Fresh(clientWindow, serverWindow), run), id);
    FlowShared.ChannelsAreFlows(clientWindow, serverWindow, run, id);
    var events :| Possible(Created(clientWindow, serverWindow), events)
      && s == After(Created(clientWindow, serverWindow), events);
    MessagesArrive(clientWindow, serverWindow, events, s, Mine(s, left), Theirs(s, left), packets);
  }

  /** When nothing but new writes can happen and neither end failed or closed, all of them have arrived. */
  lemma MessagesAllArrive(s: Link, x: End, y: End, packets: seq<Packet>)
    requires Reachable(s) && Flow.Ends(s, x, y) && Healthy(x, y) && AllRest(s) && y.window >= 1
    requires forall p | p in packets :: Packed(p)
    requires x.log.accepted == StreamBytes(packets) && x.log.early == []
    ensures y.log.delivered == StreamBytes(packets) && Messages(y) == Bodies(packets)
    ensures x.tx.writed == 0 && x.tx.leftover == []
  {
    RestDelivers(s, x, y);
    MessagesRoundTrip(!y.server, packets);
  }

  function Encodings(cs: seq<Frames.Command>): seq<seq<byte>> {
    if cs == [] then [] else [Frames.Encode(cs[0])] + Encodings(cs[1..])
  }

  lemma {:induction false} EncodingsJoin(cs: seq<Frames.Command>)
    ensures Concat(Encodings(cs)) == Frames.EncodeAll(cs)
  {
    if cs != [] {
      EncodingsJoin(cs[1..]);
      ConcatCons(Frames.Encode(cs[0]), Encodings(cs[1..]));
    }
  }

  /**
   * The frames of the queue, however `serveWrite` groups and buffers them, are the commands the peer's
   * loop carries out; of a part of the bytes it carries out the first commands.
   */
  lemma FramesArrive(up: bool, cs: seq<Frames.Command>, rounds: seq<seq<seq<byte>>>, written: seq<byte>, read: nat)
    requires forall c | c in cs :: Frames.Sendable(up, c)
    requires Concat(rounds) == Encodings(cs) && written == Concat(Concat(rounds)) && read <= |written|
    ensures Frames.ParseAll(up, written) == (cs, [])
    ensures Frames.ParseAll(up, written[..read]).0 <= cs
  {
    EncodingsJoin(cs);
    Frames.StreamRoundTrip(up, cs, []);
    assert written + [] == written && cs + [] == cs;
    Frames.StreamExtends(up, written[..read], written[read..]);
    assert written == written[..read] + written[read..];
  }
}
