/**
 * The client's transport (client_transport.go): its commands, and its table in every interleaving with
 * `Create` and the channels. To the frames that look a channel up, the ids that hold one are a table
 * like the server's; ClientPool says when an id gets one, ClientLoop has the loop on bytes.
 */
module ClientTransports {
  import opened Bytes
  import opened PipeReaders
  import opened Frames
  import opened ServerTable
  import opened ServerRuns
  import P = ClientPool
  import S = ServerTable

  /** The buffer the command loop is started with (client.go:91). */
  const CLIENT_BUFFER := 128

  datatype Client = Client(
    table: P.Transport, window: nat, remote: nat, chans: seq<Chan>, ch: seq<Out>, posts: seq<Out>, wire: seq<Out>)

  function Ready(keys: map<nat, P.Entry>): map<nat, Ref> {
    map id | id in keys && keys[id].channel.Some? :: keys[id].channel.value
  }

  function View(c: Client): Server {
    Server(0, c.window, c.remote, Ready(c.table.keys), c.chans, c.ch, c.posts, c.wire)
  }

  function Back(c: Client, s: Server): Client {
    c.(chans := s.chans, ch := s.ch, posts := s.posts, wire := s.wire)
  }

  // ---- the commands ----

  function OnCreated(c: Client, id: nat, code: byte): Client {
    var t := c.(table := P.OnCreated(c.table, id, code));
    if id !in c.table.keys then c.(ch := c.ch + [CloseId(id)])
    else if c.table.keys[id].channel.Some? then
      Back(t, CloseChan(View(c), c.table.keys[id].channel.value)).(ch := c.ch + [CloseId(id)])
    else if c.table.keys[id].waiting && code == 0 then
      t.(chans := c.chans + [NewChan(id)])
    else t
  }

  /** As on the server, but a reported overflow also closes the channel at once. */
  function OnConfirmed(c: Client, id: nat, size: nat): Client {
    var s := OnConfirm(View(c), id, size);
    Back(c, if s.ch != c.ch && id in Ready(c.table.keys) then CloseChan(s, Ready(c.table.keys)[id]) else s)
  }

  function OnCommand(c: Client, command: Command): Client {
    match command
    case Ping => c
    case Pong(tag) => Back(c, Post(View(c), Echo(tag)))
    case Create(_) => c
    case Created(id, code) => OnCreated(c, id, code)
    case Close(id) => Back(c, OnClose(View(c), id)).(table := P.OnClose(c.table, id))
    case Write(id, payload) => Back(c, OnChunks(View(c), id, payload, BufferSize(CLIENT_BUFFER, |payload|)))
    case Confirm(id, size) => OnConfirmed(c, id, size)
  }

  // ---- runs ----

  datatype Act =
    | Dials               // `Create`
    | Hears(c: Command)   // the command loop
    | Other(a: S.Act)     // a goroutine of a channel or of the queue

  predicate Can(c: Client, a: Act) {
    match a
    case Dials => |c.table.issued| < c.table.granted
    case Hears(command) => true
    case Other(b) => !b.Carry? && !b.Chunk? && S.Can(View(c), b)
  }

  function Do(c: Client, a: Act): Client
    requires Can(c, a)
  {
    match a
    case Dials => c.(table := P.OnDial(c.table))
    case Hears(command) => OnCommand(c, command)
    case Other(b) =>
      Back(c, S.Do(View(c), b)).(table := if b.Remove? then P.OnDelete(c.table, b.r) else c.table)
  }

  ghost predicate Agree(ids: seq<nat>, chans: seq<Chan>) {
    |ids| == |chans| && forall r | 0 <= r < |chans| :: ids[r] == chans[r].id
  }

  /** The objects are those `ClientPool` knows of, and the ids that hold one are a sound table. */
  ghost predicate ViewOk(c: Client) {
    Agree(c.table.chans, c.chans) && TableOk(View(c))
  }

  lemma ReadyOpens(keys: map<nat, P.Entry>, id: nat, n: nat)
    ensures Ready(keys[id := P.Entry(false, Some(n))]) == Ready(keys)[id := n]
  {
  }

  lemma ReadyWaits(keys: map<nat, P.Entry>, id: nat, waiting: bool)
    requires id !in Ready(keys)
    ensures Ready(keys[id := P.Entry(waiting, None)]) == Ready(keys)
  {
  }

  lemma ReadyDrops(keys: map<nat, P.Entry>, id: nat)
    ensures Ready(keys - {id}) == if id in Ready(keys) then Ready(keys) - {id} else Ready(keys)
  {
  }

  ghost predicate SameIds(a: seq<Chan>, b: seq<Chan>) {
    |a| == |b| && forall r | 0 <= r < |a| :: a[r].id == b[r].id
  }

  /** What the server's loop and goroutines keep of their table is kept of the client's. */
  lemma ViewKeeps(c: Client, t: P.Transport, s: Server)
    requires ViewOk(c) && t.chans == c.table.chans
    requires TableOk(s) && s.keys == Ready(t.keys) && s.limit == 0 && s.window == c.window
    requires SameIds(s.chans, c.chans)
    ensures ViewOk(Back(c.(table := t), s))
  {
  }

  lemma CloseIds(s: Server, id: nat)
    ensures SameIds(OnClose(s, id).chans, s.chans)
    ensures OnClose(s, id) == s.(keys := OnClose(s, id).keys, chans := OnClose(s, id).chans)
    ensures OnClose(s, id).keys == if id in s.keys then s.keys - {id} else s.keys
  {
  }

  lemma CloseKeepsView(c: Client, id: nat)
    requires ViewOk(c)
    ensures ViewOk(OnCommand(c, Close(id)))
  {
    ReadyDrops(c.table.keys, id);
    CloseKeepsTable(View(c), id);
    CloseIds(View(c), id);
    ViewKeeps(c, P.OnClose(c.table, id), OnClose(View(c), id));
  }

  /** A second reply to an id with a channel does what a Close does, and answers with one. */
  lemma RepeatedReply(c: Client, id: nat, code: byte)
    requires KeysOk(Ready(c.table.keys), c.chans) && id in Ready(c.table.keys)
    ensures OnCommand(c, Created(id, code)) == OnCommand(c, Close(id)).(ch := c.ch + [CloseId(id)])
  {
  }

  /**
   * A reply is answered with a Close exactly when nobody waits for it, that is, for an unknown id and for one
   * that has a channel. The first Ok makes an open channel with an empty pipe, behind all there are.
   */
  lemma RepliesMean(c: Client, id: nat, code: byte)
    requires ViewOk(c)
    ensures var d := OnCreated(c, id, code);
      var first := id in c.table.keys && c.table.keys[id] == P.Entry(true, None);
      && (d.ch == if id !in c.table.keys || c.table.keys[id].channel.Some? then c.ch + [CloseId(id)] else c.ch)
      && (d.posts == c.posts)
      && (first && code == 0 ==> d.chans == c.chans + [NewChan(id)] && id in d.table.keys
                                 && d.table.keys[id].channel == Some(|c.chans|))
      && (first && code != 0 ==> d.chans == c.chans && id in d.table.keys && d.table.keys[id].channel.None?)
      && (id !in c.table.keys ==> d.table == c.table && d.chans == c.chans)
  {
  }

  lemma CreatedKeepsView(c: Client, id: nat, code: byte)
    requires ViewOk(c)
    ensures ViewOk(OnCreated(c, id, code))
  {
    if id in Ready(c.table.keys) {
      RepeatedReply(c, id, code);
      CloseKeepsView(c, id);
    } else if id in c.table.keys && c.table.keys[id].waiting {
      if code == 0 {
        ReadyOpens(c.table.keys, id, |c.chans|);
        AddKeepsTable(View(c), id);
      } else {
        ReadyWaits(c.table.keys, id, false);
        ViewKeeps(c, P.OnCreated(c.table, id, code), View(c));
      }
    }
  }

  lemma ConfirmStands(s: Server, id: nat, size: nat)
    requires KeysOk(s.keys, s.chans)
    ensures var t := OnConfirm(s, id, size);
      && SameIds(t.chans, s.chans) && t.keys == s.keys && t.limit == s.limit && t.window == s.window
      && (id in s.keys ==> SameIds(CloseChan(t, s.keys[id]).chans, s.chans))
  {
  }

  lemma ConfirmKeepsView(c: Client, id: nat, size: nat)
    requires ViewOk(c)
    ensures ViewOk(OnConfirmed(c, id, size))
  {
    var s := OnConfirm(View(c), id, size);
    ConfirmKeepsTable(View(c), id, size);
    ConfirmStands(View(c), id, size);
    ViewKeeps(c, c.table, s);
    if id in Ready(c.table.keys) {
      ShutKeepsTable(s, Ready(c.table.keys)[id]);
      ViewKeeps(c, c.table, CloseChan(s, Ready(c.table.keys)[id]));
    }
  }

  lemma WriteKeepsView(c: Client, id: nat, payload: seq<byte>)
    requires ViewOk(c)
    ensures ViewOk(OnCommand(c, Write(id, payload)))
  {
    var max := BufferSize(CLIENT_BUFFER, |payload|);
    ChunksKeepTable(View(c), id, payload, max);
    ChunksStand(View(c), id, payload, max);
    ViewKeeps(c, c.table, OnChunks(View(c), id, payload, max));
  }

  lemma CommandKeepsView(c: Client, command: Command)
    requires ViewOk(c)
    ensures ViewOk(OnCommand(c, command))
  {
    match command
    case Created(id, code) => CreatedKeepsView(c, id, code);
    case Close(id) => CloseKeepsView(c, id);
    case Write(id, payload) => WriteKeepsView(c, id, payload);
    case Confirm(id, size) => ConfirmKeepsView(c, id, size);
    case Pong(tag) => ViewKeeps(c, c.table, Post(View(c), Echo(tag)));
    case _ =>
  }

  lemma RemoveIds(s: Server, r: Ref)
    requires S.Can(s, Remove(r))
    ensures var t := S.Do(s, Remove(r));
      && SameIds(t.chans, s.chans) && t.limit == s.limit && t.window == s.window
      && t.keys == if Holds(s, r) then s.keys - {s.chans[r].id} else s.keys
  {
  }

  lemma DeleteDrops(c: Client, r: Ref)
    requires Agree(c.table.chans, c.chans) && r < |c.chans|
    ensures Ready(P.OnDelete(c.table, r).keys)
         == if Holds(View(c), r) then Ready(c.table.keys) - {c.chans[r].id} else Ready(c.table.keys)
    ensures P.OnDelete(c.table, r).chans == c.table.chans
  {
    ReadyDrops(c.table.keys, c.chans[r].id);
  }

  lemma RemoveKeepsView(c: Client, r: Ref)
    requires ViewOk(c) && Can(c, Other(Remove(r)))
    ensures ViewOk(Do(c, Other(Remove(r))))
  {
    RemoveKeepsTable(View(c), r);
    RemoveIds(View(c), r);
    DeleteDrops(c, r);
    ViewKeeps(c, P.OnDelete(c.table, r), S.Do(View(c), Remove(r)));
  }

  lemma DialKeepsView(c: Client)
    requires ViewOk(c) && P.NextId(c.table) !in c.table.keys
    ensures ViewOk(c.(table := P.OnDial(c.table)))
  {
    ReadyWaits(c.table.keys, P.NextId(c.table), true);
    ViewKeeps(c, P.OnDial(c.table), View(c));
  }

  lemma OtherStands(s: Server, b: S.Act)
    requires S.Can(s, b) && !b.Carry? && !b.Chunk? && !b.Remove?
    ensures var t := S.Do(s, b);
      SameIds(t.chans, s.chans) && t.keys == s.keys && t.limit == s.limit && t.window == s.window
  {
  }

  lemma OtherKeepsView(c: Client, b: S.Act)
    requires ViewOk(c) && Can(c, Other(b)) && !b.Remove?
    ensures ViewOk(Do(c, Other(b)))
  {
    StepKeepsTable(View(c), b);
    OtherStands(View(c), b);
    ViewKeeps(c, c.table, S.Do(View(c), b));
  }

  lemma StepKeepsView(c: Client, a: Act)
    requires ViewOk(c) && Can(c, a) && (a.Dials? ==> P.NextId(c.table) !in c.table.keys)
    ensures ViewOk(Do(c, a))
  {
    match a
    case Dials => DialKeepsView(c);
    case Hears(command) => CommandKeepsView(c, command);
    case Other(Remove(r)) => RemoveKeepsView(c, r);
    case Other(b) => OtherKeepsView(c, b);
  }

  lemma StepKeepsIds(c: Client, a: Act)
    requires P.TransportOk(c.table) && Can(c, a)
    ensures P.TransportOk(Do(c, a).table)
  {
    match a
    case Dials => P.DialKeeps(c.table);
    case Hears(Created(id, code)) => P.CreatedKeeps(c.table, id, code);
    case Hears(Close(id)) => P.CloseKeeps(c.table, id);
    case Other(Remove(r)) => P.DeleteKeeps(c.table, r);
    case _ =>
  }

  predicate Possible(c: Client, run: seq<Act>)
    decreases |run|
  {
    run == [] || (Can(c, run[0]) && Possible(Do(c, run[0]), run[1..]))
  }

  function After(c: Client, run: seq<Act>): Client
    requires Possible(c, run)
    decreases |run|
  {
    if run == [] then c else After(Do(c, run[0]), run[1..])
  }

  /** A transport that `Client.serve` hands out `granted` times in all; ClientPool bounds that number. */
  function Fresh(granted: nat, window: nat, remote: nat): Client {
    Client(P.NewTransport().(granted := granted), window, remote, [], [], [], [])
  }

  lemma {:induction false} RunKeepsClient(c: Client, run: seq<Act>)
    requires P.TransportOk(c.table) && ViewOk(c) && Possible(c, run)
    ensures P.TransportOk(After(c, run).table) && ViewOk(After(c, run))
    decreases |run|
  {
    if run != [] {
      if run[0].Dials? {
        P.DialKeeps(c.table);
      }
      StepKeepsView(c, run[0]);
      StepKeepsIds(c, run[0]);
      RunKeepsClient(Do(c, run[0]), run[1..]);
    }
  }

  ghost predicate Reachable(c: Client) {
    exists granted: nat, window, remote, run ::
      && granted <= MAX_UINT64
      && Possible(Fresh(granted, window, remote), run) && c == After(Fresh(granted, window, remote), run)
  }

  lemma ReachableIsOk(c: Client)
    requires Reachable(c)
    ensures P.TransportOk(c.table) && ViewOk(c)
  {
    var granted: nat, window, remote, run :| granted <= MAX_UINT64
      && Possible(Fresh(granted, window, remote), run) && c == After(Fresh(granted, window, remote), run);
    assert Ready(Fresh(granted, window, remote).table.keys) == map[];
    RunKeepsClient(Fresh(granted, window, remote), run);
  }

  /**
   * The table over whole runs: an id that holds a channel holds one of its own, an open channel is in
   * the table, no ring is overrun, and an id gets one channel at most.
   */
  lemma ClientTableSafe(c: Client)
    requires Reachable(c)
    ensures forall id | id in Ready(c.table.keys) ::
      Ready(c.table.keys)[id] < |c.chans| && c.chans[Ready(c.table.keys)[id]].id == id
    ensures forall r | 0 <= r < |c.chans| && !c.chans[r].pipe.closed ::
      c.chans[r].id in c.table.keys && c.table.keys[c.chans[r].id].channel == Some(r)
    ensures forall r | 0 <= r < |c.chans| :: |c.chans[r].pipe.contents| <= c.window
    ensures forall q, r | 0 <= q < r < |c.chans| :: c.chans[q].id != c.chans[r].id
  {
    ReachableIsOk(c);
  }

  /**
   * A Write for an id without a channel leaves no trace, not even an answer. For a channel that is
   * open and has room all of it arrives, in order; otherwise a prefix, and the channel is closed.
   */
  lemma ClientWrites(c: Client, id: nat, payload: seq<byte>)
    requires Reachable(c)
    ensures var d := OnCommand(c, Write(id, payload));
      && d.table == c.table && d.ch == c.ch && d.posts == c.posts && |d.chans| == |c.chans|
      && (id !in Ready(c.table.keys) ==> d == c)
      && (id in Ready(c.table.keys) ==>
            var r := Ready(c.table.keys)[id];
            && r < |c.chans|
            && c.chans[r].pipe.contents <= d.chans[r].pipe.contents <= c.chans[r].pipe.contents + payload
            && (!c.chans[r].pipe.closed && |c.chans[r].pipe.contents| + |payload| <= c.window ==>
                  d.chans[r].pipe == Shared(c.chans[r].pipe.contents + payload, false))
            && (d.chans[r].pipe.contents != c.chans[r].pipe.contents + payload ==> d.chans[r].pipe.closed))
  {
    ReachableIsOk(c);
    var max := BufferSize(CLIENT_BUFFER, |payload|);
    ChunksStand(View(c), id, payload, max);
    if id in Ready(c.table.keys) {
      WriteArrives(View(c), id, payload, max);
    } else {
      NoneTakes(View(c), id, payload, max);
    }
  }

  lemma {:induction false} NoneTakes(s: Server, id: nat, payload: seq<byte>, max: nat)
    requires id !in s.keys && (payload != [] ==> max > 0)
    ensures OnChunks(s, id, payload, max) == s
    decreases |payload|
  {
    if payload != [] {
      NoneTakes(s, id, payload[Min(|payload|, max)..], max);
    }
  }

  /** A Write or a Confirm for one id leaves every other channel as it is. */
  lemma ClientLeavesOthers(c: Client, command: Command, r: Ref)
    requires Reachable(c) && (command.Write? || command.Confirm?)
    requires r < |c.chans| && c.chans[r].id != command.id
    ensures var d := OnCommand(c, command);
      d.table == c.table && |d.chans| == |c.chans| && d.chans[r] == c.chans[r]
  {
    ReachableIsOk(c);
    if command.Write? {
      ChunksLeave(View(c), command.id, command.payload, BufferSize(CLIENT_BUFFER, |command.payload|), r);
    }
  }

  // ---- what is put into the queue, and how often ----

  /** What the server is due to get for a step, apart from the frame of `Create` itself. */
  function ClientDue(c: Client, a: Act): seq<Out>
    requires Can(c, a) && ViewOk(c)
  {
    match a
    case Dials => []
    case Hears(Pong(tag)) => [Echo(tag)]
    case Hears(Created(id, _)) =>
      if id !in c.table.keys || c.table.keys[id].channel.Some? then [CloseId(id)] else []
    case Hears(Confirm(id, size)) => Due(View(c), Carry(Confirm(id, size)))
    case Hears(_) => []
    case Other(b) => Due(View(c), b)
  }

  lemma CreatedPuts(c: Client, id: nat, code: byte, o: Out)
    requires ViewOk(c)
    ensures Here(View(OnCreated(c, id, code)), o) == Here(View(c), o) + Times(ClientDue(c, Hears(Created(id, code))), o)
  {
    RepliesMean(c, id, code);
    if OnCreated(c, id, code).ch != c.ch {
      PutsOne(View(c), View(OnCreated(c, id, code)), CloseId(id), o);
    }
  }

  lemma ConfirmedPuts(c: Client, id: nat, size: nat, o: Out)
    requires ViewOk(c)
    ensures Here(View(OnConfirmed(c, id, size)), o)
         == Here(View(c), o) + Times(ClientDue(c, Hears(Confirm(id, size))), o)
  {
    ConfirmPuts(View(c), id, size, o);
  }

  lemma HearsPuts(c: Client, command: Command, o: Out)
    requires ViewOk(c)
    ensures Here(View(OnCommand(c, command)), o) == Here(View(c), o) + Times(ClientDue(c, Hears(command)), o)
  {
    match command
    case Pong(tag) => PostPuts(View(c), Echo(tag), o);
    case Created(id, code) => CreatedPuts(c, id, code, o);
    case Confirm(id, size) => ConfirmedPuts(c, id, size, o);
    case Write(id, payload) => ChunksStand(View(c), id, payload, BufferSize(CLIENT_BUFFER, |payload|));
    case _ =>
  }

  lemma ClientStepPuts(c: Client, a: Act, o: Out)
    requires ViewOk(c) && Can(c, a)
    ensures Here(View(Do(c, a)), o) == Here(View(c), o) + Times(ClientDue(c, a), o)
  {
    match a
    case Dials =>
    case Hears(command) => HearsPuts(c, command, o);
    case Other(b) => StepPuts(View(c), b, o);
  }

  /** Everything the server is due to get for the steps of `run`, in order. */
  function ClientDueIn(c: Client, run: seq<Act>): seq<Out>
    requires P.TransportOk(c.table) && ViewOk(c) && Possible(c, run)
    decreases |run|
  {
    if run == [] then []
    else
      NextIsOk(c, run[0]);
      ClientDue(c, run[0]) + ClientDueIn(Do(c, run[0]), run[1..])
  }

  lemma NextIsOk(c: Client, a: Act)
    requires P.TransportOk(c.table) && ViewOk(c) && Can(c, a)
    ensures P.TransportOk(Do(c, a).table) && ViewOk(Do(c, a))
  {
    if a.Dials? {
      P.DialKeeps(c.table);
    }
    StepKeepsView(c, a);
    StepKeepsIds(c, a);
  }

  /**
   * As for the server: in every run everything due is sent, or waits to be sent, as often as it is due, and
   * nothing else is.
   */
  lemma {:induction false} ClientAnswersOnce(c: Client, run: seq<Act>, o: Out)
    requires P.TransportOk(c.table) && ViewOk(c) && Possible(c, run)
    ensures Here(View(After(c, run)), o) == Here(View(c), o) + Times(ClientDueIn(c, run), o)
    decreases |run|
  {
    if run != [] {
      NextIsOk(c, run[0]);
      ClientStepPuts(c, run[0], o);
      ClientAnswersOnce(Do(c, run[0]), run[1..], o);
      TimesAppend(ClientDue(c, run[0]), ClientDueIn(Do(c, run[0]), run[1..]), o);
    }
  }
}
