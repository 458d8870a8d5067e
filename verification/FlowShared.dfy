/**
 * A connection with many channels. They share the queue of each end, the wire and the transport loop;
 * restricted to one id, every run of the whole is a run of the protocol of module FlowState, so that
 * what module Flow says of one channel holds of each of them. Ids are not used again (module ClientPool).
 */
module FlowShared {
  import opened Bytes
  import opened FlowState
  import opened FlowRuns
  import Flow

  type Id = nat

  datatype Tagged = Tagged(id: Id, frame: Frame)

  /**
   * One end of the connection. `loop` is the transport loop, `busy` the channel it last took a frame
   * for. What a channel has to itself is in `chans`, with an empty port and an idle loop.
   */
  datatype Side = Side(queue: seq<Tagged>, transit: seq<Tagged>, loop: LoopPc, busy: Id, chans: map<Id, End>)

  datatype Connection = Connection(clientWindow: nat, serverWindow: nat, a: Side, b: Side)

  function Fresh(clientWindow: nat, serverWindow: nat): Connection {
    Connection(clientWindow, serverWindow, Side([], [], Idle, 0, map[]), Side([], [], Idle, 0, map[]))
  }

  datatype Move =
    | Opens(id: Id)                          // the server stores a channel it was asked for
    | Own(id: Id, left: bool, act: Action)   // a step of channel `id`
    | Flushes(left: bool)                    // the first frame of the queue gets onto the wire
    | Receives(left: bool)                   // the transport loop takes the next frame

  function MySide(c: Connection, left: bool): Side {
    if left then c.a else c.b
  }

  function With(c: Connection, left: bool, mine: Side, theirs: Side): Connection {
    if left then c.(a := mine, b := theirs) else c.(a := theirs, b := mine)
  }

  /** The frames of one channel. */
  function Only(id: Id, frames: seq<Tagged>): seq<Frame> {
    if frames == [] then []
    else (if frames[0].id == id then [frames[0].frame] else []) + Only(id, frames[1..])
  }

  function Tag(id: Id, frames: seq<Frame>): seq<Tagged> {
    seq(|frames|, i requires 0 <= i < |frames| => Tagged(id, frames[i]))
  }

  /** A channel's end with its share of what is shared. */
  function View(d: Side, id: Id): End
    requires id in d.chans
  {
    d.chans[id].(port := Port(Only(id, d.queue), Only(id, d.transit)), loop := if d.busy == id then d.loop else Idle)
  }

  predicate Known(c: Connection, id: Id) {
    id in c.a.chans && id in c.b.chans
  }

  function LinkOf(c: Connection, id: Id): Link
    requires Known(c, id)
  {
    Link(View(c.a, id), View(c.b, id))
  }

  /** The steps that put a frame into the queue, for which the shared queue needs room. */
  predicate Pushes(act: Action) {
    act in {Serving(Hand), Serving(SayClose), Looping(Reject), Moving(Reply), Acking(Emit)}
  }

  predicate Can(c: Connection, m: Move) {
    match m
    case Opens(id) => id !in c.a.chans && id !in c.b.chans
    case Own(id, left, act) =>
      && Known(c, id) && act != Moving(Flush) && act != Looping(Receive)
      && FlowState.Can(View(MySide(c, left), id), View(MySide(c, !left), id), act)
      && (Pushes(act) ==> |MySide(c, left).queue| < QUEUE_CAPACITY)
    case Flushes(left) => MySide(c, left).queue != []
    case Receives(left) =>
      var d, e := MySide(c, left), MySide(c, !left);
      d.loop.Idle? && e.transit != [] && e.transit[0].id in d.chans
  }

  function Bare(x: End): End {
    x.(port := Port([], []), loop := Idle)
  }

  /** A channel's end is now `x`; frames it has added go behind those of all channels. */
  function Update(d: Side, id: Id, x: End, looping: bool): Side
    requires id in d.chans && |Only(id, d.queue)| <= |x.port.queue|
  {
    d.(queue := d.queue + Tag(id, x.port.queue[|Only(id, d.queue)|..]),
       loop := if looping then x.loop else d.loop, chans := d.chans[id := Bare(x)])
  }

  /** The loop takes the frame `f`, tagged `id`. */
  function Take(d: Side, id: Id, f: Frame): Side
    requires id in d.chans
  {
    var x := Handle(View(d, id).(loop := Idle), f);
    d.(loop := x.loop, busy := id, chans := d.chans[id := Bare(x)])
  }

  lemma QueueGrows(x: End, y: End, act: Action)
    requires FlowState.Can(x, y, act) && act != Moving(Flush)
    ensures var x' := FlowState.Do(x, y, act); x'.port.transit == x.port.transit && x.port.queue <= x'.port.queue
    ensures !act.Looping? ==> FlowState.Do(x, y, act).loop == x.loop
    ensures act != Looping(Receive) ==> Peer(x, y, act) == y
  {
  }

  function Do(c: Connection, m: Move): Connection
    requires Can(c, m)
  {
    match m
    case Opens(id) =>
      c.(a := c.a.(chans := c.a.chans[id := NewEnd(false, c.clientWindow, c.serverWindow)]),
         b := c.b.(chans := c.b.chans[id := NewEnd(true, c.serverWindow, c.clientWindow)]))
    case Own(id, left, act) =>
      var d, e := MySide(c, left), MySide(c, !left);
      QueueGrows(View(d, id), View(e, id), act);
      With(c, left, Update(d, id, FlowState.Do(View(d, id), View(e, id), act), act.Looping?), e)
    case Flushes(left) =>
      var d := MySide(c, left);
      With(c, left, d.(queue := d.queue[1..], transit := d.transit + [d.queue[0]]), MySide(c, !left))
    case Receives(left) =>
      var d, e := MySide(c, left), MySide(c, !left);
      With(c, left, Take(d, e.transit[0].id, e.transit[0].frame), e.(transit := e.transit[1..]))
  }

  // ---- restriction to one id ----

  lemma {:induction false} OnlyAppend(id: Id, s: seq<Tagged>, t: seq<Tagged>)
    ensures Only(id, s + t) == Only(id, s) + Only(id, t)
  {
    if s == [] {
      assert s + t == t;
    } else {
      assert (s + t)[1..] == s[1..] + t;
      OnlyAppend(id, s[1..], t);
      Regroup(if s[0].id == id then [s[0].frame] else [], Only(id, s[1..]), Only(id, t));
    }
  }

  lemma {:induction false} OnlyTag(id: Id, other: Id, frames: seq<Frame>)
    ensures Only(id, Tag(other, frames)) == if id == other then frames else []
  {
    if frames != [] {
      assert Tag(other, frames)[1..] == Tag(other, frames[1..]);
      OnlyTag(id, other, frames[1..]);
    }
  }

  lemma OnlyOne(id: Id, f: Tagged)
    ensures Only(id, [f]) == if f.id == id then [f.frame] else []
  {
    assert [f][1..] == [];
  }

  /** The channel that moved is as it should be, and no other notices. */
  lemma UpdateViews(d: Side, id: Id, x: End, looping: bool, other: Id)
    requires id in d.chans && other in d.chans
    requires x.port.transit == Only(id, d.transit) && Only(id, d.queue) <= x.port.queue
    requires looping ==> d.busy == id
    requires !looping ==> x.loop == if d.busy == id then d.loop else Idle
    ensures View(Update(d, id, x, looping), other) == if other == id then x else View(d, other)
  {
    var more := x.port.queue[|Only(id, d.queue)|..];
    OnlyAppend(other, d.queue, Tag(id, more));
    OnlyTag(other, id, more);
    assert Only(id, d.queue) + more == x.port.queue;
    assert Only(other, d.queue) + [] == Only(other, d.queue);
  }

  lemma TakeViews(d: Side, id: Id, f: Frame, other: Id)
    requires d.loop.Idle? && id in d.chans && other in d.chans
    ensures View(Take(d, id, f), other) == if other == id then Handle(View(d, id), f) else View(d, other)
  {
  }

  lemma FlushViews(d: Side, other: Id)
    requires d.queue != [] && other in d.chans
    ensures var x := View(d.(queue := d.queue[1..], transit := d.transit + [d.queue[0]]), other);
      if d.queue[0].id == other then CanMove(View(d, other), Flush) && x == FlowState.Move(View(d, other), Flush)
      else x == View(d, other)
  {
    OnlyAppend(other, d.transit, [d.queue[0]]);
    OnlyOne(other, d.queue[0]);
    assert Only(other, d.transit) + [] == Only(other, d.transit);
  }

  /** What a move is for channel `id`: one step of the protocol, or nothing. */
  function StepOf(c: Connection, m: Move, id: Id): Option<Event>
    requires Can(c, m)
  {
    match m
    case Opens(_) => None
    case Own(other, left, act) => if other == id then Some(Event(left, act)) else None
    case Flushes(left) => if MySide(c, left).queue[0].id == id then Some(Event(left, Moving(Flush))) else None
    case Receives(left) =>
      if MySide(c, !left).transit[0].id == id then Some(Event(left, Looping(Receive))) else None
  }

  /** Link `t` comes from `s` by the step, or is `s`. */
  ghost predicate Follows(s: Link, step: Option<Event>, t: Link) {
    if step.None? then t == s else Enabled(s, step.value) && t == Step(s, step.value)
  }

  lemma OwnFollows(c: Connection, m: Move, id: Id)
    requires m.Own? && Can(c, m) && Known(c, id)
    ensures Known(Do(c, m), id) && Follows(LinkOf(c, id), StepOf(c, m, id), LinkOf(Do(c, m), id))
  {
    var d, e := MySide(c, m.left), MySide(c, !m.left);
    var x, y := View(d, m.id), View(e, m.id);
    QueueGrows(x, y, m.act);
    UpdateViews(d, m.id, FlowState.Do(x, y, m.act), m.act.Looping?, id);
  }

  lemma FlushFollows(c: Connection, left: bool, id: Id)
    requires Can(c, Flushes(left)) && Known(c, id)
    ensures var m := Flushes(left);
      Known(Do(c, m), id) && Follows(LinkOf(c, id), StepOf(c, m, id), LinkOf(Do(c, m), id))
  {
    FlushViews(MySide(c, left), id);
  }

  lemma ReceiveFollows(c: Connection, left: bool, id: Id)
    requires Can(c, Receives(left)) && Known(c, id)
    ensures var m := Receives(left);
      Known(Do(c, m), id) && Follows(LinkOf(c, id), StepOf(c, m, id), LinkOf(Do(c, m), id))
  {
    var d, e := MySide(c, left), MySide(c, !left);
    TakeViews(d, e.transit[0].id, e.transit[0].frame, id);
  }

  lemma MoveFollows(c: Connection, m: Move, id: Id)
    requires Can(c, m) && Known(c, id)
    ensures Known(Do(c, m), id) && Follows(LinkOf(c, id), StepOf(c, m, id), LinkOf(Do(c, m), id))
  {
    match m
    case Opens(_) =>
    case Own(_, _, _) => OwnFollows(c, m, id);
    case Flushes(left) => FlushFollows(c, left, id);
    case Receives(left) => ReceiveFollows(c, left, id);
  }

  // ---- runs ----

  /** Frames belong to channels that exist, and so does the work of the loop. */
  ghost predicate SideOk(d: Side) {
    && (forall f | f in d.queue + d.transit :: f.id in d.chans)
    && (!d.loop.Idle? ==> d.busy in d.chans)
  }

  ghost predicate Sane(c: Connection) {
    c.a.chans.Keys == c.b.chans.Keys && SideOk(c.a) && SideOk(c.b)
  }

  lemma UpdateKeeps(d: Side, id: Id, x: End, looping: bool)
    requires SideOk(d) && id in d.chans && |Only(id, d.queue)| <= |x.port.queue| && (looping ==> d.busy == id)
    ensures SideOk(Update(d, id, x, looping)) && Update(d, id, x, looping).chans.Keys == d.chans.Keys
  {
  }

  lemma TakeKeeps(d: Side, id: Id, f: Frame)
    requires SideOk(d) && id in d.chans
    ensures SideOk(Take(d, id, f)) && Take(d, id, f).chans.Keys == d.chans.Keys
  {
  }

  lemma FlushKeeps(d: Side)
    requires SideOk(d) && d.queue != []
    ensures SideOk(d.(queue := d.queue[1..], transit := d.transit + [d.queue[0]]))
  {
  }

  lemma MoveKeeps(c: Connection, m: Move)
    requires Sane(c) && Can(c, m)
    ensures Sane(Do(c, m))
  {
    match m
    case Opens(_) =>
    case Own(id, left, act) =>
      var d, e := MySide(c, left), MySide(c, !left);
      QueueGrows(View(d, id), View(e, id), act);
      UpdateKeeps(d, id, FlowState.Do(View(d, id), View(e, id), act), act.Looping?);
    case Flushes(left) => FlushKeeps(MySide(c, left));
    case Receives(left) =>
      var e := MySide(c, !left);
      TakeKeeps(MySide(c, left), e.transit[0].id, e.transit[0].frame);
  }

  lemma {:induction false} OnlyShorter(id: Id, frames: seq<Tagged>)
    ensures |Only(id, frames)| <= |frames|
  {
    if frames != [] {
      OnlyShorter(id, frames[1..]);
    }
  }

  /**
   * A channel waits for room in the shared queue and for nothing else of the queue: what it could do
   * with an empty queue of its own it can do as soon as there is room for all.
   */
  lemma RoomIsShared(c: Connection, id: Id, left: bool, act: Action)
    requires Known(c, id) && act != Moving(Flush) && act != Looping(Receive)
    requires |MySide(c, left).queue| < QUEUE_CAPACITY
    requires var x := View(MySide(c, left), id);
      FlowState.Can(x.(port := x.port.(queue := [])), View(MySide(c, !left), id), act)
    ensures Can(c, Own(id, left, act))
  {
    OnlyShorter(id, MySide(c, left).queue);
  }

  predicate Possible(c: Connection, run: seq<Move>)
    decreases |run|
  {
    run == [] || (Can(c, run[0]) && Possible(Do(c, run[0]), run[1..]))
  }

  function After(c: Connection, run: seq<Move>): Connection
    requires Possible(c, run)
    decreases |run|
  {
    if run == [] then c else After(Do(c, run[0]), run[1..])
  }

  lemma {:induction false} OnlyNone(id: Id, frames: seq<Tagged>)
    requires forall f | f in frames :: f.id != id
    ensures Only(id, frames) == []
  {
    if frames != [] {
      assert frames[0] in frames && (forall f | f in frames[1..] :: f in frames);
      OnlyNone(id, frames[1..]);
    }
  }

  lemma NewView(d: Side, id: Id, x: End)
    requires SideOk(d) && id !in d.chans && x.port == Port([], []) && x.loop.Idle?
    ensures View(d.(chans := d.chans[id := x]), id) == x
  {
    forall f | f in d.queue || f in d.transit ensures f.id != id {
      assert f in d.queue + d.transit;
    }
    OnlyNone(id, d.queue);
    OnlyNone(id, d.transit);
  }

  /** A new channel starts as module FlowState says. */
  lemma OpensCreated(c: Connection, id: Id)
    requires Sane(c) && Can(c, Opens(id))
    ensures Known(Do(c, Opens(id)), id)
    ensures LinkOf(Do(c, Opens(id)), id) == Created(c.clientWindow, c.serverWindow)
  {
    NewView(c.a, id, NewEnd(false, c.clientWindow, c.serverWindow));
    NewView(c.b, id, NewEnd(true, c.serverWindow, c.clientWindow));
  }

  /** Every channel is where a run of the protocol can lead. */
  ghost predicate AllLed(c: Connection) {
    forall id | Known(c, id) :: Leads(Created(c.clientWindow, c.serverWindow), LinkOf(c, id))
  }

  lemma FollowsLeads(start: Link, s: Link, step: Option<Event>, t: Link)
    requires Leads(start, s) && Follows(s, step, t)
    ensures Leads(start, t)
  {
    if step.Some? {
      var u := Next(start, s, step.value.left, step.value.act);
      assert Event(step.value.left, step.value.act) == step.value;
    }
  }

  lemma MoveKeepsLed(c: Connection, m: Move)
    requires Sane(c) && AllLed(c) && Can(c, m)
    ensures AllLed(Do(c, m))
  {
    var c', start := Do(c, m), Created(c.clientWindow, c.serverWindow);
    forall id | Known(c', id) ensures Leads(start, LinkOf(c', id)) {
      if Known(c, id) {
        MoveFollows(c, m, id);
        FollowsLeads(start, LinkOf(c, id), StepOf(c, m, id), LinkOf(c', id));
      } else {
        KnownBefore(c, m, id);
        OpensCreated(c, id);
        Begin(start);
      }
    }
  }

  lemma KnownBefore(c: Connection, m: Move, id: Id)
    requires Sane(c) && Can(c, m) && Known(Do(c, m), id) && !Known(c, id)
    ensures m == Opens(id)
  {
  }

  lemma {:induction false} RunKeepsLed(c: Connection, run: seq<Move>)
    requires Sane(c) && AllLed(c) && Possible(c, run)
    ensures var d := After(c, run);
      Sane(d) && AllLed(d) && d.clientWindow == c.clientWindow && d.serverWindow == c.serverWindow
    decreases |run|
  {
    if run != [] {
      MoveKeeps(c, run[0]);
      MoveKeepsLed(c, run[0]);
      RunKeepsLed(Do(c, run[0]), run[1..]);
    }
  }

  /**
   * In every run of a connection, with any number of channels opened at any time, each channel is a
   * reachable state of the protocol for one channel: conservation of credit, order, room in the ring and
   * all else that module Flow proves hold of each, although they share queue, wire and loop.
   */
  lemma ChannelsAreFlows(clientWindow: nat, serverWindow: nat, run: seq<Move>, id: Id)
    requires Possible(Fresh(clientWindow, serverWindow), run)
    requires Known(After(Fresh(clientWindow, serverWindow), run), id)
    ensures Flow.Reachable(LinkOf(After(Fresh(clientWindow, serverWindow), run), id))
    ensures Leads(Created(clientWindow, serverWindow), LinkOf(After(Fresh(clientWindow, serverWindow), run), id))
  {
    RunKeepsLed(Fresh(clientWindow, serverWindow), run);
    var s := LinkOf(After(Fresh(clientWindow, serverWindow), run), id);
    var events :| FlowState.Possible(Created(clientWindow, serverWindow), events)
      && s == FlowState.After(Created(clientWindow, serverWindow), events);
  }

  /** In no run does the transport loop meet a frame it cannot take: every frame is of a known channel. */
  lemma ReceivesAnything(clientWindow: nat, serverWindow: nat, run: seq<Move>, left: bool)
    requires Possible(Fresh(clientWindow, serverWindow), run)
    ensures var c := After(Fresh(clientWindow, serverWindow), run);
      Can(c, Receives(left)) <==> MySide(c, left).loop.Idle? && MySide(c, !left).transit != []
  {
    var c := After(Fresh(clientWindow, serverWindow), run);
    RunKeepsLed(Fresh(clientWindow, serverWindow), run);
    if MySide(c, !left).transit != [] {
      assert MySide(c, !left).transit[0] in MySide(c, !left).queue + MySide(c, !left).transit;
    }
  }

  /** The shared queue holds what the Go channel can (server_transport.go:32, client_transport.go:79). */
  predicate Bounded(c: Connection) {
    |c.a.queue| <= 50 && |c.b.queue| <= 50
  }

  lemma PushesOne(x: End, y: End, act: Action)
    requires FlowState.Can(x, y, act) && act != Moving(Flush)
    ensures |FlowState.Do(x, y, act).port.queue| <= |x.port.queue| + if Pushes(act) then 1 else 0
  {
  }

  lemma MoveKeepsBounded(c: Connection, m: Move)
    requires Bounded(c) && Can(c, m)
    ensures Bounded(Do(c, m))
  {
    if m.Own? {
      PushesOne(View(MySide(c, m.left), m.id), View(MySide(c, !m.left), m.id), m.act);
    }
  }

  lemma {:induction false} SharedQueuesAreBounded(c: Connection, run: seq<Move>)
    requires Bounded(c) && Possible(c, run)
    ensures Bounded(After(c, run))
    decreases |run|
  {
    if run != [] {
      MoveKeepsBounded(c, run[0]);
      SharedQueuesAreBounded(Do(c, run[0]), run[1..]);
    }
  }
}
