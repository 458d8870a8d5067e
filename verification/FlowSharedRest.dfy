/** A connection with many channels comes to rest, and then each of its channels is at rest. */
module FlowSharedRest {
  import opened Bytes
  import opened FlowState
  import opened FlowLedger
  import opened FlowShared
  import P = FlowProgress
  import Flow

  // ---- rest ----

  /** What an application may do at any time. */
  predicate Free(act: Action) {
    match act
    case Serving(Accept(_)) => true
    case Using(u) => u.Read? || u.Shut?
    case _ => false
  }

  /** Nothing can happen but new channels, and reads, writes and closes by the applications. */
  ghost predicate Resting(c: Connection) {
    forall m | FlowShared.Can(c, m) :: m.Opens? || (m.Own? && Free(m.act))
  }

  lemma QueueRests(c: Connection, left: bool)
    requires Resting(c)
    ensures MySide(c, left).queue == []
  {
    assert !FlowShared.Can(c, Flushes(left));
  }

  /** What the transport loop does next with the channel it is busy with. */
  function NextOf(x: End): LoopAct {
    match x.loop
    case Idle => Receive
    case Piping(_) => LoopAct.Pipe(1)
    case Confirming(_) => if x.tx.slot.None? then Deposit else Merge
    case Closing => Reject
  }

  lemma LoopRests(c: Connection, left: bool)
    requires Resting(c) && Sane(c) && (forall id | Known(c, id) :: SenderOk(View(MySide(c, left), id)))
    ensures MySide(c, left).loop.Idle?
  {
    var d := MySide(c, left);
    if !d.loop.Idle? {
      assert Known(c, d.busy);
      QueueRests(c, left);
      RoomIsShared(c, d.busy, left, Looping(NextOf(View(d, d.busy))));
    }
  }

  lemma ChannelRests(c: Connection, id: Id, left: bool)
    requires Resting(c) && Sane(c) && Known(c, id) && MySide(c, left).loop.Idle?
    ensures P.Still(View(MySide(c, left), id), View(MySide(c, !left), id))
  {
    var x, y := View(MySide(c, left), id), View(MySide(c, !left), id);
    QueueRests(c, left);
    forall act | FlowState.Can(x, y, act) ensures Free(act) {
      if act == Looping(Receive) {
        WireRests(c, id, left);
      } else if act != Moving(Flush) {
        assert FlowShared.Can(c, Own(id, left, act));
      }
    }
  }

  /** A frame on the wire would be received. */
  lemma WireRests(c: Connection, id: Id, left: bool)
    requires Resting(c) && Sane(c) && Known(c, id) && MySide(c, left).loop.Idle?
    ensures View(MySide(c, !left), id).port.transit == []
  {
    var e := MySide(c, !left);
    if e.transit != [] {
      assert e.transit[0] in e.queue + e.transit;
      assert FlowShared.Can(c, Receives(left));
    }
  }

  lemma LedIsSound(c: Connection, id: Id)
    requires AllLed(c) && Known(c, id)
    ensures Sound(View(c.a, id), View(c.b, id))
  {
    var s := LinkOf(c, id);
    var events :| FlowState.Possible(Created(c.clientWindow, c.serverWindow), events)
      && s == FlowState.After(Created(c.clientWindow, c.serverWindow), events);
    Flow.ReachableHolds(s);
  }

  /** When a connection cannot move, none of its channels can, in either direction. */
  lemma ConnectionRests(c: Connection, id: Id)
    requires Sane(c) && AllLed(c) && Resting(c) && Known(c, id)
    ensures P.Still(View(c.a, id), View(c.b, id)) && P.Still(View(c.b, id), View(c.a, id))
  {
    forall other | Known(c, other) ensures SenderOk(View(c.a, other)) && SenderOk(View(c.b, other)) {
      LedIsSound(c, other);
    }
    LoopRests(c, true);
    LoopRests(c, false);
    ChannelRests(c, id, true);
    ChannelRests(c, id, false);
  }

  /**
   * Every run of a connection that cannot go on leaves each channel at rest; where neither end has closed
   * and no overflow was reported, what is not in the ring has been delivered, and all of it with all
   * credit back if the readers have read, up to what was lost on opening.
   */
  lemma ChannelsDeliver(clientWindow: nat, serverWindow: nat, run: seq<Move>, id: Id, left: bool)
    requires FlowShared.Possible(Fresh(clientWindow, serverWindow), run)
    requires var c := FlowShared.After(Fresh(clientWindow, serverWindow), run);
      Resting(c) && Known(c, id) && P.Healthy(Mine(LinkOf(c, id), left), Theirs(LinkOf(c, id), left))
    ensures var s := LinkOf(FlowShared.After(Fresh(clientWindow, serverWindow), run), id);
      var x, y := Mine(s, left), Theirs(s, left);
      && x.tx.writed == |y.rx.ring| + |x.log.early|
      && x.log.accepted == x.log.early + y.log.delivered + y.rx.ring + x.tx.leftover
      && (x.tx.leftover != [] ==> |y.rx.ring| == y.window - |x.log.early|)
      && (x.rx.ring == [] && y.rx.ring == [] ==> Flow.AllRest(s) && x.tx.writed == |x.log.early|)
  {
    RunKeepsLed(Fresh(clientWindow, serverWindow), run);
    ChannelsAreFlows(clientWindow, serverWindow, run, id);
    var c := FlowShared.After(Fresh(clientWindow, serverWindow), run);
    ConnectionRests(c, id);
    Flow.StuckMeansUnread(LinkOf(c, id), Mine(LinkOf(c, id), left), Theirs(LinkOf(c, id), left));
  }

  // ---- every run ends ----

  /** What a move may add to the number of moves still possible: a new channel, or a buffer, pays for it. */
  function Allowance(c: Connection, m: Move): nat {
    match m
    case Opens(_) => 1 + P.Weight(Created(c.clientWindow, c.serverWindow))
    case Own(_, _, act) => P.Allowance(act)
    case _ => 0
  }

  function Allowances(c: Connection, run: seq<Move>): nat {
    if run == [] then 0 else Allowance(c, run[0]) + Allowances(c, run[1..])
  }

  function Total(c: Connection, ids: seq<Id>): nat
    requires forall id | id in ids :: Known(c, id)
  {
    if ids == [] then 0 else P.Weight(LinkOf(c, ids[0])) + Total(c, ids[1..])
  }

  /** `ids` lists the channels, each once. */
  ghost predicate Lists(c: Connection, ids: seq<Id>) {
    (forall id :: id in ids <==> Known(c, id)) && (forall i, j | 0 <= i < j < |ids| :: ids[i] != ids[j])
  }

  /** The channel that moves. */
  function Mover(c: Connection, m: Move): Id
    requires FlowShared.Can(c, m)
  {
    match m
    case Opens(id) => id
    case Own(id, _, _) => id
    case Flushes(left) => MySide(c, left).queue[0].id
    case Receives(left) => MySide(c, !left).transit[0].id
  }

  lemma MoverKnown(c: Connection, m: Move)
    requires Sane(c) && FlowShared.Can(c, m) && !m.Opens?
    ensures Known(c, Mover(c, m))
  {
    if m.Flushes? {
      var d := MySide(c, m.left);
      assert d.queue[0] in d.queue + d.transit;
    }
  }

  lemma MoverSpends(c: Connection, m: Move)
    requires Sane(c) && AllLed(c) && FlowShared.Can(c, m) && !m.Opens? && Known(c, Mover(c, m))
    requires Known(FlowShared.Do(c, m), Mover(c, m))
    ensures P.Weight(LinkOf(FlowShared.Do(c, m), Mover(c, m))) + 1 <= P.Weight(LinkOf(c, Mover(c, m))) + Allowance(c, m)
  {
    var id := Mover(c, m);
    MoveFollows(c, m, id);
    LedIsSound(c, id);
    P.EventSpends(LinkOf(c, id), StepOf(c, m, id).value);
  }

  /** One link weighs less, the others the same. */
  lemma {:induction false} TotalSpends(c: Connection, d: Connection, ids: seq<Id>, id: Id, more: nat)
    requires forall i | i in ids :: Known(c, i) && Known(d, i)
    requires forall i | i in ids && i != id :: LinkOf(d, i) == LinkOf(c, i)
    requires forall i, j | 0 <= i < j < |ids| :: ids[i] != ids[j]
    requires id in ids ==> P.Weight(LinkOf(d, id)) + 1 <= P.Weight(LinkOf(c, id)) + more
    ensures if id in ids then Total(d, ids) + 1 <= Total(c, ids) + more else Total(d, ids) == Total(c, ids)
  {
    if ids != [] {
      assert ids[0] in ids && (forall i | i in ids[1..] :: i in ids);
      TotalSpends(c, d, ids[1..], id, more);
    }
  }

  lemma {:induction false} TotalAppend(c: Connection, ids: seq<Id>, id: Id)
    requires (forall i | i in ids :: Known(c, i)) && Known(c, id)
    ensures Total(c, ids + [id]) == Total(c, ids) + P.Weight(LinkOf(c, id))
  {
    if ids == [] {
      assert [] + [id] == [id] && Total(c, [id][1..]) == 0;
    } else {
      assert (ids + [id])[1..] == ids[1..] + [id];
      TotalAppend(c, ids[1..], id);
    }
  }

  lemma OthersKeepLinks(c: Connection, m: Move, id: Id)
    requires FlowShared.Can(c, m) && Known(c, id) && id != Mover(c, m)
    ensures Known(FlowShared.Do(c, m), id) && LinkOf(FlowShared.Do(c, m), id) == LinkOf(c, id)
  {
    MoveFollows(c, m, id);
  }

  lemma OpenSpends(c: Connection, m: Move, ids: seq<Id>)
    requires Sane(c) && FlowShared.Can(c, m) && m.Opens? && Lists(c, ids)
    ensures Lists(FlowShared.Do(c, m), ids + [m.id])
    ensures Total(FlowShared.Do(c, m), ids + [m.id]) + 1 == Total(c, ids) + Allowance(c, m)
  {
    var d := FlowShared.Do(c, m);
    OpensCreated(c, m.id);
    forall i | i in ids ensures Known(d, i) && LinkOf(d, i) == LinkOf(c, i) {
      OthersKeepLinks(c, m, i);
    }
    TotalSpends(c, d, ids, m.id, 0);
    TotalAppend(d, ids, m.id);
  }

  lemma MoveSpends(c: Connection, m: Move, ids: seq<Id>) returns (next: seq<Id>)
    requires Sane(c) && AllLed(c) && FlowShared.Can(c, m) && Lists(c, ids)
    ensures Lists(FlowShared.Do(c, m), next)
    ensures Total(FlowShared.Do(c, m), next) + 1 <= Total(c, ids) + Allowance(c, m)
  {
    var d := FlowShared.Do(c, m);
    if m.Opens? {
      next := ids + [m.id];
      OpenSpends(c, m, ids);
    } else {
      next := ids;
      MoverKnown(c, m);
      forall i | i in ids ensures Known(d, i) && (i != Mover(c, m) ==> LinkOf(d, i) == LinkOf(c, i)) {
        if i != Mover(c, m) { OthersKeepLinks(c, m, i); } else { MoveFollows(c, m, i); }
      }
      MoverSpends(c, m);
      TotalSpends(c, d, ids, Mover(c, m), Allowance(c, m));
      forall id | Known(d, id) ensures Known(c, id) {
        if !Known(c, id) { KnownBefore(c, m, id); }
      }
    }
  }

  lemma {:induction false} RunSpends(c: Connection, run: seq<Move>, ids: seq<Id>)
    requires Sane(c) && AllLed(c) && FlowShared.Possible(c, run) && Lists(c, ids)
    ensures |run| <= Total(c, ids) + Allowances(c, run)
    decreases |run|
  {
    if run != [] {
      var d := FlowShared.Do(c, run[0]);
      var next := MoveSpends(c, run[0], ids);
      FlowShared.MoveKeeps(c, run[0]);
      MoveKeepsLed(c, run[0]);
      RunSpends(d, run[1..], next);
      SameAllowances(c, d, run[1..]);
    }
  }

  lemma {:induction false} SameAllowances(c: Connection, d: Connection, run: seq<Move>)
    requires d.clientWindow == c.clientWindow && d.serverWindow == c.serverWindow
    ensures Allowances(d, run) == Allowances(c, run)
  {
    if run != [] {
      SameAllowances(c, d, run[1..]);
    }
  }

  /** No run of a connection is longer than what the channels opened and the buffers accepted in it pay for. */
  lemma ConnectionEnds(clientWindow: nat, serverWindow: nat, run: seq<Move>)
    requires FlowShared.Possible(Fresh(clientWindow, serverWindow), run)
    ensures |run| <= Allowances(Fresh(clientWindow, serverWindow), run)
  {
    RunSpends(Fresh(clientWindow, serverWindow), run, []);
  }
}
