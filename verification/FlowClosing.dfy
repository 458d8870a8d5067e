/**
 * What an end still sends after the Close of `delete`. Write frames cannot follow it, since `Serve`
 * has left its loop. But `serveConfirm` ends on its own: a Confirm can follow exactly when it has
 * not returned, and is past its drain loop with something to confirm or can still get there.
 */
module FlowClosing {
  import opened Bytes
  import opened FlowState
  import opened FlowLedger
  import opened FlowProgress
  import opened FlowRuns
  import opened Flow

  /** In the split loop, with something left. */
  predicate Committed(ack: AckPc) {
    (ack.Emitting? || ack.Emitted?) && Gathered(ack) > 0
  }

  /**
   * `serveConfirm` can still hand over a frame. On a closed channel its drain loop has no default, so
   * it takes a third of the window to get past it.
   */
  predicate Confirmable(x: End) {
    && !x.rx.ack.Returned? && Unconfirmed(x.rx) > 0
    && (!x.life.closed || Committed(x.rx.ack) || x.remote / 3 <= Unconfirmed(x.rx))
  }

  // ---- never again ----

  /** The channel is closed and out of the table, and can no longer confirm. */
  predicate Silent(x: End) {
    x.life.closed && x.life.table.Gone? && !Confirmable(x)
  }

  lemma SilentUses(x: End, act: UserAct)
    requires Silent(x) && CanUse(x, act)
    ensures Silent(Use(x, act))
  {
    match act
    case Read(k) => SumAppend(x.rx.hand, [k]);
    case Return(i) =>
      SumRemove(x.rx.hand, i);
      SumAppend(x.rx.acks, [x.rx.hand[i]]);
    case Forget(i) => SumRemove(x.rx.hand, i);
    case _ =>
  }

  lemma SilentLoops(x: End, y: End, act: LoopAct)
    requires Silent(x) && CanLoop(x, y, act)
    ensures Silent(LoopStep(x, y, act))
  {
  }

  lemma SilentAcks(x: End, act: AckAct)
    requires Silent(x) && CanAck(x, act)
    ensures Silent(AckStep(x, act)) && !act.Emit?
  {
  }

  lemma SilentSteps(x: End, y: End, act: Action)
    requires Silent(x) && Can(x, y, act)
    ensures Silent(Do(x, y, act)) && act != Acking(Emit)
  {
    match act
    case Using(u) => SilentUses(x, u);
    case Looping(l) => SilentLoops(x, y, l);
    case Acking(a) => SilentAcks(x, a);
    case _ =>
  }

  lemma {:induction false} StaysSilent(s: Link, left: bool, run: seq<Event>)
    requires Silent(Mine(s, left)) && Possible(s, run)
    ensures Silent(Mine(After(s, run), left)) && !Enabled(After(s, run), Event(left, Acking(Emit)))
    decreases |run|
  {
    if run == [] {
      if Enabled(s, Event(left, Acking(Emit))) {
        SilentSteps(Mine(s, left), Theirs(s, left), Acking(Emit));
      }
    } else {
      if run[0].left == left {
        SilentSteps(Mine(s, left), Theirs(s, left), run[0].act);
      }
      StaysSilent(Step(s, run[0]), left, run[1..]);
    }
  }

  // ---- still possible ----

  /** Where the next count for `serveConfirm` comes from. */
  function NextCount(x: End, take: AckAct): Action {
    if x.rx.acks != [] then Acking(take) else if x.rx.hand != [] then Using(Return(0)) else Using(Read(1))
  }

  /** The next thing to do about what is not confirmed. */
  function Pursue(x: End): Action {
    if x.port.queue != [] then Moving(Flush)
    else match x.rx.ack
      case Emitting(_) => Acking(Finish)
      case Emitted(_, _) => Acking(Settle)
      case Gathering(n) =>
        if x.remote / 3 <= n || (x.rx.acks == [] && !x.life.closed) then Acking(Ready) else NextCount(x, Gather)
      case _ => NextCount(x, Collect)
  }

  /** `x'` is one step closer to confirming. */
  ghost predicate Closer(x: End, x': End) {
    SenderOk(x') && (Confirmable(x) ==> Confirmable(x')) && EndWeight(x') < EndWeight(x)
  }

  lemma FlushPursues(x: End)
    requires SenderOk(x) && CanMove(x, Flush)
    ensures Closer(x, Move(x, Flush))
  {
    MoveSpends(x, Flush);
  }

  lemma AckPursues(x: End, act: AckAct)
    requires SenderOk(x) && CanAck(x, act) && !act.Emit? && !act.Quit?
    ensures Closer(x, AckStep(x, act))
  {
    AckSpends(x, act);
  }

  lemma ReturnPursues(x: End)
    requires SenderOk(x) && CanUse(x, Return(0))
    ensures Closer(x, Use(x, Return(0)))
  {
    UseSpends(x, Return(0));
    SumRemove(x.rx.hand, 0);
    SumAppend(x.rx.acks, [x.rx.hand[0]]);
  }

  lemma ReadPursues(x: End)
    requires SenderOk(x) && CanUse(x, Read(1))
    ensures Closer(x, Use(x, Read(1)))
  {
    UseSpends(x, Read(1));
    SumAppend(x.rx.hand, [1]);
  }

  lemma CanPursue(x: End, y: End)
    requires SenderOk(x) && Confirmable(x) && !CanAck(x, Emit)
    ensures Can(x, y, Pursue(x))
  {
  }

  lemma Pursues(x: End, y: End)
    requires SenderOk(x) && Can(x, y, Pursue(x)) && !CanAck(x, Emit)
    ensures Closer(x, Do(x, y, Pursue(x)))
  {
    match Pursue(x)
    case Moving(_) => FlushPursues(x);
    case Acking(a) => AckPursues(x, a);
    case Using(u) => if u.Return? { ReturnPursues(x); } else { ReadPursues(x); }
  }

  /** What is confirmable can be confirmed, even after a close. */
  lemma {:induction false} WillConfirm(start: Link, s: Link, left: bool) returns (t: Link)
    requires Leads(start, s) && SenderOk(Mine(s, left)) && Confirmable(Mine(s, left))
    ensures Leads(start, t) && Enabled(t, Event(left, Acking(Emit)))
    decreases EndWeight(Mine(s, left))
  {
    t := s;
    if !CanAck(Mine(s, left), Emit) {
      CanPursue(Mine(s, left), Theirs(s, left));
      Pursues(Mine(s, left), Theirs(s, left));
      t := Next(start, t, left, Pursue(Mine(s, left)));
      t := WillConfirm(start, t, left);
    }
  }

  // ---- closing gets done ----

  /**
   * Wherever `Serve` waits, for a buffer, for credit or for room in the queue, a close ends the wait, and so
   * it does where a `Read` waits to hand over its count.
   */
  lemma CloseEndsWaits(x: End)
    requires x.life.closed
    ensures x.tx.pc.Choose? ==> CanServe(x, Leave)
    ensures x.tx.pc.Pump? && x.tx.leftover != [] && x.tx.writed < x.remote ==> CanServe(x, Leave)
    ensures forall i | 0 <= i < |x.rx.hand| :: CanUse(x, Forget(i))
  {
  }

  lemma ClosedServeRests(x: End, y: End)
    requires Still(x, y) && SenderOk(x) && x.life.closed
    ensures x.tx.pc.Dormant? || x.tx.pc.Left?
  {
    PortRests(x, y);
    assert !Can(x, y, Serving(Leave));
    assert !Can(x, y, Serving(ApplyConfirm));
    assert !Can(x, y, Serving(FlowState.Rest));
    assert !Can(x, y, Serving(Count));
    assert !Can(x, y, Serving(Delete));
    assert !Can(x, y, Serving(SayClose));
  }

  lemma ClosedAckRests(x: End, y: End)
    requires Still(x, y) && SenderOk(x) && x.life.closed
    ensures x.rx.ack.Returned? && x.rx.hand == [] && x.life.sealed
  {
    PortRests(x, y);
    assert !Can(x, y, Acking(Quit));
    assert !Can(x, y, Acking(Ready));
    assert !Can(x, y, Acking(Settle));
    assert !Can(x, y, Acking(Finish));
    assert !Can(x, y, Using(Forget(0)));
    assert !Can(x, y, Using(Seal));
  }

  /**
   * A close gets done: when nothing but the application can move, a closed channel is out of the table, its
   * pipe is closed, both its goroutines have returned, no `Read` waits to confirm, and the queue is empty.
   */
  lemma ClosingGetsDone(s: Link, x: End, y: End)
    requires Reachable(s) && Flow.Ends(s, x, y) && Still(x, y) && x.life.closed && !x.tx.pc.Dormant?
    ensures x.tx.pc.Left? && x.life.table.Gone? && x.life.sealed
    ensures x.rx.ack.Returned? && x.rx.hand == [] && x.port.queue == [] && x.loop.Idle?
  {
    EndsHold(s, x, y);
    PortRests(x, y);
    LoopRests(x, y);
    ClosedServeRests(x, y);
    ClosedAckRests(x, y);
  }

  // ---- after the Close ----

  /** Some run leads to a state in which `serveConfirm` hands over a frame. */
  ghost predicate CanStillConfirm(s: Link, left: bool) {
    exists run :: Possible(s, run) && Enabled(After(s, run), Event(left, Acking(Emit)))
  }

  lemma ConfirmsLater(s: Link, left: bool)
    requires SenderOk(Mine(s, left)) && Confirmable(Mine(s, left))
    ensures CanStillConfirm(s, left)
  {
    Begin(s);
    var t := WillConfirm(s, s, left);
    var run :| Possible(s, run) && t == After(s, run);
    assert Enabled(After(s, run), Event(left, Acking(Emit)));
  }

  lemma NeverConfirms(s: Link, left: bool)
    requires Silent(Mine(s, left))
    ensures !CanStillConfirm(s, left)
  {
    forall run | Possible(s, run) ensures !Enabled(After(s, run), Event(left, Acking(Emit))) {
      StaysSilent(s, left, run);
    }
  }

  lemma SayingClose(x: End)
    requires SenderOk(x) && StatusOk(x) && CanServe(x, SayClose)
    ensures var x' := ServeStep(x, SayClose);
      && SenderOk(x') && x'.life == x.life && x'.life.closed && x'.life.table.Gone?
      && x'.rx == x.rx && x'.remote == x.remote && x'.port.queue == x.port.queue + [CloseFrame]
  {
  }

  /**
   * After the Close of `delete` has been queued a Confirm can still be, behind it, exactly when
   * `serveConfirm` has not returned and either is in its split loop with something to confirm, or finds
   * something to confirm that is at least a third of the window.
   */
  lemma ConfirmMayFollow(s: Link, left: bool)
    requires Reachable(s) && Enabled(s, Event(left, Serving(SayClose)))
    ensures var t, rx := Step(s, Event(left, Serving(SayClose))), Mine(s, left).rx;
      && Mine(t, left).port.queue == Mine(s, left).port.queue + [CloseFrame]
      && (CanStillConfirm(t, left) <==>
            && !rx.ack.Returned? && Unconfirmed(rx) > 0
            && (Committed(rx.ack) || Mine(s, left).remote / 3 <= Unconfirmed(rx)))
  {
    var t := Step(s, Event(left, Serving(SayClose)));
    EndsHold(s, Mine(s, left), Theirs(s, left));
    SayingClose(Mine(s, left));
    if Confirmable(Mine(t, left)) {
      ConfirmsLater(t, left);
    } else {
      NeverConfirms(t, left);
    }
  }

  /** Bytes that are read afterwards are never confirmed if `serveConfirm` was waiting for a count when it closed. */
  lemma NoConfirmFollows()
    ensures exists s ::
      && Reachable(s) && s.b.rx == Receiver([1, 2], [], [], Returned(0))
      && s.b.port.queue == [CloseFrame] && !CanStillConfirm(s, false)
  {
    var s := QuitUnread();
    assert Reachable(s);
    ConfirmMayFollow(s, false);
    var t := Next(Created(2, 2), s, false, Serving(SayClose));
    assert Reachable(t);
  }

  /** A byte it has gathered but cannot get past the drain loop with is not confirmed either. */
  lemma NoConfirmOfLess()
    ensures exists s ::
      && Reachable(s) && s.b.rx == Receiver([2], [], [], Gathering(1))
      && s.b.port.queue == [CloseFrame] && !CanStillConfirm(s, false)
  {
    var s := CloseUnconfirmed(9);
    assert Reachable(s);
    NeverConfirms(s, false);
  }
}
