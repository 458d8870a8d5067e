/**
 * Runs of conforming ends that end badly, step by step. They show that the conditions in
 * module Flow are not there for the sake of the proof.
 */
module FlowRuns {
  import opened Bytes
  import opened FlowState
  import opened Flow
  import opened FlowProgress

  /** `s` is reached from `start`. */
  ghost predicate Leads(start: Link, s: Link) {
    exists run :: Possible(start, run) && s == After(start, run)
  }

  lemma {:induction false} Extend(start: Link, run: seq<Event>, e: Event)
    requires Possible(start, run) && Enabled(After(start, run), e)
    ensures Possible(start, run + [e]) && After(start, run + [e]) == Step(After(start, run), e)
    decreases |run|
  {
    if run == [] {
      assert run + [e] == [e];
      assert [e][1..] == [];
    } else {
      assert (run + [e])[1..] == run[1..] + [e];
      Extend(Step(start, run[0]), run[1..], e);
    }
  }

  lemma Begin(start: Link)
    ensures Leads(start, start)
  {
    assert Possible(start, []) && start == After(start, []);
  }

  lemma Next(start: Link, s: Link, left: bool, act: Action) returns (t: Link)
    requires Leads(start, s) && Enabled(s, Event(left, act))
    ensures t == Step(s, Event(left, act)) && Leads(start, t)
  {
    var run :| Possible(start, run) && s == After(start, run);
    Extend(start, run, Event(left, act));
    t := Step(s, Event(left, act));
    assert Possible(start, run + [Event(left, act)]);
  }

  /** Everything in the queue of one end gets onto the wire. */
  lemma {:induction false} FlushAll(start: Link, s: Link, left: bool) returns (t: Link)
    requires Leads(start, s)
    ensures Leads(start, t) && Theirs(t, left) == Theirs(s, left)
    ensures var p := Mine(s, left).port; Mine(t, left) == Mine(s, left).(port := Port([], p.transit + p.queue))
    decreases |Mine(s, left).port.queue|
  {
    var p := Mine(s, left).port;
    t := s;
    if p.queue == [] {
      assert p.transit + p.queue == p.transit;
    } else {
      t := Next(start, t, left, Moving(Flush));
      t := FlushAll(start, t, left);
      assert p.transit + p.queue == p.transit + [p.queue[0]] + p.queue[1..];
    }
  }

  /** The server posts its reply and the client creates its channel. */
  lemma Open(clientWindow: nat, serverWindow: nat) returns (s: Link)
    ensures Leads(Created(clientWindow, serverWindow), s)
    ensures s == Link(
      NewEnd(false, clientWindow, serverWindow).(
        tx := Sender(Choose, [], 0, None), life := Status(Table.Open, false, false, false, false)),
      NewEnd(true, serverWindow, clientWindow).(life := Status(Table.Open, false, false, false, false)))
  {
    var start := Created(clientWindow, serverWindow);
    Begin(start);
    s := Next(start, start, false, Moving(Reply));
    s := Next(start, s, false, Moving(Flush));
    s := Next(start, s, true, Looping(Receive));
  }

  /** The client sends two bytes. */
  lemma SendTwo(start: Link, s: Link) returns (t: Link)
    requires Leads(start, s)
    requires s.a.remote >= 2 && s.a.tx == Sender(Choose, [], 0, None) && s.a.port == Port([], [])
    requires !s.a.life.replyDue
    ensures Leads(start, t)
    ensures t.b == s.b
    ensures t.a == s.a.(tx := Sender(Choose, [], 2, None), port := Port([], [WriteFrame([1, 2])]),
                        log := s.a.log.(accepted := s.a.log.accepted + [1, 2]))
  {
    t := Next(start, s, true, Serving(Accept([1, 2])));
    t := Next(start, t, true, Serving(Hand));
    assert [1 as byte, 2][..2] == [1, 2];
    t := Next(start, t, true, Serving(Count));
    assert [1 as byte, 2][2..] == [];
    t := Next(start, t, true, Serving(FlowState.Rest));
    t := Next(start, t, true, Moving(Flush));
  }

  lemma Store(start: Link, s: Link) returns (t: Link)
    requires Leads(start, s)
    requires s.b.window >= 2 && s.b.loop.Idle? && s.b.rx.ring == []
    requires s.b.life == Status(Table.Open, false, false, false, false)
    requires s.a.port.transit == [WriteFrame([1, 2])]
    ensures Leads(start, t)
    ensures t == Link(s.a.(port := s.a.port.(transit := [])), s.b.(rx := s.b.rx.(ring := [1, 2])))
  {
    t := Next(start, s, false, Looping(Receive));
    assert [1 as byte, 2][..2] == [1, 2] && [1 as byte, 2][2..] == [];
    t := Next(start, t, false, Looping(Pipe(2)));
  }

  lemma ReadByte(start: Link, s: Link) returns (t: Link)
    requires Leads(start, s)
    requires s.b.rx.ring != [] && s.b.rx.hand == [] && s.b.rx.acks == [] && s.b.rx.ack.Waiting?
    ensures Leads(start, t)
    ensures t == Link(s.a, s.b.(
      rx := Receiver(s.b.rx.ring[1..], [], [], Gathering(1)),
      log := s.b.log.(delivered := s.b.log.delivered + s.b.rx.ring[..1])))
  {
    t := Next(start, s, false, Using(Read(1)));
    assert t.b.rx.hand == [1];
    t := Next(start, t, false, Using(Return(0)));
    assert t.b.rx.hand == [] && t.b.rx.acks == [1];
    t := Next(start, t, false, Acking(Collect));
  }

  /** The server reads one byte, and `serveConfirm` confirms it at once. */
  lemma ReadOne(start: Link, s: Link) returns (t: Link)
    requires Leads(start, s)
    requires s.b.rx.ring != [] && s.b.rx.hand == [] && s.b.rx.acks == [] && s.b.rx.ack.Waiting? && s.b.port.queue == []
    requires !s.b.life.closed
    ensures Leads(start, t)
    ensures t == Link(s.a, s.b.(
      rx := Receiver(s.b.rx.ring[1..], [], [], Waiting),
      port := Port([], s.b.port.transit + [ConfirmFrame(1)]),
      log := s.b.log.(delivered := s.b.log.delivered + s.b.rx.ring[..1])))
  {
    t := ReadByte(start, s);
    t := Next(start, t, false, Acking(Ready));
    t := Next(start, t, false, Acking(Emit));
    t := Next(start, t, false, Acking(Settle));
    t := Next(start, t, false, Acking(Finish));
    t := Next(start, t, false, Moving(Flush));
  }

  /**
   * A server that reads a window of two bytes one at a time makes the client report overflow and
   * close the channel, although every byte was delivered and confirmed as it should be.
   */
  lemma ConformingPeerOverflows()
    ensures exists s ::
      && Reachable(s)
      && s.a.life.overflowed && s.a.life.closed && !s.b.life.closed
      && s.a.log.accepted == [1, 2] && s.b.log.delivered == [1, 2]
  {
    var start := Created(2, 2);
    var s := Open(2, 2);
    s := SendTwo(start, s);
    s := Store(start, s);
    assert [1 as byte, 2][1..] == [2];
    s := ReadOne(start, s);
    s := ReadOne(start, s);
    assert s.b.port.transit == [ConfirmFrame(1), ConfirmFrame(1)];
    s := Next(start, s, true, Looping(Receive));
    s := Next(start, s, true, Looping(Deposit));
    s := Next(start, s, true, Looping(Receive));
    s := Next(start, s, true, Looping(Merge));
    assert Reachable(s);
  }

  /** The server's application writes before the reply is posted. */
  lemma HandEarly() returns (s: Link)
    ensures Leads(Created(1, 1), s)
    ensures s.a == NewEnd(false, 1, 1)
    ensures s.b == NewEnd(true, 1, 1).(
      tx := Sender(Choose, [8], 1, None),
      port := Port([WriteFrame([7])], []),
      log := History([7, 8], [7], [], [], [], 0, 0))
  {
    var start := Created(1, 1);
    Begin(start);
    s := Next(start, start, false, Serving(Accept([7, 8])));
    s := Next(start, s, false, Serving(Hand));
    assert [7 as byte, 8][..1] == [7] && [7 as byte, 8][1..] == [8];
    s := Next(start, s, false, Serving(Count));
    s := Next(start, s, false, Serving(FlowState.Rest));
  }

  lemma WriteEarly() returns (s: Link)
    ensures Leads(Created(1, 1), s)
    ensures s.a == NewEnd(false, 1, 1)
    ensures s.b == NewEnd(true, 1, 1).(
      tx := Sender(Choose, [8], 1, None),
      port := Port([], [WriteFrame([7]), OpenedFrame]),
      life := Status(Table.Open, false, false, false, false),
      log := History([7, 8], [7], [], [], [], 0, 0))
  {
    var start := Created(1, 1);
    s := HandEarly();
    s := Next(start, s, false, Moving(Reply));
    s := Next(start, s, false, Moving(Flush));
    s := Next(start, s, false, Moving(Flush));
  }

  /** The client drops the data, since it does not have the channel yet, and then gets the reply. */
  lemma DropEarly() returns (s: Link)
    ensures Leads(Created(1, 1), s)
    ensures s.a.tx == Sender(Choose, [], 0, None) && s.a.rx == Receiver([], [], [], Waiting) && s.a.loop == Idle
    ensures s.a.port == Port([], []) && s.a.life == Status(Table.Open, false, false, false, false)
    ensures s.a.log.delivered == [] && s.a.remote == 1
    ensures s.b == NewEnd(true, 1, 1).(
      tx := Sender(Choose, [8], 1, None),
      life := Status(Table.Open, false, false, false, false),
      log := History([7, 8], [7], [], [], [], 0, 0))
  {
    var start := Created(1, 1);
    s := WriteEarly();
    s := Next(start, s, true, Looping(Receive));
    assert [7 as byte][..1] == [7] && [7 as byte][1..] == [];
    s := Next(start, s, true, Looping(Pipe(1)));
    s := Next(start, s, true, Looping(Receive));
  }

  /**
   * Data sent ahead of the Create reply is lost without any error, and its credit with it: here the
   * whole window, so that a sender with more to send is stuck for good in front of an empty ring.
   */
  lemma EarlyDataIsLost()
    ensures exists s ::
      && Reachable(s) && Healthy(s.b, s.a) && AllRest(s)
      && s.b.log.accepted == [7, 8] && s.a.log.delivered == [] && s.b.tx.leftover == [8]
  {
    var s := DropEarly();
    assert Reachable(s);
    assert Still(s.a, s.b);
    assert Still(s.b, s.a);
  }

  /** The server reads a byte of the two it was sent, closes the channel, and says so. */
  lemma CloseUnconfirmed(window: nat) returns (s: Link)
    requires window >= 2
    ensures Leads(Created(window, window), s)
    ensures s.b.port.queue == [CloseFrame] && s.b.rx == Receiver([2], [], [], Gathering(1)) && s.b.remote == window
    ensures s.b.life.closed && s.b.life.table.Gone?
  {
    var start := Created(window, window);
    s := Open(window, window);
    s := SendTwo(start, s);
    s := Store(start, s);
    s := ReadByte(start, s);
    s := Next(start, s, false, Using(Shut));
    s := Next(start, s, false, Serving(Leave));
    s := Next(start, s, false, Serving(Delete));
    s := Next(start, s, false, Serving(SayClose));
  }

  /** Then it confirms what it has read, behind the Close. */
  lemma ConfirmFollowsClose()
    ensures exists s :: Reachable(s) && s.b.port.queue == [CloseFrame, ConfirmFrame(1)]
  {
    var start := Created(2, 2);
    var s := CloseUnconfirmed(2);
    s := Next(start, s, false, Acking(Ready));
    s := Next(start, s, false, Acking(Emit));
    assert Reachable(s);
  }

  /** It reads nothing; the Close finds `serveConfirm` in its first select. */
  lemma QuitUnread() returns (s: Link)
    ensures Leads(Created(2, 2), s)
    ensures s.b.tx.pc == Farewell && s.b.port.queue == [] && s.b.rx == Receiver([1, 2], [], [], Returned(0))
  {
    var start := Created(2, 2);
    s := Open(2, 2);
    s := SendTwo(start, s);
    s := Store(start, s);
    s := Next(start, s, false, Using(Shut));
    s := Next(start, s, false, Acking(Quit));
    s := Next(start, s, false, Serving(Leave));
    s := Next(start, s, false, Serving(Delete));
  }
}
