/**
 * What holds of a channel in every reachable state, over every interleaving of the goroutines of
 * both ends. Each statement is about data from `x` to `y`, and holds in both directions.
 */
module Flow {
  import opened Bytes
  import opened FlowState
  import opened FlowLedger
  import opened FlowOrder
  import opened FlowOpening
  import opened FlowProgress

  ghost predicate Invariant(s: Link) {
    && Sound(s.a, s.b)
    && Ordered(s.a, s.b) && Ordered(s.b, s.a)
    && OpeningOk(s.a, s.b)
  }

  lemma EventKeepsInvariant(s: Link, e: Event)
    requires Invariant(s) && Enabled(s, e)
    ensures Invariant(Step(s, e))
  {
    EventKeeps(s, e);
    if e.left {
      SendingKeepsOrder(s.a, s.b, e.act);
      ReceivingKeepsOrder(s.a, s.b, e.act);
      ClientKeepsOpening(s.a, s.b, e.act);
    } else {
      SendingKeepsOrder(s.b, s.a, e.act);
      ReceivingKeepsOrder(s.b, s.a, e.act);
      ServerKeepsOpening(s.b, s.a, e.act);
    }
  }

  lemma {:induction false} RunKeepsInvariant(s: Link, run: seq<Event>)
    requires Invariant(s) && Possible(s, run)
    ensures Invariant(After(s, run))
    decreases |run|
  {
    if run != [] {
      EventKeepsInvariant(s, run[0]);
      RunKeepsInvariant(Step(s, run[0]), run[1..]);
    }
  }

  /** The link `s` is reached by a run that starts with a created channel. */
  ghost predicate Reachable(s: Link) {
    exists clientWindow, serverWindow, run ::
      Possible(Created(clientWindow, serverWindow), run) && s == After(Created(clientWindow, serverWindow), run)
  }

  lemma ReachableHolds(s: Link)
    requires Reachable(s)
    ensures Invariant(s)
  {
    var clientWindow, serverWindow, run :|
      Possible(Created(clientWindow, serverWindow), run) && s == After(Created(clientWindow, serverWindow), run);
    RunKeepsInvariant(Created(clientWindow, serverWindow), run);
  }

  /** `x` and `y` are the two ends of `s`. */
  ghost predicate Ends(s: Link, x: End, y: End) {
    (x == s.a && y == s.b) || (x == s.b && y == s.a)
  }

  /** The invariant for one direction. */
  ghost predicate Holds(x: End, y: End) {
    && Sound(x, y) && Ordered(x, y)
    && (!y.tx.pc.Dormant? ==> y.log.missed == x.log.early)
    && (x.log.early == [] ==> y.log.missed == [])
    && (!x.server ==> x.log.early == [])
  }

  lemma EndsHold(s: Link, x: End, y: End)
    requires Reachable(s) && Ends(s, x, y)
    ensures Holds(x, y)
  {
    ReachableHolds(s);
  }

  /** Spent credit is in flight, stored, unconfirmed or returning, up to the account of losses. */
  lemma CreditConserved(s: Link, x: End, y: End)
    requires Reachable(s) && Ends(s, x, y)
    ensures x.tx.writed + Uncounted(x.tx)
         == |Flight(x.port)| + |Piped(y.loop)| + |y.rx.ring| + Sum(y.rx.hand) + Sum(y.rx.acks) + Gathered(y.rx.ack)
            + CreditIn(y.port) + Merging(x.loop) + Mailed(x.tx) + Lost(x, y)
    ensures Healthy(x, y) ==> Lost(x, y) == |x.log.early|
    ensures !x.server ==> x.log.early == []
  {
    EndsHold(s, x, y);
  }

  /** A conforming peer never overruns the ring, and never confirms what was not sent. */
  lemma NeverOverruns(s: Link, x: End, y: End, act: Action)
    requires Reachable(s) && Ends(s, x, y) && Can(x, y, act)
    // `remoteWindow - writed` does not underflow
    ensures x.tx.writed <= x.remote == y.window
    // `Pipe` does not get ErrWriteOverflow
    ensures act.Looping? && act.loop.Pipe? ==> act.loop.n <= x.window - |x.rx.ring|
    // `Serve` does not break off because of a Confirm
    ensures act == Serving(ApplyConfirm) ==>
      x.tx.pc.confirm <= x.tx.writed && Do(x, y, act).tx.writed == x.tx.writed - x.tx.pc.confirm
    // `choose` does not get to its non-blocking branch
    ensures x.tx.pc.Choose? ==> x.tx.leftover == [] || x.tx.writed == x.remote
  {
    EndsHold(s, x, y);
    FitsPeer(x, y);
    FitsPeer(y, x);
  }

  /** Where every accepted byte is; once the client holds the channel, `missed` is what was queued early. */
  lemma InOrder(s: Link, x: End, y: End)
    requires Reachable(s) && Ends(s, x, y)
    ensures x.log.accepted ==
      (y.log.missed + y.log.delivered + y.rx.ring + y.log.voided) + (Piped(y.loop) + Flight(x.port) + Unsent(x.tx))
    ensures !y.tx.pc.Dormant? ==> y.log.missed == x.log.early
    ensures x.log.early == [] ==> y.log.missed == [] && y.log.delivered <= x.log.accepted
    ensures !y.life.sealed && y.life.table.Open? ==> y.log.voided == []
    ensures !x.server ==> x.log.early == []
  {
    EndsHold(s, x, y);
  }

  /**
   * `Confirm` reports overflow to a conforming peer exactly when a merge brings all of the window
   * back at once: everything sent has been read and confirmed, and `Serve` has not looked.
   */
  lemma OverflowExactly(s: Link, x: End, y: End)
    requires Reachable(s) && Ends(s, x, y) && Can(x, y, Looping(Merge)) && !x.life.overflowed
    ensures var total := x.loop.value + x.tx.slot.value;
      && total <= x.remote
      && (Do(x, y, Looping(Merge)).life.overflowed <==> total == x.remote)
      && (total == x.remote ==>
            x.tx.writed + Uncounted(x.tx) == x.remote && Flight(x.port) == [] && y.rx.ring == [] && Lost(x, y) == 0)
  {
    EndsHold(s, x, y);
    FitsPeer(x, y);
  }

  /** Nothing but `Accept` and `Shut` can happen. */
  ghost predicate AllRest(s: Link) {
    && Still(s.a, s.b) && Still(s.b, s.a)
    && s.a.rx.ring == [] && s.b.rx.ring == []
  }

  lemma RestingOrder(x: End, y: End)
    requires Holds(x, y) && Healthy(x, y) && Still(x, y) && Still(y, x)
    ensures x.tx.writed == |y.rx.ring| + |x.log.early|
    ensures x.tx.leftover != [] ==> |y.rx.ring| == y.window - |x.log.early|
    ensures x.log.accepted == x.log.early + y.log.delivered + y.rx.ring + x.tx.leftover
  {
    AtRest(x, y);
    assert y.log.missed == x.log.early && y.log.voided == [];
  }

  /** A sender that is stuck although nothing failed has a peer whose ring is full. */
  lemma StuckMeansUnread(s: Link, x: End, y: End)
    requires Reachable(s) && Ends(s, x, y) && Healthy(x, y)
    requires Still(x, y) && Still(y, x)
    ensures x.tx.writed == |y.rx.ring| + |x.log.early|
    ensures x.tx.leftover != [] ==> |y.rx.ring| == y.window - |x.log.early|
    ensures x.log.accepted == x.log.early + y.log.delivered + y.rx.ring + x.tx.leftover
  {
    EndsHold(s, x, y);
    RestingOrder(x, y);
  }

  /** At rest everything is delivered and all credit is back, except what was lost on opening. */
  lemma RestDelivers(s: Link, x: End, y: End)
    requires Reachable(s) && Ends(s, x, y) && Healthy(x, y) && AllRest(s)
    ensures x.tx.writed == |x.log.early|
    ensures x.log.accepted == x.log.early + y.log.delivered + x.tx.leftover
    ensures x.tx.leftover != [] ==> |x.log.early| == y.window
  {
    StuckMeansUnread(s, x, y);
  }
}
