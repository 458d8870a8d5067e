/**
 * The locking of pipe/pipe_reader.go: any number of readers, writers and closers, interleaved at
 * every point where the lock or the `closed` flag is touched. `Close` swaps the flag before it asks
 * for the lock, so a reader can be between its test of the flag and `cond.Wait` at that moment.
 */
module PipeMonitor {
  import opened Bytes

  type Tid = nat

  datatype Pc =
    // Read, for a request of `want` bytes
    | ReadEnter(want: nat)
    | ReadCheck(want: nat)        // holds the lock
    | Parking(want: nat)          // holds the lock, has found the ring empty and the flag clear
    | Parked(want: nat)           // in `cond.Wait`, not notified
    | Woken(want: nat)            // notified, wants the lock back
    | Relocked(want: nat)         // holds the lock, `wait--` to come
    // Write
    | WriteEnter(data: seq<byte>)
    | WriteLocked(data: seq<byte>)  // holds the lock
    | WriteChecked(data: seq<byte>) // holds the lock, has found the flag clear
    | Wrote                         // holds the lock, broadcast to come
    // Close
    | CloseEnter
    | CloseSwapped                // has set the flag, wants the lock
    | CloseLocked                 // holds the lock, broadcast to come
    | Done

  datatype State = State(
    threads: map<Tid, Pc>,
    holder: Option<Tid>,
    capacity: nat,
    ring: seq<byte>,
    closed: bool,
    wait: nat,
    // history
    accepted: seq<byte>,
    delivered: seq<byte>,
    closer: Option<Tid>, // the `Close` that set the flag, until it has had its broadcast
    shut: bool,          // it has had its broadcast
    ended: bool          // a `Read` of at least one byte has returned EOF
  )

  predicate Holds(pc: Pc) {
    pc.ReadCheck? || pc.Parking? || pc.Relocked? || pc.WriteLocked? || pc.WriteChecked? || pc.Wrote? || pc.CloseLocked?
  }

  predicate WantsLock(pc: Pc) {
    pc.ReadEnter? || pc.Woken? || pc.WriteEnter? || pc.CloseSwapped?
  }

  /** Counted by `wait`. */
  predicate Waits(pc: Pc) {
    pc.Parked? || pc.Woken? || pc.Relocked?
  }

  function Locked(pc: Pc): Pc
    requires WantsLock(pc)
  {
    match pc
    case ReadEnter(want) => ReadCheck(want)
    case Woken(want) => Relocked(want)
    case WriteEnter(data) => WriteLocked(data)
    case CloseSwapped => CloseLocked
  }

  function Notified(pc: Pc): Pc {
    if pc.Parked? then Woken(pc.want) else pc
  }

  /** `if p.wait != 0 { p.cond.Broadcast() }`. */
  function Broadcast(s: State): State {
    if s.wait != 0 then s.(threads := map t | t in s.threads :: Notified(s.threads[t])) else s
  }

  function Goes(s: State, t: Tid, pc: Pc): State {
    s.(threads := s.threads[t := pc])
  }

  function Unlock(s: State, t: Tid, pc: Pc): State {
    Goes(s, t, pc).(holder := None)
  }

  predicate CanRun(s: State, t: Tid) {
    t in s.threads
    && (Holds(s.threads[t]) || s.threads[t].CloseEnter? || (WantsLock(s.threads[t]) && s.holder.None?))
  }

  function Acquire(s: State, t: Tid): State
    requires t in s.threads && WantsLock(s.threads[t])
  {
    Goes(s, t, Locked(s.threads[t])).(holder := Some(t))
  }

  function RunReader(s: State, t: Tid): State
    requires t in s.threads
  {
    match s.threads[t]
    case ReadCheck(want) =>
      if want == 0 then Unlock(s, t, Done)
      else if s.ring != [] then
        var n := Min(want, |s.ring|);
        Unlock(s, t, Done).(ring := s.ring[n..], delivered := s.delivered + s.ring[..n])
      else if s.closed then Unlock(s, t, Done).(ended := true)
      else Goes(s, t, Parking(want))
    case Parking(want) => Unlock(s, t, Parked(want)).(wait := s.wait + 1)
    case Relocked(want) => Goes(s, t, ReadCheck(want)).(wait := if s.wait == 0 then 0 else s.wait - 1)
    case _ => s
  }

  function RunWriter(s: State, t: Tid): State
    requires t in s.threads
  {
    match s.threads[t]
    case WriteLocked(data) => if s.closed then Unlock(s, t, Done) else Goes(s, t, WriteChecked(data))
    case WriteChecked(data) =>
      if s.capacity - |s.ring| < |data| then Unlock(s, t, Done)
      else Goes(s, t, Wrote).(ring := s.ring + data, accepted := s.accepted + data)
    case Wrote => Unlock(Broadcast(s), t, Done)
    case _ => s
  }

  function RunCloser(s: State, t: Tid): State
    requires t in s.threads
  {
    match s.threads[t]
    case CloseEnter =>
      if s.closed then Goes(s, t, Done) else Goes(s, t, CloseSwapped).(closed := true, closer := Some(t))
    case CloseLocked => Unlock(Broadcast(s), t, Done).(shut := true, closer := None)
    case _ => s
  }

  /** The next step of thread `t`. */
  function Run(s: State, t: Tid): State
    requires CanRun(s, t)
  {
    var pc := s.threads[t];
    if WantsLock(pc) then Acquire(s, t)
    else if pc.ReadCheck? || pc.Parking? || pc.Relocked? then RunReader(s, t)
    else if pc.CloseEnter? || pc.CloseLocked? then RunCloser(s, t)
    else RunWriter(s, t)
  }

  predicate CanCall(s: State, t: Tid, pc: Pc) {
    t !in s.threads && (pc.ReadEnter? || pc.WriteEnter? || pc.CloseEnter?)
  }

  datatype Event = Call(t: Tid, pc: Pc) | Runs(t: Tid)

  predicate Enabled(s: State, e: Event) {
    match e
    case Call(t, pc) => CanCall(s, t, pc)
    case Runs(t) => CanRun(s, t)
  }

  function Step(s: State, e: Event): State
    requires Enabled(s, e)
  {
    match e
    case Call(t, pc) => Goes(s, t, pc)
    case Runs(t) => Run(s, t)
  }

  predicate Possible(s: State, run: seq<Event>)
    decreases |run|
  {
    run == [] || (Enabled(s, run[0]) && Possible(Step(s, run[0]), run[1..]))
  }

  function After(s: State, run: seq<Event>): State
    requires Possible(s, run)
    decreases |run|
  {
    if run == [] then s else After(Step(s, run[0]), run[1..])
  }

  function Fresh(capacity: nat): State {
    State(map[], None, capacity, [], false, 0, [], [], None, false, false)
  }

  // ---- the invariant ----

  function Waiters(s: State): set<Tid> {
    set t | t in s.threads && Waits(s.threads[t])
  }

  ghost predicate LockOk(s: State) {
    forall t :: (t in s.threads && Holds(s.threads[t])) <==> s.holder == Some(t)
  }

  ghost predicate CountOk(s: State) {
    s.wait == |Waiters(s)|
  }

  predicate Closes(pc: Pc) {
    pc.CloseSwapped? || pc.CloseLocked?
  }

  ghost predicate CloseOk(s: State) {
    && (forall t :: (t in s.threads && Closes(s.threads[t])) <==> s.closer == Some(t))
    && (s.closed <==> s.closer.Some? || s.shut) && (s.closer.Some? ==> !s.shut)
    && (forall t | t in s.threads && s.threads[t].WriteChecked? :: !s.shut && !s.ended)
    && (s.ended ==> s.closed && s.ring == [])
  }

  /** The lock holder has put bytes in the ring and is bound to broadcast. */
  predicate WriterBroadcasts(s: State) {
    s.holder.Some? && s.holder.value in s.threads && s.threads[s.holder.value].Wrote?
  }

  /** A parked reader has nothing to do, or somebody is bound to broadcast. */
  ghost predicate WakeOk(s: State) {
    && (forall t | t in s.threads && (s.threads[t].Parked? || s.threads[t].Parking?) ::
          (s.ring == [] || WriterBroadcasts(s)) && (s.closed ==> s.closer.Some?))
    && (forall t | t in s.threads && s.threads[t].Parking? :: s.ring == [])
  }

  ghost predicate DataOk(s: State) {
    s.accepted == s.delivered + s.ring && |s.ring| <= s.capacity
  }

  ghost predicate Ok(s: State) {
    LockOk(s) && CountOk(s) && CloseOk(s) && WakeOk(s) && DataOk(s)
  }

  /** The effect of a broadcast: nobody is parked, and nothing else changes. */
  lemma BroadcastWakes(s: State)
    requires CountOk(s)
    ensures var b := Broadcast(s);
      && b == s.(threads := b.threads) && b.threads.Keys == s.threads.Keys
      && (forall t | t in s.threads :: b.threads[t] == Notified(s.threads[t]))
      && Waiters(b) == Waiters(s)
  {
    if s.wait == 0 {
      forall t | t in s.threads ensures !s.threads[t].Parked? {
        assert t !in Waiters(s);
      }
    }
  }

  lemma AcquireKeeps(s: State, t: Tid)
    requires Ok(s) && CanRun(s, t) && WantsLock(s.threads[t])
    ensures Ok(Acquire(s, t))
  {
    assert Waiters(Acquire(s, t)) == Waiters(s);
  }

  lemma LeaveKeeps(s: State, t: Tid)
    requires Ok(s) && t in s.threads && s.holder == Some(t) && !Waits(s.threads[t]) && !Closes(s.threads[t])
    requires s.threads[t].ReadCheck?
    ensures Ok(Unlock(s, t, Done))
  {
    assert Waiters(Unlock(s, t, Done)) == Waiters(s);
  }

  lemma TakeKeeps(s: State, n: nat)
    requires Ok(s) && n <= |s.ring| && !WriterBroadcasts(s)
    ensures Ok(s.(ring := s.ring[n..], delivered := s.delivered + s.ring[..n]))
  {
    assert Waiters(s.(ring := s.ring[n..], delivered := s.delivered + s.ring[..n])) == Waiters(s);
    assert s.ring == s.ring[..n] + s.ring[n..];
  }

  lemma CheckKeeps(s: State, t: Tid)
    requires Ok(s) && CanRun(s, t) && s.threads[t].ReadCheck?
    ensures Ok(RunReader(s, t))
  {
    var want := s.threads[t].want;
    var free := Unlock(s, t, Done);
    LeaveKeeps(s, t);
    if want == 0 {
    } else if s.ring != [] {
      TakeKeeps(free, Min(want, |s.ring|));
    } else if s.closed {
      assert Waiters(free.(ended := true)) == Waiters(free);
    } else {
      assert Waiters(Goes(s, t, Parking(want))) == Waiters(s);
    }
  }

  lemma ParkKeeps(s: State, t: Tid)
    requires Ok(s) && CanRun(s, t) && s.threads[t].Parking?
    ensures Ok(RunReader(s, t))
  {
    assert Waiters(RunReader(s, t)) == Waiters(s) + {t};
  }

  lemma RelockKeeps(s: State, t: Tid)
    requires Ok(s) && CanRun(s, t) && s.threads[t].Relocked?
    ensures Ok(RunReader(s, t))
  {
    assert t in Waiters(s);
    assert Waiters(RunReader(s, t)) == Waiters(s) - {t};
  }

  lemma TestKeeps(s: State, t: Tid)
    requires Ok(s) && CanRun(s, t) && s.threads[t].WriteLocked?
    ensures Ok(RunWriter(s, t))
  {
    assert Waiters(RunWriter(s, t)) == Waiters(s);
  }

  lemma StoreKeeps(s: State, t: Tid)
    requires Ok(s) && CanRun(s, t) && s.threads[t].WriteChecked?
    ensures Ok(RunWriter(s, t))
  {
    assert Waiters(RunWriter(s, t)) == Waiters(s);
  }

  lemma SwapKeeps(s: State, t: Tid)
    requires Ok(s) && CanRun(s, t) && s.threads[t].CloseEnter?
    ensures Ok(RunCloser(s, t))
  {
    assert Waiters(RunCloser(s, t)) == Waiters(s);
  }

  /** After a broadcast and the unlock that follows, no reader is parked and nobody holds the lock. */
  lemma BroadcastFrees(s: State, t: Tid)
    requires Ok(s) && t in s.threads && s.holder == Some(t) && !Waits(s.threads[t])
    ensures var b := Unlock(Broadcast(s), t, Done);
      && LockOk(b) && CountOk(b) && WakeOk(b) && DataOk(b)
      && (forall u | u in b.threads && u != t :: u in s.threads && Closes(b.threads[u]) == Closes(s.threads[u]))
      && (forall u | u in b.threads :: !b.threads[u].WriteChecked? && !b.threads[u].Parked?)
      && b.threads.Keys == s.threads.Keys
  {
    BroadcastWakes(s);
    assert Waiters(Unlock(Broadcast(s), t, Done)) == Waiters(s);
  }

  lemma WriterBroadcastKeeps(s: State, t: Tid)
    requires Ok(s) && CanRun(s, t) && s.threads[t].Wrote?
    ensures Ok(RunWriter(s, t))
  {
    BroadcastFrees(s, t);
  }

  lemma CloserBroadcastKeeps(s: State, t: Tid)
    requires Ok(s) && CanRun(s, t) && s.threads[t].CloseLocked?
    ensures Ok(RunCloser(s, t))
  {
    BroadcastFrees(s, t);
  }

  lemma RunKeeps(s: State, t: Tid)
    requires Ok(s) && CanRun(s, t)
    ensures Ok(Run(s, t))
  {
    match s.threads[t]
    case ReadCheck(_) => CheckKeeps(s, t);
    case Parking(_) => ParkKeeps(s, t);
    case Relocked(_) => RelockKeeps(s, t);
    case WriteLocked(_) => TestKeeps(s, t);
    case WriteChecked(_) => StoreKeeps(s, t);
    case Wrote => WriterBroadcastKeeps(s, t);
    case CloseEnter => SwapKeeps(s, t);
    case CloseLocked => CloserBroadcastKeeps(s, t);
    case _ => AcquireKeeps(s, t);
  }

  lemma CallKeeps(s: State, t: Tid, pc: Pc)
    requires Ok(s) && CanCall(s, t, pc)
    ensures Ok(Goes(s, t, pc))
  {
    assert Waiters(Goes(s, t, pc)) == Waiters(s);
  }

  lemma {:induction false} RunsKeep(s: State, run: seq<Event>)
    requires Ok(s) && Possible(s, run)
    ensures Ok(After(s, run))
    decreases |run|
  {
    if run != [] {
      match run[0] {
        case Call(t, pc) => CallKeeps(s, t, pc);
        case Runs(t) => RunKeeps(s, t);
      }
      RunsKeep(Step(s, run[0]), run[1..]);
    }
  }

  ghost predicate Reachable(s: State) {
    exists capacity, run :: Possible(Fresh(capacity), run) && s == After(Fresh(capacity), run)
  }

  lemma ReachableIsOk(s: State)
    requires Reachable(s)
    ensures Ok(s)
  {
    var capacity, run :| Possible(Fresh(capacity), run) && s == After(Fresh(capacity), run);
    assert Waiters(Fresh(capacity)) == {};
    RunsKeep(Fresh(capacity), run);
  }

  /**
   * No lost wake-up: while a reader is parked and has not been notified, either there is nothing
   * for it (the ring is empty and the pipe open), or a thread that has changed that is on its way
   * to a broadcast: a writer inside its critical section, or a closer that has set the flag.
   */
  lemma NoLostWakeup(s: State, t: Tid)
    requires Reachable(s) && t in s.threads && s.threads[t].Parked?
    ensures s.ring != [] ==> exists u | u in s.threads :: s.threads[u].Wrote? && CanRun(s, u)
    ensures s.closed ==> exists u | u in s.threads :: Closes(s.threads[u])
    ensures s.wait > 0
  {
    ReachableIsOk(s);
    assert t in Waiters(s);
    if s.closed {
      assert Closes(s.threads[s.closer.value]);
    }
    if s.ring != [] {
      assert CanRun(s, s.holder.value);
    }
  }

  /** When no thread can run, every call has returned except readers of an empty, open pipe. */
  lemma StuckMeansWaiting(s: State, t: Tid)
    requires Reachable(s) && t in s.threads && (forall u :: !CanRun(s, u))
    ensures s.threads[t].Done? || (s.threads[t].Parked? && s.ring == [] && !s.closed)
  {
    ReachableIsOk(s);
    assert !CanRun(s, t);
    assert s.holder.Some? ==> !CanRun(s, s.holder.value);
    assert s.closer.Some? ==> !CanRun(s, s.closer.value);
    if s.threads[t].Parked? {
      NoLostWakeup(s, t);
    }
  }

  /** What was accepted is what was read and what is in the ring; EOF leaves nothing behind, for good. */
  lemma NothingLost(s: State)
    requires Reachable(s)
    ensures s.accepted == s.delivered + s.ring && |s.ring| <= s.capacity
    ensures s.ended ==> s.closed && s.delivered == s.accepted
  {
    ReachableIsOk(s);
  }

  /** Once the `Close` that set the flag is through, and once a reader has seen EOF, no write gets in. */
  lemma ClosedAcceptsNothing(s: State, e: Event)
    requires Reachable(s) && Enabled(s, e) && (s.shut || s.ended)
    ensures Step(s, e).accepted == s.accepted
    ensures s.shut ==> Step(s, e).shut
    ensures s.ended ==> Step(s, e).ended
  {
    ReachableIsOk(s);
    if e.Runs? {
      OthersStoreNone(s, e.t);
    }
  }

  lemma {:induction false} Extend(s: State, run: seq<Event>, e: Event)
    requires Possible(s, run) && Enabled(After(s, run), e)
    ensures Possible(s, run + [e]) && After(s, run + [e]) == Step(After(s, run), e)
    decreases |run|
  {
    if run == [] {
      assert run + [e] == [e];
      assert [e][1..] == [];
    } else {
      assert (run + [e])[1..] == run[1..] + [e];
      Extend(Step(s, run[0]), run[1..], e);
    }
  }

  lemma ReachableNext(s: State, e: Event)
    requires Reachable(s) && Enabled(s, e)
    ensures Reachable(Step(s, e))
  {
    var capacity, run :| Possible(Fresh(capacity), run) && s == After(Fresh(capacity), run);
    Extend(Fresh(capacity), run, e);
  }

  /** A writer before the lock. */
  lemma Called() returns (s: State)
    ensures Reachable(s) && s == Fresh(1).(threads := map[0 := WriteEnter([1])])
  {
    var start := Fresh(1);
    assert Possible(start, []) && start == After(Fresh(1), []);
    ReachableNext(start, Call(0, WriteEnter([1])));
    s := Fresh(1).(threads := map[0 := WriteEnter([1])]);
    assert s == Step(start, Call(0, WriteEnter([1])));
  }

  /** The same writer with the lock. */
  lemma Entered() returns (s: State)
    ensures Reachable(s)
    ensures s == Fresh(1).(threads := map[0 := WriteLocked([1])], holder := Some(0))
  {
    s := Called();
    ReachableNext(s, Runs(0));
    s := Step(s, Runs(0));
  }

  /** The same writer once it has tested the flag. */
  lemma Tested() returns (s: State)
    ensures Reachable(s)
    ensures s == Fresh(1).(threads := map[0 := WriteChecked([1])], holder := Some(0))
  {
    s := Entered();
    ReachableNext(s, Runs(0));
    s := Step(s, Runs(0));
  }

  /** The same, and a closer that has set it since. */
  lemma SetAfterTest() returns (s: State)
    ensures Reachable(s)
    ensures s == Fresh(1).(threads := map[0 := WriteChecked([1]), 1 := CloseSwapped], holder := Some(0),
                           closed := true, closer := Some(1))
  {
    s := Tested();
    ReachableNext(s, Call(1, CloseEnter));
    s := Step(s, Call(1, CloseEnter));
    ReachableNext(s, Runs(1));
    s := Step(s, Runs(1));
  }

  /** The thread has found the flag clear, and there is room for its data. */
  predicate Enters(s: State, t: Tid)
    requires t in s.threads
  {
    s.threads[t].WriteChecked? && 0 < |s.threads[t].data| <= s.capacity - |s.ring|
  }

  /**
   * A read that has the lock takes the first bytes, as many as it wants or there are; without any it
   * ends if the pipe is closed and waits otherwise; a read of nothing takes nothing.
   */
  lemma ReadTakes(s: State, t: Tid)
    requires CanRun(s, t) && s.threads[t].ReadCheck?
    ensures var u, want := Run(s, t), s.threads[t].want;
      && s.ring == u.delivered[|s.delivered|..] + u.ring && s.delivered <= u.delivered
      && |u.delivered| - |s.delivered| == Min(want, |s.ring|)
      && u.threads[t] == (if want > 0 && s.ring == [] && !s.closed then Parking(want) else Done)
      && (u.ended == (s.ended || (want > 0 && s.ring == [] && s.closed)))
      && u.accepted == s.accepted && u.closed == s.closed
  {
  }

  /** A write that has tested the flag stores all of its data if there is room, and nothing otherwise. */
  lemma WriteStores(s: State, t: Tid)
    requires CanRun(s, t) && s.threads[t].WriteChecked?
    ensures var u, data := Run(s, t), s.threads[t].data;
      && (u.threads[t] == if |data| <= s.capacity - |s.ring| then Wrote else Done)
      && (u.ring == s.ring + if |data| <= s.capacity - |s.ring| then data else [])
      && (u.accepted == s.accepted + if |data| <= s.capacity - |s.ring| then data else [])
      && u.delivered == s.delivered && u.closed == s.closed
  {
  }

  lemma OthersStoreNone(s: State, t: Tid)
    requires CanRun(s, t) && !s.threads[t].WriteChecked?
    ensures Run(s, t).accepted == s.accepted
  {
  }

  /** A write gets in although the flag is set exactly when its thread had tested the flag before. */
  lemma EntersWhenClosed(s: State, t: Tid)
    requires CanRun(s, t) && s.closed
    ensures Run(s, t).accepted != s.accepted <==> Enters(s, t)
  {
    if s.threads[t].WriteChecked? {
      assert Run(s, t) == RunWriter(s, t);
      assert |Run(s, t).accepted| == |s.accepted| + if Enters(s, t) then |s.threads[t].data| else 0;
    } else {
      OthersStoreNone(s, t);
    }
  }

  /** The flag alone does not keep writes out: exactly then, and this does happen. */
  lemma FlagIsNotEnough()
    ensures forall s, t | CanRun(s, t) && s.closed :: Run(s, t).accepted != s.accepted <==> Enters(s, t)
    ensures exists s, t :: Reachable(s) && CanRun(s, t) && s.closed && Run(s, t).accepted == [1]
  {
    var s := SetAfterTest();
    assert Reachable(s) && CanRun(s, 0);
    assert Run(s, 0).accepted == [1];
    forall s, t | CanRun(s, t) && s.closed ensures Run(s, t).accepted != s.accepted <==> Enters(s, t) {
      EntersWhenClosed(s, t);
    }
  }
}
