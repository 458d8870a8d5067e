/** What holds of the server's table and queue in every run of the command loop and the channels. */
module ServerRuns {
  import opened Bytes
  import opened PipeReaders
  import opened Frames
  import opened ServerTable

  // ---- what a step puts into the queue ----

  function Posted(s: Server, o: Out): seq<Out> {
    if |s.ch| < QUEUE_CAPACITY then [o] else []
  }

  function Puts(s: Server, a: Act): seq<Out>
    requires Can(s, a)
  {
    match a
    case Carry(Pong(tag)) => Posted(s, Echo(tag))
    case Carry(Create(id)) => Posted(s, Reply(id, CreateCode(s, id)))
    case Carry(Confirm(id, size)) => OnConfirm(s, id, size).ch[|s.ch|..]
    case Late(id, size) => Deposit(s, id, size).ch[|s.ch|..]
    case Emit(r, payload) => [WriteOf(r, payload)]
    case Ack(r, size) => [ConfirmOf(r, size)]
    case Say(r) => [CloseOf(r)]
    case Settle(i) => [s.posts[i]]
    case _ => []
  }

  /** `t` has `more` behind what `s` has put into the queue, and no channel starts over. */
  ghost predicate Grows(s: Server, t: Server, more: seq<Out>) {
    && Sent(t) == Sent(s) + more
    && |s.chans| <= |t.chans|
    && (forall r | 0 <= r < |s.chans| && s.chans[r].pc.Ended? :: t.chans[r].pc.Ended?)
    && (forall o | o in t.posts :: o in s.posts || o.Reply? || o.Echo?)
  }

  lemma {:induction false} ChunksStand(s: Server, id: nat, payload: seq<byte>, max: nat)
    requires payload != [] ==> max > 0
    ensures var t := OnChunks(s, id, payload, max);
      && t == s.(chans := t.chans) && |t.chans| == |s.chans|
      && (forall r | 0 <= r < |s.chans| :: t.chans[r].pc == s.chans[r].pc && t.chans[r].id == s.chans[r].id)
    decreases |payload|
  {
    if payload != [] {
      var n := Min(|payload|, max);
      ChunksStand(OnChunk(s, id, payload[..n]), id, payload[n..], max);
    }
  }

  lemma CarryGrows(s: Server, c: Command)
    ensures Grows(s, OnCommand(s, c), Puts(s, Carry(c)))
    ensures forall o | o in Puts(s, Carry(c)) :: o.Reply? || o.Echo? || o.CloseId?
    ensures |Puts(s, Carry(c))| <= 1
  {
    if c.Write? {
      ChunksStand(s, c.id, c.payload, BufferSize(LOOP_BUFFER, |c.payload|));
    }
  }

  lemma StepGrows(s: Server, a: Act)
    requires Can(s, a)
    ensures Grows(s, Do(s, a), Puts(s, a)) && |Puts(s, a)| <= 1
  {
    match a
    case Carry(c) => CarryGrows(s, c);
    case Flush => assert Sent(Do(s, a)) == Sent(s);
    case _ =>
  }

  // ---- Close comes after every Write ----

  /** No Write frame of a channel follows its Close frame, and a channel has one Close frame at most. */
  ghost predicate ClosesLast(outs: seq<Out>) {
    forall i, j | 0 <= i < j < |outs| && outs[i].CloseOf? ::
      outs[j] != outs[i] && (outs[j].WriteOf? ==> outs[j].writer != outs[i].closer)
  }

  ghost predicate OrderOk(s: Server) {
    && (forall o | o in Sent(s) && o.CloseOf? :: o.closer < |s.chans| && s.chans[o.closer].pc.Ended?)
    && ClosesLast(Sent(s))
    && (forall o | o in s.posts :: o.Reply? || o.Echo?)
  }

  lemma GrowthKeepsOrder(s: Server, t: Server, more: seq<Out>)
    requires OrderOk(s) && Grows(s, t, more) && |more| <= 1
    requires forall o | o in more && o.WriteOf? :: o.writer < |s.chans| && !s.chans[o.writer].pc.Ended?
    requires forall o | o in more && o.CloseOf? ::
      o.closer < |s.chans| && !s.chans[o.closer].pc.Ended? && o.closer < |t.chans| && t.chans[o.closer].pc.Ended?
    ensures OrderOk(t)
  {
  }

  lemma StepKeepsOrder(s: Server, a: Act)
    requires OrderOk(s) && Can(s, a)
    ensures OrderOk(Do(s, a))
  {
    StepGrows(s, a);
    if a.Carry? { CarryGrows(s, a.c); }
    if a.Settle? { assert s.posts[a.i] in s.posts; }
    GrowthKeepsOrder(s, Do(s, a), Puts(s, a));
  }

  // ---- what is put into the queue, and how often ----

  function Times(outs: seq<Out>, o: Out): nat {
    if outs == [] then 0 else (if outs[0] == o then 1 else 0) + Times(outs[1..], o)
  }

  lemma {:induction false} TimesAppend(a: seq<Out>, b: seq<Out>, o: Out)
    ensures Times(a + b, o) == Times(a, o) + Times(b, o)
  {
    if a == [] {
      assert a + b == b;
    } else {
      assert (a + b)[1..] == a[1..] + b;
      TimesAppend(a[1..], b, o);
    }
  }

  lemma TimesOne(p: Out, o: Out)
    ensures Times([p], o) == if p == o then 1 else 0
  {
    assert [p][1..] == [];
  }

  /** How often `o` is on the wire, in the queue or in a waiting `postWrite`. */
  function Here(s: Server, o: Out): nat {
    Times(s.wire, o) + Times(s.ch, o) + Times(s.posts, o)
  }

  /** The mailbox of channel `r` is full and a merge would reach the window. */
  predicate Overflows(s: Server, r: Ref, size: nat)
    requires r < |s.chans|
  {
    s.chans[r].slot.Some? && s.chans[r].slot.value + size >= s.remote
  }

  /** What the peer is due to get for a step. */
  function Due(s: Server, a: Act): seq<Out>
    requires Can(s, a) && KeysOk(s.keys, s.chans)
  {
    match a
    case Carry(Create(id)) => [Reply(id, CreateCode(s, id))]
    case Carry(Pong(tag)) => [Echo(tag)]
    case Carry(Confirm(id, size)) =>
      if id !in s.keys || (!s.chans[s.keys[id]].pipe.closed && Overflows(s, s.keys[id], size)) then [CloseId(id)] else []
    case Late(id, size) => if Overflows(s, s.keys[id], size) then [CloseId(id)] else []
    case Emit(r, payload) => [WriteOf(r, payload)]
    case Ack(r, size) => [ConfirmOf(r, size)]
    case Say(r) => [CloseOf(r)]
    case _ => []
  }

  lemma PutsOne(s: Server, t: Server, p: Out, o: Out)
    requires t.wire == s.wire
    requires (t.ch == s.ch + [p] && t.posts == s.posts) || (t.ch == s.ch && t.posts == s.posts + [p])
    ensures Here(t, o) == Here(s, o) + Times([p], o)
  {
    TimesAppend(s.ch, [p], o);
    TimesAppend(s.posts, [p], o);
  }

  lemma PostPuts(s: Server, p: Out, o: Out)
    ensures Here(Post(s, p), o) == Here(s, o) + Times([p], o)
  {
    PutsOne(s, Post(s, p), p, o);
  }

  lemma ConfirmPuts(s: Server, id: nat, size: nat, o: Out)
    requires KeysOk(s.keys, s.chans)
    ensures Here(OnConfirm(s, id, size), o) == Here(s, o) + Times(Due(s, Carry(Confirm(id, size))), o)
  {
    if OnConfirm(s, id, size).ch != s.ch {
      PutsOne(s, OnConfirm(s, id, size), CloseId(id), o);
    }
  }

  lemma LatePuts(s: Server, id: nat, size: nat, o: Out)
    requires KeysOk(s.keys, s.chans) && Can(s, Late(id, size))
    ensures Here(Deposit(s, id, size), o) == Here(s, o) + Times(Due(s, Late(id, size)), o)
  {
    if Deposit(s, id, size).ch != s.ch {
      PutsOne(s, Deposit(s, id, size), CloseId(id), o);
    }
  }

  lemma CreatePuts(s: Server, id: nat, o: Out)
    ensures Here(OnCreate(s, id), o) == Here(s, o) + Times([Reply(id, CreateCode(s, id))], o)
  {
    PutsOne(s, OnCreate(s, id), Reply(id, CreateCode(s, id)), o);
  }

  lemma CarryPuts(s: Server, c: Command, o: Out)
    requires KeysOk(s.keys, s.chans)
    ensures Here(OnCommand(s, c), o) == Here(s, o) + Times(Due(s, Carry(c)), o)
  {
    match c
    case Create(id) => CreatePuts(s, id, o);
    case Pong(tag) => PostPuts(s, Echo(tag), o);
    case Confirm(id, size) => ConfirmPuts(s, id, size, o);
    case Write(id, payload) => ChunksStand(s, id, payload, BufferSize(LOOP_BUFFER, |payload|));
    case _ =>
  }

  lemma TimesTakeOut(outs: seq<Out>, i: nat, o: Out)
    requires i < |outs|
    ensures Times(outs, o) == Times([outs[i]], o) + Times(outs[..i] + outs[i + 1..], o)
  {
    assert outs == outs[..i] + ([outs[i]] + outs[i + 1..]);
    TimesAppend(outs[..i], [outs[i]] + outs[i + 1..], o);
    TimesAppend([outs[i]], outs[i + 1..], o);
    TimesAppend(outs[..i], outs[i + 1..], o);
  }

  lemma SettlePuts(s: Server, i: nat, o: Out)
    requires i < |s.posts|
    ensures Here(Do(s, Settle(i)), o) == Here(s, o)
  {
    TimesAppend(s.ch, [s.posts[i]], o);
    TimesTakeOut(s.posts, i, o);
  }

  lemma FlushPuts(s: Server, o: Out)
    requires s.ch != []
    ensures Here(Do(s, Flush), o) == Here(s, o)
  {
    TimesAppend(s.wire, [s.ch[0]], o);
    TimesOne(s.ch[0], o);
  }

  lemma StepPuts(s: Server, a: Act, o: Out)
    requires Can(s, a) && KeysOk(s.keys, s.chans)
    ensures Here(Do(s, a), o) == Here(s, o) + Times(Due(s, a), o)
  {
    match a
    case Carry(c) => CarryPuts(s, c, o);
    case Settle(i) => SettlePuts(s, i, o);
    case Flush => FlushPuts(s, o);
    case Late(id, size) => LatePuts(s, id, size, o);
    case Emit(r, payload) => PutsOne(s, Do(s, a), WriteOf(r, payload), o);
    case Ack(r, size) => PutsOne(s, Do(s, a), ConfirmOf(r, size), o);
    case Say(r) => PutsOne(s, Do(s, a), CloseOf(r), o);
    case _ =>
  }

  /** Until it leaves its loop, closed or not, `Serve` may hand over any frame that can be. */
  lemma EmitsWhileRunning(s: Server, r: Ref, payload: seq<byte>)
    requires r < |s.chans|
    ensures Can(s, Emit(r, payload)) <==> s.chans[r].pc.Running? && payload != [] && |payload| <= MAX_UINT16
  {
  }

  /** What a channel's own steps do to it, and that they do nothing to any other. */
  lemma ChannelSteps(s: Server, a: Act, r: Ref)
    requires Can(s, a) && r < |s.chans|
    requires a.Ack? || a.Shut? || a.Stop? || a.Drain? || a.Take?
    ensures |Do(s, a).chans| == |s.chans| && Do(s, a).keys == s.keys
    ensures a.r != r ==> Do(s, a).chans[r] == s.chans[r]
    ensures var c, d := s.chans[r], Do(s, a).chans[r];
      a.r == r ==>
        && (a.Ack? ==> d == c.(unconfirmed := d.unconfirmed) && d.unconfirmed + a.size == c.unconfirmed)
        && (a.Shut? || a.Stop? ==> d == c.(pc := d.pc, pipe := Shared(c.pipe.contents, true)))
        && (a.Drain? ==> d == c.(slot := None))
        && (a.Take? ==> d.unconfirmed == c.unconfirmed + a.k && d.pipe.contents == c.pipe.contents[a.k..]
                        && d.slot == c.slot && d.pipe.closed == c.pipe.closed)
  {
  }

  // ---- runs ----

  ghost predicate Ok(s: Server) {
    TableOk(s) && OrderOk(s)
  }

  lemma {:induction false} RunKeeps(s: Server, run: seq<Act>)
    requires Ok(s) && Possible(s, run)
    ensures Ok(After(s, run))
    decreases |run|
  {
    if run != [] {
      StepKeepsTable(s, run[0]);
      StepKeepsOrder(s, run[0]);
      RunKeeps(Do(s, run[0]), run[1..]);
    }
  }

  ghost predicate Reachable(s: Server) {
    exists limit, window, remote, run ::
      Possible(Fresh(limit, window, remote), run) && s == After(Fresh(limit, window, remote), run)
  }

  lemma ReachableIsOk(s: Server)
    requires Reachable(s)
    ensures Ok(s)
  {
    var limit, window, remote, run :|
      Possible(Fresh(limit, window, remote), run) && s == After(Fresh(limit, window, remote), run);
    RunKeeps(Fresh(limit, window, remote), run);
  }

  /** Entries are stored under their own id, the limit is never exceeded, what is out of the table is closed. */
  lemma TableSafe(s: Server)
    requires Reachable(s)
    ensures forall id | id in s.keys :: s.keys[id] < |s.chans| && s.chans[s.keys[id]].id == id
    ensures s.limit > 0 ==> |s.keys| <= s.limit
    ensures forall r | 0 <= r < |s.chans| && !Holds(s, r) :: s.chans[r].pipe.closed
  {
    ReachableIsOk(s);
  }

  /** Create makes a channel exactly when its answer says so, and leaves every other channel alone. */
  lemma CreateAnswers(s: Server, id: nat)
    ensures var t := OnCreate(s, id);
      && (CreateCode(s, id) == 0 <==> id !in s.keys && (s.limit <= 0 || |s.keys| < s.limit))
      && (CreateCode(s, id) == 1 <==> id in s.keys)
      && (CreateCode(s, id) == 2 <==> id !in s.keys && 0 < s.limit <= |s.keys|)
      && (CreateCode(s, id) == 0 ==> t.keys == s.keys[id := |s.chans|] && t.chans == s.chans + [NewChan(id)])
      && (CreateCode(s, id) != 0 ==> t.keys == s.keys && t.chans == s.chans)
  {
  }

  /** Everything the peer is due to get for the steps of `run`, in order. */
  function DueIn(s: Server, run: seq<Act>): seq<Out>
    requires TableOk(s) && Possible(s, run)
    decreases |run|
  {
    if run == [] then []
    else
      StepKeepsTable(s, run[0]);
      Due(s, run[0]) + DueIn(Do(s, run[0]), run[1..])
  }

  lemma {:induction false} RunPuts(s: Server, run: seq<Act>, o: Out)
    requires TableOk(s) && Possible(s, run)
    ensures Here(After(s, run), o) == Here(s, o) + Times(DueIn(s, run), o)
    decreases |run|
  {
    if run != [] {
      StepKeepsTable(s, run[0]);
      StepPuts(s, run[0], o);
      RunPuts(Do(s, run[0]), run[1..], o);
      TimesAppend(Due(s, run[0]), DueIn(Do(s, run[0]), run[1..]), o);
    }
  }

  /**
   * In every run everything due is sent, or waits to be sent, as often as it is due, and nothing else is:
   * a reply with the code the table determined for each Create, an echo for each pong, a Close for each
   * overflow and each Confirm of an unknown id, and what the channels hand over.
   */
  lemma AnsweredOnce(limit: int, window: nat, remote: nat, run: seq<Act>, o: Out)
    requires Possible(Fresh(limit, window, remote), run)
    ensures Here(After(Fresh(limit, window, remote), run), o) == Times(DueIn(Fresh(limit, window, remote), run), o)
  {
    RunPuts(Fresh(limit, window, remote), run, o);
  }

  // ---- the Close of `delete` ----

  /** How often `delete` took channel `r` from the table in `run`. */
  function RemovalsIn(s: Server, r: Ref, run: seq<Act>): nat
    requires Possible(s, run)
    decreases |run|
  {
    if run == [] then 0
    else (if run[0] == Remove(r) && Holds(s, r) then 1 else 0) + RemovalsIn(Do(s, run[0]), r, run[1..])
  }

  /** The channel is about to send the Close of its `delete`. */
  function Owing(s: Server, r: Ref): nat {
    if r < |s.chans| && s.chans[r].pc.Saying? then 1 else 0
  }

  lemma OwingSteps(s: Server, a: Act, r: Ref)
    requires Can(s, a) && KeysOk(s.keys, s.chans)
    ensures Owing(Do(s, a), r) + Times(Due(s, a), CloseOf(r))
         == Owing(s, r) + if a == Remove(r) && Holds(s, r) then 1 else 0
  {
    match a
    case Carry(c) =>
      if c.Write? {
        ChunksStand(s, c.id, c.payload, BufferSize(LOOP_BUFFER, |c.payload|));
      }
    case Say(q) => TimesOne(CloseOf(q), CloseOf(r));
    case _ =>
  }

  lemma {:induction false} RunOwes(s: Server, run: seq<Act>, r: Ref)
    requires TableOk(s) && Possible(s, run)
    ensures Owing(After(s, run), r) + Times(DueIn(s, run), CloseOf(r)) == Owing(s, r) + RemovalsIn(s, r, run)
    decreases |run|
  {
    if run != [] {
      StepKeepsTable(s, run[0]);
      OwingSteps(s, run[0], r);
      RunOwes(Do(s, run[0]), run[1..], r);
      TimesAppend(Due(s, run[0]), DueIn(Do(s, run[0]), run[1..]), CloseOf(r));
    }
  }

  /** Each `delete` that took its channel from the table sends one Close, and no other does. */
  lemma RemovalIsTold(limit: int, window: nat, remote: nat, run: seq<Act>, r: Ref)
    requires Possible(Fresh(limit, window, remote), run)
    ensures var s := After(Fresh(limit, window, remote), run);
      Here(s, CloseOf(r)) + Owing(s, r) == RemovalsIn(Fresh(limit, window, remote), r, run)
  {
    RunOwes(Fresh(limit, window, remote), run, r);
    AnsweredOnce(limit, window, remote, run, CloseOf(r));
  }

  /** A Close closes the channel and takes it from the table, or does nothing. */
  lemma CloseMeans(s: Server, id: nat)
    requires TableOk(s)
    ensures var t := OnClose(s, id);
      && t == s.(keys := t.keys, chans := t.chans) && id !in t.keys && (forall i | i in s.keys && i != id :: i in t.keys)
      && (id !in s.keys ==> t == s)
      && (id in s.keys ==> t.chans == s.chans[s.keys[id] := t.chans[s.keys[id]]]
                           && t.chans[s.keys[id]].pipe == Shared(s.chans[s.keys[id]].pipe.contents, true))
  {
  }

  /** The Close of `delete` comes after every Write of its channel, and once. */
  lemma CloseIsLast(s: Server, i: nat, j: nat)
    requires Reachable(s) && i < j < |Sent(s)| && Sent(s)[i].CloseOf?
    ensures Sent(s)[j].WriteOf? ==> Sent(s)[j].writer != Sent(s)[i].closer
    ensures Sent(s)[j].CloseOf? ==> Sent(s)[j].closer != Sent(s)[i].closer
  {
    ReachableIsOk(s);
  }

  lemma {:induction false} EndedStays(s: Server, r: Ref, run: seq<Act>)
    requires r < |s.chans| && s.chans[r].pc.Ended? && CloseOf(r) !in Sent(s) && Possible(s, run)
    requires forall o | o in s.posts :: o.Reply? || o.Echo?
    ensures CloseOf(r) !in Sent(After(s, run))
    decreases |run|
  {
    if run != [] {
      StepGrows(s, run[0]);
      if run[0].Carry? { CarryGrows(s, run[0].c); }
      if run[0].Settle? { assert s.posts[run[0].i] in s.posts; }
      EndedStays(Do(s, run[0]), r, run[1..]);
    }
  }

  /**
   * A stale `delete`, for a channel whose place in the table another one has taken (or nobody has),
   * changes no entry and never sends Close, whatever happens afterwards.
   */
  lemma StaleDelete(s: Server, r: Ref, run: seq<Act>)
    requires Reachable(s) && Can(s, Remove(r)) && !Holds(s, r) && Possible(Do(s, Remove(r)), run)
    ensures Do(s, Remove(r)).keys == s.keys && Sent(Do(s, Remove(r))) == Sent(s)
    ensures CloseOf(r) !in Sent(After(Do(s, Remove(r)), run))
  {
    ReachableIsOk(s);
    EndedStays(Do(s, Remove(r)), r, run);
  }

  // ---- demultiplexing ----

  /** A Write or a Confirm for one id leaves the table and every other channel as they are. */
  lemma OthersUntouched(s: Server, c: Command, r: Ref)
    requires c.Write? || c.Confirm?
    requires r < |s.chans| && !(c.id in s.keys && s.keys[c.id] == r)
    ensures var t := OnCommand(s, c); t.keys == s.keys && |t.chans| == |s.chans| && t.chans[r] == s.chans[r]
  {
    if c.Write? { ChunksLeave(s, c.id, c.payload, BufferSize(LOOP_BUFFER, |c.payload|), r); }
  }

  lemma {:induction false} ChunksLeave(s: Server, id: nat, payload: seq<byte>, max: nat, r: Ref)
    requires payload != [] ==> max > 0
    requires r < |s.chans| && !(id in s.keys && s.keys[id] == r)
    ensures var t := OnChunks(s, id, payload, max);
      t.keys == s.keys && |t.chans| == |s.chans| && t.chans[r] == s.chans[r]
    decreases |payload|
  {
    if payload != [] {
      var n := Min(|payload|, max);
      ChunksLeave(OnChunk(s, id, payload[..n]), id, payload[n..], max, r);
    }
  }

  /**
   * A Write reaches the ring of its channel in order: all of it if the channel is open and has
   * room, whatever the size of the buffer; otherwise a prefix, and then the channel is closed.
   */
  lemma {:induction false} WriteArrives(s: Server, id: nat, payload: seq<byte>, max: nat)
    requires TableOk(s) && id in s.keys && (payload != [] ==> max > 0)
    ensures OnChunks(s, id, payload, max).keys == s.keys && |OnChunks(s, id, payload, max).chans| == |s.chans|
    ensures var before, after := s.chans[s.keys[id]].pipe, OnChunks(s, id, payload, max).chans[s.keys[id]].pipe;
      && before.contents <= after.contents <= before.contents + payload
      && (!before.closed && |before.contents| + |payload| <= s.window ==>
            after == Shared(before.contents + payload, false))
      && (after.contents != before.contents + payload ==> after.closed)
      && (before.closed ==> after == before)
    decreases |payload|
  {
    var before := s.chans[s.keys[id]].pipe;
    if payload == [] {
      assert before.contents + payload == before.contents;
    } else {
      var n := Min(|payload|, max);
      var t := OnChunk(s, id, payload[..n]);
      ChunkKeepsTable(s, id, payload[..n]);
      WriteArrives(t, id, payload[n..], max);
      assert payload == payload[..n] + payload[n..];
      Regroup(before.contents, payload[..n], payload[n..]);
    }
  }
}
