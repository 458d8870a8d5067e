/**
 * The loops of channel.go one goroutine at a time: `Serve` turns buffers into Write frames within
 * the window, `Confirm` merges returned credit in a one-slot mailbox, `serveConfirm` returns credit.
 * How they interleave over both ends is the subject of the Flow modules.
 */
module Channels {
  import opened Bytes
  import opened Frames
  import F = FlowState
  import ReadWriters

  // ---- Serve ----

  /** What one `select` of `Serve` receives. */
  datatype Input = Buffer(data: seq<byte>) | Credit(value: nat) | Stop

  datatype Outcome =
    | Blocked  // waiting in `choose`
    | Stopped  // the channel or the transport is done
    | Overpaid // more credit came back than was spent

  function Buffers(inputs: seq<Input>): seq<byte> {
    if inputs == [] then []
    else (if inputs[0].Buffer? then inputs[0].data else []) + Buffers(inputs[1..])
  }

  function Credits(inputs: seq<Input>): nat {
    if inputs == [] then 0
    else (if inputs[0].Credit? then inputs[0].value else 0) + Credits(inputs[1..])
  }

  lemma {:induction false} InputsAppend(inputs: seq<Input>, i: Input)
    ensures Buffers(inputs + [i]) == Buffers(inputs) + if i.Buffer? then i.data else []
    ensures Credits(inputs + [i]) == Credits(inputs) + if i.Credit? then i.value else 0
  {
    if inputs == [] {
      assert inputs + [i] == [i];
      assert Buffers([i][1..]) == [];
    } else {
      assert (inputs + [i])[1..] == inputs[1..] + [i];
      InputsAppend(inputs[1..], i);
    }
  }

  /** One uninterrupted pass of the inner loop: its payloads, what it leaves over, `writed` after it. */
  datatype Pass = Pass(payloads: seq<seq<byte>>, rest: seq<byte>, spent: nat)

  function Prepend(payload: seq<byte>, p: Pass): Pass {
    p.(payloads := [payload] + p.payloads)
  }

  function PumpAll(b: seq<byte>, writed: nat, remote: nat): Pass
    requires writed <= remote
    decreases |b|
  {
    if b == [] || writed == remote then Pass([], b, writed)
    else
      var size := F.NextSize(|b|, remote - writed);
      Prepend(b[..size], PumpAll(b[size..], writed + size, remote))
  }

  /** The payloads of `p` and its rest make up `b`, and the window is either full or not needed. */
  ghost predicate Cuts(p: Pass, b: seq<byte>, writed: nat, remote: nat) {
    && Concat(p.payloads) + p.rest == b
    && p.spent == writed + |Concat(p.payloads)| <= remote
    && (p.rest == [] || p.spent == remote)
    && (forall i | 0 <= i < |p.payloads| :: 1 <= |p.payloads[i]| <= MAX_UINT16)
  }

  lemma PrependSplits(payload: seq<byte>, p: Pass, b: seq<byte>, writed: nat, remote: nat)
    requires 1 <= |payload| <= MAX_UINT16 && Cuts(p, b, writed + |payload|, remote)
    ensures Cuts(Prepend(payload, p), payload + b, writed, remote)
  {
    ConcatCons(payload, p.payloads);
    Regroup(payload, Concat(p.payloads), p.rest);
  }

  lemma {:induction false} PumpSplits(b: seq<byte>, writed: nat, remote: nat)
    requires writed <= remote
    ensures Cuts(PumpAll(b, writed, remote), b, writed, remote)
    decreases |b|
  {
    if b != [] && writed != remote {
      var size := F.NextSize(|b|, remote - writed);
      var payload, left := b[..size], b[size..];
      assert b == payload + left;
      PumpSplits(left, writed + size, remote);
      PrependSplits(payload, PumpAll(left, writed + size, remote), left, writed, remote);
    }
  }

  /** The header of frame `i` carries the id and the length of payload `i`. */
  ghost predicate Framed(id: nat, ch: seq<seq<byte>>, payloads: seq<seq<byte>>) {
    && |ch| == |payloads|
    && (forall i | 0 <= i < |ch| :: 1 <= |payloads[i]| <= MAX_UINT16 && ch[i] == Encode(Write(id, payloads[i])))
  }

  lemma SendOne(payloads: seq<seq<byte>>, b: seq<byte>, size: nat)
    requires size <= |b|
    ensures Concat(payloads + [b[..size]]) + b[size..] == Concat(payloads) + b
    ensures |Concat(payloads + [b[..size]])| == |Concat(payloads)| + size
  {
    ConcatSnoc(payloads, b[..size]);
    Regroup(Concat(payloads), b[..size], b[size..]);
    assert b == b[..size] + b[size..];
  }

  /** `next` is what remains of the pass `ahead` once the payloads beyond `before` are out. */
  ghost predicate Midway(before: seq<seq<byte>>, ahead: Pass, payloads: seq<seq<byte>>, next: Pass) {
    payloads + next.payloads == before + ahead.payloads && next.rest == ahead.rest && next.spent == ahead.spent
  }

  lemma SendMidway(before: seq<seq<byte>>, ahead: Pass, payloads: seq<seq<byte>>, payload: seq<byte>, next: Pass)
    requires Midway(before, ahead, payloads, Prepend(payload, next))
    ensures Midway(before, ahead, payloads + [payload], next)
  {
    Regroup(payloads, [payload], next.payloads);
  }

  lemma FrameMore(id: nat, ch: seq<seq<byte>>, payloads: seq<seq<byte>>, payload: seq<byte>)
    requires Framed(id, ch, payloads) && 1 <= |payload| <= MAX_UINT16
    ensures Framed(id, ch + [[5] + BigEndian(id, 8) + BigEndian(|payload|, 2) + payload], payloads + [payload])
  {
    assert Encode(Write(id, payload)) == [5] + BigEndian(id, 8) + BigEndian(|payload|, 2) + payload;
  }

  /** What `choose` makes of an input in state `p`: its data or what is left over, and the credit spent. */
  function Entered(p: Pass, next: Input): Pass {
    match next
    case Buffer(data) => p.(rest := data)
    case Credit(value) => p.(spent := if value <= p.spent then p.spent - value else p.spent)
    case Stop => p
  }

  /**
   * How the turn for `next` ends in state `p`: more credit than was spent, a stop, or more frames than
   * fit the queue before the end; anything else and `Serve` waits again.
   */
  function Ends(p: Pass, next: Input, room: nat, remote: nat): Outcome
    requires p.spent <= remote
  {
    if next.Credit? && next.value > p.spent then Overpaid
    else if next.Stop? || |PumpAll(Entered(p, next).rest, Entered(p, next).spent, remote).payloads| > room then Stopped
    else Blocked
  }

  /** A buffer or a credit that was spent never ends `Serve` while the queue has room; the rest always does. */
  lemma EndsExactly(b: seq<byte>, writed: nat, next: Input, room: nat, remote: nat)
    requires writed <= remote
    ensures var outcome := Ends(Pass([], b, writed), next, room, remote);
      && (outcome.Overpaid? <==> next.Credit? && writed < next.value)
      && (next.Stop? ==> outcome.Stopped?)
      && (next.Buffer? ==> (outcome.Stopped? <==> |PumpAll(next.data, writed, remote).payloads| > room))
      && (next.Credit? && next.value <= writed ==>
            (outcome.Stopped? <==> |PumpAll(b, writed - next.value, remote).payloads| > room))
  {
  }

  lemma {:induction false} FewPayloads(b: seq<byte>, writed: nat, remote: nat)
    requires writed <= remote
    ensures |PumpAll(b, writed, remote).payloads| <= |b|
    decreases |b|
  {
    if b != [] && writed != remote {
      var size := F.NextSize(|b|, remote - writed);
      FewPayloads(b[size..], writed + size, remote);
    }
  }

  /** The state after a turn that is not cut short. */
  function Passed(p: Pass, next: Input, remote: nat): (q: Pass)
    requires p.spent <= remote
    ensures q.spent <= remote
  {
    var q := Entered(p, next);
    PumpSplits(q.rest, q.spent, remote);
    PumpAll(q.rest, q.spent, remote).(payloads := [])
  }

  function PassedAll(p: Pass, inputs: seq<Input>, remote: nat): (q: Pass)
    requires p.spent <= remote
    ensures q.spent <= remote
    decreases |inputs|
  {
    if inputs == [] then p else PassedAll(Passed(p, inputs[0], remote), inputs[1..], remote)
  }

  /** None of the inputs ends `Serve`. */
  predicate Lasts(p: Pass, inputs: seq<Input>, rooms: seq<nat>, remote: nat)
    requires p.spent <= remote && |rooms| == |inputs|
    decreases |inputs|
  {
    inputs == []
    || (Ends(p, inputs[0], rooms[0], remote).Blocked? && Lasts(Passed(p, inputs[0], remote), inputs[1..], rooms[1..], remote))
  }

  lemma {:induction false} LastsMore(
    p: Pass, inputs: seq<Input>, rooms: seq<nat>, next: Input, room: nat, remote: nat)
    requires p.spent <= remote && |rooms| == |inputs|
    ensures var q := PassedAll(p, inputs, remote);
      && PassedAll(p, inputs + [next], remote) == Passed(q, next, remote)
      && (Lasts(p, inputs + [next], rooms + [room], remote)
          <==> Lasts(p, inputs, rooms, remote) && Ends(q, next, room, remote).Blocked?)
    decreases |inputs|
  {
    if inputs == [] {
      assert [next][1..] == [] && [room][1..] == [];
      assert inputs + [next] == [next] && rooms + [room] == [room];
    } else {
      assert (inputs + [next])[1..] == inputs[1..] + [next];
      assert (rooms + [room])[1..] == rooms[1..] + [room];
      LastsMore(Passed(p, inputs[0], remote), inputs[1..], rooms[1..], next, room, remote);
    }
  }

  /** The last of `inputs`, and only that, has brought about `outcome`; `at` is the state if none did. */
  predicate Explains(p: Pass, inputs: seq<Input>, rooms: seq<nat>, remote: nat, outcome: Outcome, at: Pass)
    requires p.spent <= remote && |rooms| == |inputs|
  {
    if outcome.Blocked? then Lasts(p, inputs, rooms, remote) && at == PassedAll(p, inputs, remote)
    else
      var k := |inputs| - 1;
      && k >= 0 && Lasts(p, inputs[..k], rooms[..k], remote)
      && outcome == Ends(PassedAll(p, inputs[..k], remote), inputs[k], rooms[k], remote)
  }

  lemma ExplainsMore(
    p: Pass, inputs: seq<Input>, rooms: seq<nat>, remote: nat, at: Pass,
    next: Input, room: nat, outcome: Outcome, later: Pass)
    requires p.spent <= remote && |rooms| == |inputs| && Explains(p, inputs, rooms, remote, Blocked, at)
    requires at.spent <= remote && outcome == Ends(at, next, room, remote)
    requires outcome.Blocked? ==> later == Passed(at, next, remote)
    ensures Explains(p, inputs + [next], rooms + [room], remote, outcome, later)
  {
    LastsMore(p, inputs, rooms, next, room, remote);
    assert (inputs + [next])[..|inputs|] == inputs && (rooms + [room])[..|inputs|] == rooms;
  }

  lemma ExplainsNext(
    p: Pass, offers: seq<Input>, rooms: seq<nat>, remote: nat, taken: nat, at: Pass, outcome: Outcome, later: Pass)
    requires p.spent <= remote && |rooms| == |offers| && taken < |offers| && at.spent <= remote
    requires Explains(p, offers[..taken], rooms[..taken], remote, Blocked, at)
    requires outcome == Ends(at, offers[taken], rooms[taken], remote)
    requires outcome.Blocked? ==> later == Passed(at, offers[taken], remote)
    ensures Explains(p, offers[..taken + 1], rooms[..taken + 1], remote, outcome, later)
    ensures offers[..taken] + [offers[taken]] == offers[..taken + 1]
  {
    assert offers[..taken] + [offers[taken]] == offers[..taken + 1];
    assert rooms[..taken] + [rooms[taken]] == rooms[..taken + 1];
    ExplainsMore(p, offers[..taken], rooms[..taken], remote, at, offers[taken], rooms[taken], outcome, later);
  }

  lemma {:induction false} LastsFirst(p: Pass, inputs: seq<Input>, rooms: seq<nat>, remote: nat, k: nat)
    requires p.spent <= remote && |rooms| == |inputs| && k < |inputs| && Lasts(p, inputs, rooms, remote)
    ensures Ends(PassedAll(p, inputs[..k], remote), inputs[k], rooms[k], remote).Blocked?
    decreases k
  {
    if k > 0 {
      assert inputs[..k][1..] == inputs[1..][..k - 1];
      LastsFirst(Passed(p, inputs[0], remote), inputs[1..], rooms[1..], remote, k - 1);
    }
  }

  /** Offers without a stop and without credit that was not spent, and room for a frame a byte. */
  ghost predicate Proper(p: Pass, offers: seq<Input>, rooms: seq<nat>, remote: nat)
    requires p.spent <= remote && |rooms| == |offers|
  {
    forall k | 0 <= k < |offers| ::
      var q := PassedAll(p, offers[..k], remote);
      && !offers[k].Stop? && (offers[k].Credit? ==> offers[k].value <= q.spent)
      && rooms[k] >= (if offers[k].Buffer? then |offers[k].data| else |q.rest|)
  }

  lemma {:induction false} ProperLasts(p: Pass, offers: seq<Input>, rooms: seq<nat>, remote: nat)
    requires p.spent <= remote && |rooms| == |offers| && Proper(p, offers, rooms, remote)
    ensures Lasts(p, offers, rooms, remote)
    decreases |offers|
  {
    if offers != [] {
      assert PassedAll(p, offers[..0], remote) == p;
      var q := Entered(p, offers[0]);
      FewPayloads(q.rest, q.spent, remote);
      var next := Passed(p, offers[0], remote);
      ProperRest(p, offers, rooms, remote);
      ProperLasts(next, offers[1..], rooms[1..], remote);
    }
  }

  lemma ProperRest(p: Pass, offers: seq<Input>, rooms: seq<nat>, remote: nat)
    requires p.spent <= remote && |rooms| == |offers| && offers != [] && Proper(p, offers, rooms, remote)
    ensures Proper(Passed(p, offers[0], remote), offers[1..], rooms[1..], remote)
  {
    var next := Passed(p, offers[0], remote);
    forall k | 0 <= k < |offers| - 1
      ensures var q := PassedAll(next, offers[1..][..k], remote);
        && !offers[1..][k].Stop? && (offers[1..][k].Credit? ==> offers[1..][k].value <= q.spent)
        && rooms[1..][k] >= (if offers[1..][k].Buffer? then |offers[1..][k].data| else |q.rest|)
    {
      assert offers[..k + 1][1..] == offers[1..][..k];
      assert PassedAll(p, offers[..k + 1], remote) == PassedAll(next, offers[1..][..k], remote);
    }
  }

  /** With such offers, what `Serve` promises leaves it waiting. */
  lemma OnlyCausesEnd(
    p: Pass, offers: seq<Input>, rooms: seq<nat>, remote: nat, taken: nat, outcome: Outcome, at: Pass)
    requires p.spent <= remote && |rooms| == |offers| && taken <= |offers|
    requires Explains(p, offers[..taken], rooms[..taken], remote, outcome, at)
    requires Proper(p, offers, rooms, remote)
    ensures outcome.Blocked?
  {
    ProperLasts(p, offers, rooms, remote);
    if !outcome.Blocked? {
      assert offers[..taken][..taken - 1] == offers[..taken - 1];
      LastsFirst(p, offers, rooms, remote, taken - 1);
    }
  }

  /** How much of `length` bytes goes into one frame: what is available, and what a length field can say. */
  method Fit(length: nat, available: nat) returns (size: nat)
    ensures size == F.NextSize(length, available)
    ensures size <= MAX_UINT16 && (size == length || size == available || size == MAX_UINT16)
  {
    size := length;
    if size > available {
      size := available;
    }
    if size > MAX_UINT16 {
      size := MAX_UINT16;
    }
  }

  class Sender {
    const id: nat
    const remoteWindow: nat
    var writed: nat
    var b: seq<byte>
    /** The frames handed to the queue, and their payloads. */
    var ch: seq<seq<byte>>
    ghost var payloads: seq<seq<byte>>
    ghost var inputs: seq<Input>

    /** Whatever happens, no byte is dropped, repeated or sent out of order, and every frame is well formed. */
    ghost predicate InOrder()
      reads this
    {
      IsId(id) && Concat(payloads) + b == Buffers(inputs) && Framed(id, ch, payloads)
    }

    /** Besides, `writed` is what was sent and has not been confirmed, and fits the window. */
    ghost predicate Valid()
      reads this
    {
      InOrder() && writed + Credits(inputs) == |Concat(payloads)| && writed <= remoteWindow
    }

    constructor (id: nat, remoteWindow: nat)
      requires IsId(id)
      ensures Valid() && this.id == id && this.remoteWindow == remoteWindow
      ensures inputs == [] && ch == [] && b == [] && writed == 0
    {
      this.id, this.remoteWindow := id, remoteWindow;
      writed, b, ch, payloads, inputs := 0, [], [], [], [];
    }

    /** `choose` when `next` is the only thing on offer; `taken` is false when it waits on or falls through. */
    method Choose(next: Input) returns (data: seq<byte>, confirm: nat, exit: bool, taken: bool)
      requires Valid()
      ensures taken <==> !next.Buffer? || b == []
      ensures exit <==> next.Stop?
      ensures confirm == if next.Credit? then next.value else 0
      ensures data == if next.Buffer? && b == [] then next.data else b
    {
      data, confirm, exit, taken := b, 0, false, true;
      match next
      case Stop => exit := true;
      case Credit(value) => confirm := value;
      case Buffer(buffer) =>
        if b == [] {
          data := buffer;
        } else {
          taken := false;
        }
    }

    /** `ch <- data` succeeds for the next `size` bytes. */
    method Send(size: nat)
      requires Valid() && 1 <= size <= |b| && size <= MAX_UINT16 && writed + size <= remoteWindow
      modifies this`writed, this`b, this`ch, this`payloads
      ensures Valid()
      ensures payloads == old(payloads) + [old(b)[..size]] && |ch| == old(|ch|) + 1 && old(ch) <= ch
      ensures b == old(b)[size..] && writed == old(writed) + size
    {
      SendOne(payloads, b, size);
      FrameMore(id, ch, payloads, b[..size]);
      ch := ch + [[5] + BigEndian(id, 8) + BigEndian(size, 2) + b[..size]];
      payloads := payloads + [b[..size]];
      writed := writed + size;
      b := b[size..];
    }

    /** What is left of a pass, as `PumpAll` has it. */
    function Ahead(): Pass
      requires writed <= remoteWindow
      reads this
    {
      PumpAll(b, writed, remoteWindow)
    }

    /** One turn of the inner loop. */
    method SendNext(available: nat, ghost before: seq<seq<byte>>, ghost ahead: Pass)
      requires Valid() && b != [] && available == remoteWindow - writed > 0
      requires Midway(before, ahead, payloads, Ahead())
      modifies this`writed, this`b, this`ch, this`payloads
      ensures Valid() && Midway(before, ahead, payloads, Ahead())
      ensures |Ahead().payloads| + 1 == |old(Ahead()).payloads|
      ensures |ch| == old(|ch|) + 1 && old(ch) <= ch && old(payloads) <= payloads && |b| < |old(b)|
    {
      var size := Fit(|b|, available);
      ghost var next := PumpAll(b[size..], writed + size, remoteWindow);
      assert Ahead() == Prepend(b[..size], next);
      SendMidway(before, ahead, payloads, b[..size], next);
      Send(size);
    }

    /**
     * The inner loop. The queue accepts `room` frames before the channel is done; without that
     * limit the frames are those of `PumpAll`, and the loop ends with nothing left or the window full.
     */
    method PumpOut(room: nat) returns (sent: nat, exit: bool)
      requires Valid()
      modifies this`writed, this`b, this`ch, this`payloads
      ensures Valid()
      ensures var n := |PumpAll(old(b), old(writed), remoteWindow).payloads|;
        sent == Min(room, n) && (exit <==> n > room)
      ensures |ch| == old(|ch|) + sent && old(ch) <= ch && old(payloads) <= payloads
      ensures !exit ==> b == [] || writed == remoteWindow
      ensures !exit ==> Midway(old(payloads), PumpAll(old(b), old(writed), remoteWindow), payloads, Pass([], b, writed))
    {
      sent, exit := 0, false;
      ghost var before, ahead := payloads, Ahead();
      var more := |b| != 0;
      while more
        invariant Valid() && |ch| == old(|ch|) + sent && old(ch) <= ch && before <= payloads
        invariant Midway(before, ahead, payloads, Ahead())
        invariant sent + |Ahead().payloads| == |ahead.payloads| && sent <= room
        invariant exit ==> !more && sent == room && b != [] && writed != remoteWindow
        invariant more ==> b != []
        invariant !more && !exit ==> b == [] || writed == remoteWindow
        decreases |b|, more
      {
        var available := remoteWindow - writed;
        if available == 0 {
          more := false;
        } else if sent == room {
          more, exit := false, true;
        } else {
          SendNext(available, before, ahead);
          sent := sent + 1;
          more := |b| != 0;
        }
      }
    }

    /** What `Serve` does with what `choose` gave it; `broke` when more comes back than was spent. */
    method Take(next: Input) returns (broke: bool, exit: bool)
      requires Valid() && (next.Buffer? ==> b == [])
      modifies this`b, this`inputs, this`writed
      ensures inputs == old(inputs) + [next]
      ensures !broke ==> Valid()
      ensures InOrder() && (broke ==> Credits(inputs) > |Concat(payloads)|)
      ensures (exit <==> next.Stop?) && (broke <==> next.Credit? && next.value > old(writed))
      ensures b == if next.Buffer? then next.data else old(b)
      ensures !broke ==> writed == old(writed) - if next.Credit? then next.value else 0
    {
      var data, confirm, done, _ := Choose(next);
      InputsAppend(inputs, next);
      b, inputs, broke, exit := data, inputs + [next], false, done;
      if !exit && confirm > 0 {
        if confirm > writed {
          broke := true;
        } else {
          writed := writed - confirm;
        }
      }
    }

    /** One turn of the outer loop: `choose` and then the inner loop. */
    method Round(next: Input, room: nat) returns (outcome: Outcome)
      requires Valid() && (next.Buffer? ==> b == [])
      modifies this`b, this`inputs, this`writed, this`ch, this`payloads
      ensures inputs == old(inputs) + [next] && InOrder()
      ensures if outcome.Overpaid? then Credits(inputs) > |Concat(payloads)| else Valid()
      ensures outcome.Blocked? ==> b == [] || writed == remoteWindow
      ensures outcome == Ends(old(At()), next, room, remoteWindow)
      ensures outcome.Blocked? ==> At() == Passed(old(At()), next, remoteWindow)
    {
      var broke, exit := Take(next);
      if broke {
        outcome := Overpaid;
      } else if exit {
        outcome := Stopped;
      } else {
        var _, done := PumpOut(room);
        outcome := if done then Stopped else Blocked;
      }
    }

    /** Where `Serve` is between two inputs. */
    function At(): Pass
      reads this
    {
      Pass([], b, writed)
    }

    /**
     * `Serve` on what it is offered; `rooms[i]` frames fit the queue after input `i` before the end. It
     * takes the inputs in order, each in the state the ones before have left, until one ends it.
     */
    method Serve(offers: seq<Input>, rooms: seq<nat>) returns (outcome: Outcome, taken: nat)
      requires Valid() && inputs == [] && b == [] && |rooms| == |offers|
      modifies this
      ensures taken <= |offers| && inputs == offers[..taken]
      ensures InOrder()
      ensures !outcome.Overpaid? ==> Valid()
      ensures outcome.Overpaid? ==> Credits(inputs) > |Concat(payloads)|
      ensures outcome.Blocked? ==> (b == [] || writed == remoteWindow)
                                   && (taken == |offers| || (offers[taken].Buffer? && b != []))
      ensures old(writed) <= remoteWindow
      ensures Explains(old(At()), offers[..taken], rooms[..taken], remoteWindow, outcome, At())
    {
      outcome, taken := Blocked, 0;
      var full := false;
      ghost var start := At();
      while taken < |offers| && outcome.Blocked? && !full
        invariant InOrder() && taken <= |offers| && inputs == offers[..taken]
        invariant if outcome.Overpaid? then Credits(inputs) > |Concat(payloads)| else Valid()
        invariant outcome.Blocked? ==> b == [] || writed == remoteWindow
        invariant full ==> outcome.Blocked? && taken < |offers| && offers[taken].Buffer? && b != []
        invariant Explains(start, offers[..taken], rooms[..taken], remoteWindow, outcome, At())
        decreases |offers| - taken, !full
      {
        var next := offers[taken];
        if next.Buffer? && b != [] {
          // `choose` does not look at the buffers: the window is full and it waits for credit
          full := true;
        } else {
          ghost var at := At();
          outcome := Round(next, rooms[taken]);
          ExplainsNext(start, offers, rooms, remoteWindow, taken, at, outcome, At());
          taken := taken + 1;
        }
      }
    }
  }

  // ---- Confirm ----

  class Mailbox {
    const remoteWindow: nat
    var confirm: Option<nat>

    constructor (remoteWindow: nat)
      ensures this.remoteWindow == remoteWindow && confirm == None
    {
      this.remoteWindow := remoteWindow;
      confirm := None;
    }

    function Held(): nat
      reads this
    {
      if confirm.Some? then confirm.value else 0
    }

    /**
     * `Confirm` called by the transport loop. Before the select of round `i`, `Serve` empties the
     * mailbox if `takes(i)`; with `quits(i)` the select takes the case that the channel or the transport
     * is done, which it may or may not once that is so. The call never waits: it ends within two rounds,
     * and no credit is lost unless it overflows or quits.
     */
    method Confirm(val: nat, takes: nat -> bool, quits: nat -> bool)
      returns (overflow: bool, rounds: nat, delivered: nat, done: bool)
      modifies this
      ensures rounds <= 2
      ensures !overflow && !done ==> delivered + Held() == old(Held()) + val
      ensures overflow <==>
        && old(confirm).Some? && !quits(0) && !quits(1) && !takes(1)
        && old(confirm).value + val >= remoteWindow
      ensures done ==> quits(0) || quits(1) || quits(2)
      // `Serve` gets what was there, and only if it looks in between
      ensures delivered == if old(confirm).Some? && !quits(0) && takes(1) then old(confirm).value else 0
      // with nobody quitting, the value is put beside or on top of what there is
      ensures !quits(0) && !quits(1) && !quits(2) && !overflow ==>
                !done && confirm == Some(val + if takes(1) then 0 else old(Held()))
      ensures quits(0) ==> done && confirm == old(confirm)
      ensures overflow ==> confirm == None && !done
    {
      overflow, rounds, delivered, done := false, 0, 0, false;
      if quits(0) {
        done := true;
        return;
      }
      if confirm == None {
        confirm := Some(val);
        return;
      }
      var sum := val;
      while true
        invariant rounds <= 1 && !overflow && !done
        invariant rounds == 0 ==> confirm == old(confirm) && sum == val && delivered == 0
        invariant rounds == 1 ==> confirm == None && sum == old(confirm).value + val && delivered == 0
        invariant rounds == 1 ==> !quits(1) && !takes(1) && sum < remoteWindow
        decreases 2 - rounds
      {
        rounds := rounds + 1;
        if takes(rounds) && confirm.Some? {
          delivered := confirm.value;
          confirm := None;
        }
        if quits(rounds) {
          done := true;
          return;
        }
        if confirm == None {
          confirm := Some(sum);
          return;
        }
        sum := sum + confirm.value;
        confirm := None;
        if sum >= remoteWindow {
          overflow := true;
          return;
        }
      }
    }
  }

  // ---- serveConfirm ----

  const ARENA := 1024 * 32
  const CONFIRM_SIZE := 11

  /** A frame as `data[:11]` hands it over: a stretch of a shared array. */
  datatype Slice = Slice(arena: array<byte>, from: nat)

  ghost predicate InBounds(s: Slice) {
    s.from + CONFIRM_SIZE <= s.arena.Length
  }

  ghost function Content(s: Slice): seq<byte>
    requires InBounds(s)
    reads s.arena
  {
    s.arena[s.from..s.from + CONFIRM_SIZE]
  }

  ghost predicate Disjoint(s: Slice, t: Slice) {
    s.arena != t.arena || s.from + CONFIRM_SIZE <= t.from || t.from + CONFIRM_SIZE <= s.from
  }

  /** Every slice handed over is a Confirm frame of its own, and none overlaps another. */
  ghost predicate Handed(id: nat, sent: seq<Slice>, values: seq<nat>)
    reads set s | s in sent :: s.arena
  {
    && |values| == |sent|
    && (forall i | 0 <= i < |sent| :: InBounds(sent[i]) && 1 <= values[i] <= MAX_UINT16)
    && (forall i | 0 <= i < |sent| :: Content(sent[i]) == Encode(Confirm(id, values[i])))
    && (forall i, j | 0 <= i < j < |sent| :: Disjoint(sent[i], sent[j]))
  }

  lemma HandedMore(id: nat, sent: seq<Slice>, values: seq<nat>, s: Slice, ok: nat)
    requires Handed(id, sent, values) && 1 <= ok <= MAX_UINT16
    requires InBounds(s) && Content(s) == Encode(Confirm(id, ok)) && (forall i | 0 <= i < |sent| :: Disjoint(sent[i], s))
    ensures Handed(id, sent + [s], values + [ok])
  {
  }

  /** The values of the split loop. */
  function Splits(confirmed: nat): seq<nat> {
    if confirmed == 0 then [] else [F.AckSize(confirmed)] + Splits(confirmed - F.AckSize(confirmed))
  }

  /** They fit a frame, none is 0, and they add up. */
  lemma {:induction false} SplitsAddUp(confirmed: nat)
    ensures Sum(Splits(confirmed)) == confirmed
    ensures forall v | v in Splits(confirmed) :: 1 <= v <= MAX_UINT16
  {
    if confirmed != 0 {
      SplitsAddUp(confirmed - F.AckSize(confirmed));
      assert Splits(confirmed)[1..] == Splits(confirmed - F.AckSize(confirmed));
    }
  }

  /** The selects from `from` up to `at` did not find the channel done; `exit`: number `at` did. */
  ghost predicate Selects(from: nat, at: nat, exit: bool, quits: nat -> bool) {
    from <= at && (forall i | from <= i < at :: !quits(i)) && (exit ==> quits(at))
  }

  /** The first `k` counts are taken, and the last of them before the window was reached. */
  predicate TakesUpTo(counts: seq<nat>, rest: seq<nat>, k: nat, confirmed: nat, window: nat) {
    k <= |counts| && rest == counts[k..] && (k > 0 ==> confirmed - counts[k - 1] < window)
  }

  lemma TakesOne(counts: seq<nat>, rest: seq<nat>, k: nat, confirmed: nat, window: nat)
    requires TakesUpTo(counts, rest, k, confirmed, window) && confirmed < window && rest != []
    ensures TakesUpTo(counts, rest[1..], k + 1, confirmed + rest[0], window)
  {
  }

  /**
   * The drain loop: more counts while less than a third of the window is gathered. Select number
   * `i` finds the channel done if `quits(i)`.
   */
  method Drain(counts: seq<nat>, taken: nat, window: nat, from: nat, quits: nat -> bool)
    returns (confirmed: nat, rest: seq<nat>, at: nat, exit: bool, ghost k: nat)
    ensures confirmed + Sum(rest) == taken + Sum(counts) && |rest| <= |counts|
    ensures !exit ==> rest == [] || confirmed >= window
    ensures TakesUpTo(counts, rest, k, confirmed, window)
    ensures Selects(from, at, exit, quits)
  {
    confirmed, rest, at, exit, k := taken, counts, from, false, 0;
    var more := true;
    while more && confirmed < window
      invariant confirmed + Sum(rest) == taken + Sum(counts) && |rest| <= |counts|
      invariant TakesUpTo(counts, rest, k, confirmed, window)
      invariant Selects(from, at, exit, quits)
      invariant exit ==> !more
      invariant !more && !exit ==> rest == []
      decreases |rest|, more
    {
      if quits(at) {
        exit, more := true, false;
      } else {
        at := at + 1;
        if rest == [] {
          more := false;
        } else {
          TakesOne(counts, rest, k, confirmed, window);
          confirmed, rest, k := confirmed + rest[0], rest[1..], k + 1;
        }
      }
    }
  }

  class Confirmer {
    const id: nat
    const remoteWindow: nat
    /** Counts in the channel `sendConfirm`. */
    var sendConfirm: seq<nat>
    /** `data` is what is left of the arena. */
    var arena: array<byte>
    var used: nat
    var sent: seq<Slice>
    ghost var values: seq<nat>

    ghost predicate Valid()
      reads this, arena, set s | s in sent :: s.arena
    {
      && IsId(id) && used <= arena.Length
      && Handed(id, sent, values)
      && (forall i | 0 <= i < |sent| :: sent[i].arena == arena ==> sent[i].from + CONFIRM_SIZE <= used)
    }

    constructor (id: nat, remoteWindow: nat)
      requires IsId(id)
      ensures Valid() && this.id == id && this.remoteWindow == remoteWindow && sent == [] && sendConfirm == []
      ensures fresh(arena)
    {
      this.id, this.remoteWindow := id, remoteWindow;
      sendConfirm, used, sent, values := [], 0, [], [];
      arena := new byte[0];
    }

    /** Room for one more frame: what is left of the arena, or a new one. */
    method Reserve()
      requires Valid()
      modifies this`arena, this`used
      ensures Valid() && used + CONFIRM_SIZE <= arena.Length && (arena == old(arena) || fresh(arena))
      ensures forall i | 0 <= i < |sent| :: sent[i].arena == arena ==> sent[i].from + CONFIRM_SIZE <= used
    {
      if arena.Length - used < CONFIRM_SIZE {
        arena := new byte[ARENA];
        used := 0;
      }
    }

    /** The frame is written behind everything handed over so far. */
    method Fill(frame: seq<byte>)
      requires Valid() && |frame| == CONFIRM_SIZE && used + CONFIRM_SIZE <= arena.Length
      modifies arena
      ensures Valid() && Content(Slice(arena, used)) == frame
      ensures forall i | 0 <= i < |sent| :: Content(sent[i]) == old(Content(sent[i]))
    {
      ghost var was := arena[..];
      var _ := ReadWriters.Copy(arena, used, arena.Length, frame);
      forall i | 0 <= i < |sent| ensures Content(sent[i]) == old(Content(sent[i])) {
        if sent[i].arena == arena {
          assert arena[sent[i].from..sent[i].from + CONFIRM_SIZE] == was[sent[i].from..sent[i].from + CONFIRM_SIZE];
        }
      }
    }

    /** `ch <- data[:11]` with the frame in place. */
    method Push(ghost ok: nat)
      requires Valid() && 1 <= ok <= MAX_UINT16 && used + CONFIRM_SIZE <= arena.Length
      requires Content(Slice(arena, used)) == Encode(Confirm(id, ok))
      modifies this`used, this`sent, this`values
      ensures Valid() && sent == old(sent) + [Slice(arena, old(used))] && values == old(values) + [ok]
    {
      HandedMore(id, sent, values, Slice(arena, used), ok);
      sent := sent + [Slice(arena, used)];
      values := values + [ok];
      used := used + CONFIRM_SIZE;
    }

    /** One turn of the split loop; slices already handed over keep their content. */
    method Emit(ok: nat)
      requires Valid() && 1 <= ok <= MAX_UINT16
      modifies this`arena, this`used, this`sent, this`values, arena
      ensures Valid() && (arena == old(arena) || fresh(arena))
      ensures |sent| == old(|sent|) + 1 && old(sent) <= sent && values == old(values) + [ok]
      ensures forall i | 0 <= i < old(|sent|) :: Content(sent[i]) == old(Content(sent[i]))
    {
      Reserve();
      var frame := [6] + BigEndian(id, 8) + BigEndian(ok, 2);
      assert frame == Encode(Confirm(id, ok));
      Fill(frame);
      Push(ok);
    }

    /** The first select and the drain loop; on exit what is gathered stays unconfirmed. */
    method Gather(from: nat, quits: nat -> bool) returns (confirmed: nat, at: nat, exit: bool, ghost k: nat)
      requires Valid() && sendConfirm != []
      modifies this`sendConfirm
      ensures Valid() && confirmed + Sum(sendConfirm) == Sum(old(sendConfirm))
      ensures if exit then |sendConfirm| <= |old(sendConfirm)| else |sendConfirm| < |old(sendConfirm)|
      ensures !exit ==> sendConfirm == [] || confirmed >= remoteWindow / 3
      ensures !exit ==> TakesUpTo(old(sendConfirm)[1..], sendConfirm, k, confirmed, remoteWindow / 3)
      ensures Selects(from, at, exit, quits)
    {
      confirmed, at, exit, k := 0, from, quits(from), 0;
      if !exit {
        var first, rest := sendConfirm[0], sendConfirm[1..];
        confirmed, rest, at, exit, k := Drain(rest, first, remoteWindow / 3, from + 1, quits);
        sendConfirm := rest;
      }
    }

    /** The split loop; `abandoned` is what it has not confirmed when it finds the channel done. */
    method Settle(gathered: nat, from: nat, quits: nat -> bool) returns (abandoned: nat, at: nat, exit: bool)
      requires Valid()
      modifies this`arena, this`used, this`sent, this`values, arena
      ensures Valid() && (arena == old(arena) || fresh(arena))
      ensures old(sent) <= sent && values + Splits(abandoned) == old(values) + Splits(gathered)
      ensures !exit ==> abandoned == 0
      ensures Selects(from, at, exit, quits)
      ensures forall i | 0 <= i < old(|sent|) :: Content(sent[i]) == old(Content(sent[i]))
    {
      var confirmed: nat := gathered;
      ghost var start := arena;
      at, exit := from, false;
      while confirmed != 0 && !exit
        invariant Valid() && (arena == start || fresh(arena))
        invariant old(sent) <= sent && values + Splits(confirmed) == old(values) + Splits(gathered)
        invariant Selects(from, at, exit, quits)
        invariant forall i | 0 <= i < old(|sent|) :: Content(sent[i]) == old(Content(sent[i]))
        decreases confirmed, !exit
      {
        var ok: nat := confirmed;
        if ok > MAX_UINT16 {
          ok := MAX_UINT16;
        }
        if quits(at) {
          exit := true;
        } else {
          at := at + 1;
          Regroup(values, [ok], Splits(confirmed - ok));
          Emit(ok);
          confirmed := confirmed - ok;
        }
      }
      abandoned := confirmed;
    }

    lemma SettleAddsUp(before: seq<nat>, after: seq<nat>, gathered: nat, abandoned: nat)
      requires after + Splits(abandoned) == before + Splits(gathered)
      ensures Sum(after) + abandoned == Sum(before) + gathered
    {
      SumAppend(after, Splits(abandoned));
      SumAppend(before, Splits(gathered));
      SplitsAddUp(abandoned);
      SplitsAddUp(gathered);
    }

    /** One turn of the outer loop. */
    method Batch(from: nat, quits: nat -> bool) returns (abandoned: nat, at: nat, exit: bool)
      requires Valid() && sendConfirm != []
      modifies this`sendConfirm, this`arena, this`used, this`sent, this`values, arena
      ensures Valid() && (arena == old(arena) || fresh(arena)) && old(sent) <= sent
      ensures Sum(values) + abandoned + Sum(sendConfirm) == Sum(old(values)) + Sum(old(sendConfirm))
      ensures if exit then |sendConfirm| <= |old(sendConfirm)| else |sendConfirm| < |old(sendConfirm)| && abandoned == 0
      ensures Selects(from, at, exit, quits)
      ensures forall i | 0 <= i < old(|sent|) :: Content(sent[i]) == old(Content(sent[i]))
    {
      ghost var k;
      abandoned, at, exit, k := Gather(from, quits);
      if !exit {
        ghost var before, gathered := values, abandoned;
        abandoned, at, exit := Settle(abandoned, at, quits);
        SettleAddsUp(before, values, gathered, abandoned);
      }
    }

    /**
     * `serveConfirm` until `sendConfirm` is empty or the channel is done: the frames, what it abandons
     * and what it leaves in `sendConfirm` add up to exactly the counts there were.
     */
    method ServeConfirm(quits: nat -> bool) returns (abandoned: nat, at: nat, exit: bool)
      requires Valid()
      modifies this`sendConfirm, this`arena, this`used, this`sent, this`values, arena
      ensures Valid() && old(sent) <= sent
      ensures Sum(values) + abandoned + Sum(sendConfirm) == Sum(old(values)) + Sum(old(sendConfirm))
      ensures !exit ==> abandoned == 0 && sendConfirm == []
      ensures Selects(0, at, exit, quits)
      ensures forall i | 0 <= i < old(|sent|) :: Content(sent[i]) == old(Content(sent[i]))
    {
      ghost var start := arena;
      abandoned, at, exit := 0, 0, false;
      while sendConfirm != [] && !exit
        invariant Valid() && (arena == start || fresh(arena))
        invariant old(sent) <= sent
        invariant Sum(values) + abandoned + Sum(sendConfirm) == Sum(old(values)) + Sum(old(sendConfirm))
        invariant !exit ==> abandoned == 0
        invariant Selects(0, at, exit, quits)
        invariant forall i | 0 <= i < old(|sent|) :: Content(sent[i]) == old(Content(sent[i]))
        decreases |sendConfirm|, !exit
      {
        ghost var from := at;
        abandoned, at, exit := Batch(at, quits);
        assert Selects(0, from, false, quits) && Selects(from, at, exit, quits);
      }
    }
  }
}
