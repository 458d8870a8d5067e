/**
 * The client: which transport a `Dial` gets and when it is given up (client.go), and what the
 * transport does with ids and Create replies (client_transport.go), in any interleaving.
 */
module ClientPool {
  import opened Bytes

  type Ref = nat

  /** An entry of `keys`: `waiting` while it has its `rw`, `channel` once the server has answered Ok. */
  datatype Entry = Entry(waiting: bool, channel: Option<Ref>)

  /**
   * `granted` counts how often the transport was handed to a `Dial`; `issued` lists the ids of its
   * Create frames and `chans` the ids of the channel objects it made.
   */
  datatype Transport = Transport(
    used: nat, id: nat, keys: map<nat, Entry>, granted: nat, issued: seq<nat>, chans: seq<nat>, crashed: bool)

  function NewTransport(): Transport {
    Transport(1, 0, map[], 0, [], [], false)
  }

  /** `Create`: the counter is a uint64 and wraps. */
  function NextId(t: Transport): nat {
    (t.id + 1) % (MAX_UINT64 + 1)
  }

  function OnDial(t: Transport): Transport {
    var id := NextId(t);
    t.(id := id, keys := t.keys[id := Entry(true, None)], issued := t.issued + [id])
  }

  /** A Create reply, for a call that has not been cancelled. */
  function OnCreated(t: Transport, id: nat, code: byte): Transport {
    if id !in t.keys then t
    else if t.keys[id].channel.Some? then t.(keys := t.keys - {id})
    else if !t.keys[id].waiting then t.(crashed := true) // `rw` is nil
    else if code == 0 then t.(keys := t.keys[id := Entry(false, Some(|t.chans|))], chans := t.chans + [id])
    else t.(keys := t.keys[id := Entry(false, None)])
  }

  function OnClose(t: Transport, id: nat): Transport {
    t.(keys := t.keys - {id})
  }

  /** `delete`, called by the `Serve` of channel `r`. */
  function OnDelete(t: Transport, r: Ref): Transport {
    if r < |t.chans| && t.chans[r] in t.keys && t.keys[t.chans[r]].channel == Some(r)
    then t.(keys := t.keys - {t.chans[r]}) else t
  }

  /** `current` is the variable `t` of `Client.serve`. */
  datatype Pool = Pool(transports: seq<Transport>, current: Option<nat>)

  datatype Act =
    // `Client.serve` answers a `Dial`; `alive`: the current transport is not done; `connects`: a new one connects
    | Hand(alive: bool, connects: bool)
    | Dials(k: nat)                            // the `Dial` goes on to `Create` on transport `k`
    | Reply(k: nat, id: nat, code: byte)
    | Close(k: nat, id: nat)
    | Delete(k: nat, r: Ref)

  predicate Can(p: Pool, a: Act) {
    match a
    case Hand(_, _) => true
    // each hand-out makes at most one `Create`
    case Dials(k) => k < |p.transports| && |p.transports[k].issued| < p.transports[k].granted
    case Reply(k, _, _) => k < |p.transports|
    case Close(k, _) => k < |p.transports|
    case Delete(k, _) => k < |p.transports|
  }

  function Grant(p: Pool, k: nat): Pool
    requires k < |p.transports|
  {
    var t := p.transports[k].(granted := p.transports[k].granted + 1);
    if t.used == MAX_UINT64 then Pool(p.transports[k := t], None)
    else Pool(p.transports[k := t.(used := t.used + 1)], Some(k))
  }

  function Do(p: Pool, a: Act): Pool
    requires Can(p, a)
  {
    match a
    case Hand(alive, connects) =>
      if p.current.Some? && alive && p.current.value < |p.transports| then Grant(p, p.current.value)
      else if connects then Grant(Pool(p.transports + [NewTransport()], None), |p.transports|)
      else p.(current := None)
    case Dials(k) => p.(transports := p.transports[k := OnDial(p.transports[k])])
    case Reply(k, id, code) => p.(transports := p.transports[k := OnCreated(p.transports[k], id, code)])
    case Close(k, id) => p.(transports := p.transports[k := OnClose(p.transports[k], id)])
    case Delete(k, r) => p.(transports := p.transports[k := OnDelete(p.transports[k], r)])
  }

  predicate Possible(p: Pool, run: seq<Act>)
    decreases |run|
  {
    run == [] || (Can(p, run[0]) && Possible(Do(p, run[0]), run[1..]))
  }

  function After(p: Pool, run: seq<Act>): Pool
    requires Possible(p, run)
    decreases |run|
  {
    if run == [] then p else After(Do(p, run[0]), run[1..])
  }

  // ---- the invariant ----

  /** Ids are 1, 2, 3 and so on, and an id whose channel object exists is not waiting for another. */
  ghost predicate TransportOk(t: Transport) {
    && |t.issued| <= t.granted <= MAX_UINT64
    && t.id == |t.issued| && (forall i | 0 <= i < |t.issued| :: t.issued[i] == i + 1)
    && (forall id | id in t.keys :: 1 <= id <= t.id)
    && (forall r | 0 <= r < |t.chans| :: 1 <= t.chans[r] <= t.id)
    && (forall r | 0 <= r < |t.chans| && t.chans[r] in t.keys :: !t.keys[t.chans[r]].waiting)
    && (forall q, r | 0 <= q < r < |t.chans| :: t.chans[q] != t.chans[r])
    && (forall id | id in t.keys && t.keys[id].channel.Some? ::
          t.keys[id].channel.value < |t.chans| && t.chans[t.keys[id].channel.value] == id)
  }

  /** The current transport can be handed out `MAX_UINT64 - used + 1` times more. */
  ghost predicate PoolOk(p: Pool) {
    && (forall k | 0 <= k < |p.transports| :: TransportOk(p.transports[k]))
    && (p.current.Some? ==> p.current.value < |p.transports|)
    && (p.current.Some? ==> p.transports[p.current.value].used == p.transports[p.current.value].granted + 1 <= MAX_UINT64)
  }

  lemma SetKeeps(p: Pool, k: nat, t: Transport)
    requires PoolOk(p) && k < |p.transports| && TransportOk(t)
    requires t.used == p.transports[k].used && t.granted == p.transports[k].granted
    ensures PoolOk(p.(transports := p.transports[k := t]))
  {
  }

  lemma DialKeeps(t: Transport)
    requires TransportOk(t) && |t.issued| < t.granted
    ensures TransportOk(OnDial(t)) && NextId(t) == t.id + 1 && NextId(t) !in t.keys && NextId(t) !in t.issued
  {
    assert NextId(t) == t.id + 1;
  }

  lemma CloseKeeps(t: Transport, id: nat)
    requires TransportOk(t)
    ensures TransportOk(OnClose(t, id))
  {
  }

  lemma DeleteKeeps(t: Transport, r: Ref)
    requires TransportOk(t)
    ensures TransportOk(OnDelete(t, r))
  {
    if r < |t.chans| {
      CloseKeeps(t, t.chans[r]);
    }
  }

  lemma OpenKeeps(t: Transport, id: nat)
    requires TransportOk(t) && id in t.keys && t.keys[id] == Entry(true, None)
    ensures TransportOk(t.(keys := t.keys[id := Entry(false, Some(|t.chans|))], chans := t.chans + [id]))
  {
    assert id !in t.chans;
  }

  lemma RefusedKeeps(t: Transport, id: nat)
    requires TransportOk(t) && id in t.keys && t.keys[id] == Entry(true, None)
    ensures TransportOk(t.(keys := t.keys[id := Entry(false, None)]))
  {
  }

  lemma CreatedKeeps(t: Transport, id: nat, code: byte)
    requires TransportOk(t)
    ensures TransportOk(OnCreated(t, id, code))
  {
    if id in t.keys && t.keys[id] == Entry(true, None) {
      OpenKeeps(t, id);
      RefusedKeeps(t, id);
    } else {
      CloseKeeps(t, id);
    }
  }

  lemma GrantKeeps(p: Pool, k: nat)
    requires forall i | 0 <= i < |p.transports| :: TransportOk(p.transports[i])
    requires k < |p.transports| && p.transports[k].used == p.transports[k].granted + 1 <= MAX_UINT64
    ensures PoolOk(Grant(p, k))
  {
    var t := p.transports[k];
    assert TransportOk(t.(granted := t.granted + 1));
    assert TransportOk(t.(granted := t.granted + 1, used := t.used + 1));
  }

  lemma StepKeeps(p: Pool, a: Act)
    requires PoolOk(p) && Can(p, a)
    ensures PoolOk(Do(p, a))
  {
    match a
    case Hand(alive, connects) =>
      if p.current.Some? && alive {
        GrantKeeps(p, p.current.value);
      } else if connects {
        assert TransportOk(NewTransport());
        GrantKeeps(Pool(p.transports + [NewTransport()], None), |p.transports|);
      }
    case Dials(k) =>
      DialKeeps(p.transports[k]);
      SetKeeps(p, k, OnDial(p.transports[k]));
    case Reply(k, id, code) =>
      CreatedKeeps(p.transports[k], id, code);
      SetKeeps(p, k, OnCreated(p.transports[k], id, code));
    case Close(k, id) =>
      CloseKeeps(p.transports[k], id);
      SetKeeps(p, k, OnClose(p.transports[k], id));
    case Delete(k, r) =>
      DeleteKeeps(p.transports[k], r);
      SetKeeps(p, k, OnDelete(p.transports[k], r));
  }

  lemma {:induction false} RunKeeps(p: Pool, run: seq<Act>)
    requires PoolOk(p) && Possible(p, run)
    ensures PoolOk(After(p, run))
    decreases |run|
  {
    if run != [] {
      StepKeeps(p, run[0]);
      RunKeeps(Do(p, run[0]), run[1..]);
    }
  }

  ghost predicate Reachable(p: Pool) {
    exists run :: Possible(Pool([], None), run) && p == After(Pool([], None), run)
  }

  lemma ReachableIsOk(p: Pool)
    requires Reachable(p)
    ensures PoolOk(p)
  {
    var run :| Possible(Pool([], None), run) && p == After(Pool([], None), run);
    RunKeeps(Pool([], None), run);
  }

  /**
   * Ids never repeat: a transport is handed out at most 2^64-1 times, its ids are distinct and lie in
   * 1..2^64-1, and each of them gets at most one channel object, whatever the server answers.
   */
  lemma IdsNeverRepeat(p: Pool, k: nat)
    requires Reachable(p) && k < |p.transports|
    ensures var t := p.transports[k];
      && t.granted <= MAX_UINT64
      && (forall i | 0 <= i < |t.issued| :: 1 <= t.issued[i] <= MAX_UINT64)
      && (forall i, j | 0 <= i < j < |t.issued| :: t.issued[i] != t.issued[j])
      && (forall q, r | 0 <= q < r < |t.chans| :: t.chans[q] != t.chans[r])
      && (forall r | 0 <= r < |t.chans| :: t.chans[r] in t.issued)
  {
    ReachableIsOk(p);
    var t := p.transports[k];
    forall r | 0 <= r < |t.chans| ensures t.chans[r] in t.issued {
      assert t.issued[t.chans[r] - 1] == t.chans[r];
    }
  }

  /** A `Create` never meets an entry or a channel of its id, and the counter does not wrap. */
  lemma CreateIsFresh(p: Pool, k: nat)
    requires Reachable(p) && Can(p, Dials(k))
    ensures var t := p.transports[k];
      NextId(t) == t.id + 1 && NextId(t) !in t.keys && NextId(t) !in t.issued && NextId(t) !in t.chans
  {
    ReachableIsOk(p);
    DialKeeps(p.transports[k]);
  }

  /** A transport is given up with the hand-out that uses up its last id, and not before unless it dies. */
  lemma GivenUpExactly(p: Pool)
    requires Reachable(p) && p.current.Some?
    ensures var k := p.current.value;
      && k < |p.transports|
      && Do(p, Hand(true, false)).transports[k].granted == p.transports[k].granted + 1
      && (Do(p, Hand(true, false)).current == None <==> p.transports[k].granted + 1 == MAX_UINT64)
  {
    ReachableIsOk(p);
  }

  /**
   * A reply makes a channel object exactly when it is the first one to its id and says Ok, and ends the
   * program exactly when the id has an entry and neither a channel nor a waiting call.
   */
  lemma ReplyMakes(t: Transport, id: nat, code: byte)
    requires TransportOk(t)
    ensures var u := OnCreated(t, id, code);
      && (u.chans == t.chans + [id] <==> id in t.keys && t.keys[id].waiting && t.keys[id].channel.None? && code == 0)
      && (u.chans == t.chans || u.chans == t.chans + [id])
      && (!t.crashed ==> (u.crashed <==> id in t.keys && !t.keys[id].waiting && t.keys[id].channel.None?))
  {
  }

  /** What was current and has died is not handed out again, in any run; all other transports are left alone. */
  lemma DeadIsNotGranted(p: Pool, connects: bool, k: nat)
    requires Reachable(p) && k < |p.transports|
    ensures Do(p, Hand(false, connects)).transports[k] == p.transports[k]
    ensures Do(p, Hand(false, connects)).current != Some(k)
    ensures connects ==> Do(p, Hand(false, connects)).transports ==
                           p.transports + [NewTransport().(granted := 1, used := 2)]
    ensures !connects ==> Do(p, Hand(false, connects)) == p.(current := None)
  {
    ReachableIsOk(p);
  }

  /** A transport without `current` is never current again: each is handed out in one stretch. */
  lemma AbandonedStays(p: Pool, a: Act, k: nat)
    requires Reachable(p) && Can(p, a) && k < |p.transports| && p.current != Some(k)
    ensures Do(p, a).current != Some(k) && k < |Do(p, a).transports|
    ensures Do(p, a).transports[k].granted == p.transports[k].granted
  {
    ReachableIsOk(p);
  }

  // ---- replies that end the program ----

  /** A `Create` waits for the answer to `id`. */
  predicate Awaited(t: Transport, id: nat) {
    id in t.keys && t.keys[id] == Entry(true, None)
  }

  /** `id` has an entry with neither a channel nor a call that waits for one. */
  predicate Refused(t: Transport, id: nat) {
    id in t.keys && t.keys[id] == Entry(false, None)
  }

  lemma ReplyRefuses(t: Transport, other: nat, code: byte, id: nat)
    ensures Refused(OnCreated(t, other, code), id) <==> Refused(t, id) || (other == id && code != 0 && Awaited(t, id))
    ensures !t.crashed ==> (OnCreated(t, id, code).crashed <==> Refused(t, id))
  {
  }

  lemma DialRefusesNone(t: Transport, id: nat)
    requires TransportOk(t) && |t.issued| < t.granted
    ensures Refused(OnDial(t), id) <==> Refused(t, id)
  {
    DialKeeps(t);
  }

  lemma CloseRefusesNone(t: Transport, other: nat, id: nat)
    ensures Refused(OnClose(t, other), id) <==> Refused(t, id) && other != id
  {
  }

  lemma DeleteRefusesNone(t: Transport, r: Ref, id: nat)
    ensures Refused(OnDelete(t, r), id) <==> Refused(t, id)
  {
  }

  predicate RefusedAt(p: Pool, k: nat, id: nat) {
    k < |p.transports| && Refused(p.transports[k], id)
  }

  /** Step `a` is a reply that refuses the call that waits for `id`. */
  predicate Refuses(p: Pool, a: Act, k: nat, id: nat) {
    a.Reply? && a.k == k && a.id == id && a.code != 0 && k < |p.transports| && Awaited(p.transports[k], id)
  }

  lemma RefusedSteps(p: Pool, a: Act, k: nat, id: nat)
    requires PoolOk(p) && Can(p, a)
    ensures RefusedAt(Do(p, a), k, id) <==> Refuses(p, a, k, id) || (RefusedAt(p, k, id) && a != Close(k, id))
  {
    match a
    case Hand(_, _) =>
    case Dials(j) => DialRefusesNone(p.transports[j], id);
    case Reply(j, other, code) => if j == k { ReplyRefuses(p.transports[k], other, code, id); }
    case Close(j, other) => if j == k { CloseRefusesNone(p.transports[k], other, id); }
    case Delete(j, r) => if j == k { DeleteRefusesNone(p.transports[k], r, id); }
  }

  /** Some step of `run` refuses the call that waits for `id`, and no Close for it comes after that. */
  predicate RefusedIn(p: Pool, run: seq<Act>, k: nat, id: nat)
    requires Possible(p, run)
    decreases |run|
  {
    run != []
    && ((Refuses(p, run[0], k, id) && Close(k, id) !in run[1..]) || RefusedIn(Do(p, run[0]), run[1..], k, id))
  }

  lemma {:induction false} RefusedAfter(p: Pool, run: seq<Act>, k: nat, id: nat)
    requires PoolOk(p) && Possible(p, run)
    ensures RefusedAt(After(p, run), k, id)
      <==> RefusedIn(p, run, k, id) || (RefusedAt(p, k, id) && Close(k, id) !in run)
    decreases |run|
  {
    if run != [] {
      RefusedSteps(p, run[0], k, id);
      StepKeeps(p, run[0]);
      RefusedAfter(Do(p, run[0]), run[1..], k, id);
      assert Close(k, id) in run <==> run[0] == Close(k, id) || Close(k, id) in run[1..];
    }
  }

  /**
   * Over whole runs: a step ends the program exactly when it is a reply to an id whose call was refused
   * by an earlier reply, with no Close for that id in between.
   */
  lemma CrashesExactly(run: seq<Act>, a: Act, k: nat)
    requires Possible(Pool([], None), run) && Can(After(Pool([], None), run), a)
    requires k < |After(Pool([], None), run).transports| && !After(Pool([], None), run).transports[k].crashed
    ensures Do(After(Pool([], None), run), a).transports[k].crashed
      <==> a.Reply? && a.k == k && RefusedIn(Pool([], None), run, k, a.id)
  {
    var p := After(Pool([], None), run);
    RunKeeps(Pool([], None), run);
    if a.Reply? && a.k == k {
      RefusedAfter(Pool([], None), run, k, a.id);
      ReplyRefuses(p.transports[k], a.id, a.code, a.id);
    }
  }

  /** Two replies with a non-zero code are enough. */
  lemma SecondReplyCrashes()
    ensures exists p :: Reachable(p) && |p.transports| == 1 && p.transports[0].crashed
  {
    var start, run := Pool([], None), [Hand(false, true), Dials(0), Reply(0, 1, 2), Reply(0, 1, 2)];
    var granted := Grant(Pool([NewTransport()], None), 0);
    assert Do(start, run[0]) == granted && run[1..][1..] == run[2..] && run[2..][1..] == run[3..] && run[3..][1..] == [];
    var dialled := Do(granted, run[1]);
    assert dialled.transports[0].keys == map[1 := Entry(true, None)];
    var refused := Do(dialled, run[2]);
    assert Refused(refused.transports[0], 1);
    var p := Do(refused, run[3]);
    assert Possible(p, []) && Possible(refused, run[3..]) && Possible(dialled, run[2..]) && Possible(granted, run[1..]);
    assert Possible(start, run) && p == After(start, run);
  }

  // ---- Client.serve ----

  function Granted(transports: seq<Transport>, k: nat): nat {
    if k < |transports| then transports[k].granted else 0
  }

  datatype Request = Request(alive: bool, connects: bool)

  /** `Client.serve`: `used` is its estimate of the ids a transport has left. */
  class Client {
    var transports: seq<Transport>
    var t: Option<nat>

    ghost function State(): Pool
      reads this
    {
      Pool(transports, t)
    }

    constructor ()
      ensures State() == Pool([], None)
    {
      transports, t := [], None;
    }

    /** One request: the transport handed out, or none when the connection fails. */
    method Answer(alive: bool, connects: bool) returns (handed: Option<nat>)
      requires PoolOk(State())
      modifies this
      ensures State() == Do(old(State()), Hand(alive, connects)) && PoolOk(State())
      ensures handed.Some? ==> handed.value < |transports|
      ensures handed.Some? ==> transports[handed.value].granted == 1 + Granted(old(transports), handed.value)
      // a live transport is handed out again
      ensures old(t).Some? && alive ==> handed == old(t) && |transports| == |old(transports)|
      // a dead one never is: a new one takes its place, if it connects
      ensures old(t).None? || !alive ==>
                && transports[..|old(transports)|] == old(transports)
                && (handed == if connects then Some(|old(transports)|) else None)
                && |transports| == |old(transports)| + (if connects then 1 else 0)
                && (handed.None? ==> t.None?)
    {
      StepKeeps(State(), Hand(alive, connects));
      if t.Some? && !alive {
        t := None;
      }
      if t.None? {
        if !connects {
          return None;
        }
        t := Some(|transports|);
        transports := transports + [NewTransport()];
      }
      var k := t.value;
      handed := Some(k);
      var tr := transports[k].(granted := transports[k].granted + 1);
      if tr.used == MAX_UINT64 {
        t := None;
      } else {
        tr := tr.(used := tr.used + 1);
      }
      transports := transports[k := tr];
    }

    method Serve(requests: seq<Request>)
      requires PoolOk(State())
      modifies this
      ensures Possible(old(State()), Hands(requests)) && State() == After(old(State()), Hands(requests))
      ensures forall k | 0 <= k < |transports| :: transports[k].granted <= MAX_UINT64
    {
      HandsPossible(State(), requests);
      for i := 0 to |requests|
        invariant PoolOk(State()) && Possible(State(), Hands(requests[i..]))
        invariant After(State(), Hands(requests[i..])) == After(old(State()), Hands(requests))
      {
        var _ := Answer(requests[i].alive, requests[i].connects);
        assert requests[i..][1..] == requests[i + 1..];
      }
    }
  }

  function Hands(requests: seq<Request>): seq<Act> {
    if requests == [] then [] else [Hand(requests[0].alive, requests[0].connects)] + Hands(requests[1..])
  }

  lemma {:induction false} HandsPossible(p: Pool, requests: seq<Request>)
    ensures Possible(p, Hands(requests))
    decreases |requests|
  {
    if requests != [] {
      var a := Hand(requests[0].alive, requests[0].connects);
      assert Hands(requests)[1..] == Hands(requests[1..]);
      HandsPossible(Do(p, a), requests[1..]);
    }
  }
}
