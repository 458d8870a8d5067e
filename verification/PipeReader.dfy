/** The blocking pipe of pipe/pipe_reader.go, one critical section at a time; see PipeMonitor for the interleavings. */
module PipeReaders {
  import opened Bytes
  import opened ReadWriters

  /** What another goroutine does to the pipe while a reader is parked. */
  datatype Turn = Writes(data: seq<byte>) | Closes

  datatype Shared = Shared(contents: seq<byte>, closed: bool)

  function TakeTurn(s: Shared, turn: Turn, capacity: nat): Shared {
    match turn
    case Closes => s.(closed := true)
    case Writes(data) =>
      if s.closed || |s.contents| + |data| > capacity then s else s.(contents := s.contents + data)
  }

  /** A Close closes and touches no byte; a write gets in whole or not at all, and only while open. */
  lemma TurnDoes(s: Shared, turn: Turn, capacity: nat)
    ensures var t := TakeTurn(s, turn, capacity);
      && (turn.Closes? ==> t.closed && t.contents == s.contents)
      && (turn.Writes? ==> t.closed == s.closed)
      && (turn.Writes? && !s.closed && |s.contents| + |turn.data| <= capacity ==> t.contents == s.contents + turn.data)
      && (turn.Writes? && (s.closed || |s.contents| + |turn.data| > capacity) ==> t.contents == s.contents)
  {
  }

  function TakeTurns(s: Shared, turns: seq<Turn>, capacity: nat): Shared
    decreases |turns|
  {
    if turns == [] then s else TakeTurns(TakeTurn(s, turns[0], capacity), turns[1..], capacity)
  }

  /** After a Close no write gets in, whatever is tried. */
  lemma {:induction false} NoWriteAfterClose(s: Shared, turns: seq<Turn>, capacity: nat)
    ensures var closed := TakeTurn(s, Closes, capacity);
      TakeTurns(closed, turns, capacity) == closed && closed.closed
    decreases |turns|
  {
    if turns != [] {
      NoWriteAfterClose(TakeTurn(s, Closes, capacity), turns[1..], capacity);
    }
  }

  /** A Close among the turns ends the wait. */
  lemma {:induction false} CloseWakes(s: Shared, turns: seq<Turn>, capacity: nat)
    requires Closes in turns
    ensures var ready := Await(s, turns, capacity).0; ready.contents != [] || ready.closed
    decreases |turns|
  {
    if s.contents == [] && !s.closed && turns[0] != Closes {
      CloseWakes(TakeTurn(s, turns[0], capacity), turns[1..], capacity);
    }
  }

  /** The state after the first turns that leave a reader something to do, and how many they are. */
  function Await(s: Shared, turns: seq<Turn>, capacity: nat): (r: (Shared, nat))
    ensures r.1 <= |turns|
    ensures r.0.contents != [] || r.0.closed || r.1 == |turns|
    ensures r.0.contents != [] && r.1 > 0 ==> s.contents == [] && r.0.closed == s.closed == false
    ensures s.contents <= r.0.contents
    decreases |turns|
  {
    if s.contents != [] || s.closed || turns == [] then (s, 0)
    else
      var (t, n) := Await(TakeTurn(s, turns[0], capacity), turns[1..], capacity);
      (t, n + 1)
  }

  class PipeReader {
    const rw: ReadWriter
    var closed: bool
    var wait: nat

    ghost predicate Valid()
      reads this, rw, rw.buffer
    {
      rw.Valid()
    }

    ghost function State(): Shared
      reads this, rw
    {
      Shared(rw.contents, closed)
    }

    constructor (size: nat)
      ensures Valid() && fresh(rw) && fresh(rw.buffer) && rw.buffer.Length == size
      ensures State() == Shared([], false) && wait == 0
    {
      var buffer := new byte[size];
      rw := new ReadWriter(buffer);
      closed, wait := false, 0;
    }

    method Close()
      requires Valid()
      modifies this`closed
      ensures Valid() && State() == TakeTurn(old(State()), Closes, rw.buffer.Length)
      ensures closed && rw.contents == old(rw.contents)
    {
      if !closed {
        closed := true;
      }
    }

    method Write(b: seq<byte>) returns (n: nat, e: IoError)
      requires Valid()
      modifies rw, rw.buffer
      ensures Valid() && State() == TakeTurn(old(State()), Writes(b), rw.buffer.Length)
      ensures e == if old(closed) then ReaderClosed
                   else if |old(rw.contents)| + |b| > rw.buffer.Length then WriteOverflow
                   else NoError
      ensures n == if e == NoError then |b| else 0
      ensures closed == old(closed) && rw.contents == old(rw.contents) + b[..n]
    {
      if closed {
        return 0, ReaderClosed;
      }
      n, e := rw.Write(b);
      assert b[..n] == if e == NoError then b else [];
    }

    /**
     * Reads into `b`; each time it parks, the next of `turns` happens, and `parked` is returned when
     * there is none left. Bytes go to the reader in order, and EOF means closed and drained.
     */
    method Read(b: array<byte>, turns: seq<Turn>) returns (n: nat, e: IoError, ghost taken: nat, parked: bool)
      requires Valid() && b != rw.buffer
      modifies this, rw, rw.buffer, b
      ensures Valid() && wait == old(wait) + if parked then 1 else 0
      ensures b.Length == 0 ==> taken == 0
      ensures b.Length > 0 ==> taken == Await(old(State()), turns, rw.buffer.Length).1
      ensures var ready := if b.Length == 0 then old(State()) else Await(old(State()), turns, rw.buffer.Length).0;
        && n == Min(b.Length, |ready.contents|)
        && b[..] == ready.contents[..n] + old(b[..])[n..]
        && State() == ready.(contents := ready.contents[n..])
        && (parked <==> b.Length > 0 && ready == Shared([], false))
        && (e == EndOfFile <==> ready.closed && (b.Length == 0 || ready.contents == []))
      ensures Closes in turns ==> !parked
    {
      if Closes in turns {
        CloseWakes(State(), turns, rw.buffer.Length);
      }
      n, e, taken, parked := 0, NoError, 0, false;
      if b.Length == 0 {
        if closed {
          e := EndOfFile;
        }
        return;
      }
      var left := turns;
      var size := rw.Len();
      while size == 0
        invariant Valid() && wait == old(wait) && size == |rw.contents|
        invariant b[..] == old(b[..])
        invariant taken + |left| == |turns|
        invariant var all := Await(old(State()), turns, rw.buffer.Length);
          var rest := Await(State(), left, rw.buffer.Length);
          all.0 == rest.0 && all.1 == taken + rest.1
        decreases |left|
      {
        if closed {
          e := EndOfFile;
          return;
        }
        wait := wait + 1;
        if left == [] {
          parked := true;
          return;
        }
        Wait(left[0]);
        left, taken := left[1..], taken + 1;
        wait := wait - 1;
        size := rw.Len();
      }
      n, e := rw.Read(b);
    }

    /** `cond.Wait`: the lock is given up, another goroutine has its turn, the lock is taken again. */
    method Wait(turn: Turn)
      requires Valid()
      modifies this`closed, rw, rw.buffer
      ensures Valid() && State() == TakeTurn(old(State()), turn, rw.buffer.Length)
    {
      match turn
      case Writes(data) => var _, _ := Write(data);
      case Closes => Close();
    }
  }
}
