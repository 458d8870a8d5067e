/** The circular buffer of pipe/read_writer.go. */
module ReadWriters {
  import opened Bytes

  datatype IoError = NoError | WriteOverflow | EndOfFile | ReaderClosed

  /** The `size` elements of `a` that start at `offset` and wrap around at the end. */
  function Window<T>(a: seq<T>, offset: nat, size: nat): seq<T>
    requires size <= |a| && (offset < |a| || offset == 0)
  {
    if offset + size <= |a| then a[offset..offset + size] else a[offset..] + a[..offset + size - |a|]
  }

  /** The index arithmetic of the ring: one step of wrap-around is all it ever needs. */
  method Wrap(x: nat, capacity: nat) returns (r: nat)
    requires x < 2 * capacity
    ensures r == if x < capacity then x else x - capacity
  {
    r := x % capacity;
    if x >= capacity {
      assert x == capacity + (x - capacity);
      WrapOnce(x - capacity, capacity);
    }
  }

  lemma WrapOnce(y: nat, capacity: nat)
    requires y < capacity
    ensures (capacity + y) % capacity == y
  {
    assert (capacity + y) / capacity == 1;
  }

  /** Go's `copy` from `src` into `a` at position `at`, up to position `end`. */
  method Copy(a: array<byte>, at: nat, end: nat, src: seq<byte>) returns (n: nat)
    requires at <= end <= a.Length
    modifies a
    ensures n == Min(end - at, |src|)
    ensures a[..] == old(a[..])[..at] + src[..n] + old(a[..])[at + n..]
  {
    n := Min(end - at, |src|);
    for i := 0 to n
      invariant a[..] == old(a[..at]) + src[..i] + old(a[at + i..])
    {
      a[at + i] := src[i];
    }
  }

  class ReadWriter {
    const buffer: array<byte>
    var offset: nat
    var size: nat

    /** The bytes written and not yet read. */
    ghost var contents: seq<byte>

    ghost predicate Valid()
      reads this, buffer
    {
      && size <= buffer.Length && (offset < buffer.Length || offset == 0)
      && contents == Window(buffer[..], offset, size)
    }

    constructor (buffer: array<byte>)
      ensures Valid() && this.buffer == buffer && contents == []
    {
      this.buffer := buffer;
      offset, size, contents := 0, 0, [];
    }

    method Clear()
      requires Valid()
      modifies this
      ensures Valid() && contents == []
    {
      offset, size, contents := 0, 0, [];
    }

    method Len() returns (n: nat)
      requires Valid()
      ensures n == |contents|
    {
      n := size;
    }

    method Available() returns (n: nat)
      requires Valid()
      ensures n == buffer.Length - |contents|
    {
      n := buffer.Length - size;
    }

    /** All of `b` is appended, or nothing. */
    method Write(b: seq<byte>) returns (n: nat, e: IoError)
      requires Valid()
      modifies this`size, this`contents, buffer
      ensures Valid()
      ensures var fits := |old(contents)| + |b| <= buffer.Length;
        && e == (if fits then NoError else WriteOverflow)
        && n == (if fits then |b| else 0)
        && contents == old(contents) + b[..n]
    {
      n, e := 0, NoError;
      if |b| != 0 {
        var available := buffer.Length - size;
        if available < |b| {
          e := WriteOverflow;
        } else {
          n := Append(b);
        }
      }
    }

    /** The two copies of `Write`. */
    method Append(b: seq<byte>) returns (n: nat)
      requires Valid() && 0 < |b| <= buffer.Length - size
      modifies this`size, this`contents, buffer
      ensures Valid() && n == |b| && contents == old(contents) + b
    {
      var capacity := buffer.Length;
      ghost var was := buffer[..];
      var at := Wrap(offset + size, capacity);
      n := Copy(buffer, at, capacity, b);
      ghost var mid := buffer[..];
      var left := b[n..];
      var m := Copy(buffer, 0, capacity, left);
      assert m == |left| && left[..m] == left;
      WriteWraps(was, mid, buffer[..], offset, size, b, at, n);
      n := n + m;
      size := size + n;
      contents := contents + b;
    }

    /** The first bytes are removed and returned in `b`; the rest of `b` is untouched. */
    method Read(b: array<byte>) returns (n: nat, e: IoError)
      requires Valid() && b != buffer
      modifies this`offset, this`size, this`contents, b
      ensures Valid()
      ensures n == Min(b.Length, |old(contents)|)
      ensures e == if old(contents) == [] then EndOfFile else NoError
      ensures b[..] == old(contents)[..n] + old(b[..])[n..]
      ensures contents == old(contents)[n..]
    {
      n, e := 0, if size == 0 then EndOfFile else NoError;
      ghost var all, was := contents, b[..];
      assert all[..0] + was[0..] == was && all[0..] == all;
      while size != 0 && n != b.Length
        invariant Valid() && n <= b.Length
        invariant Moved(all, was, b[..], contents, n)
        decreases size
      {
        ghost var now, rest := b[..], contents;
        var readed := ReadOnce(b, n);
        ReadAdvances(all, was, now, b[..], rest, contents, n, readed);
        n := n + readed;
      }
    }

    /** One stretch up to the end of the array, into `b` from position `at`. */
    method ReadOnce(b: array<byte>, at: nat) returns (n: nat)
      requires Valid() && b != buffer && at < b.Length && size > 0
      modifies this`offset, this`size, this`contents, b
      ensures Valid()
      ensures 0 < n <= |old(contents)| && at + n <= b.Length
      ensures Taken(old(b[..]), b[..], old(contents), contents, at, n) && size < old(size)
    {
      ghost var a, was := buffer[..], b[..];
      var end := offset + size;
      var capacity := buffer.Length;
      if end > capacity {
        end := capacity;
      }
      var stretch := buffer[offset..end];
      assert stretch == a[offset..end];
      n := Copy(b, at, b.Length, stretch);
      assert buffer[..] == a;
      WindowStretch(a, offset, size, end, n);
      assert Taken(was, b[..], contents, contents[n..], at, n);
      var next := Wrap(offset + n, capacity);
      WindowDrops(a, offset, size, n, next);
      size := size - n;
      offset := next;
      contents := contents[n..];
    }
  }

  /** `n` elements of `all` are in the buffer `now`, which was `was`, and `rest` is left. */
  ghost predicate Moved<T>(all: seq<T>, was: seq<T>, now: seq<T>, rest: seq<T>, n: nat) {
    n <= |all| && n <= |was| && now == all[..n] + was[n..] && rest == all[n..]
  }

  /** The first `n` elements of `rest` are taken from it and put into the buffer at `at`. */
  ghost predicate Taken<T>(now: seq<T>, next: seq<T>, rest: seq<T>, left: seq<T>, at: nat, n: nat) {
    && n <= |rest| && at + n <= |now|
    && next == now[..at] + rest[..n] + now[at + n..] && left == rest[n..]
  }

  lemma ReadAdvances<T>(
    all: seq<T>, was: seq<T>, now: seq<T>, next: seq<T>, rest: seq<T>, left: seq<T>, n: nat, readed: nat)
    requires Moved(all, was, now, rest, n) && Taken(now, next, rest, left, n, readed)
    ensures Moved(all, was, next, left, n + readed)
  {
    assert all[..n + readed] == all[..n] + rest[..readed];
    assert now[n + readed..] == was[n + readed..];
  }

  lemma WindowStretch<T>(a: seq<T>, offset: nat, size: nat, end: nat, n: nat)
    requires size <= |a| && offset < |a| && end == Min(offset + size, |a|) && n <= end - offset
    ensures a[offset..end][..n] == Window(a, offset, size)[..n]
  {
  }

  lemma WindowDrops<T>(a: seq<T>, offset: nat, size: nat, n: nat, next: nat)
    requires 0 < n <= size <= |a| && offset + n <= |a| && next == if offset + n < |a| then offset + n else 0
    ensures Window(a, next, size - n) == Window(a, offset, size)[n..]
  {
    if offset + size <= |a| {
      assert a[offset..offset + size][n..] == a[offset + n..offset + size];
    } else {
      assert (a[offset..] + a[..offset + size - |a|])[n..] == a[offset + n..] + a[..offset + size - |a|];
    }
  }

  lemma WriteStraight<T>(was: seq<T>, b: seq<T>, offset: nat, at: nat)
    requires offset <= at && at + |b| <= |was|
    ensures (was[..at] + b + was[at + |b|..])[offset..at + |b|] == was[offset..at] + b
  {
  }

  lemma WriteSplits<T>(was: seq<T>, first: seq<T>, second: seq<T>, offset: nat, at: nat)
    requires |second| <= offset <= at && at + |first| == |was|
    ensures var now := second + (was[..at] + first)[|second|..];
      now[offset..] + now[..|second|] == was[offset..at] + (first + second)
  {
    var mid := was[..at] + first;
    assert (second + mid[|second|..])[offset..] == mid[offset..] == was[offset..at] + first;
  }

  lemma WriteBehind<T>(was: seq<T>, b: seq<T>, offset: nat, at: nat)
    requires at + |b| <= offset < |was|
    ensures var now := was[..at] + b + was[at + |b|..];
      now[offset..] == was[offset..] && now[..at + |b|] == was[..at] + b
  {
  }

  /** Two copies, up to the end of the array and on from its start, append `b` to the window. */
  lemma WriteWraps<T>(was: seq<T>, mid: seq<T>, now: seq<T>, offset: nat, size: nat, b: seq<T>, at: nat, n: nat)
    requires 0 < |b| <= |was| - size && size <= |was| && offset < |was|
    requires at == if offset + size < |was| then offset + size else offset + size - |was|
    requires n == Min(|was| - at, |b|)
    requires mid == was[..at] + b[..n] + was[at + n..]
    requires now == b[n..] + mid[|b| - n..]
    ensures Window(now, offset, size + |b|) == Window(was, offset, size) + b
  {
    if n == |b| {
      assert now == mid && b[..n] == b;
      if offset + size < |was| {
        WriteStraight(was, b, offset, at);
      } else {
        WriteBehind(was, b, offset, at);
        Regroup(was[offset..], was[..at], b);
      }
    } else {
      assert was[at + n..] == [] && was[..at] + b[..n] + [] == was[..at] + b[..n];
      WriteSplits(was, b[..n], b[n..], offset, at);
      assert b[..n] + b[n..] == b;
    }
  }
}
