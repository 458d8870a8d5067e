/** The write side of base_transport.go: frames leave the queue in order and are flushed before the loop waits. */
module BaseTransport {
  import opened Bytes

  /** `bufio.Writer` over the connection. */
  class BufferedWriter {
    const size: nat
    var buffered: seq<byte>
    var written: seq<byte>

    ghost predicate Valid()
      reads this
    {
      size > 0 && |buffered| <= size
    }

    constructor (size: nat)
      requires size > 0
      ensures Valid() && written == [] && buffered == []
    {
      this.size := size;
      buffered, written := [], [];
    }

    method Flush()
      requires Valid()
      modifies this
      ensures Valid() && buffered == [] && written == old(written + buffered)
    {
      written, buffered := written + buffered, [];
    }

    method Write(p: seq<byte>)
      requires Valid()
      modifies this
      ensures Valid() && written + buffered == old(written + buffered) + p
      ensures old(written) <= written
    {
      var left := p;
      while |left| > size - |buffered|
        invariant Valid() && old(written) <= written
        invariant written + buffered + left == old(written + buffered) + p
        decreases |left|, |buffered|
      {
        if buffered == [] {
          written, left := written + left, [];
        } else {
          var n := size - |buffered|;
          buffered, left := buffered + left[..n], left[n..];
          Flush();
        }
      }
      buffered := buffered + left;
    }
  }

  /**
   * `serveWrite` with a write buffer: `rounds[i]` are the frames in the queue when the loop wakes up
   * for the `i`-th time. The bytes on the connection are the frames in queue order, and the loop
   * never goes back to waiting with bytes still in the buffer.
   */
  method ServeWrite(rounds: seq<seq<seq<byte>>>, size: nat) returns (written: seq<byte>)
    requires size > 0 && (forall r | r in rounds :: r != [])
    ensures written == Concat(Concat(rounds))
  {
    var w := new BufferedWriter(size);
    for i := 0 to |rounds|
      invariant fresh(w) && w.Valid() && w.buffered == []
      invariant w.written == Concat(Concat(rounds[..i]))
    {
      var queue := rounds[i];
      assert queue in rounds;
      ghost var before := w.written;
      w.Write(queue[0]);
      assert queue[..1] == [] + [queue[0]];
      ConcatSnoc([], queue[0]);
      for k := 1 to |queue|
        invariant fresh(w) && w.Valid()
        invariant w.written + w.buffered == before + Concat(queue[..k])
      {
        w.Write(queue[k]);
        assert queue[..k + 1] == queue[..k] + [queue[k]];
        ConcatSnoc(queue[..k], queue[k]);
      }
      w.Flush();
      assert queue[..|queue|] == queue;
      assert rounds[..i + 1] == rounds[..i] + [queue];
      ConcatSnoc(rounds[..i], queue);
      ConcatAppend(Concat(rounds[..i]), queue);
    }
    assert rounds[..|rounds|] == rounds;
    written := w.written;
  }

  /** `serveWrite` without a buffer (`size` 0): every frame goes out at once. */
  method ServeWriteDirect(rounds: seq<seq<seq<byte>>>) returns (written: seq<byte>)
    ensures written == Concat(Concat(rounds))
  {
    written := [];
    for i := 0 to |rounds|
      invariant written == Concat(Concat(rounds[..i]))
    {
      var queue := rounds[i];
      ghost var before := written;
      for k := 0 to |queue|
        invariant written == before + Concat(queue[..k])
      {
        written := written + queue[k];
        assert queue[..k + 1] == queue[..k] + [queue[k]];
        ConcatSnoc(queue[..k], queue[k]);
      }
      assert queue[..|queue|] == queue;
      assert rounds[..i + 1] == rounds[..i] + [queue];
      ConcatSnoc(rounds[..i], queue);
      ConcatAppend(Concat(rounds[..i]), queue);
    }
    assert rounds[..|rounds|] == rounds;
  }
}
