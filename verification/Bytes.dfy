/** Bytes and the big-endian integers of the wire format (core/bytes.go). */
module Bytes {
  newtype byte = x: int | 0 <= x < 256

  datatype Option<+T> = None | Some(value: T)

  const MAX_UINT16 := 0xFFFF
  const MAX_UINT32 := 0xFFFF_FFFF
  const MAX_UINT64 := 0xFFFF_FFFF_FFFF_FFFF

  function Min(a: int, b: int): (m: int)
    ensures m <= a && m <= b && (m == a || m == b)
  {
    if a < b then a else b
  }

  /** The `k` low-order base-256 digits of `v`, most significant first. */
  function BigEndian(v: nat, k: nat): (b: seq<byte>)
    ensures |b| == k
  {
    if k == 0 then [] else BigEndian(v / 256, k - 1) + [(v % 256) as byte]
  }

  function Number(b: seq<byte>): nat {
    if b == [] then 0 else Number(b[..|b| - 1]) * 256 + b[|b| - 1] as int
  }

  function Pow256(k: nat): (p: nat)
    ensures p > 0
  {
    if k == 0 then 1 else 256 * Pow256(k - 1)
  }

  lemma {:induction false} NumberOfBigEndian(v: nat, k: nat)
    requires v < Pow256(k)
    ensures Number(BigEndian(v, k)) == v
  {
    if k > 0 {
      var b := BigEndian(v, k);
      assert b[..k - 1] == BigEndian(v / 256, k - 1);
      NumberOfBigEndian(v / 256, k - 1);
    }
  }

  lemma {:induction false} BigEndianOfNumber(b: seq<byte>)
    ensures Number(b) < Pow256(|b|)
    ensures BigEndian(Number(b), |b|) == b
  {
    if b != [] {
      var init, last := b[..|b| - 1], b[|b| - 1] as int;
      BigEndianOfNumber(init);
      assert Number(b) == Number(init) * 256 + last;
      assert Number(b) / 256 == Number(init) && Number(b) % 256 == last;
      assert b == init + [b[|b| - 1]];
    }
  }

  /** The last byte is the lowest one. */
  lemma LastIsLowest(b: seq<byte>, last: byte)
    ensures Number(b + [last]) == 256 * Number(b) + last as int
  {
    assert (b + [last])[..|b|] == b;
  }

  lemma Powers()
    ensures Pow256(2) == MAX_UINT16 + 1
    ensures Pow256(4) == MAX_UINT32 + 1
    ensures Pow256(8) == MAX_UINT64 + 1
  {
    assert Pow256(1) == 256;
    assert Pow256(2) == 256 * 256;
    assert Pow256(3) == 256 * 256 * 256;
    assert Pow256(4) == 256 * 256 * 256 * 256;
    assert Pow256(5) == 256 * Pow256(4);
    assert Pow256(6) == 256 * Pow256(5);
    assert Pow256(7) == 256 * Pow256(6);
  }

  lemma U16RoundTrip(v: nat)
    requires v <= MAX_UINT16
    ensures Number(BigEndian(v, 2)) == v
  {
    Powers();
    NumberOfBigEndian(v, 2);
  }

  lemma U32RoundTrip(v: nat)
    requires v <= MAX_UINT32
    ensures Number(BigEndian(v, 4)) == v
  {
    Powers();
    NumberOfBigEndian(v, 4);
  }

  lemma U64RoundTrip(v: nat)
    requires v <= MAX_UINT64
    ensures Number(BigEndian(v, 8)) == v
  {
    Powers();
    NumberOfBigEndian(v, 8);
  }

  function Sum(s: seq<nat>): nat {
    if s == [] then 0 else s[0] + Sum(s[1..])
  }

  lemma {:induction false} SumAppend(s: seq<nat>, t: seq<nat>)
    ensures Sum(s + t) == Sum(s) + Sum(t)
  {
    if s == [] {
      assert s + t == t;
    } else {
      assert (s + t)[1..] == s[1..] + t;
      SumAppend(s[1..], t);
    }
  }

  lemma SumRemove(s: seq<nat>, i: nat)
    requires i < |s|
    ensures Sum(s[..i] + s[i + 1..]) == Sum(s) - s[i]
  {
    SumAppend(s[..i], s[i + 1..]);
    SumAppend(s[..i], s[i..]);
    assert s == s[..i] + s[i..];
  }

  function Concat<T>(parts: seq<seq<T>>): seq<T> {
    if parts == [] then [] else parts[0] + Concat(parts[1..])
  }

  lemma {:induction false} ConcatAppend<T>(a: seq<seq<T>>, b: seq<seq<T>>)
    ensures Concat(a + b) == Concat(a) + Concat(b)
  {
    if a == [] {
      assert a + b == b;
    } else {
      assert (a + b)[1..] == a[1..] + b;
      ConcatAppend(a[1..], b);
    }
  }

  lemma ConcatSnoc<T>(parts: seq<seq<T>>, last: seq<T>)
    ensures Concat(parts + [last]) == Concat(parts) + last
  {
    ConcatAppend(parts, [last]);
    assert [last][1..] == [];
  }

  lemma ConcatCons<T>(first: seq<T>, parts: seq<seq<T>>)
    ensures Concat([first] + parts) == first + Concat(parts)
  {
    assert ([first] + parts)[1..] == parts;
  }

  lemma Regroup<T>(a: seq<T>, b: seq<T>, c: seq<T>)
    ensures (a + b) + c == a + (b + c)
  {
  }
}
