/** Bytes, optional values and the small sequence facts shared by the codecs. */
module Bytes {
  type byte = b: int | 0 <= b < 256

  datatype Option<+T> = None | Some(value: T)

  /** An error sticks: a later one does not replace it. */
  function FirstError<E>(err: Option<E>, e: E): Option<E> {
    if err.Some? then err else Some(e)
  }

  function Min(a: int, b: int): (r: int)
    ensures r <= a && r <= b && (r == a || r == b)
  {
    if a <= b then a else b
  }

  /** The concatenation of a sequence of chunks. */
  function Concat(chunks: seq<seq<byte>>): seq<byte> {
    if chunks == [] then [] else chunks[0] + Concat(chunks[1..])
  }

  lemma {:induction false} ConcatAppend(a: seq<seq<byte>>, b: seq<seq<byte>>)
    ensures Concat(a + b) == Concat(a) + Concat(b)
  {
    if a == [] {
      assert a + b == b;
    } else {
      ConcatAppend(a[1..], b);
      assert (a + b)[0] == a[0] && (a + b)[1..] == a[1..] + b;
    }
  }

  lemma ConcatSnoc(a: seq<seq<byte>>, x: seq<byte>)
    ensures Concat(a + [x]) == Concat(a) + x
  {
    ConcatAppend(a, [x]);
    assert Concat([x]) == x;
  }

  lemma Associative(a: seq<byte>, b: seq<byte>, c: seq<byte>)
    ensures a + (b + c) == a + b + c
  {
  }

  lemma Regroup(a: seq<byte>, b: seq<byte>, c: seq<byte>, d: seq<byte>)
    ensures a + b + (c + d) == a + (b + c + d)
  {
  }

  /** A prefix of a + b either ends inside a or goes on into b. */
  lemma SplitPrefix(a: seq<byte>, b: seq<byte>, w: seq<byte>)
    requires w <= a + b
    ensures if |w| < |a| then w <= a else w == a + w[|a|..] && w[|a|..] <= b
  {
    if |w| < |a| {
      assert w == (a + b)[..|w|] == a[..|w|];
    } else {
      assert w == (a + b)[..|w|];
    }
  }

  // ---------- big-endian integers ----------

  function BigEndian16(b: seq<byte>): nat
    requires |b| == 2
  {
    256 * (b[0] as int) + b[1] as int
  }

  function BigEndian32(b: seq<byte>): nat
    requires |b| == 4
  {
    0x1_0000 * (BigEndian16(b[..2]) as int) + BigEndian16(b[2..])
  }

  /** The low sixteen bits of v. */
  function PutBigEndian16(v: nat): (r: seq<byte>)
    ensures |r| == 2
  {
    [v / 256 % 256, v % 256]
  }

  /** The low thirty-two bits of v. */
  function PutBigEndian32(v: nat): (r: seq<byte>)
    ensures |r| == 4
  {
    PutBigEndian16(v / 0x1_0000) + PutBigEndian16(v)
  }

  lemma BigEndian16RoundTrip(v: nat)
    ensures BigEndian16(PutBigEndian16(v)) == v % 0x1_0000
  {
  }

  lemma BigEndian32RoundTrip(v: nat)
    requires v < 0x1_0000_0000
    ensures BigEndian32(PutBigEndian32(v)) == v
  {
    var r := PutBigEndian32(v);
    assert r[..2] == PutBigEndian16(v / 0x1_0000) && r[2..] == PutBigEndian16(v);
    BigEndian16RoundTrip(v / 0x1_0000);
    BigEndian16RoundTrip(v);
  }
}
