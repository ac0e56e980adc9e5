/**
 What the padding writer puts on the wire and the padding reader takes off it, byte by byte and with
 the numbers of the protocol written out: eight frames of a two-byte length, a one-byte padding size,
 the data and zeros, and then nothing but data.
 */
module PaddingWire {
  import opened Bytes
  import opened PaddingStream

  ghost predicate IsFrame(f: seq<byte>, data: seq<byte>, padding: byte) {
    && |f| == 3 + |data| + padding as nat
    && 256 * f[0] as nat + f[1] as nat == |data| && f[2] == padding
    && f[3..3 + |data|] == data
    && forall i :: 3 + |data| <= i < |f| ==> f[i] == 0
  }

  /** The first eight writes go out as frames, every later one as it is. */
  lemma FirstEightAreFramed(k: nat, w: Write)
    requires k < 8 ==> |w.data| <= 65535
    ensures if k < 8 then IsFrame(EncodeOne(k, w), w.data, w.padding) else EncodeOne(k, w) == w.data
    ensures EncodeOne(k, w) == Frame(w) <==> k < 8
  {
    if k < 8 {
      var f := Frame(w);
      assert f[3..3 + |w.data|] == w.data;
    }
  }

  /** What framing adds to some writes: three header bytes and the padding of each. */
  function Overhead(writes: seq<Write>): nat {
    if writes == [] then 0 else 3 + writes[0].padding as nat + Overhead(writes[1..])
  }

  /** How many of n writes are framed when k have been framed before. */
  function FramedOf(k: nat, n: nat): nat {
    if k + n <= 8 then n else if k < 8 then 8 - k else 0
  }

  lemma {:induction false} LengthFrom(k: nat, writes: seq<Write>)
    requires k <= 8
    ensures |Encode(k, writes)| == |Data(writes)| + Overhead(writes[..FramedOf(k, |writes|)])
    decreases |writes|
  {
    if writes != [] {
      var n := FramedOf(k, |writes|);
      LengthFrom(Next(k), writes[1..]);
      if n > 0 { assert writes[..n][1..] == writes[1..][..n - 1]; }
    }
  }

  /** The wire is as long as the data and what framing adds to the first eight writes. */
  lemma WireLength(writes: seq<Write>)
    ensures |Encode(0, writes)| ==
              |Data(writes)| + Overhead(if |writes| <= 8 then writes else writes[..8])
  {
    LengthFrom(0, writes);
    if |writes| <= 8 { assert writes[..|writes|] == writes; }
  }

  lemma {:induction false} RawFrom(k: nat, writes: seq<Write>)
    requires k <= 8 && |writes| >= 8 - k
    ensures Encode(k, writes) == Encode(k, writes[..8 - k]) + Data(writes[8 - k..])
    decreases |writes|
  {
    if k == 8 {
      if writes != [] {
        RawFrom(8, writes[1..]);
        assert writes[1..][..0] == [] && writes[1..][0..] == writes[1..];
      }
      assert writes[..0] == [] && writes[0..] == writes;
    } else {
      RawFrom(k + 1, writes[1..]);
      assert writes[..8 - k][1..] == writes[1..][..7 - k] && writes[8 - k..] == writes[1..][7 - k..];
      Associative(Frame(writes[0]), Encode(k + 1, writes[1..][..7 - k]), Data(writes[8 - k..]));
    }
  }

  /** Behind the frames of the first eight writes there is only data. */
  lemma OnlyDataBehindEight(writes: seq<Write>)
    requires |writes| >= 8
    ensures Encode(0, writes) == Encode(0, writes[..8]) + Data(writes[8..])
  {
    RawFrom(0, writes);
  }

  /**
   One successful read takes the padding that is due and a header, exactly while fewer than eight
   headers have been read, besides the data that it gives out; the header says what is due next.
   */
  lemma OneRead(from: Reader, room: nat, n: nat, got: seq<byte>, to: Reader)
    requires Reads(from, room, n, got, to)
    ensures from.data > 0 ==> to == Reader(from.k, from.data - n, from.padding, from.w[n..]) && got == from.w[..n]
    ensures from.data == 0 && from.k < 8 ==>
              var w := from.w[from.padding..];
              && |w| >= 3 + n && got == w[3..3 + n] && to.w == w[3 + n..]
              && to.k == from.k + 1 && to.data + n == 256 * w[0] as nat + w[1] as nat && to.padding == w[2] as nat
    ensures from.data == 0 && from.k >= 8 ==>
              var w := from.w[from.padding..];
              |w| >= n && got == w[..n] && to == Reader(from.k, 0, 0, w[n..])
  {
  }
}
