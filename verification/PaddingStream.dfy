/**
 The padded byte stream of the proxy protocol, described without parser state. The first eight
 writes are framed: a 16-bit length, an 8-bit padding size, the data, the padding. Every later
 write goes out as it is.
 */
module PaddingStream {
  import opened Bytes

  const PADDING_COUNT := 8
  const MAX_CHUNK := 65535
  const FRAME_HEADER := 3

  /** One write of the sender, with the amount of padding drawn for it. */
  datatype Write = Write(data: seq<byte>, padding: byte)

  /** The length of every write that will be framed fits its length field. */
  ghost predicate Framable(k: nat, writes: seq<Write>) {
    forall i :: 0 <= i < |writes| && k + i < PADDING_COUNT ==> |writes[i].data| <= MAX_CHUNK
  }

  function Data(writes: seq<Write>): seq<byte> {
    if writes == [] then [] else writes[0].data + Data(writes[1..])
  }

  function Zeros(n: nat): (r: seq<byte>)
    ensures |r| == n
  {
    seq(n, i => 0)
  }

  function Frame(w: Write): seq<byte> {
    PutBigEndian16(|w.data|) + [w.padding] + w.data + Zeros(w.padding)
  }

  /** The count of framed writes after one more. */
  function Next(k: nat): nat {
    if k < PADDING_COUNT then k + 1 else k
  }

  function EncodeOne(k: nat, w: Write): seq<byte> {
    if k < PADDING_COUNT then Frame(w) else w.data
  }

  function Encode(k: nat, writes: seq<Write>): seq<byte>
    decreases |writes|
  {
    if writes == [] then [] else EncodeOne(k, writes[0]) + Encode(Next(k), writes[1..])
  }

  function Advance(k: nat, n: nat): nat
    decreases n
  {
    if n == 0 then k else Advance(Next(k), n - 1)
  }

  /**
   All the data a reader will ever get out of the wire w, when it has read k frame headers and
   `data` bytes of data and then `padding` bytes of padding are still to come.
   */
  function Payload(k: nat, data: nat, padding: nat, w: seq<byte>): seq<byte>
    decreases |w|
  {
    if data > 0 then if |w| <= data then w else w[..data] + Payload(k, 0, padding, w[data..])
    else if padding > 0 then if |w| < padding then [] else Payload(k, 0, 0, w[padding..])
    else if k < PADDING_COUNT then
      if |w| < FRAME_HEADER then [] else Payload(k + 1, BigEndian16(w[..2]), w[2], w[FRAME_HEADER..])
    else w
  }

  /** What a reader knows: headers read, data and padding still due, and the wire to come. */
  datatype Reader = Reader(k: nat, data: nat, padding: nat, w: seq<byte>)

  /** Going from one state of a reader to another gives up exactly the bytes got. */
  ghost predicate Yields(from: Reader, got: seq<byte>, to: Reader) {
    Payload(from.k, from.data, from.padding, from.w) == got + Payload(to.k, to.data, to.padding, to.w)
  }

  /** Data of a frame that is due: any part of it that fits. */
  ghost predicate ReadsDue(from: Reader, room: nat, n: nat, got: seq<byte>, to: Reader) {
    && n <= Min(room, from.data) && n <= |from.w| && (room > 0 ==> n > 0)
    && got == from.w[..n] && to == Reader(from.k, from.data - n, from.padding, from.w[n..])
  }

  /** The next header and the first part of its data. */
  ghost predicate ReadsFrame(k: nat, w: seq<byte>, room: nat, n: nat, got: seq<byte>, to: Reader) {
    && FRAME_HEADER <= |w|
    && var size := BigEndian16(w[..2]);
       && n <= Min(room, size) && FRAME_HEADER + n <= |w| && (room > 0 && size > 0 ==> n > 0)
       && got == w[FRAME_HEADER..FRAME_HEADER + n] && to == Reader(k + 1, size - n, w[2], w[FRAME_HEADER + n..])
  }

  ghost predicate ReadsRaw(k: nat, w: seq<byte>, room: nat, n: nat, got: seq<byte>, to: Reader) {
    n <= room && n <= |w| && (room > 0 ==> n > 0) && got == w[..n] && to == Reader(k, 0, 0, w[n..])
  }

  /**
   One successful read into a buffer with room for `room` bytes that got n of them: the remaining
   padding is skipped and a header read when there are any, and what was got comes next.
   */
  ghost predicate Reads(from: Reader, room: nat, n: nat, got: seq<byte>, to: Reader) {
    if from.data > 0 then ReadsDue(from, room, n, got, to)
    else
      && from.padding <= |from.w|
      && if from.k < PADDING_COUNT then ReadsFrame(from.k, from.w[from.padding..], room, n, got, to)
         else ReadsRaw(from.k, from.w[from.padding..], room, n, got, to)
  }

  /** Reads compose: what two runs of reads give up is what they give up together. */
  lemma YieldsCompose(a: Reader, got: seq<byte>, b: Reader, more: seq<byte>, c: Reader)
    requires Yields(a, got, b) && Yields(b, more, c)
    ensures Yields(a, got + more, c)
  {
    Associative(got, more, Payload(c.k, c.data, c.padding, c.w));
  }

  lemma ReadsDueYield(from: Reader, room: nat, n: nat, got: seq<byte>, to: Reader)
    requires from.data > 0 && ReadsDue(from, room, n, got, to)
    ensures Yields(from, got, to)
  {
    PayloadData(from.k, from.data, from.padding, from.w, n);
  }

  lemma ReadsFrameYield(k: nat, w: seq<byte>, room: nat, n: nat, got: seq<byte>, to: Reader)
    requires k < PADDING_COUNT && ReadsFrame(k, w, room, n, got, to)
    ensures Yields(Reader(k, 0, 0, w), got, to)
  {
    PayloadAfterHeader(k, w, n);
  }

  lemma ReadsRawYield(k: nat, w: seq<byte>, room: nat, n: nat, got: seq<byte>, to: Reader)
    requires k >= PADDING_COUNT && ReadsRaw(k, w, room, n, got, to)
    ensures Yields(Reader(k, 0, 0, w), got, to)
  {
    PayloadRaw(k, w, n);
  }

  /** Whatever n is, a successful read gives up exactly the bytes it got. */
  lemma ReadsYield(from: Reader, room: nat, n: nat, got: seq<byte>, to: Reader)
    requires Reads(from, room, n, got, to)
    ensures Yields(from, got, to)
  {
    if from.data > 0 {
      ReadsDueYield(from, room, n, got, to);
    } else {
      var w := from.w[from.padding..];
      PayloadPadding(from.k, from.padding, from.w);
      if from.k < PADDING_COUNT {
        ReadsFrameYield(from.k, w, room, n, got, to);
      } else {
        ReadsRawYield(from.k, w, room, n, got, to);
      }
      YieldsCompose(from, [], Reader(from.k, 0, 0, w), got, to);
      assert [] + got == got;
    }
  }

  /** It also takes at least one byte off the wire. */
  lemma ReadsShorten(from: Reader, room: nat, n: nat, got: seq<byte>, to: Reader)
    requires Reads(from, room, n, got, to) && room > 0
    ensures |to.w| < |from.w|
  {
  }

  // ---------- round trip ----------

  /** The data of a frame may be taken in any number of pieces. */
  lemma PayloadData(k: nat, data: nat, padding: nat, w: seq<byte>, n: nat)
    requires n <= data && n <= |w|
    ensures Yields(Reader(k, data, padding, w), w[..n], Reader(k, data - n, padding, w[n..]))
  {
    if n < data && |w| > data {
      assert w[n..][data - n..] == w[data..];
      assert w[..data] == w[..n] + w[n..][..data - n];
    } else if n < data {
      assert w == w[..n] + w[n..];
    } else if data > 0 && |w| == data {
      assert w[..n] == w && w[n..] == [];
      assert Payload(k, 0, padding, []) == [];
    }
  }

  lemma PayloadPadding(k: nat, padding: nat, w: seq<byte>)
    requires padding <= |w|
    ensures Yields(Reader(k, 0, padding, w), [], Reader(k, 0, 0, w[padding..]))
  {
  }

  /** A header read from the wire, followed by the first n bytes of its data. */
  lemma PayloadAfterHeader(k: nat, w: seq<byte>, n: nat)
    requires k < PADDING_COUNT && FRAME_HEADER + n <= |w| && n <= BigEndian16(w[..2])
    ensures Yields(Reader(k, 0, 0, w), w[FRAME_HEADER..FRAME_HEADER + n],
                   Reader(k + 1, BigEndian16(w[..2]) - n, w[2], w[FRAME_HEADER + n..]))
  {
    PayloadData(k + 1, BigEndian16(w[..2]), w[2], w[FRAME_HEADER..], n);
    assert w[FRAME_HEADER..][..n] == w[FRAME_HEADER..FRAME_HEADER + n];
    assert w[FRAME_HEADER..][n..] == w[FRAME_HEADER + n..];
  }

  lemma PayloadRaw(k: nat, w: seq<byte>, n: nat)
    requires k >= PADDING_COUNT && n <= |w|
    ensures Yields(Reader(k, 0, 0, w), w[..n], Reader(k, 0, 0, w[n..]))
  {
    assert w == w[..n] + w[n..];
  }

  lemma PayloadHeader(k: nat, w: Write, rest: seq<byte>)
    requires k < PADDING_COUNT && |w.data| <= MAX_CHUNK
    ensures Payload(k, 0, 0, Frame(w) + rest) == Payload(k + 1, |w.data|, w.padding, w.data + Zeros(w.padding) + rest)
  {
    var s := Frame(w) + rest;
    BigEndian16RoundTrip(|w.data|);
    assert s[..2] == PutBigEndian16(|w.data|);
    assert s[FRAME_HEADER..] == w.data + Zeros(w.padding) + rest;
  }

  /** A frame in front of any wire contributes exactly its data. */
  lemma PayloadFrame(k: nat, w: Write, rest: seq<byte>)
    requires k < PADDING_COUNT && |w.data| <= MAX_CHUNK
    ensures Payload(k, 0, 0, Frame(w) + rest) == w.data + Payload(k + 1, 0, 0, rest)
  {
    PayloadHeader(k, w, rest);
    var s := w.data + Zeros(w.padding) + rest;
    PayloadData(k + 1, |w.data|, w.padding, s, |w.data|);
    assert s[..|w.data|] == w.data && s[|w.data|..] == Zeros(w.padding) + rest;
    assert (Zeros(w.padding) + rest)[w.padding..] == rest;
  }

  /** The reader gets back exactly what was written, over the framed writes and beyond them. */
  lemma {:induction false} RoundTrip(k: nat, writes: seq<Write>)
    requires Framable(k, writes)
    ensures Payload(k, 0, 0, Encode(k, writes)) == Data(writes)
    decreases |writes|
  {
    if writes != [] {
      RoundTrip(Next(k), writes[1..]);
      if k < PADDING_COUNT {
        PayloadFrame(k, writes[0], Encode(k + 1, writes[1..]));
      }
    }
  }

  ghost predicate Grows(k: nat, data: nat, padding: nat, w: seq<byte>, x: seq<byte>) {
    Payload(k, data, padding, w) <= Payload(k, data, padding, w + x)
  }

  lemma GrowsInData(k: nat, data: nat, padding: nat, w: seq<byte>, x: seq<byte>)
    requires data > 0 && (|w| > data ==> Grows(k, 0, padding, w[data..], x))
    ensures Grows(k, data, padding, w, x)
  {
    if |w| > data {
      assert (w + x)[data..] == w[data..] + x && (w + x)[..data] == w[..data];
    } else {
      PayloadData(k, data, padding, w + x, |w|);
      assert (w + x)[..|w|] == w;
    }
  }

  lemma GrowsInPadding(k: nat, padding: nat, w: seq<byte>, x: seq<byte>)
    requires padding > 0 && (|w| >= padding ==> Grows(k, 0, 0, w[padding..], x))
    ensures Grows(k, 0, padding, w, x)
  {
    if |w| >= padding {
      assert (w + x)[padding..] == w[padding..] + x;
    }
  }

  lemma GrowsInHeader(k: nat, w: seq<byte>, x: seq<byte>)
    requires k < PADDING_COUNT
    requires |w| >= FRAME_HEADER ==> Grows(k + 1, BigEndian16(w[..2]), w[2], w[FRAME_HEADER..], x)
    ensures Grows(k, 0, 0, w, x)
  {
    if |w| >= FRAME_HEADER {
      var s := w + x;
      assert s[..2] == w[..2] && s[2] == w[2] && s[FRAME_HEADER..] == w[FRAME_HEADER..] + x;
    }
  }

  /** More wire only ever adds data at the end. */
  lemma {:induction false} PayloadGrows(k: nat, data: nat, padding: nat, w: seq<byte>, x: seq<byte>)
    ensures Grows(k, data, padding, w, x)
    decreases |w|
  {
    if data > 0 {
      if |w| > data { PayloadGrows(k, 0, padding, w[data..], x); }
      GrowsInData(k, data, padding, w, x);
    } else if padding > 0 {
      if |w| >= padding { PayloadGrows(k, 0, 0, w[padding..], x); }
      GrowsInPadding(k, padding, w, x);
    } else if k < PADDING_COUNT {
      if |w| >= FRAME_HEADER { PayloadGrows(k + 1, BigEndian16(w[..2]), w[2], w[FRAME_HEADER..], x); }
      GrowsInHeader(k, w, x);
    }
  }

  /** A wire cut anywhere yields a prefix of what was written. */
  lemma CutAnywhere(writes: seq<Write>, w: seq<byte>)
    requires Framable(0, writes) && w <= Encode(0, writes)
    ensures Payload(0, 0, 0, w) <= Data(writes)
  {
    var all := Encode(0, writes);
    assert all == w + all[|w|..];
    PayloadGrows(0, 0, 0, w, all[|w|..]);
    RoundTrip(0, writes);
  }

  ghost predicate Snocs(k: nat, a: seq<Write>, w: Write) {
    Encode(k, a + [w]) == Encode(k, a) + EncodeOne(Advance(k, |a|), w)
  }

  lemma SnocsCons(k: nat, first: Write, a: seq<Write>, w: Write)
    requires Snocs(Next(k), a, w)
    ensures Snocs(k, [first] + a, w)
  {
    assert ([first] + a)[1..] == a;
    assert ([first] + a + [w])[0] == first && ([first] + a + [w])[1..] == a + [w];
  }

  lemma {:induction false} EncodeSnoc(k: nat, a: seq<Write>, w: Write)
    ensures Snocs(k, a, w)
    decreases |a|
  {
    if a == [] {
      assert (a + [w])[1..] == [];
    } else {
      EncodeSnoc(Next(k), a[1..], w);
      SnocsCons(k, a[0], a[1..], w);
      assert a == [a[0]] + a[1..];
    }
  }

  lemma {:induction false} DataSnoc(a: seq<Write>, w: Write)
    ensures Data(a + [w]) == Data(a) + w.data
  {
    if a == [] {
      assert a + [w] == [w];
    } else {
      DataSnoc(a[1..], w);
      assert (a + [w])[1..] == a[1..] + [w];
    }
  }

  lemma {:induction false} AdvanceSnoc(k: nat, n: nat)
    ensures Advance(k, n + 1) == Next(Advance(k, n))
    decreases n
  {
    if n > 0 { AdvanceSnoc(Next(k), n - 1); }
  }

  /** Every write is framed and counted until eight have been; then none is. */
  lemma {:induction false} AdvanceIsSum(k: nat, n: nat)
    ensures Advance(k, n) == if k >= 8 then k else if k + n < 8 then k + n else 8
    decreases n
  {
    if n > 0 { AdvanceIsSum(Next(k), n - 1); }
  }

  // ---------- when framing may be bypassed ----------

  /**
   Reading the wire directly gives the same bytes as the reader exactly when all eight headers
   have been read and no padding is due; data still due does not matter.
   */
  lemma RawReadingIsExact(k: nat, data: nat, padding: nat)
    ensures (forall w :: Payload(k, data, padding, w) == w) <==> k >= 8 && padding == 0
  {
    if k >= PADDING_COUNT && padding == 0 {
      forall w ensures Payload(k, data, padding, w) == w {
        if 0 < data < |w| {
          assert w == w[..data] + w[data..];
        }
      }
    } else {
      var w := Zeros(data) + Zeros(padding + 1);
      PayloadData(k, data, padding, w, data);
      assert w[..data] == Zeros(data) && w[data..] == Zeros(padding + 1);
      if padding > 0 {
        assert |Zeros(padding + 1)[padding..]| == 1;
        assert |Payload(k, 0, padding, Zeros(padding + 1))| <= 1;
        assert Payload(k, data, padding, w) != w;
      } else {
        assert Payload(k, 0, 0, Zeros(1)) == [];
        assert Payload(k, data, padding, w) != w;
      }
    }
  }
}
