/** The padding writer and the padding reader, joined by a transport that may cut the stream anywhere. */
module PaddingEndToEnd {
  import opened Bytes
  import opened ByteSources
  import opened PaddingStream
  import opened PaddingWire
  import opened PaddingConns

  lemma SentSplit(k: nat, wire: seq<byte>, a: seq<Write>, k1: nat, wire1: seq<byte>, b: seq<Write>, k2: nat,
      wire2: seq<byte>)
    requires Sent(k, wire, a, k1, wire1) && Sent(k1, wire1, b, k2, wire2)
    ensures Sent(k, wire, a + b, k2, wire2)
    decreases |b|
  {
    if b == [] {
      assert a + b == a;
      assert Encode(k1, []) == [];
    } else {
      var w := b[0];
      SentHead(k1, wire1, b, k2, wire2);
      SentOneMore(k, wire, a, k1, wire1, w);
      SentSplit(k, wire, a + [w], Next(k1), wire1 + EncodeOne(k1, w), b[1..], k2, wire2);
      assert a + [w] + b[1..] == a + b;
    }
  }

  lemma SentHead(k: nat, wire: seq<byte>, b: seq<Write>, k2: nat, wire2: seq<byte>)
    requires b != [] && Sent(k, wire, b, k2, wire2)
    ensures Sent(Next(k), wire + EncodeOne(k, b[0]), b[1..], k2, wire2)
  {
    Associative(wire, EncodeOne(k, b[0]), Encode(Next(k), b[1..]));
    forall i | 0 <= i < |b[1..]| && Next(k) + i < PADDING_COUNT ensures |b[1..][i].data| <= MAX_CHUNK {
      assert b[1..][i] == b[i + 1];
    }
  }

  lemma {:induction false} DataAppend(a: seq<Write>, b: seq<Write>)
    ensures Data(a + b) == Data(a) + Data(b)
  {
    if a == [] {
      assert a + b == b;
    } else {
      assert (a + b)[1..] == a[1..] + b;
      DataAppend(a[1..], b);
      Associative(a[0].data, Data(a[1..]), Data(b));
    }
  }

  /** Writes that succeeded, followed by writes of which the last failed. */
  lemma SentThenPart(a: seq<Write>, k: nat, wire: seq<byte>, b: seq<Write>, wire': seq<byte>)
    requires Sent(0, [], a, k, wire) && SentPart(k, wire, b, wire')
    ensures SentPart(0, [], a + b, wire')
  {
    SentSplit(0, [], a, k, wire, b, Advance(k, |b|), wire + Encode(k, b));
  }

  lemma ConcatPrefix(pieces: seq<seq<byte>>, n: nat)
    requires n <= |pieces|
    ensures Concat(pieces[..n]) <= Concat(pieces)
  {
    ConcatAppend(pieces[..n], pieces[n..]);
    assert pieces[..n] + pieces[n..] == pieces;
  }

  /** Each of the eight frames adds a header and at most 255 bytes of padding to its data. */
  lemma {:induction false} WireBound(k: nat, writes: seq<Write>)
    requires k <= 8
    ensures |Encode(k, writes)| <= |Data(writes)| + 258 * (8 - k)
    decreases |writes|
  {
    if writes != [] { WireBound(Next(k), writes[1..]); }
  }

  /** Sends one piece, as bytes or in a buffer with room around it. */
  method SendPiece(conn: PaddingConn, sink: ByteSink, piece: seq<byte>)
      returns (err: Option<IoError>, ghost sent: seq<Write>)
    modifies conn, sink
    ensures err == None ==>
              && Sent(old(conn.writePadding), old(sink.wire), sent, conn.writePadding, sink.wire) && Data(sent) == piece
    ensures err.Some? ==>
              && SentPart(old(conn.writePadding), old(sink.wire), sent, sink.wire) && Data(sent) <= piece
    ensures sink.clean ==> err == None
  {
    var buffered: bool := *;
    if buffered {
      var buffer := new Buffer(piece, conn.FrontHeadroom(), conn.RearHeadroom());
      err, sent := conn.WriteBuffer(sink, buffer);
    } else {
      var n;
      n, err, sent := conn.WriteChunked(sink, piece);
    }
  }

  /**
   Sends pieces of data of any size until a write fails. The wire is always what a writer of some
   prefix of the data sends, up to where it was cut off.
   */
  method Send(pieces: seq<seq<byte>>, clean: bool) returns (wire: seq<byte>, err: Option<IoError>,
      ghost sent: seq<Write>)
    ensures Framable(0, sent) && wire <= Encode(0, sent) && Data(sent) <= Concat(pieces)
    ensures err == None ==> wire == Encode(0, sent) && Data(sent) == Concat(pieces)
    ensures err == None ==> |wire| == |Concat(pieces)| + Overhead(if |sent| <= 8 then sent else sent[..8])
    ensures clean ==> err == None
  {
    var conn := new PaddingConn();
    var sink := new ByteSink(clean);
    sent, err := [], None;
    SentNothing(0, []);
    for i := 0 to |pieces|
      invariant fresh(conn) && fresh(sink) && sink.clean == clean && err == None
      invariant Sent(0, [], sent, conn.writePadding, sink.wire) && Data(sent) == Concat(pieces[..i])
    {
      ghost var k, before := conn.writePadding, sink.wire;
      ghost var more;
      err, more := SendPiece(conn, sink, pieces[i]);
      DataAppend(sent, more);
      assert pieces[..i + 1] == pieces[..i] + [pieces[i]];
      ConcatSnoc(pieces[..i], pieces[i]);
      if err.Some? {
        SentThenPart(sent, k, before, more, sink.wire);
        ConcatPrefix(pieces, i + 1);
        sent := sent + more;
        return sink.wire, err, sent;
      }
      SentSplit(0, [], sent, k, before, more, conn.writePadding, sink.wire);
      sent := sent + more;
    }
    assert pieces[..|pieces|] == pieces;
    wire := sink.wire;
    WireLength(sent);
  }

  /** What has been read is what a reader of this wire gets. */
  ghost predicate Receiving(conn: PaddingConn, source: ByteSource, wire: seq<byte>, received: seq<byte>)
    reads conn, source
  {
    source.strict && Yields(Reader(0, 0, 0, wire), received, conn.Reading(source))
  }

  /** A read that meets the end of the wire has nothing left to read. */
  lemma NothingAtTheEnd(from: Reader, lost: nat, to: Reader)
    requires Fails(from, lost, to) && to.w == []
    ensures Payload(from.k, from.data, from.padding, from.w) == []
  {
    if from.data == 0 && from.k < PADDING_COUNT && from.padding <= |from.w| {
      var w := from.w[from.padding..];
      assert |w| <= FRAME_HEADER;
      if |w| == FRAME_HEADER {
        assert w[FRAME_HEADER..] == [];
        assert Payload(from.k + 1, BigEndian16(w[..2]), w[2], []) == [];
      }
    }
  }

  /** One read with a buffer of the given size; `ended` says that it met the end of the wire. */
  method ReceiveSome(conn: PaddingConn, source: ByteSource, size: nat, ghost wire: seq<byte>, ghost received: seq<byte>)
      returns (more: seq<byte>, err: Option<IoError>, ended: bool)
    requires Receiving(conn, source, wire, received)
    modifies conn, source
    ensures err == None ==> Receiving(conn, source, wire, received + more) && |source.wire| <= |old(source.wire)|
    ensures err == None && size > 0 ==> |source.wire| < |old(source.wire)|
    ensures err.Some? ==> more == []
    ensures ended ==> err.Some? && received == Payload(0, 0, 0, wire)
    ensures source.kind.Clean? && old(source.quota) == 0 ==> source.quota == 0 && (err.Some? ==> ended)
  {
    var buffer := new byte[size];
    ghost var before := conn.Reading(source);
    var n;
    ghost var lost;
    n, err, lost := conn.ReadWithPadding(source, buffer);
    ended := err.Some? && source.wire == [];
    ghost var after := conn.Reading(source);
    more := buffer[..n];
    if err == None {
      ReadsYield(before, size, n, more, after);
      YieldsCompose(Reader(0, 0, 0, wire), received, before, more, after);
      if size > 0 { ReadsShorten(before, size, n, more, after); }
    } else if ended {
      NothingAtTheEnd(before, lost, after);
    }
  }

  /** Reads with buffers of any size, also of none in between, until a read fails or the turns are over. */
  method Receive(wire: seq<byte>, kind: Kind, quota: nat, turns: nat) returns (received: seq<byte>, ended: bool)
    ensures received <= Payload(0, 0, 0, wire)
    ensures ended ==> received == Payload(0, 0, 0, wire)
    ensures kind.Clean? && quota == 0 && turns > |wire| ==> ended
  {
    var conn := new PaddingConn();
    var source := new ByteSource(wire, true, kind, quota);
    received, ended := [], false;
    for i := 0 to turns
      invariant fresh(conn) && fresh(source) && source.kind == kind
      invariant Receiving(conn, source, wire, received) && !ended && |source.wire| + i <= |wire|
      invariant kind.Clean? && quota == 0 ==> source.quota == 0
    {
      var idle: bool, size: int := *, *;
      var more, err;
      if idle {
        more, err, ended := ReceiveSome(conn, source, 0, wire, received);
        if err.Some? { return; }
        received := received + more;
      }
      more, err, ended := ReceiveSome(conn, source, if size < 1 then 1 else size, wire, received);
      if err.Some? { return; }
      received := received + more;
    }
  }

  /**
   The whole way: a prefix of the data is received whatever fails, and all of it when nothing was
   lost in sending and the end was met. When nothing fails at all, that end is met within a
   number of reads that depends only on the amount of data. On the wire are eight frames at most.
   */
  method Transmit(pieces: seq<seq<byte>>, clean: bool, kind: Kind, quota: nat, turns: nat)
      returns (received: seq<byte>, err: Option<IoError>, ended: bool, wire: seq<byte>, ghost sent: seq<Write>)
    ensures Data(sent) <= Concat(pieces) && wire <= Encode(0, sent)
    ensures err == None ==> |wire| == |Concat(pieces)| + Overhead(if |sent| <= 8 then sent else sent[..8])
    ensures received <= Concat(pieces)
    ensures err == None && ended ==> received == Concat(pieces)
    ensures clean && kind.Clean? && quota == 0 && turns > |Concat(pieces)| + 2064 ==>
              err == None && ended && received == Concat(pieces)
  {
    var sendError;
    wire, sendError, sent := Send(pieces, clean);
    WireBound(0, sent);
    RoundTrip(0, sent);
    CutAnywhere(sent, wire);
    received, ended := Receive(wire, kind, quota, turns);
    err := sendError;
  }
}
