/** The two directions of a padded connection and the state each of them keeps between calls. */
module PaddingConns {
  import opened Bytes
  import opened ByteSources
  import opened PaddingStream
  import opened PaddingWire

  /** Where written bytes go: a write succeeds as a whole, or fails and leaves a part behind. */
  class ByteSink {
    var wire: seq<byte>
    /** Whether every write succeeds. */
    const clean: bool
    /** How often Write has been called, and what the last call said. */
    ghost var calls: nat
    ghost var last: Option<IoError>

    constructor (clean: bool)
      ensures wire == [] && this.clean == clean && calls == 0
    {
      wire, this.clean, calls, last := [], clean, 0, None;
    }

    /** Since the given moment a write has been made, and the last one said e. */
    ghost predicate Said(calls0: nat, e: Option<IoError>)
      reads this
    {
      calls0 < calls && last == e && (clean ==> e == None)
    }

    method Write(data: seq<byte>) returns (n: nat, err: Option<IoError>)
      modifies this
      ensures n <= |data| && wire == old(wire) + data[..n]
      ensures err == None <==> n == |data|
      ensures calls == old(calls) + 1 && last == err && (clean ==> err == None)
    {
      var k: int := *;
      n := if !clean && 0 <= k < |data| then k else |data|;
      err := if n == |data| then None else Some(ClosedPipe);
      wire, calls, last := wire + data[..n], calls + 1, err;
    }
  }

  /** A byte buffer with spare room before and after its content. */
  class Buffer {
    const data: array<byte>
    var start: nat
    var end: nat

    ghost predicate Valid()
      reads this
    {
      start <= end <= data.Length
    }

    function Content(): seq<byte>
      requires Valid()
      reads this, data
    {
      data[start..end]
    }

    constructor (content: seq<byte>, front: nat, rear: nat)
      ensures Valid() && fresh(data) && Content() == content
      ensures start == front && data.Length - end == rear
    {
      data := new byte[front + |content| + rear];
      start, end := front, front + |content|;
      new;
      forall i | 0 <= i < |content| { data[front + i] := content[i]; }
    }

    /** Puts three bytes in front of the content. */
    method ExtendHeader(header: seq<byte>)
      requires Valid() && |header| == FRAME_HEADER <= start
      modifies `start, data
      ensures Valid() && Content() == header + old(Content()) && start == old(start) - FRAME_HEADER
    {
      start := start - FRAME_HEADER;
      data[start], data[start + 1], data[start + 2] := header[0], header[1], header[2];
    }

    method WriteZeroN(n: nat)
      requires Valid() && end + n <= data.Length
      modifies `end, data
      ensures Valid() && Content() == old(Content()) + Zeros(n)
    {
      forall i | 0 <= i < n { data[end + i] := 0; }
      end := end + n;
    }
  }

  /** A writer that had framed k writes has sent `sent`: the wire and the count say so. */
  ghost predicate Sent(k: nat, wire: seq<byte>, sent: seq<Write>, k': nat, wire': seq<byte>) {
    Framable(k, sent) && wire' == wire + Encode(k, sent) && k' == Advance(k, |sent|)
  }

  lemma SentNothing(k: nat, wire: seq<byte>)
    ensures Sent(k, wire, [], k, wire)
  {
    assert wire + [] == wire;
  }

  /** A failed write has sent a part of what it was to send. */
  ghost predicate Part(wire: seq<byte>, whole: seq<byte>, wire': seq<byte>) {
    wire <= wire' && wire' <= wire + whole
  }

  ghost predicate SentPart(k: nat, wire: seq<byte>, sent: seq<Write>, wire': seq<byte>) {
    Framable(k, sent) && Part(wire, Encode(k, sent), wire')
  }

  /** Writes that succeeded, followed by one that failed. */
  lemma SentAPart(k: nat, wire: seq<byte>, sent: seq<Write>, k': nat, wire': seq<byte>, w: Write, wire'': seq<byte>)
    requires Sent(k, wire, sent, k', wire') && (k' < PADDING_COUNT ==> |w.data| <= MAX_CHUNK)
    requires Part(wire', EncodeOne(k', w), wire'')
    ensures SentPart(k, wire, sent + [w], wire'')
  {
    SentOneMore(k, wire, sent, k', wire', w);
  }

  /** One more write, which has to be short only if it is framed. */
  lemma SentOneMore(k: nat, wire: seq<byte>, sent: seq<Write>, k': nat, wire': seq<byte>, w: Write)
    requires Sent(k, wire, sent, k', wire') && (k' < PADDING_COUNT ==> |w.data| <= MAX_CHUNK)
    ensures Sent(k, wire, sent + [w], Next(k'), wire' + EncodeOne(k', w))
  {
    EncodeSnoc(k, sent, w);
    AdvanceSnoc(k, |sent|);
    AdvanceIsSum(k, |sent|);
    Associative(wire, Encode(k, sent), EncodeOne(k', w));
  }

  /** A read may fail when `lost` bytes of the wire have gone by: not in the middle of data. */
  ghost predicate CanFail(from: Reader, lost: nat) {
    && lost <= |from.w|
    && if from.data > 0 then lost == 0
       else if from.k < PADDING_COUNT then
         && lost <= from.padding + FRAME_HEADER
         && (lost == from.padding + FRAME_HEADER ==> BigEndian16(from.w[from.padding..][..2]) > 0)
       else lost <= from.padding
  }

  /** What it remembers then: padding only as a whole, and nothing of a header. */
  function AfterFailure(from: Reader, lost: nat): Reader
    requires lost <= |from.w|
  {
    if from.data > 0 then from
    else Reader(from.k, 0, if lost < from.padding then from.padding else 0, from.w[lost..])
  }

  ghost predicate Fails(from: Reader, lost: nat, to: Reader) {
    CanFail(from, lost) && to == AfterFailure(from, lost)
  }

  /** The error that the caller is told: an end of file inside a header is unexpected. */
  function Relayed(from: Reader, lost: nat, told: IoError): IoError {
    var inHeader := from.data == 0 && from.k < PADDING_COUNT && from.padding < lost < from.padding + FRAME_HEADER;
    if told == Eof && inHeader then UnexpectedEof else told
  }

  /** What happens behind the padding happens to the whole read. */
  lemma BehindPadding(from: Reader, lost: nat, to: Reader, told: IoError)
    requires from.data == 0 && from.padding <= |from.w|
    requires Fails(Reader(from.k, 0, 0, from.w[from.padding..]), lost, to)
    ensures Fails(from, from.padding + lost, to)
    ensures Relayed(from, from.padding + lost, told) ==
              Relayed(Reader(from.k, 0, 0, from.w[from.padding..]), lost, told)
  {
    assert from.w[from.padding..][lost..] == from.w[from.padding + lost..];
  }

  lemma ReadsBehindPadding(from: Reader, room: nat, n: nat, got: seq<byte>, to: Reader)
    requires from.data == 0 && from.padding <= |from.w|
    requires Reads(Reader(from.k, 0, 0, from.w[from.padding..]), room, n, got, to)
    ensures Reads(from, room, n, got, to)
  {
    assert from.w[from.padding..][0..] == from.w[from.padding..];
  }

  class PaddingConn {
    var readPadding: nat
    var writePadding: nat
    var readRemaining: nat
    var paddingRemaining: nat

    constructor ()
      ensures readPadding == 0 && writePadding == 0 && readRemaining == 0 && paddingRemaining == 0
    {
      readPadding, writePadding, readRemaining, paddingRemaining := 0, 0, 0, 0;
    }

    /** The reading half together with the wire in front of it. */
    ghost function Reading(source: ByteSource): Reader
      reads `readPadding, `readRemaining, `paddingRemaining, source
    {
      Reader(readPadding, readRemaining, paddingRemaining, source.wire)
    }

    /**
     A successful read takes the next bytes of the data, whatever the size of the buffer and
     however little the transport delivers. A failed read returns none, after `lost` bytes of the
     wire have gone by; RetryIsSafe says when that does not matter.
     */
    method ReadWithPadding(source: ByteSource, buffer: array<byte>)
        returns (n: nat, err: Option<IoError>, ghost lost: nat)
      requires source.strict
      modifies `readPadding, `readRemaining, `paddingRemaining, source, buffer
      ensures n <= buffer.Length
      ensures source.Served(|old(source.wire)|, old(source.calls), old(source.quota), err.Some?)
      ensures err == None ==> Reads(old(Reading(source)), buffer.Length, n, buffer[..n], Reading(source))
      ensures err == None ==>
                readPadding == old(readPadding) + (if old(readRemaining) == 0 && old(readPadding) < 8 then 1 else 0)
      ensures err.Some? ==> n == 0 && Fails(old(Reading(source)), lost, Reading(source))
      ensures err.Some? ==> err.value == Relayed(old(Reading(source)), lost, Told(source.last))
    {
      if readRemaining > 0 {
        lost := 0;
        n, err := ReadRemaining(source, buffer);
      } else {
        n, err, lost := ReadBehind(source, buffer);
      }
    }

    /** A read when no data is due: first the padding that is due is skipped. */
    method ReadBehind(source: ByteSource, buffer: array<byte>)
        returns (n: nat, err: Option<IoError>, ghost lost: nat)
      requires source.strict && readRemaining == 0
      modifies `readPadding, `readRemaining, `paddingRemaining, source, buffer
      ensures n <= buffer.Length
      ensures source.Served(|old(source.wire)|, old(source.calls), old(source.quota), err.Some?)
      ensures err == None ==> Reads(old(Reading(source)), buffer.Length, n, buffer[..n], Reading(source))
      ensures err.Some? ==> n == 0 && Fails(old(Reading(source)), lost, Reading(source))
      ensures err.Some? ==> err.value == Relayed(old(Reading(source)), lost, Told(source.last))
    {
      ghost var from := Reading(source);
      err, lost := SkipPadding(source);
      if err.Some? { return 0, err, lost; }
      n, err, lost := ReadNext(source, buffer);
      if err.Some? {
        BehindPadding(from, lost, Reading(source), Told(source.last));
      } else {
        ReadsBehindPadding(from, buffer.Length, n, buffer[..n], Reading(source));
      }
      lost := from.padding + lost;
    }

    method SkipPadding(source: ByteSource) returns (err: Option<IoError>, ghost lost: nat)
      requires source.strict && readRemaining == 0
      modifies `paddingRemaining, source
      ensures source.Served(|old(source.wire)|, old(source.calls), old(source.quota), err.Some?)
      ensures err == None ==>
                && old(paddingRemaining) <= |old(source.wire)| && paddingRemaining == 0
                && source.wire == old(source.wire)[old(paddingRemaining)..]
      ensures err.Some? ==> Fails(old(Reading(source)), lost, Reading(source))
      ensures err.Some? ==> err.value == Relayed(old(Reading(source)), lost, Told(source.last))
    {
      lost := 0;
      err := None;
      assert source.wire[0..] == source.wire;
      if paddingRemaining > 0 {
        err, lost := SkipN(source, paddingRemaining);
        if err == None { paddingRemaining := 0; }
      }
    }

    /** A read when no data and no padding is due. */
    method ReadNext(source: ByteSource, buffer: array<byte>)
        returns (n: nat, err: Option<IoError>, ghost lost: nat)
      requires source.strict && readRemaining == 0 && paddingRemaining == 0
      modifies `readPadding, `readRemaining, `paddingRemaining, source, buffer
      ensures n <= buffer.Length
      ensures source.Served(|old(source.wire)|, old(source.calls), old(source.quota), err.Some?)
      ensures err == None ==> Reads(old(Reading(source)), buffer.Length, n, buffer[..n], Reading(source))
      ensures err.Some? ==> n == 0 && Fails(old(Reading(source)), lost, Reading(source))
      ensures err.Some? ==> err.value == Relayed(old(Reading(source)), lost, Told(source.last))
    {
      assert source.wire[0..] == source.wire;
      if readPadding < PADDING_COUNT {
        n, err, lost := ReadFrame(source, buffer);
      } else {
        n, err := ReadRaw(source, buffer);
        lost := 0;
      }
    }

    method ReadRemaining(source: ByteSource, buffer: array<byte>) returns (n: nat, err: Option<IoError>)
      requires source.strict && readRemaining > 0
      modifies `readRemaining, source, buffer
      ensures n <= buffer.Length
      ensures source.Served(|old(source.wire)|, old(source.calls), old(source.quota), err.Some?)
      ensures err == None ==> ReadsDue(old(Reading(source)), buffer.Length, n, buffer[..n], Reading(source))
      ensures err.Some? ==> n == 0 && Reading(source) == old(Reading(source)) && err.value == Told(source.last)
    {
      ghost var w := source.wire;
      n, err := source.Read(buffer, 0, Min(buffer.Length, readRemaining));
      if err.Some? { return; }
      assert buffer[..n] == w[..n];
      readRemaining := readRemaining - n;
    }

    /** The header is read into the front of the buffer when it fits, to be overwritten by data. */
    method ReadHeader(source: ByteSource, buffer: array<byte>)
        returns (dataSize: nat, paddingSize: byte, err: Option<IoError>, ghost took: nat)
      requires source.strict
      modifies source, buffer
      ensures took <= FRAME_HEADER && took <= |old(source.wire)| && source.wire == old(source.wire)[took..]
      ensures err == None <==> took == FRAME_HEADER
      ensures source.Served(|old(source.wire)|, old(source.calls), old(source.quota), err.Some?)
      ensures err.Some? ==>
                err.value == if Told(source.last) == Eof && took > 0 then UnexpectedEof else Told(source.last)
      ensures err == None ==> dataSize == BigEndian16(old(source.wire)[..2]) && paddingSize == old(source.wire)[2]
    {
      ghost var w := source.wire;
      var header := buffer;
      if buffer.Length < FRAME_HEADER { header := new byte[FRAME_HEADER]; }
      err, took := ReadFull(source, header, FRAME_HEADER);
      if err.Some? { return 0, 0, err, took; }
      assert header[..2] == header[..FRAME_HEADER][..2] == w[..2];
      dataSize, paddingSize := BigEndian16(header[..2]), header[2];
    }

    method ReadFrame(source: ByteSource, buffer: array<byte>) returns (n: nat, err: Option<IoError>, ghost lost: nat)
      requires source.strict && readRemaining == 0 && paddingRemaining == 0 && readPadding < PADDING_COUNT
      modifies `readPadding, `readRemaining, `paddingRemaining, source, buffer
      ensures n <= buffer.Length
      ensures source.Served(|old(source.wire)|, old(source.calls), old(source.quota), err.Some?)
      ensures err == None ==>
                ReadsFrame(old(readPadding), old(source.wire), buffer.Length, n, buffer[..n], Reading(source))
      ensures err.Some? ==> n == 0 && Fails(old(Reading(source)), lost, Reading(source))
      ensures err.Some? ==> err.value == Relayed(old(Reading(source)), lost, Told(source.last))
    {
      ghost var w := source.wire;
      var dataSize, paddingSize, headerError, took := ReadHeader(source, buffer);
      lost := took;
      if headerError.Some? { return 0, headerError, lost; }
      n, err := source.Read(buffer, 0, Min(buffer.Length, dataSize));
      if err.Some? { return; }
      assert buffer[..n] == w[FRAME_HEADER..FRAME_HEADER + n];
      readPadding, readRemaining, paddingRemaining := readPadding + 1, dataSize - n, paddingSize;
    }

    method ReadRaw(source: ByteSource, buffer: array<byte>) returns (n: nat, err: Option<IoError>)
      requires source.strict && readRemaining == 0 && paddingRemaining == 0 && readPadding >= PADDING_COUNT
      modifies source, buffer
      ensures n <= buffer.Length
      ensures source.Served(|old(source.wire)|, old(source.calls), old(source.quota), err.Some?)
      ensures err == None ==> ReadsRaw(readPadding, old(source.wire), buffer.Length, n, buffer[..n], Reading(source))
      ensures err.Some? ==> n == 0 && source.wire == old(source.wire) && err.value == Told(source.last)
    {
      n, err := source.Read(buffer, 0, buffer.Length);
      assert err == None ==> buffer[..n] == old(source.wire)[..n];
    }

    /** One write: framed with a random amount of padding, or as it is. A failed one sends a part of that. */
    method WriteWithPadding(sink: ByteSink, data: seq<byte>) returns (n: nat, err: Option<IoError>, ghost w: Write)
      requires |data| <= MAX_CHUNK
      modifies `writePadding, sink
      ensures w.data == data && n <= |data| && writePadding == Next(old(writePadding))
      ensures sink.Said(old(sink.calls), err)
      ensures err == None ==> n == |data| && sink.wire == old(sink.wire) + EncodeOne(old(writePadding), w)
      ensures err == None ==>
                if old(writePadding) < 8
                then IsFrame(sink.wire[|old(sink.wire)|..], data, w.padding) && writePadding == old(writePadding) + 1
                else sink.wire == old(sink.wire) + data && writePadding == old(writePadding)
      ensures err.Some? ==> Part(old(sink.wire), EncodeOne(old(writePadding), w), sink.wire)
      ensures err.Some? ==> n == if old(writePadding) < PADDING_COUNT then 0 else |sink.wire| - |old(sink.wire)|
    {
      var draw: int := *;
      var padding: byte := draw % 256;
      w := Write(data, padding);
      n := 0;
      if writePadding < PADDING_COUNT {
        var buffer := PutBigEndian16(|data|) + [padding];
        buffer := buffer + data;
        buffer := buffer + Zeros(padding);
        var written, writeError := sink.Write(buffer);
        err := writeError;
        if err == None { n := |data|; assert buffer[..written] == buffer; }
        FirstEightAreFramed(writePadding, w);
        writePadding := writePadding + 1;
      } else {
        n, err := sink.Write(data);
        assert err == None ==> data[..n] == data;
        FirstEightAreFramed(writePadding, w);
      }
    }

    /** Chunks that fit the length field, the first n of them as long as it allows. */
    static ghost predicate Full(sent: seq<Write>, n: int) {
      forall i :: 0 <= i < |sent| ==> 0 < |sent[i].data| <= 65535 && (i < n ==> |sent[i].data| == 65535)
    }

    /** The next stretch of the data goes out as one more chunk. */
    static lemma NextChunk(data: seq<byte>, n: nat, sent: seq<Write>, w: Write)
      requires n + |w.data| <= |data| && w.data == data[n..n + |w.data|]
      requires Full(sent, |sent|) && Data(sent) == data[..n]
      requires |w.data| == if |data| - n > 65535 then 65535 else |data| - n
      requires n < |data|
      ensures Data(sent + [w]) == data[..n + |w.data|]
      ensures Full(sent + [w], if n + |w.data| < |data| then |sent| + 1 else |sent|)
    {
      DataSnoc(sent, w);
      assert data[..n + |w.data|] == data[..n] + w.data;
    }

    /** Any amount of data, in writes that fit the length field, up to the first that fails. */
    method WriteChunked(sink: ByteSink, data: seq<byte>) returns (n: nat, err: Option<IoError>, ghost sent: seq<Write>)
      modifies `writePadding, sink
      ensures n <= |data|
      ensures err == None ==>
                n == |data| && Sent(old(writePadding), old(sink.wire), sent, writePadding, sink.wire)
                    && Data(sent) == data
      ensures err.Some? ==> SentPart(old(writePadding), old(sink.wire), sent, sink.wire) && Data(sent) <= data
      ensures Full(sent, |sent| - 1)
      ensures err.Some? ==> sink.Said(old(sink.calls), err)
    {
      var rest := data;
      n, err, sent := 0, None, [];
      assert Encode(writePadding, []) == [];
      while rest != []
        invariant err == None && n == |data| - |rest| && rest == data[n..] && old(sink.calls) <= sink.calls
        invariant Sent(old(writePadding), old(sink.wire), sent, writePadding, sink.wire) && Data(sent) == data[..n]
        invariant Full(sent, if rest != [] then |sent| else |sent| - 1)
        decreases |rest|
      {
        var chunk := if |rest| > MAX_CHUNK then rest[..MAX_CHUNK] else rest;
        rest := if |rest| > MAX_CHUNK then rest[MAX_CHUNK..] else [];
        ghost var before, k, wire := n, writePadding, sink.wire;
        var written, writeError, w := WriteWithPadding(sink, chunk);
        n, err := n + written, writeError;
        NextChunk(data, before, sent, w);
        if err.Some? {
          SentAPart(old(writePadding), old(sink.wire), sent, k, wire, w, sink.wire);
          sent := sent + [w];
          return;
        }
        SentOneMore(old(writePadding), old(sink.wire), sent, k, wire, w);
        sent := sent + [w];
      }
      assert data[..n] == data;
    }

    /** Room the caller has to leave in a buffer it hands over. */
    function FrontHeadroom(): nat reads `writePadding { if writePadding < PADDING_COUNT then FRAME_HEADER else 0 }
    function RearHeadroom(): nat reads `writePadding { if writePadding < PADDING_COUNT then 255 else 0 }

    method WriteBuffer(sink: ByteSink, buffer: Buffer) returns (err: Option<IoError>, ghost sent: seq<Write>)
      requires buffer.Valid() && FrontHeadroom() <= buffer.start && RearHeadroom() <= buffer.data.Length - buffer.end
      modifies `writePadding, sink, buffer, buffer.data
      ensures err == None ==>
                && Sent(old(writePadding), old(sink.wire), sent, writePadding, sink.wire)
                && Data(sent) == old(buffer.Content())
      ensures err.Some? ==>
                SentPart(old(writePadding), old(sink.wire), sent, sink.wire) && Data(sent) <= old(buffer.Content())
      ensures |old(buffer.Content())| <= 65535 || old(writePadding) >= 8 ==> |sent| == 1
      ensures forall i :: 0 <= i < |sent| && old(writePadding) + i < 8 ==> |sent[i].data| <= 65535
      ensures err.Some? ==> sink.Said(old(sink.calls), err)
    {
      ghost var data, k, wire := buffer.Content(), writePadding, sink.wire;
      if writePadding < PADDING_COUNT && buffer.end - buffer.start > MAX_CHUNK {
        var n, e, s := WriteChunked(sink, buffer.Content());
        return e, s;
      }
      ghost var w;
      w := AddPadding(buffer);
      sent := [w];
      SentNothing(k, wire);
      var n, e := sink.Write(buffer.Content());
      err := e;
      assert [] + [w] == sent && Data(sent) == data;
      if err == None {
        assert buffer.Content()[..n] == buffer.Content();
        SentOneMore(k, wire, [], k, wire, w);
      } else {
        SentAPart(k, wire, [], k, wire, w, sink.wire);
      }
    }

    /** Puts the header and a random amount of padding around the content, while frames are counted. */
    method AddPadding(buffer: Buffer) returns (ghost w: Write)
      requires buffer.Valid() && FrontHeadroom() <= buffer.start && RearHeadroom() <= buffer.data.Length - buffer.end
      requires writePadding < PADDING_COUNT ==> |buffer.Content()| <= MAX_CHUNK
      modifies `writePadding, buffer, buffer.data
      ensures buffer.Valid() && w.data == old(buffer.Content()) && writePadding == Next(old(writePadding))
      ensures buffer.Content() == EncodeOne(old(writePadding), w)
      ensures if old(writePadding) < 8 then IsFrame(buffer.Content(), w.data, w.padding) else buffer.Content() == w.data
    {
      w := Write(buffer.Content(), 0);
      if writePadding < PADDING_COUNT {
        var draw: int := *;
        var padding: byte := draw % 256;
        w := Write(buffer.Content(), padding);
        buffer.ExtendHeader(PutBigEndian16(|buffer.Content()|) + [padding]);
        buffer.WriteZeroN(padding);
        writePadding := writePadding + 1;
      }
      FirstEightAreFramed(old(writePadding), w);
    }

    /** When the code lets callers read the underlying connection directly. */
    predicate ReaderReplaceable()
      reads `readPadding
    {
      readPadding == PADDING_COUNT
    }

    /** Doing so loses nothing exactly when no padding is due any more. */
    lemma ReplaceableOnlyWithoutPadding()
      requires ReaderReplaceable()
      ensures readPadding == 8
      ensures (forall w :: Payload(readPadding, readRemaining, paddingRemaining, w) == w) <==> paddingRemaining == 0
    {
      RawReadingIsExact(readPadding, readRemaining, paddingRemaining);
    }
  }

  // ---------- both ends ----------

  /**
   However the reads were cut, a reader facing everything the writer sent has read a prefix of
   the data written, and all of it once the wire is used up.
   */
  lemma ReaderFollowsWriter(writes: seq<Write>, delivered: seq<byte>, now: Reader)
    requires Framable(0, writes) && Yields(Reader(0, 0, 0, Encode(0, writes)), delivered, now)
    ensures delivered <= Data(writes)
    ensures now.w == [] ==> delivered == Data(writes)
  {
    RoundTrip(0, writes);
    if now.w == [] {
      assert Payload(now.k, now.data, now.padding, []) == [];
    }
  }

  // ---------- failed reads ----------

  /** Wherever a read in this state fails, the rest of the data stays readable. */
  ghost predicate FailuresAreHarmless(k: nat, data: nat, padding: nat) {
    forall w, lost | CanFail(Reader(k, data, padding, w), lost) ::
      Yields(Reader(k, data, padding, w), [], AfterFailure(Reader(k, data, padding, w), lost))
  }

  /**
   A caller may go on after a failed read exactly when the read could not have been in the middle
   of a header or of padding: inside the data of a frame, or past the last header with at most
   one byte of padding left.
   */
  lemma RetryIsSafe(k: nat, data: nat, padding: nat)
    ensures FailuresAreHarmless(k, data, padding) <==> data > 0 || (k >= PADDING_COUNT && padding <= 1)
  {
    if data > 0 || (k >= PADDING_COUNT && padding <= 1) {
      forall w, lost | CanFail(Reader(k, data, padding, w), lost)
        ensures Yields(Reader(k, data, padding, w), [], AfterFailure(Reader(k, data, padding, w), lost))
      {
        assert w[0..] == w;
      }
    } else if k < PADDING_COUNT {
      HeaderByteLost(k, padding);
    } else {
      PaddingByteLost(k, padding);
    }
  }

  /** One header byte has gone by: the next read takes the padding size for a length. */
  lemma HeaderByteLost(k: nat, padding: nat)
    requires k < PADDING_COUNT
    ensures exists w :: CanFail(Reader(k, 0, padding, w), padding + 1)
                     && !Yields(Reader(k, 0, padding, w), [], AfterFailure(Reader(k, 0, padding, w), padding + 1))
  {
    var tail: seq<byte> := [0, 1, 0, 7];
    var w := Zeros(padding) + tail;
    var from := Reader(k, 0, padding, w);
    assert w[padding..] == tail && w[padding + 1..] == tail[1..];
    assert AfterFailure(from, padding + 1) == Reader(k, 0, 0, tail[1..]);
    assert tail[..2] == [0, 1] && tail[3..] == [7];
    assert Payload(k + 1, 1, 0, [7]) == [7];
    assert tail[1..][..2] == [1, 0] && tail[1..][3..] == [];
    assert Payload(k + 1, 256, 7, []) == [];
    assert Payload(k, 0, 0, tail) == [7] && Payload(k, 0, 0, tail[1..]) == [];
    assert Payload(k, 0, padding, w) == [7];
    assert CanFail(from, padding + 1) && !Yields(from, [], AfterFailure(from, padding + 1));
  }

  /** One byte of padding has gone by: the next read drops a byte of data in its place. */
  lemma PaddingByteLost(k: nat, padding: nat)
    requires k >= PADDING_COUNT && padding > 1
    ensures exists w :: CanFail(Reader(k, 0, padding, w), 1)
                     && !Yields(Reader(k, 0, padding, w), [], AfterFailure(Reader(k, 0, padding, w), 1))
  {
    var w := Zeros(padding + 1);
    var from := Reader(k, 0, padding, w);
    assert |Payload(k, 0, padding, w)| == 1;
    assert |Payload(k, 0, padding, w[1..])| == 0;
    assert CanFail(from, 1) && !Yields(from, [], AfterFailure(from, 1));
  }

  /** What has gone by when a read of a stream that is cut comes back, if it fails only there. */
  lemma CutDecides(from: Reader, room: nat, n: nat, got: seq<byte>, to: Reader, lost: nat)
    requires CanFail(from, lost) && room > 0 && Reads(from, room, n, got, to)
    ensures |from.w| - |to.w| > lost
  {
  }

  lemma FailsAtTheCut(from: Reader, cut: nat, lost: nat, to: Reader)
    requires Fails(from, lost, to) && (|from.w| - |to.w| == cut || to.w == []) && |from.w| - |to.w| <= cut <= |from.w|
    requires CanFail(from, cut)
    ensures lost == cut
  {
  }

  /** Every failure that the conditions allow comes about: a stream that is cut there produces it. */
  method FailAt(from: Reader, lost: nat, buffer: array<byte>) returns (conn: PaddingConn, source: ByteSource)
    requires CanFail(from, lost) && buffer.Length > 0
    modifies buffer
    ensures Fails(from, lost, conn.Reading(source))
  {
    conn := new PaddingConn();
    conn.readPadding, conn.readRemaining, conn.paddingRemaining := from.k, from.data, from.padding;
    source := new ByteSource(from.w, true, Cut, lost);
    assert conn.Reading(source) == from;
    var n, err, gone := conn.ReadWithPadding(source, buffer);
    ghost var to := conn.Reading(source);
    if err == None { CutDecides(from, buffer.Length, n, buffer[..n], to, lost); }
    assert err.Some?;
    FailsAtTheCut(from, lost, gone, to);
  }

  // ---------- padding that is due ----------

  /** Writes of one byte each, with the given padding. */
  function OneByteWrites(count: nat, padding: byte): seq<Write> {
    if count == 0 then [] else [Write([7], padding)] + OneByteWrites(count - 1, padding)
  }

  /** The first frame of a stream, in front of whatever follows. */
  lemma FrameOnTheWire(k: nat, padding: nat, w: Write, rest: seq<byte>, room: nat, n: nat, got: seq<byte>, to: Reader)
    requires k < PADDING_COUNT && room > 0 && |w.data| == 1
    requires Reads(Reader(k, 0, padding, Zeros(padding) + (Frame(w) + rest)), room, n, got, to)
    ensures to == Reader(k + 1, 0, w.padding, Zeros(w.padding) + rest) && got == w.data
  {
    var wire := Frame(w) + rest;
    assert (Zeros(padding) + wire)[padding..] == wire;
    FrontOfFrame(w, rest);
  }

  lemma FrontOfFrame(w: Write, rest: seq<byte>)
    requires |w.data| == 1
    ensures var wire := Frame(w) + rest;
            && |wire| >= FRAME_HEADER + 1 && BigEndian16(wire[..2]) == 1 && wire[2] == w.padding
            && wire[FRAME_HEADER + 1..] == Zeros(w.padding) + rest && wire[FRAME_HEADER..FRAME_HEADER + 1] == w.data
  {
    var wire := Frame(w) + rest;
    BigEndian16RoundTrip(1);
    assert wire[..2] == PutBigEndian16(1);
    assert wire[FRAME_HEADER..] == w.data + Zeros(w.padding) + rest;
    assert wire[FRAME_HEADER + 1..] == wire[FRAME_HEADER..][1..] == Zeros(w.padding) + rest;
    assert wire[FRAME_HEADER..FRAME_HEADER + 1] == wire[FRAME_HEADER..][..1] == w.data;
  }

  /** On a stream with a whole frame in front a read does not meet the end. */
  lemma FrameIsWhole(k: nat, padding: nat, w: Write, rest: seq<byte>, lost: nat)
    requires k < PADDING_COUNT && |w.data| == 1
    requires CanFail(Reader(k, 0, padding, Zeros(padding) + (Frame(w) + rest)), lost)
    ensures AfterFailure(Reader(k, 0, padding, Zeros(padding) + (Frame(w) + rest)), lost).w != []
  {
  }

  /** No data is due, and that much padding. */
  function Due(k: nat, padding: nat, rest: seq<byte>): Reader {
    Reader(k, 0, padding, Zeros(padding) + rest)
  }

  /** Reads the one byte of the next frame. */
  method ReadOneByte(conn: PaddingConn, source: ByteSource, ghost k: nat, ghost due: nat, padding: byte,
      ghost rest: seq<byte>)
    requires k < PADDING_COUNT && source.strict && source.kind == Clean && source.quota == 0
    requires conn.Reading(source) == Due(k, due, Frame(Write([7], padding)) + rest)
    modifies conn, source
    ensures conn.Reading(source) == Due(k + 1, padding, rest) && source.quota == 0
  {
    var buffer := new byte[1];
    var w := Write([7], padding);
    var n, err, lost := conn.ReadWithPadding(source, buffer);
    if err.Some? { FrameIsWhole(k, due, w, rest, lost); }
    FrameOnTheWire(k, due, w, rest, 1, n, buffer[..n], conn.Reading(source));
  }

  /**
   Eight reads of eight frames: the connection says that it may be bypassed, and padding is due, so
   bypassing it would hand padding to the application.
   */
  method BypassWithPaddingDue(padding: byte) returns (conn: PaddingConn)
    requires padding > 0
    ensures conn.ReaderReplaceable() && conn.readPadding == 8 && conn.paddingRemaining == padding as nat
    ensures exists w :: Payload(conn.readPadding, conn.readRemaining, conn.paddingRemaining, w) != w
  {
    conn := new PaddingConn();
    var source := new ByteSource(Encode(0, OneByteWrites(PADDING_COUNT, padding)), true, Clean, 0);
    ghost var due: nat := 0;
    for i := 0 to PADDING_COUNT
      invariant fresh(conn) && fresh(source) && source.strict && source.kind == Clean && source.quota == 0
      invariant i > 0 ==> due == padding as nat
      invariant conn.Reading(source) == Due(i, due, Encode(i, OneByteWrites(PADDING_COUNT - i, padding)))
    {
      var left := PADDING_COUNT - i;
      assert OneByteWrites(left, padding)[1..] == OneByteWrites(left - 1, padding);
      ReadOneByte(conn, source, i, due, padding, Encode(i + 1, OneByteWrites(left - 1, padding)));
      due := padding;
    }
    conn.ReplaceableOnlyWithoutPadding();
  }
}
