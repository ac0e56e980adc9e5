/**
 The byte stream spoken by the framed transport, described without any parser state: messages
 with a five-byte prefix (a compression flag and a big-endian length) whose body is a protobuf
 message carrying the payload in field 1.
 */
module GrpcStream {
  import opened Bytes
  import opened Protowire

  const PREFIX := 5
  const MAX_MESSAGE := 4 * 1024 * 1024
  const READ_BUFFER := 32 * 1024

  datatype Malformed = Compressed | TooLarge | InvalidTag(why: WireError) | InvalidField(why: WireError)

  // ---------- one protobuf message ----------

  datatype Parsed = Payload(bytes: seq<byte>) | Rejected(why: Malformed)

  /** The first field of a message ends at n; a payload field carries m[start..n]. */
  datatype Field = NoField(why: Malformed) | Unknown(n: nat) | Data(start: nat, n: nat)

  predicate Fits(field: Field, m: seq<byte>) {
    match field
    case NoField(_) => true
    case Unknown(n) => 1 <= n <= |m|
    case Data(start, n) => 1 <= start <= n <= |m|
  }

  /** How fields are told apart: any way of doing so that stays within the message. */
  type FieldReader = f: seq<byte> -> Field | forall m :: Fits(f(m), m)
    witness (m: seq<byte>) => NoField(Compressed)

  /** The fields of a protobuf message, field 1 of wire type 2 being the payload. */
  function ReadField(m: seq<byte>): (r: Field)
    ensures Fits(r, m)
  {
    match ConsumeTag(m)
    case BadTag(e) => NoField(InvalidTag(e))
    case Tag(number, wireType, n) =>
      if number == 1 && wireType == BYTES then
        match ConsumeBytes(m[n..])
        case BadDelimited(e) => NoField(InvalidField(e))
        case Delimited(start, k) => Data(n + start, n + k)
      else
        match SkipField(number, wireType, m[n..], RECURSION_LIMIT)
        case BadSkip(e) => NoField(InvalidField(e))
        case Skip(k) => Unknown(n + k)
  }

  function Protobuf(): FieldReader {
    (m: seq<byte>) => ReadField(m)
  }

  /** The value of the last payload field in the message, `last` being the one seen before it. */
  function ParseMessage(f: FieldReader, m: seq<byte>, last: seq<byte>): Parsed
    decreases |m|
  {
    if m == [] then Payload(last)
    else
      match f(m)
      case NoField(why) => Rejected(why)
      case Unknown(n) => ParseMessage(f, m[n..], last)
      case Data(start, n) => ParseMessage(f, m[n..], m[start..n])
  }

  function EncodeMessage(chunk: seq<byte>): seq<byte> {
    EncodeVarint(8 * 1 + BYTES) + EncodeVarint(|chunk|) + chunk
  }

  lemma ShortVarint(v: nat)
    requires v <= READ_BUFFER
    ensures |EncodeVarint(v)| <= 3 && v < VarintLimit(0)
  {
    assert v / 128 / 128 < 128;
    assert |EncodeVarint(v / 128 / 128)| == 1;
    assert |EncodeVarint(v / 128)| <= 2;
    LimitPositive(3);
    assert VarintLimit(0) == 128 * VarintLimit(1);
    assert VarintLimit(1) == 128 * VarintLimit(2);
    assert VarintLimit(2) == 128 * VarintLimit(3);
  }

  /** No encoded message comes near the size at which the decoder gives up. */
  lemma EncodedMessageSize(chunk: seq<byte>)
    requires |chunk| <= READ_BUFFER
    ensures |EncodeMessage(chunk)| <= READ_BUFFER + 4 == 32772 < 4194304 == MAX_MESSAGE
  {
    ShortVarint(|chunk|);
    assert |EncodeVarint(10)| == 1;
  }

  lemma EncodedMessageAdds(chunk: seq<byte>)
    requires |chunk| <= READ_BUFFER
    ensures |EncodeMessage(chunk)| <= |chunk| + 4
  {
    ShortVarint(|chunk|);
    assert |EncodeVarint(10)| == 1;
  }

  lemma ReadEncodedField(chunk: seq<byte>)
    requires |chunk| <= READ_BUFFER
    ensures var m := EncodeMessage(chunk);
            |m| >= |chunk| && ReadField(m) == Data(|m| - |chunk|, |m|) && m[|m| - |chunk|..] == chunk
  {
    var length := EncodeVarint(|chunk|);
    var m := EncodeMessage(chunk);
    ShortVarint(|chunk|);
    assert m == [10] + (length + chunk);
    LimitPositive(1);
    assert ConsumeVarint(m) == Varint(10, 1);
    assert ConsumeTag(m) == Tag(1, BYTES, 1);
    assert m[1..] == length + chunk;
    VarintRoundTripAt(|chunk|, 0, chunk);
    assert ConsumeBytes(m[1..]) == Delimited(|length|, |length| + |chunk|);
  }

  ghost predicate UnderstandsOne(f: FieldReader, chunk: seq<byte>) {
    |chunk| <= READ_BUFFER ==> ParseMessage(f, EncodeMessage(chunk), []) == Payload(chunk)
  }

  /** A way of reading fields that understands the messages the encoder writes. */
  ghost predicate Understands(f: FieldReader) {
    forall chunk :: UnderstandsOne(f, chunk)
  }

  lemma ProtobufUnderstandsOne(chunk: seq<byte>)
    ensures UnderstandsOne(Protobuf(), chunk)
  {
    if |chunk| <= READ_BUFFER {
      var m := EncodeMessage(chunk);
      ReadEncodedField(chunk);
      assert m[|m|..] == [] && m != [];
    }
  }

  lemma ProtobufUnderstands()
    ensures Understands(Protobuf())
  {
    forall chunk ensures UnderstandsOne(Protobuf(), chunk) {
      ProtobufUnderstandsOne(chunk);
    }
  }

  // ---------- the stream of messages ----------

  /** The message length announced by a complete prefix. */
  function Size(prefix: seq<byte>): nat
    requires |prefix| >= PREFIX
  {
    BigEndian32(prefix[1..PREFIX])
  }

  /**
   What a byte stream means: the payload of its complete messages, the bytes that do not make
   up a complete message yet, and the reason the first of those can never become one, if any.
   */
  datatype Decoded = Decoded(payload: seq<byte>, rest: seq<byte>, failure: Option<Malformed>)

  /** How the first message of a stream stands. */
  datatype First = Incomplete | Broken(why: Malformed) | Complete(bytes: seq<byte>, size: nat)

  function ReadFirst(f: FieldReader, w: seq<byte>): (r: First)
    ensures r.Complete? ==> PREFIX <= r.size <= |w|
  {
    if |w| < PREFIX then Incomplete
    else if w[0] != 0 then Broken(Compressed)
    else if Size(w) > MAX_MESSAGE then Broken(TooLarge)
    else if |w| < PREFIX + Size(w) then Incomplete
    else
      match ParseMessage(f, w[PREFIX..PREFIX + Size(w)], [])
      case Rejected(e) => Broken(e)
      case Payload(bytes) => Complete(bytes, PREFIX + Size(w))
  }

  function Decode(f: FieldReader, w: seq<byte>): Decoded
    decreases |w|
  {
    match ReadFirst(f, w)
    case Incomplete => Decoded([], w, None)
    case Broken(e) => Decoded([], w, Some(e))
    case Complete(bytes, size) =>
      var d := Decode(f, w[size..]);
      Decoded(bytes + d.payload, d.rest, d.failure)
  }

  /** More bytes never change the verdict on a first message that has arrived. */
  lemma FirstExtends(f: FieldReader, w: seq<byte>, x: seq<byte>)
    requires ReadFirst(f, w) != Incomplete
    ensures ReadFirst(f, w + x) == ReadFirst(f, w)
  {
    assert (w + x)[1..PREFIX] == w[1..PREFIX];
    if |w| >= PREFIX + Size(w) {
      assert (w + x)[PREFIX..PREFIX + Size(w)] == w[PREFIX..PREFIX + Size(w)];
    }
  }

  lemma AfterFirst(f: FieldReader, w: seq<byte>, x: seq<byte>, bytes: seq<byte>, size: nat)
    requires ReadFirst(f, w) == Complete(bytes, size)
    ensures var d := Decode(f, w[size..] + x);
            Decode(f, w + x) == Decoded(bytes + d.payload, d.rest, d.failure)
  {
    FirstExtends(f, w, x);
    assert (w + x)[size..] == w[size..] + x;
  }

  ghost predicate Resumes(f: FieldReader, w: seq<byte>, x: seq<byte>, d: Decoded) {
    var e := Decode(f, d.rest + x);
    Decode(f, w + x) == Decoded(d.payload + e.payload, e.rest, e.failure)
  }

  lemma ResumesEmpty(f: FieldReader, w: seq<byte>, x: seq<byte>)
    ensures Resumes(f, w, x, Decoded([], w, None))
  {
    assert [] + Decode(f, w + x).payload == Decode(f, w + x).payload;
  }

  lemma ResumesAfterFirst(f: FieldReader, w: seq<byte>, x: seq<byte>, bytes: seq<byte>, size: nat, d: Decoded)
    requires ReadFirst(f, w) == Complete(bytes, size) && Resumes(f, w[size..], x, d)
    ensures Resumes(f, w, x, Decoded(bytes + d.payload, d.rest, d.failure))
  {
    AfterFirst(f, w, x, bytes, size);
    var e := Decode(f, d.rest + x);
    assert bytes + (d.payload + e.payload) == (bytes + d.payload) + e.payload;
  }

  /** Decoding may stop anywhere and go on later: the undecoded rest carries all that is needed. */
  lemma {:induction false} DecodeResumes(f: FieldReader, w: seq<byte>, x: seq<byte>)
    requires Decode(f, w).failure == None
    ensures Resumes(f, w, x, Decode(f, w))
    decreases |w|
  {
    match ReadFirst(f, w)
    case Incomplete =>
      ResumesEmpty(f, w, x);
    case Complete(bytes, size) =>
      DecodeResumes(f, w[size..], x);
      ResumesAfterFirst(f, w, x, bytes, size, Decode(f, w[size..]));
  }

  ghost predicate Final(f: FieldReader, w: seq<byte>, x: seq<byte>, d: Decoded) {
    Decode(f, w + x) == Decoded(d.payload, d.rest + x, d.failure)
  }

  lemma FinalAfterFirst(f: FieldReader, w: seq<byte>, x: seq<byte>, bytes: seq<byte>, size: nat, d: Decoded)
    requires ReadFirst(f, w) == Complete(bytes, size) && Final(f, w[size..], x, d)
    ensures Final(f, w, x, Decoded(bytes + d.payload, d.rest, d.failure))
  {
    AfterFirst(f, w, x, bytes, size);
  }

  /** A malformed message stays malformed, and nothing after it is ever decoded. */
  lemma {:induction false} FailureIsFinal(f: FieldReader, w: seq<byte>, x: seq<byte>)
    requires Decode(f, w).failure.Some?
    ensures Final(f, w, x, Decode(f, w))
    decreases |w|
  {
    match ReadFirst(f, w)
    case Broken(e) =>
      FirstExtends(f, w, x);
    case Complete(bytes, size) =>
      FailureIsFinal(f, w[size..], x);
      FinalAfterFirst(f, w, x, bytes, size, Decode(f, w[size..]));
  }

  /** What is left over after decoding does not decode any further, and is the end of the stream. */
  lemma {:induction false} RestIsStuck(f: FieldReader, w: seq<byte>)
    requires Decode(f, w).failure == None
    ensures ReadFirst(f, Decode(f, w).rest) == Incomplete
    ensures |Decode(f, w).rest| <= |w| && Decode(f, w).rest == w[|w| - |Decode(f, w).rest|..]
    decreases |w|
  {
    var first := ReadFirst(f, w);
    if first.Complete? {
      RestIsStuck(f, w[first.size..]);
    }
  }

  /** A complete prefix that cannot start a message. */
  lemma PrefixRejected(f: FieldReader, prefix: seq<byte>)
    requires |prefix| == PREFIX
    ensures prefix[0] != 0 ==> ReadFirst(f, prefix) == Broken(Compressed)
    ensures prefix[0] == 0 && BigEndian32(prefix[1..]) > 4194304 ==> ReadFirst(f, prefix) == Broken(TooLarge)
  {
    assert prefix[1..PREFIX] == prefix[1..];
  }

  /** A complete message is judged by its body alone. */
  lemma MessageJudged(f: FieldReader, prefix: seq<byte>, body: seq<byte>)
    requires |prefix| == PREFIX && prefix[0] == 0 && Size(prefix) == |body| <= 4194304
    ensures match ParseMessage(f, body, [])
            case Payload(bytes) => ReadFirst(f, prefix + body) == Complete(bytes, |prefix + body|)
            case Rejected(why) => ReadFirst(f, prefix + body) == Broken(why)
  {
    assert (prefix + body)[1..PREFIX] == prefix[1..PREFIX];
    assert (prefix + body)[PREFIX..PREFIX + |body|] == body;
  }

  /** Whole messages followed by one more message. */
  lemma OneMoreMessage(f: FieldReader, parsed: seq<byte>, payload: seq<byte>, message: seq<byte>, bytes: seq<byte>)
    requires Decode(f, parsed) == Decoded(payload, [], None)
    requires ReadFirst(f, message) == Complete(bytes, |message|)
    ensures Decode(f, parsed + message) == Decoded(payload + bytes, [], None)
  {
    DecodeResumes(f, parsed, message);
    assert [] + message == message;
    assert message[|message|..] == [];
    assert bytes + [] == bytes;
  }

  /** Whole messages followed by the beginning of another one, good or bad. */
  lemma StopsBefore(f: FieldReader, parsed: seq<byte>, payload: seq<byte>, partial: seq<byte>)
    requires Decode(f, parsed) == Decoded(payload, [], None) && !ReadFirst(f, partial).Complete?
    ensures Decode(f, parsed + partial)
         == Decoded(payload, partial, if ReadFirst(f, partial).Broken? then Some(ReadFirst(f, partial).why) else None)
  {
    DecodeResumes(f, parsed, partial);
    assert [] + partial == partial;
    assert payload + [] == payload;
  }

  // ---------- encoding ----------

  function EncodeFrame(chunk: seq<byte>): seq<byte> {
    [0] + PutBigEndian32(|EncodeMessage(chunk)|) + EncodeMessage(chunk)
  }

  function EncodeAll(chunks: seq<seq<byte>>): seq<byte> {
    if chunks == [] then [] else EncodeFrame(chunks[0]) + EncodeAll(chunks[1..])
  }

  ghost predicate Chunks(chunks: seq<seq<byte>>) {
    forall i :: 0 <= i < |chunks| ==> 0 < |chunks[i]| <= READ_BUFFER
  }

  lemma FrameShape(chunk: seq<byte>)
    requires |chunk| <= READ_BUFFER
    ensures |EncodeFrame(chunk)| == PREFIX + |EncodeMessage(chunk)|
    ensures EncodeFrame(chunk)[0] == 0 && Size(EncodeFrame(chunk)) == |EncodeMessage(chunk)| <= MAX_MESSAGE
    ensures EncodeFrame(chunk)[PREFIX..] == EncodeMessage(chunk)
  {
    var m := EncodeMessage(chunk);
    EncodedMessageSize(chunk);
    BigEndian32RoundTrip(|m|);
    assert EncodeFrame(chunk)[1..PREFIX] == PutBigEndian32(|m|);
  }

  /** A complete frame in front of any stream contributes exactly its payload. */
  lemma DecodeFrameFirst(f: FieldReader, chunk: seq<byte>, w: seq<byte>)
    requires Understands(f) && |chunk| <= READ_BUFFER
    ensures var d := Decode(f, w);
            Decode(f, EncodeFrame(chunk) + w) == Decoded(chunk + d.payload, d.rest, d.failure)
  {
    var frame := EncodeFrame(chunk);
    FrameShape(chunk);
    assert UnderstandsOne(f, chunk);
    assert (frame + w)[1..PREFIX] == frame[1..PREFIX];
    assert (frame + w)[PREFIX..|frame|] == frame[PREFIX..];
    assert (frame + w)[|frame|..] == w;
  }

  /** A proper prefix of a frame is neither payload nor an error. */
  lemma DecodePartialFrame(f: FieldReader, chunk: seq<byte>, w: seq<byte>)
    requires |chunk| <= READ_BUFFER
    requires w <= EncodeFrame(chunk) && |w| < |EncodeFrame(chunk)|
    ensures Decode(f, w) == Decoded([], w, None)
  {
    FrameShape(chunk);
    if |w| >= PREFIX {
      assert w[1..PREFIX] == EncodeFrame(chunk)[1..PREFIX];
    }
  }

  lemma SplitFrame(chunks: seq<seq<byte>>, w: seq<byte>)
    requires chunks != [] && w <= EncodeAll(chunks)
    ensures var frame := EncodeFrame(chunks[0]);
            if |w| < |frame| then w <= frame
            else w == frame + w[|frame|..] && w[|frame|..] <= EncodeAll(chunks[1..])
  {
    SplitPrefix(EncodeFrame(chunks[0]), EncodeAll(chunks[1..]), w);
  }

  /**
   Round trip under any segmentation: however much of an encoded stream has arrived, it decodes
   without an error to a prefix of the payload, and the whole of it to the whole payload.
   */
  lemma {:induction false} RoundTrip(f: FieldReader, chunks: seq<seq<byte>>, w: seq<byte>)
    requires Understands(f) && Chunks(chunks) && w <= EncodeAll(chunks)
    ensures Decode(f, w).failure == None && Decode(f, w).payload <= Concat(chunks)
    ensures w == EncodeAll(chunks) ==> Decode(f, w) == Decoded(Concat(chunks), [], None)
    decreases |chunks|
  {
    if chunks != [] {
      var n := |EncodeFrame(chunks[0])|;
      SplitFrame(chunks, w);
      if |w| < n {
        DecodePartialFrame(f, chunks[0], w);
      } else {
        RoundTrip(f, chunks[1..], w[n..]);
        DecodeFrameFirst(f, chunks[0], w[n..]);
      }
    }
  }

  ghost predicate StopsAt(f: FieldReader, chunks: seq<seq<byte>>, w: seq<byte>, k: nat) {
    k <= |chunks| && w == EncodeAll(chunks[..k]) && Decode(f, w).payload == Concat(chunks[..k])
  }

  lemma FirstFrameArrived(f: FieldReader, chunks: seq<seq<byte>>, w: seq<byte>)
    requires Understands(f) && Chunks(chunks) && w <= EncodeAll(chunks) && Decode(f, w).rest == [] && w != []
    ensures chunks != []
    ensures var n := |EncodeFrame(chunks[0])|;
            n <= |w| && w == EncodeFrame(chunks[0]) + w[n..]
            && w[n..] <= EncodeAll(chunks[1..]) && Decode(f, w[n..]).rest == []
  {
    SplitFrame(chunks, w);
    var n := |EncodeFrame(chunks[0])|;
    if |w| < n {
      DecodePartialFrame(f, chunks[0], w);
    } else {
      DecodeFrameFirst(f, chunks[0], w[n..]);
    }
  }

  lemma StopsAtNext(f: FieldReader, chunks: seq<seq<byte>>, w: seq<byte>, k: nat)
    requires Understands(f) && Chunks(chunks) && chunks != [] && StopsAt(f, chunks[1..], w, k)
    ensures StopsAt(f, chunks, EncodeFrame(chunks[0]) + w, k + 1)
  {
    assert chunks[..k + 1] == [chunks[0]] + chunks[1..][..k];
    EncodeAllCons(chunks[0], chunks[1..][..k]);
    DecodeFrameFirst(f, chunks[0], w);
  }

  /** Converse: when nothing is left over, the stream stopped at the end of a frame. */
  lemma {:induction false} NothingLeftOver(f: FieldReader, chunks: seq<seq<byte>>, w: seq<byte>) returns (k: nat)
    requires Understands(f) && Chunks(chunks) && w <= EncodeAll(chunks) && Decode(f, w).rest == []
    ensures StopsAt(f, chunks, w, k)
    decreases |chunks|
  {
    if w == [] {
      k := 0;
      assert chunks[..0] == [];
    } else {
      FirstFrameArrived(f, chunks, w);
      var n := |EncodeFrame(chunks[0])|;
      var j := NothingLeftOver(f, chunks[1..], w[n..]);
      StopsAtNext(f, chunks, w[n..], j);
      k := j + 1;
    }
  }

  lemma EncodeAllCons(chunk: seq<byte>, chunks: seq<seq<byte>>)
    ensures EncodeAll([chunk] + chunks) == EncodeFrame(chunk) + EncodeAll(chunks)
    ensures Concat([chunk] + chunks) == chunk + Concat(chunks)
  {
    assert ([chunk] + chunks)[1..] == chunks;
  }

  lemma {:induction false} EncodeAllSnoc(chunks: seq<seq<byte>>, chunk: seq<byte>)
    ensures EncodeAll(chunks + [chunk]) == EncodeAll(chunks) + EncodeFrame(chunk)
  {
    if chunks == [] {
      assert EncodeAll([chunk]) == EncodeFrame(chunk) + [];
    } else {
      EncodeAllSnoc(chunks[1..], chunk);
      assert (chunks + [chunk])[1..] == chunks[1..] + [chunk];
      assert EncodeFrame(chunks[0]) + (EncodeAll(chunks[1..]) + EncodeFrame(chunk))
          == EncodeFrame(chunks[0]) + EncodeAll(chunks[1..]) + EncodeFrame(chunk);
    }
  }
}
