/**
 The frames of the transport byte by byte, with the numbers of the protocol written out: one flag
 byte, a length of four bytes, the highest first, and at most 4194304 bytes of message.
 */
module GrpcWire {
  import opened Bytes
  import opened Protowire
  import opened GrpcStream
  import opened ProtoFields

  /** The length that a prefix announces. */
  function Announced(prefix: seq<byte>): nat
    requires |prefix| >= 5
  {
    16777216 * prefix[1] as nat + 65536 * prefix[2] as nat + 256 * prefix[3] as nat + prefix[4] as nat
  }

  lemma SizeIsAnnounced(w: seq<byte>)
    requires |w| >= 5
    ensures Size(w) == Announced(w)
  {
    var b := w[1..5];
    assert BigEndian16(b[..2]) == 256 * w[1] as nat + w[2] as nat;
    assert BigEndian16(b[2..]) == 256 * w[3] as nat + w[4] as nat;
  }

  /** How any stream begins: refused on the prefix, not all there yet, or decided by the message alone. */
  lemma FirstMessage(f: FieldReader, w: seq<byte>)
    ensures |w| < 5 ==> ReadFirst(f, w) == Incomplete
    ensures |w| >= 5 && w[0] != 0 ==> ReadFirst(f, w) == Broken(Compressed)
    ensures |w| >= 5 && w[0] == 0 && Announced(w) > 4194304 ==> ReadFirst(f, w) == Broken(TooLarge)
    ensures |w| >= 5 && w[0] == 0 && Announced(w) <= 4194304 ==>
              var n := Announced(w);
              if |w| < 5 + n then ReadFirst(f, w) == Incomplete
              else
                match ParseMessage(f, w[5..5 + n], [])
                case Payload(bytes) => ReadFirst(f, w) == Complete(bytes, 5 + n)
                case Rejected(why) => ReadFirst(f, w) == Broken(why)
  {
    if |w| >= 5 { SizeIsAnnounced(w); }
  }

  /** The reason for which the stream rest begins with a message that is refused. */
  ghost predicate Refused(f: FieldReader, rest: seq<byte>, why: Malformed) {
    && |rest| >= 5
    && if rest[0] != 0 then why == Compressed
       else if Announced(rest) > 4194304 then why == TooLarge
       else 5 + Announced(rest) <= |rest| && ParseMessage(f, rest[5..5 + Announced(rest)], []) == Rejected(why)
  }

  /** The stream rest may still go on to be a message that is accepted. */
  ghost predicate MayBeAccepted(f: FieldReader, rest: seq<byte>) {
    forall why :: !Refused(f, rest, why)
  }

  /** A stream fails exactly where a message is refused, and for its reason. */
  lemma {:induction false} FailureIsRefusal(f: FieldReader, w: seq<byte>)
    ensures Decode(f, w).failure.Some? ==> Refused(f, Decode(f, w).rest, Decode(f, w).failure.value)
    ensures Decode(f, w).failure == None ==> MayBeAccepted(f, Decode(f, w).rest)
    decreases |w|
  {
    match ReadFirst(f, w)
    case Complete(bytes, size) => FailureIsRefusal(f, w[size..]);
    case Incomplete => FirstMessage(f, w);
    case Broken(_) => FirstMessage(f, w);
  }

  /** The frame of a chunk: flag, length, the tag of a length-delimited field 1, its length, the chunk. */
  lemma FrameBytes(chunk: seq<byte>)
    requires |chunk| <= 32768
    ensures var f, n := EncodeFrame(chunk), |chunk|;
            && n + 7 <= |f| <= n + 9
            && f[0] == 0 && Announced(f) == |f| - 5 && f[5] == 10
            && IsVarint(f[6..|f| - n], n) && f[|f| - n..] == chunk
  {
    var f, n := EncodeFrame(chunk), |chunk|;
    var length := EncodeVarint(n);
    FrameShape(chunk);
    SizeIsAnnounced(f);
    ShortVarint(n);
    EncodedVarint(n);
    assert EncodeMessage(chunk) == [10] + length + chunk;
    assert f == f[..5] + ([10] + length + chunk);
    assert f[6..|f| - n] == length;
  }

  /** The message of a chunk is the one field that carries it. */
  lemma MessageIsField(chunk: seq<byte>)
    ensures EncodeMessage(chunk) == Lay(Piece(1, ProtoFields.Delimited(chunk)))
  {
    assert EncodeVarint(10) + EncodeVarint(|chunk|) + chunk == EncodeVarint(10) + (EncodeVarint(|chunk|) + chunk);
  }
}
