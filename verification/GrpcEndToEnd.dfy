/** The encoder and the decoder, joined by a transport that may cut the stream anywhere. */
module GrpcEndToEnd {
  import opened Bytes
  import opened ByteSources
  import opened GrpcStream
  import opened GrpcUploads
  import opened GrpcReaders

  /**
   A decoder that has received some part of what the encoder sent has met no malformed message, and
   the payload of what it received is a prefix of what the encoder was given.
   */
  lemma DecoderFollowsEncoder(chunks: seq<seq<byte>>, emitted: seq<byte>, pending: seq<byte>, consumed: seq<byte>)
    requires Consistent(chunks, emitted, pending) && consumed <= emitted
    ensures Decode(Protobuf(), consumed).failure == None
    ensures Decode(Protobuf(), consumed).payload <= Concat(chunks)
    ensures consumed == emitted && pending == [] ==> Decode(Protobuf(), consumed) == Decoded(Concat(chunks), [], None)
  {
    ProtobufUnderstands();
    assert consumed <= EncodeAll(chunks);
    if pending == [] { assert emitted == EncodeAll(chunks); }
    RoundTrip(Protobuf(), chunks, consumed);
  }

  /** A stream that ends cleanly ends after a whole number of the payloads that were sent. */
  lemma CleanEndIsAtAFrame(chunks: seq<seq<byte>>, emitted: seq<byte>, pending: seq<byte>, consumed: seq<byte>,
      delivered: seq<byte>)
      returns (k: nat)
    requires Consistent(chunks, emitted, pending) && consumed <= emitted
    requires Decode(Protobuf(), consumed) == Decoded(delivered, [], None)
    ensures k <= |chunks| && delivered == Concat(chunks[..k])
  {
    ProtobufUnderstands();
    assert consumed <= EncodeAll(chunks);
    k := NothingLeftOver(Protobuf(), chunks, consumed);
  }

  /** A frame adds at most nine bytes to a nonempty chunk. */
  lemma {:induction false} WireBound(chunks: seq<seq<byte>>)
    requires Chunks(chunks)
    ensures |EncodeAll(chunks)| <= 10 * |Concat(chunks)|
  {
    if chunks != [] {
      FrameShape(chunks[0]);
      EncodedMessageAdds(chunks[0]);
      WireBound(chunks[1..]);
    }
  }

  /** More of a stream never has less payload. */
  lemma PayloadGrows(w: seq<byte>, whole: seq<byte>)
    requires w <= whole
    ensures Decode(Protobuf(), w).payload <= Decode(Protobuf(), whole).payload
  {
    var x := whole[|w|..];
    assert whole == w + x;
    if Decode(Protobuf(), w).failure == None {
      DecodeResumes(Protobuf(), w, x);
    } else {
      FailureIsFinal(Protobuf(), w, x);
    }
  }

  /** An encoder in the middle of a payload. */
  ghost predicate Encoding(u: GrpcUpload, payload: seq<byte>, wire: seq<byte>)
    reads u, u.source
  {
    u.Valid() && u.EofIsFinal() && u.emitted == wire && Concat(u.chunks) + u.source.wire == payload
  }

  /** Its source does not fail, and has not. */
  ghost predicate FaultFree(u: GrpcUpload)
    reads u, u.source
  {
    u.source.kind.Clean? && u.source.quota == 0 && (u.err == None || u.err == Some(Eof))
  }

  /** One call, with a buffer of the given size. */
  method EncodeSome(u: GrpcUpload, size: nat, ghost payload: seq<byte>, ghost wire: seq<byte>)
      returns (more: seq<byte>, e: Option<IoError>)
    requires Encoding(u, payload, wire)
    modifies u, u.buffer, u.source
    ensures Encoding(u, payload, wire + more)
    ensures old(FaultFree(u)) ==> FaultFree(u)
    ensures e.Some? ==> more == [] && u.pending == [] && wire + more == EncodeAll(u.chunks)
    ensures e == Some(Eof) ==> u.source.wire == []
    ensures old(FaultFree(u)) ==> (e.Some? ==> e == Some(Eof)) && (size > 0 ==> more != [] || e == Some(Eof))
  {
    var p := new byte[size];
    var n;
    n, e := u.Read(p);
    more := p[..n];
  }

  /**
   Encodes a payload, in any number of calls with buffers of any size, from a source that delivers it
   in pieces of any size and may fail. `whole` says that the end of the payload has been reached, and
   a source that does not fail gets there.
   */
  method Encode(payload: seq<byte>, strict: bool, kind: Kind, quota: nat, turns: nat)
      returns (wire: seq<byte>, whole: bool, ghost chunks: seq<seq<byte>>, ghost pending: seq<byte>)
    ensures Consistent(chunks, wire, pending) && Concat(chunks) <= payload
    ensures whole ==> pending == [] && Concat(chunks) == payload
    ensures kind.Clean? && quota == 0 && turns > 10 * |payload| ==> whole
  {
    var source := new ByteSource(payload, strict, kind, quota);
    var u := new GrpcUpload(source);
    assert Concat(u.chunks) + source.wire == payload;
    wire, whole := [], false;
    for i := 0 to turns
      invariant fresh(u) && fresh(u.buffer) && fresh(u.source) && u.source.kind == kind
      invariant Encoding(u, payload, wire) && !whole
      invariant kind.Clean? && quota == 0 ==> FaultFree(u) && |wire| >= i
    {
      var idle: bool, size: int := *, *;
      var more, e;
      if idle {
        more, e := EncodeSome(u, 0, payload, wire);
        wire := wire + more;
        if e.Some? {
          whole := e == Some(Eof);
          break;
        }
      }
      more, e := EncodeSome(u, if size < 1 then 1 else size, payload, wire);
      wire := wire + more;
      if e.Some? {
        whole := e == Some(Eof);
        break;
      }
    }
    chunks, pending := u.chunks, u.pending;
    WireBound(chunks);
    assert |wire| <= |EncodeAll(chunks)|;
  }

  /** What a decoder says about the part of a stream that it has consumed. */
  ghost predicate Tells(wire: seq<byte>, consumed: seq<byte>, received: seq<byte>, e: Option<ReadError>) {
    var d := Decode(Protobuf(), consumed);
    && consumed <= wire && received <= d.payload
    && (e.Some? && e.value.Bad? ==> d.failure == Some(e.value.why))
    && (e == Some(Io(Eof)) ==> consumed == wire && d == Decoded(received, [], None))
  }

  /** A decoder in the middle of a stream. */
  ghost predicate Receiving(r: GrpcReader, wire: seq<byte>, received: seq<byte>)
    reads r, r.header, r.frame, r.source
  {
    && r.Valid() && r.fields == Protobuf() && r.err == None
    && r.consumed + r.source.wire == wire && r.delivered == received
  }

  /** The end that a stream of the given leftover comes to when nothing but that end goes wrong. */
  function EndOf(rest: seq<byte>): ReadError {
    Io(if rest == [] then Eof else UnexpectedEof)
  }

  /** Over a good transport a call brings bytes, uses up an interruption, or is at the end. */
  ghost predicate Advances(wire: seq<byte>, consumed: seq<byte>, more: seq<byte>, e: Option<ReadError>, spent: int) {
    if Stops(e) then e.value.Io? ==> consumed == wire && e.value == EndOf(Decode(Protobuf(), wire).rest)
    else |more| + spent >= 1
  }

  /** An error that is not of a context ends the stream. */
  predicate Stops(e: Option<ReadError>) {
    e.Some? && !e.value.IsContextError()
  }

  /** Over a good transport an explained error uses up an interruption or is the end. */
  lemma ExplainedAdvances(r: GrpcReader, calls0: nat, quota0: nat, ctx: Option<IoError>, wire: seq<byte>,
                          more: seq<byte>, e: Option<ReadError>)
    requires r.source.kind.Clean? && r.consumed + r.source.wire == wire && (ctx.Some? ==> ctx.value.IsContextError())
    requires r.Explained(calls0, quota0, ctx, e, Decode(Protobuf(), r.consumed).rest != [])
    requires e == None ==> more != []
    ensures r.source.quota <= quota0
    ensures Advances(wire, r.consumed, more, e, (if ctx.Some? then 1 else 0) + quota0 - r.source.quota)
  {
    if Stops(e) && e.value.Io? { assert r.source.wire == [] && r.consumed == wire; }
  }

  /** One call, with a buffer of the given size, whose context may have ended. */
  method ReceiveWith(r: GrpcReader, size: nat, ctx: Option<IoError>, ghost wire: seq<byte>, ghost received: seq<byte>)
      returns (more: seq<byte>, e: Option<ReadError>)
    requires Receiving(r, wire, received) && size > 0 && (ctx.Some? ==> ctx.value.IsContextError())
    modifies r, r.header, r.frame, r.source
    ensures r.frame == old(r.frame) || fresh(r.frame)
    ensures if Stops(e) then Tells(wire, r.consumed, received + more, e) else Receiving(r, wire, received + more)
    ensures r.source.quota <= old(r.source.quota)
    ensures r.source.kind.Clean? ==>
              Advances(wire, r.consumed, more, e, (if ctx.Some? then 1 else 0) + old(r.source.quota) - r.source.quota)
  {
    var p := new byte[size];
    ghost var calls, quota := r.source.calls, r.source.quota;
    var n, readError := r.ReadContext(ctx, p);
    more, e := p[..n], readError;
    if r.source.kind.Clean? { ExplainedAdvances(r, calls, quota, ctx, wire, more, e); }
  }

  /** One call, with a buffer of any size, interrupted by its context as long as any may be. */
  method ReceiveSome(r: GrpcReader, contexts: nat, ghost wire: seq<byte>, ghost received: seq<byte>)
      returns (more: seq<byte>, e: Option<ReadError>, left: nat)
    requires Receiving(r, wire, received)
    modifies r, r.header, r.frame, r.source
    ensures r.frame == old(r.frame) || fresh(r.frame)
    ensures if Stops(e) then Tells(wire, r.consumed, received + more, e) else Receiving(r, wire, received + more)
    ensures left <= contexts && r.source.quota <= old(r.source.quota)
    ensures r.source.kind.Clean? ==>
              Advances(wire, r.consumed, more, e, contexts - left + old(r.source.quota) - r.source.quota)
  {
    var size: int, late: bool, interrupted: bool := *, *, *;
    var ctx := None;
    left := contexts;
    if interrupted && left > 0 {
      ctx := Some(if late then DeadlineExceeded else Canceled);
      left := left - 1;
    }
    more, e := ReceiveWith(r, if size < 1 then 1 else size, ctx, wire, received);
  }

  /** What a decoder in the middle of a stream has received is part of the payload. */
  lemma ReceivingTells(r: GrpcReader, wire: seq<byte>, received: seq<byte>)
    requires Receiving(r, wire, received)
    ensures Tells(wire, r.consumed, received, None) && |received| <= |Decode(Protobuf(), wire).payload|
  {
    r.ValidIsSound();
    assert r.consumed <= wire;
    PayloadGrows(r.consumed, wire);
  }

  /**
   Decodes a stream, in any number of calls, over a transport that cuts it anywhere, at most
   `contexts` of them interrupted by their own context. What has been received is always a prefix of
   the payload of what has been consumed; a good transport gets to the end of the stream.
   */
  method Receive(wire: seq<byte>, strict: bool, kind: Kind, quota: nat, contexts: nat, turns: nat)
      returns (received: seq<byte>, e: Option<ReadError>, ghost consumed: seq<byte>)
    ensures Tells(wire, consumed, received, e)
    ensures kind.Clean? && turns > |Decode(Protobuf(), wire).payload| + quota + contexts ==>
              e.Some? && (e.value.Io? ==> consumed == wire && e.value == EndOf(Decode(Protobuf(), wire).rest))
  {
    var source := new ByteSource(wire, strict, kind, quota);
    var r := new GrpcReader(Protobuf(), source);
    received, e := [], None;
    var left := contexts;
    assert r.consumed + r.source.wire == wire;
    for i := 0 to turns
      invariant Receiving(r, wire, received) && r.source.kind == kind && e == None
      invariant fresh(r) && fresh(r.header) && fresh(r.frame) && fresh(r.source)
      invariant kind.Clean? ==> i <= |received| + quota - r.source.quota + contexts - left
    {
      var more, readError;
      more, readError, left := ReceiveSome(r, left, wire, received);
      received := received + more;
      if Stops(readError) { return received, readError, r.consumed; }
    }
    ReceivingTells(r, wire, received);
    consumed := r.consumed;
  }

  /**
   The whole way: whatever happens on either side and in between, what is received is a prefix of
   the payload and the stream is never found malformed; when the encoder has come to the end of
   the payload and the decoder to the end of the stream, it is the whole payload. When nothing
   fails but for finitely many interruptions, both come to their ends within a number of calls
   that depends only on the amount of payload and on the interruptions.
   */
  method Transmit(payload: seq<byte>, strict: bool, kind: Kind, encoderTurns: nat,
                  quota: nat, contexts: nat, decoderTurns: nat)
      returns (received: seq<byte>, whole: bool, e: Option<ReadError>)
    ensures received <= payload
    ensures e.Some? ==> e.value.Io?
    ensures whole && e == Some(Io(Eof)) ==> received == payload
    ensures kind.Clean? && encoderTurns > 10 * |payload| && decoderTurns > |payload| + quota + contexts ==>
              whole && e == Some(Io(Eof)) && received == payload
  {
    var wire, complete, chunks, pending := Encode(payload, strict, kind, 0, encoderTurns);
    var got, readError, consumed := Receive(wire, strict, kind, quota, contexts, decoderTurns);
    DecoderFollowsEncoder(chunks, wire, pending, consumed);
    DecoderFollowsEncoder(chunks, wire, pending, wire);
    received, whole, e := got, complete, readError;
  }
}
