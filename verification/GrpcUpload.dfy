/** The framing encoder: one gRPC message for every nonempty read of the upload queue. */
module GrpcUploads {
  import opened Bytes
  import opened ByteSources
  import opened Protowire
  import opened GrpcStream

  /** The encoded size of a varint, computed without encoding it. */
  function SizeVarint(v: nat): (n: nat)
    ensures n == |EncodeVarint(v)|
  {
    if v < 128 then 1 else 1 + SizeVarint(v / 128)
  }

  /** The wire so far is the encoding of the chunks, up to what still waits to be handed out. */
  ghost predicate Consistent(chunks: seq<seq<byte>>, emitted: seq<byte>, pending: seq<byte>) {
    Chunks(chunks) && emitted + pending == EncodeAll(chunks)
  }

  class GrpcUpload {
    const source: ByteSource
    const buffer: array<byte>
    var pending: seq<byte>
    var err: Option<IoError>
    /** The payloads framed so far, and the wire bytes handed out so far. */
    ghost var chunks: seq<seq<byte>>
    ghost var emitted: seq<byte>

    ghost predicate Valid()
      reads this
    {
      && buffer.Length == READ_BUFFER
      && Consistent(chunks, emitted, pending)
    }

    constructor (source: ByteSource)
      ensures Valid() && fresh(buffer) && this.source == source
      ensures emitted == [] && chunks == [] && err == None
    {
      this.source := source;
      buffer := new byte[READ_BUFFER];
      pending, err, chunks, emitted := [], None, [], [];
    }

    /** End of file has been seen only if the source is exhausted. */
    ghost predicate EofIsFinal()
      reads this, source
    {
      err == Some(Eof) ==> source.wire == []
    }

    /** Lays out one frame around the first `got` bytes of the buffer. */
    method Frame(got: nat)
      requires 0 < got <= buffer.Length == READ_BUFFER && Consistent(chunks, emitted, [])
      modifies `pending, `chunks
      ensures Consistent(chunks, emitted, pending) && pending != []
      ensures chunks == old(chunks) + [buffer[..got]] && pending == EncodeFrame(buffer[..got])
    {
      var messageSize := 1 + SizeVarint(got) + got;
      pending := [0] + PutBigEndian32(messageSize);
      pending := pending + EncodeVarint(8 * 1 + BYTES);
      pending := pending + (EncodeVarint(got) + buffer[..got]);
      AnotherFrame(chunks, buffer[..got], emitted);
      FramedIsFrame(buffer[..got]);
      chunks := chunks + [buffer[..got]];
    }

    /** The source has been read once, into an empty buffer, and err is what it said. */
    ghost predicate Asked(calls0: nat, quota0: nat, wire0: seq<byte>)
      reads this, source
    {
      && source.calls == calls0 + 1 && source.last.asked == READ_BUFFER && err == source.last.err
      && Behaves(source.kind, quota0, wire0, source.last, source.quota)
    }

    ghost predicate NotAsked(calls0: nat, quota0: nat, wire0: seq<byte>)
      reads source
    {
      source.calls == calls0 && source.quota == quota0 && source.wire == wire0
    }

    /** Takes one read from the source and, unless it is empty, frames it. */
    method Refill()
      requires Valid() && pending == [] && EofIsFinal()
      modifies this, buffer, source
      ensures Valid() && EofIsFinal() && emitted == old(emitted)
      ensures chunks == old(chunks) || (pending != [] && |chunks| == |old(chunks)| + 1 && old(chunks) <= chunks)
      ensures Concat(chunks) + source.wire == old(Concat(chunks) + source.wire)
      ensures Asked(old(source.calls), old(source.quota), old(source.wire))
      ensures pending != [] <==> source.last.n > 0
      ensures source.last.asked == 32768
    {
      var got, readError := source.Read(buffer, 0, READ_BUFFER);
      err := readError;
      if got != 0 {
        SamePayload(chunks, buffer[..got], old(source.wire), source.wire);
        Frame(got);
      }
    }

    /** Copies as much of the pending frame as fits. */
    method HandOut(p: array<byte>) returns (n: nat)
      requires Valid()
      modifies this, p
      ensures Valid() && chunks == old(chunks) && err == old(err)
      ensures n == Min(p.Length, |old(pending)|) && pending == old(pending)[n..]
      ensures p[n..] == old(p[n..]) && emitted == old(emitted) + p[..n]
    {
      n := Min(p.Length, |pending|);
      forall i | 0 <= i < n { p[i] := pending[i]; }
      assert p[..n] == pending[..n];
      assert emitted + pending == emitted + pending[..n] + pending[n..];
      emitted := emitted + pending[..n];
      pending := pending[n..];
    }

    /**
     Every payload byte taken from the source is in exactly one frame, in order, and an error is
     only reported between frames: whatever the caller has read then is a whole number of them.
     */
    method Read(p: array<byte>) returns (n: nat, e: Option<IoError>)
      requires Valid() && p != buffer && EofIsFinal()
      modifies this, buffer, source, p
      ensures Valid() && EofIsFinal()
      ensures n <= p.Length && p[n..] == old(p[n..]) && emitted == old(emitted) + p[..n]
      ensures old(chunks) <= chunks && |chunks| <= |old(chunks)| + 1
      ensures Concat(chunks) + source.wire == old(Concat(chunks) + source.wire)
      ensures e.Some? ==> n == 0 && e == err && emitted == EncodeAll(chunks)
      ensures old(err).Some? && old(pending) == [] && p.Length > 0 ==> e == old(err)
      ensures p.Length == 0 || old(pending) != [] || old(err).Some? ==>
                NotAsked(old(source.calls), old(source.quota), old(source.wire)) && err == old(err)
      ensures !(p.Length == 0 || old(pending) != [] || old(err).Some?) ==>
                && Asked(old(source.calls), old(source.quota), old(source.wire))
                && if source.last.n > 0 then n > 0 else n == 0 && e == source.last.err
      ensures p.Length == 0 ==> e == None
      ensures p.Length > 0 && old(pending) != [] ==> n > 0
      ensures n > 0 ==> e == None
    {
      if p.Length == 0 { return 0, None; }
      if pending == [] {
        if err.Some? { return 0, err; }
        Refill();
        if pending == [] { return 0, err; }
      }
      n := HandOut(p);
      e := None;
    }
  }

  /** What the encoder appends to, piece by piece, for one nonempty read. */
  function Framed(chunk: seq<byte>): seq<byte> {
    [0] + PutBigEndian32(1 + SizeVarint(|chunk|) + |chunk|)
    + EncodeVarint(8 * 1 + BYTES) + (EncodeVarint(|chunk|) + chunk)
  }

  lemma FramedIsFrame(chunk: seq<byte>)
    requires |chunk| <= READ_BUFFER
    ensures Framed(chunk) == EncodeFrame(chunk)
  {
    EncodedMessageSize(chunk);
    var tag, length := EncodeVarint(8 * 1 + BYTES), EncodeVarint(|chunk|);
    var size := 1 + SizeVarint(|chunk|) + |chunk|;
    assert |tag| == 1;
    assert |EncodeMessage(chunk)| == size;
    var prefix := [0] + PutBigEndian32(size);
    Regroup(prefix, tag, length, chunk);
  }

  lemma AnotherFrame(chunks: seq<seq<byte>>, chunk: seq<byte>, emitted: seq<byte>)
    requires Consistent(chunks, emitted, []) && 0 < |chunk| <= READ_BUFFER
    ensures Consistent(chunks + [chunk], emitted, Framed(chunk)) && Framed(chunk) != []
  {
    FramedIsFrame(chunk);
    EncodeAllSnoc(chunks, chunk);
    assert emitted + [] == emitted;
  }

  lemma SamePayload(chunks: seq<seq<byte>>, chunk: seq<byte>, before: seq<byte>, after: seq<byte>)
    requires |chunk| <= |before| && chunk == before[..|chunk|] && after == before[|chunk|..]
    ensures Concat(chunks + [chunk]) + after == Concat(chunks) + before
  {
    ConcatSnoc(chunks, chunk);
    assert before == chunk + after;
    assert Concat(chunks) + chunk + after == Concat(chunks) + (chunk + after);
  }
}
