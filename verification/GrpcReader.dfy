/** The framing decoder: resumes in the middle of a prefix or a message after an interrupted read. */
module GrpcReaders {
  import opened Bytes
  import opened ByteSources
  import opened Protowire
  import opened GrpcStream
  import opened GrpcWire

  datatype ReadError = Io(e: IoError) | Bad(why: Malformed)
  {
    predicate IsContextError() { Io? && e.IsContextError() }
  }

  /** An end of file inside a message is not the end that the stream should have. */
  function Cooked(told: IoError, inside: bool): IoError {
    if told == Eof && inside then UnexpectedEof else told
  }

  /** Finds the payload inside a message; the last one wins, and a rejected message has none. */
  method LocatePayload(f: FieldReader, message: seq<byte>) returns (start: nat, end: nat, bad: Option<Malformed>)
    ensures bad == None ==> start <= end <= |message| && ParseMessage(f, message, []) == Payload(message[start..end])
    ensures bad.Some? ==> ParseMessage(f, message, []) == Rejected(bad.value)
  {
    start, end, bad := 0, 0, None;
    var at := 0;
    while at < |message|
      invariant start <= end <= |message| && at <= |message|
      invariant ParseMessage(f, message, []) == ParseMessage(f, message[at..], message[start..end])
    {
      match f(message[at..]) {
        case NoField(why) =>
          return start, end, Some(why);
        case Unknown(n) =>
          assert message[at..][n..] == message[at + n..];
          at := at + n;
        case Data(from, n) =>
          assert message[at..][n..] == message[at + n..] && message[at..][from..n] == message[at + from..at + n];
          start, end := at + from, at + n;
          at := end;
      }
    }
  }

  class GrpcReader {
    /** How the fields of a message are told apart. */
    const fields: FieldReader
    const source: ByteSource
    const header: array<byte>
    var headerN: nat
    /** frame[..frameLen] is the message being read; the rest of the array is spare capacity. */
    var frame: array<byte>
    var frameLen: nat
    var frameN: nat
    /** The unread payload is the stretch frame[cacheStart..cacheEnd], not a copy of it. */
    var cacheStart: nat
    var cacheEnd: nat
    var err: Option<ReadError>
    /** All bytes taken from the source, those that made up whole messages, all bytes handed out. */
    ghost var consumed: seq<byte>
    ghost var parsed: seq<byte>
    ghost var delivered: seq<byte>

    function Cache(): seq<byte>
      requires cacheStart <= cacheEnd <= frame.Length
      reads this, frame
    {
      frame[cacheStart..cacheEnd]
    }

    ghost predicate Shape()
      reads this
    {
      && header.Length == PREFIX && header != frame
      && headerN <= PREFIX && frameN <= frameLen <= frame.Length
      && cacheStart <= cacheEnd <= frame.Length
    }

    /** The bytes of the message under construction. */
    ghost function Partial(): seq<byte>
      requires Shape()
      reads this, header, frame
    {
      header[..headerN] + frame[..frameN]
    }

    /** A message is under construction, and the room for it is already there. */
    ghost predicate Waiting()
      requires Shape()
      reads this, header, frame
    {
      if headerN < PREFIX then frameN == 0
      else header[0] == 0 && frameN < Size(header[..]) <= MAX_MESSAGE && frameLen == Size(header[..])
    }

    ghost predicate Tracked()
      requires Shape()
      reads this, header, frame
    {
      consumed == parsed + Partial()
    }

    ghost predicate Accounted()
      requires Shape()
      reads this, header, frame
    {
      && Tracked()
      && Decode(fields, parsed) == Decoded(delivered + Cache(), [], None)
    }

    ghost predicate Valid()
      reads this, header, frame
    {
      && Shape()
      && (err == None ==>
            && Accounted() && Waiting()
            && (cacheStart < cacheEnd ==> headerN == 0 && frameN == 0))
      && (err != None ==> delivered <= Decode(fields, consumed).payload)
    }

    constructor (fields: FieldReader, source: ByteSource)
      ensures Valid() && err == None && this.source == source && this.fields == fields
      ensures consumed == [] && delivered == []
      ensures fresh(header) && fresh(frame)
    {
      this.fields := fields;
      this.source := source;
      header := new byte[PREFIX];
      frame := new byte[0];
      headerN, frameLen, frameN, cacheStart, cacheEnd, err := 0, 0, 0, 0, 0, None;
      consumed, parsed, delivered := [], [], [];
    }

    /** Fills dst[have..hi], keeping what an interrupted call got. */
    method Fill(dst: array<byte>, have: nat, hi: nat) returns (now: nat, e: Option<IoError>, ghost got: seq<byte>)
      requires have <= hi <= dst.Length
      modifies source, dst
      ensures have <= now <= hi && (e == None <==> now == hi)
      ensures dst[..now] == old(dst[..have]) + got && |got| == now - have
      ensures got + source.wire == old(source.wire)
      ensures e == Some(Eof) ==> source.wire == []
      ensures source.Blamed(old(source.calls), old(source.quota), e)
    {
      now, got := have, [];
      while now < hi
        invariant source.Blamed(old(source.calls), old(source.quota), None)
        invariant have <= now <= hi
        invariant dst[..now] == old(dst[..have]) + got && |got| == now - have
        invariant got + source.wire == old(source.wire)
      {
        ghost var before, wire := dst[..], source.wire;
        var n, readError := source.Read(dst, now, hi);
        assert dst[..now + n] == before[..now] + wire[..n];
        got := got + wire[..n];
        now := now + n;
        if now == hi { return now, None, got; }
        if readError.Some? { return now, readError, got; }
        if n == 0 { return now, Some(NoProgress), got; }
      }
      e := None;
    }

    /** An error that is not about the messages is what the last read of the source said. */
    ghost predicate Blames(calls0: nat, quota0: nat, e: Option<ReadError>)
      reads this, source
    {
      && source.Blamed(calls0, quota0, if e.Some? && e.value.Io? then Some(Told(source.last)) else None)
      && (e.Some? && e.value.Io? ==> e.value.e == Cooked(Told(source.last), headerN > 0))
    }

    /** Between messages or inside one, with nothing left to hand out. */
    ghost predicate Hungry()
      reads this, header, frame
    {
      Shape() && err == None && cacheStart == cacheEnd && Accounted() && Waiting()
    }

    /** A whole, acceptable prefix has been read. */
    ghost predicate PrefixRead()
      reads this, header, frame
    {
      && Shape() && err == None && cacheStart == cacheEnd && Accounted()
      && headerN == PREFIX && header[0] == 0 && Size(header[..]) <= MAX_MESSAGE
      && (frameN > 0 ==> frameLen == Size(header[..]))
    }

    /** The message under construction can never be accepted. */
    ghost predicate Stuck(why: Malformed)
      reads this, header, frame
    {
      && Shape() && err == None && consumed == parsed + Partial()
      && Decode(fields, parsed) == Decoded(delivered, [], None) && ReadFirst(fields, Partial()) == Broken(why)
    }

    /** Takes the rest of the prefix; ReadPrefix judges it. */
    method FillHeader() returns (e: Option<IoError>)
      requires Shape() && Tracked() && (headerN < PREFIX ==> frameN == 0)
      modifies `headerN, `consumed, header, source
      ensures Shape() && Tracked()
      ensures consumed + source.wire == old(consumed + source.wire) && old(consumed) <= consumed
      ensures old(headerN) == PREFIX ==> header[..] == old(header[..])
      ensures e == None <==> headerN == PREFIX
      ensures e == Some(Eof) ==> source.wire == []
      ensures source.Blamed(old(source.calls), old(source.quota), e)
    {
      var n, ioError, got := Fill(header, headerN, PREFIX);
      assert headerN < PREFIX ==> frame[..frameN] == [];
      assert old(headerN) == PREFIX ==> got == [] && header[..n] == header[..];
      assert header[..n] + frame[..frameN] == old(Partial()) + got;
      headerN, consumed := n, consumed + got;
      e := ioError;
    }

    method ReadPrefix() returns (e: Option<ReadError>)
      requires Hungry()
      modifies `headerN, `consumed, header, source
      ensures Shape() && consumed + source.wire == old(consumed + source.wire) && old(consumed) <= consumed
      ensures e == None ==> PrefixRead() && header[0] == 0 && Announced(header[..]) <= 4194304
      ensures e.Some? && e.value.Io? ==> Hungry()
      ensures e == Some(Io(Eof)) ==> headerN == 0 && source.wire == []
      ensures e.Some? && e.value.Bad? ==>
                && headerN == 5
                && if header[0] != 0 then e.value.why == Compressed
                   else Announced(header[..]) > 4194304 && e.value.why == TooLarge
      ensures e.Some? && e.value.Bad? ==> Stuck(e.value.why)
      ensures Blames(old(source.calls), old(source.quota), e)
    {
      var ioError := FillHeader();
      if ioError.Some? {
        return Some(Io(if ioError == Some(Eof) && headerN != 0 then UnexpectedEof else ioError.value));
      }
      PrefixRejected(fields, header[..]);
      SizeIsAnnounced(header[..]);
      assert frameN == 0 ==> Partial() == header[..];
      if header[0] != 0 { return Some(Bad(Compressed)); }
      if BigEndian32(header[1..]) > MAX_MESSAGE { return Some(Bad(TooLarge)); }
      assert header[..][1..PREFIX] == header[1..];
      e := None;
    }

    /** Makes room for a message, reusing the array when it is large enough. */
    method PrepareFrame(size: nat)
      requires PrefixRead() && size == Size(header[..])
      modifies `frame, `frameLen, `cacheStart, `cacheEnd
      ensures frame == old(frame) || fresh(frame)
      ensures PrefixRead() && frameLen == size
    {
      if frame.Length < size {
        frame := new byte[size];
        cacheStart, cacheEnd := 0, 0;
        assert frame[..0] == old(frame[..0]);
      }
      frameLen := size;
    }

    method FillFrame() returns (e: Option<IoError>)
      requires Shape() && Tracked() && headerN == PREFIX
      modifies `frameN, `consumed, frame, source
      ensures Shape() && Tracked() && old(frameN) <= frameN
      ensures consumed + source.wire == old(consumed + source.wire) && old(consumed) <= consumed
      ensures e == None <==> frameN == frameLen
      ensures source.Blamed(old(source.calls), old(source.quota), e)
    {
      var n, ioError, got := Fill(frame, frameN, frameLen);
      assert header[..headerN] + frame[..n] == old(Partial()) + got;
      frameN, consumed := n, consumed + got;
      e := ioError;
    }

    method ReadBody() returns (e: Option<IoError>)
      requires PrefixRead() && frameLen == Size(header[..])
      modifies `frameN, `consumed, frame, source
      ensures PrefixRead()
      ensures consumed + source.wire == old(consumed + source.wire) && old(consumed) <= consumed
      ensures e == None ==> frameN == frameLen
      ensures e.Some? ==> Waiting() && e != Some(Eof)
      ensures Blames(old(source.calls), old(source.quota), if e.Some? then Some(Io(e.value)) else None)
    {
      e := FillFrame();
      assert Cache() == [];
      if e == Some(Eof) { e := Some(UnexpectedEof); }
    }

    method ReadFrame() returns (e: Option<IoError>)
      requires PrefixRead()
      modifies `frame, `frameLen, `frameN, `cacheStart, `cacheEnd, `consumed, frame, source
      ensures frame == old(frame) || fresh(frame)
      ensures PrefixRead()
      ensures consumed + source.wire == old(consumed + source.wire) && old(consumed) <= consumed
      ensures e == None ==> frameN == frameLen == Size(header[..])
      ensures e.Some? ==> Waiting() && e != Some(Eof)
      ensures Blames(old(source.calls), old(source.quota), if e.Some? then Some(Io(e.value)) else None)
    {
      PrepareFrame(Size(header[..]));
      e := ReadBody();
    }

    /** Judges a message that is complete; its payload stays where it is. */
    method FinishMessage() returns (bad: Option<Malformed>)
      requires PrefixRead() && frameN == frameLen == Size(header[..])
      modifies `headerN, `frameN, `cacheStart, `cacheEnd, `parsed
      ensures Shape()
      ensures bad == None ==> Valid() && headerN == 0 && frameN == 0
      ensures bad.Some? ==> Stuck(bad.value)
    {
      ghost var prefix, body := header[..], frame[..frameLen];
      assert Partial() == prefix + body;
      MessageJudged(fields, prefix, body);
      var start, end, why := LocatePayload(fields, frame[..frameLen]);
      bad := why;
      if bad == None {
        OneMoreMessage(fields, parsed, delivered, prefix + body, body[start..end]);
        cacheStart, cacheEnd := start, end;
        assert Cache() == body[start..end];
        NextMessage();
      }
    }

    /** The message just read joins the whole messages. */
    method NextMessage()
      requires Shape() && err == None
      requires Decode(fields, consumed) == Decoded(delivered + Cache(), [], None)
      modifies `headerN, `frameN, `parsed
      ensures Valid() && headerN == 0 && frameN == 0
    {
      headerN, frameN := 0, 0;
      parsed := consumed;
      assert parsed + Partial() == parsed;
    }

    /** On success a whole message has been read and its payload, perhaps empty, is the cache. */
    method ReadMessage() returns (e: Option<ReadError>)
      requires Hungry()
      modifies `headerN, `frame, `frameLen, `frameN, `cacheStart, `cacheEnd, `consumed, `parsed, header, frame, source
      ensures frame == old(frame) || fresh(frame)
      ensures Shape() && consumed + source.wire == old(consumed + source.wire) && old(consumed) <= consumed
      ensures e == None ==> Valid() && headerN == 0 && frameN == 0 && |consumed| > |old(parsed)|
      ensures e.Some? && e.value.Io? ==> Hungry()
      ensures e == Some(Io(Eof)) ==> headerN == 0 && source.wire == []
      ensures e.Some? && e.value.Bad? ==> Stuck(e.value.why)
      ensures Blames(old(source.calls), old(source.quota), e)
    {
      e := ReadPrefix();
      if e == None { e := ReadAfterPrefix(); }
    }

    /** The rest of a message whose prefix is acceptable. */
    method ReadAfterPrefix() returns (e: Option<ReadError>)
      requires PrefixRead()
      modifies `headerN, `frame, `frameLen, `frameN, `cacheStart, `cacheEnd, `consumed, `parsed, frame, source
      ensures frame == old(frame) || fresh(frame)
      ensures Shape() && consumed + source.wire == old(consumed + source.wire) && old(consumed) <= consumed
      ensures e == None ==> Valid() && headerN == 0 && frameN == 0
      ensures e.Some? && e.value.Io? ==> Hungry() && e.value.e != Eof
      ensures e.Some? && e.value.Bad? ==> Stuck(e.value.why)
      ensures Blames(old(source.calls), old(source.quota), e)
    {
      var ioError := ReadFrame();
      if ioError.Some? { return Some(Io(ioError.value)); }
      var bad := FinishMessage();
      e := if bad.Some? then Some(Bad(bad.value)) else None;
    }

    /** Copies unread payload to the caller. */
    method HandOut(p: array<byte>) returns (n: nat)
      requires Shape() && p != header && p != frame
      modifies `cacheStart, `delivered, p
      ensures Shape() && n == Min(p.Length, old(cacheEnd - cacheStart)) == cacheStart - old(cacheStart)
      ensures delivered + Cache() == old(delivered + Cache())
      ensures delivered == old(delivered) + p[..n] && p[n..] == old(p[n..])
    {
      n := Min(p.Length, cacheEnd - cacheStart);
      forall i | 0 <= i < n { p[i] := frame[cacheStart + i]; }
      assert Cache() == p[..n] + frame[cacheStart + n..cacheEnd];
      delivered, cacheStart := delivered + p[..n], cacheStart + n;
    }

    /** A malformed message ends the stream at the last byte before it. */
    lemma StuckIsFailure(why: Malformed)
      requires Stuck(why)
      ensures Decode(fields, consumed) == Decoded(delivered, Partial(), Some(why))
    {
      StopsBefore(fields, parsed, delivered, Partial());
    }

    lemma HungryIsSound()
      requires Hungry()
      ensures ReadFirst(fields, Partial()) == Incomplete
      ensures Decode(fields, consumed) == Decoded(delivered, Partial(), None)
    {
      assert Cache() == [];
      if headerN == PREFIX {
        assert Partial()[1..PREFIX] == header[1..];
      }
      StopsBefore(fields, parsed, delivered, Partial());
    }

    /** The unread payload that has been taken from the source. */
    lemma ValidIsSound()
      requires Valid() && err == None
      ensures Decode(fields, consumed).payload == delivered + Cache()
      ensures Decode(fields, consumed).failure == None
    {
      if cacheStart == cacheEnd {
        HungryIsSound();
      } else {
        assert Partial() == [];
        assert parsed + [] == parsed;
      }
    }

    /** Reads messages until one has a payload; empty messages are legal and skipped. */
    method FillCache() returns (e: Option<ReadError>)
      requires Valid() && err == None
      modifies `headerN, `frame, `frameLen, `frameN, `cacheStart, `cacheEnd, `consumed, `parsed, header, frame, source
      ensures frame == old(frame) || fresh(frame)
      ensures Shape() && consumed + source.wire == old(consumed + source.wire) && old(consumed) <= consumed
      ensures e == None ==> Valid() && cacheStart < cacheEnd
      ensures e.Some? && e.value.Io? ==> Hungry()
      ensures e == Some(Io(Eof)) ==> headerN == 0 && source.wire == []
      ensures e.Some? && e.value.Bad? ==> Stuck(e.value.why)
      ensures Blames(old(source.calls), old(source.quota), e)
    {
      e := None;
      while cacheStart == cacheEnd
        invariant Blames(old(source.calls), old(source.quota), None)
        invariant frame == old(frame) || fresh(frame)
        invariant e == None && Valid() && err == None
        invariant consumed + source.wire == old(consumed + source.wire) && old(consumed) <= consumed
        decreases |source.wire| + headerN + frameN
      {
        assert |consumed| == |parsed| + headerN + frameN;
        e := ReadMessage();
        if e.Some? { return; }
      }
    }

    /** The payload of the bytes taken so far, and the reason it ends there, if there is one. */
    ghost predicate Means(payload: seq<byte>, failure: Option<Malformed>)
      reads this
    {
      Decode(fields, consumed).payload == payload && Decode(fields, consumed).failure == failure
    }

    /** Keeps any error that is not the caller's own. */
    method Fail(e: ReadError)
      requires if e.Bad? then Stuck(e.why) else Hungry()
      modifies `err
      ensures Valid() && err == if e.IsContextError() then None else Some(e)
      ensures if e.Bad? then Means(delivered, Some(e.why)) else Means(delivered, None)
      ensures e.Io? ==> cacheStart == cacheEnd && Decode(fields, consumed) == Decoded(delivered, Partial(), None)
      ensures e.Io? ==> (Decode(fields, consumed).rest != [] <==> headerN > 0)
    {
      if e.Bad? {
        StuckIsFailure(e.why);
      } else {
        HungryIsSound();
        BegunIsLeftOver();
        assert delivered + Cache() == delivered;
      }
      if !e.IsContextError() { err := Some(e); }
    }

    method Deliver(p: array<byte>) returns (n: nat)
      requires Valid() && err == None && cacheStart < cacheEnd && p != header && p != frame
      modifies `cacheStart, `delivered, p
      ensures Valid() && n <= p.Length && (p.Length > 0 ==> n > 0)
      ensures delivered == old(delivered) + p[..n] && p[n..] == old(p[n..])
    {
      n := HandOut(p);
    }

    /**
     Where the error of a call comes from: the context of the caller, or the last read of the
     source; the end of file is unexpected exactly when it came inside a message.
     */
    ghost predicate Explained(calls0: nat, quota0: nat, ctxError: Option<IoError>, e: Option<ReadError>, inside: bool)
      reads source
    {
      if ctxError.Some? then e == Some(Io(ctxError.value)) && source.calls == calls0 && source.quota == quota0
      else
        && source.Blamed(calls0, quota0, if e.Some? && e.value.Io? then Some(Told(source.last)) else None)
        && (e.Some? && e.value.Io? ==> e.value.e == Cooked(Told(source.last), inside))
    }

    /** What a call says about the message that begins behind those decoded. */
    ghost predicate Judged(e: Option<ReadError>)
      reads this
    {
      if e.Some? && e.value.Bad? then Refused(fields, Decode(fields, consumed).rest, e.value.why)
      else MayBeAccepted(fields, Decode(fields, consumed).rest)
    }

    /** A message has been begun exactly if something is left over. */
    lemma BegunIsLeftOver()
      requires Hungry()
      ensures Decode(fields, consumed).rest != [] <==> headerN > 0
    {
      HungryIsSound();
      assert |Partial()| == headerN + frameN;
    }

    /** What a failed call says is the truth about the bytes taken so far. */
    ghost predicate Truthful(e: Option<ReadError>)
      reads this, source
    {
      && (e.Some? && e.value.Io? ==> Means(delivered, None))
      && (e.Some? && e.value.Bad? ==> Means(delivered, Some(e.value.why)))
      && (e == Some(Io(Eof)) ==> source.wire == [] && Decode(fields, consumed) == Decoded(delivered, [], None))
    }

    /** Takes messages until there is payload to hand out, or keeps the error. */
    method FillOrFail() returns (e: Option<ReadError>)
      requires Valid() && err == None
      modifies `headerN, `frame, `frameLen, `frameN, `cacheStart, `cacheEnd, `consumed, `parsed, `err
      modifies header, frame, source
      ensures Valid() && (frame == old(frame) || fresh(frame))
      ensures consumed + source.wire == old(consumed + source.wire) && old(consumed) <= consumed
      ensures e == None ==> cacheStart < cacheEnd
      ensures err == if e == None || e.value.IsContextError() then None else e
      ensures Truthful(e)
      ensures e.Some? && e.value.Io? ==> Cache() == []
      ensures Explained(old(source.calls), old(source.quota), None, e, Decode(fields, consumed).rest != [])
    {
      e := FillCache();
      if e.Some? { Fail(e.value); }
    }

    /** One Read of a good reader into a buffer with room. */
    method ReadMore(p: array<byte>) returns (n: nat, e: Option<ReadError>)
      requires Valid() && err == None && p.Length > 0 && p != header && p != frame
      modifies this, header, frame, source, p
      ensures Valid() && (frame == old(frame) || fresh(frame))
      ensures consumed + source.wire == old(consumed + source.wire) && old(consumed) <= consumed
      ensures n <= p.Length && delivered == old(delivered) + p[..n] && p[n..] == old(p[n..])
      ensures e == None <==> n > 0
      ensures err == if e == None || e.value.IsContextError() then None else e
      ensures Explained(old(source.calls), old(source.quota), None, e, Decode(fields, consumed).rest != [])
      ensures Truthful(e) && (e.Some? && e.value.Io? ==> Cache() == [])
    {
      e := FillOrFail();
      if e == None {
        n := Deliver(p);
      } else {
        n := 0;
        assert p[..0] == [] && delivered + [] == delivered;
      }
    }

    lemma VerdictIsJudged(e: Option<ReadError>)
      requires Valid() && (e.Some? && e.value.Bad? ==> Means(delivered, Some(e.value.why)))
      requires !(e.Some? && e.value.Bad?) ==> err == None || Decode(fields, consumed).failure == None
      ensures Judged(e)
    {
      if err == None { ValidIsSound(); }
      FailureIsRefusal(fields, consumed);
    }

    /**
     One Read. Whatever the transport does, the bytes handed out stay equal to the payload of the
     bytes taken so far; an interrupted call changes nothing that a later call cannot make good,
     and any other error is reported again by every later call.
     */
    method ReadContext(ctxError: Option<IoError>, p: array<byte>) returns (n: nat, e: Option<ReadError>)
      requires Valid() && p != header && p != frame
      requires ctxError.Some? ==> ctxError.value.IsContextError()
      modifies this, header, frame, source, p
      ensures Valid() && (frame == old(frame) || fresh(frame))
      ensures consumed + source.wire == old(consumed + source.wire) && old(consumed) <= consumed
      ensures n <= p.Length && delivered == old(delivered) + p[..n] && p[n..] == old(p[n..])
      ensures p.Length == 0 ==> e == None && err == old(err)
      ensures p.Length > 0 ==> (e == None <==> n > 0)
      ensures p.Length > 0 && old(err).Some? ==> e == old(err)
      ensures err == if old(err).Some? || e == None || e.value.IsContextError() then old(err) else e
      ensures p.Length > 0 && old(err) == None ==>
                Explained(old(source.calls), old(source.quota), ctxError, e, Decode(fields, consumed).rest != [])
      ensures old(err) == None && e.Some? && e.value.Io? ==> Means(delivered + Cache(), None)
      ensures old(err) == None && e.Some? && e.value.Bad? ==> Means(delivered, Some(e.value.why))
      ensures old(err) == None ==> Judged(e)
      ensures old(err) == None && e == Some(Io(Eof)) ==>
        source.wire == [] && Decode(fields, consumed) == Decoded(delivered, [], None)
    {
      if p.Length == 0 {
        if err == None { VerdictIsJudged(None); }
        return 0, None;
      }
      if err.Some? { return 0, err; }
      if ctxError.Some? {
        ValidIsSound();
        VerdictIsJudged(Some(Io(ctxError.value)));
        return 0, Some(Io(ctxError.value));
      }
      n, e := ReadMore(p);
      assert e.Some? && e.value.Io? ==> delivered + Cache() == delivered;
      VerdictIsJudged(e);
    }

    /** What has been delivered is part of what can be decoded. */
    lemma DeliveredIsPayload()
      requires Valid()
      ensures delivered <= Decode(fields, consumed).payload
    {
      if err == None { ValidIsSound(); }
    }

    /** Further reads fail. */
    method SetError(e: ReadError)
      requires Shape() && delivered <= Decode(fields, consumed).payload
      modifies `err
      ensures Valid() && err == Some(e)
    {
      err := Some(e);
    }

    /** A reader that has failed needs no buffers. */
    method DropBuffers()
      requires Valid() && err.Some?
      modifies `frame, `frameLen, `frameN, `cacheStart, `cacheEnd
      ensures Valid() && err == old(err) && delivered == old(delivered)
    {
      frame := new byte[0];
      frameLen, frameN, cacheStart, cacheEnd := 0, 0, 0, 0;
    }

    /** Drops the buffers; later reads fail, with the first error if there was one. */
    method Release()
      requires Valid()
      modifies this
      ensures Valid() && delivered == old(delivered)
      ensures err == if old(err).Some? then old(err) else Some(Io(ClosedPipe))
    {
      if err == None {
        DeliveredIsPayload();
        SetError(Io(ClosedPipe));
      }
      DropBuffers();
    }
  }
}
