/**
 A connection in use: the object driven by its callers, its deadlines and the native stream in any
 order. Every call brings its own buffer, which the stream fills or reads while the call lasts; a
 caller whose call has returned may write into its buffer again at once.
 */
module BidiSessions {
  import opened Bytes
  import opened BidiModel
  import opened BidiSafety
  import opened BidiTables
  import opened BidirectionalConns

  class BidiSession {
    const conn: BidirectionalConn
    /** The buffers of the current or the last read and write. */
    var readBuffer: array<byte>
    var writeBuffer: array<byte>
    /** What the stream has put into read buffers, completion by completion, and what readers got. */
    var arrived: seq<seq<byte>>
    var received: seq<byte>
    /**
     What the calls of Write were given, call by call, what the stream has read out of their buffers,
     completion by completion, and the data of the calls that reported success.
     */
    var offered: seq<seq<byte>>
    var sent: seq<seq<byte>>
    var accepted: seq<seq<byte>>

    ghost function Now(): Books
      reads this, readBuffer, writeBuffer
    {
      Books(readBuffer[..], arrived, received, writeBuffer[..], offered, sent, accepted)
    }

    ghost predicate Valid()
      reads this, conn, readBuffer, writeBuffer
    {
      readBuffer != writeBuffer && Right(conn.Abs(), Now())
    }

    constructor (readWaitHeaders: bool, writeWaitHeaders: bool)
      ensures Valid() && fresh(conn) && fresh(readBuffer) && fresh(writeBuffer)
      ensures conn.Abs() == Initial(readWaitHeaders, writeWaitHeaders)
    {
      conn := new BidirectionalConn(readWaitHeaders, writeWaitHeaders);
      readBuffer := new byte[0];
      writeBuffer := new byte[0];
      arrived, received, offered, sent, accepted := [], [], [], [], [];
      new;
      InitialIsOrderly(readWaitHeaders, writeWaitHeaders);
    }

    /** A call of Read, with a buffer of the caller. */
    method BeginRead(p: array<byte>)
      requires Valid() && Enabled(conn.Abs(), EvMove(In, Begin(p.Length))) && p != writeBuffer
      modifies `readBuffer, conn
      ensures Valid() && readBuffer == p && conn.Abs() == Step(old(conn.Abs()), EvMove(In, Begin(p.Length)))
    {
      ReadBegins(conn.Abs(), Now(), p[..]);
      var _ := conn.MoveCaller(In, Begin(p.Length));
      readBuffer := p;
    }

    method BeginWrite(p: array<byte>)
      requires Valid() && Enabled(conn.Abs(), EvMove(Out, Begin(p.Length))) && p != readBuffer
      modifies `writeBuffer, `offered, conn
      ensures Valid() && writeBuffer == p && conn.Abs() == Step(old(conn.Abs()), EvMove(Out, Begin(p.Length)))
      ensures offered == old(offered) + [p[..]]
    {
      WriteBegins(conn.Abs(), Now(), p[..]);
      var _ := conn.MoveCaller(Out, Begin(p.Length));
      writeBuffer := p;
      offered := offered + [p[..]];
    }

    /** A caller that is not inside a call does with its buffer what it likes. */
    method ReuseReadBuffer(i: nat, b: byte)
      requires Valid() && conn.reading.caller == Idle && i < readBuffer.Length
      modifies readBuffer
      ensures Valid()
    {
      readBuffer[i] := b;
    }

    method ReuseWriteBuffer(i: nat, b: byte)
      requires Valid() && conn.writing.caller == Idle && i < writeBuffer.Length
      modifies writeBuffer
      ensures Valid()
    {
      writeBuffer[i] := b;
    }

    /** The stream puts bytes into the buffer of the read it was given. */
    method CompleteRead(data: seq<byte>)
      requires Valid() && data != [] && Enabled(conn.Abs(), EvCompleted(In, |data|))
      modifies `arrived, readBuffer, conn
      ensures Valid() && conn.Abs() == Step(old(conn.Abs()), EvCompleted(In, |data|))
      ensures arrived == old(arrived) + [data]
    {
      ReadArrives(conn.Abs(), Now(), data);
      Fill(readBuffer, data);
      conn.OnReadCompleted(|data|);
      arrived := arrived + [data];
    }

    /** What the stream read is counted. */
    method CountWrite()
      modifies `sent
      ensures Now() == old(Now()).(sent := old(sent) + [writeBuffer[..]])
    {
      sent := sent + [writeBuffer[..]];
    }

    /** The stream has read the buffer of the write it was given, as late as it could. */
    method CompleteWrite()
      requires Valid() && Enabled(conn.Abs(), EvCompleted(Out, writeBuffer.Length))
      modifies `sent, conn
      ensures Valid() && conn.Abs() == Step(old(conn.Abs()), EvCompleted(Out, writeBuffer.Length))
      ensures sent == old(sent) + [writeBuffer[..]] && offered != [] && writeBuffer[..] == offered[|offered| - 1]
    {
      WriteIsCarriedOut(conn.Abs(), Now(), writeBuffer.Length);
      conn.OnWriteCompleted(writeBuffer.Length);
      CountWrite();
    }

    /** A completion meets the select of a reader: one that still waits returns with its bytes. */
    method TakeRead()
      requires Valid() && Enabled(conn.Abs(), EvHandOver) && conn.env.thread.d == In
      modifies `received, conn
      ensures Valid() && conn.Abs() == Step(old(conn.Abs()), EvHandOver)
      ensures old(conn.reading.caller).Waiting? ==> received == old(received) + readBuffer[..old(conn.env.thread.t.n)]
    {
      ReadIsTaken(conn.Abs(), Now());
      if conn.reading.caller.Waiting? { received := received + readBuffer[..conn.env.thread.t.n]; }
      conn.OnReadTaken();
    }

    method TakeWrite()
      requires Valid() && Enabled(conn.Abs(), EvHandOver) && conn.env.thread.d == Out
      modifies `accepted, conn
      ensures Valid() && conn.Abs() == Step(old(conn.Abs()), EvHandOver)
      ensures old(conn.writing.caller).Waiting? ==> accepted == old(accepted) + [writeBuffer[..]]
    {
      WriteIsTaken(conn.Abs(), Now());
      if conn.writing.caller.Waiting? { accepted := accepted + [writeBuffer[..]]; }
      conn.OnWriteTaken();
    }

    /** The steps that move no bytes. */
    method Other(ev: Event)
      requires Valid() && Enabled(conn.Abs(), ev) && Quiet(ev)
      modifies conn
      ensures Valid() && conn.Abs() == Step(old(conn.Abs()), ev)
    {
      QuietStepIsRight(conn.Abs(), Now(), ev);
      Dispatch(ev);
    }

    method Dispatch(ev: Event)
      requires Enabled(conn.Abs(), ev) && Quiet(ev)
      modifies conn
      ensures conn.Abs() == Step(old(conn.Abs()), ev)
    {
      match ev
      case EvStart(ok) => var _ := conn.Start(ok);
      case EvStartFailed => conn.Conclude(true, Invalid);
      case EvMove(d, m) => var _ := conn.MoveCaller(d, m);
      case EvIssue(d) => match d { case In => var _ := conn.IssueRead(); case Out => var _ := conn.IssueWrite(); }
      case EvGivesUp(d) => match d { case In => conn.GiveUpRead(); case Out => conn.GiveUpWrite(); }
      case EvClose => var _ := conn.Close();
      case EvSetOnTerminate => var _ := conn.SetOnTerminate();
      case EvRunHook => conn.RunHook();
      case EvReady => conn.OnStreamReady();
      case EvHandshake => conn.OnResponseHeadersReceived();
      case EvCompleted(_, n) => conn.OnReadCompleted(n);
      case EvDrop =>
        match conn.env.thread.d { case In => conn.OnReadDropped(); case Out => conn.OnWriteDropped(); }
      case EvTerminal(e) => conn.OnTerminal(e);
      case EvTerminate => conn.Conclude(false, conn.env.thread.e);
      case EvNativeDestroyed => conn.LoseBuffers();
    }

    /** The steps that move bytes. */
    method BeginCall(d: Dir, data: seq<byte>)
      requires Valid() && Enabled(conn.Abs(), EvMove(d, Begin(|data|)))
      modifies this, conn
      ensures Valid() && arrived == old(arrived) && old(offered) <= offered
      ensures conn.Abs() == Step(old(conn.Abs()), EvMove(d, Begin(|data|)))
      ensures readBuffer == old(readBuffer) || fresh(readBuffer)
      ensures writeBuffer == old(writeBuffer) || fresh(writeBuffer)
    {
      var p := new byte[|data|](i requires 0 <= i < |data| => data[i]);
      match d { case In => BeginRead(p); case Out => BeginWrite(p); }
    }

    method Complete(d: Dir, n: nat, data: seq<byte>)
      requires Valid() && Enabled(conn.Abs(), EvCompleted(d, n)) && (d == In ==> |data| == n > 0)
      modifies `arrived, `sent, readBuffer, conn
      ensures Valid() && old(arrived) <= arrived && conn.Abs() == Step(old(conn.Abs()), EvCompleted(d, n))
    {
      match d {
        case In => CompleteRead(data);
        case Out =>
          CompletionIsOfBuffer(conn.Abs(), Now(), n);
          CompleteWrite();
      }
    }

    method HandOver()
      requires Valid() && Enabled(conn.Abs(), EvHandOver)
      modifies `received, `accepted, conn
      ensures Valid() && conn.Abs() == Step(old(conn.Abs()), EvHandOver)
    {
      match conn.env.thread.d { case In => TakeRead(); case Out => TakeWrite(); }
    }

    method MoveBytes(ev: Event, data: seq<byte>)
      requires Valid() && Enabled(conn.Abs(), ev) && !Quiet(ev) && Brings(ev, |data|)
      modifies this, readBuffer, conn
      ensures Valid() && old(arrived) <= arrived && old(offered) <= offered
      ensures conn.Abs() == Step(old(conn.Abs()), ev)
      ensures readBuffer == old(readBuffer) || fresh(readBuffer)
      ensures writeBuffer == old(writeBuffer) || fresh(writeBuffer)
    {
      match ev
      case EvMove(d, m) => BeginCall(d, data);
      case EvCompleted(d, n) => Complete(d, n, data);
      case EvHandOver => HandOver();
    }

    /** One step of anybody, if it is possible. */
    method Turn(ev: Event, data: seq<byte>) returns (done: bool)
      requires Valid()
      modifies this, readBuffer, writeBuffer, conn
      ensures Valid() && old(arrived) <= arrived && old(offered) <= offered
      ensures readBuffer == old(readBuffer) || fresh(readBuffer)
      ensures writeBuffer == old(writeBuffer) || fresh(writeBuffer)
      ensures done ==> Enabled(old(conn.Abs()), ev) && conn.Abs() == Step(old(conn.Abs()), ev)
      ensures !done ==> conn.Abs() == old(conn.Abs())
    {
      done := Enabled(conn.Abs(), ev) && (Quiet(ev) || Brings(ev, |data|));
      if done {
        if Quiet(ev) { Other(ev); } else { MoveBytes(ev, data); }
      }
    }

    /** A caller outside its call changes its buffer. */
    method Scribble(d: Dir, i: nat, b: byte)
      requires Valid()
      modifies readBuffer, writeBuffer
      ensures Valid() && conn.Abs() == old(conn.Abs())
    {
      match d {
        case In => if conn.reading.caller == Idle && i < readBuffer.Length { ReuseReadBuffer(i, b); }
        case Out => if conn.writing.caller == Idle && i < writeBuffer.Length { ReuseWriteBuffer(i, b); }
      }
    }
  }

  /**
   Any number of steps of anybody in any order, with callers that use their buffers again as soon as
   they may. Readers have got a prefix of what the stream delivered; every write that the stream
   carried out was of exactly the bytes that its call was given, those that reported success first;
   nothing but the completion in transit is missing while the connection is good. The steps are a run
   of the machine, and the error is that of the event that ended the connection.
   */
  method Drive(readWaitHeaders: bool, writeWaitHeaders: bool, turns: nat)
      returns (session: BidiSession, ghost states: seq<State>, ghost events: seq<Event>)
    ensures session.received <= Concat(session.arrived) && session.accepted <= session.sent
    ensures forall i :: 0 <= i < |session.sent| ==> session.sent[i] in session.offered
    ensures !session.conn.closed && !session.conn.done && session.conn.env.thread == Free ==>
              && (!session.conn.reading.caller.Draining? ==> session.received == Concat(session.arrived))
              && (!session.conn.writing.caller.Draining? ==> session.accepted == session.sent)
    ensures session.conn.done && !session.conn.env.early ==>
              session.conn.reading.native == None && session.conn.writing.native == None
    ensures Judge(session.conn.env.log) != Violation
    ensures IsRun(states, events) && states[|events|] == session.conn.Abs()
    ensures session.conn.done ==> session.conn.err == FirstCause(states, events, |events|)
    ensures session.conn.env.log == AllCalls(states, events, |events|)
  {
    session := new BidiSession(readWaitHeaders, writeWaitHeaders);
    states, events := [session.conn.Abs()], [];
    assert states[0] == Initial(readWaitHeaders, writeWaitHeaders);
    for i := 0 to turns
      invariant fresh(session) && fresh(session.conn) && fresh(session.readBuffer) && fresh(session.writeBuffer)
      invariant session.Valid()
      invariant IsRun(states, events) && states[|events|] == session.conn.Abs()
    {
      var ev: Event, data: seq<byte> := *, *;
      var done := session.Turn(ev, data);
      if done {
        OneMoreStep(states, events, ev, session.conn.Abs());
        states, events := states + [session.conn.Abs()], events + [ev];
      }
      var d: Dir, k: nat, b: byte := *, *, *;
      session.Scribble(d, k, b);
    }
    BooksAgree(session.conn.Abs(), session.Now());
    RunKeepsTo(states, events, |events|);
  }

  /** One more step of a run. */
  lemma OneMoreStep(states: seq<State>, events: seq<Event>, ev: Event, t: State)
    requires IsRun(states, events) && Enabled(states[|events|], ev) && t == Step(states[|events|], ev)
    ensures IsRun(states + [t], events + [ev])
  {
    assert (states + [t])[0] == states[0];
    forall i | 0 <= i < |events| + 1
      ensures Enabled((states + [t])[i], (events + [ev])[i])
      ensures (states + [t])[i + 1] == Step((states + [t])[i], (events + [ev])[i])
    {
    }
  }

  method Fill(a: array<byte>, data: seq<byte>)
    requires |data| <= a.Length
    modifies a
    ensures a[..] == data + old(a[..])[|data|..]
  {
    forall i | 0 <= i < |data| { a[i] := data[i]; }
  }

  // ---------- the bytes of the two directions ----------

  /** The buffers, and what has gone through them. */
  datatype Books = Books(
    readBuffer: seq<byte>, arrived: seq<seq<byte>>, received: seq<byte>,
    writeBuffer: seq<byte>, offered: seq<seq<byte>>, sent: seq<seq<byte>>, accepted: seq<seq<byte>>)

  /** Readers got the first completions, and the one in transit lies in the buffer of its call. */
  ghost predicate ReadsAreRight(x: Side, coming: Option<Transfer>, b: Books) {
    && |b.arrived| == |x.completed| && |x.returned| <= |b.arrived|
    && b.received == Concat(b.arrived[..|x.returned|])
    && (x.caller != Idle ==> x.caller.t.n == |b.readBuffer|)
    && (coming.Some? ==>
          && b.arrived != [] && coming.value.n <= |b.readBuffer|
          && b.readBuffer[..coming.value.n] == b.arrived[|b.arrived| - 1])
  }

  /**
   A call in progress has its data in its buffer, and every completion moved the data of its call,
   whatever callers did to their buffers afterwards.
   */
  ghost predicate WritesAreRight(x: Side, b: Books) {
    && |b.offered| == x.next
    && (x.caller != Idle ==>
          && b.offered != [] && x.caller.t == Transfer(|b.offered| - 1, |b.writeBuffer|)
          && b.writeBuffer == b.offered[|b.offered| - 1])
    && |b.sent| == |x.completed|
    && (forall i :: 0 <= i < |b.sent| ==>
          x.completed[i].id < |b.offered| && b.sent[i] == b.offered[x.completed[i].id])
    && |x.returned| <= |b.sent| && b.accepted == b.sent[..|x.returned|]
  }

  ghost predicate Right(s: State, b: Books) {
    Orderly(s) && ReadsAreRight(s.input, Coming(s, In), b) && WritesAreRight(s.output, b)
  }

  predicate Quiet(ev: Event) {
    match ev
    case EvMove(_, m) => !m.Begin?
    case EvCompleted(d, n) => d == In && n == 0
    case EvHandOver => false
    case _ => true
  }

  /** The step is about this many bytes. */
  predicate Brings(ev: Event, n: nat) {
    match ev
    case EvMove(_, m) => m.Begin? && m.room == n
    case EvCompleted(d, k) => d == In ==> k == n
    case _ => true
  }

  /** No call begins or changes, and nothing is moved or reported. */
  predicate Still(x: Side, y: Side) {
    && y.next == x.next && y.completed == x.completed && y.returned == x.returned
    && (y.caller != Idle ==> x.caller != Idle && y.caller.t == x.caller.t)
  }

  predicate BothStill(s: State, t: State) {
    && Still(s.input, t.input) && Still(s.output, t.output)
    && (Coming(t, In).Some? ==> Coming(t, In) == Coming(s, In))
  }

  lemma CallerIsStill(s: State, d: Dir, ev: Event)
    requires Enabled(s, ev) && Quiet(ev)
    requires
      (ev.EvMove? && ev.d == d) || ev == EvIssue(d) || ev == EvGivesUp(d) || (ev == EvDrop && s.env.thread.d == d)
    ensures BothStill(s, Step(s, ev))
  {
    var x, y := At(s, d), At(Step(s, ev), d);
    assert Still(x, y);
    match d { case In => case Out => }
  }

  lemma QuietStepMovesNothing(s: State, ev: Event)
    requires Enabled(s, ev) && Quiet(ev)
    ensures BothStill(s, Step(s, ev))
  {
    match ev
    case EvMove(d, _) => CallerIsStill(s, d, ev);
    case EvIssue(d) => CallerIsStill(s, d, ev);
    case EvGivesUp(d) => CallerIsStill(s, d, ev);
    case EvDrop => CallerIsStill(s, s.env.thread.d, ev);
    case _ =>
  }

  lemma QuietStepIsRight(s: State, b: Books, ev: Event)
    requires Right(s, b) && Enabled(s, ev) && Quiet(ev)
    ensures Right(Step(s, ev), b)
  {
    QuietStepMovesNothing(s, ev);
    NextIsOrderly(s, ev, Step(s, ev));
  }

  lemma ReadBegins(s: State, b: Books, p: seq<byte>)
    requires Right(s, b) && Enabled(s, EvMove(In, Begin(|p|)))
    ensures Right(Step(s, EvMove(In, Begin(|p|))), b.(readBuffer := p))
  {
    NextIsOrderly(s, EvMove(In, Begin(|p|)), Step(s, EvMove(In, Begin(|p|))));
    assert Coming(s, In).Some? ==> Serves(s.input.caller, In, Coming(s, In).value);
  }

  lemma WriteBegins(s: State, b: Books, p: seq<byte>)
    requires Right(s, b) && Enabled(s, EvMove(Out, Begin(|p|)))
    ensures Right(Step(s, EvMove(Out, Begin(|p|))), b.(writeBuffer := p, offered := b.offered + [p]))
  {
    NextIsOrderly(s, EvMove(Out, Begin(|p|)), Step(s, EvMove(Out, Begin(|p|))));
  }

  lemma ReadArrives(s: State, b: Books, data: seq<byte>)
    requires Right(s, b) && data != [] && Enabled(s, EvCompleted(In, |data|))
    ensures |data| <= |b.readBuffer|
    ensures Right(Step(s, EvCompleted(In, |data|)),
                  b.(readBuffer := data + b.readBuffer[|data|..], arrived := b.arrived + [data]))
  {
    var filled := data + b.readBuffer[|data|..];
    assert |filled| == |b.readBuffer| && filled[..|data|] == data;
    assert (b.arrived + [data])[..|s.input.returned|] == b.arrived[..|s.input.returned|];
    NextIsOrderly(s, EvCompleted(In, |data|), Step(s, EvCompleted(In, |data|)));
  }

  lemma WriteIsCounted(s: State, b: Books, n: nat)
    requires Right(s, b) && n == |b.writeBuffer| && Enabled(s, EvCompleted(Out, n))
    ensures WritesAreRight(Completed(s, Out, n).output, b.(sent := b.sent + [b.writeBuffer]))
    ensures b.offered != [] && b.writeBuffer == b.offered[|b.offered| - 1]
  {
    assert Inside(s.output.caller, s.output.native.value);
    assert (b.sent + [b.writeBuffer])[..|s.output.returned|] == b.sent[..|s.output.returned|];
  }

  lemma WriteIsCarriedOut(s: State, b: Books, n: nat)
    requires Right(s, b) && n == |b.writeBuffer| && Enabled(s, EvCompleted(Out, n))
    ensures Right(Step(s, EvCompleted(Out, n)), b.(sent := b.sent + [b.writeBuffer]))
    ensures b.offered != [] && b.writeBuffer == b.offered[|b.offered| - 1]
  {
    WriteIsCounted(s, b, n);
    NextIsOrderly(s, EvCompleted(Out, n), Step(s, EvCompleted(Out, n)));
  }

  lemma ReadIsTaken(s: State, b: Books)
    requires Right(s, b) && Enabled(s, EvHandOver) && s.env.thread.d == In
    ensures var n := s.env.thread.t.n;
            && n <= |b.readBuffer|
            && Right(Step(s, EvHandOver),
                     if s.input.caller.Waiting? then b.(received := b.received + b.readBuffer[..n]) else b)
  {
    var n := |s.input.returned|;
    assert Accounts(s.input, ViewOf(s, In)) && n == |b.arrived| - 1;
    ConcatSnoc(b.arrived[..n], b.arrived[n]);
    assert b.arrived[..n] + [b.arrived[n]] == b.arrived[..n + 1];
    NextIsOrderly(s, EvHandOver, Step(s, EvHandOver));
  }

  lemma WriteIsTaken(s: State, b: Books)
    requires Right(s, b) && Enabled(s, EvHandOver) && s.env.thread.d == Out
    ensures Right(Step(s, EvHandOver),
                  if s.output.caller.Waiting? then b.(accepted := b.accepted + [b.writeBuffer]) else b)
  {
    var n := |s.output.returned|;
    assert Accounts(s.output, ViewOf(s, Out)) && Serves(s.output.caller, Out, s.env.thread.t);
    assert n == |b.sent| - 1 && b.sent[n] == b.offered[s.output.completed[n].id];
    assert b.sent[..n] + [b.sent[n]] == b.sent[..n + 1];
    NextIsOrderly(s, EvHandOver, Step(s, EvHandOver));
  }

  /** The stream completes the write whose buffer is at hand. */
  lemma CompletionIsOfBuffer(s: State, b: Books, n: nat)
    requires Right(s, b) && Enabled(s, EvCompleted(Out, n))
    ensures n == |b.writeBuffer|
  {
  }

  lemma ConcatOfPrefix(chunks: seq<seq<byte>>, n: nat)
    requires n <= |chunks|
    ensures Concat(chunks[..n]) <= Concat(chunks)
  {
    ConcatAppend(chunks[..n], chunks[n..]);
    assert chunks[..n] + chunks[n..] == chunks;
  }

  lemma BooksAgree(s: State, b: Books)
    requires Right(s, b)
    ensures b.received <= Concat(b.arrived) && b.accepted <= b.sent
    ensures forall i :: 0 <= i < |b.sent| ==> b.sent[i] in b.offered
    ensures !s.closed && !s.done && s.env.thread == Free ==>
              && (!s.input.caller.Draining? ==> b.received == Concat(b.arrived))
              && (!s.output.caller.Draining? ==> b.accepted == b.sent)
  {
    ConcatOfPrefix(b.arrived, |s.input.returned|);
    if !s.closed && !s.done && s.env.thread == Free && !s.input.caller.Draining? {
      assert b.arrived[..|s.input.returned|] == b.arrived;
    }
  }
}
