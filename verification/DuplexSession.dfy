/**
 A request in use: the object with the two buffers that it lends to the native stream, driven by its
 users, its goroutines and the library in any order. The worker fills the write buffer and the
 library reads it, and the other way round for the read buffer; that they never do so at the same
 time is what keeps the bytes right.
 */
module DuplexSessions {
  import opened Bytes
  import opened DuplexModel
  import opened DuplexRuns
  import opened DuplexTables
  import opened DuplexRequests

  const BUFFER_SIZE := 32 * 1024

  class DuplexSession {
    const r: DuplexRequest
    const readBuffer: array<byte>
    const writeBuffer: array<byte>
    /** How much of the write buffer is being sent. */
    var writeN: nat
    /** The bytes got from the upload queue, and those that the library has read out of the write buffer. */
    var taken: seq<byte>
    var sent: seq<byte>
    /** The bytes that the library has put into the read buffer, and those given to readers. */
    var arrived: seq<byte>
    var received: seq<byte>

    ghost predicate Shape()
      reads this
    {
      writeN <= writeBuffer.Length && readBuffer.Length == writeBuffer.Length == BUFFER_SIZE
          && readBuffer != writeBuffer
    }

    /** What was taken from the queue has been sent, or is in the buffer that the library has. */
    ghost predicate Uploaded()
      requires Shape()
      reads this, r, writeBuffer
    {
      && sent <= taken
      && (r.env.nativeWrite ==> taken == sent + writeBuffer[..writeN])
      && (!r.env.nativeWrite && r.err == None ==> taken == sent)
    }

    ghost predicate Downloaded()
      reads this, r
    {
      arrived == r.env.completed && received == r.env.delivered
    }

    ghost predicate Valid()
      reads this, r, writeBuffer
    {
      Shape() && Orderly(r.Abs()) && Uploaded() && Downloaded()
    }

    constructor ()
      ensures Valid() && fresh(r) && fresh(readBuffer) && fresh(writeBuffer) && r.Abs() == INITIAL
      ensures taken == [] && arrived == []
    {
      r := new DuplexRequest();
      readBuffer := new byte[BUFFER_SIZE];
      writeBuffer := new byte[BUFFER_SIZE];
      writeN, taken, sent, arrived, received := 0, [], [], [], [];
      new;
      InitialIsOrderly();
    }

    /** The reader gets the next bytes of the response, or an error when it has got all that arrived. */
    method Read(reader: nat, p: array<byte>, a: Answer) returns (n: nat, e: Option<Error>)
      requires Valid() && p.Length > 0 && Enabled(r.Abs(), EvRead(reader, p.Length, a))
      requires p != readBuffer && p != writeBuffer
      modifies `received, r, p
      ensures Valid() && r.Abs() == Step(old(r.Abs()), EvRead(reader, p.Length, a))
      ensures n <= p.Length && received == old(received) + p[..n] && received <= arrived
      ensures e.Some? ==> received == arrived
    {
      ghost var s := r.Abs();
      n, e := r.ReadPass(reader, p, a);
      received := received + p[..n];
      ReadPassDelivers(s, reader, p.Length, a);
      NextIsOrderly(s, EvRead(reader, p.Length, a), r.Abs());
    }

    /** The worker gets bytes from the upload queue, into the write buffer, and hands them over. */
    method Upload(released: bool, bytes: seq<byte>, e: Option<Error>, a: Answer)
      requires Valid() && Enabled(r.Abs(), EvUpload(released, |bytes|, e, a)) && |bytes| <= BUFFER_SIZE
      modifies `taken, `writeN, writeBuffer, r
      ensures Valid() && r.Abs() == Step(old(r.Abs()), EvUpload(released, |bytes|, e, a))
      ensures taken == old(taken) + bytes
    {
      ghost var s := r.Abs();
      forall i | 0 <= i < |bytes| { writeBuffer[i] := bytes[i]; }
      assert writeBuffer[..|bytes|] == bytes;
      taken, writeN := taken + bytes, |bytes|;
      r.UploadPass(|bytes|, e, a);
      UploadPassLends(s, |bytes|, e, a);
      NextIsOrderly(s, EvUpload(released, |bytes|, e, a), r.Abs());
    }

    /** The library has read the write buffer, as late as it could, and gives it back. */
    method WriteDone()
      requires Valid() && Enabled(r.Abs(), EvWriteCompleted)
      modifies `sent, r
      ensures Valid() && r.Abs() == Step(old(r.Abs()), EvWriteCompleted)
      ensures sent == taken
    {
      ghost var s := r.Abs();
      sent := sent + writeBuffer[..writeN];
      r.OnWriteCompleted();
      NextIsOrderly(s, EvWriteCompleted, r.Abs());
    }

    /** The library has put bytes into the read buffer, and gives it back. */
    method ReadDone(data: seq<byte>, eof: Error)
      requires Valid() && Enabled(r.Abs(), EvReadCompleted(data, eof)) && |data| <= BUFFER_SIZE
      modifies `arrived, readBuffer, r
      ensures Valid() && r.Abs() == Step(old(r.Abs()), EvReadCompleted(data, eof))
      ensures arrived == old(arrived) + data
    {
      ghost var s := r.Abs();
      forall i | 0 <= i < |data| { readBuffer[i] := data[i]; }
      assert readBuffer[..|data|] == data;
      arrived := arrived + data;
      r.OnReadCompleted(readBuffer[..|data|], eof);
      ReadCompletedArrives(s, data, eof);
      NextIsOrderly(s, EvReadCompleted(data, eof), r.Abs());
    }

    /** The last callback. */
    method Finish(e: Error)
      requires Valid() && Enabled(r.Abs(), EvTerminal(e))
      modifies r
      ensures Valid() && r.Abs() == Step(old(r.Abs()), EvTerminal(e))
    {
      ghost var s := r.Abs();
      r.OnTerminal(e);
      NextIsOrderly(s, EvTerminal(e), r.Abs());
    }

    /** The steps that move no bytes. */
    method Other(ev: Event)
      requires Valid() && Enabled(r.Abs(), ev) && Quiet(ev)
      modifies r
      ensures Valid() && r.Abs() == Step(old(r.Abs()), ev)
    {
      ghost var s := r.Abs();
      Dispatch(ev);
      QuietStepMovesNothing(s, ev);
      NextIsOrderly(s, ev, r.Abs());
    }

    method Dispatch(ev: Event)
      requires Enabled(r.Abs(), ev) && Quiet(ev)
      modifies r
      ensures r.Abs() == Step(old(r.Abs()), ev)
    {
      match ev
      case EvStart(accepted) => var _ := r.Start(accepted);
      case EvCancel(e) => r.CancelLocked(e);
      case EvReaderLeaves(reader) => r.LeaveReader(reader);
      case EvWorkerReady => r.Place(FillingBuffer);
      case EvWorkerStops => r.Place(Exited);
      case EvWorkerWakes => r.WriteWait(r.env.worker.last);
      case EvStreamReady => r.OnStreamReady();
      case EvHeaders(bad, a) => r.OnResponseHeaders(bad, a);
      case EvCleanerCloses => r.CloseQueue();
      case EvCleanerSeesWorker => r.Clean();
    }

    /** The steps of the users that move bytes; `bytes` is what the upload queue has. */
    method MoveMine(ev: Event, bytes: seq<byte>) returns (done: bool)
      requires Valid() && Enabled(r.Abs(), ev) && (ev.EvRead? || ev.EvUpload?)
      modifies this, writeBuffer, r
      ensures Valid() && arrived == old(arrived) && old(taken) <= taken
      ensures r.Abs() == if done then Step(old(r.Abs()), ev) else old(r.Abs())
    {
      done := true;
      match ev
      case EvRead(reader, room, a) =>
        var p := new byte[room];
        var n, e := Read(reader, p, a);
      case EvUpload(released, n, e, a) =>
        if |bytes| == n <= BUFFER_SIZE { Upload(released, bytes, e, a); } else { done := false; }
    }

    /** Those of the library. */
    method MoveNative(ev: Event) returns (done: bool)
      requires Valid() && Enabled(r.Abs(), ev) && (ev.EvWriteCompleted? || ev.EvReadCompleted? || ev.EvTerminal?)
      modifies this, readBuffer, r
      ensures Valid() && old(arrived) <= arrived && taken == old(taken)
      ensures r.Abs() == if done then Step(old(r.Abs()), ev) else old(r.Abs())
    {
      done := true;
      match ev
      case EvWriteCompleted => WriteDone();
      case EvReadCompleted(data, eof) => if |data| <= BUFFER_SIZE { ReadDone(data, eof); } else { done := false; }
      case EvTerminal(e) => Finish(e);
    }

    /** One step of anybody, if it is possible. */
    method Turn(ev: Event, bytes: seq<byte>) returns (done: bool)
      requires Valid()
      modifies this, readBuffer, writeBuffer, r
      ensures Valid() && old(arrived) <= arrived && old(taken) <= taken
      ensures done ==> Enabled(old(r.Abs()), ev) && r.Abs() == Step(old(r.Abs()), ev)
      ensures !done ==> r.Abs() == old(r.Abs())
    {
      done := Enabled(r.Abs(), ev);
      if done {
        if Quiet(ev) {
          Other(ev);
        } else if ev.EvRead? || ev.EvUpload? {
          done := MoveMine(ev, bytes);
        } else {
          done := MoveNative(ev);
        }
      }
    }
  }

  /** One more step of a run. */
  lemma OneMoreStep(states: seq<State>, events: seq<Event>, ev: Event, t: State)
    requires IsRun(states, events) && Enabled(states[|events|], ev) && t == Step(states[|events|], ev)
    ensures IsRun(states + [t], events + [ev])
  {
    forall i | 0 <= i < |events| + 1
      ensures Enabled((states + [t])[i], (events + [ev])[i])
      ensures (states + [t])[i + 1] == Step((states + [t])[i], (events + [ev])[i])
    {
    }
  }

  /**
   Any number of steps of anybody in any order, which are a run of the machine: readers have got a
   prefix of what the library delivered, the library has sent a prefix of what the worker took from
   the queue, and all of it unless something has failed; once the buffers are destroyed nobody holds
   them. The error is the first cause there was, and nothing is received before a good response.
   */
  method Drive(turns: nat) returns (session: DuplexSession, ghost states: seq<State>, ghost events: seq<Event>)
    ensures session.received <= session.arrived && session.sent <= session.taken
    ensures session.arrived == session.received + session.r.pending
    ensures session.r.err == None && !session.r.env.nativeWrite ==> session.sent == session.taken
    ensures session.r.env.cleaner == Finished ==> !session.r.env.nativeRead && !session.r.env.nativeWrite
    ensures Judge(session.r.env.log) != Violation
    ensures IsRun(states, events) && states[|events|] == session.r.Abs()
    ensures session.r.err == FirstCause(states, events, |events|)
    ensures session.r.env.log == AllCalls(states, events, |events|)
    ensures session.received != [] ==> exists k :: 0 <= k < |events| && events[k].EvHeaders? && events[k].bad == None
  {
    session := new DuplexSession();
    states, events := [session.r.Abs()], [];
    for i := 0 to turns
      invariant fresh(session) && fresh(session.r) && fresh(session.readBuffer) && fresh(session.writeBuffer)
      invariant session.Valid()
      invariant IsRun(states, events) && states[|events|] == session.r.Abs()
    {
      var ev: Event, bytes: seq<byte> := *, *;
      var done := session.Turn(ev, bytes);
      if done {
        OneMoreStep(states, events, ev, session.r.Abs());
        states, events := states + [session.r.Abs()], events + [ev];
      }
    }
    RunKeepsTo(states, events, |events|);
    if session.received != [] { var k := GoodHeadersCame(states, events, |events|); }
  }

  // ---------- what the steps move ----------

  /** No byte is moved, and the write buffer stays where it is. */
  ghost predicate MovesNothing(s: State, t: State) {
    && t.env.nativeWrite == s.env.nativeWrite && t.env.delivered == s.env.delivered
         && t.env.completed == s.env.completed
    && (t.err == None ==> s.err == None)
  }

  predicate Quiet(ev: Event) {
    !ev.EvRead? && !ev.EvUpload? && !ev.EvWriteCompleted? && !ev.EvReadCompleted? && !ev.EvTerminal?
  }

  lemma CancelMovesNothing(s: State, e: Error)
    requires Flags(s)
    ensures MovesNothing(s, CancelLocked(s, e)) && CancelLocked(s, e).err.Some? && Flags(CancelLocked(s, e))
  {
  }

  lemma StartReadMovesNothing(s: State, a: Answer)
    requires Flags(s)
    ensures MovesNothing(s, StartReadLocked(s, a))
  {
    if MayRead(s) && a != Taken { CancelMovesNothing(ReadIssued(s, a), ReadFailed); }
  }

  lemma WaitMovesNothing(s: State, e: Option<Error>)
    requires Flags(s)
    ensures MovesNothing(s, WriteWait(s, e))
  {
    if e.Some? { CancelMovesNothing(s, e.value); }
  }

  lemma StartMovesNothing(s: State, accepted: bool)
    requires Flags(s)
    ensures MovesNothing(s, StartRequest(s, accepted))
  {
  }

  lemma HeadersMoveNothing(s: State, bad: Option<Error>, a: Answer)
    requires Flags(s) && CallbacksPossible(s)
    ensures MovesNothing(s, ResponseHeaders(s, bad, a))
  {
    if bad.Some? {
      CancelMovesNothing(SeenHeaders(s, false), bad.value);
    } else {
      StartReadMovesNothing(SeenHeaders(s, true), a);
    }
  }

  lemma QuietStepMovesNothing(s: State, ev: Event)
    requires Flags(s) && Enabled(s, ev) && Quiet(ev)
    ensures MovesNothing(s, Step(s, ev))
  {
    match ev
    case EvStart(accepted) => StartMovesNothing(s, accepted);
    case EvCancel(e) => CancelMovesNothing(s, e);
    case EvWorkerWakes => WaitMovesNothing(s, s.env.worker.last);
    case EvHeaders(bad, a) => HeadersMoveNothing(s, bad, a);
    case _ =>
  }

  /** The given bytes are delivered, and nothing else is moved. */
  ghost predicate Delivers(s: State, bytes: seq<byte>, t: State) {
    && t.env.delivered == s.env.delivered + bytes && t.env.completed == s.env.completed
    && t.env.nativeWrite == s.env.nativeWrite && (t.err == None ==> s.err == None)
  }

  lemma TakeBytesDelivers(s: State, reader: nat, a: Answer)
    requires Flags(s)
    ensures Delivers(s, s.pending, StartReadLocked(TakeBytes(s, reader, |s.pending|), a))
  {
    StartReadMovesNothing(TakeBytes(s, reader, |s.pending|), a);
    assert s.pending[..|s.pending|] == s.pending;
  }

  lemma ReadPassDelivers(s: State, reader: nat, room: nat, a: Answer)
    requires Flags(s) && room > 0
    ensures Delivers(s, s.pending[..Min(room, |s.pending|)], ReadPass(s, reader, room, a))
  {
    if s.pending == [] {
      assert s.pending[..0] == [] && s.env.delivered + [] == s.env.delivered;
    } else if room >= |s.pending| {
      TakeBytesDelivers(s, reader, a);
      assert s.pending[..|s.pending|] == s.pending;
    }
  }

  lemma ReadCompletedArrives(s: State, data: seq<byte>, eof: Error)
    requires Flags(s)
    ensures var t := ReadCompleted(s, data, eof);
            && t.env.completed == s.env.completed + data && t.env.delivered == s.env.delivered
            && t.env.nativeWrite == s.env.nativeWrite && (t.err == None ==> s.err == None)
  {
    if data == [] { CancelMovesNothing(ReadReturned(s), eof); }
  }

  /** The write buffer is lent exactly when the library was asked and did not refuse it. */
  lemma UploadPassLends(s: State, n: nat, e: Option<Error>, a: Answer)
    requires Inv(s) && s.env.worker == FillingBuffer
    ensures var t := UploadPass(s, n, e, a);
            && t.env.delivered == s.env.delivered && t.env.completed == s.env.completed
            && (t.err == None ==> s.err == None)
            && (t.env.nativeWrite ==> n > 0 && s.err == None)
            && (!t.env.nativeWrite && t.err == None ==> n == 0)
  {
    if s.terminal || s.err.Some? { return; }
    if n == 0 {
      CancelMovesNothing(s, if e.Some? then e.value else NoProgress);
    } else if a == Taken {
      WaitMovesNothing(WriteIssued(s, a), e);
    } else {
      CancelMovesNothing(AtWorker(WriteIssued(s, a), Exited), WriteFailed);
      if e.Some? { CancelMovesNothing(RefusedWrite(s, a), e.value); }
    }
  }
}
