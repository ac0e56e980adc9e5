/**
 A request on the serial executor in use: the object with the buffers that it lends to the library,
 driven by its users, the executor, the upload workers and the library in any order. Each read lends
 a buffer that nobody else has, until the completion that gives it back has run.
 */
module StreamingSessions {
  import opened Bytes
  import opened StreamingModel
  import opened StreamingSafety
  import opened StreamingRuns
  import opened StreamingTables
  import opened StreamingRequests

  const BUFFER_SIZE := 32 * 1024

  class StreamingSession {
    const r: StreamingRequest
    /** The buffer of the current read, and how much of it the library has filled. */
    var buffer: array<byte>
    var filled: nat
    /** The bytes that the library has put into buffers, and those given to readers. */
    var arrived: seq<byte>
    var received: seq<byte>

    /** A completion that is queued finds in the buffer what the library put there. */
    ghost predicate Lent()
      reads this, r, buffer
    {
      && filled <= buffer.Length == BUFFER_SIZE
      && forall i :: 0 <= i < |r.queue| && r.queue[i].TReadCompleted? ==> r.queue[i].data == buffer[..filled]
    }

    ghost predicate Valid()
      reads this, r, buffer
    {
      r.Valid() && Inv(r.Abs()) && Lent() && arrived == r.env.completed && received == r.env.delivered
    }

    constructor (upload: Upload, initialized: bool)
      ensures Valid() && fresh(r) && fresh(buffer) && arrived == [] && r.Abs() == Initial(upload, initialized)
    {
      r := new StreamingRequest(upload, initialized);
      buffer := new byte[BUFFER_SIZE];
      filled, arrived, received := 0, [], [];
      new;
      InitialIsGood(upload, initialized);
    }

    /** The reader gets the next bytes of the response, or an error when it has got all that was there. */
    method Read(reader: nat, p: array<byte>) returns (n: nat, e: Option<Error>)
      requires Valid() && p.Length > 0 && Enabled(r.Abs(), EvRead(reader, p.Length)) && p != buffer
      modifies `received, r, p
      ensures Valid() && r.Abs() == Step(old(r.Abs()), EvRead(reader, p.Length))
      ensures n <= p.Length && received == old(received) + p[..n] && received <= arrived
      ensures e.Some? ==> e == old(r.err) && r.pending == []
    {
      ghost var s := r.Abs();
      n, e := r.ReadPass(reader, p);
      received := received + p[..n];
      ReadPassDelivers(s, reader, p.Length);
      NextKeeps(s, EvRead(reader, p.Length), r.Abs());
    }

    /** A new buffer for the next read; while a completion is queued there is a read already. */
    method NewBuffer()
      requires Valid()
      modifies `buffer, `filled
      ensures Valid() && (buffer == old(buffer) || fresh(buffer))
    {
      if !r.readPending {
        NoCompletionQueued(r.Abs());
        buffer := new byte[BUFFER_SIZE];
        filled := 0;
      }
    }

    /** The oldest task runs. */
    method RunTask(ok: bool)
      requires Valid() && Enabled(r.Abs(), EvRun(ok))
      modifies this, r
      ensures Valid() && (buffer == old(buffer) || fresh(buffer))
      ensures r.Abs() == Step(old(r.Abs()), EvRun(ok)) && arrived == old(arrived) && received == old(received)
    {
      NewBuffer();
      ghost var s := r.Abs();
      r.RunNext(ok, buffer, filled);
      RunNextMovesNothing(s, ok);
      NextKeeps(s, EvRun(ok), r.Abs());
    }

    /** The library posts a callback; if it completes the read it has filled the buffer before. */
    method Post(t: Task)
      requires Valid() && Enabled(r.Abs(), EvPost(t)) && (t.TReadCompleted? ==> |t.data| <= BUFFER_SIZE)
      modifies this, buffer, r
      ensures Valid() && buffer == old(buffer)
      ensures r.Abs() == Step(old(r.Abs()), EvPost(t))
      ensures arrived == old(arrived) + if t.TReadCompleted? then t.data else []
    {
      ghost var s := r.Abs();
      if t.TReadCompleted? {
        OnlyOneCompletion(s);
        forall i | 0 <= i < |t.data| { buffer[i] := t.data[i]; }
        filled, arrived := |t.data|, arrived + t.data;
        assert buffer[..filled] == t.data;
      }
      r.Enqueue(t);
      NextKeeps(s, EvPost(t), r.Abs());
    }

    /** The steps that neither run a task nor move a byte. */
    method Other(ev: Event)
      requires Valid() && Enabled(r.Abs(), ev) && !ev.EvRead? && !ev.EvRun? && !ev.EvPost?
      modifies r
      ensures Valid() && r.Abs() == Step(old(r.Abs()), ev)
    {
      ghost var s := r.Abs();
      Dispatch(ev);
      OtherStepMovesNothing(s, ev);
      NextKeeps(s, ev, r.Abs());
    }

    method Dispatch(ev: Event)
      requires Enabled(r.Abs(), ev) && !ev.EvRead? && !ev.EvRun? && !ev.EvPost?
      modifies r
      ensures r.Abs() == Step(old(r.Abs()), ev)
    {
      match ev
      case EvStart => r.Submit(TStart);
      case EvCancel(e) => r.CancelWithError(e);
      case EvToken(reader) => r.WakeReader(reader, true);
      case EvSeesDone(reader) => r.WakeReader(reader, false);
      case EvGivesUp(reader) => r.WakeReader(reader, false);
      case EvWorkerDone(_) => r.FinishWorker();
    }

    /** One step of anybody, if it is possible. */
    method Turn(ev: Event) returns (done: bool)
      requires Valid()
      modifies this, buffer, r
      ensures Valid() && (buffer == old(buffer) || fresh(buffer)) && old(arrived) <= arrived
      ensures done ==> Enabled(old(r.Abs()), ev) && r.Abs() == Step(old(r.Abs()), ev)
      ensures !done ==> r.Abs() == old(r.Abs())
    {
      done := Enabled(r.Abs(), ev) && !(ev.EvPost? && ev.task.TReadCompleted? && |ev.task.data| > BUFFER_SIZE);
      if !done { return; }
      match ev {
        case EvRead(reader, room) =>
          var p := new byte[room];
          var n, e := Read(reader, p);
        case EvRun(ok) => RunTask(ok);
        case EvPost(t) => Post(t);
        case _ => Other(ev);
      }
    }
  }

  /** One more step of a run. */
  lemma OneMoreStep(states: seq<State>, events: seq<Event>, ev: Event, t: State)
    requires IsRun(states, events) && Enabled(states[|events|], ev) && t == Step(states[|events|], ev)
    ensures IsRun(states + [t], events + [ev])
  {
    assert (states + [t])[0] == states[0];
    forall i | 0 <= i < |events| + 1
      ensures Enabled((states + [t])[i], (events + [ev])[i])
      ensures (states + [t])[i + 1] == Step((states + [t])[i], (events + [ev])[i])
    {
    }
  }

  /**
   Any number of steps of anybody in any order, which are a run of the machine: readers have got a
   prefix of what the library put into the buffers, the rest is pending or queued, and everything is
   there when the end comes; the native objects are destroyed by the time the request is done, and the
   library's rules are kept. The error is the first cause there was.
   */
  method Drive(upload: Upload, initialized: bool, turns: nat)
      returns (session: StreamingSession, ghost states: seq<State>, ghost events: seq<Event>)
    ensures session.arrived == session.received + session.r.pending + Arriving(session.r.queue)
    ensures session.r.terminal ==> session.arrived == session.received + session.r.pending
    ensures Judge(session.r.env.upload, session.r.env.log) != Violation
    ensures session.r.done ==> Judge(session.r.env.upload, session.r.env.log) == Gone
    ensures session.r.done ==> session.r.activeUploads == 0 && session.r.env.workers == 0
    ensures IsRun(states, events) && states[|events|] == session.r.Abs()
    ensures session.r.err == FirstCause(states, events, |events|)
    ensures session.r.env.log == AllCalls(states, events, |events|)
    ensures session.r.err == Some(Eof) ==> exists k :: 0 <= k < |events| && EndsWell(states[k], events[k])
  {
    session := new StreamingSession(upload, initialized);
    states, events := [session.r.Abs()], [];
    for i := 0 to turns
      invariant fresh(session) && fresh(session.r) && fresh(session.buffer) && session.Valid()
      invariant IsRun(states, events) && states[|events|] == session.r.Abs()
    {
      var ev: Event := *;
      var done := session.Turn(ev);
      if done {
        OneMoreStep(states, events, ev, session.r.Abs());
        states, events := states + [session.r.Abs()], events + [ev];
      }
    }
    if session.r.terminal { NothingArrives(session.r.queue); }
    RunKeepsTo(states, events, |events|);
    if session.r.err == Some(Eof) { var k := EndIsTheEnd(states, events, |events|); }
  }

  // ---------- what the steps move ----------

  /** No byte is moved. */
  ghost predicate MovesNothing(s: State, t: State) {
    t.env.delivered == s.env.delivered && t.env.completed == s.env.completed && t.env.upload == s.env.upload
  }

  /** No completion is queued behind those that were. */
  ghost predicate NoNewCompletion(q: seq<Task>, q': seq<Task>) {
    forall i :: 0 <= i < |q'| && q'[i].TReadCompleted? ==> q'[i] in q
  }

  /** The given bytes are delivered, and nothing else is moved. */
  ghost predicate Delivers(s: State, bytes: seq<byte>, t: State) {
    && t.env.delivered == s.env.delivered + bytes && t.env.completed == s.env.completed && t.env.upload == s.env.upload
    && NoNewCompletion(s.queue, t.queue)
  }

  lemma ReadPassDelivers(s: State, reader: nat, room: nat)
    requires Flags(s) && room > 0
    ensures Delivers(s, s.pending[..Min(room, |s.pending|)], ReadPass(s, reader, room))
  {
    if s.pending == [] {
      assert s.pending[..0] == [] && s.env.delivered + [] == s.env.delivered;
    } else {
      var n := Min(room, |s.pending|);
      assert ReadPass(s, reader, room).env == s.env.(delivered := s.env.delivered + s.pending[..n]);
    }
  }

  lemma NoCompletionQueued(s: State)
    requires Inv(s) && !s.readPending
    ensures forall i :: 0 <= i < |s.queue| ==> !s.queue[i].TReadCompleted?
  {
    KindsAre(s.queue, KReadCompleted);
    assert Kinds(s.queue)[KReadCompleted] == 0;
  }

  /** While the library has the buffer no completion is queued. */
  lemma OnlyOneCompletion(s: State)
    requires Inv(s) && s.env.nativeRead
    ensures forall i :: 0 <= i < |s.queue| ==> !s.queue[i].TReadCompleted?
  {
    KindsAre(s.queue, KReadCompleted);
    assert Kinds(s.queue)[KReadCompleted] == 0;
  }

  lemma FailMovesNothing(s: State, e: Error)
    ensures MovesNothing(s, Fail(s, e)) && Fail(s, e).queue == s.queue
  {
  }

  lemma FinishMovesNothing(s: State, e: Error)
    ensures MovesNothing(s, Finish(s, e)) && NoNewCompletion(s.queue, Finish(s, e).queue)
  {
  }

  lemma StartReadMovesNothing(s: State, ok: bool)
    ensures MovesNothing(s, StartRead(s, ok)) && StartRead(s, ok).queue == s.queue
  {
    FailMovesNothing(Log(s, Read(false)), ReadFailed);
  }

  lemma OwnTaskMovesNothing(s: State, t: Task, ok: bool)
    requires !IsCallback(t)
    ensures MovesNothing(s, Run(s, t, ok)) && NoNewCompletion(s.queue, Run(s, t, ok).queue)
  {
    match t
    case TStart => FinishMovesNothing(Log(s, Start(false)), StartFailed);
    case TStartRead => StartReadMovesNothing(s, ok);
    case TCancel(e) => FinishMovesNothing(s, e);
    case TInitFailed => FinishMovesNothing(s, InitFailed);
    case TUploadDone =>
    case TCleanup =>
  }

  lemma RedirectMovesNothing(s: State, d: Decision, ok: bool)
    ensures MovesNothing(s, RunRedirect(s, d, ok)) && RunRedirect(s, d, ok).queue == s.queue
  {
    match d
    case Follow => FailMovesNothing(Log(s, FollowRedirect), RedirectFailed);
    case Decline => FailMovesNothing(s, Eof);
    case Unexpected(code) => FailMovesNothing(s, HttpRedirect(code));
  }

  lemma ResponseMovesNothing(s: State, bad: Option<int>, ok: bool)
    ensures MovesNothing(s, RunResponse(s, bad, ok)) && RunResponse(s, bad, ok).queue == s.queue
  {
    var s1 := s.(env := s.env.(responded := true, log := s.env.log + [Responded]));
    match bad
    case Some(code) => FailMovesNothing(s1, HttpStatus(code));
    case None => StartReadMovesNothing(s1, ok);
  }

  lemma CompletionMovesNothing(s: State, data: seq<byte>)
    ensures MovesNothing(s, RunReadCompleted(s, data)) && NoNewCompletion(s.queue, RunReadCompleted(s, data).queue)
  {
  }

  lemma TerminalMovesNothing(s: State, e: Error)
    ensures MovesNothing(s, RunTerminal(s, e)) && NoNewCompletion(s.queue, RunTerminal(s, e).queue)
  {
    FinishMovesNothing(Log(s, LastCallback), e);
  }

  lemma AnswerMovesNothing(s: State, t: Task, ok: bool)
    requires t.TRedirect? || t.TResponse?
    ensures MovesNothing(s, Run(s, t, ok)) && NoNewCompletion(s.queue, Run(s, t, ok).queue)
  {
    match t
    case TRedirect(d) => RedirectMovesNothing(s, d, ok);
    case TResponse(hooked, status) => ResponseMovesNothing(s, RefusedStatus(hooked, status), ok);
  }

  lemma ReportMovesNothing(s: State, t: Task, ok: bool)
    requires IsCallback(t) && !t.TRedirect? && !t.TResponse?
    ensures MovesNothing(s, Run(s, t, ok)) && NoNewCompletion(s.queue, Run(s, t, ok).queue)
  {
    match t
    case TReadCompleted(data) => CompletionMovesNothing(s, data);
    case TTerminal(e) => TerminalMovesNothing(s, e);
    case TUploadRequest =>
    case TUploadClose =>
  }

  lemma CallbackMovesNothing(s: State, t: Task, ok: bool)
    requires IsCallback(t)
    ensures MovesNothing(s, Run(s, t, ok)) && NoNewCompletion(s.queue, Run(s, t, ok).queue)
  {
    if t.TRedirect? || t.TResponse? { AnswerMovesNothing(s, t, ok); } else { ReportMovesNothing(s, t, ok); }
  }

  lemma RunNextMovesNothing(s: State, ok: bool)
    requires s.queue != []
    ensures MovesNothing(s, RunNext(s, ok)) && NoNewCompletion(s.queue, RunNext(s, ok).queue)
  {
    var s0, t := s.(queue := s.queue[1..]), s.queue[0];
    if IsCallback(t) { CallbackMovesNothing(s0, t, ok); } else { OwnTaskMovesNothing(s0, t, ok); }
    assert forall x :: x in s.queue[1..] ==> x in s.queue;
  }

  lemma OtherStepMovesNothing(s: State, ev: Event)
    requires Enabled(s, ev) && !ev.EvRead? && !ev.EvRun? && !ev.EvPost?
    ensures MovesNothing(s, Step(s, ev)) && NoNewCompletion(s.queue, Step(s, ev).queue)
  {
    match ev
    case EvCancel(e) =>
    case _ =>
  }
}
