/**
 What each event of a request on the serial executor means, in a table that does not use the
 transitions: the error that it is the cause of, and the calls to the native library that it leads to.
 Over whole runs the error that readers are told is the first cause, and the library gets exactly
 these calls.
 */
module StreamingTables {
  import opened Bytes
  import opened Runs
  import opened StreamingModel
  import opened StreamingSafety
  import opened StreamingRuns

  // ---------- the table ----------

  /** The next bytes are asked for where none are pending and none are on their way. */
  predicate Asks(s: State) {
    s.pending == [] && !s.readPending
  }

  predicate Refused(hooked: bool, status: int) {
    !hooked && status != 200
  }

  /** The error that a task is the cause of, unless there is one already. A cancellation was its own event. */
  function TaskCause(s: State, t: Task, ok: bool): Option<Error> {
    match t
    case TStart => if ok || s.started then None else Some(StartFailed)
    case TStartRead => if ok || !Asks(s) then None else Some(ReadFailed)
    case TInitFailed => Some(InitFailed)
    case TRedirect(Follow) => if ok then None else Some(RedirectFailed)
    case TRedirect(Decline) => Some(Eof)
    case TRedirect(Unexpected(status)) => Some(HttpRedirect(status))
    case TResponse(hooked, status) =>
      if Refused(hooked, status) then Some(HttpStatus(status))
      else if ok || !Asks(s) then None else Some(ReadFailed)
    case TTerminal(e) => Some(e)
    case _ => None
  }

  function Cause(s: State, ev: Event): Option<Error> {
    match ev
    case EvCancel(e) => Some(e)
    case EvRun(ok) => if s.queue == [] then None else TaskCause(s, s.queue[0], ok)
    case _ => None
  }

  function ReadCalls(s: State, ok: bool): seq<Call> {
    if s.err.Some? || !Asks(s) then [] else if ok then [Read(true)] else [Read(false), Cancel]
  }

  function TaskCalls(s: State, t: Task, ok: bool): seq<Call> {
    match t
    case TStart => if s.terminal || s.started then [] else [Start(ok)]
    case TStartRead => ReadCalls(s, ok)
    case TCancel(_) => if s.started && !s.terminal then [Cancel] else []
    case TUploadDone => [Sink]
    case TCleanup =>
      if s.env.upload == NoUpload then [DestroyRequest, DestroyCallback, DestroyExecutor]
      else [DestroyProvider, DestroyRequest, DestroyCallback, DestroyExecutor]
    case TRedirect(Follow) => if ok then [FollowRedirect] else [FollowRedirect, Cancel]
    case TRedirect(_) => [Cancel]
    case TResponse(hooked, status) =>
      if Refused(hooked, status) then [Responded, Cancel] else [Responded] + ReadCalls(s, ok)
    case TReadCompleted(_) => [ReadDone]
    case TUploadRequest => if s.env.upload == Reader then [] else [Sink]
    case TTerminal(_) => [LastCallback]
    case _ => []
  }

  function Calls(s: State, ev: Event): seq<Call> {
    match ev
    case EvRun(ok) => if s.queue == [] then [] else TaskCalls(s, s.queue[0], ok)
    case _ => []
  }

  // ---------- every step keeps to it ----------

  ghost predicate KeepsTask(s: State, t: Task, ok: bool, after: State) {
    && after.err == (if s.err.Some? then s.err else TaskCause(s, t, ok))
    && after.env.log == s.env.log + TaskCalls(s, t, ok)
  }

  lemma FinishKeepsTo(s: State, e: Error)
    requires s.terminal ==> s.err.Some?
    ensures Finish(s, e).err == (if s.err.Some? then s.err else Some(e)) && Finish(s, e).env.log == s.env.log
  {
  }

  lemma ReadKeepsTo(s: State, ok: bool)
    requires s.terminal ==> s.err.Some?
    ensures var t := StartRead(s, ok);
            && t.env.log == s.env.log + ReadCalls(s, ok)
            && t.err == (if s.err.Some? then s.err else if ok || !Asks(s) then None else Some(ReadFailed))
  {
  }

  lemma OwnTaskKeepsTo(s: State, t: Task, ok: bool)
    requires (s.terminal ==> s.err.Some?) && (t.TCancel? ==> s.err.Some?) && !IsCallback(t)
    ensures KeepsTask(s, t, ok, Run(s, t, ok))
  {
    match t
    case TStart => if !s.terminal && !s.started && !ok { FinishKeepsTo(Log(s, Start(false)), StartFailed); }
    case TStartRead => ReadKeepsTo(s, ok);
    case TCancel(e) => FinishKeepsTo(s, e);
    case TInitFailed => FinishKeepsTo(s, InitFailed);
    case TUploadDone =>
    case TCleanup =>
  }

  lemma BadResponseKeepsTo(s: State, status: int, ok: bool)
    requires status != 200
    ensures KeepsTask(s, TResponse(false, status), ok, RunResponse(s, Some(status), ok))
  {
    Joined(s.env.log, [Responded], [Cancel]);
  }

  /** A response has been seen, and the first bytes are asked for. */
  lemma RespondedKeepsTo(s: State, s1: State, ok: bool)
    requires s1.err == s.err && s1.pending == s.pending && s1.readPending == s.readPending
    requires s1.env.log == s.env.log + [Responded] && (s1.terminal ==> s1.err.Some?)
    ensures var t := StartRead(s1, ok);
            && t.env.log == s.env.log + ([Responded] + ReadCalls(s, ok))
            && t.err == (if s.err.Some? then s.err else if ok || !Asks(s) then None else Some(ReadFailed))
  {
    ReadKeepsTo(s1, ok);
    Joined(s.env.log, [Responded], ReadCalls(s, ok));
  }

  lemma GoodResponseKeepsTo(s: State, hooked: bool, status: int, ok: bool)
    requires (s.terminal ==> s.err.Some?) && !Refused(hooked, status)
    ensures KeepsTask(s, TResponse(hooked, status), ok, RunResponse(s, None, ok))
  {
    RespondedKeepsTo(s, s.(env := s.env.(responded := true, log := s.env.log + [Responded])), ok);
  }

  lemma ResponseKeepsTo(s: State, hooked: bool, status: int, ok: bool)
    requires s.terminal ==> s.err.Some?
    ensures KeepsTask(s, TResponse(hooked, status), ok, RunResponse(s, RefusedStatus(hooked, status), ok))
  {
    if Refused(hooked, status) {
      BadResponseKeepsTo(s, status, ok);
    } else {
      GoodResponseKeepsTo(s, hooked, status, ok);
    }
  }

  lemma RedirectKeepsTo(s: State, d: Decision, ok: bool)
    ensures KeepsTask(s, TRedirect(d), ok, Run(s, TRedirect(d), ok))
  {
    match d
    case Follow => if !ok { Joined(s.env.log, [FollowRedirect], [Cancel]); }
    case Decline =>
    case Unexpected(_) =>
  }

  lemma CallbackKeepsTo(s: State, t: Task, ok: bool)
    requires (s.terminal ==> s.err.Some?) && IsCallback(t)
    ensures KeepsTask(s, t, ok, Run(s, t, ok))
  {
    match t
    case TRedirect(d) => RedirectKeepsTo(s, d, ok);
    case TResponse(hooked, status) => ResponseKeepsTo(s, hooked, status, ok);
    case TReadCompleted(_) =>
    case TUploadRequest =>
    case TUploadClose =>
    case TTerminal(e) => FinishKeepsTo(Log(s, LastCallback), e);
  }

  ghost predicate Keeps(s: State, ev: Event, t: State) {
    && t.err == (if s.err.Some? then s.err else Cause(s, ev))
    && t.env.log == s.env.log + Calls(s, ev)
  }

  /** A queued cancellation has left its error. */
  lemma CancelHasError(s: State)
    requires Inv(s) && s.queue != []
    ensures (s.queue[0].TCancel? ==> s.err.Some?) && (s.terminal ==> s.err.Some?)
  {
    if s.queue[0].TCancel? {
      KindsAre(s.queue, KCancel);
      assert Kinds(s.queue)[KCancel] > 0;
    }
  }

  lemma RunNextKeepsTo(s: State, ok: bool)
    requires Inv(s) && s.queue != []
    ensures Keeps(s, EvRun(ok), RunNext(s, ok))
  {
    var s0, t := s.(queue := s.queue[1..]), s.queue[0];
    if IsCallback(t) {
      CallbackKeepsTo(s0, t, ok);
    } else {
      CancelHasError(s);
      OwnTaskKeepsTo(s0, t, ok);
    }
    assert TaskCause(s0, t, ok) == TaskCause(s, t, ok) && TaskCalls(s0, t, ok) == TaskCalls(s, t, ok);
  }

  lemma OtherStepKeepsTo(s: State, ev: Event)
    requires Enabled(s, ev) && !ev.EvRun?
    ensures Keeps(s, ev, Step(s, ev))
  {
    match ev
    case EvRead(reader, room) => ReadPassCallsNothing(s, reader, room);
    case EvCancel(_) =>
    case _ =>
  }

  lemma ReadPassCallsNothing(s: State, reader: nat, room: nat)
    requires room > 0
    ensures ReadPass(s, reader, room).err == s.err && ReadPass(s, reader, room).env.log == s.env.log
  {
  }

  lemma StepKeepsTo(s: State, ev: Event, t: State)
    requires Inv(s) && Enabled(s, ev) && t == Step(s, ev)
    ensures Keeps(s, ev, t)
  {
    if ev.EvRun? { RunNextKeepsTo(s, ev.ok); } else { OtherStepKeepsTo(s, ev); }
  }

  // ---------- whole runs ----------

  function FirstCause(states: seq<State>, events: seq<Event>, i: nat): Option<Error>
    requires i <= |events| && i <= |states|
  {
    FirstOf(states, events, Cause, i)
  }

  function AllCalls(states: seq<State>, events: seq<Event>, i: nat): seq<Call>
    requires i <= |events| && i <= |states|
  {
    AllOf(states, events, Calls, i)
  }

  function ErrorOf(s: State): Option<Error> {
    s.err
  }

  function LogOf(s: State): seq<Call> {
    s.env.log
  }

  /** The error of a request is the first cause, and the library gets the calls of the table and no others. */
  lemma RunKeepsTo(states: seq<State>, events: seq<Event>, i: nat)
    requires IsRun(states, events) && i < |states|
    ensures states[i].err == FirstCause(states, events, i)
    ensures states[i].env.log == AllCalls(states, events, i)
  {
    forall k | 0 <= k < i ensures Keeps(states[k], events[k], states[k + 1]) {
      RunKeepsInv(states, events, k);
      StepKeepsTo(states[k], events[k], states[k + 1]);
    }
    KeepsFirst(states, events, ErrorOf, Cause, i);
    KeepsAll(states, events, LogOf, Calls, i);
  }

  /** An error has an event that is its cause, and no event before that is a cause of any. */
  lemma ErrorHasCause(states: seq<State>, events: seq<Event>, i: nat) returns (k: nat)
    requires IsRun(states, events) && i < |states| && states[i].err.Some?
    ensures k < i && Cause(states[k], events[k]) == states[i].err
    ensures forall j :: 0 <= j < k ==> Cause(states[j], events[j]) == None
  {
    RunKeepsTo(states, events, i);
    k := FirstIsFirst(states, events, Cause, i);
  }

  /** The event that ended a request whose readers are told the end of the response. */
  predicate EndsWell(s: State, ev: Event) {
    || ev == EvCancel(Eof)
    || (ev.EvRun? && s.queue != [] && (s.queue[0] == TTerminal(Eof) || s.queue[0] == TRedirect(Decline)))
  }

  /**
   Readers are told the end of the response only if the library reported it, a redirect was declined,
   or the request was cancelled with it, and nothing had gone wrong before; a response that broke off
   is never taken for a whole one.
   */
  lemma EndIsTheEnd(states: seq<State>, events: seq<Event>, i: nat) returns (k: nat)
    requires IsRun(states, events) && i < |states| && states[i].err == Some(Eof)
    ensures k < i && EndsWell(states[k], events[k])
    ensures forall j :: 0 <= j < k ==> Cause(states[j], events[j]) == None
  {
    k := ErrorHasCause(states, events, i);
  }

  /** A failure reported by the library is what readers are told, unless something else came first. */
  lemma FailureIsTold(states: seq<State>, events: seq<Event>, k: nat, i: nat)
    requires IsRun(states, events) && k < i < |states| && events[k].EvRun? && states[k].queue[0].TTerminal?
    requires states[k].err == None
    ensures states[i].err == Some(states[k].queue[0].end)
  {
    RunKeepsInv(states, events, k);
    StepKeepsTo(states[k], events[k], states[k + 1]);
    RunGoesOn(states, events, k + 1, i);
  }

  /** An error that does not come from the library is passed on to it: the request is cancelled. */
  lemma FailuresCancel(states: seq<State>, events: seq<Event>, k: nat)
    requires IsRun(states, events) && k < |events| && events[k].EvRun?
    requires var t := states[k].queue[0];
             (t.TRedirect? || t.TResponse? || t.TStartRead?) && states[k].err == None && states[k + 1].err.Some?
    ensures Cancel in states[k + 1].env.log
  {
    RunKeepsInv(states, events, k);
    StepKeepsTo(states[k], events[k], states[k + 1]);
    var calls := Calls(states[k], events[k]);
    assert calls != [] && calls[|calls| - 1] == Cancel;
    assert states[k + 1].env.log[|states[k].env.log| + |calls| - 1] == Cancel;
  }
}
