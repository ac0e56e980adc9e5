/**
 What each event of a bidirectional request means, in a table that does not use the transitions: the
 error that it is the cause of, and the calls to the native stream that it leads to. Over whole runs
 the error kept is the first cause, and the native stream gets exactly these calls.
 */
module DuplexTables {
  import opened Bytes
  import opened Runs
  import opened DuplexModel
  import opened DuplexRuns

  // ---------- the table ----------

  /** The read that takes the last pending bytes asks for the next ones. */
  predicate AsksForMore(s: State, room: nat) {
    s.pending != [] && room >= |s.pending|
  }

  /** The error that an event is the cause of, unless there is one already. */
  function Cause(s: State, ev: Event): Option<Error> {
    match ev
    case EvStart(accepted) => if accepted then None else Some(StartFailed)
    case EvCancel(e) => Some(e)
    case EvHeaders(Some(e), _) => Some(e)
    case EvHeaders(None, a) => if a == Taken then None else Some(ReadFailed)
    case EvRead(_, room, a) => if AsksForMore(s, room) && a != Taken then Some(ReadFailed) else None
    case EvReadCompleted(data, eof) => if data == [] then Some(eof) else None
    case EvUpload(_, n, e, a) =>
      if n > 0 then (if a == Taken then None else Some(WriteFailed))
      else if e.Some? then e else Some(NoProgress)
    case EvWorkerWakes => if s.writePending || !s.env.worker.AwaitingWrite? then None else s.env.worker.last
    case EvTerminal(e) => Some(e)
    case _ => None
  }

  /** The calls of a request that has no error yet. */
  function GoodCalls(s: State, ev: Event): seq<Call> {
    match ev
    case EvStart(accepted) => if accepted then [Start(true)] else [Start(false), Destroy]
    case EvCancel(_) => if s.started then [Cancel] else [Destroy]
    case EvHeaders(Some(_), _) => [Cancel]
    case EvHeaders(None, a) => ReadCall(a)
    case EvRead(_, room, a) => if AsksForMore(s, room) then ReadCall(a) else []
    case EvReadCompleted(data, _) => if data == [] then [ReadDone, Cancel] else [ReadDone]
    case EvWriteCompleted => [WriteDone]
    case EvUpload(_, n, _, a) =>
      if n == 0 then [Cancel] else WriteCall(a)
    case EvWorkerWakes => if Cause(s, ev).Some? then [Cancel] else []
    case EvTerminal(_) => [LastCallback, Destroy]
    case _ => []
  }

  function ReadCall(a: Answer): seq<Call> {
    match a
    case Taken => [Read(true)]
    case Refused => [Read(false), Cancel]
    case RefusedAndKept => [Read(true), Cancel]
  }

  function WriteCall(a: Answer): seq<Call> {
    match a
    case Taken => [Write(true)]
    case Refused => [Write(false), Cancel]
    case RefusedAndKept => [Write(true), Cancel]
  }

  /** Once there is an error, only what is still outstanding comes back. */
  function Calls(s: State, ev: Event): seq<Call> {
    if s.err == None then GoodCalls(s, ev)
    else match ev
         case EvStart(accepted) => []
         case EvReadCompleted(_, _) => [ReadDone]
         case EvWriteCompleted => [WriteDone]
         case EvTerminal(_) => if s.terminal then [LastCallback] else [LastCallback, Destroy]
         case _ => []
  }

  // ---------- every step keeps to it ----------

  ghost predicate Keeps(s: State, ev: Event, t: State) {
    && t.err == (if s.err.Some? then s.err else Cause(s, ev))
    && t.env.log == s.env.log + Calls(s, ev)
  }

  lemma CancelKeepsTo(s: State, e: Error)
    requires Flags(s)
    ensures var t := CancelLocked(s, e);
            && t.err == (if s.err.Some? then s.err else Some(e))
            && t.env.log == s.env.log + if s.err.Some? then [] else if s.started then [Cancel] else [Destroy]
  {
  }

  lemma ReadKeepsTo(s: State, a: Answer)
    requires Flags(s) && MayRead(s)
    ensures var t := StartReadLocked(s, a);
            && t.err == (if a == Taken then None else Some(ReadFailed))
            && t.env.log == s.env.log + ReadCall(a)
  {
    if a != Taken { CancelKeepsTo(ReadIssued(s, a), ReadFailed); }
  }

  lemma ReadPassKeepsTo(s: State, reader: nat, room: nat, a: Answer)
    requires Inv(s) && room > 0
    ensures Keeps(s, EvRead(reader, room, a), ReadPass(s, reader, room, a))
  {
    if AsksForMore(s, room) {
      var t := TakeBytes(s, reader, |s.pending|);
      if s.err == None { ReadKeepsTo(t, a); }
    }
  }

  lemma HeadersKeepTo(s: State, bad: Option<Error>, a: Answer)
    requires Inv(s) && Enabled(s, EvHeaders(bad, a))
    ensures Keeps(s, EvHeaders(bad, a), ResponseHeaders(s, bad, a))
  {
    if bad.Some? {
      CancelKeepsTo(SeenHeaders(s, false), bad.value);
    } else if s.err == None {
      ReadKeepsTo(SeenHeaders(s, true), a);
    }
  }

  lemma UploadKeepsTo(s: State, released: bool, n: nat, e: Option<Error>, a: Answer)
    requires Inv(s) && s.env.worker == FillingBuffer
    ensures Keeps(s, EvUpload(released, n, e, a), UploadPass(s, n, e, a))
  {
    if s.err.Some? { return; }
    if n == 0 {
      CancelKeepsTo(s, if e.Some? then e.value else NoProgress);
    } else if a != Taken {
      CancelKeepsTo(AtWorker(WriteIssued(s, a), Exited), WriteFailed);
      RefusedWriteKeeps(s, a);
      if e.Some? { CancelKeepsTo(RefusedWrite(s, a), e.value); }
    }
  }

  lemma WakesKeepTo(s: State)
    requires Inv(s) && s.env.worker.AwaitingWrite?
    ensures Keeps(s, EvWorkerWakes, WriteWait(s, s.env.worker.last))
  {
    if s.env.worker.last.Some? { CancelKeepsTo(s, s.env.worker.last.value); }
  }

  lemma CallbackKeepsTo(s: State, ev: Event)
    requires Inv(s) && Enabled(s, ev) && (ev.EvReadCompleted? || ev.EvWriteCompleted? || ev.EvTerminal?)
    ensures Keeps(s, ev, Step(s, ev))
  {
    match ev
    case EvReadCompleted(data, eof) => if data == [] { CancelKeepsTo(ReadReturned(s), eof); }
    case EvWriteCompleted =>
    case EvTerminal(_) =>
  }

  lemma OtherKeepsTo(s: State, ev: Event)
    requires Inv(s) && Enabled(s, ev)
    requires ev.EvStart? || ev.EvCancel? || ev.EvReaderLeaves? || ev.EvWorkerReady? || ev.EvWorkerStops?
          || ev.EvStreamReady? || ev.EvCleanerCloses? || ev.EvCleanerSeesWorker?
    ensures Keeps(s, ev, Step(s, ev))
  {
    if ev.EvCancel? { CancelKeepsTo(s, ev.e); }
  }

  lemma StepKeepsTo(s: State, ev: Event, t: State)
    requires Inv(s) && Enabled(s, ev) && t == Step(s, ev)
    ensures Keeps(s, ev, t)
  {
    match ev
    case EvRead(reader, room, a) => ReadPassKeepsTo(s, reader, room, a);
    case EvUpload(released, n, e, a) => UploadKeepsTo(s, released, n, e, a);
    case EvWorkerWakes => WakesKeepTo(s);
    case EvHeaders(bad, a) => HeadersKeepTo(s, bad, a);
    case EvReadCompleted(_, _) => CallbackKeepsTo(s, ev);
    case EvWriteCompleted => CallbackKeepsTo(s, ev);
    case EvTerminal(_) => CallbackKeepsTo(s, ev);
    case _ => OtherKeepsTo(s, ev);
  }

  // ---------- whole runs ----------

  function FirstCause(states: seq<State>, events: seq<Event>, i: nat): Option<Error>
    requires i <= |events| && i <= |states|
  {
    FirstOf(states, events, Cause, i)
  }

  function AllCalls(states: seq<State>, events: seq<Event>, i: nat): seq<Call>
    requires i <= |events| && i <= |states|
  {
    AllOf(states, events, Calls, i)
  }

  function ErrorOf(s: State): Option<Error> {
    s.err
  }

  function LogOf(s: State): seq<Call> {
    s.env.log
  }

  /** The error of a request is the first cause, and its native stream gets the calls of the table and no others. */
  lemma RunKeepsTo(states: seq<State>, events: seq<Event>, i: nat)
    requires IsRun(states, events) && i < |states|
    ensures states[i].err == FirstCause(states, events, i)
    ensures states[i].env.log == AllCalls(states, events, i)
  {
    forall k | 0 <= k < i ensures Keeps(states[k], events[k], states[k + 1]) {
      RunKeepsInv(states, events, k);
      StepKeepsTo(states[k], events[k], states[k + 1]);
    }
    KeepsFirst(states, events, ErrorOf, Cause, i);
    KeepsAll(states, events, LogOf, Calls, i);
  }

  /** An error has an event that is its cause, and no event before that is a cause of any. */
  lemma ErrorHasCause(states: seq<State>, events: seq<Event>, i: nat) returns (k: nat)
    requires IsRun(states, events) && i < |states| && states[i].err.Some?
    ensures k < i && Cause(states[k], events[k]) == states[i].err
    ensures forall j :: 0 <= j < k ==> Cause(states[j], events[j]) == None
  {
    RunKeepsTo(states, events, i);
    k := FirstIsFirst(states, events, Cause, i);
  }

  // ---------- the response headers decide ----------

  /** A response that is refused ends the request with that error, and is never read. */
  lemma BadHeadersCancel(states: seq<State>, events: seq<Event>, k: nat)
    requires IsRun(states, events) && k < |events| && events[k].EvHeaders? && events[k].bad.Some?
    ensures !states[k + 1].haveHeaders && !states[k + 1].readPending
    ensures states[k].err == None ==>
              states[k + 1].err == events[k].bad && states[k + 1].env.log == states[k].env.log + [Cancel]
    ensures forall i :: k < i < |states| ==>
              !states[i].haveHeaders && states[i].env.delivered == [] && Read(true) !in states[i].env.log
  {
    RunKeepsInv(states, events, k);
    StepKeepsTo(states[k], events[k], states[k + 1]);
    RunKeepsInv(states, events, k + 1);
    forall i | k < i < |states|
      ensures !states[i].haveHeaders && states[i].env.delivered == [] && Read(true) !in states[i].env.log
    {
      NoHeadersLater(states, events, k, i);
      HeadersComeFirst(states, events, i);
    }
  }

  /** Nothing is read before good headers. */
  ghost predicate HeadersFirst(s: State) {
    Read(true) in s.env.log || Read(false) in s.env.log || s.env.delivered != [] ==> s.haveHeaders
  }

  lemma OnlyHeadersMatter(s: State, ev: Event, t: State)
    requires Inv(s) && Enabled(s, ev) && t == Step(s, ev) && !ev.EvHeaders?
    ensures t.haveHeaders == s.haveHeaders && t.env.headersSeen == s.env.headersSeen
    ensures t.ready == (s.ready || ev.EvStreamReady?)
    ensures t.started == (s.started || (ev == EvStart(true) && s.err == None))
    ensures !ev.EvRead? ==> t.env.delivered == s.env.delivered
  {
    match ev
    case EvUpload(_, n, e, a) => UploadLeavesHeaders(s, n, e, a);
    case EvRead(reader, room, a) => ReadLeavesHeaders(s, reader, room, a);
    case EvWorkerWakes => WaitLeavesHeaders(s, s.env.worker.last);
    case EvReadCompleted(data, eof) => if data == [] { CancelLeavesHeaders(ReadReturned(s), eof); }
    case EvCancel(e) => CancelLeavesHeaders(s, e);
    case _ =>
  }

  ghost predicate SameHeaders(s: State, t: State) {
    && t.haveHeaders == s.haveHeaders && t.env.headersSeen == s.env.headersSeen && t.env.delivered == s.env.delivered
    && t.ready == s.ready && t.started == s.started
  }

  lemma CancelLeavesHeaders(s: State, e: Error)
    requires Flags(s)
    ensures Flags(CancelLocked(s, e))
    ensures SameHeaders(s, CancelLocked(s, e))
  {
  }

  lemma WaitLeavesHeaders(s: State, e: Option<Error>)
    requires Flags(s)
    ensures SameHeaders(s, WriteWait(s, e))
  {
    if e.Some? { CancelLeavesHeaders(s, e.value); }
  }

  lemma RefusalLeavesHeaders(s: State, a: Answer)
    requires Flags(s)
    ensures SameHeaders(s, RefusedWrite(s, a)) && Flags(RefusedWrite(s, a))
  {
    CancelLeavesHeaders(AtWorker(WriteIssued(s, a), Exited), WriteFailed);
  }

  lemma UploadLeavesHeaders(s: State, n: nat, e: Option<Error>, a: Answer)
    requires Flags(s)
    ensures SameHeaders(s, UploadPass(s, n, e, a))
  {
    if s.terminal || s.err.Some? { return; }
    if n == 0 {
      CancelLeavesHeaders(s, if e.Some? then e.value else NoProgress);
    } else if a == Taken {
      WaitLeavesHeaders(WriteIssued(s, a), e);
    } else {
      RefusalLeavesHeaders(s, a);
      if e.Some? { CancelLeavesHeaders(RefusedWrite(s, a), e.value); }
    }
  }

  lemma ReadLeavesHeaders(s: State, reader: nat, room: nat, a: Answer)
    requires Flags(s) && room > 0
    ensures var t := ReadPass(s, reader, room, a);
            && t.haveHeaders == s.haveHeaders && t.env.headersSeen == s.env.headersSeen
            && t.ready == s.ready && t.started == s.started
  {
    if AsksForMore(s, room) {
      var t := TakeBytes(s, reader, |s.pending|);
      if MayRead(t) && a != Taken { CancelLeavesHeaders(ReadIssued(t, a), ReadFailed); }
    }
  }

  lemma HeadersStep(s: State, bad: Option<Error>, a: Answer)
    requires Flags(s) && CallbacksPossible(s)
    ensures var t := ResponseHeaders(s, bad, a);
            && t.haveHeaders == (s.haveHeaders || bad == None) && t.env.headersSeen
            && t.env.delivered == s.env.delivered && t.ready == s.ready && t.started == s.started
  {
    if bad.Some? {
      CancelLeavesHeaders(SeenHeaders(s, false), bad.value);
    } else if MayRead(SeenHeaders(s, true)) && a != Taken {
      CancelLeavesHeaders(ReadIssued(SeenHeaders(s, true), a), ReadFailed);
    }
  }

  lemma NextHeadersFirst(s: State, ev: Event, t: State)
    requires Inv(s) && Enabled(s, ev) && t == Step(s, ev) && HeadersFirst(s)
    ensures HeadersFirst(t) && (t.haveHeaders ==> s.haveHeaders || (ev.EvHeaders? && ev.bad == None))
    ensures s.haveHeaders ==> t.haveHeaders
  {
    StepKeepsTo(s, ev, t);
    if ev.EvHeaders? {
      HeadersStep(s, ev.bad, ev.a);
    } else {
      OnlyHeadersMatter(s, ev, t);
      if ev.EvRead? && s.pending == [] { assert t.env.delivered == s.env.delivered; }
    }
  }

  lemma HeadersComeFirst(states: seq<State>, events: seq<Event>, i: nat)
    requires IsRun(states, events) && i < |states|
    ensures HeadersFirst(states[i])
  {
    forall k | 0 <= k < i && HeadersFirst(states[k]) ensures HeadersFirst(states[k + 1]) {
      RunKeepsInv(states, events, k);
      NextHeadersFirst(states[k], events[k], states[k + 1]);
    }
    Preserved(states, HeadersFirst, i);
  }

  /** Headers come once: after bad ones there are no good ones. */
  ghost predicate NoneToCome(s: State, t: State) {
    s.env.headersSeen && !s.haveHeaders ==> t.env.headersSeen && !t.haveHeaders
  }

  lemma NoneComes(s: State, ev: Event, t: State)
    requires Inv(s) && Enabled(s, ev) && t == Step(s, ev)
    ensures NoneToCome(s, t)
  {
    if !ev.EvHeaders? { OnlyHeadersMatter(s, ev, t); }
  }

  lemma NoHeadersLater(states: seq<State>, events: seq<Event>, k: nat, i: nat)
    requires IsRun(states, events) && k < i < |states| && events[k].EvHeaders? && events[k].bad.Some?
    ensures !states[i].haveHeaders
  {
    RunKeepsInv(states, events, k);
    HeadersStep(states[k], events[k].bad, events[k].a);
    forall j | k + 1 <= j < i ensures NoneToCome(states[j], states[j + 1]) {
      RunKeepsInv(states, events, j);
      NoneComes(states[j], events[j], states[j + 1]);
    }
    Carried(states, NoneToCome, k + 1, i);
  }

  // ---------- what the flags stand for ----------

  predicate IsReady(s: State) {
    s.ready
  }

  predicate MakesReady(s: State, ev: Event) {
    ev.EvStreamReady?
  }

  predicate HasHeaders(s: State) {
    s.haveHeaders
  }

  predicate BringsHeaders(s: State, ev: Event) {
    ev.EvHeaders? && ev.bad == None
  }

  predicate IsStarted(s: State) {
    s.started
  }

  predicate Starts(s: State, ev: Event) {
    ev == EvStart(true) && s.err == None
  }

  lemma FlagsStep(s: State, ev: Event, t: State)
    requires Inv(s) && Enabled(s, ev) && t == Step(s, ev)
    ensures IsReady(t) <==> IsReady(s) || MakesReady(s, ev)
    ensures HasHeaders(t) <==> HasHeaders(s) || BringsHeaders(s, ev)
    ensures IsStarted(t) <==> IsStarted(s) || Starts(s, ev)
  {
    if ev.EvHeaders? { HeadersStep(s, ev.bad, ev.a); } else { OnlyHeadersMatter(s, ev, t); }
  }

  /**
   The request is ready once the stream has said so and may read once a good response has come, and
   only then; it is started by an accepted start, unless it had been given up before.
   */
  lemma FlagsAreEvents(states: seq<State>, events: seq<Event>, i: nat)
    requires IsRun(states, events) && i < |states|
    ensures states[i].ready <==> exists k :: 0 <= k < i && MakesReady(states[k], events[k])
    ensures states[i].haveHeaders <==> exists k :: 0 <= k < i && BringsHeaders(states[k], events[k])
    ensures states[i].started <==> exists k :: 0 <= k < i && Starts(states[k], events[k])
  {
    forall k | 0 <= k < i
      ensures IsReady(states[k + 1]) <==> IsReady(states[k]) || MakesReady(states[k], events[k])
      ensures HasHeaders(states[k + 1]) <==> HasHeaders(states[k]) || BringsHeaders(states[k], events[k])
      ensures IsStarted(states[k + 1]) <==> IsStarted(states[k]) || Starts(states[k], events[k])
    {
      RunKeepsInv(states, events, k);
      FlagsStep(states[k], events[k], states[k + 1]);
    }
    Raised(states, events, IsReady, MakesReady, i);
    Raised(states, events, HasHeaders, BringsHeaders, i);
    Raised(states, events, IsStarted, Starts, i);
  }

  /** Whatever is read or delivered, a good response came before. */
  lemma GoodHeadersCame(states: seq<State>, events: seq<Event>, i: nat) returns (k: nat)
    requires IsRun(states, events) && i < |states|
    requires states[i].haveHeaders || Read(true) in states[i].env.log || Read(false) in states[i].env.log
          || states[i].env.delivered != []
    ensures k < i && events[k].EvHeaders? && events[k].bad == None
  {
    HeadersComeFirst(states, events, i);
    FlagsAreEvents(states, events, i);
    k :| 0 <= k < i && BringsHeaders(states[k], events[k]);
  }

  // ---------- the worker stays ----------

  /** Only an error makes the worker leave. */
  ghost predicate WorkerIsUp(s: State) {
    s.err == None ==> s.env.worker != Exited
  }

  lemma WorkerStaysUp(s: State, ev: Event, t: State)
    requires Inv(s) && WorkerIsUp(s) && Enabled(s, ev) && t == Step(s, ev)
    ensures WorkerIsUp(t)
  {
    StepKeepsTo(s, ev, t);
    if t.err == None && !ev.EvUpload? && !ev.EvWorkerWakes? { OtherStepsLeaveWorker(s, ev, t); }
  }

  lemma OtherStepsLeaveWorker(s: State, ev: Event, t: State)
    requires Inv(s) && Enabled(s, ev) && t == Step(s, ev) && t.err == None && !ev.EvUpload? && !ev.EvWorkerWakes?
    ensures t.env.worker == s.env.worker || ev.EvWorkerReady?
  {
    StepKeepsTo(s, ev, t);
    assert Cause(s, ev) == None;
    match ev
    case EvRead(_, room, a) =>
    case EvHeaders(_, a) =>
    case _ =>
  }

  /**
   While nothing has gone wrong the upload goes on: the worker waits for the stream, for bytes, or for
   a write that the stream has, and after that for bytes again.
   */
  lemma UploadGoesOn(states: seq<State>, events: seq<Event>, i: nat)
    requires IsRun(states, events) && i < |states| && states[i].err == None
    ensures match states[i].env.worker
            case AwaitingReady => states[i].ready ==> Enabled(states[i], EvWorkerReady)
            case FillingBuffer => !states[i].env.nativeWrite
            case AwaitingWrite(_, _) => states[i].env.nativeWrite || Enabled(states[i], EvWorkerWakes)
            case Exited => false
    ensures i + 1 < |states| && (events[i].EvWorkerReady? || events[i].EvWorkerWakes?) && states[i + 1].err == None ==>
              states[i + 1].env.worker == FillingBuffer || states[i].writePending
  {
    forall k | 0 <= k < i && WorkerIsUp(states[k]) ensures WorkerIsUp(states[k + 1]) {
      RunKeepsInv(states, events, k);
      WorkerStaysUp(states[k], events[k], states[k + 1]);
    }
    Preserved(states, WorkerIsUp, i);
    RunKeepsInv(states, events, i);
    if i + 1 < |states| { StepKeepsTo(states[i], events[i], states[i + 1]); }
  }
}
