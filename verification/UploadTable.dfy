/**
 What each event of the upload path means to the writers and to the loop, in a table that does not use
 the transitions: which result a write gets, and when and why the loop stops.
 */
module UploadTables {
  import opened Bytes
  import opened Counting
  import opened Runs
  import opened UploadModel
  import opened UploadRuns

  // ---------- what writes are told ----------

  /** The error of a batch that has been closed: the connection's own comes first. */
  function ClosedWith(s: State): Error {
    if s.connErr.Some? then s.connErr.value else if s.batch.closeErr.Some? then s.batch.closeErr.value else ClosedPipe
  }

  /** The results that an event brings: a write ends at once, when all is accepted, or with an error. */
  function Told(s: State, ev: Event): seq<Result> {
    match ev
    case EvWrite(p) => if s.connErr.Some? then [Result(p, 0, s.connErr)] else []
    case EvTry =>
      if !s.writer.Trying? then []
      else if s.writer.total == |s.writer.p| then [Result(s.writer.p, s.writer.total, None)]
      else if s.batch.closed then [Result(s.writer.p, s.writer.total, Some(ClosedWith(s)))]
      else []
    case EvInterrupted(replaced, e) =>
      if s.writer.Idle? || (s.connErr == None && replaced && e == Canceled && !s.ctxDone) then []
      else [Result(s.writer.p, s.writer.total, if s.connErr.Some? then s.connErr else Some(e))]
    case _ => []
  }

  function Results(s: State): seq<Result> {
    s.history.results
  }

  lemma StepTells(s: State, ev: Event, t: State)
    requires Enabled(s, ev) && t == Step(s, ev)
    ensures Results(t) == Results(s) + Told(s, ev)
  {
    match ev
    case EvWrite(p) =>
    case EvTry =>
    case EvInterrupted(replaced, e) =>
    case _ =>
  }

  // ---------- where the errors come from ----------

  function ConnError(s: State): Option<Error> {
    s.connErr
  }

  function SetsError(s: State, ev: Event): Option<Error> {
    if ev.EvSetError? then Some(ev.err) else None
  }

  /** What the batch was closed with, if it was. */
  function Closing(s: State): Option<Option<Error>> {
    if s.batch.closed then Some(s.batch.closeErr) else None
  }

  function Closes(s: State, ev: Event): Option<Option<Error>> {
    if ev.EvClose? then Some(ev.cause) else None
  }

  predicate IsCancelled(s: State) {
    s.ctxDone
  }

  predicate Cancels(s: State, ev: Event) {
    ev.EvCancel?
  }

  ghost predicate KeepsErrors(s: State, ev: Event, t: State) {
    && ConnError(t) == (if ConnError(s).Some? then ConnError(s) else SetsError(s, ev))
    && Closing(t) == (if Closing(s).Some? then Closing(s) else Closes(s, ev))
    && (IsCancelled(t) <==> IsCancelled(s) || Cancels(s, ev))
  }

  lemma WriterKeepsErrors(s: State, ev: Event, t: State)
    requires Enabled(s, ev) && t == Step(s, ev) && (ev.EvWrite? || ev.EvTry? || ev.EvWriterWakes? || ev.EvInterrupted?)
    ensures KeepsErrors(s, ev, t)
  {
    match ev
    case EvWrite(p) =>
    case EvTry =>
    case EvWriterWakes =>
    case EvInterrupted(replaced, e) =>
  }

  lemma StepKeepsErrors(s: State, ev: Event, t: State)
    requires Enabled(s, ev) && t == Step(s, ev)
    ensures KeepsErrors(s, ev, t)
  {
    if ev.EvWrite? || ev.EvTry? || ev.EvWriterWakes? || ev.EvInterrupted? { WriterKeepsErrors(s, ev, t); }
  }

  /**
   The results of all writes, in order, are those of the table; the connection's error is the first
   that was set, the batch's is that of the first close, and a context is done once it is cancelled.
   */
  lemma WritesAreTold(states: seq<State>, events: seq<Event>, i: nat)
    requires IsRun(states, events) && i < |states|
    ensures states[i].history.results == AllOf(states, events, Told, i)
    ensures states[i].connErr == FirstOf(states, events, SetsError, i)
    ensures Closing(states[i]) == FirstOf(states, events, Closes, i)
    ensures states[i].ctxDone <==> exists k :: 0 <= k < i && Cancels(states[k], events[k])
  {
    forall k | 0 <= k < i
      ensures Results(states[k + 1]) == Results(states[k]) + Told(states[k], events[k])
      ensures KeepsErrors(states[k], events[k], states[k + 1])
    {
      StepTells(states[k], events[k], states[k + 1]);
      StepKeepsErrors(states[k], events[k], states[k + 1]);
    }
    KeepsAll(states, events, Results, Told, i);
    KeepsFirst(states, events, ConnError, SetsError, i);
    KeepsFirst(states, events, Closing, Closes, i);
    Raised(states, events, IsCancelled, Cancels, i);
  }

  // ---------- when the loop stops ----------

  predicate HasFailed(s: State) {
    s.loop == Stopped(Failed)
  }

  predicate Fails(s: State, ev: Event) {
    ev == EvPostStarted(false)
  }

  predicate HasGivenUp(s: State) {
    s.loop == Stopped(Cancelled)
  }

  predicate GivesUp(s: State, ev: Event) {
    ev == EvSeesCancel
  }

  predicate HasEnded(s: State) {
    s.loop == Stopped(Ended)
  }

  predicate SeesEnd(s: State, ev: Event) {
    (ev == EvDrain || ev == EvLoopWakes) && s.batch.closed && s.batch.data == []
  }

  lemma StopsFor(s: State, ev: Event, t: State)
    requires Enabled(s, ev) && t == Step(s, ev)
    ensures HasFailed(t) <==> HasFailed(s) || Fails(s, ev)
    ensures HasGivenUp(t) <==> HasGivenUp(s) || GivesUp(s, ev)
    ensures HasEnded(t) <==> HasEnded(s) || SeesEnd(s, ev)
  {
    if ev.EvWrite? || ev.EvTry? || ev.EvWriterWakes? || ev.EvInterrupted? { WriterLeavesLoop(s, ev, t); }
  }

  lemma WriterLeavesLoop(s: State, ev: Event, t: State)
    requires Enabled(s, ev) && t == Step(s, ev) && (ev.EvWrite? || ev.EvTry? || ev.EvWriterWakes? || ev.EvInterrupted?)
    ensures t.loop == s.loop
  {
    match ev
    case EvWrite(p) =>
    case EvTry =>
    case EvWriterWakes =>
    case EvInterrupted(replaced, e) =>
  }

  /**
   The loop stops for a failed start, for a cancellation that it sees, and at the end of a closed
   batch; for nothing else.
   */
  lemma LoopStopsFor(states: seq<State>, events: seq<Event>, i: nat)
    requires IsRun(states, events) && i < |states|
    ensures states[i].loop == Stopped(Failed) <==> exists k :: 0 <= k < i && Fails(states[k], events[k])
    ensures states[i].loop == Stopped(Cancelled) <==> exists k :: 0 <= k < i && GivesUp(states[k], events[k])
    ensures states[i].loop == Stopped(Ended) <==> exists k :: 0 <= k < i && SeesEnd(states[k], events[k])
  {
    forall k | 0 <= k < i
      ensures HasFailed(states[k + 1]) <==> HasFailed(states[k]) || Fails(states[k], events[k])
      ensures HasGivenUp(states[k + 1]) <==> HasGivenUp(states[k]) || GivesUp(states[k], events[k])
      ensures HasEnded(states[k + 1]) <==> HasEnded(states[k]) || SeesEnd(states[k], events[k])
    {
      StopsFor(states[k], events[k], states[k + 1]);
    }
    Raised(states, events, HasFailed, Fails, i);
    Raised(states, events, HasGivenUp, GivesUp, i);
    Raised(states, events, HasEnded, SeesEnd, i);
  }

  /**
   Until it stops the loop goes on: it waits only for bytes while there are none, and for a slot only
   while as many requests are in flight as may be, each of which frees one when it is done.
   */
  lemma LoopGoesOn(states: seq<State>, events: seq<Event>, i: nat)
    requires IsRun(states, events) && i < |states| && !states[i].loop.Stopped?
    ensures var s := states[i];
            match s.loop
            case Checking => Enabled(s, EvDrain)
            case AwaitingData(_) => (s.batch.data == [] && !s.batch.closed) || Enabled(s, EvLoopWakes)
            case Delaying(_) => Enabled(s, EvDelayed)
            case Numbered(_, _) =>
              || Enabled(s, EvSlot)
              || (Count(s.posts, InFlight) == s.limit && exists k :: 0 <= k < |s.posts| && Enabled(s, EvPostDone(k)))
            case StartingPost(_, _) => Enabled(s, EvPostStarted(true))
            case Stopped(_) => false
  {
    var s := states[i];
    RunKeepsInv(states, events, i);
    if s.loop.Numbered? && s.used >= s.limit {
      var maxEach, configured :| states[0] == Initial(maxEach, configured);
      LimitsAreConfigured(states, events, i, maxEach, configured);
      CountPositive(s.posts, InFlight);
      var k :| 0 <= k < |s.posts| && InFlight(s.posts[k]);
      assert Enabled(s, EvPostDone(k));
    }
  }

  ghost predicate SameLimits(s: State, t: State) {
    t.limit == s.limit && t.batch.max == s.batch.max
  }

  lemma StepKeepsLimits(s: State, ev: Event, t: State)
    requires Enabled(s, ev) && t == Step(s, ev)
    ensures SameLimits(s, t)
  {
    match ev
    case EvTry =>
    case EvInterrupted(replaced, e) =>
    case _ =>
  }

  /** The limits are the configured ones for good, or a million bytes and thirty requests. */
  lemma LimitsAreConfigured(states: seq<State>, events: seq<Event>, i: nat, maxEach: int, configured: nat)
    requires IsRun(states, events) && i < |states| && states[0] == Initial(maxEach, configured)
    ensures states[i].batch.max == if maxEach <= 0 then 1_000_000 else maxEach
    ensures states[i].limit == if configured == 0 then 30 else configured
  {
    forall k | 0 <= k < i ensures SameLimits(states[k], states[k + 1]) {
      StepKeepsLimits(states[k], events[k], states[k + 1]);
    }
    Carried(states, SameLimits, 0, i);
  }
}
