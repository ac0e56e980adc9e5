/** What holds over whole runs of a bidirectional connection. */
module BidiRuns {
  import opened Bytes
  import opened Counting
  import opened Runs
  import opened BidiModel
  import opened BidiSafety

  lemma RunIsOrderly(states: seq<State>, events: seq<Event>, i: nat)
    requires IsRun(states, events) && i < |states|
    ensures Orderly(states[i])
  {
    var readWaits, writeWaits :| states[0] == Initial(readWaits, writeWaits);
    InitialIsOrderly(readWaits, writeWaits);
    forall k | 0 <= k < i && Orderly(states[k]) ensures Orderly(states[k + 1]) {
      NextIsOrderly(states[k], events[k], states[k + 1]);
    }
    Preserved(states, Orderly, i);
  }

  // ---------- buffers ----------

  /** A read has its buffer back when it returns: the native stream only has buffers of calls in progress. */
  lemma ReadHandsBack(states: seq<State>, events: seq<Event>, i: nat)
    requires IsRun(states, events) && i < |states|
    ensures states[i].input.native.Some? ==> Inside(states[i].input.caller, states[i].input.native.value)
    ensures states[i].done ==> states[i].input.native == None
  {
    RunIsOrderly(states, events, i);
  }

  /**
   The native stream has a write buffer, and the connection has ended by the end of input, or is
   about to: nothing waits for that buffer any more.
   */
  predicate Held(s: State) {
    s.output.native.Some? && (s.done || (s.env.thread.Terminating? && !s.env.over))
  }

  /**
   The end of input meets an unfinished write: the native stream has the buffer when the end
   arrives, or is given it before the termination that the end causes.
   */
  predicate Meets(s: State, ev: Event) {
    || (ev == EvCompleted(In, 0) && s.output.native.Some?)
    || (ev == EvIssue(Out) && s.env.thread.Terminating? && !s.env.over && !s.closed)
  }

  /** A write that is not held is waited for by its caller, who cannot return before it is back. */
  lemma NotHeldIsInside(s: State)
    requires Inv(s) && !Held(s)
    ensures s.output.native.Some? ==> Inside(s.output.caller, s.output.native.value)
  {
  }

  lemma CallerStepHolds(s: State, ev: Event)
    requires Inv(s) && Enabled(s, ev) && (ev.EvMove? || ev.EvIssue? || ev.EvGivesUp?) && !Held(s)
    ensures Held(Step(s, ev)) <==> Meets(s, ev)
  {
    match ev
    case EvMove(d, m) => match d { case In => case Out => }
    case EvIssue(d) => match d { case In => case Out => }
    case EvGivesUp(d) => match d { case In => case Out => }
  }

  lemma ThreadStepHolds(s: State, ev: Event)
    requires Inv(s) && Enabled(s, ev) && (ev.EvCompleted? || ev.EvHandOver? || ev.EvDrop?) && !Held(s)
    ensures Held(Step(s, ev)) <==> Meets(s, ev)
  {
    match ev
    case EvCompleted(d, n) => match d { case In => case Out => }
    case EvHandOver => match s.env.thread.d { case In => case Out => }
    case EvDrop => match s.env.thread.d { case In => case Out => }
  }

  lemma OtherStepHolds(s: State, ev: Event)
    requires Inv(s) && Enabled(s, ev) && !Moves(ev) && !Held(s)
    ensures !Held(Step(s, ev))
  {
    match ev
    case EvStartFailed =>
    case EvClose =>
    case EvTerminate =>
    case EvTerminal(e) =>
    case _ =>
  }

  /** The first write to be held is one that the end of input has met. */
  lemma StepHolds(s: State, ev: Event, t: State)
    requires Inv(s) && Enabled(s, ev) && !Held(s) && t == Step(s, ev)
    ensures Held(t) <==> Meets(s, ev)
  {
    if ev.EvMove? || ev.EvIssue? || ev.EvGivesUp? {
      CallerStepHolds(s, ev);
    } else if Moves(ev) {
      ThreadStepHolds(s, ev);
    } else {
      OtherStepHolds(s, ev);
    }
  }

  lemma MeetingHolds(s: State, ev: Event, t: State)
    requires Inv(s) && Enabled(s, ev) && Meets(s, ev) && t == Step(s, ev)
    ensures Held(t)
  {
    match ev
    case EvCompleted(d, n) =>
    case EvIssue(d) =>
  }

  lemma RunHoldsNothing(states: seq<State>, events: seq<Event>, i: nat)
    requires IsRun(states, events) && i < |states|
    requires forall k :: 0 <= k < i ==> !Meets(states[k], events[k])
    ensures !Held(states[i])
  {
    var notHeld := (s: State) => !Held(s);
    forall k | 0 <= k < i && notHeld(states[k]) ensures notHeld(states[k + 1]) {
      RunIsOrderly(states, events, k);
      StepHolds(states[k], events[k], states[k + 1]);
    }
    var readWaits, writeWaits :| states[0] == Initial(readWaits, writeWaits);
    Preserved(states, notHeld, i);
  }

  /** A write is held at some point of a run exactly if the end of input meets an unfinished write in it. */
  lemma HeldAfterMeeting(states: seq<State>, events: seq<Event>)
    requires IsRun(states, events)
    ensures (exists i :: 0 <= i < |states| && Held(states[i])) <==>
            (exists k :: 0 <= k < |events| && Meets(states[k], events[k]))
  {
    if k :| 0 <= k < |events| && Meets(states[k], events[k]) {
      RunIsOrderly(states, events, k);
      MeetingHolds(states[k], events[k], states[k + 1]);
      assert Held(states[k + 1]);
    } else {
      forall i | 0 <= i < |states| ensures !Held(states[i]) {
        RunHoldsNothing(states, events, i);
      }
    }
  }

  // ---------- the writer's way out ----------

  /** A write has returned and the native stream still has its buffer. */
  predicate StillHeld(s: State) {
    s.output.caller == Idle && s.output.native.Some?
  }

  /** The pending termination, and the steps of the writer alone. */
  predicate OwnWay(ev: Event) {
    ev == EvTerminate || (ev.EvMove? && ev.d == Out) || ev == EvGivesUp(Out)
  }

  /** Within n such steps the writer can have returned without its buffer. */
  ghost predicate EscapesWithin(s: State, n: nat)
    decreases n
  {
    || StillHeld(s)
    || (n > 0 && exists ev :: OwnWay(ev) && Enabled(s, ev) && EscapesWithin(Step(s, ev), n - 1))
  }

  /** Nothing but the writer's own steps is needed for a write to return without its buffer. */
  ghost predicate Escapes(s: State) {
    exists n :: EscapesWithin(s, n)
  }

  lemma OwnWayKeepsBuffer(s: State, ev: Event)
    requires Inv(s) && Enabled(s, ev) && OwnWay(ev)
    ensures Inv(Step(s, ev)) && Held(Step(s, ev)) == Held(s)
  {
    StepKeeps(s, ev);
    match ev
    case EvTerminate =>
    case EvMove(d, m) =>
    case EvGivesUp(d) =>
  }

  lemma {:induction false} OnlyTheHeldEscape(s: State, n: nat)
    requires Inv(s) && EscapesWithin(s, n)
    ensures Held(s)
    decreases n
  {
    if StillHeld(s) {
      if !Held(s) { NotHeldIsInside(s); }
    } else {
      var ev :| OwnWay(ev) && Enabled(s, ev) && EscapesWithin(Step(s, ev), n - 1);
      OwnWayKeepsBuffer(s, ev);
      OnlyTheHeldEscape(Step(s, ev), n - 1);
    }
  }

  /** The next step of a writer whose connection is done, wherever it is. */
  function WayOut(c: Caller): Event
    requires !c.Idle?
  {
    match c
    case AtGate(_) => EvMove(Out, GateFails)
    case Waiting(_) => EvMove(Out, SeesDone)
    case TimedOut(_) => EvGivesUp(Out)
    case Draining(_) => EvMove(Out, SeesDone)
    case Leaving(_, _) => EvMove(Out, Returns)
  }

  /** How many steps it is away from its return. */
  function StepsOut(c: Caller): nat {
    match c
    case Idle => 0
    case AtGate(_) => 1
    case Waiting(_) => 2
    case TimedOut(_) => 2
    case Draining(_) => 1
    case Leaving(_, _) => 1
  }

  lemma WayOutIsFree(s: State)
    requires Inv(s) && s.done && s.output.native.Some? && !s.output.caller.Idle?
    ensures var ev := WayOut(s.output.caller);
            && OwnWay(ev) && Enabled(s, ev)
            && var t := Step(s, ev);
               Inv(t) && t.done && t.output.native.Some? && StepsOut(t.output.caller) < StepsOut(s.output.caller)
  {
    StepKeeps(s, WayOut(s.output.caller));
    match s.output.caller
    case AtGate(_) =>
    case Waiting(_) =>
    case TimedOut(_) =>
    case Draining(_) =>
    case Leaving(_, _) =>
  }

  lemma {:induction false} DoneEscapes(s: State, n: nat)
    requires Inv(s) && s.done && s.output.native.Some? && StepsOut(s.output.caller) <= n
    ensures EscapesWithin(s, n)
    decreases n
  {
    if !s.output.caller.Idle? {
      WayOutIsFree(s);
      DoneEscapes(Step(s, WayOut(s.output.caller)), n - 1);
    }
  }

  /** Wherever the writer is, it can return without its buffer exactly if the write is held. */
  lemma WriteMayReturnEarly(s: State)
    requires Inv(s)
    ensures Escapes(s) <==> Held(s)
    ensures Held(s) ==> EscapesWithin(s, 3)
  {
    if Held(s) {
      if s.done {
        DoneEscapes(s, 3);
      } else {
        OwnWayKeepsBuffer(s, EvTerminate);
        DoneEscapes(Step(s, EvTerminate), 2);
        assert OwnWay(EvTerminate) && Enabled(s, EvTerminate);
      }
      assert EscapesWithin(s, 3);
    } else if n :| EscapesWithin(s, n) {
      OnlyTheHeldEscape(s, n);
    }
  }

  /**
   Exactly when writes get their buffers back: a run has a state in which the writer's own steps can
   take it out of its call without its buffer if and only if the end of input meets an unfinished
   write somewhere in it.
   */
  lemma WriteHandsBack(states: seq<State>, events: seq<Event>)
    requires IsRun(states, events)
    ensures (exists i :: 0 <= i < |states| && Escapes(states[i])) <==>
            (exists k :: 0 <= k < |events| && Meets(states[k], events[k]))
  {
    forall i | 0 <= i < |states| ensures Escapes(states[i]) <==> Held(states[i]) {
      RunIsOrderly(states, events, i);
      WriteMayReturnEarly(states[i]);
    }
    HeldAfterMeeting(states, events);
    if i :| 0 <= i < |states| && Escapes(states[i]) { assert Held(states[i]); }
    if i :| 0 <= i < |states| && Held(states[i]) { assert Escapes(states[i]); }
  }

  // ---------- results ----------

  /** A call that returns a count has been given the completion of its own buffer. */
  lemma CountBelongsToCall(states: seq<State>, events: seq<Event>, i: nat)
    requires IsRun(states, events) && i < |events| && events[i] == EvHandOver
    requires At(states[i], states[i].env.thread.d).caller.Waiting?
    ensures var d := states[i].env.thread.d; var before, after := At(states[i], d), At(states[i + 1], d);
            && after.caller == Idle && after.native == None
            && |after.returned| == |before.returned| + 1
            && var r := after.returned[|before.returned|];
               && after.returned == before.returned + [r] && r.id == before.caller.t.id
               && (if d == In then 0 <= r.n <= before.caller.t.n else r.n == before.caller.t.n)
  {
    RunIsOrderly(states, events, i);
    match states[i].env.thread.d { case In => case Out => }
  }

  /**
   What has been reported is always a prefix of what has been moved, call by call; while the
   connection is open and no deadline has passed, nothing at all is missing but the completion
   that is just being handed over.
   */
  lemma NothingIsSkipped(states: seq<State>, events: seq<Event>, i: nat, d: Dir)
    requires IsRun(states, events) && i < |states|
    ensures At(states[i], d).returned <= At(states[i], d).completed
    ensures !states[i].closed && !states[i].done && !At(states[i], d).caller.Draining? ==>
              At(states[i], d).completed == At(states[i], d).returned +
                match Coming(states[i], d) case Some(t) => [t] case None => []
  {
    RunIsOrderly(states, events, i);
    var s := states[i];
    match d {
      case In => assert Accounts(s.input, ViewOf(s, In));
      case Out => assert Accounts(s.output, ViewOf(s, Out));
    }
  }

  // ---------- progress ----------

  /** The network thread never blocks for good: a completion can be received, or dropped. */
  lemma CompletionIsTaken(states: seq<State>, events: seq<Event>, i: nat)
    requires IsRun(states, events) && i < |states| && states[i].env.thread.Completing?
    ensures var s := states[i]; var d := s.env.thread.d;
            || Enabled(s, EvHandOver) || Enabled(s, EvDrop)
            || (Enabled(s, EvGivesUp(d)) && Enabled(Step(s, EvGivesUp(d)), EvHandOver))
  {
    RunIsOrderly(states, events, i);
    CompletionHasABranch(states[i]);
  }

  lemma CompletionHasABranch(s: State)
    requires Inv(s) && s.env.thread.Completing?
    ensures var d := s.env.thread.d;
            || Enabled(s, EvHandOver) || Enabled(s, EvDrop)
            || (Enabled(s, EvGivesUp(d)) && Enabled(Step(s, EvGivesUp(d)), EvHandOver))
  {
    match s.env.thread.d {
      case In => assert Serves(s.input.caller, In, s.env.thread.t);
      case Out => assert Serves(s.output.caller, Out, s.env.thread.t);
    }
  }

  /** Once the connection is done, every caller inside a call can go on to its end. */
  lemma CallersLeave(states: seq<State>, events: seq<Event>, i: nat, d: Dir)
    requires IsRun(states, events) && i < |states| && states[i].done
    ensures match At(states[i], d).caller
            case Idle => true
            case AtGate(_) => Enabled(states[i], EvMove(d, GateFails))
            case Waiting(_) => Enabled(states[i], EvMove(d, SeesDone))
            case TimedOut(_) => Enabled(states[i], EvGivesUp(d))
            case Draining(_) => Enabled(states[i], EvMove(d, SeesDone))
            case Leaving(_, _) => Enabled(states[i], EvMove(d, Returns))
  {
    RunIsOrderly(states, events, i);
    match d { case In => case Out => }
  }

  // ---------- native calls ----------

  lemma {:induction false} JudgeCounts(log: seq<Call>)
    requires Judge(log) != Violation
    ensures Occurrences(log, Destroy) == Bit(Judge(log) == Gone)
    ensures Occurrences(log, Cancel) <= Bit(!Judge(log).Live?)
    ensures Judge(log) == Gone ==> log[|log| - 1] == Destroy
  {
    if log != [] { JudgeCounts(log[..|log| - 1]); }
  }

  /**
   The stream is cancelled at most once, given one read and one write at a time, destroyed exactly
   once by the time the connection is done, and then left alone.
   */
  lemma NativeCallsInOrder(states: seq<State>, events: seq<Event>, i: nat)
    requires IsRun(states, events) && i < |states|
    ensures var log := states[i].env.log;
            && Judge(log) != Violation
            && Occurrences(log, Destroy) == Bit(states[i].done)
            && Occurrences(log, Cancel) <= 1
            && (states[i].done ==> log[|log| - 1] == Destroy)
    ensures forall j :: i <= j < |states| && states[i].done ==>
              states[j].env.log == states[i].env.log && states[j].err == states[i].err
  {
    RunIsOrderly(states, events, i);
    JudgeCounts(states[i].env.log);
    forall j | i <= j < |states| && states[i].done
      ensures states[j].env.log == states[i].env.log && states[j].err == states[i].err
    {
      NothingAfterDestroy(states, events, i, j);
    }
  }

  /** Once the connection is done the log is complete and the error is final. */
  ghost predicate Silent(s: State, t: State) {
    s.done ==> t.done && t.env.log == s.env.log && t.err == s.err
  }

  lemma MovingStepIsSilent(s: State, ev: Event)
    requires Inv(s) && s.done && Enabled(s, ev) && (ev.EvMove? || ev.EvIssue? || ev.EvGivesUp?)
    ensures Silent(s, Step(s, ev))
  {
    match ev
    case EvMove(d, m) => match d { case In => case Out => }
    case EvIssue(d) => match d { case In => case Out => }
    case EvGivesUp(d) => match d { case In => case Out => }
  }

  lemma DoneStepCallsNothing(s: State, ev: Event, t: State)
    requires Inv(s) && Enabled(s, ev) && t == Step(s, ev)
    ensures Silent(s, t)
  {
    if s.done {
      match ev
      case EvMove(_, _) => MovingStepIsSilent(s, ev);
      case EvIssue(_) => MovingStepIsSilent(s, ev);
      case EvGivesUp(_) => MovingStepIsSilent(s, ev);
      case EvCompleted(_, _) => assert false;
      case EvHandOver => assert false;
      case EvDrop => assert false;
      case EvTerminate => assert false;
      case _ =>
    }
  }

  lemma NothingAfterDestroy(states: seq<State>, events: seq<Event>, i: nat, j: nat)
    requires IsRun(states, events) && i <= j < |states| && states[i].done
    ensures states[j].env.log == states[i].env.log && states[j].done && states[j].err == states[i].err
  {
    forall k | i <= k < j ensures Silent(states[k], states[k + 1]) {
      RunIsOrderly(states, events, k);
      DoneStepCallsNothing(states[k], events[k], states[k + 1]);
    }
    Carried(states, Silent, i, j);
  }

  /** The termination hook runs once, whether it is set before or after the termination. */
  lemma HookRunsOnce(states: seq<State>, events: seq<Event>, i: nat)
    requires IsRun(states, events) && i < |states|
    ensures states[i].env.hookRuns <= 1
    ensures states[i].env.hookRuns > 0 ==> states[i].done && states[i].hook
    ensures states[i].hook && states[i].done && states[i].env.hookRuns == 0 ==> Enabled(states[i], EvRunHook)
  {
    RunIsOrderly(states, events, i);
  }

  // ---------- a run in which a write does not get its buffer back ----------

  const QUIET := Env(false, false, NotStarted, Free, false, false, 0, 0, [])
  const BEGUN := QUIET.(start := Started, log := [Start(true)])
  const BOTH := BEGUN.(log := [Start(true), Read(true), Write(true)])
  const READING := Side(Waiting(Transfer(0, 5)), Some(Transfer(0, 5)), false, 1, [], [])
  const WRITING := Side(Waiting(Transfer(0, 3)), Some(Transfer(0, 3)), false, 1, [], [])

  /** A connection that is ready, with the given directions. */
  function Open(input: Side, output: Side, env: Env): State {
    State(false, false, false, None, true, false, input, output, false, env)
  }

  /** One that the end of input has terminated. */
  function Ended(input: Side, output: Side): State {
    State(false, true, true, Some(Eof), true, false, input.(released := true), output.(released := true), false,
      BOTH.(early := true, log := BOTH.log + [ReadDone, Destroy]))
  }

  function EarlyEvents(): seq<Event> {
    [EvStart(true), EvReady, EvMove(In, Begin(5)), EvIssue(In), EvMove(Out, Begin(3)), EvIssue(Out),
     EvCompleted(In, 0), EvTerminate, EvMove(Out, SeesDone), EvMove(Out, Returns)]
  }

  function EarlyStates(): seq<State> {
    var gone := READING.(native := None);
    [Initial(false, false),
     Initial(false, false).(env := BEGUN),
     Open(NEW_SIDE, NEW_SIDE, BEGUN),
     Open(NEW_SIDE.(caller := AtGate(Transfer(0, 5)), next := 1), NEW_SIDE, BEGUN),
     Open(READING, NEW_SIDE, BEGUN.(log := [Start(true), Read(true)])),
     Open(READING, NEW_SIDE.(caller := AtGate(Transfer(0, 3)), next := 1), BEGUN.(log := [Start(true), Read(true)])),
     Open(READING, WRITING, BOTH),
     Open(gone, WRITING, BOTH.(thread := Terminating(Eof), log := BOTH.log + [ReadDone])),
     Ended(gone, WRITING),
     Ended(gone, WRITING.(caller := Leaving(Transfer(0, 3), false))),
     Ended(gone, WRITING.(caller := Idle))]
  }

  predicate Leads(s: State, ev: Event, t: State) {
    Enabled(s, ev) && Step(s, ev) == t
  }

  lemma BothBegin(states: seq<State>, events: seq<Event>)
    requires states == EarlyStates() && events == EarlyEvents()
    ensures forall i :: 0 <= i < 3 ==> Leads(states[i], events[i], states[i + 1])
  {
    assert Leads(states[0], EvStart(true), states[1]);
    assert Leads(states[1], EvReady, states[2]);
    assert Leads(states[2], EvMove(In, Begin(5)), states[3]);
  }

  lemma BothWait(states: seq<State>, events: seq<Event>)
    requires states == EarlyStates() && events == EarlyEvents()
    ensures forall i :: 3 <= i < 6 ==> Leads(states[i], events[i], states[i + 1])
  {
    assert Leads(states[3], EvIssue(In), states[4]);
    assert Leads(states[4], EvMove(Out, Begin(3)), states[5]);
    assert Leads(states[5], EvIssue(Out), states[6]);
  }

  lemma InputEnds(states: seq<State>, events: seq<Event>)
    requires states == EarlyStates() && events == EarlyEvents()
    ensures forall i :: 6 <= i < 10 ==> Leads(states[i], events[i], states[i + 1])
  {
    assert Leads(states[6], EvCompleted(In, 0), states[7]);
    assert Leads(states[7], EvTerminate, states[8]);
    assert Leads(states[8], EvMove(Out, SeesDone), states[9]);
    assert Leads(states[9], EvMove(Out, Returns), states[10]);
  }

  /** A run in which a write returns while the native stream has its buffer. */
  lemma WriteReturnsEarly()
    ensures exists states, events :: IsRun(states, events) && StillHeld(states[|states| - 1])
  {
    var states, events := EarlyStates(), EarlyEvents();
    BothBegin(states, events);
    BothWait(states, events);
    InputEnds(states, events);
    assert states[0] == Initial(false, false);
    forall i | 0 <= i < |events| ensures Enabled(states[i], events[i]) && states[i + 1] == Step(states[i], events[i]) {
      assert Leads(states[i], events[i], states[i + 1]);
    }
    assert IsRun(states, events);
    assert StillHeld(states[|states| - 1]);
  }
}
