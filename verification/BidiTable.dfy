/**
 What each event of a bidirectional connection means, in a table that does not use the transitions:
 the error that it ends the connection with, and the calls to the native stream that it leads to.
 */
module BidiTables {
  import opened Bytes
  import opened Runs
  import opened BidiModel
  import opened BidiSafety
  import opened BidiRuns

  // ---------- the table ----------

  /** The error that an event ends the connection with. */
  function Cause(s: State, ev: Event): Option<Error> {
    match ev
    case EvStartFailed => Some(Invalid)
    case EvCompleted(d, n) => if d == In && n == 0 then Some(Eof) else None
    case EvTerminal(e) => Some(e)
    case _ => None
  }

  function Calls(s: State, ev: Event): seq<Call> {
    match ev
    case EvStart(ok) => [Start(ok)]
    case EvStartFailed => [Destroy]
    case EvIssue(d) =>
      if s.closed || s.done then [] else if d == In then [Read(!s.env.over)] else [Write(!s.env.over)]
    case EvGivesUp(_) => if s.cancelled then [] else [Cancel]
    case EvClose => if s.closed || s.done || s.cancelled then [] else [Cancel]
    case EvCompleted(d, _) => if d == In then [ReadDone] else [WriteDone]
    case EvTerminal(_) => [LastCallback]
    case EvTerminate => [Destroy]
    case _ => []
  }

  /** The error that is decided: the connection's own, or the one that its network thread is about to set. */
  function Decided(s: State): Option<Error> {
    if s.done then s.err else if s.env.thread.Terminating? then Some(s.env.thread.e) else None
  }

  // ---------- every step keeps to it ----------

  ghost predicate Keeps(s: State, ev: Event, t: State) {
    && Decided(t) == (if Decided(s).Some? then Decided(s) else Cause(s, ev))
    && t.env.log == s.env.log + Calls(s, ev)
  }

  lemma CallerKeepsTo(s: State, ev: Event)
    requires Inv(s) && Enabled(s, ev) && (ev.EvMove? || ev.EvIssue? || ev.EvGivesUp?)
    ensures Keeps(s, ev, Step(s, ev))
  {
    match ev
    case EvMove(d, m) => match d { case In => case Out => }
    case EvIssue(d) => match d { case In => case Out => }
    case EvGivesUp(d) => match d { case In => case Out => }
  }

  lemma ThreadKeepsTo(s: State, ev: Event)
    requires Inv(s) && Enabled(s, ev) && (ev.EvCompleted? || ev.EvHandOver? || ev.EvDrop?)
    ensures Keeps(s, ev, Step(s, ev))
  {
    match ev
    case EvCompleted(d, n) => match d { case In => case Out => }
    case EvHandOver => match s.env.thread.d { case In => case Out => }
    case EvDrop => match s.env.thread.d { case In => case Out => }
  }

  lemma OtherKeepsTo(s: State, ev: Event)
    requires Inv(s) && Enabled(s, ev) && !Moves(ev)
    ensures Keeps(s, ev, Step(s, ev))
  {
  }

  lemma StepKeepsTo(s: State, ev: Event, t: State)
    requires Inv(s) && Enabled(s, ev) && t == Step(s, ev)
    ensures Keeps(s, ev, t)
  {
    if ev.EvMove? || ev.EvIssue? || ev.EvGivesUp? {
      CallerKeepsTo(s, ev);
    } else if Moves(ev) {
      ThreadKeepsTo(s, ev);
    } else {
      OtherKeepsTo(s, ev);
    }
  }

  // ---------- whole runs ----------

  function FirstCause(states: seq<State>, events: seq<Event>, i: nat): Option<Error>
    requires i <= |events| && i <= |states|
  {
    FirstOf(states, events, Cause, i)
  }

  function AllCalls(states: seq<State>, events: seq<Event>, i: nat): seq<Call>
    requires i <= |events| && i <= |states|
  {
    AllOf(states, events, Calls, i)
  }

  function LogOf(s: State): seq<Call> {
    s.env.log
  }

  /**
   A connection that is done has the first error that any event ended it with, and the native stream
   gets the calls of the table and no others.
   */
  lemma RunKeepsTo(states: seq<State>, events: seq<Event>, i: nat)
    requires IsRun(states, events) && i < |states|
    ensures Decided(states[i]) == FirstCause(states, events, i)
    ensures states[i].done ==> states[i].err == FirstCause(states, events, i)
    ensures states[i].env.log == AllCalls(states, events, i)
  {
    forall k | 0 <= k < i ensures Keeps(states[k], events[k], states[k + 1]) {
      RunIsOrderly(states, events, k);
      StepKeepsTo(states[k], events[k], states[k + 1]);
    }
    KeepsFirst(states, events, Decided, Cause, i);
    KeepsAll(states, events, LogOf, Calls, i);
  }

  // ---------- what callers are told ----------

  /** Why a caller leaves. */
  predicate LeavesFor(x: Side, closed: bool, done: bool) {
    x.caller.Leaving? ==> if x.caller.closing then closed else done
  }

  predicate Leavers(s: State) {
    LeavesFor(s.input, s.closed, s.done) && LeavesFor(s.output, s.closed, s.done)
  }

  lemma CallerKeepsLeavers(s: State, d: Dir, ev: Event)
    requires Leavers(s) && Enabled(s, ev)
    requires (ev.EvMove? && ev.d == d) || ev == EvIssue(d) || ev == EvGivesUp(d)
    ensures Leavers(Step(s, ev))
  {
    var x, t := At(s, d), Step(s, ev);
    assert LeavesFor(x, s.closed, s.done) ==> LeavesFor(At(t, d), s.closed, s.done);
    match d { case In => case Out => }
  }

  lemma ThreadKeepsLeavers(s: State, d: Dir, ev: Event)
    requires Leavers(s) && Enabled(s, ev)
    requires (ev.EvCompleted? && ev.d == d) || ((ev.EvHandOver? || ev.EvDrop?) && s.env.thread.d == d)
    ensures Leavers(Step(s, ev))
  {
    match d { case In => case Out => }
  }

  lemma MovingKeepsLeavers(s: State, ev: Event)
    requires Leavers(s) && Enabled(s, ev) && Moves(ev)
    ensures Leavers(Step(s, ev))
  {
    match ev
    case EvMove(d, _) => CallerKeepsLeavers(s, d, ev);
    case EvIssue(d) => CallerKeepsLeavers(s, d, ev);
    case EvGivesUp(d) => CallerKeepsLeavers(s, d, ev);
    case EvCompleted(d, _) => ThreadKeepsLeavers(s, d, ev);
    case EvHandOver => ThreadKeepsLeavers(s, s.env.thread.d, ev);
    case EvDrop => ThreadKeepsLeavers(s, s.env.thread.d, ev);
  }

  lemma NextKeepsLeavers(s: State, ev: Event, t: State)
    requires Leavers(s) && Enabled(s, ev) && t == Step(s, ev)
    ensures Leavers(t)
  {
    if Moves(ev) { MovingKeepsLeavers(s, ev); }
  }

  /**
   A call that leaves without its count returns the error of the event that ended the connection, or
   that of a close, and then the connection has been closed.
   */
  lemma LeaversAreTold(states: seq<State>, events: seq<Event>, i: nat, d: Dir)
    requires IsRun(states, events) && i < |states| && At(states[i], d).caller.Leaving?
    ensures if At(states[i], d).caller.closing then states[i].closed
            else states[i].done && states[i].err.Some? && states[i].err == FirstCause(states, events, i)
  {
    forall k | 0 <= k < i && Leavers(states[k]) ensures Leavers(states[k + 1]) {
      NextKeepsLeavers(states[k], events[k], states[k + 1]);
    }
    Preserved(states, Leavers, i);
    RunKeepsTo(states, events, i);
    RunIsOrderly(states, events, i);
  }

  // ---------- the gate ----------

  predicate IsReady(s: State) {
    s.ready
  }

  predicate MakesReady(s: State, ev: Event) {
    ev.EvReady?
  }

  predicate HasHeaders(s: State) {
    s.handshake
  }

  predicate BringsHeaders(s: State, ev: Event) {
    ev.EvHandshake?
  }

  predicate IsClosed(s: State) {
    s.closed
  }

  predicate Closes(s: State, ev: Event) {
    ev.EvClose? && !s.done
  }

  predicate IsDone(s: State) {
    s.done
  }

  predicate Ends(s: State, ev: Event) {
    ev.EvTerminate? || ev.EvStartFailed?
  }

  predicate IsHooked(s: State) {
    s.hook
  }

  predicate Hooks(s: State, ev: Event) {
    ev.EvSetOnTerminate?
  }

  predicate ReadIsReleased(s: State) {
    s.input.released
  }

  predicate ReleasesRead(s: State, ev: Event) {
    Ends(s, ev) || (ev.EvDrop? && s.env.thread.Completing? && s.env.thread.d == In)
  }

  predicate WriteIsReleased(s: State) {
    s.output.released
  }

  predicate ReleasesWrite(s: State, ev: Event) {
    Ends(s, ev) || (ev.EvDrop? && s.env.thread.Completing? && s.env.thread.d == Out)
  }

  ghost predicate SameGates(s: State, t: State) {
    t.env.readWaits == s.env.readWaits && t.env.writeWaits == s.env.writeWaits
  }

  ghost predicate SameDoors(s: State, t: State) {
    && SameGates(s, t) && t.ready == s.ready && t.handshake == s.handshake
    && t.closed == s.closed && t.done == s.done && t.hook == s.hook
  }

  ghost predicate SameReleases(s: State, t: State) {
    t.input.released == s.input.released && t.output.released == s.output.released
  }

  ghost predicate Opens(s: State, t: State, read: bool, write: bool) {
    t.input.released == (s.input.released || read) && t.output.released == (s.output.released || write)
  }

  lemma PutLeavesDoors(s: State, d: Dir, x: Side)
    requires x.released == At(s, d).released
    ensures SameDoors(s, Put(s, d, x)) && SameReleases(s, Put(s, d, x))
  {
    match d { case In => case Out => }
  }

  lemma CallerLeavesDoors(s: State, ev: Event)
    requires Enabled(s, ev) && (ev.EvMove? || ev.EvIssue? || ev.EvGivesUp?)
    ensures SameDoors(s, Step(s, ev)) && SameReleases(s, Step(s, ev))
  {
    match ev
    case EvMove(d, m) => PutLeavesDoors(s, d, Moved(At(s, d), m));
    case EvIssue(d) =>
      var x := At(s, d);
      PutLeavesDoors(s, d, x.(caller := Idle));
      PutLeavesDoors(s, d, x.(caller := Waiting(x.caller.t), native := if s.env.over then None else Some(x.caller.t)));
    case EvGivesUp(d) => PutLeavesDoors(s, d, At(s, d).(caller := Draining(At(s, d).caller.t)));
  }

  lemma CompletedLeavesDoors(s: State, d: Dir, n: nat)
    requires Flags(s) && At(s, d).native.Some?
    ensures SameDoors(s, Completed(s, d, n)) && SameReleases(s, Completed(s, d, n))
  {
    var x := At(s, d);
    PutLeavesDoors(s, d, x.(native := None, completed := x.completed + [Transfer(x.native.value.id, n)]));
    if d == In && n == 0 { assert Completed(s, d, n).output == s.output; }
  }

  lemma HandOverLeavesDoors(s: State)
    requires Flags(s) && s.env.thread.Completing?
    ensures SameDoors(s, HandOver(s)) && SameReleases(s, HandOver(s))
  {
    PutLeavesDoors(s, s.env.thread.d, Received(At(s, s.env.thread.d), s.env.thread.t));
  }

  lemma DropOpens(s: State)
    requires Flags(s) && s.env.thread.Completing?
    ensures SameDoors(s, Drop(s)) && Opens(s, Drop(s), s.env.thread.d == In, s.env.thread.d == Out)
  {
    match s.env.thread.d { case In => case Out => }
  }

  lemma EndLeavesDoors(s: State, ev: Event)
    requires Flags(s) && Enabled(s, ev) && !Moves(ev) && !Signals(ev)
    ensures var t := Step(s, ev);
            && SameGates(s, t) && t.ready == s.ready && t.handshake == s.handshake && t.hook == s.hook
            && t.closed == (s.closed || (ev.EvClose? && !s.done))
            && t.done == (s.done || ev.EvTerminate? || ev.EvStartFailed?)
            && Opens(s, t, ev.EvTerminate? || ev.EvStartFailed?, ev.EvTerminate? || ev.EvStartFailed?)
  {
    match ev
    case EvStartFailed =>
    case EvClose =>
    case EvTerminal(_) =>
    case EvTerminate =>
    case EvNativeDestroyed =>
  }

  lemma SignalOpensDoor(s: State, ev: Event)
    requires Enabled(s, ev) && Signals(ev)
    ensures var t := Step(s, ev);
            && SameGates(s, t) && t.ready == (s.ready || ev.EvReady?) && t.handshake == (s.handshake || ev.EvHandshake?)
            && t.closed == s.closed && t.done == s.done && SameReleases(s, t)
            && t.hook == (s.hook || ev.EvSetOnTerminate?)
  {
  }

  /** Which events raise which flag. */
  ghost predicate Raises(s: State, ev: Event, t: State) {
    && SameGates(s, t)
    && (IsReady(t) <==> IsReady(s) || MakesReady(s, ev))
    && (HasHeaders(t) <==> HasHeaders(s) || BringsHeaders(s, ev))
    && (IsClosed(t) <==> IsClosed(s) || Closes(s, ev))
    && (IsDone(t) <==> IsDone(s) || Ends(s, ev))
    && (IsHooked(t) <==> IsHooked(s) || Hooks(s, ev))
    && (ReadIsReleased(t) <==> ReadIsReleased(s) || ReleasesRead(s, ev))
    && (WriteIsReleased(t) <==> WriteIsReleased(s) || ReleasesWrite(s, ev))
  }

  lemma CallerRaises(s: State, ev: Event)
    requires Flags(s) && Enabled(s, ev) && Moves(ev)
    ensures Raises(s, ev, Step(s, ev))
  {
    if ev.EvMove? || ev.EvIssue? || ev.EvGivesUp? {
      CallerLeavesDoors(s, ev);
    } else if ev.EvCompleted? {
      CompletedLeavesDoors(s, ev.d, ev.n);
    } else if ev.EvHandOver? {
      HandOverLeavesDoors(s);
    } else {
      DropOpens(s);
    }
  }

  lemma GatesStep(s: State, ev: Event, t: State)
    requires Flags(s) && Enabled(s, ev) && t == Step(s, ev)
    ensures Raises(s, ev, t)
  {
    if Moves(ev) {
      CallerRaises(s, ev);
    } else if Signals(ev) {
      SignalOpensDoor(s, ev);
    } else {
      EndLeavesDoors(s, ev);
    }
  }

  /**
   A call gets through its gate exactly when what its direction waits for has happened: the response
   headers if it was made to wait for them, and else the stream being ready.
   */
  lemma GateOpensFor(states: seq<State>, events: seq<Event>, i: nat, readWaits: bool, writeWaits: bool)
    requires IsRun(states, events) && i < |states| && states[0] == Initial(readWaits, writeWaits)
    requires states[i].input.caller.AtGate? && states[i].output.caller.AtGate?
    ensures Enabled(states[i], EvIssue(In)) <==>
              exists k :: 0 <= k < i && if readWaits then events[k].EvHandshake? else events[k].EvReady?
    ensures Enabled(states[i], EvIssue(Out)) <==>
              exists k :: 0 <= k < i && if writeWaits then events[k].EvHandshake? else events[k].EvReady?
  {
    RunRaises(states, events, i);
    Raised(states, events, IsReady, MakesReady, i);
    Raised(states, events, HasHeaders, BringsHeaders, i);
    Carried(states, SameGates, 0, i);
    GateIsOpen(states, events, i, readWaits, In);
    GateIsOpen(states, events, i, writeWaits, Out);
  }

  lemma GateIsOpen(states: seq<State>, events: seq<Event>, i: nat, waits: bool, d: Dir)
    requires i < |states| && i <= |events| && At(states[i], d).caller.AtGate?
    requires waits == if d == In then states[i].env.readWaits else states[i].env.writeWaits
    requires states[i].ready <==> exists k :: 0 <= k < i && MakesReady(states[k], events[k])
    requires states[i].handshake <==> exists k :: 0 <= k < i && BringsHeaders(states[k], events[k])
    ensures Enabled(states[i], EvIssue(d)) <==>
              exists k :: 0 <= k < i && if waits then events[k].EvHandshake? else events[k].EvReady?
  {
    if waits {
      if k :| 0 <= k < i && BringsHeaders(states[k], events[k]) { assert events[k].EvHandshake?; }
      if k :| 0 <= k < i && events[k].EvHandshake? { assert BringsHeaders(states[k], events[k]); }
    } else {
      if k :| 0 <= k < i && MakesReady(states[k], events[k]) { assert events[k].EvReady?; }
      if k :| 0 <= k < i && events[k].EvReady? { assert MakesReady(states[k], events[k]); }
    }
  }

  lemma RunRaises(states: seq<State>, events: seq<Event>, i: nat)
    requires IsRun(states, events) && i < |states|
    ensures forall k :: 0 <= k < i ==> Raises(states[k], events[k], states[k + 1])
  {
    forall k | 0 <= k < i ensures Raises(states[k], events[k], states[k + 1]) {
      RunIsOrderly(states, events, k);
      GatesStep(states[k], events[k], states[k + 1]);
    }
  }

  /** A connection is closed by a close before its end, and done by the end that its events decided. */
  lemma FlagsAreEvents(states: seq<State>, events: seq<Event>, i: nat)
    requires IsRun(states, events) && i < |states|
    ensures states[i].closed <==> exists k :: 0 <= k < i && Closes(states[k], events[k])
    ensures states[i].done <==> exists k :: 0 <= k < i && Ends(states[k], events[k])
    ensures states[i].hook <==> exists k :: 0 <= k < i && Hooks(states[k], events[k])
  {
    RunRaises(states, events, i);
    Raised(states, events, IsClosed, Closes, i);
    Raised(states, events, IsDone, Ends, i);
    Raised(states, events, IsHooked, Hooks, i);
  }

  /**
   A caller that leaves gets its buffer back from the completion that it did not wait for, or at the
   end, and from nothing else.
   */
  lemma ReleasesAreEvents(states: seq<State>, events: seq<Event>, i: nat)
    requires IsRun(states, events) && i < |states|
    ensures states[i].input.released <==> exists k :: 0 <= k < i && ReleasesRead(states[k], events[k])
    ensures states[i].output.released <==> exists k :: 0 <= k < i && ReleasesWrite(states[k], events[k])
  {
    RunRaises(states, events, i);
    Raised(states, events, ReadIsReleased, ReleasesRead, i);
    Raised(states, events, WriteIsReleased, ReleasesWrite, i);
  }
}
