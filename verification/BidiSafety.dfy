/**
 What every step of a bidirectional connection keeps: who owns the buffers, in which order the native
 stream is called, and the accounts of what was moved and reported.
 */
module BidiSafety {
  import opened Bytes
  import opened BidiModel

  // ---------- invariants ----------

  /** What the observer has seen is exactly what the flags and the native stream say. */
  predicate CallsInOrder(s: State) {
    Judge(s.env.log) ==
      if s.done then Gone
      else if s.cancelled then Cancelling(s.input.native.Some?, s.output.native.Some?)
      else Live(s.input.native.Some?, s.output.native.Some?)
  }

  /** A reader whose read has met the end of input can do nothing but wait for the termination. */
  predicate AwaitsEnd(x: Side) {
    !x.released && (x.caller.Waiting? || x.caller.TimedOut? || x.caller.Draining? || x.caller.Leaving?)
  }

  predicate Flags(s: State) {
    && (s.done ==> s.err.Some? && s.cancelled && s.input.released && s.output.released)
    && (s.done ==> s.env.start == Started || s.env.start == Failed)
    && (s.closed ==> s.cancelled)
    && (s.env.start != Started ==> !s.ready && !s.handshake && s.env.thread == Free && !s.env.over)
    && (s.env.start == Failed ==> s.done)
    && (s.env.thread.Terminating? ==> !s.done && s.input.native == None && (s.env.over || AwaitsEnd(s.input)))
    && (s.env.over ==> s.done || s.env.thread.Terminating?)
    && s.env.hookDue + s.env.hookRuns == (if s.hook && s.done then 1 else 0)
    && (s.done ==> !s.env.thread.Completing?)
  }

  /** The call that a buffer belongs to has not returned. */
  predicate Inside(c: Caller, t: Transfer) {
    (c.Waiting? || c.TimedOut? || c.Draining? || c.Leaving?) && c.t == t
  }

  /** Such a call, and a number of bytes that it asked for. */
  predicate Serves(c: Caller, d: Dir, moved: Transfer) {
    && (c.Waiting? || c.TimedOut? || c.Draining? || c.Leaving?)
    && c.t.id == moved.id
    && (if d == In then moved.n <= c.t.n else moved.n == c.t.n)
  }

  /** What one direction has to know about the rest of the connection. */
  datatype View = View(
    live: bool,                // callbacks may still come
    ended: bool, done: bool, early: bool, cancelled: bool,
    coming: Option<Transfer>)  // a completion of this direction waits for its receiver

  function Coming(s: State, d: Dir): Option<Transfer> {
    if s.env.thread.Completing? && s.env.thread.d == d then Some(s.env.thread.t) else None
  }

  function ViewOf(s: State, d: Dir): View {
    View(s.env.start == Started && !s.env.over, s.closed || s.done, s.done, d == Out && s.env.early, s.cancelled,
      Coming(s, d))
  }

  /** Who owns the buffer of a direction. `early` excuses the writer after an early end of input. */
  predicate Ownership(x: Side, v: View) {
    && (x.native.Some? ==> v.live)
    && (x.native.Some? && v.done ==> v.early)
    && (x.native.Some? && !v.done ==> Inside(x.caller, x.native.value) && !x.released)
    && (x.released ==> v.ended)
    && (x.caller.Leaving? ==> v.ended)
    && (x.caller.Draining? ==> v.cancelled)
  }

  /** A completion on its way belongs to the call that is waiting for it. */
  predicate OnItsWay(d: Dir, x: Side, v: View) {
    v.coming.Some? ==> x.native == None && !x.released && Serves(x.caller, d, v.coming.value)
  }

  predicate SideOk(d: Dir, x: Side, v: View) {
    Ownership(x, v) && OnItsWay(d, x, v)
  }

  predicate Inv(s: State) {
    Flags(s) && SideOk(In, s.input, ViewOf(s, In)) && SideOk(Out, s.output, ViewOf(s, Out))
  }

  // ---------- preservation ----------

  lemma CancelKeeps(s: State)
    requires Inv(s)
    ensures Inv(CancelLocked(s))
  {
  }

  lemma CloseKeeps(s: State)
    requires Inv(s)
    ensures Inv(CloseConn(s))
  {
  }

  lemma IssueKeeps(s: State, d: Dir)
    requires Inv(s) && Enabled(s, EvIssue(d))
    ensures Inv(Issue(s, d))
  {
  }

  lemma GiveUpKeeps(s: State, d: Dir)
    requires Inv(s) && Enabled(s, EvGivesUp(d))
    ensures Inv(GiveUp(s, d))
  {
    var s0, x := CancelLocked(s), At(s, d);
    CancelKeeps(s);
    assert At(s0, d) == x;
    PutKeeps(s0, d, x.(caller := Draining(x.caller.t)));
    assert GiveUp(s, d) == Put(s0, d, x.(caller := Draining(x.caller.t)));
  }

  lemma TerminateKeeps(s: State)
    requires Inv(s) && Enabled(s, EvTerminate)
    ensures Inv(Step(s, EvTerminate))
  {
  }

  lemma StartFailedKeeps(s: State)
    requires Inv(s) && Enabled(s, EvStartFailed)
    ensures Inv(Step(s, EvStartFailed))
  {
  }

  lemma EndOfInputKeeps(s: State)
    requires Inv(s) && Enabled(s, EvCompleted(In, 0))
    ensures Inv(Completed(s, In, 0))
  {
  }

  lemma CompletedKeeps(s: State, d: Dir, n: nat)
    requires Inv(s) && Enabled(s, EvCompleted(d, n)) && !(d == In && n == 0)
    ensures Inv(Completed(s, d, n))
  {
    var x, v := At(s, d), ViewOf(s, d);
    var t := Transfer(x.native.value.id, n);
    assert SideOk(d, x.(native := None, completed := x.completed + [t]), v.(coming := Some(t)));
    match d { case In => case Out => }
  }

  /** A direction may change on its own as long as it stays in order. */
  lemma PutKeeps(s: State, d: Dir, x: Side)
    requires Inv(s) && SideOk(d, x, ViewOf(s, d))
    requires x.native == At(s, d).native && x.released == At(s, d).released
    requires s.env.thread.Terminating? && d == In && !s.env.over ==> AwaitsEnd(x)
    ensures Inv(Put(s, d, x))
  {
    match d { case In => case Out => }
  }

  lemma HandOverKeeps(s: State)
    requires Inv(s) && Enabled(s, EvHandOver)
    ensures Inv(HandOver(s))
  {
    var s0 := s.(env := s.env.(thread := Free));
    var d, t := s.env.thread.d, s.env.thread.t;
    FreeKeeps(s);
    var x := At(s0, d);
    var y := Received(x, t);
    assert SideOk(d, y, ViewOf(s0, d));
    PutKeeps(s0, d, y);
    assert HandOver(s) == Put(s0, d, y);
  }

  /** The callback returns. */
  lemma FreeKeeps(s: State)
    requires Inv(s) && s.env.thread.Completing?
    ensures Inv(s.(env := s.env.(thread := Free)))
  {
    match s.env.thread.d { case In => case Out => }
  }

  lemma DropKeeps(s: State)
    requires Inv(s) && Enabled(s, EvDrop)
    ensures Inv(Drop(s))
  {
    match s.env.thread.d { case In => case Out => }
  }

  lemma MovedIsOk(d: Dir, x: Side, m: Move, closed: bool, v: View)
    requires SideOk(d, x, v) && MayMove(x, m, closed, v.done)
    requires (closed || v.done ==> v.ended) && (v.done ==> v.coming == None)
    ensures SideOk(d, Moved(x, m), v)
    ensures AwaitsEnd(x) && !v.done ==> AwaitsEnd(Moved(x, m))
  {
  }

  lemma MoveKeeps(s: State, d: Dir, m: Move)
    requires Inv(s) && Enabled(s, EvMove(d, m))
    ensures Inv(Put(s, d, Moved(At(s, d), m)))
  {
    MovedIsOk(d, At(s, d), m, s.closed, ViewOf(s, d));
    PutKeeps(s, d, Moved(At(s, d), m));
  }

  /** The steps of the callers and of the network thread that move bytes. */
  predicate Moves(ev: Event) {
    ev.EvMove? || ev.EvIssue? || ev.EvGivesUp? || ev.EvCompleted? || ev.EvHandOver? || ev.EvDrop?
  }

  lemma MovingStepKeeps(s: State, ev: Event)
    requires Inv(s) && Enabled(s, ev) && Moves(ev)
    ensures Inv(Step(s, ev))
  {
    match ev
    case EvMove(d, m) => MoveKeeps(s, d, m);
    case EvIssue(d) => IssueKeeps(s, d);
    case EvGivesUp(d) => GiveUpKeeps(s, d);
    case EvCompleted(d, n) => if d == In && n == 0 { EndOfInputKeeps(s); } else { CompletedKeeps(s, d, n); }
    case EvHandOver => HandOverKeeps(s);
    case EvDrop => DropKeeps(s);
  }

  /** The steps of the stream and of the hook. */
  predicate Signals(ev: Event) {
    ev.EvStart? || ev.EvSetOnTerminate? || ev.EvRunHook? || ev.EvReady? || ev.EvHandshake?
  }

  lemma SignalKeeps(s: State, ev: Event)
    requires Inv(s) && Enabled(s, ev) && Signals(ev)
    ensures Inv(Step(s, ev))
  {
    match ev
    case EvStart(_) =>
    case EvSetOnTerminate =>
    case EvRunHook =>
    case EvReady =>
    case EvHandshake =>
  }

  lemma EndKeeps(s: State, ev: Event)
    requires Inv(s) && Enabled(s, ev) && !Moves(ev) && !Signals(ev)
    ensures Inv(Step(s, ev))
  {
    match ev
    case EvStartFailed => StartFailedKeeps(s);
    case EvClose => CloseKeeps(s);
    case EvTerminate => TerminateKeeps(s);
    case EvTerminal(e) =>
    case EvNativeDestroyed =>
  }

  lemma StepKeeps(s: State, ev: Event)
    requires Inv(s) && Enabled(s, ev)
    ensures Inv(Step(s, ev))
  {
    if Moves(ev) { MovingStepKeeps(s, ev); } else if Signals(ev) { SignalKeeps(s, ev); } else { EndKeeps(s, ev); }
  }

  // ---------- the order of native calls ----------

  /** A step that makes no call and moves no buffer. */
  predicate SameCalls(s: State, t: State) {
    && t.env.log == s.env.log && t.done == s.done && t.cancelled == s.cancelled
    && (t.done || (t.input.native == s.input.native && t.output.native == s.output.native))
  }

  lemma SilentStep(s: State, ev: Event)
    requires Enabled(s, ev)
    requires ev.EvMove? || ev.EvHandOver? || ev.EvDrop? || (Signals(ev) && !ev.EvStart?) || ev.EvNativeDestroyed?
    ensures SameCalls(s, Step(s, ev))
  {
    match ev
    case EvHandOver => match s.env.thread.d { case In => case Out => }
    case EvDrop => match s.env.thread.d { case In => case Out => }
    case EvMove(d, m) => match d { case In => case Out => }
    case _ =>
  }

  /** A step that makes one call. */
  lemma OneCall(s: State, t: State, c: Call)
    requires t.env.log == s.env.log + [c]
    ensures Judge(t.env.log) == Observe(Judge(s.env.log), c)
  {
    JudgeOneMore(s.env.log, c);
  }

  lemma CancelKeepsOrder(s: State)
    requires CallsInOrder(s) && (s.done ==> s.cancelled)
    ensures CallsInOrder(CancelLocked(s))
  {
    if !s.cancelled { OneCall(s, CancelLocked(s), Cancel); }
  }

  lemma TerminateKeepsOrder(s: State, e: Error)
    requires CallsInOrder(s)
    ensures CallsInOrder(Terminate(s, e))
  {
    if !s.done { OneCall(s, Terminate(s, e), Destroy); }
  }

  /** A caller at the gate has not lent its buffer. */
  lemma NothingLent(s: State, d: Dir)
    requires Inv(s) && At(s, d).caller.AtGate? && !s.done
    ensures At(s, d).native == None
  {
    match d { case In => case Out => }
  }

  lemma LendingKeepsOrder(s: State, t: State, c: Call)
    requires CallsInOrder(s) && !s.done && !t.done && t.cancelled == s.cancelled && t.env.log == s.env.log + [c]
    requires Lent(s.input.native.Some?, s.output.native.Some?, c)
          == Some((t.input.native.Some?, t.output.native.Some?))
    requires c.Read? || c.Write?
    ensures CallsInOrder(t)
  {
    OneCall(s, t, c);
  }

  lemma ReadKeepsOrder(s: State)
    requires CallsInOrder(s) && s.input.caller.AtGate? && !s.closed && !s.done && s.input.native == None
    ensures CallsInOrder(Issue(s, In))
  {
    LendingKeepsOrder(s, Issue(s, In), Read(!s.env.over));
  }

  lemma WriteKeepsOrder(s: State)
    requires CallsInOrder(s) && s.output.caller.AtGate? && !s.closed && !s.done && s.output.native == None
    ensures CallsInOrder(Issue(s, Out))
  {
    LendingKeepsOrder(s, Issue(s, Out), Write(!s.env.over));
  }

  lemma IssueKeepsOrder(s: State, d: Dir)
    requires Inv(s) && CallsInOrder(s) && At(s, d).caller.AtGate?
    ensures CallsInOrder(Issue(s, d))
  {
    if !(s.closed || s.done) {
      NothingLent(s, d);
      match d { case In => ReadKeepsOrder(s); case Out => WriteKeepsOrder(s); }
    }
  }

  lemma GiveUpKeepsOrder(s: State, d: Dir)
    requires Inv(s) && CallsInOrder(s) && At(s, d).caller.TimedOut?
    ensures CallsInOrder(GiveUp(s, d))
  {
    match d {
      case In => CancelKeepsOrder(s.(input := s.input.(caller := Draining(s.input.caller.t))));
      case Out => CancelKeepsOrder(s.(output := s.output.(caller := Draining(s.output.caller.t))));
    }
  }

  lemma ReadCompletedKeepsOrder(s: State, n: nat)
    requires Inv(s) && CallsInOrder(s) && Enabled(s, EvCompleted(In, n))
    ensures CallsInOrder(Completed(s, In, n))
  {
    OneCall(s, Completed(s, In, n), ReadDone);
    assert Completed(s, In, n).output == s.output;
  }

  lemma WriteCompletedKeepsOrder(s: State, n: nat)
    requires Inv(s) && CallsInOrder(s) && Enabled(s, EvCompleted(Out, n))
    ensures CallsInOrder(Completed(s, Out, n))
  {
    OneCall(s, Completed(s, Out, n), WriteDone);
    assert Completed(s, Out, n).input == s.input;
  }

  lemma SameCallsKeepOrder(s: State, t: State)
    requires CallsInOrder(s) && SameCalls(s, t)
    ensures CallsInOrder(t)
  {
  }

  lemma UserCallKeepsOrder(s: State, ev: Event)
    requires Inv(s) && CallsInOrder(s) && Enabled(s, ev)
    requires ev.EvStart? || ev.EvIssue? || ev.EvGivesUp? || ev.EvClose?
    ensures CallsInOrder(Step(s, ev))
  {
    match ev
    case EvStart(ok) => OneCall(s, StartStream(s, ok), Start(ok));
    case EvIssue(d) => IssueKeepsOrder(s, d);
    case EvGivesUp(d) => GiveUpKeepsOrder(s, d);
    case EvClose => CancelKeepsOrder(s.(closed := true));
  }

  lemma EndCallKeepsOrder(s: State, ev: Event)
    requires Inv(s) && CallsInOrder(s) && Enabled(s, ev)
    requires ev.EvStartFailed? || ev.EvTerminal? || ev.EvTerminate?
    ensures CallsInOrder(Step(s, ev))
  {
    match ev
    case EvStartFailed => TerminateKeepsOrder(s.(env := s.env.(start := Failed)), Invalid);
    case EvTerminal(e) => OneCall(s, Terminal(s, e), LastCallback);
    case EvTerminate => TerminateKeepsOrder(s.(env := s.env.(thread := Free)), s.env.thread.e);
  }

  lemma StepKeepsOrder(s: State, ev: Event)
    requires Inv(s) && CallsInOrder(s) && Enabled(s, ev)
    ensures CallsInOrder(Step(s, ev))
  {
    if ev.EvMove? || ev.EvHandOver? || ev.EvDrop? || (Signals(ev) && !ev.EvStart?) || ev.EvNativeDestroyed? {
      SilentStep(s, ev);
      SameCallsKeepOrder(s, Step(s, ev));
    } else if ev.EvCompleted? {
      match ev.d {
        case In => ReadCompletedKeepsOrder(s, ev.n);
        case Out => WriteCompletedKeepsOrder(s, ev.n);
      }
    } else if ev.EvStart? || ev.EvIssue? || ev.EvGivesUp? || ev.EvClose? {
      UserCallKeepsOrder(s, ev);
    } else {
      EndCallKeepsOrder(s, ev);
    }
  }

  // ---------- the accounts ----------

  /** Nothing is reported that was not moved, and nothing is skipped while the connection is good. */
  predicate Accounts(x: Side, v: View) {
    && (v.coming.Some? ==> x.completed == x.returned + [v.coming.value])
    && (v.coming == None && (x.native.Some? || !(v.ended || x.caller.Draining?)) ==> x.completed == x.returned)
    && x.returned <= x.completed
  }

  predicate Balanced(s: State) {
    Accounts(s.input, ViewOf(s, In)) && Accounts(s.output, ViewOf(s, Out))
  }

  lemma MovedIsBalanced(d: Dir, x: Side, m: Move, closed: bool, v: View)
    requires Accounts(x, v) && SideOk(d, x, v) && MayMove(x, m, closed, v.done)
    requires (closed || v.done ==> v.ended) && (v.done ==> v.coming == None)
    ensures Accounts(Moved(x, m), v)
  {
  }

  lemma PutBalances(s: State, d: Dir, x: Side)
    requires Balanced(s) && Accounts(x, ViewOf(s, d))
    ensures Balanced(Put(s, d, x))
  {
    match d { case In => case Out => }
  }

  /** The accounts of a direction are about nothing but these. */
  predicate SameBooks(x: Side, v: View, y: Side, w: View) {
    && x.completed == y.completed && x.returned == y.returned && v.coming == w.coming
    && (y.native.Some? ==> x.native.Some?)
    && (w.ended || y.caller.Draining? || !(v.ended || x.caller.Draining?))
  }

  lemma SameBooksBalance(x: Side, v: View, y: Side, w: View)
    requires Accounts(x, v) && SameBooks(x, v, y, w)
    ensures Accounts(y, w)
  {
  }

  lemma BothSame(s: State, t: State)
    requires Balanced(s)
    requires SameBooks(s.input, ViewOf(s, In), t.input, ViewOf(t, In))
    requires SameBooks(s.output, ViewOf(s, Out), t.output, ViewOf(t, Out))
    ensures Balanced(t)
  {
    SameBooksBalance(s.input, ViewOf(s, In), t.input, ViewOf(t, In));
    SameBooksBalance(s.output, ViewOf(s, Out), t.output, ViewOf(t, Out));
  }

  lemma IssueBalances(s: State, d: Dir)
    requires Inv(s) && Balanced(s) && Enabled(s, EvIssue(d))
    ensures Balanced(Issue(s, d))
  {
    var x := At(s, d);
    if !(s.closed || s.done) {
      assert Accounts(x.(caller := Waiting(x.caller.t), native := if s.env.over then None else Some(x.caller.t)),
          ViewOf(s, d));
    }
    match d { case In => case Out => }
  }

  lemma CompletedBalances(s: State, d: Dir, n: nat)
    requires Inv(s) && Balanced(s) && Enabled(s, EvCompleted(d, n))
    ensures Balanced(Completed(s, d, n))
  {
    if d == In && n == 0 {
      BothSame(s, Completed(s, In, 0));
    } else {
      var x, v := At(s, d), ViewOf(s, d);
      var t := Transfer(x.native.value.id, n);
      assert Accounts(x.(native := None, completed := x.completed + [t]), v.(coming := Some(t)));
      match d { case In => case Out => }
    }
  }

  lemma ReceivedBalances(x: Side, v: View, t: Transfer)
    requires Accounts(x, v) && v.coming == Some(t) && x.native == None && (x.caller.Waiting? || x.caller.Draining?)
    ensures Accounts(Received(x, t), v.(coming := None))
  {
  }

  lemma HandOverBalances(s: State)
    requires Inv(s) && Balanced(s) && Enabled(s, EvHandOver)
    ensures Balanced(HandOver(s))
  {
    var d, t := s.env.thread.d, s.env.thread.t;
    var x := At(s, d);
    var s0 := s.(env := s.env.(thread := Free));
    ReceivedBalances(x, ViewOf(s, d), t);
    if d == In {
      SameBooksBalance(s.output, ViewOf(s, Out), s.output, ViewOf(s0, Out));
    } else {
      SameBooksBalance(s.input, ViewOf(s, In), s.input, ViewOf(s0, In));
    }
  }

  lemma DropBalances(s: State)
    requires Inv(s) && Balanced(s) && Enabled(s, EvDrop)
    ensures Balanced(Drop(s))
  {
    var d := s.env.thread.d;
    var x, v := At(s, d), ViewOf(s, d);
    assert Accounts(x.(released := true), v.(coming := None));
    match d { case In => case Out => }
  }

  lemma EndBalances(s: State, ev: Event)
    requires Balanced(s) && Enabled(s, ev)
    requires ev.EvClose? || ev.EvStartFailed? || ev.EvTerminate? || ev.EvTerminal? || ev.EvNativeDestroyed?
    ensures Balanced(Step(s, ev))
  {
    BothSame(s, Step(s, ev));
  }

  lemma QuietBalances(s: State, ev: Event)
    requires Balanced(s) && Enabled(s, ev)
    requires Signals(ev)
    ensures Balanced(Step(s, ev))
  {
    BothSame(s, Step(s, ev));
  }

  lemma MoveBalances(s: State, d: Dir, m: Move)
    requires Inv(s) && Balanced(s) && Enabled(s, EvMove(d, m))
    ensures Balanced(Put(s, d, Moved(At(s, d), m)))
  {
    MovedIsBalanced(d, At(s, d), m, s.closed, ViewOf(s, d));
    PutBalances(s, d, Moved(At(s, d), m));
  }

  lemma MovingStepBalances(s: State, ev: Event)
    requires Inv(s) && Balanced(s) && Enabled(s, ev) && Moves(ev)
    ensures Balanced(Step(s, ev))
  {
    match ev
    case EvMove(d, m) => MoveBalances(s, d, m);
    case EvIssue(d) => IssueBalances(s, d);
    case EvGivesUp(d) => GiveUpBalances(s, d);
    case EvCompleted(d, n) => CompletedBalances(s, d, n);
    case EvHandOver => HandOverBalances(s);
    case EvDrop => DropBalances(s);
  }

  lemma StepBalances(s: State, ev: Event)
    requires Inv(s) && Balanced(s) && Enabled(s, ev)
    ensures Balanced(Step(s, ev))
  {
    if Moves(ev) {
      MovingStepBalances(s, ev);
    } else if Signals(ev) {
      QuietBalances(s, ev);
    } else {
      EndBalances(s, ev);
    }
  }

  lemma GiveUpBalances(s: State, d: Dir)
    requires Inv(s) && Balanced(s) && Enabled(s, EvGivesUp(d))
    ensures Balanced(GiveUp(s, d))
  {
    match d { case In => case Out => }
    BothSame(s, GiveUp(s, d));
  }

  // ---------- all of it ----------

  ghost predicate Orderly(s: State) {
    Inv(s) && CallsInOrder(s) && Balanced(s)
  }

  lemma InitialIsOrderly(readWaits: bool, writeWaits: bool)
    ensures Orderly(Initial(readWaits, writeWaits))
  {
  }

  lemma NextIsOrderly(s: State, ev: Event, t: State)
    requires Orderly(s) && Enabled(s, ev) && t == Step(s, ev)
    ensures Orderly(t)
  {
    StepKeeps(s, ev);
    StepKeepsOrder(s, ev);
    StepBalances(s, ev);
  }
}
