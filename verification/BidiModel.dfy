/**
 A bidirectional connection: blocking reads and writes hand the caller's own buffer to the native
 stream and wait, on unbuffered channels, until they get it back. A step is one critical section,
 one choice of a select, or one callback on the native network thread; a callback that finds no
 receiver blocks that thread. Reading and writing are the two directions of the same protocol.
 */
module BidiModel {
  import opened Bytes

  datatype Error = Eof | Invalid | Closed | Expired | Other(code: int)

  datatype Dir = In | Out

  /** A call and a number of bytes: the room of its buffer, or what has been moved. */
  datatype Transfer = Transfer(id: nat, n: nat)

  /** Where the caller that holds the direction's semaphore is. */
  datatype Caller =
    | Idle
    | AtGate(t: Transfer)      // waiting for the stream to be ready
    | Waiting(t: Transfer)     // the native stream has been given the buffer
    | TimedOut(t: Transfer)    // the deadline has passed; about to cancel the stream
    | Draining(t: Transfer)    // cancelled; waiting for the end
    | Leaving(t: Transfer, closing: bool)  // has seen the end, or the close; waits for its buffer

  datatype Side = Side(
    caller: Caller,
    native: Option<Transfer>,  // the call whose buffer the native stream may be using
    released: bool,            // readDone or writeDone is closed
    next: nat,
    completed: seq<Transfer>,  // what the native stream moved, call by call
    returned: seq<Transfer>)   // what was reported to callers

  /** What the native network thread is doing. */
  datatype Thread = Free | Completing(d: Dir, t: Transfer) | Terminating(e: Error)

  datatype Starting = NotStarted | Started | Failing | Failed

  /**
   What passes between the connection and the native stream, in order; `taken` says that a call left
   its buffer with the stream.
   */
  datatype Call =
    | Start(ok: bool) | Read(taken: bool) | Write(taken: bool) | Cancel | Destroy
    | ReadDone | WriteDone | LastCallback

  datatype Env = Env(
    readWaits: bool, writeWaits: bool,  // whether a direction waits for the response headers
    start: Starting, thread: Thread,
    over: bool,                // the native stream has made its last callback
    early: bool,               // the end of input came while a write was outstanding
    hookDue: nat, hookRuns: nat,
    log: seq<Call>)

  datatype State = State(
    closed: bool, done: bool, cancelled: bool, err: Option<Error>,
    ready: bool, handshake: bool,
    input: Side, output: Side,
    hook: bool,
    env: Env)

  const NEW_SIDE := Side(Idle, None, false, 0, [], [])

  function Initial(readWaits: bool, writeWaits: bool): State {
    State(false, false, false, None, false, false, NEW_SIDE, NEW_SIDE, false,
      Env(readWaits, writeWaits, NotStarted, Free, false, false, 0, 0, []))
  }

  function At(s: State, d: Dir): Side {
    if d == In then s.input else s.output
  }

  function Put(s: State, d: Dir, x: Side): State {
    if d == In then s.(input := x) else s.(output := x)
  }

  // ---------- critical sections ----------

  function CancelLocked(s: State): State {
    if s.cancelled then s else s.(cancelled := true, env := s.env.(log := s.env.log + [Cancel]))
  }

  function Terminate(s: State, e: Error): State {
    var s := s.(input := s.input.(released := true), output := s.output.(released := true), cancelled := true);
    if s.done then s
    else s.(err := Some(e), done := true,
            env := s.env.(early := s.output.native.Some?,
                          hookDue := if s.hook then s.env.hookDue + 1 else s.env.hookDue,
                          log := s.env.log + [Destroy]))
  }

  function CloseConn(s: State): State {
    if s.closed || s.done then s else CancelLocked(s.(closed := true))
  }

  function SetOnTerminate(s: State): State {
    s.(hook := true, env := s.env.(hookDue := if s.done then s.env.hookDue + 1 else s.env.hookDue))
  }

  function StartStream(s: State, ok: bool): State {
    s.(env := s.env.(start := if ok then Started else Failing, log := s.env.log + [Start(ok)]))
  }

  /**
   The gate is open: unless the connection has ended, the buffer goes to the native stream, which
   does not take it if it has made its last callback.
   */
  function Issue(s: State, d: Dir): State
    requires At(s, d).caller.AtGate?
  {
    var x := At(s, d);
    if s.closed || s.done then Put(s, d, x.(caller := Idle))
    else
      Put(s, d, x.(caller := Waiting(x.caller.t), native := if s.env.over then None else Some(x.caller.t)))
      .(env := s.env.(log := s.env.log + [if d == In then Read(!s.env.over) else Write(!s.env.over)]))
  }

  /** The deadline has passed: the caller cancels the stream and waits for the end. */
  function GiveUp(s: State, d: Dir): State
    requires At(s, d).caller.TimedOut?
  {
    var x := At(s, d);
    CancelLocked(Put(s, d, x.(caller := Draining(x.caller.t))))
  }

  // ---------- callbacks ----------

  /** The native stream has moved n bytes and gives the buffer back; no input means the end. */
  function Completed(s: State, d: Dir, n: nat): State
    requires At(s, d).native.Some?
  {
    var x := At(s, d);
    var log := s.env.log + [if d == In then ReadDone else WriteDone];
    if d == In && n == 0 then
      s.(input := x.(native := None), env := s.env.(thread := Terminating(Eof), log := log))
    else
      var t := Transfer(x.native.value.id, n);
      Put(s, d, x.(native := None, completed := x.completed + [t]))
      .(env := s.env.(thread := Completing(d, t), log := log))
  }

  function Received(x: Side, t: Transfer): Side {
    if x.caller.Waiting? then x.(caller := Idle, returned := x.returned + [t]) else x
  }

  /** The callback meets the caller in its select: a waiting one returns, a draining one goes on. */
  function HandOver(s: State): State
    requires s.env.thread.Completing?
  {
    var d, t := s.env.thread.d, s.env.thread.t;
    var x := At(s, d);
    Put(s, d, Received(x, t)).(env := s.env.(thread := Free))
  }

  /** The callback sees that the connection has ended. */
  function Drop(s: State): State
    requires s.env.thread.Completing?
  {
    var d := s.env.thread.d;
    Put(s, d, At(s, d).(released := true)).(env := s.env.(thread := Free))
  }

  /** Succeeded, failed or canceled: the native stream lets go of every buffer. */
  function Terminal(s: State, e: Error): State {
    s.(input := s.input.(native := None), output := s.output.(native := None),
       env := s.env.(over := true, thread := Terminating(e), log := s.env.log + [LastCallback]))
  }

  // ---------- events ----------

  /** What a caller does without touching the connection. */
  datatype Move = Begin(room: nat) | GateFails | Expires | SeesDone | SeesClose | Returns

  predicate MayMove(x: Side, m: Move, closed: bool, done: bool) {
    match m
    case Begin(room) => x.caller == Idle && room > 0
    case GateFails => x.caller.AtGate?
    case Expires => x.caller.Waiting?
    case SeesDone => (x.caller.Waiting? || x.caller.Draining?) && done
    case SeesClose => x.caller.Waiting? && closed
    case Returns => x.caller.Leaving? && x.released
  }

  function Moved(x: Side, m: Move): Side
    requires m.Begin? || x.caller != Idle
  {
    match m
    case Begin(room) => x.(caller := AtGate(Transfer(x.next, room)), next := x.next + 1)
    case GateFails => x.(caller := Idle)
    case Expires => x.(caller := TimedOut(x.caller.t))
    case SeesDone => x.(caller := if x.caller.Draining? then Idle else Leaving(x.caller.t, false))
    case SeesClose => x.(caller := Leaving(x.caller.t, true))
    case Returns => x.(caller := Idle)
  }

  datatype Event =
    | EvStart(ok: bool) | EvStartFailed
    | EvMove(d: Dir, move: Move) | EvIssue(d: Dir) | EvGivesUp(d: Dir)
    | EvClose | EvSetOnTerminate | EvRunHook
    | EvReady | EvHandshake | EvCompleted(d: Dir, n: nat) | EvHandOver | EvDrop
    | EvTerminal(e: Error) | EvTerminate
    | EvNativeDestroyed        // the posted destruction is executed

  predicate CallbacksPossible(s: State) {
    s.env.start == Started && !s.env.over && !s.done && s.env.thread == Free
  }

  predicate GateOpen(s: State, d: Dir) {
    if (if d == In then s.env.readWaits else s.env.writeWaits) then s.handshake else s.ready
  }

  predicate Enabled(s: State, ev: Event) {
    match ev
    case EvStart(_) => s.env.start == NotStarted
    case EvStartFailed => s.env.start == Failing
    case EvMove(d, m) => MayMove(At(s, d), m, s.closed, s.done)
    case EvIssue(d) => At(s, d).caller.AtGate? && GateOpen(s, d)
    case EvGivesUp(d) => At(s, d).caller.TimedOut?
    case EvClose => true
    case EvSetOnTerminate => !s.hook
    case EvRunHook => s.env.hookDue > 0
    case EvReady => CallbacksPossible(s)
    case EvHandshake => CallbacksPossible(s)
    case EvCompleted(d, n) =>
      && CallbacksPossible(s) && At(s, d).native.Some?
      && (if d == In then n <= At(s, d).native.value.n else n == At(s, d).native.value.n)
    case EvHandOver => s.env.thread.Completing? && var c := At(s, s.env.thread.d).caller; c.Waiting? || c.Draining?
    case EvDrop => s.env.thread.Completing? && (s.closed || s.done)
    case EvTerminal(_) => CallbacksPossible(s)
    case EvTerminate => s.env.thread.Terminating?
    case EvNativeDestroyed => s.done && s.env.thread == Free
  }

  function Step(s: State, ev: Event): State
    requires Enabled(s, ev)
  {
    match ev
    case EvStart(ok) => StartStream(s, ok)
    case EvStartFailed => Terminate(s.(env := s.env.(start := Failed)), Invalid)
    case EvMove(d, m) => Put(s, d, Moved(At(s, d), m))
    case EvIssue(d) => Issue(s, d)
    case EvGivesUp(d) => GiveUp(s, d)
    case EvClose => CloseConn(s)
    case EvSetOnTerminate => SetOnTerminate(s)
    case EvRunHook => s.(env := s.env.(hookDue := s.env.hookDue - 1, hookRuns := s.env.hookRuns + 1))
    case EvReady => s.(ready := true)
    case EvHandshake => s.(handshake := true)
    case EvCompleted(d, n) => Completed(s, d, n)
    case EvHandOver => HandOver(s)
    case EvDrop => Drop(s)
    case EvTerminal(e) => Terminal(s, e)
    case EvTerminate => Terminate(s.(env := s.env.(thread := Free)), s.env.thread.e)
    case EvNativeDestroyed => s.(input := s.input.(native := None), output := s.output.(native := None))
  }

  ghost predicate IsRun(states: seq<State>, events: seq<Event>) {
    && |states| == |events| + 1
    && (exists readWaits, writeWaits :: states[0] == Initial(readWaits, writeWaits))
    && forall i :: 0 <= i < |events| ==> Enabled(states[i], events[i]) && states[i + 1] == Step(states[i], events[i])
  }

  // ---------- the contract of the native stream ----------

  /** An observer that sees only the log: which buffers the stream has, and whether it has been cancelled. */
  datatype Phase = Live(reading: bool, writing: bool) | Cancelling(reading: bool, writing: bool) | Gone | Violation

  function Observe(p: Phase, c: Call): Phase {
    if !p.Live? && !p.Cancelling? then Violation
    else if c == Cancel then (if p.Live? then Cancelling(p.reading, p.writing) else Violation)
    else if c == Destroy then Gone
    else if p.Live? then
      match Lent(p.reading, p.writing, c) case Some(b) => Live(b.0, b.1) case None => Violation
    else
      match Lent(p.reading, p.writing, c) case Some(b) => Cancelling(b.0, b.1) case None => Violation
  }

  /** One read and one write at a time, and a completion for what is outstanding. */
  function Lent(reading: bool, writing: bool, c: Call): Option<(bool, bool)> {
    match c
    case Read(taken) => if reading then None else Some((taken, writing))
    case Write(taken) => if writing then None else Some((reading, taken))
    case ReadDone => if reading then Some((false, writing)) else None
    case WriteDone => if writing then Some((reading, false)) else None
    case LastCallback => Some((false, false))
    case _ => Some((reading, writing))
  }

  function Judge(log: seq<Call>): Phase {
    if log == [] then Live(false, false) else Observe(Judge(log[..|log| - 1]), log[|log| - 1])
  }

  lemma JudgeOneMore(log: seq<Call>, c: Call)
    ensures Judge(log + [c]) == Observe(Judge(log), c)
  {
    assert (log + [c])[..|log|] == log;
  }
}
