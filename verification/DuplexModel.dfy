/**
 The life of one bidirectional request as a state machine. Every transition is one critical
 section of the request's mutex, one native callback, or one step of its two goroutines; the
 choices of the network, the native library, the application and the scheduler are the
 parameters of the events. A run is any sequence of enabled events.
 */
module DuplexModel {
  import opened Bytes

  datatype Error = Canceled | Eof | StartFailed | ReadFailed | WriteFailed | NoProgress | Other(code: int)

  /** How the native library answers a call that hands it a buffer. */
  datatype Answer =
    | Taken           // accepted: the library owns the buffer until it calls back
    | Refused         // refused, and the buffer is ours
    | RefusedAndKept  // refused, but nothing says that the buffer is not in use

  /**
   What passes between the request and the native stream, in order; `taken` says that a call left
   its buffer with the stream.
   */
  datatype Call =
    | Start(accepted: bool) | Read(taken: bool) | Write(taken: bool) | Cancel | Destroy
    | ReadDone | WriteDone | LastCallback

  datatype Worker =
    | AwaitingReady
    | FillingBuffer                              // in upload.Read, writing into the write buffer
    | AwaitingWrite(seen: nat, last: Option<Error>)
    | Exited

  datatype Cleaner = AwaitingDone | AwaitingWorker | Finished

  /** What the request object itself does not hold. */
  datatype Env = Env(
    worker: Worker, cleaner: Cleaner,
    uploadClosed: bool,         // the upload queue has been closed, which releases a worker waiting in it
    readers: map<nat, nat>,     // waiting readers, and the generation each of them waits on
    // the native side: calls made or expected, and who owns the buffers
    startCalled: bool, headersSeen: bool, over: bool, nativeRead: bool, nativeWrite: bool,
    // history
    log: seq<Call>, completed: seq<byte>, delivered: seq<byte>)

  datatype State = State(
    started: bool, ready: bool, haveHeaders: bool, readPending: bool, writePending: bool,
    cancelled: bool, terminal: bool,
    err: Option<Error>, pending: seq<byte>,
    notify: nat,                // generation of the notification channel
    done: bool,                 // the done channel has been closed
    env: Env)

  const INITIAL := State(
    false, false, false, false, false, false, false, None, [], 0, false,
    Env(AwaitingReady, AwaitingDone, false, map[], false, false, false, false, false, [], [], []))

  function AtWorker(s: State, w: Worker): State {
    s.(env := s.env.(worker := w))
  }

  // ---------- critical sections ----------

  function FinishLocked(s: State, e: Error): State {
    if s.terminal then s
    else s.(terminal := true, err := FirstError(s.err, e), done := true, notify := s.notify + 1,
            env := s.env.(log := s.env.log + [Destroy]))
  }

  function CancelLocked(s: State, e: Error): State {
    if !s.started && !s.terminal then FinishLocked(s, e)
    else if !s.cancelled && !s.terminal then
      s.(err := FirstError(s.err, e), cancelled := true, notify := s.notify + 1,
         env := s.env.(log := s.env.log + [Cancel]))
    else s.(err := FirstError(s.err, e), notify := s.notify + 1)
  }

  /** The native read has been called. */
  function ReadIssued(s: State, a: Answer): State {
    s.(readPending := true, env := s.env.(log := s.env.log + [Read(a != Refused)], nativeRead := a != Refused))
  }

  predicate MayRead(s: State) {
    s.haveHeaders && !s.readPending && !s.terminal && s.err == None
  }

  function StartReadLocked(s: State, a: Answer): State {
    if !MayRead(s) then s
    else if a == Taken then ReadIssued(s, a)
    else CancelLocked(ReadIssued(s, a), ReadFailed)
  }

  function StartRequest(s: State, accepted: bool): State {
    if s.terminal then s.(env := s.env.(startCalled := true))
    else if accepted then
      s.(started := true, env := s.env.(startCalled := true, log := s.env.log + [Start(true)]))
    else FinishLocked(s.(env := s.env.(startCalled := true, log := s.env.log + [Start(false)])), StartFailed)
  }

  /** A reader takes the first n pending bytes. */
  function TakeBytes(s: State, reader: nat, n: nat): State
    requires n <= |s.pending|
  {
    s.(pending := s.pending[n..],
       env := s.env.(delivered := s.env.delivered + s.pending[..n], readers := s.env.readers - {reader}))
  }

  /** One pass of a reader with room for `room` bytes: it takes bytes, fails, or waits. */
  function ReadPass(s: State, reader: nat, room: nat, a: Answer): State
    requires room > 0
  {
    if s.pending != [] then
      if room < |s.pending| then TakeBytes(s, reader, room)
      else StartReadLocked(TakeBytes(s, reader, |s.pending|), a)
    else if s.err.Some? then s.(env := s.env.(readers := s.env.readers - {reader}))
    else s.(env := s.env.(readers := s.env.readers[reader := s.notify]))
  }

  function WriteIssued(s: State, a: Answer): State {
    s.(writePending := true, env := s.env.(log := s.env.log + [Write(a != Refused)], nativeWrite := a != Refused))
  }

  /** A refused write ends the worker. */
  function RefusedWrite(s: State, a: Answer): State {
    CancelLocked(AtWorker(WriteIssued(s, a), Exited), WriteFailed)
  }

  /** The worker has got n bytes, or an error, or both, from the upload queue. */
  function UploadPass(s: State, n: nat, e: Option<Error>, a: Answer): State {
    if s.terminal || s.err.Some? then AtWorker(s, Exited)
    else if n == 0 then UploadEnd(s, Some(if e.Some? then e.value else NoProgress))
    else if a == Taken then WriteWait(WriteIssued(s, a), e)
    else if e.Some? then CancelLocked(RefusedWrite(s, a), e.value)
    else RefusedWrite(s, a)
  }

  /** Waits while the write is outstanding and nothing has gone wrong. */
  function WriteWait(s: State, e: Option<Error>): State {
    if s.writePending && !s.terminal && s.err == None then AtWorker(s, AwaitingWrite(s.notify, e))
    else UploadEnd(s, e)
  }

  function UploadEnd(s: State, e: Option<Error>): State {
    if e.Some? then AtWorker(CancelLocked(s, e.value), Exited)
    else AtWorker(s, if s.terminal || s.err.Some? then Exited else FillingBuffer)
  }

  function StreamReady(s: State): State {
    s.(ready := true)
  }

  function SeenHeaders(s: State, good: bool): State {
    s.(haveHeaders := s.haveHeaders || good, env := s.env.(headersSeen := true))
  }

  function ResponseHeaders(s: State, bad: Option<Error>, a: Answer): State {
    if bad.Some? then CancelLocked(SeenHeaders(s, false), bad.value) else StartReadLocked(SeenHeaders(s, true), a)
  }

  /** The read buffer is back. */
  function ReadReturned(s: State): State {
    s.(readPending := false, env := s.env.(nativeRead := false, log := s.env.log + [ReadDone]))
  }

  function Received(s: State, data: seq<byte>): State {
    s.(pending := data, notify := s.notify + 1, env := s.env.(completed := s.env.completed + data))
  }

  function ReadCompleted(s: State, data: seq<byte>, eof: Error): State {
    if data == [] then CancelLocked(ReadReturned(s), eof) else Received(ReadReturned(s), data)
  }

  function WriteCompleted(s: State): State {
    s.(writePending := false, notify := s.notify + 1,
       env := s.env.(nativeWrite := false, log := s.env.log + [WriteDone]))
  }

  function Over(s: State): State {
    s.(env := s.env.(over := true, nativeRead := false, nativeWrite := false, log := s.env.log + [LastCallback]))
  }

  /** Succeeded, failed or canceled: the last callback, which gives back every buffer. */
  function Terminated(s: State, e: Error): State {
    FinishLocked(Over(s), e)
  }

  // ---------- events ----------

  /**
   A worker waiting in the upload queue goes on when the application has something for it, or, with
   `released`, because the queue has been closed.
   */
  datatype Event =
    | EvStart(accepted: bool)
    | EvCancel(e: Error)
    | EvRead(reader: nat, room: nat, a: Answer)
    | EvReaderLeaves(reader: nat)
    | EvWorkerReady
    | EvWorkerStops
    | EvUpload(released: bool, n: nat, uploadError: Option<Error>, a: Answer)
    | EvWorkerWakes
    | EvStreamReady
    | EvHeaders(bad: Option<Error>, a: Answer)
    | EvReadCompleted(data: seq<byte>, eof: Error)
    | EvWriteCompleted
    | EvTerminal(e: Error)
    | EvCleanerCloses
    | EvCleanerSeesWorker

  /** A callback needs a stream that has been started and has not made its last callback. */
  predicate CallbacksPossible(s: State) {
    s.started && !s.env.over
  }

  predicate Enabled(s: State, ev: Event) {
    match ev
    case EvStart(_) => !s.env.startCalled
    case EvCancel(_) => true
    case EvRead(reader, room, _) => room > 0 && (reader in s.env.readers ==> s.env.readers[reader] != s.notify)
    case EvReaderLeaves(reader) => reader in s.env.readers
    case EvWorkerReady => s.env.worker == AwaitingReady && s.ready
    case EvWorkerStops => s.env.worker == AwaitingReady && s.done
    case EvUpload(released, _, _, _) => s.env.worker == FillingBuffer && (released ==> s.env.uploadClosed)
    case EvWorkerWakes => s.env.worker.AwaitingWrite? && s.env.worker.seen != s.notify
    case EvStreamReady => CallbacksPossible(s)
    case EvHeaders(_, _) => CallbacksPossible(s) && !s.env.headersSeen
    case EvReadCompleted(_, _) => CallbacksPossible(s) && s.env.nativeRead
    case EvWriteCompleted => CallbacksPossible(s) && s.env.nativeWrite
    case EvTerminal(_) => CallbacksPossible(s)
    case EvCleanerCloses => s.env.cleaner == AwaitingDone && s.done
    case EvCleanerSeesWorker => s.env.cleaner == AwaitingWorker && s.env.worker == Exited
  }

  /** The cleaner has seen the end and closes the upload queue. */
  function CloseUpload(s: State): State {
    s.(env := s.env.(cleaner := AwaitingWorker, uploadClosed := true))
  }

  function Cleaned(s: State): State {
    s.(env := s.env.(cleaner := Finished))
  }

  function ReaderLeaves(s: State, reader: nat): State {
    s.(env := s.env.(readers := s.env.readers - {reader}))
  }

  function Step(s: State, ev: Event): State
    requires Enabled(s, ev)
  {
    match ev
    case EvStart(accepted) => StartRequest(s, accepted)
    case EvCancel(e) => CancelLocked(s, e)
    case EvRead(reader, room, a) => ReadPass(s, reader, room, a)
    case EvReaderLeaves(reader) => ReaderLeaves(s, reader)
    case EvWorkerReady => AtWorker(s, FillingBuffer)
    case EvWorkerStops => AtWorker(s, Exited)
    case EvUpload(_, n, e, a) => UploadPass(s, n, e, a)
    case EvWorkerWakes => WriteWait(s, s.env.worker.last)
    case EvStreamReady => StreamReady(s)
    case EvHeaders(bad, a) => ResponseHeaders(s, bad, a)
    case EvReadCompleted(data, eof) => ReadCompleted(s, data, eof)
    case EvWriteCompleted => WriteCompleted(s)
    case EvTerminal(e) => Terminated(s, e)
    case EvCleanerCloses => CloseUpload(s)
    case EvCleanerSeesWorker => Cleaned(s)
  }

  /** The states a request goes through, and the events that take it from one to the next. */
  ghost predicate IsRun(states: seq<State>, events: seq<Event>) {
    && |states| == |events| + 1 && states[0] == INITIAL
    && forall i :: 0 <= i < |events| ==> Enabled(states[i], events[i]) && states[i + 1] == Step(states[i], events[i])
  }

  // ---------- the contract of the native stream ----------

  /** An observer that sees only the log and knows what a native stream allows. */
  datatype Phase =
    | Fresh | Rejected
    | Live(reading: bool, writing: bool)        // which buffers the stream has
    | Cancelling(reading: bool, writing: bool)
    | Ended | Gone | Violation

  function Observe(p: Phase, c: Call): Phase {
    match p
    case Fresh => if c == Start(true) then Live(false, false) else if c == Start(false) then Rejected
                  else if c == Destroy then Gone else Violation
    case Live(r, w) => Using(r, w, c)
    case Cancelling(r, w) => Waiting(r, w, c)
    case Rejected => if c == Destroy then Gone else Violation
    case Ended => if c == Destroy then Gone else Violation
    case _ => Violation
  }

  /** A started stream: one read and one write at a time. */
  function Using(r: bool, w: bool, c: Call): Phase {
    match c
    case Read(taken) => if r then Violation else Live(taken, w)
    case Write(taken) => if w then Violation else Live(r, taken)
    case ReadDone => if r then Live(false, w) else Violation
    case WriteDone => if w then Live(r, false) else Violation
    case Cancel => Cancelling(r, w)
    case LastCallback => Ended
    case _ => Violation
  }

  /** A cancelled stream: nothing but what is still to come back. */
  function Waiting(r: bool, w: bool, c: Call): Phase {
    match c
    case ReadDone => if r then Cancelling(false, w) else Violation
    case WriteDone => if w then Cancelling(r, false) else Violation
    case LastCallback => Ended
    case _ => Violation
  }

  function Judge(log: seq<Call>): Phase {
    if log == [] then Fresh else Observe(Judge(log[..|log| - 1]), log[|log| - 1])
  }

  lemma JudgeOneMore(log: seq<Call>, c: Call)
    ensures Judge(log + [c]) == Observe(Judge(log), c)
  {
    assert (log + [c])[..|log|] == log;
  }

  // ---------- invariants ----------

  /** What the observer has seen is exactly what the flags and the native stream say. */
  predicate CallsInOrder(s: State) {
    Judge(s.env.log) ==
      if s.terminal then Gone
      else if s.cancelled then Cancelling(s.env.nativeRead, s.env.nativeWrite)
      else if s.started then Live(s.env.nativeRead, s.env.nativeWrite)
      else Fresh
  }

  predicate Flags(s: State) {
    && (s.terminal ==> s.err.Some?)
    && s.done == s.terminal
    && (s.cancelled ==> s.started && s.err.Some?)
    && (s.err.Some? ==> s.cancelled || s.terminal)
    && (s.started ==> s.env.startCalled)
    && (s.ready || s.haveHeaders || s.env.headersSeen ==> s.started)
    && (s.haveHeaders ==> s.env.headersSeen)
    && (s.env.over ==> s.terminal && s.started)
    && (s.terminal ==> s.env.over || !s.started)
  }

  /** The read direction: at most one read, and no byte lost or overwritten. */
  predicate Reads(s: State) {
    && (s.env.nativeRead ==> s.readPending && CallbacksPossible(s))
    && (s.readPending ==> s.pending == [] && s.haveHeaders)
    && (!s.haveHeaders ==> s.pending == [])
    && s.env.completed == s.env.delivered + s.pending
  }

  /** The write direction: the worker and the native stream never share the buffer. */
  predicate Writes(s: State) {
    && (s.env.nativeWrite ==> s.writePending && CallbacksPossible(s))
    && (s.writePending ==> s.env.worker.AwaitingWrite? || s.env.worker == Exited)
    && (s.env.worker.FillingBuffer? || s.env.worker.AwaitingWrite? ==> s.ready)
  }

  /** No waiter waits on a channel that does not exist yet. */
  predicate Seen(s: State) {
    && (s.env.worker.AwaitingWrite? ==> s.env.worker.seen <= s.notify)
    && (forall r :: r in s.env.readers ==> s.env.readers[r] <= s.notify)
  }

  predicate Cleaning(s: State) {
    && (s.env.cleaner != AwaitingDone <==> s.env.uploadClosed)
    && (s.env.uploadClosed ==> s.terminal)
    && (s.env.cleaner == Finished ==> s.env.worker == Exited)
  }

  /** While nothing has gone wrong, the request makes progress. */
  predicate Progress(s: State) {
    && (s.haveHeaders ==> (s.readPending <==> s.pending == []) && (s.readPending ==> s.env.nativeRead))
    && (s.env.worker.AwaitingWrite? && s.writePending ==> s.env.nativeWrite)
  }

  /** A waiter whose generation is still current waits for something that has not happened. */
  predicate Wakeups(s: State) {
    && (s.env.worker.AwaitingWrite? && s.env.worker.seen == s.notify ==> s.writePending && !s.terminal && s.err == None)
    && ReadersWake(s)
  }

  predicate ReadersWake(s: State) {
    forall r :: r in s.env.readers && s.env.readers[r] == s.notify ==> s.pending == [] && s.err == None
  }

  predicate Safe(s: State) {
    Flags(s) && Reads(s) && Writes(s) && Seen(s) && Cleaning(s)
  }

  predicate Inv(s: State) {
    Safe(s) && (s.err == None ==> Progress(s)) && Wakeups(s)
  }

  // ---------- preservation ----------

  lemma CancelKeeps(s: State, e: Error)
    requires Safe(s)
    ensures Inv(CancelLocked(s, e)) && CancelLocked(s, e).err.Some?
    ensures CancelLocked(s, e).env.worker == s.env.worker && CancelLocked(s, e).writePending == s.writePending
  {
  }

  lemma TerminatedKeeps(s: State, e: Error)
    requires Inv(s) && CallbacksPossible(s)
    ensures Inv(Terminated(s, e))
  {
  }

  lemma StartKeeps(s: State, accepted: bool)
    requires Inv(s) && !s.env.startCalled
    ensures Inv(StartRequest(s, accepted))
  {
  }

  /** A read is started where none is outstanding and nothing is pending. */
  lemma StartReadKeeps(s: State, a: Answer)
    requires Safe(s) && Wakeups(s) && s.pending == []
    requires s.err == None && s.haveHeaders && s.readPending ==> s.env.nativeRead
    requires s.err == None && s.env.worker.AwaitingWrite? && s.writePending ==> s.env.nativeWrite
    ensures Inv(StartReadLocked(s, a))
  {
    if MayRead(s) && a != Taken { CancelKeeps(ReadIssued(s, a), ReadFailed); }
  }

  lemma ReadPassKeeps(s: State, reader: nat, room: nat, a: Answer)
    requires Inv(s) && room > 0
    ensures Inv(ReadPass(s, reader, room, a))
  {
    if s.pending != [] {
      var n := Min(room, |s.pending|);
      assert s.env.delivered + s.pending == s.env.delivered + s.pending[..n] + s.pending[n..];
      if n == |s.pending| { StartReadKeeps(TakeBytes(s, reader, n), a); }
    }
  }

  lemma UploadEndKeeps(s: State, e: Option<Error>)
    requires Safe(s) && (s.err == None ==> Progress(s) && !s.writePending) && ReadersWake(s)
    requires s.env.worker == FillingBuffer || s.env.worker.AwaitingWrite?
    ensures Inv(UploadEnd(s, e))
  {
    if e.Some? { CancelKeeps(s, e.value); }
  }

  /** A refused write leaves an error, and the worker is gone: nobody touches the buffer. */
  lemma RefusedWriteKeeps(s: State, a: Answer)
    requires Inv(s) && s.env.worker == FillingBuffer && s.err == None && a != Taken
    ensures Inv(RefusedWrite(s, a))
  {
    CancelKeeps(AtWorker(WriteIssued(s, a), Exited), WriteFailed);
  }

  lemma TakenWriteKeeps(s: State, e: Option<Error>)
    requires Inv(s) && s.env.worker == FillingBuffer && s.err == None && !s.terminal
    ensures Inv(WriteWait(WriteIssued(s, Taken), e))
  {
  }

  lemma UploadPassKeeps(s: State, n: nat, e: Option<Error>, a: Answer)
    requires Inv(s) && s.env.worker == FillingBuffer
    ensures Inv(UploadPass(s, n, e, a))
  {
    if s.terminal || s.err.Some? { return; }
    if n == 0 {
      UploadEndKeeps(s, Some(if e.Some? then e.value else NoProgress));
    } else if a == Taken {
      TakenWriteKeeps(s, e);
    } else {
      RefusedWriteKeeps(s, a);
      if e.Some? { CancelKeeps(RefusedWrite(s, a), e.value); }
    }
  }

  lemma WorkerWakesKeeps(s: State)
    requires Inv(s) && s.env.worker.AwaitingWrite?
    ensures Inv(WriteWait(s, s.env.worker.last))
  {
    if !(s.writePending && !s.terminal && s.err == None) {
      UploadEndKeeps(s, s.env.worker.last);
    }
  }

  lemma HeadersKeep(s: State, bad: Option<Error>, a: Answer)
    requires Inv(s) && CallbacksPossible(s) && !s.env.headersSeen
    ensures Inv(ResponseHeaders(s, bad, a))
    ensures bad.Some? ==>
              var t := ResponseHeaders(s, bad, a);
              && !t.haveHeaders && !t.readPending && t.err == (if s.err.Some? then s.err else bad)
              && t.env.log == s.env.log + if s.err.Some? then [] else [Cancel]
  {
    if bad.Some? { CancelKeeps(SeenHeaders(s, false), bad.value); } else { StartReadKeeps(SeenHeaders(s, true), a); }
  }

  lemma ReadCompletedKeeps(s: State, data: seq<byte>, eof: Error)
    requires Inv(s) && CallbacksPossible(s) && s.env.nativeRead
    ensures Inv(ReadCompleted(s, data, eof))
  {
    if data == [] { CancelKeeps(ReadReturned(s), eof); }
  }

  lemma WriteCompletedKeeps(s: State)
    requires Inv(s) && CallbacksPossible(s) && s.env.nativeWrite
    ensures Inv(WriteCompleted(s))
  {
  }

  /** The steps of the goroutines that touch nothing but their own place. */
  lemma PlaceKeeps(s: State, ev: Event)
    requires Inv(s) && Enabled(s, ev)
    requires ev.EvReaderLeaves? || ev.EvWorkerReady? || ev.EvWorkerStops? || ev.EvStreamReady?
          || ev.EvCleanerCloses? || ev.EvCleanerSeesWorker?
    ensures Inv(Step(s, ev))
  {
  }

  lemma StepKeeps(s: State, ev: Event)
    requires Inv(s) && Enabled(s, ev)
    ensures Inv(Step(s, ev))
  {
    match ev
    case EvStart(accepted) => StartKeeps(s, accepted);
    case EvCancel(e) => CancelKeeps(s, e);
    case EvRead(reader, room, a) => ReadPassKeeps(s, reader, room, a);
    case EvUpload(_, n, e, a) => UploadPassKeeps(s, n, e, a);
    case EvWorkerWakes => WorkerWakesKeeps(s);
    case EvHeaders(bad, a) => HeadersKeep(s, bad, a);
    case EvReadCompleted(data, eof) => ReadCompletedKeeps(s, data, eof);
    case EvWriteCompleted => WriteCompletedKeeps(s);
    case EvTerminal(e) => TerminatedKeeps(s, e);
    case _ => PlaceKeeps(s, ev);
  }
}
