/** What holds over whole runs of a bidirectional request. */
module DuplexRuns {
  import opened Bytes
  import opened Counting
  import opened Runs
  import opened DuplexModel

  lemma NextKeeps(s: State, ev: Event, t: State)
    requires Inv(s) && Enabled(s, ev) && t == Step(s, ev)
    ensures Inv(t)
  {
    StepKeeps(s, ev);
  }

  lemma RunKeepsInv(states: seq<State>, events: seq<Event>, i: nat)
    requires IsRun(states, events) && i < |states|
    ensures Inv(states[i])
  {
    forall k | 0 <= k < i && Inv(states[k]) ensures Inv(states[k + 1]) {
      NextKeeps(states[k], events[k], states[k + 1]);
    }
    Preserved(states, Inv, i);
  }

  // ---------- the order of native calls ----------

  /** A step that makes one call, which the observer allows. */
  lemma OneCall(s: State, t: State, c: Call)
    requires CallsInOrder(s) && t.env.log == s.env.log + [c]
    ensures Judge(t.env.log) == Observe(Judge(s.env.log), c)
  {
    JudgeOneMore(s.env.log, c);
  }

  lemma CancelKeepsOrder(s: State, e: Error)
    requires Flags(s) && CallsInOrder(s)
    ensures CallsInOrder(CancelLocked(s, e))
  {
    if !s.started && !s.terminal {
      OneCall(s, CancelLocked(s, e), Destroy);
    } else if !s.cancelled && !s.terminal {
      OneCall(s, CancelLocked(s, e), Cancel);
    }
  }

  lemma StartKeepsOrder(s: State, accepted: bool)
    requires Inv(s) && CallsInOrder(s) && !s.env.startCalled
    ensures CallsInOrder(StartRequest(s, accepted))
  {
    JudgeOneMore(s.env.log, Start(accepted));
    if !accepted { JudgeOneMore(s.env.log + [Start(false)], Destroy); }
  }

  lemma StartReadKeepsOrder(s: State, a: Answer)
    requires Flags(s) && Reads(s) && CallsInOrder(s)
    ensures CallsInOrder(StartReadLocked(s, a))
  {
    if MayRead(s) {
      OneCall(s, ReadIssued(s, a), Read(a != Refused));
      if a != Taken { CancelKeepsOrder(ReadIssued(s, a), ReadFailed); }
    }
  }

  lemma ReadPassKeepsOrder(s: State, reader: nat, room: nat, a: Answer)
    requires Inv(s) && CallsInOrder(s) && room > 0
    ensures CallsInOrder(ReadPass(s, reader, room, a))
  {
    if s.pending != [] && room >= |s.pending| {
      assert s.env.delivered + s.pending == s.env.delivered + s.pending[..|s.pending|] + s.pending[|s.pending|..];
      StartReadKeepsOrder(TakeBytes(s, reader, |s.pending|), a);
    }
  }

  lemma RefusedWriteKeepsOrder(s: State, a: Answer)
    requires Inv(s) && CallsInOrder(s) && s.env.worker == FillingBuffer && !s.terminal && s.err == None && a != Taken
    ensures CallsInOrder(RefusedWrite(s, a))
  {
    var s1 := AtWorker(WriteIssued(s, a), Exited);
    OneCall(s, s1, Write(a != Refused));
    CancelKeepsOrder(s1, WriteFailed);
  }

  lemma WriteWaitKeepsOrder(s: State, e: Option<Error>)
    requires Flags(s) && CallsInOrder(s)
    ensures CallsInOrder(WriteWait(s, e))
  {
    if e.Some? { CancelKeepsOrder(s, e.value); }
  }

  lemma UploadPassKeepsOrder(s: State, n: nat, e: Option<Error>, a: Answer)
    requires Inv(s) && CallsInOrder(s) && s.env.worker == FillingBuffer
    ensures CallsInOrder(UploadPass(s, n, e, a))
  {
    if s.terminal || s.err.Some? { return; }
    if n == 0 {
      CancelKeepsOrder(s, if e.Some? then e.value else NoProgress);
    } else if a == Taken {
      OneCall(s, WriteIssued(s, a), Write(true));
      WriteWaitKeepsOrder(WriteIssued(s, a), e);
    } else {
      RefusedWriteKeeps(s, a);
      RefusedWriteKeepsOrder(s, a);
      if e.Some? { CancelKeepsOrder(RefusedWrite(s, a), e.value); }
    }
  }

  lemma CompletedKeepsOrder(s: State, data: seq<byte>, eof: Error)
    requires Inv(s) && CallsInOrder(s) && CallbacksPossible(s) && s.env.nativeRead
    ensures CallsInOrder(ReadCompleted(s, data, eof))
  {
    OneCall(s, ReadReturned(s), ReadDone);
    if data == [] { CancelKeepsOrder(ReadReturned(s), eof); }
  }

  lemma TerminatedKeepsOrder(s: State, e: Error)
    requires Inv(s) && CallsInOrder(s) && CallbacksPossible(s)
    ensures CallsInOrder(Terminated(s, e))
  {
    JudgeOneMore(s.env.log, LastCallback);
    JudgeOneMore(s.env.log + [LastCallback], Destroy);
  }

  lemma HeadersKeepOrder(s: State, bad: Option<Error>, a: Answer)
    requires Inv(s) && CallsInOrder(s) && CallbacksPossible(s)
    ensures CallsInOrder(ResponseHeaders(s, bad, a))
  {
    if bad.Some? {
      CancelKeepsOrder(SeenHeaders(s, false), bad.value);
    } else {
      StartReadKeepsOrder(SeenHeaders(s, true), a);
    }
  }

  /** What the application and the worker do. */
  predicate Own(ev: Event) {
    ev.EvStart? || ev.EvCancel? || ev.EvRead? || ev.EvUpload? || ev.EvWorkerWakes?
  }

  lemma OwnStepKeepsOrder(s: State, ev: Event)
    requires Inv(s) && CallsInOrder(s) && Enabled(s, ev) && Own(ev)
    ensures CallsInOrder(Step(s, ev))
  {
    match ev
    case EvStart(accepted) => StartKeepsOrder(s, accepted);
    case EvCancel(e) => CancelKeepsOrder(s, e);
    case EvRead(reader, room, a) => ReadPassKeepsOrder(s, reader, room, a);
    case EvUpload(_, n, e, a) => UploadPassKeepsOrder(s, n, e, a);
    case EvWorkerWakes => WriteWaitKeepsOrder(s, s.env.worker.last);
  }

  lemma OtherStepKeepsOrder(s: State, ev: Event)
    requires Inv(s) && CallsInOrder(s) && Enabled(s, ev) && !Own(ev)
    ensures CallsInOrder(Step(s, ev))
  {
    match ev
    case EvHeaders(bad, a) => HeadersKeepOrder(s, bad, a);
    case EvReadCompleted(data, eof) => CompletedKeepsOrder(s, data, eof);
    case EvWriteCompleted => OneCall(s, WriteCompleted(s), WriteDone);
    case EvTerminal(e) => TerminatedKeepsOrder(s, e);
    case _ =>
  }

  lemma StepKeepsOrder(s: State, ev: Event)
    requires Inv(s) && CallsInOrder(s) && Enabled(s, ev)
    ensures CallsInOrder(Step(s, ev))
  {
    if Own(ev) { OwnStepKeepsOrder(s, ev); } else { OtherStepKeepsOrder(s, ev); }
  }

  ghost predicate Orderly(s: State) {
    Inv(s) && CallsInOrder(s)
  }

  lemma InitialIsOrderly()
    ensures Orderly(INITIAL)
  {
  }

  lemma NextIsOrderly(s: State, ev: Event, t: State)
    requires Orderly(s) && Enabled(s, ev) && t == Step(s, ev)
    ensures Orderly(t)
  {
    StepKeeps(s, ev);
    StepKeepsOrder(s, ev);
  }

  lemma RunIsOrderly(states: seq<State>, events: seq<Event>, i: nat)
    requires IsRun(states, events) && i < |states|
    ensures Orderly(states[i])
  {
    forall k | 0 <= k < i && Orderly(states[k]) ensures Orderly(states[k + 1]) {
      NextIsOrderly(states[k], events[k], states[k + 1]);
    }
    Preserved(states, Orderly, i);
  }

  /** What the observer's verdict means for each kind of call. */
  lemma {:induction false} JudgeCounts(log: seq<Call>)
    requires Judge(log) != Violation
    ensures Occurrences(log, Destroy) == if Judge(log) == Gone then 1 else 0
    ensures Occurrences(log, Cancel) <= 1
    ensures Judge(log).Live? || Judge(log) in {Fresh, Rejected} ==> Occurrences(log, Cancel) == 0
    ensures Occurrences(log, Start(true)) + Occurrences(log, Start(false)) <= 1
    ensures Judge(log) == Fresh ==> log == []
    ensures Judge(log) == Gone ==> log[|log| - 1] == Destroy
  {
    if log != [] { JudgeCounts(log[..|log| - 1]); }
  }

  /** At most one read and one write are outstanding at any time, and each completion ends one. */
  lemma {:induction false} OneAtATime(log: seq<Call>)
    requires Judge(log) != Violation
    ensures Occurrences(log, ReadDone) <= Occurrences(log, Read(true)) <= Occurrences(log, ReadDone) + 1
    ensures Occurrences(log, WriteDone) <= Occurrences(log, Write(true)) <= Occurrences(log, WriteDone) + 1
    ensures Judge(log).Live? || Judge(log).Cancelling? ==>
              && Occurrences(log, Read(true)) == Occurrences(log, ReadDone) + Bit(Judge(log).reading)
              && Occurrences(log, Write(true)) == Occurrences(log, WriteDone) + Bit(Judge(log).writing)
    ensures Judge(log) in {Fresh, Rejected} ==> Occurrences(log, Read(true)) == 0 && Occurrences(log, Write(true)) == 0
    ensures Judge(log) in {Fresh, Rejected} ==> Occurrences(log, ReadDone) == 0 && Occurrences(log, WriteDone) == 0
  {
    if log != [] { OneAtATime(log[..|log| - 1]); }
  }

  /**
   The native stream's rules are never broken: it is started at most once, cancelled at most once
   and only after its start, given one read and one write at a time and none once it is cancelled,
   and destroyed exactly once by the time the request is over, after its last callback.
   */
  lemma NativeCallsInOrder(states: seq<State>, events: seq<Event>, i: nat)
    requires IsRun(states, events) && i < |states|
    ensures var log := states[i].env.log;
            && Judge(log) != Violation
            && Occurrences(log, Destroy) == (if states[i].terminal then 1 else 0)
            && Occurrences(log, Cancel) <= 1
            && Occurrences(log, Start(true)) + Occurrences(log, Start(false)) <= 1
            && Occurrences(log, ReadDone) <= Occurrences(log, Read(true)) <= Occurrences(log, ReadDone) + 1
            && Occurrences(log, WriteDone) <= Occurrences(log, Write(true)) <= Occurrences(log, WriteDone) + 1
            && (states[i].terminal ==> log[|log| - 1] == Destroy)
    ensures forall j :: i <= j < |states| && states[i].terminal ==> states[j].env.log == states[i].env.log
  {
    RunIsOrderly(states, events, i);
    JudgeCounts(states[i].env.log);
    OneAtATime(states[i].env.log);
    forall j | i <= j < |states| && states[i].terminal ensures states[j].env.log == states[i].env.log {
      NothingAfterDestroy(states, events, i, j);
    }
  }

  /** Once the request is over its log is complete. */
  ghost predicate Silent(s: State, t: State) {
    s.terminal ==> t.terminal && t.env.log == s.env.log
  }

  lemma SilentUpload(s: State, n: nat, e: Option<Error>, a: Answer)
    requires s.terminal
    ensures Silent(s, UploadPass(s, n, e, a))
  {
  }

  lemma SilentWait(s: State, e: Option<Error>)
    requires s.terminal
    ensures Silent(s, WriteWait(s, e))
  {
  }

  lemma SilentRead(s: State, reader: nat, room: nat, a: Answer)
    requires s.terminal && room > 0
    ensures Silent(s, ReadPass(s, reader, room, a))
  {
    if s.pending != [] && room >= |s.pending| {
      var s1 := TakeBytes(s, reader, |s.pending|);
      assert s1.terminal && StartReadLocked(s1, a) == s1;
    }
  }

  /** Once the request is over, no step calls the native stream. */
  lemma TerminalStepCallsNothing(s: State, ev: Event, t: State)
    requires Inv(s) && Enabled(s, ev) && t == Step(s, ev)
    ensures Silent(s, t)
  {
    if s.terminal {
      match ev
      case EvRead(reader, room, a) => SilentRead(s, reader, room, a);
      case EvUpload(_, n, e, a) => SilentUpload(s, n, e, a);
      case EvWorkerWakes => SilentWait(s, s.env.worker.last);
      case _ =>
    }
  }

  lemma NothingAfterDestroy(states: seq<State>, events: seq<Event>, i: nat, j: nat)
    requires IsRun(states, events) && i <= j < |states| && states[i].terminal
    ensures states[j].env.log == states[i].env.log && states[j].terminal
  {
    forall k | i <= k < j ensures Silent(states[k], states[k + 1]) {
      RunKeepsInv(states, events, k);
      TerminalStepCallsNothing(states[k], events[k], states[k + 1]);
    }
    Carried(states, Silent, i, j);
  }

  // ---------- what never goes back ----------

  ghost predicate LaterThan(s: State, t: State) {
    && (s.err.Some? ==> t.err == s.err)
    && (s.terminal ==> t.terminal) && (s.env.over ==> t.env.over) && (s.cancelled ==> t.cancelled)
    && (s.env.worker == Exited ==> t.env.worker == Exited)
    && (s.env.cleaner == Finished ==> t.env.cleaner == Finished)
  }

  lemma CancelGoesOn(s: State, e: Error)
    requires Flags(s)
    ensures LaterThan(s, CancelLocked(s, e))
  {
  }

  lemma StartReadGoesOn(s: State, a: Answer)
    requires Flags(s)
    ensures LaterThan(s, StartReadLocked(s, a))
  {
    if MayRead(s) && a != Taken { CancelGoesOn(ReadIssued(s, a), ReadFailed); }
  }

  lemma RefusedWriteGoesOn(s: State, a: Answer)
    requires Inv(s) && s.env.worker == FillingBuffer && s.err == None && !s.terminal && a != Taken
    ensures LaterThan(s, RefusedWrite(s, a))
  {
    CancelGoesOn(AtWorker(WriteIssued(s, a), Exited), WriteFailed);
  }

  lemma WriteWaitGoesOn(s: State, e: Option<Error>)
    requires Flags(s) && s.env.worker != Exited
    ensures LaterThan(s, WriteWait(s, e))
  {
    if e.Some? { CancelGoesOn(s, e.value); }
  }

  lemma UploadGoesOn(s: State, n: nat, e: Option<Error>, a: Answer)
    requires Inv(s) && s.env.worker == FillingBuffer
    ensures LaterThan(s, UploadPass(s, n, e, a))
  {
    if s.terminal || s.err.Some? { return; }
    if n == 0 {
      CancelGoesOn(s, if e.Some? then e.value else NoProgress);
    } else if a == Taken {
      WriteWaitGoesOn(WriteIssued(s, a), e);
    } else {
      RefusedWriteKeeps(s, a);
      RefusedWriteGoesOn(s, a);
      if e.Some? {
        CancelGoesOn(RefusedWrite(s, a), e.value);
        LaterThanTransitive(s, RefusedWrite(s, a), CancelLocked(RefusedWrite(s, a), e.value));
      }
    }
  }

  lemma LaterThanTransitive(s: State, t: State, u: State)
    requires LaterThan(s, t) && LaterThan(t, u)
    ensures LaterThan(s, u)
  {
  }

  lemma ReadPassGoesOn(s: State, reader: nat, room: nat, a: Answer)
    requires Flags(s) && room > 0
    ensures LaterThan(s, ReadPass(s, reader, room, a))
  {
    if s.pending != [] && room >= |s.pending| { StartReadGoesOn(TakeBytes(s, reader, |s.pending|), a); }
  }

  lemma HeadersGoOn(s: State, bad: Option<Error>, a: Answer)
    requires Flags(s) && CallbacksPossible(s)
    ensures LaterThan(s, ResponseHeaders(s, bad, a))
  {
    if bad.Some? {
      CancelGoesOn(SeenHeaders(s, false), bad.value);
    } else {
      StartReadGoesOn(SeenHeaders(s, true), a);
    }
  }

  lemma ReadCompletedGoesOn(s: State, data: seq<byte>, eof: Error)
    requires Flags(s)
    ensures LaterThan(s, ReadCompleted(s, data, eof))
  {
    if data == [] { CancelGoesOn(ReadReturned(s), eof); }
  }

  lemma OwnStepGoesOn(s: State, ev: Event, t: State)
    requires Inv(s) && Enabled(s, ev) && t == Step(s, ev) && Own(ev)
    ensures LaterThan(s, t)
  {
    match ev
    case EvStart(accepted) =>
    case EvCancel(e) => CancelGoesOn(s, e);
    case EvRead(reader, room, a) => ReadPassGoesOn(s, reader, room, a);
    case EvUpload(_, n, e, a) => UploadGoesOn(s, n, e, a);
    case EvWorkerWakes => WriteWaitGoesOn(s, s.env.worker.last);
  }

  lemma OtherStepGoesOn(s: State, ev: Event, t: State)
    requires Inv(s) && Enabled(s, ev) && t == Step(s, ev) && !Own(ev)
    ensures LaterThan(s, t)
  {
    match ev
    case EvHeaders(bad, a) => HeadersGoOn(s, bad, a);
    case EvReadCompleted(data, eof) => ReadCompletedGoesOn(s, data, eof);
    case _ =>
  }

  lemma StepGoesOn(s: State, ev: Event, t: State)
    requires Inv(s) && Enabled(s, ev) && t == Step(s, ev)
    ensures LaterThan(s, t)
  {
    if Own(ev) { OwnStepGoesOn(s, ev, t); } else { OtherStepGoesOn(s, ev, t); }
  }

  /** The first error, and the end of each party, are never taken back. */
  lemma RunGoesOn(states: seq<State>, events: seq<Event>, i: nat, j: nat)
    requires IsRun(states, events) && i <= j < |states|
    ensures LaterThan(states[i], states[j])
  {
    forall k | i <= k < j ensures LaterThan(states[k], states[k + 1]) {
      RunKeepsInv(states, events, k);
      StepGoesOn(states[k], events[k], states[k + 1]);
    }
    Carried(states, LaterThan, i, j);
  }

  // ---------- buffers, bytes and wakeups ----------

  /**
   The two native buffers: while the stream may be using one, the worker is not writing into it,
   and neither is destroyed before the stream has let go of both and the worker is gone. A read or
   a write is only handed over when none is outstanding.
   */
  lemma BuffersAreNotShared(states: seq<State>, events: seq<Event>, i: nat)
    requires IsRun(states, events) && i < |states|
    ensures states[i].env.nativeWrite ==> states[i].env.worker != FillingBuffer
    ensures MayRead(states[i]) ==> !states[i].env.nativeRead
    ensures states[i].env.cleaner == Finished ==>
      !states[i].env.nativeRead && !states[i].env.nativeWrite && states[i].env.worker == Exited && states[i].terminal
    ensures forall j :: i <= j < |states| && states[i].env.cleaner == Finished ==>
              !states[j].env.nativeRead && !states[j].env.nativeWrite
  {
    RunKeepsInv(states, events, i);
    forall j | i <= j < |states| && states[i].env.cleaner == Finished
      ensures !states[j].env.nativeRead && !states[j].env.nativeWrite
    {
      RunGoesOn(states, events, i, j);
      RunKeepsInv(states, events, j);
    }
  }

  /** Every byte the stream delivered has been handed out, in order, or is pending. */
  lemma ResponseIsConserved(states: seq<State>, events: seq<Event>, i: nat)
    requires IsRun(states, events) && i < |states|
    ensures states[i].env.completed == states[i].env.delivered + states[i].pending
    ensures states[i].env.nativeRead ==> states[i].pending == []
  {
    RunKeepsInv(states, events, i);
  }

  /** After good headers and until something goes wrong, a read is outstanding or bytes are pending. */
  lemma NeverStalls(states: seq<State>, events: seq<Event>, i: nat)
    requires IsRun(states, events) && i < |states|
    requires states[i].haveHeaders && states[i].err == None
    ensures states[i].env.nativeRead <==> states[i].pending == []
    ensures states[i].env.worker.AwaitingWrite? ==> states[i].env.nativeWrite || Enabled(states[i], EvWorkerWakes)
  {
    RunKeepsInv(states, events, i);
  }

  /** A reader or worker that has something to do is never left asleep. */
  lemma NoLostWakeup(states: seq<State>, events: seq<Event>, i: nat, reader: nat)
    requires IsRun(states, events) && i < |states|
    ensures reader in states[i].env.readers && (states[i].pending != [] || states[i].err.Some?)
            ==> Enabled(states[i], EvRead(reader, 1, Taken))
    ensures states[i].env.worker.AwaitingWrite? && (!states[i].writePending || states[i].err.Some?
              || states[i].terminal)
            ==> Enabled(states[i], EvWorkerWakes)
  {
    RunKeepsInv(states, events, i);
  }

  // ---------- the end is reached ----------

  /** How many more steps of the worker and the cleaner a request that is over can need. */
  function Distance(s: State): nat {
    (match s.env.worker case AwaitingReady => 2 case Exited => 0 case _ => 1)
    + (match s.env.cleaner case AwaitingDone => 2 case AwaitingWorker => 1 case Finished => 0)
  }

  /** A step of the worker or of the cleaner; the application gives a worker in the upload queue nothing. */
  predicate Winding(ev: Event) {
    || ev.EvWorkerReady? || ev.EvWorkerStops? || ev.EvWorkerWakes? || (ev.EvUpload? && ev.released)
    || ev.EvCleanerCloses? || ev.EvCleanerSeesWorker?
  }

  /** A worker that gets something from the upload queue once the request is over leaves. */
  lemma LastUploadComesNearer(s: State, n: nat, e: Option<Error>, a: Answer)
    requires s.terminal && s.env.worker == FillingBuffer
    ensures UploadPass(s, n, e, a) == AtWorker(s, Exited)
  {
  }

  /** So does one that waited for its write. */
  lemma LastWaitComesNearer(s: State)
    requires Inv(s) && s.terminal && s.env.worker.AwaitingWrite?
    ensures var t := WriteWait(s, s.env.worker.last);
            t.terminal && t.env.worker == Exited && t.env.cleaner == s.env.cleaner
  {
    if s.env.worker.last.Some? { assert CancelLocked(s, s.env.worker.last.value).env.cleaner == s.env.cleaner; }
  }

  /** Once the request is over, each such step comes nearer to the end. */
  lemma ComesNearer(s: State, ev: Event)
    requires Inv(s) && s.terminal && Enabled(s, ev) && Winding(ev)
    ensures Step(s, ev).terminal && Distance(Step(s, ev)) < Distance(s)
  {
    match ev
    case EvUpload(_, n, e, a) => LastUploadComesNearer(s, n, e, a);
    case EvWorkerWakes => LastWaitComesNearer(s);
    case EvWorkerReady =>
    case EvWorkerStops =>
    case EvCleanerCloses =>
    case EvCleanerSeesWorker =>
  }

  /** The next such step; a worker in the upload queue can only go on because the queue is closed. */
  function Onward(s: State): Event {
    if s.env.cleaner == AwaitingDone then EvCleanerCloses
    else match s.env.worker
         case AwaitingReady => EvWorkerStops
         case FillingBuffer => EvUpload(true, 0, None, Taken)
         case AwaitingWrite(_, _) => EvWorkerWakes
         case Exited => EvCleanerSeesWorker
  }

  lemma CanGoOn(s: State)
    requires Inv(s) && s.terminal && s.env.cleaner != Finished
    ensures Enabled(s, Onward(s)) && Winding(Onward(s))
  {
  }

  /** The worker and the cleaner, left to themselves for n steps. */
  function WindDown(s: State, n: nat): State
    decreases n
  {
    if n == 0 || s.env.cleaner == Finished || !Enabled(s, Onward(s)) then s else WindDown(Step(s, Onward(s)), n - 1)
  }

  lemma GoesOnward(s: State)
    requires Inv(s) && s.terminal && s.env.cleaner != Finished
    ensures Enabled(s, Onward(s))
    ensures var t := Step(s, Onward(s)); Inv(t) && t.terminal && Distance(t) < Distance(s)
  {
    CanGoOn(s);
    ComesNearer(s, Onward(s));
    StepKeeps(s, Onward(s));
  }

  /** Within four steps the worker is gone and the buffers are destroyed. */
  lemma {:induction false} EndIsReached(s: State, n: nat)
    requires Inv(s) && s.terminal && Distance(s) <= n
    ensures WindDown(s, n).env.cleaner == Finished && Distance(s) <= 4
    decreases n
  {
    if s.env.cleaner != Finished {
      GoesOnward(s);
      EndIsReached(Step(s, Onward(s)), n - 1);
    }
  }
}
