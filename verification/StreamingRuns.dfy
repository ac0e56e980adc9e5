/** What holds over whole runs of a request on the serial executor. */
module StreamingRuns {
  import opened Bytes
  import opened Counting
  import opened Runs
  import opened StreamingModel
  import opened StreamingSafety

  lemma RunKeepsInv(states: seq<State>, events: seq<Event>, i: nat)
    requires IsRun(states, events) && i < |states|
    ensures Inv(states[i])
  {
    var upload, ok :| states[0] == Initial(upload, ok);
    InitialIsGood(upload, ok);
    forall k | 0 <= k < i && Inv(states[k]) ensures Inv(states[k + 1]) {
      NextKeeps(states[k], events[k], states[k + 1]);
    }
    Preserved(states, Inv, i);
  }

  // ---------- destruction ----------

  /** What the observer's verdict says about each kind of call. */
  lemma {:induction false} JudgeCounts(upload: Upload, log: seq<Call>)
    requires Judge(upload, log) != Violation
    ensures Occurrences(log, DestroyProvider) ==
              if Judge(upload, log) in {NoProvider, NoRequest, NoCallback, Gone} && upload != NoUpload then 1 else 0
    ensures Occurrences(log, DestroyRequest) == if Judge(upload, log) in {NoRequest, NoCallback, Gone} then 1 else 0
    ensures Occurrences(log, DestroyCallback) == if Judge(upload, log) in {NoCallback, Gone} then 1 else 0
    ensures Occurrences(log, DestroyExecutor) == if Judge(upload, log) == Gone then 1 else 0
    ensures Judge(upload, log) == Fresh ==> log == []
    ensures Occurrences(log, Start(true)) + Occurrences(log, Start(false)) <= 1
  {
    if log != [] { JudgeCounts(upload, log[..|log| - 1]); }
  }

  /** Behind the cleanup task only tasks are queued that look at a flag and return. */
  lemma HarmlessBehindCleanup(s: State)
    requires Inv(s) && s.done && s.queue != []
    ensures var t := s.queue[0]; t.TStart? || t.TStartRead? || t.TCancel? || t.TInitFailed?
  {
    QueueSplit(s.queue);
    var t := s.queue[0];
    assert !IsCallback(t);
    assert KindOf(t) in Kinds(s.queue);
    assert Kinds(s.queue)[KUploadDone] == 0 && Kinds(s.queue)[KCleanup] == 0;
  }

  /** Once the done channel is closed the log is complete. */
  ghost predicate Silent(s: State, t: State) {
    s.done ==> t.done && t.env.log == s.env.log
  }

  lemma SilentTask(s: State, t: Task, ok: bool)
    requires s.terminal && (t.TStart? || t.TStartRead? || t.TCancel? || t.TInitFailed?)
    ensures Run(s, t, ok) == s
  {
  }

  lemma SilentRead(s: State, reader: nat, room: nat)
    requires room > 0
    ensures Silent(s, ReadPass(s, reader, room))
  {
  }

  lemma SilentPost(s: State, t: Task)
    ensures Silent(s, Post(s, t))
  {
  }

  /** Behind the cleanup task no queued task, and nothing else, makes a native call. */
  lemma NothingAfterCleanup(s: State, ev: Event, t: State)
    requires Inv(s) && Enabled(s, ev) && t == Step(s, ev)
    ensures Silent(s, t)
  {
    if s.done {
      match ev
      case EvRun(ok) =>
        HarmlessBehindCleanup(s);
        SilentTask(s.(queue := s.queue[1..]), s.queue[0], ok);
      case EvRead(reader, room) => SilentRead(s, reader, room);
      case EvPost(task) => SilentPost(s, task);
      case _ =>
    }
  }

  lemma GoneForGood(states: seq<State>, events: seq<Event>, i: nat, j: nat)
    requires IsRun(states, events) && i <= j < |states| && states[i].done
    ensures states[j].env.log == states[i].env.log && states[j].done
  {
    forall k | i <= k < j ensures Silent(states[k], states[k + 1]) {
      RunKeepsInv(states, events, k);
      NothingAfterCleanup(states[k], events[k], states[k + 1]);
    }
    Carried(states, Silent, i, j);
  }

  /**
   The native objects are each destroyed exactly once by the time the done channel is closed and
   not before, nothing is called after that, and the native library's rules are kept throughout.
   */
  lemma DestroyedExactlyOnce(states: seq<State>, events: seq<Event>, i: nat)
    requires IsRun(states, events) && i < |states|
    ensures var s := states[i]; var once := Bit(s.done);
            && Judge(s.env.upload, s.env.log) != Violation
            && Occurrences(s.env.log, DestroyProvider) == (if s.env.upload == NoUpload then 0 else once)
            && Occurrences(s.env.log, DestroyRequest) == once
            && Occurrences(s.env.log, DestroyCallback) == once
            && Occurrences(s.env.log, DestroyExecutor) == once
            && Occurrences(s.env.log, Start(true)) + Occurrences(s.env.log, Start(false)) <= 1
    ensures forall j :: i <= j < |states| && states[i].done ==> states[j].env.log == states[i].env.log
  {
    var s := states[i];
    RunKeepsInv(states, events, i);
    JudgeCounts(s.env.upload, s.env.log);
    forall j | i <= j < |states| && states[i].done ensures states[j].env.log == states[i].env.log {
      GoneForGood(states, events, i, j);
    }
  }

  /** When the request is destroyed nobody is using it any more. */
  lemma DestroyedWhenIdle(states: seq<State>, events: seq<Event>, i: nat)
    requires IsRun(states, events) && i < |states| && states[i].done
    ensures var s := states[i];
            && s.terminal && s.err.Some? && s.env.stopped
            && s.activeUploads == 0 && s.env.workers == 0 && !s.env.nativeRead
            && s.env.asked == s.env.sinks
            && forall k :: 0 <= k < |s.queue| ==>
                 s.queue[k].TStart? || s.queue[k].TStartRead? || s.queue[k].TCancel? || s.queue[k].TInitFailed?
  {
    var s := states[i];
    RunKeepsInv(states, events, i);
    KindsAre(s.queue, KUploadDone);
    KindsAre(s.queue, KCleanup);
    KindsAre(s.queue, KUploadRequest);
    assert forall k :: 0 <= k < |s.queue| ==> !IsCallback(s.queue[k]);
  }

  /** Upload requests are answered one for one, and the workers are all accounted for. */
  lemma UploadsAreAnswered(states: seq<State>, events: seq<Event>, i: nat)
    requires IsRun(states, events) && i < |states|
    ensures var s := states[i];
            && s.env.sinks <= s.env.asked <= s.env.sinks + 1
            && s.activeUploads >= 0 && s.env.workers <= s.activeUploads
            && (s.env.asked > s.env.sinks ==>
                || s.env.workers > 0
                || exists k :: 0 <= k < |s.queue| && (s.queue[k].TUploadRequest? || s.queue[k].TUploadDone?))
  {
    var s := states[i];
    RunKeepsInv(states, events, i);
    KindsAre(s.queue, KUploadDone);
    KindsAre(s.queue, KUploadRequest);
  }

  // ---------- the end is reached ----------

  /** How many more steps of the executor and the workers a request that is over can need. */
  function Distance(s: State): nat {
    2 * s.env.workers + |s.queue| + Bit(!s.cleanupQueued)
  }

  /** Once the request is over, each step of the executor or of a worker comes nearer to the end. */
  lemma ComesNearer(s: State, ev: Event)
    requires Inv(s) && s.terminal && Enabled(s, ev) && (ev.EvRun? || (ev.EvWorkerDone? && ev.released))
    ensures Step(s, ev).terminal && Distance(Step(s, ev)) < Distance(s)
  {
    if ev.EvRun? {
      QueueSplit(s.queue);
      var t := s.queue[0];
      assert !IsCallback(t);
      match t
      case TStart =>
      case TStartRead =>
      case TCancel(_) =>
      case TInitFailed =>
      case TUploadDone =>
      case TCleanup =>
    }
  }

  /** Until the request is destroyed, the executor has something to do, or a worker whose body has been closed. */
  lemma NeverStuckAtTheEnd(s: State)
    requires Inv(s) && s.terminal && !s.done
    ensures Enabled(s, EvRun(true)) || Enabled(s, EvWorkerDone(true))
  {
    KindsAre(s.queue, KCleanup);
  }

  /** The next step of the executor and the workers, whose bodies give nothing any more unless they are closed. */
  function Onward(s: State): State {
    if s.queue != [] then RunNext(s, true)
    else if Enabled(s, EvWorkerDone(true)) then WorkerDone(s)
    else s
  }

  function WindDown(s: State, n: nat): State
    decreases n
  {
    if n == 0 || s.done then s else WindDown(Onward(s), n - 1)
  }

  lemma OnwardComesNearer(s: State)
    requires Inv(s) && s.terminal && !s.done
    ensures Inv(Onward(s)) && Onward(s).terminal && Distance(Onward(s)) < Distance(s)
  {
    NeverStuckAtTheEnd(s);
    if s.queue != [] {
      ComesNearer(s, EvRun(true));
      RunNextKeeps(s, true);
    } else {
      ComesNearer(s, EvWorkerDone(true));
      WorkerDoneKeeps(s);
    }
  }

  /** They destroy everything within the given number of steps. */
  lemma {:induction false} EndIsReached(s: State, n: nat)
    requires Inv(s) && s.terminal && Distance(s) <= n
    ensures WindDown(s, n).done
    decreases n
  {
    if !s.done {
      OnwardComesNearer(s);
      EndIsReached(Onward(s), n - 1);
    }
  }

  // ---------- errors ----------

  ghost predicate LaterThan(s: State, t: State) {
    && (s.err.Some? ==> t.err == s.err)
    && (s.terminal ==> t.terminal)
    && (s.done ==> t.done)
    && s.env.delivered <= t.env.delivered
  }

  lemma FinishGoesOn(s: State, e: Error)
    ensures LaterThan(s, Finish(s, e))
  {
  }

  lemma OwnTaskGoesOn(s: State, t: Task, ok: bool)
    requires !IsCallback(t)
    ensures LaterThan(s, Run(s, t, ok))
  {
    match t
    case TStart => FinishGoesOn(Log(s, Start(false)), StartFailed);
    case TStartRead =>
    case TCancel(e) => FinishGoesOn(s, e);
    case TInitFailed => FinishGoesOn(s, InitFailed);
    case TUploadDone =>
    case TCleanup =>
  }

  lemma ResponseGoesOn(s: State, bad: Option<int>, ok: bool)
    ensures LaterThan(s, RunResponse(s, bad, ok))
  {
  }

  lemma RedirectGoesOn(s: State, d: Decision, ok: bool)
    ensures LaterThan(s, RunRedirect(s, d, ok))
  {
  }

  lemma PostGoesOn(s: State, t: Task)
    ensures LaterThan(s, Post(s, t))
  {
  }

  lemma ReadPassGoesOn(s: State, reader: nat, room: nat)
    requires room > 0
    ensures LaterThan(s, ReadPass(s, reader, room))
  {
  }

  lemma CallbackGoesOn(s: State, t: Task, ok: bool)
    requires IsCallback(t)
    ensures LaterThan(s, Run(s, t, ok))
  {
    match t
    case TRedirect(d) => RedirectGoesOn(s, d, ok);
    case TResponse(hooked, status) => ResponseGoesOn(s, RefusedStatus(hooked, status), ok);
    case TReadCompleted(_) =>
    case TUploadRequest =>
    case TUploadClose =>
    case TTerminal(e) => FinishGoesOn(Log(s, LastCallback), e);
  }

  lemma RunNextGoesOn(s: State, ok: bool)
    requires s.queue != []
    ensures LaterThan(s, RunNext(s, ok))
  {
    var s0, t := s.(queue := s.queue[1..]), s.queue[0];
    if IsCallback(t) { CallbackGoesOn(s0, t, ok); } else { OwnTaskGoesOn(s0, t, ok); }
  }

  lemma StepGoesOn(s: State, ev: Event, t: State)
    requires Enabled(s, ev) && t == Step(s, ev)
    ensures LaterThan(s, t)
  {
    match ev
    case EvRun(ok) => RunNextGoesOn(s, ok);
    case EvRead(reader, room) => ReadPassGoesOn(s, reader, room);
    case EvPost(task) => PostGoesOn(s, task);
    case _ =>
  }

  lemma LaterThanTransitive(s: State, t: State, u: State)
    requires LaterThan(s, t) && LaterThan(t, u)
    ensures LaterThan(s, u)
  {
  }

  /** The first error and the end are never taken back, nor is a delivered byte. */
  lemma RunGoesOn(states: seq<State>, events: seq<Event>, i: nat, j: nat)
    requires IsRun(states, events) && i <= j < |states|
    ensures LaterThan(states[i], states[j])
  {
    forall k | i <= k < j ensures LaterThan(states[k], states[k + 1]) {
      StepGoesOn(states[k], events[k], states[k + 1]);
    }
    forall s, t, u | LaterThan(s, t) && LaterThan(t, u) ensures LaterThan(s, u) {
      LaterThanTransitive(s, t, u);
    }
    Carried(states, LaterThan, i, j);
  }

  /** An error that is not the end has reached the native library, or is in the queue. */
  lemma ErrorsCancel(states: seq<State>, events: seq<Event>, i: nat)
    requires IsRun(states, events) && i < |states| && states[i].err.Some? && !states[i].terminal
    ensures states[i].env.cancelSent || exists k :: 0 <= k < |states[i].queue| && states[i].queue[k].TCancel?
  {
    RunKeepsInv(states, events, i);
    KindsAre(states[i].queue, KCancel);
  }

  // ---------- the response ----------

  /** Every byte the library completed is delivered, pending, or on its way, in that order. */
  lemma ResponseIsConserved(states: seq<State>, events: seq<Event>, i: nat)
    requires IsRun(states, events) && i < |states|
    ensures var s := states[i];
            && s.env.completed == s.env.delivered + s.pending + Arriving(s.queue)
            && (s.readPending ==> s.pending == [])
            && (s.env.nativeRead ==> s.readPending && Arriving(s.queue) == [])
            && (s.terminal ==> s.env.completed == s.env.delivered + s.pending)
  {
    var s := states[i];
    RunKeepsInv(states, events, i);
    if s.terminal { NothingArrives(s.queue); }
    if s.env.nativeRead {
      KindsAre(s.queue, KReadCompleted);
      NoCompletions(s.queue);
    }
  }

  lemma {:induction false} NoCompletions(q: seq<Task>)
    requires KReadCompleted !in Kinds(q)
    ensures Arriving(q) == []
  {
    if q != [] { NoCompletions(q[1..]); }
  }

  /** After a good response and until something goes wrong, the next bytes are on their way. */
  lemma NeverStalls(states: seq<State>, events: seq<Event>, i: nat)
    requires IsRun(states, events) && i < |states| && states[i].env.responded && states[i].err == None
    ensures var s := states[i];
            || s.pending != [] || s.env.nativeRead || s.env.terminalPosted
            || exists k :: 0 <= k < |s.queue| && (s.queue[k].TStartRead? || s.queue[k].TReadCompleted?)
  {
    RunKeepsInv(states, events, i);
    KindsAre(states[i].queue, KStartRead);
    KindsAre(states[i].queue, KReadCompleted);
  }
}
