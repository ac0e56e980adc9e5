/**
 What every step of a request keeps. The invariant sees the queue only through the number of
 tasks of each kind, the response bytes on their way, and whether any callback is queued.
 */
module StreamingSafety {
  import opened Bytes
  import opened Counting
  import opened StreamingModel

  predicate Flags(s: State) {
    && (s.terminal ==> s.err.Some? && s.env.stopped)
    && (s.done ==> s.cleanupQueued)
    && (s.cleanupQueued <==> s.terminal && s.activeUploads == 0)
    && (s.started ==> s.env.published)
    && (!s.started ==> s.env.asked == 0 && !s.env.responded && !s.env.terminalPosted)
    && (!s.env.responded ==> s.pending == [] && !s.readPending)
    && (s.env.cancelSent ==> s.err.Some? && s.env.stopped)
  }

  /** What is queued, together with what has been done, is exactly what has been asked for. */
  predicate Tallied(s: State, m: multiset<Kind>) {
    && m[KCleanup] + Bit(s.done) == Bit(s.cleanupQueued)
    && m[KTerminal] + Bit(s.terminal && s.started) == Bit(s.env.terminalPosted)
    && m[KReadCompleted] + Bit(s.env.nativeRead) <= Bit(s.readPending)
    && (if s.env.terminalPosted then !s.env.nativeRead
         else m[KReadCompleted] + Bit(s.env.nativeRead) == Bit(s.readPending))
    && m[KCancel] <= Bit(s.err.Some?)
  }

  predicate Uploads(s: State, m: multiset<Kind>) {
    && s.activeUploads == s.env.workers + m[KUploadDone]
    && s.env.asked == s.env.sinks + m[KUploadRequest] + s.activeUploads <= s.env.sinks + 1
    && (s.env.upload == NoUpload ==> s.env.asked == 0)
  }

  predicate Response(s: State, arriving: seq<byte>) {
    && (s.readPending ==> s.pending == [])
    && s.env.completed == s.env.delivered + s.pending + arriving
  }

  /** Neither a response nor a cancellation can get stuck. */
  predicate Progress(s: State, m: multiset<Kind>) {
    && (s.env.responded && s.err == None ==> s.readPending || s.pending != [] || m[KStartRead] > 0)
    && (m[KStartRead] > 0 ==> s.env.responded)
    && (s.err.Some? && !s.terminal ==> s.env.cancelSent || m[KCancel] > 0)
    && (m[KStart] > 0 ==> s.env.published)
    && (m[KInitFailed] > 0 ==> !s.env.published)
  }

  predicate CallsInOrder(s: State) {
    var p := Judge(s.env.upload, s.env.log);
    if s.done then p == Gone
    else if !s.terminal then p == if s.started then Live(s.env.responded, s.readPending) else Fresh
    else if s.started then p == Ended
    else p == Fresh || p == Ended
  }

  /** The request seen with the given queue contents. */
  predicate Good(s: State, m: multiset<Kind>, arriving: seq<byte>, quiet: bool) {
    && Flags(s) && Tallied(s, m) && Uploads(s, m) && Response(s, arriving) && Progress(s, m) && CallsInOrder(s)
    && (s.terminal || !s.started ==> quiet)
  }

  predicate Inv(s: State) {
    Good(s, Kinds(s.queue), Arriving(s.queue), CallbackFree(s.queue)) && TerminalIsLast(s.queue)
  }

  lemma InitialIsGood(upload: Upload, ok: bool)
    ensures Inv(Initial(upload, ok))
  {
    if !ok {
      assert [TInitFailed][1..] == [];
      assert Kinds([TInitFailed]) == multiset{KInitFailed};
    }
  }

  // ---------- one task ----------

  /** The cleanup task, if this step has submitted it. */
  function Due(before: State, after: State): multiset<Kind> {
    if after.cleanupQueued && !before.cleanupQueued then multiset{KCleanup} else multiset{}
  }

  lemma StartKeeps(s: State, ok: bool, m: multiset<Kind>, a: seq<byte>, quiet: bool)
    requires Good(s, m + multiset{KStart}, a, quiet)
    ensures Good(RunStart(s, ok), m + Due(s, RunStart(s, ok)), a, quiet)
  {
    if !(s.terminal || s.started) {
      JudgeOneMore(s.env.upload, s.env.log, Start(ok));
    }
  }

  lemma StartReadKeeps(s: State, ok: bool, m: multiset<Kind>, a: seq<byte>, quiet: bool)
    requires Good(s, m + multiset{KStartRead}, a, quiet)
    ensures Good(StartRead(s, ok), m, a, quiet)
  {
    if !(s.terminal || s.readPending || s.pending != [] || s.err.Some?) {
      JudgeOneMore(s.env.upload, s.env.log, Read(ok));
      if !ok { JudgeOneMore(s.env.upload, s.env.log + [Read(false)], Cancel); }
    }
  }

  lemma CancelKeeps(s: State, e: Error, m: multiset<Kind>, a: seq<byte>, quiet: bool)
    requires Good(s, m + multiset{KCancel}, a, quiet)
    ensures Good(RunCancel(s, e), m + Due(s, RunCancel(s, e)), a, quiet)
  {
    if !s.terminal && s.started {
      JudgeOneMore(s.env.upload, s.env.log, Cancel);
    }
  }

  lemma InitFailedKeeps(s: State, m: multiset<Kind>, a: seq<byte>, quiet: bool)
    requires Good(s, m + multiset{KInitFailed}, a, quiet)
    ensures Good(Finish(s, InitFailed), m + Due(s, Finish(s, InitFailed)), a, quiet)
  {
  }

  lemma UploadDoneKeeps(s: State, m: multiset<Kind>, a: seq<byte>, quiet: bool)
    requires Good(s, m + multiset{KUploadDone}, a, quiet)
    ensures Good(RunUploadDone(s), m + Due(s, RunUploadDone(s)), a, quiet)
  {
    JudgeOneMore(s.env.upload, s.env.log, Sink);
  }

  lemma CleanupKeeps(s: State, m: multiset<Kind>, a: seq<byte>, quiet: bool)
    requires Good(s, m + multiset{KCleanup}, a, quiet)
    ensures Good(RunCleanup(s), m, a, quiet)
  {
    JudgeTeardown(s.env.upload, s.env.log);
  }

  lemma RedirectKeeps(s: State, d: Decision, ok: bool, m: multiset<Kind>, a: seq<byte>, quiet: bool)
    requires Good(s, m + multiset{KResponse}, a, false)
    ensures Good(RunRedirect(s, d, ok), m, a, quiet)
  {
    if d == Follow { FollowKeeps(s, ok, m, a, quiet); } else { JudgeOneMore(s.env.upload, s.env.log, Cancel); }
  }

  lemma FollowKeeps(s: State, ok: bool, m: multiset<Kind>, a: seq<byte>, quiet: bool)
    requires Good(s, m + multiset{KResponse}, a, false)
    ensures Good(RunRedirect(s, Follow, ok), m, a, quiet)
  {
    JudgeOneMore(s.env.upload, s.env.log, FollowRedirect);
    JudgeOneMore(s.env.upload, s.env.log + [FollowRedirect], Cancel);
  }

  lemma BadResponseKeeps(s: State, e: int, m: multiset<Kind>, a: seq<byte>, quiet: bool)
    requires Good(s, m + multiset{KResponse}, a, false)
    ensures Good(RunResponse(s, Some(e), true), m, a, quiet) && Good(RunResponse(s, Some(e), false), m, a, quiet)
  {
    JudgeOneMore(s.env.upload, s.env.log, Responded);
    JudgeOneMore(s.env.upload, s.env.log + [Responded], Cancel);
  }

  lemma GoodResponseKeeps(s: State, ok: bool, m: multiset<Kind>, a: seq<byte>, quiet: bool)
    requires Good(s, m + multiset{KResponse}, a, false)
    ensures Good(RunResponse(s, None, ok), m, a, quiet)
  {
    var log := s.env.log + [Responded];
    JudgeOneMore(s.env.upload, s.env.log, Responded);
    JudgeOneMore(s.env.upload, log, Read(ok));
    if !ok { JudgeOneMore(s.env.upload, log + [Read(false)], Cancel); }
    assert Flags(RunResponse(s, None, ok)) && Uploads(RunResponse(s, None, ok), m);
  }

  lemma ResponseKeeps(s: State, bad: Option<int>, ok: bool, m: multiset<Kind>, a: seq<byte>, quiet: bool)
    requires Good(s, m + multiset{KResponse}, a, false)
    ensures Good(RunResponse(s, bad, ok), m, a, quiet)
  {
    if bad.Some? { BadResponseKeeps(s, bad.value, m, a, quiet); } else { GoodResponseKeeps(s, ok, m, a, quiet); }
  }

  lemma ReadCompletedKeeps(s: State, data: seq<byte>, m: multiset<Kind>, a: seq<byte>, quiet: bool)
    requires Good(s, m + multiset{KReadCompleted}, data + a, false)
    ensures Good(RunReadCompleted(s, data), if data == [] then m + multiset{KStartRead} else m, a, quiet)
  {
    JudgeOneMore(s.env.upload, s.env.log, ReadDone);
    assert s.env.delivered + s.pending + (data + a) == s.env.delivered + data + a;
  }

  lemma TerminalKeeps(s: State, e: Error, m: multiset<Kind>, a: seq<byte>)
    requires Good(s, m + multiset{KTerminal}, a, false)
    ensures Good(RunTerminal(s, e), m + Due(s, RunTerminal(s, e)), a, true)
    ensures RunTerminal(s, e).terminal && RunTerminal(s, e).err == (if s.err.Some? then s.err else Some(e))
  {
    JudgeOneMore(s.env.upload, s.env.log, LastCallback);
  }

  lemma UploadRequestKeeps(s: State, m: multiset<Kind>, a: seq<byte>, quiet: bool)
    requires Good(s, m + multiset{KUploadRequest}, a, false)
    ensures Good(RunUploadRequest(s), m, a, quiet)
  {
    if s.env.upload != Reader { JudgeOneMore(s.env.upload, s.env.log, Sink); }
  }

  lemma UploadCloseKeeps(s: State, m: multiset<Kind>, a: seq<byte>, quiet: bool)
    requires Good(s, m + multiset{KResponse}, a, false)
    ensures Good(s.(env := s.env.(stopped := true)), m, a, quiet)
  {
  }

  /** Running a task appends at most the cleanup task. */
  predicate Appends(before: State, after: State) {
    if after.cleanupQueued && !before.cleanupQueued then after.queue == before.queue + [TCleanup]
    else after.queue == before.queue
  }

  lemma FinishAppends(s: State, e: Error)
    ensures Appends(s, Finish(s, e))
  {
  }

  lemma StartReadAppends(s: State, ok: bool)
    ensures Appends(s, StartRead(s, ok)) && Due(s, StartRead(s, ok)) == multiset{}
  {
  }

  lemma OwnTaskAppends(s: State, t: Task, ok: bool)
    requires !IsCallback(t)
    ensures Appends(s, Run(s, t, ok))
  {
    match t
    case TStart => if !s.terminal && !s.started && !ok { FinishAppends(Log(s, Start(false)), StartFailed); }
    case TStartRead => StartReadAppends(s, ok);
    case TCancel(e) => FinishAppends(s, e);
    case TInitFailed => FinishAppends(s, InitFailed);
    case _ =>
  }

  lemma RedirectAppends(s: State, d: Decision, ok: bool)
    ensures Appends(s, RunRedirect(s, d, ok)) && Due(s, RunRedirect(s, d, ok)) == multiset{}
  {
  }

  lemma ResponseAppends(s: State, bad: Option<int>, ok: bool)
    ensures Appends(s, RunResponse(s, bad, ok)) && Due(s, RunResponse(s, bad, ok)) == multiset{}
  {
  }

  lemma UploadRequestAppends(s: State)
    ensures Appends(s, RunUploadRequest(s)) && Due(s, RunUploadRequest(s)) == multiset{}
  {
  }

  lemma CallbackAppends(s: State, t: Task, ok: bool)
    requires IsCallback(t) && !t.TReadCompleted?
    ensures Appends(s, Run(s, t, ok))
  {
    match t
    case TRedirect(d) => RedirectAppends(s, d, ok);
    case TResponse(hooked, status) => ResponseAppends(s, RefusedStatus(hooked, status), ok);
    case TUploadRequest => UploadRequestAppends(s);
    case TUploadClose =>
    case TTerminal(e) => FinishAppends(Log(s, LastCallback), e);
  }

  lemma OwnTaskKeeps(s: State, t: Task, ok: bool, m: multiset<Kind>, a: seq<byte>, quiet: bool)
    requires !IsCallback(t) && Good(s, m + multiset{KindOf(t)}, a, quiet)
    ensures Good(Run(s, t, ok), m + Due(s, Run(s, t, ok)), a, quiet)
  {
    match t
    case TStart => StartKeeps(s, ok, m, a, quiet);
    case TStartRead =>
      StartReadKeeps(s, ok, m, a, quiet);
      StartReadAppends(s, ok);
    case TCancel(e) => CancelKeeps(s, e, m, a, quiet);
    case TInitFailed => InitFailedKeeps(s, m, a, quiet);
    case TUploadDone => UploadDoneKeeps(s, m, a, quiet);
    case TCleanup => CleanupKeeps(s, m, a, quiet);
  }

  lemma RedirectTaskKeeps(s: State, d: Decision, ok: bool, m: multiset<Kind>, a: seq<byte>, quiet: bool)
    requires Good(s, m + multiset{KResponse}, a, false)
    ensures Good(RunRedirect(s, d, ok), m + Due(s, RunRedirect(s, d, ok)), a, quiet)
  {
    RedirectKeeps(s, d, ok, m, a, quiet);
    RedirectAppends(s, d, ok);
    assert m + multiset{} == m;
  }

  lemma ResponseTaskKeeps(s: State, bad: Option<int>, ok: bool, m: multiset<Kind>, a: seq<byte>, quiet: bool)
    requires Good(s, m + multiset{KResponse}, a, false)
    ensures Good(RunResponse(s, bad, ok), m + Due(s, RunResponse(s, bad, ok)), a, quiet)
  {
    ResponseKeeps(s, bad, ok, m, a, quiet);
    ResponseAppends(s, bad, ok);
    assert m + multiset{} == m;
  }

  lemma AnswerKeeps(s: State, t: Task, ok: bool, m: multiset<Kind>, a: seq<byte>, quiet: bool)
    requires t.TRedirect? || t.TResponse?
    requires Good(s, m + multiset{KindOf(t)}, a, false)
    ensures Good(Run(s, t, ok), m + Due(s, Run(s, t, ok)), a, quiet)
  {
    match t
    case TRedirect(d) => RedirectTaskKeeps(s, d, ok, m, a, quiet);
    case TResponse(hooked, status) => ResponseTaskKeeps(s, RefusedStatus(hooked, status), ok, m, a, quiet);
  }

  lemma UploadTaskKeeps(s: State, t: Task, ok: bool, m: multiset<Kind>, a: seq<byte>, quiet: bool)
    requires t.TUploadRequest? || t.TUploadClose?
    requires Good(s, m + multiset{KindOf(t)}, a, false)
    ensures Good(Run(s, t, ok), m + Due(s, Run(s, t, ok)), a, quiet)
  {
    match t
    case TUploadRequest =>
      UploadRequestKeeps(s, m, a, quiet);
      UploadRequestAppends(s);
    case TUploadClose => UploadCloseKeeps(s, m, a, quiet);
  }

  lemma CallbackKeeps(s: State, t: Task, ok: bool, m: multiset<Kind>, a: seq<byte>, quiet: bool)
    requires IsCallback(t) && !t.TReadCompleted? && (t.TTerminal? ==> quiet)
    requires Good(s, m + multiset{KindOf(t)}, a, false)
    ensures Good(Run(s, t, ok), m + Due(s, Run(s, t, ok)), a, quiet)
  {
    if t.TTerminal? {
      TerminalKeeps(s, t.end, m, a);
    } else if t.TRedirect? || t.TResponse? {
      AnswerKeeps(s, t, ok, m, a, quiet);
    } else {
      UploadTaskKeeps(s, t, ok, m, a, quiet);
    }
  }

  // ---------- the queue ----------

  lemma QuietSnoc(q: seq<Task>, t: Task)
    ensures CallbackFree(q + [t]) == (CallbackFree(q) && !IsCallback(t))
  {
    assert forall i :: 0 <= i < |q| ==> (q + [t])[i] == q[i];
    assert (q + [t])[|q|] == t;
  }

  lemma TerminalIsLastSnoc(q: seq<Task>, t: Task)
    requires TerminalIsLast(q) && (IsCallback(t) ==> KTerminal !in Kinds(q))
    ensures TerminalIsLast(q + [t])
  {
    KindsAre(q, KTerminal);
  }

  /** A task of the request's own makes no difference but for its kind. */
  lemma SubmitKeeps(s: State, q: seq<Task>, t: Task)
    requires Good(s, Kinds(q) + multiset{KindOf(t)}, Arriving(q), CallbackFree(q)) && TerminalIsLast(q)
    requires !IsCallback(t)
    ensures Good(s, Kinds(q + [t]), Arriving(q + [t]), CallbackFree(q + [t])) && TerminalIsLast(q + [t])
  {
    KindsSnoc(q, t);
    ArrivingSnoc(q, t);
    QuietSnoc(q, t);
    TerminalIsLastSnoc(q, t);
  }

  lemma QuietSplit(q: seq<Task>)
    requires q != []
    ensures CallbackFree(q) == (CallbackFree(q[1..]) && !IsCallback(q[0]))
  {
    assert forall i :: 1 <= i < |q| ==> q[i] == q[1..][i - 1];
  }

  lemma TerminalIsLastSplit(q: seq<Task>)
    requires q != [] && TerminalIsLast(q)
    ensures TerminalIsLast(q[1..]) && (q[0].TTerminal? ==> CallbackFree(q[1..]))
  {
    assert forall i :: 1 <= i < |q| ==> q[i] == q[1..][i - 1];
  }

  lemma QueueSplit(q: seq<Task>)
    requires q != []
    ensures Kinds(q) == Kinds(q[1..]) + multiset{KindOf(q[0])}
    ensures Arriving(q) == if q[0].TReadCompleted? then q[0].data + Arriving(q[1..]) else Arriving(q[1..])
    ensures CallbackFree(q) == (CallbackFree(q[1..]) && !IsCallback(q[0]))
    ensures TerminalIsLast(q) ==> TerminalIsLast(q[1..]) && (q[0].TTerminal? ==> CallbackFree(q[1..]))
  {
    QuietSplit(q);
    if TerminalIsLast(q) { TerminalIsLastSplit(q); }
  }

  // ---------- every step ----------

  lemma PopKeeps(s: State)
    requires Inv(s) && s.queue != []
    ensures var t, q := s.queue[0], s.queue[1..];
            && Good(s.(queue := q), Kinds(q) + multiset{KindOf(t)},
                    if t.TReadCompleted? then t.data + Arriving(q) else Arriving(q),
                    CallbackFree(q) && !IsCallback(t))
            && TerminalIsLast(q) && (t.TTerminal? ==> CallbackFree(q))
  {
    QueueSplit(s.queue);
  }

  lemma CompletionKeeps(s: State, data: seq<byte>)
    requires Good(s, Kinds(s.queue) + multiset{KReadCompleted}, data + Arriving(s.queue), false)
    requires TerminalIsLast(s.queue)
    ensures Inv(RunReadCompleted(s, data))
  {
    ReadCompletedKeeps(s, data, Kinds(s.queue), Arriving(s.queue), CallbackFree(s.queue));
    if data == [] { SubmitKeeps(RunReadCompleted(s, data), s.queue, TStartRead); }
  }

  lemma OtherTaskKeeps(s: State, t: Task, ok: bool)
    requires !t.TReadCompleted? && TerminalIsLast(s.queue) && (t.TTerminal? ==> CallbackFree(s.queue))
    requires Good(s, Kinds(s.queue) + multiset{KindOf(t)}, Arriving(s.queue), CallbackFree(s.queue) && !IsCallback(t))
    ensures Inv(Run(s, t, ok))
  {
    if IsCallback(t) {
      CallbackKeeps(s, t, ok, Kinds(s.queue), Arriving(s.queue), CallbackFree(s.queue));
      CallbackAppends(s, t, ok);
    } else {
      OwnTaskKeeps(s, t, ok, Kinds(s.queue), Arriving(s.queue), CallbackFree(s.queue));
      OwnTaskAppends(s, t, ok);
    }
    Resubmitted(s, Run(s, t, ok));
  }

  lemma RunNextKeeps(s: State, ok: bool)
    requires Inv(s) && s.queue != []
    ensures Inv(RunNext(s, ok))
  {
    PopKeeps(s);
    var t, s0 := s.queue[0], s.(queue := s.queue[1..]);
    if t.TReadCompleted? {
      CompletionKeeps(s0, t.data);
    } else {
      OtherTaskKeeps(s0, t, ok);
    }
  }

  lemma Resubmitted(before: State, after: State)
    requires Appends(before, after) && TerminalIsLast(before.queue)
    requires Good(after, Kinds(before.queue) + Due(before, after), Arriving(before.queue), CallbackFree(before.queue))
    ensures Inv(after)
  {
    if after.cleanupQueued && !before.cleanupQueued {
      SubmitKeeps(after, before.queue, TCleanup);
    } else {
      assert Kinds(before.queue) + Due(before, after) == Kinds(before.queue);
    }
  }

  lemma CancelWithErrorKeeps(s: State, e: Error)
    requires Inv(s) && s.env.published
    ensures Inv(CancelWithError(s, e))
  {
    if s.err == None { SubmitKeeps(CancelWithError(s, e), s.queue, TCancel(e)); }
  }

  lemma ReadPassKeeps(s: State, reader: nat, room: nat)
    requires Inv(s) && room > 0
    ensures Inv(ReadPass(s, reader, room))
  {
    if s.pending != [] {
      var n := Min(room, |s.pending|);
      assert s.env.delivered + s.pending == s.env.delivered + s.pending[..n] + s.pending[n..];
      var s1 := s.(pending := s.pending[n..], env := s.env.(delivered := s.env.delivered + s.pending[..n]));
      if s1.pending == [] && s1.err == None {
        SubmitKeeps(Submit(s1, TStartRead), s.queue, TStartRead);
      }
    }
  }

  lemma PostedIsGood(s: State, t: Task, m: multiset<Kind>, a: seq<byte>, quiet: bool)
    requires Good(s, m, a, quiet) && MayPost(s, t)
    ensures Good(Post(s, t), m + multiset{KindOf(t)}, if t.TReadCompleted? then a + t.data else a, false)
  {
    match t
    case TReadCompleted(data) =>
      assert s.env.completed + data == s.env.delivered + s.pending + (a + data);
    case TUploadRequest =>
    case TTerminal(_) =>
    case _ =>
  }

  lemma PostKeeps(s: State, t: Task)
    requires Inv(s) && MayPost(s, t)
    ensures Inv(Post(s, t))
  {
    PostedIsGood(s, t, Kinds(s.queue), Arriving(s.queue), CallbackFree(s.queue));
    KindsSnoc(s.queue, t);
    ArrivingSnoc(s.queue, t);
    QuietSnoc(s.queue, t);
    TerminalIsLastSnoc(s.queue, t);
  }

  lemma WorkerDoneKeeps(s: State)
    requires Inv(s) && s.env.workers > 0
    ensures Inv(WorkerDone(s))
  {
    SubmitKeeps(WorkerDone(s), s.queue, TUploadDone);
  }

  /** What the application does. */
  predicate Asked(ev: Event) {
    ev.EvStart? || ev.EvCancel? || ev.EvRead?
  }

  lemma AskedKeeps(s: State, ev: Event)
    requires Inv(s) && Enabled(s, ev) && Asked(ev)
    ensures Inv(Step(s, ev))
  {
    match ev
    case EvStart => SubmitKeeps(Submit(s, TStart), s.queue, TStart);
    case EvCancel(e) => CancelWithErrorKeeps(s, e);
    case EvRead(reader, room) => ReadPassKeeps(s, reader, room);
  }

  lemma LeaveKeeps(s: State, reader: nat)
    requires Inv(s)
    ensures Inv(Leave(s, reader)) && Inv(Leave(s, reader).(token := false))
  {
  }

  lemma StepKeeps(s: State, ev: Event)
    requires Inv(s) && Enabled(s, ev)
    ensures Inv(Step(s, ev))
  {
    if Asked(ev) {
      AskedKeeps(s, ev);
    } else {
      match ev
      case EvRun(ok) => RunNextKeeps(s, ok);
      case EvPost(t) => PostKeeps(s, t);
      case EvWorkerDone(_) => WorkerDoneKeeps(s);
      case EvToken(reader) => LeaveKeeps(s, reader);
      case EvSeesDone(reader) => LeaveKeeps(s, reader);
      case EvGivesUp(reader) => LeaveKeeps(s, reader);
    }
  }

  lemma NextKeeps(s: State, ev: Event, t: State)
    requires Inv(s) && Enabled(s, ev) && t == Step(s, ev)
    ensures Inv(t)
  {
    StepKeeps(s, ev);
  }
}
