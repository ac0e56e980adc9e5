/**
 The life of one request on the serial executor, as a state machine. A step is one task of the
 executor, one critical section of the request's mutex, or one decision of the native library or
 of an upload worker. The native library may post any callback its contract allows at any time:
 none before a successful start, none behind the terminal one, one completion for each read, and
 upload requests one after the other.
 */
module StreamingModel {
  import opened Bytes

  datatype Error =
    | Canceled | Eof | InitFailed | StartFailed | ReadFailed | RedirectFailed
    | HttpStatus(code: int) | HttpRedirect(code: int) | Other(code: int)

  datatype Upload = NoUpload | Fixed | Reader

  /** A redirect is followed or declined by the request's own hook; without one it is not expected. */
  datatype Decision = Follow | Decline | Unexpected(status: int)

  datatype Task =
    // submitted by the application and by the request itself
    | TStart | TStartRead | TCancel(e: Error) | TInitFailed | TUploadDone | TCleanup
    // posted by the native library
    | TRedirect(decision: Decision) | TResponse(hooked: bool, code: int) | TReadCompleted(data: seq<byte>)
    | TUploadRequest | TUploadClose | TTerminal(end: Error)

  datatype Kind =
    | KStart | KStartRead | KCancel | KInitFailed | KUploadDone | KCleanup
    | KResponse | KReadCompleted | KUploadRequest | KTerminal

  function KindOf(t: Task): Kind {
    match t
    case TStart => KStart
    case TStartRead => KStartRead
    case TCancel(_) => KCancel
    case TInitFailed => KInitFailed
    case TUploadDone => KUploadDone
    case TCleanup => KCleanup
    case TReadCompleted(_) => KReadCompleted
    case TUploadRequest => KUploadRequest
    case TTerminal(_) => KTerminal
    case _ => KResponse
  }

  predicate IsCallback(t: Task) {
    t.TRedirect? || t.TResponse? || t.TReadCompleted? || t.TUploadRequest? || t.TUploadClose? || t.TTerminal?
  }

  /** What passes between the request and the native library, in order. */
  datatype Call =
    | Start(accepted: bool) | FollowRedirect | Read(accepted: bool) | Cancel | Sink
    | Responded | ReadDone | LastCallback
    | DestroyProvider | DestroyRequest | DestroyCallback | DestroyExecutor

  /** What the request object itself does not hold. */
  datatype Env = Env(
    upload: Upload, published: bool,
    terminalPosted: bool, nativeRead: bool, workers: nat, asked: nat, sinks: nat,
    responded: bool, stopped: bool, cancelSent: bool,
    waiting: set<nat>,
    log: seq<Call>, completed: seq<byte>, delivered: seq<byte>)

  datatype State = State(
    started: bool, terminal: bool, readPending: bool, activeUploads: int, cleanupQueued: bool,
    err: Option<Error>, pending: seq<byte>,
    token: bool,                // the read channel holds its one token
    done: bool,
    queue: seq<Task>,
    env: Env)

  /** A new request; if its initialization fails it only has to be taken down again. */
  function Initial(upload: Upload, ok: bool): State {
    State(false, false, false, 0, false, None, [], false, false, if ok then [] else [TInitFailed],
      Env(upload, ok, false, false, 0, 0, 0, false, false, false, {}, [], [], []))
  }

  // ---------- operations ----------

  function Submit(s: State, t: Task): State {
    s.(queue := s.queue + [t])
  }

  function Log(s: State, c: Call): State {
    s.(env := s.env.(log := s.env.log + [c]))
  }

  function Cleanup(s: State): State {
    if !s.terminal || s.activeUploads != 0 || s.cleanupQueued then s
    else s.(cleanupQueued := true, queue := s.queue + [TCleanup])
  }

  function Finish(s: State, e: Error): State {
    if s.terminal then s
    else Cleanup(s.(terminal := true, err := FirstError(s.err, e), env := s.env.(stopped := true)))
  }

  function Fail(s: State, e: Error): State {
    s.(err := FirstError(s.err, e), env := s.env.(stopped := true, cancelSent := true, log := s.env.log + [Cancel]))
  }

  function StartRead(s: State, ok: bool): State {
    if s.terminal || s.readPending || s.pending != [] || s.err.Some? then s
    else if ok then
      s.(readPending := true, env := s.env.(nativeRead := !s.env.terminalPosted, log := s.env.log + [Read(true)]))
    else Fail(Log(s, Read(false)), ReadFailed)
  }

  function CancelWithError(s: State, e: Error): State {
    if s.err.Some? then s else s.(err := Some(e), queue := s.queue + [TCancel(e)])
  }

  /** One pass of a reader with room for `room` bytes: it takes bytes, fails, or waits. */
  function ReadPass(s: State, reader: nat, room: nat): State
    requires room > 0
  {
    if s.pending != [] then
      var n := Min(room, |s.pending|);
      var s := s.(pending := s.pending[n..], env := s.env.(delivered := s.env.delivered + s.pending[..n]));
      if s.pending == [] && s.err == None then Submit(s, TStartRead) else s
    else if s.err.Some? then s
    else s.(env := s.env.(waiting := s.env.waiting + {reader}))
  }

  // ---------- tasks ----------

  function RunStart(s: State, ok: bool): State {
    if s.terminal || s.started then s
    else if ok then s.(started := true, env := s.env.(log := s.env.log + [Start(true)]))
    else Finish(Log(s, Start(false)), StartFailed)
  }

  function RunCancel(s: State, e: Error): State {
    if s.terminal then s
    else if s.started then s.(env := s.env.(stopped := true, cancelSent := true, log := s.env.log + [Cancel]))
    else Finish(s, e)
  }

  function RunRedirect(s: State, d: Decision, ok: bool): State {
    match d
    case Follow => if ok then Log(s, FollowRedirect) else Fail(Log(s, FollowRedirect), RedirectFailed)
    case Decline => Fail(s, Eof)
    case Unexpected(code) => Fail(s, HttpRedirect(code))
  }

  /** A status that the request does not accept; one with a hook for responses accepts any. */
  function RefusedStatus(hooked: bool, status: int): Option<int> {
    if hooked || status == 200 then None else Some(status)
  }

  function RunResponse(s: State, bad: Option<int>, ok: bool): State {
    var s := s.(env := s.env.(responded := true, log := s.env.log + [Responded]));
    if bad.Some? then Fail(s, HttpStatus(bad.value)) else StartRead(s, ok)
  }

  function RunReadCompleted(s: State, data: seq<byte>): State {
    s.(readPending := false, pending := data, token := true, env := s.env.(log := s.env.log + [ReadDone]),
       queue := if data == [] then s.queue + [TStartRead] else s.queue)
  }

  function RunTerminal(s: State, e: Error): State {
    Finish(Log(s, LastCallback), e)
  }

  function RunUploadRequest(s: State): State {
    if s.env.upload == Reader then s.(activeUploads := s.activeUploads + 1, env := s.env.(workers := s.env.workers + 1))
    else s.(env := s.env.(sinks := s.env.sinks + 1, log := s.env.log + [Sink]))
  }

  function RunUploadDone(s: State): State {
    Cleanup(s.(activeUploads := s.activeUploads - 1,
        env := s.env.(sinks := s.env.sinks + 1, log := s.env.log + [Sink])))
  }

  function Teardown(upload: Upload): seq<Call> {
    (if upload == NoUpload then [] else [DestroyProvider]) + [DestroyRequest, DestroyCallback, DestroyExecutor]
  }

  function RunCleanup(s: State): State {
    s.(done := true, env := s.env.(log := s.env.log + Teardown(s.env.upload)))
  }

  function Run(s: State, t: Task, ok: bool): State {
    match t
    case TStart => RunStart(s, ok)
    case TStartRead => StartRead(s, ok)
    case TCancel(e) => RunCancel(s, e)
    case TInitFailed => Finish(s, InitFailed)
    case TUploadDone => RunUploadDone(s)
    case TCleanup => RunCleanup(s)
    case TRedirect(d) => RunRedirect(s, d, ok)
    case TResponse(hooked, status) => RunResponse(s, RefusedStatus(hooked, status), ok)
    case TReadCompleted(data) => RunReadCompleted(s, data)
    case TUploadRequest => RunUploadRequest(s)
    case TUploadClose => s.(env := s.env.(stopped := true))
    case TTerminal(e) => RunTerminal(s, e)
  }

  // ---------- events ----------

  datatype Event =
    | EvRun(ok: bool)           // the oldest task runs; `ok` is what the native library answers
    | EvStart
    | EvCancel(e: Error)
    | EvRead(reader: nat, room: nat)
    | EvToken(reader: nat)      // a waiting reader receives the token
    | EvSeesDone(reader: nat)
    | EvGivesUp(reader: nat)
    | EvPost(task: Task)        // the native library posts a callback
    | EvWorkerDone(released: bool)  // an upload worker reports; `released` says that its body had to be closed

  predicate MayPost(s: State, t: Task) {
    && IsCallback(t) && s.started && !s.env.terminalPosted
    && (t.TReadCompleted? ==> s.env.nativeRead)
    && (t.TUploadRequest? ==> s.env.upload != NoUpload && s.env.asked == s.env.sinks)
  }

  function Post(s: State, t: Task): State {
    s.(queue := s.queue + [t],
       env := match t
              case TReadCompleted(data) => s.env.(nativeRead := false, completed := s.env.completed + data)
              case TUploadRequest => s.env.(asked := s.env.asked + 1)
              case TTerminal(_) => s.env.(terminalPosted := true, nativeRead := false)
              case _ => s.env)
  }

  predicate Enabled(s: State, ev: Event) {
    match ev
    case EvRun(_) => s.queue != []
    case EvStart => s.env.published
    case EvCancel(_) => s.env.published
    case EvRead(reader, room) => s.env.published && room > 0 && reader !in s.env.waiting
    case EvToken(reader) => reader in s.env.waiting && s.token
    case EvSeesDone(reader) => reader in s.env.waiting && s.done
    case EvGivesUp(reader) => reader in s.env.waiting
    case EvPost(t) => MayPost(s, t)
    case EvWorkerDone(released) => s.env.workers > 0 && (released ==> s.env.stopped)
  }

  function RunNext(s: State, ok: bool): State
    requires s.queue != []
  {
    Run(s.(queue := s.queue[1..]), s.queue[0], ok)
  }

  function WorkerDone(s: State): State
    requires s.env.workers > 0
  {
    s.(queue := s.queue + [TUploadDone], env := s.env.(workers := s.env.workers - 1))
  }

  function Leave(s: State, reader: nat): State {
    s.(env := s.env.(waiting := s.env.waiting - {reader}))
  }

  function Step(s: State, ev: Event): State
    requires Enabled(s, ev)
  {
    match ev
    case EvRun(ok) => RunNext(s, ok)
    case EvStart => Submit(s, TStart)
    case EvCancel(e) => CancelWithError(s, e)
    case EvRead(reader, room) => ReadPass(s, reader, room)
    case EvToken(reader) => Leave(s, reader).(token := false)
    case EvSeesDone(reader) => Leave(s, reader)
    case EvGivesUp(reader) => Leave(s, reader)
    case EvPost(t) => Post(s, t)
    case EvWorkerDone(_) => WorkerDone(s)
  }

  ghost predicate IsRun(states: seq<State>, events: seq<Event>) {
    && |states| == |events| + 1
    && (exists upload, ok :: states[0] == Initial(upload, ok))
    && forall i :: 0 <= i < |events| ==> Enabled(states[i], events[i]) && states[i + 1] == Step(states[i], events[i])
  }

  // ---------- the contract of the native library ----------

  /** An observer that sees only the log and knows what may follow what. */
  datatype Phase =
    | Fresh | Live(responded: bool, reading: bool) | Ended
    | NoProvider | NoRequest | NoCallback | Gone | Violation

  function Observe(upload: Upload, p: Phase, c: Call): Phase {
    match p
    case Fresh => if c == Start(true) then Live(false, false) else if c == Start(false) then Ended
        else Destroying(upload, c)
    case Live(responded, reading) => Using(upload, p, c)
    case Ended => if c == Sink && upload != NoUpload then Ended else Destroying(upload, c)
    case NoProvider => if c == DestroyRequest then NoRequest else Violation
    case NoRequest => if c == DestroyCallback then NoCallback else Violation
    case NoCallback => if c == DestroyExecutor then Gone else Violation
    case _ => Violation
  }

  /** A request that has started: no read before the response, nor while another is outstanding. */
  function Using(upload: Upload, p: Phase, c: Call): Phase
    requires p.Live?
  {
    match c
    case FollowRedirect => p
    case Cancel => p
    case Sink => if upload == NoUpload then Violation else p
    case Responded => Live(true, p.reading)
    case Read(accepted) => if p.responded && !p.reading then Live(true, accepted) else Violation
    case ReadDone => if p.reading then Live(p.responded, false) else Violation
    case LastCallback => Ended
    case _ => Violation
  }

  function Destroying(upload: Upload, c: Call): Phase {
    if upload == NoUpload then (if c == DestroyRequest then NoRequest else Violation)
    else if c == DestroyProvider then NoProvider
    else Violation
  }

  function Judge(upload: Upload, log: seq<Call>): Phase {
    if log == [] then Fresh else Observe(upload, Judge(upload, log[..|log| - 1]), log[|log| - 1])
  }

  lemma JudgeOneMore(upload: Upload, log: seq<Call>, c: Call)
    ensures Judge(upload, log + [c]) == Observe(upload, Judge(upload, log), c)
  {
    assert (log + [c])[..|log|] == log;
  }

  lemma JudgeDestroys(upload: Upload, log: seq<Call>)
    requires Judge(upload, log + [DestroyRequest]) == NoRequest
    ensures Judge(upload, log + [DestroyRequest, DestroyCallback, DestroyExecutor]) == Gone
  {
    var log1 := log + [DestroyRequest];
    var log2 := log1 + [DestroyCallback];
    JudgeOneMore(upload, log1, DestroyCallback);
    JudgeOneMore(upload, log2, DestroyExecutor);
    assert log + [DestroyRequest, DestroyCallback, DestroyExecutor] == log2 + [DestroyExecutor];
  }

  lemma JudgeTeardown(upload: Upload, log: seq<Call>)
    requires Judge(upload, log) in {Fresh, Ended}
    ensures Judge(upload, log + Teardown(upload)) == Gone
  {
    if upload == NoUpload {
      JudgeOneMore(upload, log, DestroyRequest);
      JudgeDestroys(upload, log);
      assert log + Teardown(upload) == log + [DestroyRequest, DestroyCallback, DestroyExecutor];
    } else {
      var log0 := log + [DestroyProvider];
      JudgeOneMore(upload, log, DestroyProvider);
      JudgeOneMore(upload, log0, DestroyRequest);
      JudgeDestroys(upload, log0);
      assert log + Teardown(upload) == log0 + [DestroyRequest, DestroyCallback, DestroyExecutor];
    }
  }

  // ---------- the queue ----------

  function Kinds(q: seq<Task>): multiset<Kind> {
    if q == [] then multiset{} else multiset{KindOf(q[0])} + Kinds(q[1..])
  }

  /** The response bytes that are still on their way to the request. */
  function Arriving(q: seq<Task>): seq<byte> {
    if q == [] then [] else (if q[0].TReadCompleted? then q[0].data else []) + Arriving(q[1..])
  }

  predicate CallbackFree(q: seq<Task>) {
    forall i :: 0 <= i < |q| ==> !IsCallback(q[i])
  }

  /** No callback is queued behind the terminal one. */
  predicate TerminalIsLast(q: seq<Task>) {
    forall i, j :: 0 <= i < j < |q| && q[i].TTerminal? ==> !IsCallback(q[j])
  }

  lemma {:induction false} KindsSnoc(q: seq<Task>, t: Task)
    ensures Kinds(q + [t]) == Kinds(q) + multiset{KindOf(t)}
  {
    if q != [] {
      assert (q + [t])[1..] == q[1..] + [t];
      KindsSnoc(q[1..], t);
    }
  }

  lemma {:induction false} ArrivingSnoc(q: seq<Task>, t: Task)
    ensures Arriving(q + [t]) == Arriving(q) + if t.TReadCompleted? then t.data else []
  {
    if q != [] {
      assert (q + [t])[1..] == q[1..] + [t];
      ArrivingSnoc(q[1..], t);
    }
  }

  lemma {:induction false} KindsAre(q: seq<Task>, k: Kind)
    ensures k in Kinds(q) <==> exists i :: 0 <= i < |q| && KindOf(q[i]) == k
  {
    if q != [] {
      KindsAre(q[1..], k);
      if k in Kinds(q[1..]) {
        var i :| 0 <= i < |q[1..]| && KindOf(q[1..][i]) == k;
        assert KindOf(q[i + 1]) == k;
      }
      if i :| 0 <= i < |q| && KindOf(q[i]) == k && i > 0 {
        assert q[i] == q[1..][i - 1];
      }
    }
  }

  lemma {:induction false} NothingArrives(q: seq<Task>)
    requires CallbackFree(q)
    ensures Arriving(q) == []
  {
    if q != [] {
      assert !IsCallback(q[0]);
      NothingArrives(q[1..]);
    }
  }
}
