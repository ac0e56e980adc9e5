/** Upload requests of the native library and the notifications that answer them, call by call. */
module StreamingSinks {
  import opened Bytes
  import opened Counting
  import opened Runs
  import opened StreamingModel
  import opened StreamingSafety
  import opened StreamingRuns

  /** A step makes as many notifications as it counts. */
  predicate SameSinks(s: State, t: State) {
    Occurrences(t.env.log, Sink) - t.env.sinks == Occurrences(s.env.log, Sink) - s.env.sinks
  }

  lemma OneCallKeepsSinks(s: State, t: State, c: Call)
    requires t.env.log == s.env.log + [c] && t.env.sinks == s.env.sinks + Bit(c == Sink)
    ensures SameSinks(s, t)
  {
    OccurrencesSnoc(s.env.log, c, Sink);
  }

  lemma FailKeepsSinks(s: State, e: Error)
    ensures SameSinks(s, Fail(s, e))
  {
    OneCallKeepsSinks(s, Fail(s, e), Cancel);
  }

  lemma StartReadKeepsSinks(s: State, ok: bool)
    ensures SameSinks(s, StartRead(s, ok))
  {
    if !(s.terminal || s.readPending || s.pending != [] || s.err.Some?) {
      if ok {
        OneCallKeepsSinks(s, StartRead(s, true), Read(true));
      } else {
        OneCallKeepsSinks(s, Log(s, Read(false)), Read(false));
        FailKeepsSinks(Log(s, Read(false)), ReadFailed);
      }
    }
  }

  lemma StartKeepsSinks(s: State, ok: bool)
    ensures SameSinks(s, RunStart(s, ok))
  {
    if !s.terminal && !s.started { OneCallKeepsSinks(s, RunStart(s, ok), Start(ok)); }
  }

  lemma CancelKeepsSinks(s: State, e: Error)
    ensures SameSinks(s, RunCancel(s, e))
  {
    if !s.terminal && s.started { OneCallKeepsSinks(s, RunCancel(s, e), Cancel); }
  }

  lemma UploadKeepsSinks(s: State)
    ensures SameSinks(s, RunUploadDone(s)) && SameSinks(s, RunUploadRequest(s))
  {
    OneCallKeepsSinks(s, RunUploadDone(s), Sink);
    if s.env.upload != Reader { OneCallKeepsSinks(s, RunUploadRequest(s), Sink); }
  }

  lemma CompletionKeepsSinks(s: State, data: seq<byte>)
    ensures SameSinks(s, RunReadCompleted(s, data))
  {
    OneCallKeepsSinks(s, RunReadCompleted(s, data), ReadDone);
  }

  lemma EndKeepsSinks(s: State, e: Error)
    ensures SameSinks(s, RunTerminal(s, e))
  {
    OneCallKeepsSinks(s, RunTerminal(s, e), LastCallback);
  }

  lemma TeardownKeepsSinks(s: State)
    ensures SameSinks(s, RunCleanup(s))
  {
    var log := s.env.log;
    var log0 := if s.env.upload == NoUpload then log else log + [DestroyProvider];
    OccurrencesSnoc(log, DestroyProvider, Sink);
    OccurrencesSnoc(log0, DestroyRequest, Sink);
    OccurrencesSnoc(log0 + [DestroyRequest], DestroyCallback, Sink);
    OccurrencesSnoc(log0 + [DestroyRequest] + [DestroyCallback], DestroyExecutor, Sink);
    assert log + Teardown(s.env.upload) == log0 + [DestroyRequest] + [DestroyCallback] + [DestroyExecutor];
  }

  lemma OwnTaskKeepsSinks(s: State, t: Task, ok: bool)
    requires !IsCallback(t)
    ensures SameSinks(s, Run(s, t, ok))
  {
    match t
    case TStart => StartKeepsSinks(s, ok);
    case TStartRead => StartReadKeepsSinks(s, ok);
    case TCancel(e) => CancelKeepsSinks(s, e);
    case TInitFailed =>
    case TUploadDone => UploadKeepsSinks(s);
    case TCleanup => TeardownKeepsSinks(s);
  }

  lemma RedirectKeepsSinks(s: State, d: Decision, ok: bool)
    ensures SameSinks(s, RunRedirect(s, d, ok))
  {
    match d
    case Follow =>
      OneCallKeepsSinks(s, Log(s, FollowRedirect), FollowRedirect);
      FailKeepsSinks(Log(s, FollowRedirect), RedirectFailed);
    case Decline => FailKeepsSinks(s, Eof);
    case Unexpected(code) => FailKeepsSinks(s, HttpRedirect(code));
  }

  lemma ResponseKeepsSinks(s: State, bad: Option<int>, ok: bool)
    ensures SameSinks(s, RunResponse(s, bad, ok))
  {
    var s1 := s.(env := s.env.(responded := true, log := s.env.log + [Responded]));
    OneCallKeepsSinks(s, s1, Responded);
    if bad.Some? { FailKeepsSinks(s1, HttpStatus(bad.value)); } else { StartReadKeepsSinks(s1, ok); }
  }

  lemma AnswerKeepsSinks(s: State, t: Task, ok: bool)
    requires t.TRedirect? || t.TResponse?
    ensures SameSinks(s, Run(s, t, ok))
  {
    match t
    case TRedirect(d) => RedirectKeepsSinks(s, d, ok);
    case TResponse(hooked, status) => ResponseKeepsSinks(s, RefusedStatus(hooked, status), ok);
  }

  lemma ReportKeepsSinks(s: State, t: Task, ok: bool)
    requires IsCallback(t) && !t.TRedirect? && !t.TResponse?
    ensures SameSinks(s, Run(s, t, ok))
  {
    match t
    case TReadCompleted(data) => CompletionKeepsSinks(s, data);
    case TUploadRequest => UploadKeepsSinks(s);
    case TUploadClose =>
    case TTerminal(e) => EndKeepsSinks(s, e);
  }

  lemma CallbackKeepsSinks(s: State, t: Task, ok: bool)
    requires IsCallback(t)
    ensures SameSinks(s, Run(s, t, ok))
  {
    if t.TRedirect? || t.TResponse? { AnswerKeepsSinks(s, t, ok); } else { ReportKeepsSinks(s, t, ok); }
  }

  lemma RunNextKeepsSinks(s: State, ok: bool)
    requires s.queue != []
    ensures SameSinks(s, RunNext(s, ok))
  {
    var s0, t := s.(queue := s.queue[1..]), s.queue[0];
    if IsCallback(t) { CallbackKeepsSinks(s0, t, ok); } else { OwnTaskKeepsSinks(s0, t, ok); }
  }

  lemma ReadPassKeepsSinks(s: State, reader: nat, room: nat)
    requires room > 0
    ensures SameSinks(s, ReadPass(s, reader, room))
  {
  }

  lemma PostKeepsSinks(s: State, t: Task)
    ensures SameSinks(s, Post(s, t))
  {
  }

  lemma StepKeepsSinks(s: State, ev: Event, t: State)
    requires Enabled(s, ev) && t == Step(s, ev)
    ensures SameSinks(s, t)
  {
    match ev
    case EvRun(ok) => RunNextKeepsSinks(s, ok);
    case EvRead(reader, room) => ReadPassKeepsSinks(s, reader, room);
    case EvPost(task) => PostKeepsSinks(s, task);
    case _ =>
  }

  /** The notifications in the log are those that were counted. */
  lemma SinksAreLogged(states: seq<State>, events: seq<Event>, i: nat)
    requires IsRun(states, events) && i < |states|
    ensures Occurrences(states[i].env.log, Sink) == states[i].env.sinks
  {
    forall k | 0 <= k < i ensures SameSinks(states[k], states[k + 1]) {
      StepKeepsSinks(states[k], events[k], states[k + 1]);
    }
    Carried(states, SameSinks, 0, i);
    var upload, ok :| states[0] == Initial(upload, ok);
  }

  /**
   Every native upload request is answered by exactly one notification: none is made without a
   request, at most one is owed at any time, and none is owed when the provider is destroyed.
   */
  lemma OneNotificationEach(states: seq<State>, events: seq<Event>, i: nat)
    requires IsRun(states, events) && i < |states|
    ensures var s := states[i]; var made := Occurrences(s.env.log, Sink);
            && made == s.env.sinks && made <= s.env.asked <= made + 1
            && (s.done ==> made == s.env.asked)
  {
    SinksAreLogged(states, events, i);
    UploadsAreAnswered(states, events, i);
    if states[i].done { DestroyedWhenIdle(states, events, i); }
  }
}
