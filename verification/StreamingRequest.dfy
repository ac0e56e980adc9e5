/**
 The request object behind the serial executor. Each method is one critical section or one task,
 written as the code has it and proved to be the corresponding transition of the model; what the
 native library answers is a parameter. StreamingSession drives the object with its buffers.
 */
module StreamingRequests {
  import opened Bytes
  import opened StreamingModel

  class StreamingRequest {
    var started: bool
    var terminal: bool
    var readPending: bool
    var activeUploads: int
    var cleanupQueued: bool
    var err: Option<Error>
    var pending: seq<byte>
    var readToken: bool
    var done: bool
    var queue: seq<Task>
    /** What the native side, the workers and the readers do, and what has happened so far. */
    var env: Env
    const upload: Upload

    function Abs(): State
      reads this
    {
      State(started, terminal, readPending, activeUploads, cleanupQueued, err, pending, readToken, done, queue, env)
    }

    /** The kind of upload is fixed for good. */
    ghost predicate Valid()
      reads this
    {
      upload == env.upload
    }

    constructor (upload: Upload, initialized: bool)
      ensures Abs() == Initial(upload, initialized) && Valid()
    {
      this.upload := upload;
      started, terminal, readPending, activeUploads, cleanupQueued := false, false, false, 0, false;
      err, pending, readToken, done := None, [], false, false;
      queue := if initialized then [] else [TInitFailed];
      env := Initial(upload, initialized).env;
    }

    method Submit(t: Task)
      modifies this
      ensures Abs() == StreamingModel.Submit(old(Abs()), t)
    {
      queue := queue + [t];
    }

    method Cleanup()
      modifies this
      ensures Abs() == StreamingModel.Cleanup(old(Abs()))
    {
      if !terminal || activeUploads != 0 || cleanupQueued { return; }
      cleanupQueued := true;
      Submit(TCleanup);
    }

    method Finish(e: Error)
      modifies this
      ensures Abs() == StreamingModel.Finish(old(Abs()), e)
    {
      if terminal { return; }
      terminal := true;
      if err == None { err := Some(e); }
      env := env.(stopped := true);
      Cleanup();
    }

    method Fail(e: Error)
      modifies this
      ensures Abs() == StreamingModel.Fail(old(Abs()), e)
    {
      if err == None { err := Some(e); }
      env := env.(stopped := true);
      env := env.(cancelSent := true, log := env.log + [Cancel]);
    }

    method StartRead(ok: bool)
      modifies this
      ensures Abs() == StreamingModel.StartRead(old(Abs()), ok)
    {
      if terminal || readPending { return; }
      var ready := |pending| == 0 && err == None;
      if !ready { return; }
      readPending := true;
      env := env.(log := env.log + [Read(ok)]);
      if ok {
        env := env.(nativeRead := !env.terminalPosted);
      } else {
        readPending := false;
        Fail(ReadFailed);
      }
    }

    method CancelWithError(e: Error)
      modifies this
      ensures Abs() == StreamingModel.CancelWithError(old(Abs()), e)
    {
      if err == None {
        err := Some(e);
        Submit(TCancel(e));
      }
    }

    /** One pass of the read loop: `n` bytes go into p, or an error is returned, or it waits. */
    method ReadPass(reader: nat, p: array<byte>) returns (n: nat, e: Option<Error>)
      requires p.Length > 0
      modifies this, p
      ensures Abs() == StreamingModel.ReadPass(old(Abs()), reader, p.Length)
      ensures n == Min(p.Length, |old(pending)|) && p[..n] == old(pending)[..n]
      ensures e == if old(pending) == [] then old(err) else None
    {
      if |pending| > 0 {
        n := Min(p.Length, |pending|);
        forall i | 0 <= i < n { p[i] := pending[i]; }
        env := env.(delivered := env.delivered + pending[..n]);
        pending := pending[n..];
        if pending == [] && err == None { Submit(TStartRead); }
        return n, None;
      }
      if err != None { return 0, err; }
      env := env.(waiting := env.waiting + {reader});
      return 0, None;
    }

    // ---------- tasks ----------

    method RunStart(ok: bool)
      modifies this
      ensures Abs() == StreamingModel.RunStart(old(Abs()), ok)
    {
      if terminal || started { return; }
      env := env.(log := env.log + [Start(ok)]);
      if !ok {
        Finish(StartFailed);
        return;
      }
      started := true;
    }

    method RunCancel(e: Error)
      modifies this
      ensures Abs() == StreamingModel.RunCancel(old(Abs()), e)
    {
      if terminal { return; }
      if started {
        env := env.(stopped := true, cancelSent := true, log := env.log + [Cancel]);
      } else {
        Finish(e);
      }
    }

    method OnRedirectReceived(d: Decision, ok: bool)
      modifies this
      ensures Abs() == RunRedirect(old(Abs()), d, ok)
    {
      match d
      case Follow =>
        env := env.(log := env.log + [FollowRedirect]);
        if !ok { Fail(RedirectFailed); }
      case Decline => Fail(Eof);
      case Unexpected(code) => Fail(HttpRedirect(code));
    }

    /** A request with a hook for responses takes any status, others only 200. */
    method OnResponseStarted(hooked: bool, status: int, ok: bool)
      modifies this
      ensures Abs() == RunResponse(old(Abs()), RefusedStatus(hooked, status), ok)
      ensures !hooked && status != 200 ==> err == (if old(err).Some? then old(err) else Some(HttpStatus(status)))
      ensures !hooked && status != 200 ==> readPending == old(readPending)
      ensures (hooked || status == 200) && old(err) == None && !old(terminal)
                && !old(readPending) && old(pending) == [] ==>
                if ok then readPending && err == None else err == Some(ReadFailed)
    {
      env := env.(responded := true, log := env.log + [Responded]);
      if !hooked && status != 200 {
        Fail(HttpStatus(status));
        return;
      }
      StartRead(ok);
    }

    /** The library gives the buffer back with n bytes in it, which are copied. */
    method OnReadCompleted(buffer: array<byte>, n: nat)
      requires n <= buffer.Length
      modifies this
      ensures Abs() == RunReadCompleted(old(Abs()), buffer[..n])
    {
      var data := buffer[..n];
      env := env.(log := env.log + [ReadDone]);
      readPending := false;
      pending := data;
      readToken := true;
      if |data| == 0 { Submit(TStartRead); }
    }

    /** The callbacks for success, failure and cancellation. */
    method OnTerminal(e: Error)
      modifies this
      ensures Abs() == RunTerminal(old(Abs()), e)
      ensures !old(terminal) ==> terminal && err == (if old(err).Some? then old(err) else Some(e))
    {
      env := env.(log := env.log + [LastCallback]);
      Finish(e);
    }

    /** A native read or rewind of the upload; a reader upload is served by a worker. */
    method OnUploadRequest()
      requires Valid()
      modifies this
      ensures Abs() == RunUploadRequest(old(Abs()))
    {
      if upload == Reader {
        activeUploads := activeUploads + 1;
        env := env.(workers := env.workers + 1);
      } else {
        env := env.(sinks := env.sinks + 1, log := env.log + [Sink]);
      }
    }

    method RunUploadDone()
      modifies this
      ensures Abs() == StreamingModel.RunUploadDone(old(Abs()))
    {
      env := env.(sinks := env.sinks + 1, log := env.log + [Sink]);
      activeUploads := activeUploads - 1;
      Cleanup();
    }

    method RunCleanup()
      requires Valid()
      modifies this
      ensures Abs() == StreamingModel.RunCleanup(old(Abs()))
    {
      ghost var before := env.log;
      if upload != NoUpload { env := env.(log := env.log + [DestroyProvider]); }
      env := env.(log := env.log + [DestroyRequest]);
      env := env.(log := env.log + [DestroyCallback]);
      env := env.(log := env.log + [DestroyExecutor]);
      assert env.log == before + Teardown(upload);
      done := true;
    }

    /** One turn of the drain loop: the oldest task is taken and run; `buffer` is what a completion gives back. */
    method RunNext(ok: bool, buffer: array<byte>, n: nat)
      requires Valid() && queue != [] && n <= buffer.Length
      requires queue[0].TReadCompleted? ==> queue[0].data == buffer[..n]
      modifies this
      ensures Abs() == StreamingModel.RunNext(old(Abs()), ok)
    {
      var t := queue[0];
      queue := queue[1..];
      if t.TReadCompleted? {
        OnReadCompleted(buffer, n);
      } else if IsCallback(t) {
        RunCallback(t, ok);
      } else {
        RunOwn(t, ok);
      }
    }

    method RunOwn(t: Task, ok: bool)
      requires Valid() && !IsCallback(t)
      modifies this
      ensures Abs() == Run(old(Abs()), t, ok)
    {
      match t
      case TStart => RunStart(ok);
      case TStartRead => StartRead(ok);
      case TCancel(e) => RunCancel(e);
      case TInitFailed => Finish(InitFailed);
      case TUploadDone => RunUploadDone();
      case TCleanup => RunCleanup();
    }

    method RunCallback(t: Task, ok: bool)
      requires Valid() && IsCallback(t) && !t.TReadCompleted?
      modifies this
      ensures Abs() == Run(old(Abs()), t, ok)
    {
      match t
      case TRedirect(d) => OnRedirectReceived(d, ok);
      case TResponse(hooked, status) => OnResponseStarted(hooked, status, ok);
      case TUploadRequest => OnUploadRequest();
      case TUploadClose => env := env.(stopped := true);
      case TTerminal(e) => OnTerminal(e);
    }

    // ---------- the others ----------

    /** The library posts a callback. */
    method Enqueue(t: Task)
      modifies this
      ensures Abs() == Post(old(Abs()), t)
    {
      queue := queue + [t];
      match t {
        case TReadCompleted(data) => env := env.(nativeRead := false, completed := env.completed + data);
        case TUploadRequest => env := env.(asked := env.asked + 1);
        case TTerminal(_) => env := env.(terminalPosted := true, nativeRead := false);
        case _ =>
      }
    }

    /** A waiting reader goes on, perhaps with the token. */
    method WakeReader(reader: nat, withToken: bool)
      modifies this
      ensures Abs() == if withToken then Leave(old(Abs()), reader).(token := false) else Leave(old(Abs()), reader)
    {
      env := env.(waiting := env.waiting - {reader});
      if withToken { readToken := false; }
    }

    /** An upload worker submits its result. */
    method FinishWorker()
      requires env.workers > 0
      modifies this
      ensures Abs() == WorkerDone(old(Abs()))
    {
      queue := queue + [TUploadDone];
      env := env.(workers := env.workers - 1);
    }
  }
}
