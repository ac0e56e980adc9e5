/**
 The connection object. Each method is one critical section of its mutex, one callback, or one choice
 of a select, written as the code has it and proved to be the corresponding transition of the model.
 BidiSession drives the object with the callers' buffers.
 */
module BidirectionalConns {
  import opened Bytes
  import opened BidiModel

  class BidirectionalConn {
    var closed: bool
    var done: bool
    var cancelled: bool
    var err: Option<Error>
    var ready: bool
    var handshake: bool
    var hook: bool
    /** The two directions, `released` being readDone and writeDone, with their callers and the native stream. */
    var reading: Side
    var writing: Side
    var env: Env

    function Abs(): State
      reads this
    {
      State(closed, done, cancelled, err, ready, handshake, reading, writing, hook, env)
    }

    constructor (readWaitHeaders: bool, writeWaitHeaders: bool)
      ensures Abs() == Initial(readWaitHeaders, writeWaitHeaders)
    {
      closed, done, cancelled, err, ready, handshake := false, false, false, None, false, false;
      reading, writing, hook := NEW_SIDE, NEW_SIDE, false;
      env := Initial(readWaitHeaders, writeWaitHeaders).env;
    }

    /** The native part of a start; a refused one goes on to terminate the connection. */
    method Start(ok: bool) returns (e: Option<Error>)
      modifies this
      ensures Abs() == StartStream(old(Abs()), ok)
      ensures e == if ok then None else Some(Invalid)
    {
      env := env.(start := if ok then Started else Failing, log := env.log + [BidiModel.Start(ok)]);
      e := if ok then None else Some(Invalid);
    }

    method CancelLocked()
      modifies this
      ensures Abs() == BidiModel.CancelLocked(old(Abs()))
    {
      if cancelled { return; }
      cancelled := true;
      env := env.(log := env.log + [Cancel]);
    }

    /** Returns whether the caller has to run the termination hook, outside the mutex. */
    method Terminate(e: Error) returns (runHook: bool)
      modifies this
      ensures Abs() == BidiModel.Terminate(old(Abs()), e)
      ensures runHook == (!old(done) && old(hook))
    {
      runHook := false;
      reading := reading.(released := true);
      writing := writing.(released := true);
      cancelled := true;
      if !done {
        err := Some(e);
        done := true;
        runHook := hook;
        env := env.(early := writing.native.Some?, hookDue := if hook then env.hookDue + 1 else env.hookDue,
                    log := env.log + [Destroy]);
      }
    }

    /** A select with both channels closed takes either branch. */
    static ghost predicate OneOf(result: Option<Error>, closed: bool, done: bool, whenDone: Option<Error>) {
      (closed && result == Some(Closed)) || (done && result == whenDone)
    }

    /** The locked part of a read, behind the gate; a result ends the call at once. */
    method IssueRead() returns (result: Option<Error>)
      requires reading.caller.AtGate?
      modifies this
      ensures Abs() == Issue(old(Abs()), In)
      ensures if old(closed) || old(done) then OneOf(result, old(closed), old(done), old(err)) else result == None
    {
      var t := reading.caller.t;
      if closed || done {
        reading := reading.(caller := Idle);
        var either: bool := *;
        return if closed && (!done || either) then Some(Closed) else err;
      }
      env := env.(log := env.log + [Read(!env.over)]);
      reading := reading.(caller := Waiting(t), native := if env.over then None else Some(t));
      result := None;
    }

    method IssueWrite() returns (result: Option<Error>)
      requires writing.caller.AtGate?
      modifies this
      ensures Abs() == Issue(old(Abs()), Out)
      ensures if old(closed) || old(done) then OneOf(result, old(closed), old(done), old(err)) else result == None
    {
      var t := writing.caller.t;
      if closed || done {
        writing := writing.(caller := Idle);
        var either: bool := *;
        return if closed && (!done || either) then Some(Closed) else err;
      }
      env := env.(log := env.log + [Write(!env.over)]);
      writing := writing.(caller := Waiting(t), native := if env.over then None else Some(t));
      result := None;
    }

    /** The deadline of a call has passed. */
    method GiveUpRead()
      requires reading.caller.TimedOut?
      modifies this
      ensures Abs() == GiveUp(old(Abs()), In)
    {
      reading := reading.(caller := Draining(reading.caller.t));
      CancelLocked();
    }

    method GiveUpWrite()
      requires writing.caller.TimedOut?
      modifies this
      ensures Abs() == GiveUp(old(Abs()), Out)
    {
      writing := writing.(caller := Draining(writing.caller.t));
      CancelLocked();
    }

    /** What a caller does without the mutex, and the error of its call if that ends it. */
    method MoveCaller(d: Dir, m: Move) returns (e: Option<Error>)
      requires MayMove(At(Abs(), d), m, closed, done)
      modifies `reading, `writing
      ensures Abs() == Put(old(Abs()), d, Moved(At(old(Abs()), d), m))
      ensures m.Returns? ==> e == if At(old(Abs()), d).caller.closing then Some(Closed) else err
      ensures m.SeesDone? && At(old(Abs()), d).caller.Draining? ==> e == Some(Expired)
      ensures m.GateFails? ==> e == Some(Expired) || OneOf(e, closed, done, err)
    {
      var c := At(Abs(), d).caller;
      e := None;
      match m {
        case Returns => e := if c.closing then Some(Closed) else err;
        case SeesDone => if c.Draining? { e := Some(Expired); }
        case GateFails =>
          var late: bool, either: bool := *, *;
          e := if late || !(closed || done) then Some(Expired)
               else if closed && (!done || either) then Some(Closed) else err;
        case _ =>
      }
      match d {
        case In => reading := Moved(reading, m);
        case Out => writing := Moved(writing, m);
      }
    }

    /** Returns whether the termination has already happened, so that the hook is run at once. */
    method SetOnTerminate() returns (runHook: bool)
      modifies this
      ensures Abs() == BidiModel.SetOnTerminate(old(Abs()))
      ensures runHook == done == old(done)
    {
      runHook := done;
      hook := true;
      if done { env := env.(hookDue := env.hookDue + 1); }
    }

    method Close() returns (e: Option<Error>)
      modifies this
      ensures Abs() == CloseConn(old(Abs()))
      ensures if old(closed) || old(done) then OneOf(e, old(closed), old(done), None) else e == None
      ensures closed == (old(closed) || !old(done)) && (closed && !old(closed) ==> cancelled)
    {
      var either: bool := *;
      if closed && (!done || either) { return Some(Closed); }
      if done { return None; }
      closed := true;
      CancelLocked();
      e := None;
    }

    // ---------- callbacks ----------

    method OnStreamReady()
      modifies this
      ensures Abs() == old(Abs()).(ready := true)
    {
      if !ready { ready := true; }
    }

    method OnResponseHeadersReceived()
      modifies this
      ensures Abs() == old(Abs()).(handshake := true)
    {
      if !handshake { handshake := true; }
    }

    /** The library calls back: no input goes on to the termination, anything else to the select. */
    method OnReadCompleted(n: nat)
      requires reading.native.Some?
      modifies this
      ensures Abs() == Completed(old(Abs()), In, n)
    {
      var t := Transfer(reading.native.value.id, n);
      env := env.(log := env.log + [ReadDone]);
      if n == 0 {
        reading := reading.(native := None);
        env := env.(thread := Terminating(Eof));
      } else {
        reading := reading.(native := None, completed := reading.completed + [t]);
        env := env.(thread := Completing(In, t));
      }
    }

    method OnWriteCompleted(n: nat)
      requires writing.native.Some?
      modifies this
      ensures Abs() == Completed(old(Abs()), Out, n)
    {
      var t := Transfer(writing.native.value.id, n);
      env := env.(log := env.log + [WriteDone], thread := Completing(Out, t));
      writing := writing.(native := None, completed := writing.completed + [t]);
    }

    /** The choice of a completion callback that meets its receiver, closed, or done. */
    method OnReadTaken()
      requires env.thread.Completing? && env.thread.d == In
      modifies this
      ensures Abs() == HandOver(old(Abs()))
    {
      reading := Received(reading, env.thread.t);
      env := env.(thread := Free);
    }

    method OnWriteTaken()
      requires env.thread.Completing? && env.thread.d == Out
      modifies this
      ensures Abs() == HandOver(old(Abs()))
    {
      writing := Received(writing, env.thread.t);
      env := env.(thread := Free);
    }

    method OnReadDropped()
      requires env.thread.Completing? && env.thread.d == In && (closed || done)
      modifies this
      ensures Abs() == Drop(old(Abs()))
    {
      if !reading.released { reading := reading.(released := true); }
      env := env.(thread := Free);
    }

    method OnWriteDropped()
      requires env.thread.Completing? && env.thread.d == Out && (closed || done)
      modifies this
      ensures Abs() == Drop(old(Abs()))
    {
      if !writing.released { writing := writing.(released := true); }
      env := env.(thread := Free);
    }

    /** Succeeded, failed or canceled, up to the mutex. */
    method OnTerminal(e: Error)
      modifies this
      ensures Abs() == Terminal(old(Abs()), e)
    {
      reading := reading.(native := None);
      writing := writing.(native := None);
      env := env.(over := true, thread := Terminating(e), log := env.log + [LastCallback]);
    }

    /** A callback, or a failed start, terminates the connection. */
    method Conclude(failedStart: bool, e: Error)
      modifies this
      ensures Abs() == BidiModel.Terminate(
                if failedStart then old(Abs()).(env := old(env).(start := Failed))
                else old(Abs()).(env := old(env).(thread := Free)), e)
    {
      if failedStart { env := env.(start := Failed); } else { env := env.(thread := Free); }
      var _ := Terminate(e);
    }

    method RunHook()
      requires env.hookDue > 0
      modifies this
      ensures Abs() == old(Abs()).(env := old(env).(hookDue := old(env).hookDue - 1, hookRuns := old(env).hookRuns + 1))
    {
      env := env.(hookDue := env.hookDue - 1, hookRuns := env.hookRuns + 1);
    }

    /** The library carries out the destruction. */
    method LoseBuffers()
      modifies `reading, `writing
      ensures Abs() == old(Abs()).(input := old(Abs()).input.(native := None),
                output := old(Abs()).output.(native := None))
    {
      reading := reading.(native := None);
      writing := writing.(native := None);
    }
  }
}
