/**
 The request object of the bidirectional stream. Each method is one critical section of its mutex,
 written as the code has it and proved to be the corresponding transition of the model; what the
 native library answers is a parameter. DuplexSession drives the object with its buffers.
 */
module DuplexRequests {
  import opened Bytes
  import opened DuplexModel

  class DuplexRequest {
    var started: bool
    var ready: bool
    var haveHeaders: bool
    var readPending: bool
    var writePending: bool
    var cancelled: bool
    var terminal: bool
    var err: Option<Error>
    var pending: seq<byte>
    var notify: nat
    var done: bool
    /** Where the goroutines are, what the native side holds, and what has happened so far. */
    var env: Env

    /** The object together with its environment, as a state of the model. */
    function Abs(): State
      reads this
    {
      State(started, ready, haveHeaders, readPending, writePending, cancelled, terminal, err, pending, notify, done,
          env)
    }

    constructor ()
      ensures Abs() == INITIAL
    {
      started, ready, haveHeaders, readPending, writePending := false, false, false, false, false;
      cancelled, terminal, err, pending, notify, done := false, false, None, [], 0, false;
      env := INITIAL.env;
    }

    /** Closes the current notification channel and opens the next. */
    method SignalLocked()
      modifies `notify
      ensures notify == old(notify) + 1
    {
      notify := notify + 1;
    }

    method FinishLocked(e: Error)
      modifies this
      ensures Abs() == DuplexModel.FinishLocked(old(Abs()), e)
    {
      if terminal { return; }
      terminal := true;
      if err == None { err := Some(e); }
      env := env.(log := env.log + [Destroy]);
      done := true;
      SignalLocked();
    }

    method CancelLocked(e: Error)
      modifies this
      ensures Abs() == DuplexModel.CancelLocked(old(Abs()), e)
    {
      if err == None { err := Some(e); }
      if !started && !terminal {
        FinishLocked(e);
        return;
      }
      if !cancelled && !terminal && started {
        cancelled := true;
        env := env.(log := env.log + [Cancel]);
      }
      SignalLocked();
    }

    /** Lends the read buffer to the native stream. */
    method IssueRead(a: Answer)
      modifies this
      ensures Abs() == ReadIssued(old(Abs()), a)
    {
      readPending := true;
      env := env.(log := env.log + [Read(a != Refused)], nativeRead := a != Refused);
    }

    method StartReadLocked(a: Answer)
      modifies this
      ensures Abs() == DuplexModel.StartReadLocked(old(Abs()), a)
    {
      if !haveHeaders || readPending || terminal || err != None { return; }
      IssueRead(a);
      if a != Taken { CancelLocked(ReadFailed); }
    }

    method Start(accepted: bool) returns (e: Option<Error>)
      modifies this
      ensures Abs() == StartRequest(old(Abs()), accepted)
      ensures e == if old(terminal) then old(err) else if accepted then None else Some(StartFailed)
    {
      env := env.(startCalled := true);
      if terminal { return err; }
      env := env.(log := env.log + [DuplexModel.Start(accepted)]);
      if !accepted {
        FinishLocked(StartFailed);
        return Some(StartFailed);
      }
      started := true;
      e := None;
    }

    /** Copies as much of the pending bytes as fits. */
    method TakePending(reader: nat, p: array<byte>) returns (n: nat)
      modifies this, p
      ensures n == Min(p.Length, |old(pending)|) && p[..n] == old(pending)[..n]
      ensures Abs() == TakeBytes(old(Abs()), reader, n)
    {
      n := Min(p.Length, |pending|);
      forall i | 0 <= i < n { p[i] := pending[i]; }
      env := env.(delivered := env.delivered + pending[..n], readers := env.readers - {reader});
      pending := pending[n..];
    }

    /** One pass of the read loop: `n` bytes go into p, or an error is returned, or it waits. */
    method ReadPass(reader: nat, p: array<byte>, a: Answer) returns (n: nat, e: Option<Error>)
      requires p.Length > 0
      modifies this, p
      ensures Abs() == DuplexModel.ReadPass(old(Abs()), reader, p.Length, a)
      ensures n == Min(p.Length, |old(pending)|) && p[..n] == old(pending)[..n]
      ensures e == if old(pending) == [] then old(err) else None
    {
      if pending != [] {
        n := TakePending(reader, p);
        if pending == [] { StartReadLocked(a); }
        return n, None;
      }
      if err != None {
        env := env.(readers := env.readers - {reader});
        return 0, err;
      }
      env := env.(readers := env.readers[reader := notify]);
      return 0, None;
    }

    /** Lends the filled write buffer to the native stream. */
    method IssueWrite(a: Answer)
      modifies this
      ensures Abs() == WriteIssued(old(Abs()), a)
    {
      writePending := true;
      env := env.(log := env.log + [Write(a != Refused)], nativeWrite := a != Refused);
    }

    /** What the upload worker does with one result of the upload queue. */
    method UploadPass(n: nat, uploadError: Option<Error>, a: Answer)
      modifies this
      ensures Abs() == DuplexModel.UploadPass(old(Abs()), n, uploadError, a)
    {
      if terminal || err != None {
        env := env.(worker := Exited);
        return;
      }
      if n == 0 {
        UploadEnd(Some(if uploadError.Some? then uploadError.value else NoProgress));
        return;
      }
      IssueWrite(a);
      if a == Taken {
        WriteWait(uploadError);
        return;
      }
      env := env.(worker := Exited);
      CancelLocked(WriteFailed);
      if uploadError.Some? { CancelLocked(uploadError.value); }
    }

    method WriteWait(last: Option<Error>)
      modifies this
      ensures Abs() == DuplexModel.WriteWait(old(Abs()), last)
    {
      if writePending && !terminal && err == None {
        env := env.(worker := AwaitingWrite(notify, last));
        return;
      }
      UploadEnd(last);
    }

    method UploadEnd(last: Option<Error>)
      modifies this
      ensures Abs() == DuplexModel.UploadEnd(old(Abs()), last)
    {
      if last.Some? {
        CancelLocked(last.value);
        env := env.(worker := Exited);
        return;
      }
      env := env.(worker := if terminal || err != None then Exited else FillingBuffer);
    }

    method OnStreamReady()
      modifies this
      ensures Abs() == StreamReady(old(Abs()))
    {
      if !ready { ready := true; }
    }

    method SeeHeaders(good: bool)
      modifies this
      ensures Abs() == SeenHeaders(old(Abs()), good)
    {
      env := env.(headersSeen := true);
      if good { haveHeaders := true; }
    }

    method OnResponseHeaders(bad: Option<Error>, a: Answer)
      modifies this
      ensures Abs() == ResponseHeaders(old(Abs()), bad, a)
      ensures bad.Some? ==> haveHeaders == old(haveHeaders) && readPending == old(readPending) && err.Some?
      ensures bad.Some? && old(err) == None ==> err == bad
      ensures bad == None ==> haveHeaders
      ensures bad == None && old(err) == None && !old(terminal) && !old(readPending) ==>
                readPending && err == if a == Taken then None else Some(ReadFailed)
    {
      SeeHeaders(bad == None);
      if bad.Some? {
        CancelLocked(bad.value);
        return;
      }
      StartReadLocked(a);
    }

    /** The read buffer is back. */
    method ReturnRead()
      modifies this
      ensures Abs() == ReadReturned(old(Abs()))
    {
      readPending := false;
      env := env.(nativeRead := false, log := env.log + [ReadDone]);
    }

    method OnReadCompleted(data: seq<byte>, eof: Error)
      modifies this
      ensures Abs() == ReadCompleted(old(Abs()), data, eof)
    {
      ReturnRead();
      if data == [] {
        CancelLocked(eof);
        return;
      }
      pending := data;
      env := env.(completed := env.completed + data);
      SignalLocked();
    }

    method OnWriteCompleted()
      modifies this
      ensures Abs() == WriteCompleted(old(Abs()))
    {
      writePending := false;
      env := env.(nativeWrite := false, log := env.log + [WriteDone]);
      SignalLocked();
    }

    /** The callbacks for success, failure and cancellation. */
    method OnTerminal(e: Error)
      modifies this
      ensures Abs() == Terminated(old(Abs()), e)
    {
      env := env.(over := true, nativeRead := false, nativeWrite := false, log := env.log + [LastCallback]);
      FinishLocked(e);
    }

    // ---------- the goroutines between their critical sections ----------

    method Place(w: Worker)
      modifies `env
      ensures Abs() == AtWorker(old(Abs()), w)
    {
      env := env.(worker := w);
    }

    /** The cleaner closes the upload queue, which releases a worker that waits in it. */
    method CloseQueue()
      modifies `env
      ensures Abs() == CloseUpload(old(Abs()))
    {
      env := env.(cleaner := AwaitingWorker, uploadClosed := true);
    }

    /** The worker is gone: the buffers are destroyed. */
    method Clean()
      modifies `env
      ensures Abs() == Cleaned(old(Abs()))
    {
      env := env.(cleaner := Finished);
    }

    method LeaveReader(reader: nat)
      modifies `env
      ensures Abs() == ReaderLeaves(old(Abs()), reader)
    {
      env := env.(readers := env.readers - {reader});
    }
  }
}
