/**
 The bounded batch, the reader that drains it into a request body, and the connection's Write. What
 happens while a call waits outside the mutex is given by a list: each entry says what others did to
 the batch meanwhile and whether the context ended. A call that outlasts its list is still blocked.
 */
module UploadBatches {
  import opened Bytes
  import opened UploadModel

  /** What others did to the batch during one wait: how many batches were drained, and whether it was closed. */
  datatype Wait = Wait(drains: nat, close: bool, cause: Option<Error>)

  datatype Outcome = Done | Blocked | Error(e: UploadModel.Error)

  /** A context, which ends before some look at it or never. */
  class Context {
    const end: Option<nat>
    const e: UploadModel.Error
    var looks: nat

    constructor (end: Option<nat>, e: UploadModel.Error)
      ensures this.end == end && this.e == e && looks == 0
    {
      this.end, this.e, looks := end, e, 0;
    }

    /** Somebody has looked at the context and found that it has ended. */
    predicate Seen()
      reads this
    {
      end.Some? && looks > end.value
    }

    method Look() returns (ended: bool)
      modifies this
      ensures looks == old(looks) + 1 && ended == Seen()
    {
      looks := looks + 1;
      ended := end.Some? && looks > end.value;
    }
  }

  class BrowserBatch {
    var data: seq<byte>
    var closed: bool
    var closeErr: Option<UploadModel.Error>
    var notify: nat
    const max: nat
    /** All bytes ever accepted, and all bytes ever drained. */
    ghost var accepted: seq<byte>
    ghost var drained: seq<byte>

    ghost function Abs(): Batch
      reads this
    {
      Batch(data, max, closed, closeErr, notify)
    }

    /** What a write is told once the batch is closed. */
    function CloseError(): UploadModel.Error
      reads this
    {
      if closeErr.Some? then closeErr.value else ClosedPipe
    }

    ghost predicate Valid()
      reads this
    {
      max >= 1 && |data| <= max && accepted == drained + data
    }

    constructor (max: nat)
      ensures Abs() == NewBatch(max) && Valid() && accepted == []
    {
      this.max := if max < 1 then 1 else max;
      data, closed, closeErr, notify, accepted, drained := [], false, None, 0, [], [];
    }

    method SignalLocked()
      modifies `notify
      ensures notify == old(notify) + 1
    {
      notify := notify + 1;
    }

    method CloseWithError(e: Option<UploadModel.Error>)
      requires Valid()
      modifies this
      ensures Abs() == CloseBatch(old(Abs()), e)
      ensures Valid() && accepted == old(accepted) && drained == old(drained)
    {
      if !closed {
        closed := true;
        closeErr := e;
        SignalLocked();
      }
    }

    /** One turn of the drain loop; no bytes means that the caller waits, or that the end has come. */
    method TakeBatch() returns (out: seq<byte>)
      requires Valid()
      modifies this
      ensures out == old(data)[..DrainSize(old(Abs()))] && out == old(data)
      ensures Abs() == if old(data) == [] then old(Abs()) else Drained(old(Abs()))
      ensures Valid() && accepted == old(accepted) && drained == old(drained) + out
    {
      if |data| > 0 {
        var n := |data|;
        if n > max { n := max; }
        out := data[..n];
        data := data[n..];
        drained := drained + out;
        SignalLocked();
      } else {
        out := [];
      }
    }

    /** Others use the batch while a call waits. */
    method Meanwhile(w: Wait)
      requires Valid()
      modifies this
      ensures Valid() && accepted == old(accepted) && old(drained) <= drained
      ensures closed == (old(closed) || w.close)
      ensures w.drains > 0 ==> data == []
    {
      var k := 0;
      while k < w.drains
        invariant Valid() && accepted == old(accepted) && old(drained) <= drained && closed == old(closed)
        invariant k > 0 ==> data == []
      {
        var _ := TakeBatch();
        k := k + 1;
      }
      if w.close { CloseWithError(w.cause); }
    }

    /** Appends what fits. */
    method Accept(p: seq<byte>, total: nat) returns (n: nat)
      requires Valid() && total < |p| && |data| < max
      modifies this
      ensures n == Room(old(Abs()), |p| - total) && 0 < n <= |p| - total
      ensures n == |p| - total || |data| == max
      ensures Abs() == Append(old(Abs()), p[total..total + n])
      ensures Valid() && accepted == old(accepted) + p[total..total + n] && drained == old(drained)
    {
      n := Min(max - |data|, |p| - total);
      data := data + p[total..total + n];
      accepted := accepted + p[total..total + n];
      SignalLocked();
    }

    /**
     Appends p as room allows, waiting while the batch is full. It fails only when it finds the batch
     closed or its context ended, and it looks at the context only between two pieces of work.
     */
    method WriteContext(p: seq<byte>, ctx: Context, waits: seq<Wait>) returns (total: nat, used: nat, o: Outcome)
      requires Valid()
      modifies this, ctx
      ensures Valid() && total <= |p| && used <= |waits|
      ensures accepted == old(accepted) + p[..total]
      ensures o.Done? <==> total == |p|
      ensures o.Blocked? ==> used == |waits| && !closed && |data| == max
      ensures o.Error? ==> (closed && o.e == CloseError()) || (ctx.Seen() && o.e == ctx.e)
      ensures ctx.looks <= old(ctx.looks) + total + 2 * used + 1
      ensures old(closed) ==> total == 0
    {
      total, used := 0, 0;
      while total < |p|
        invariant Valid() && total <= |p| && used <= |waits|
        invariant accepted == old(accepted) + p[..total]
        invariant ctx.looks <= old(ctx.looks) + total + 2 * used
        invariant old(closed) ==> closed && total == 0
        decreases |waits| - used, |p| - total
      {
        var ended := ctx.Look();
        if ended { return total, used, Error(ctx.e); }
        if closed { return total, used, Error(CloseError()); }
        if |data| < max {
          var n := Accept(p, total);
          assert p[..total + n] == p[..total] + p[total..total + n];
          total := total + n;
        } else {
          if used == |waits| { return total, used, Outcome.Blocked; }
          var w := waits[used];
          used := used + 1;
          Meanwhile(w);
          ended := ctx.Look();
          var either: bool := *;  // a select with both channels ready takes either branch
          if ended && (either || (w.drains == 0 && !w.close)) { return total, used, Error(ctx.e); }
        }
      }
      o := Done;
    }
  }

  class BatchReader {
    const batch: BrowserBatch
    var pending: seq<byte>
    /** All bytes given to the callers of Read. */
    ghost var handed: seq<byte>

    ghost predicate Valid()
      reads this, batch
    {
      batch.Valid() && batch.drained == handed + pending
    }

    constructor (batch: BrowserBatch)
      requires batch.Valid() && batch.drained == []
      ensures Valid() && this.batch == batch && handed == []
    {
      this.batch := batch;
      pending, handed := [], [];
    }

    /** Hands out as much of the pending bytes as p has room for. */
    method Hand(p: array<byte>) returns (n: nat)
      requires Valid()
      modifies this, p
      ensures n == Min(p.Length, |old(pending)|) && pending == old(pending)[n..] && p[..n] == old(pending)[..n]
      ensures Valid() && handed == old(handed) + p[..n]
    {
      n := Min(p.Length, |pending|);
      forall i | 0 <= i < n { p[i] := pending[i]; }
      assert pending == pending[..n] + pending[n..];
      handed := handed + pending[..n];
      pending := pending[n..];
      assert p[..n] == old(pending)[..n];
    }

    method Refill()
      requires Valid() && pending == []
      modifies this, batch
      ensures Valid() && handed == old(handed) && batch.accepted == old(batch.accepted)
      ensures batch.closed == old(batch.closed)
      ensures pending == [] ==> handed == batch.accepted
    {
      pending := batch.TakeBatch();
    }

    /** Fills p from the batch; EOF is reported once the batch is closed and every accepted byte has been handed out. */
    method Read(p: array<byte>) returns (n: nat, o: Outcome)
      requires Valid()
      modifies this, batch, p
      ensures Valid() && n <= p.Length
      ensures handed == old(handed) + p[..n] && batch.accepted == old(batch.accepted)
      ensures o.Error? ==> n == 0 && o.e == Eof && batch.closed && handed == batch.accepted
      ensures o.Blocked? ==> n == 0 && !batch.closed && handed == batch.accepted
      ensures o.Done? && p.Length > 0 ==> n > 0
    {
      if |pending| == 0 {
        Refill();
        if |pending| == 0 {
          assert p[..0] == [];
          return 0, if batch.closed then Error(Eof) else Outcome.Blocked;
        }
      }
      n := Hand(p);
      o := Done;
    }
  }

  /**
   One use of a write context: its waits, and what the connection looks like when that use fails:
   whether the deadline has been replaced while the connection goes on, and its error.
   */
  datatype Turn = Turn(ctx: Context, waits: seq<Wait>, replaced: bool, err: Option<UploadModel.Error>)

  class XhttpConn {
    const writer: BrowserBatch
    var err: Option<UploadModel.Error>

    constructor (writer: BrowserBatch)
      ensures this.writer == writer && err == None
    {
      this.writer := writer;
      err := None;
    }

    method SetError(e: Option<UploadModel.Error>)
      modifies this
      ensures err == if old(err) == None then e else old(err)
    {
      if e == None { return; }
      if err == None { err := e; }
    }

    /**
     Writes p across any number of write contexts: when one is cancelled only because the deadline
     was replaced, the rest of p goes on with the next. The total always stands for p[..total]. An
     error is the connection's, the batch's, or that of a context that ended for another reason.
     */
    method Write(p: seq<byte>, turns: seq<Turn>) returns (total: nat, o: Outcome)
      requires writer.Valid()
      modifies this, writer, set t | t in turns :: t.ctx
      ensures writer.Valid() && total <= |p|
      ensures writer.accepted == old(writer.accepted) + p[..total]
      ensures o.Done? ==> total == |p|
      ensures o.Error? ==>
                || err == Some(o.e)
                || (err == None && writer.closed && o.e == writer.CloseError())
                || (err == None
                    && exists t :: t in turns && t.ctx.Seen() && o.e == t.ctx.e && !(o.e == Canceled && t.replaced))
      ensures o.Blocked? ==> (!writer.closed && |writer.data| == writer.max) || forall t :: t in turns ==> t.replaced
      ensures old(err).Some? ==> total == 0 && o == Error(old(err).value)
    {
      total := 0;
      var k := 0;
      while k < |turns|
        invariant k <= |turns| && writer.Valid() && total <= |p|
        invariant writer.accepted == old(writer.accepted) + p[..total]
        invariant forall j :: 0 <= j < k ==> turns[j].replaced
        invariant old(err).Some? ==> k == 0 && total == 0 && err == old(err)
        decreases |turns| - k
      {
        if err.Some? { return total, Error(err.value); }
        var n, used, r := writer.WriteContext(p[total..], turns[k].ctx, turns[k].waits);
        assert p[..total + n] == p[..total] + p[total..][..n];
        total := total + n;
        if r.Done? || r.Blocked? { return total, r; }
        SetError(turns[k].err);
        if err.Some? { return total, Error(err.value); }
        if r.e != Canceled || !turns[k].replaced { return total, r; }
        k := k + 1;
      }
      if err.Some? { return total, Error(err.value); }
      o := Outcome.Blocked;
    }
  }
}
