/**
 The other end of a byte stream, as an application sees it through Read: an environment that
 decides freely how many bytes each call yields and when a call is interrupted.
 */
module ByteSources {
  import opened Bytes

  datatype IoError =
    | Eof
    | UnexpectedEof
    | NoProgress
    | ClosedPipe
    | Canceled
    | DeadlineExceeded
    | Failed(code: int)
  {
    /** Errors of the caller's own context: the stream itself is still good. */
    predicate IsContextError() { Canceled? || DeadlineExceeded? }
  }

  /** What one call of Read was asked for and gave. */
  datatype Report = Report(asked: nat, n: nat, err: Option<IoError>)

  /** The error that a caller in need of bytes makes of a report that did not bring enough. */
  function Told(r: Report): IoError {
    if r.err.Some? then r.err.value else NoProgress
  }

  /** How a stream may behave; what the quota counts depends on it. */
  datatype Kind =
    | Wild    // as it likes
    | Clean   // always makes progress; fails only at the end, and by at most `quota` interruptions
    | Cut     // delivers `quota` more bytes and then fails

  predicate Behaves(kind: Kind, quota: nat, wire: seq<byte>, r: Report, left: nat) {
    match kind
    case Wild => left == quota
    case Clean =>
      && (r.asked > 0 && r.err == None ==> r.n > 0)
      && (r.err.Some? ==> r.err.value.Eof? || r.err.value.IsContextError())
      && left + (if r.err.Some? && r.err.value.IsContextError() then 1 else 0) == quota
    case Cut =>
      && left + r.n == quota
      && (r.asked > 0 ==> if quota == 0 || wire == [] then r.err.Some? else r.err == None && r.n > 0)
  }

  class ByteSource {
    /** The bytes still to be delivered. */
    var wire: seq<byte>
    /** Whether a call that asks for bytes either yields some or fails, and never does both. */
    const strict: bool
    const kind: Kind
    var quota: nat
    /** How often Read has been called, and what the last call gave. */
    ghost var calls: nat
    ghost var last: Report

    constructor (wire: seq<byte>, strict: bool, kind: Kind, quota: nat)
      ensures this.wire == wire && this.strict == strict && this.kind == kind && this.quota == quota && calls == 0
    {
      this.wire, this.strict, this.kind, this.quota := wire, strict, kind, quota;
      calls, last := 0, Report(0, 0, None);
    }

    /** Since the given moment nothing but e has gone wrong, and e is what the last call of Read said. */
    ghost predicate Blamed(calls0: nat, quota0: nat, e: Option<IoError>)
      reads this
    {
      && calls0 <= calls && quota <= quota0
      && (e.Some? ==> calls0 < calls && last.asked > 0 && e.value == Told(last))
      && (e.Some? ==> (last.err == None ==> last.n == 0) && (e.value.Eof? ==> wire == []))
      && (e.Some? && kind.Clean? ==> e.value.Eof? || (e.value.IsContextError() && quota < quota0))
    }

    /**
     What one or more calls in a row have done to a stream of so many bytes: an error is what the
     last call said, end of file is the end, and a stream that is cut fails where it is cut.
     */
    ghost predicate Served(size0: nat, calls0: nat, quota0: nat, failed: bool)
      reads this
    {
      && Blamed(calls0, quota0, if failed then Some(Told(last)) else None)
      && (kind.Cut? ==>
            |wire| <= size0 && quota + size0 == quota0 + |wire| && (failed ==> quota == 0 || wire == []))
    }

    /** Any number of bytes that fit, with or without an error; end of file only at the end. */
    method Read(dst: array<byte>, lo: nat, hi: nat) returns (n: nat, err: Option<IoError>)
      requires lo <= hi <= dst.Length
      modifies this, dst
      ensures lo + n <= hi && n <= |old(wire)| && wire == old(wire)[n..]
      ensures dst[..] == old(dst[..lo]) + old(wire)[..n] + old(dst[lo + n..])
      ensures err == Some(Eof) ==> wire == []
      ensures strict ==> (err.Some? ==> n == 0 && lo < hi) && (lo < hi && err == None ==> n > 0)
      ensures last == Report(hi - lo, n, err) && calls == old(calls) + 1
      ensures Behaves(kind, old(quota), old(wire), last, quota)
    {
      var k: int := *;
      var most := Min(hi - lo, |wire|);
      if kind.Cut? { most := Min(most, quota); }
      n := if 0 <= k <= most then k else 0;
      if kind != Wild && n == 0 { n := Min(1, most); }
      forall i | 0 <= i < n { dst[lo + i] := wire[i]; }
      var before := wire;
      wire := wire[n..];
      err := Choose(before, hi - lo, n);
      if kind.Clean? && err.Some? && err.value.IsContextError() { quota := quota - 1; }
      if kind.Cut? { quota := quota - n; }
      calls, last := calls + 1, Report(hi - lo, n, err);
    }

    /** Some error, or none, that the kind of stream allows. */
    method Choose(before: seq<byte>, asked: nat, n: nat) returns (err: Option<IoError>)
      requires n <= |before| && n <= asked && wire == before[n..]
      requires kind.Clean? && asked > 0 && before != [] ==> n > 0
      requires kind.Cut? ==> n <= quota && (asked > 0 && before != [] && quota > 0 ==> n > 0)
      ensures err == Some(Eof) ==> wire == []
      ensures strict ==> (err.Some? ==> n == 0 && asked > 0) && (asked > 0 && err == None ==> n > 0)
      ensures kind.Clean? ==> err == None || err == Some(Eof) || (err.value.IsContextError() && quota > 0)
      ensures kind.Clean? && asked > 0 && err == None ==> n > 0
      ensures kind.Cut? && asked > 0 ==> if quota == 0 || before == [] then err.Some? else err == None
    {
      err := *;
      if err == Some(Eof) && wire != [] { err := None; }
      if strict && (n > 0 || asked == 0) { err := None; }
      if kind.Clean? && err.Some? && err != Some(Eof) && !(err.value.IsContextError() && quota > 0) { err := None; }
      if kind.Cut? && asked > 0 && quota > 0 && before != [] { err := None; }
      if err == None && n == 0 && asked > 0 {
        if wire == [] {
          if strict || kind != Wild { err := Some(Eof); }
        } else if strict || kind.Cut? {
          err := Some(Failed(0));
        }
      }
    }
  }

  /** Reads exactly dst[..hi], or fails having taken fewer bytes. */
  method ReadFull(source: ByteSource, dst: array<byte>, hi: nat) returns (err: Option<IoError>, ghost took: nat)
    requires source.strict && hi <= dst.Length
    modifies source, dst
    ensures took <= |old(source.wire)| && source.wire == old(source.wire)[took..] && took <= hi
    ensures err == None <==> took == hi
    ensures err == None ==> dst[..hi] == old(source.wire)[..hi]
    ensures source.Served(|old(source.wire)|, old(source.calls), old(source.quota), err.Some?)
    ensures err.Some? ==>
              err.value == if Told(source.last) == Eof && took > 0 then UnexpectedEof else Told(source.last)
  {
    var have := 0;
    took := 0;
    ghost var wire := source.wire;
    while have < hi
      invariant have == took <= hi && have <= |wire| && source.wire == wire[have..] && dst[..have] == wire[..have]
      invariant source.Served(|wire|, old(source.calls), old(source.quota), false)
    {
      ghost var before := dst[..];
      var n, readError := source.Read(dst, have, hi);
      assert dst[..have + n] == before[..have] + wire[have..][..n];
      have, took := have + n, took + n;
      if readError.Some? {
        return if readError == Some(Eof) && have > 0 then Some(UnexpectedEof) else readError, took;
      }
    }
    err := None;
  }

  /** Takes and drops exactly size bytes, or fails having taken fewer. */
  method SkipN(source: ByteSource, size: nat) returns (err: Option<IoError>, ghost took: nat)
    requires source.strict
    modifies source
    ensures took <= |old(source.wire)| && source.wire == old(source.wire)[took..] && took <= size
    ensures err == None <==> took == size
    ensures source.Served(|old(source.wire)|, old(source.calls), old(source.quota), err.Some?)
    ensures err.Some? ==> err.value == Told(source.last)
  {
    var scratch := new byte[size];
    var have := 0;
    took := 0;
    ghost var wire := source.wire;
    while have < size
      invariant have == took <= size && have <= |wire| && source.wire == wire[have..]
      invariant source.Served(|wire|, old(source.calls), old(source.quota), false)
    {
      var n, readError := source.Read(scratch, have, size);
      have, took := have + n, took + n;
      if readError.Some? { return readError, took; }
    }
    err := None;
  }
}
