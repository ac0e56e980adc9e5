/**
 Who has to close the bodies of an upload. Reads and rewinds come one after the other from the
 native library, on a worker; a stop can come at any time, from anywhere, any number of times, and
 takes the body away from under them. A step is one critical section of the provider's mutex, one
 call of the application's body, or one Close.
 */
module UploadBodyModel {
  import opened Bytes
  import opened Counting
  import opened Runs

  datatype Error = ClosedPipe | UnexpectedEof | Eof | NotSupported | NoBody | NoProgress | Other(code: int)

  datatype Worker =
    | Free
    | Reading(body: nat, limit: nat)
    | ClosingOld(former: Option<nat>)       // in a rewind, the old body in hand
    | Getting                            // about to ask for a new body
    | Holding(body: nat)                 // has got one
    | Discarding(body: nat)              // and was stopped meanwhile

  datatype State = State(
    reader: Option<nat>, closed: bool,
    length: int, readLen: nat, rewindable: bool,
    worker: Worker,
    stoppers: seq<Option<nat>>,          // bodies that calls of stop still have to close
    closes: seq<nat>,                    // how often each body ever obtained has been closed
    got: nat)                            // bytes reported since the last body was installed

  function Initial(length: int, rewindable: bool): State {
    State(Some(0), false, length, 0, rewindable, Free, [], [0], 0)
  }

  /** The part of a buffer that a read may fill. */
  function Limit(s: State, room: nat): nat {
    if s.length > 0 then (if s.readLen < s.length then Min(room, s.length - s.readLen) else 0) else room
  }

  function BeginRead(s: State, room: nat): State {
    match s.reader
    case Some(b) => s.(worker := Reading(b, Limit(s, room)))
    case None => s
  }

  /** What a read reports, given what the body did. With a declared length the end is never a success. */
  function Report(s: State, n: nat, e: Option<Error>): (r: Option<Error>) {
    if s.length > 0 && e == Some(Eof) then
      if s.readLen + n == s.length && n > 0 then None else Some(UnexpectedEof)
    else e
  }

  function EndRead(s: State, n: nat): State {
    s.(worker := Free, readLen := s.readLen + n, got := s.got + n)
  }

  function BeginRewind(s: State): State {
    if !s.rewindable || s.closed then s else s.(worker := ClosingOld(s.reader), reader := None)
  }

  function CloseBody(s: State, b: Option<nat>): State {
    if b.Some? && b.value < |s.closes| then s.(closes := s.closes[b.value := s.closes[b.value] + 1]) else s
  }

  function OldClosed(s: State): State
    requires s.worker.ClosingOld?
  {
    CloseBody(s, s.worker.former).(worker := Getting)
  }

  function GetBody(s: State, ok: bool): State {
    if ok then s.(worker := Holding(|s.closes|), closes := s.closes + [0]) else s.(worker := Free)
  }

  function Install(s: State): State
    requires s.worker.Holding?
  {
    if s.closed then s.(worker := Discarding(s.worker.body))
    else s.(worker := Free, reader := Some(s.worker.body), readLen := 0, got := 0)
  }

  function Discard(s: State): State
    requires s.worker.Discarding?
  {
    CloseBody(s, Some(s.worker.body)).(worker := Free)
  }

  function Stop(s: State): State {
    s.(closed := true, reader := None, stoppers := s.stoppers + [s.reader])
  }

  function Stopped(s: State, k: nat): State
    requires k < |s.stoppers|
  {
    CloseBody(s, s.stoppers[k]).(stoppers := s.stoppers[k := None])
  }

  // ---------- events ----------

  datatype Event =
    | EvBeginRead(room: nat) | EvEndRead(n: nat)
    | EvBeginRewind | EvOldClosed | EvGetBody(ok: bool) | EvInstall | EvDiscard
    | EvStop | EvStopped(k: nat)

  predicate Enabled(s: State, ev: Event) {
    match ev
    case EvBeginRead(_) => s.worker.Free?
    case EvEndRead(n) => s.worker.Reading? && n <= s.worker.limit
    case EvBeginRewind => s.worker.Free?
    case EvOldClosed => s.worker.ClosingOld?
    case EvGetBody(_) => s.worker.Getting?
    case EvInstall => s.worker.Holding?
    case EvDiscard => s.worker.Discarding?
    case EvStop => true
    case EvStopped(k) => k < |s.stoppers| && s.stoppers[k].Some?
  }

  function Step(s: State, ev: Event): State
    requires Enabled(s, ev)
  {
    match ev
    case EvBeginRead(room) => BeginRead(s, room)
    case EvEndRead(n) => EndRead(s, n)
    case EvBeginRewind => BeginRewind(s)
    case EvOldClosed => OldClosed(s)
    case EvGetBody(ok) => GetBody(s, ok)
    case EvInstall => Install(s)
    case EvDiscard => Discard(s)
    case EvStop => Stop(s)
    case EvStopped(k) => Stopped(s, k)
  }

  ghost predicate IsRun(states: seq<State>, events: seq<Event>) {
    && |states| == |events| + 1
    && (exists length, rewindable :: states[0] == Initial(length, rewindable))
    && forall i :: 0 <= i < |events| ==> Enabled(states[i], events[i]) && states[i + 1] == Step(states[i], events[i])
  }

  // ---------- invariants ----------

  /** The body that the worker has in hand and has to close or to install. */
  function InHand(w: Worker): Option<nat> {
    match w
    case ClosingOld(b) => b
    case Holding(b) => Some(b)
    case Discarding(b) => Some(b)
    case _ => None
  }

  /** Each body has been closed, or exactly one party has it. */
  ghost predicate Owned(s: State) {
    forall b :: 0 <= b < |s.closes| ==>
      s.closes[b] + Bit(s.reader == Some(b)) + Bit(InHand(s.worker) == Some(b)) + multiset(s.stoppers)[Some(b)] == 1
  }

  ghost predicate Known(s: State) {
    && (s.reader.Some? ==> s.reader.value < |s.closes| && !s.closed)
    && (InHand(s.worker).Some? ==> InHand(s.worker).value < |s.closes|)
    && (s.worker.Free? || s.worker.Reading? || s.reader == None)
    && forall k :: 0 <= k < |s.stoppers| && s.stoppers[k].Some? ==> s.stoppers[k].value < |s.closes|
  }

  predicate Lengths(s: State) {
    && s.got == s.readLen
    && (s.length > 0 ==> s.readLen <= s.length)
    && (s.length > 0 && s.worker.Reading? ==> s.readLen + s.worker.limit <= s.length)
    && (s.worker.Discarding? ==> s.closed)
  }

  ghost predicate Inv(s: State) {
    Owned(s) && Known(s) && Lengths(s)
  }

  lemma StopKeeps(s: State)
    requires Inv(s)
    ensures Inv(Stop(s))
  {
    assert multiset(s.stoppers + [s.reader]) == multiset(s.stoppers) + multiset{s.reader};
  }

  lemma StoppedKeeps(s: State, k: nat)
    requires Inv(s) && Enabled(s, EvStopped(k))
    ensures Inv(Stopped(s, k))
  {
    var x := s.stoppers[k];
    assert multiset(s.stoppers[k := None]) == multiset(s.stoppers) - multiset{x} + multiset{None};
    assert x in multiset(s.stoppers);
  }

  lemma GetBodyKeeps(s: State, ok: bool)
    requires Inv(s) && s.worker.Getting?
    ensures Inv(GetBody(s, ok))
  {
    forall k | 0 <= k < |s.stoppers| ensures s.stoppers[k] != Some(|s.closes|) {}
    assert Some(|s.closes|) !in multiset(s.stoppers);
  }

  lemma ReadKeeps(s: State, room: nat, n: nat)
    requires Inv(s) && s.worker.Free? && s.reader.Some? && n <= Limit(s, room)
    ensures Inv(BeginRead(s, room)) && Inv(EndRead(BeginRead(s, room), n))
  {
  }

  lemma BeginRewindKeeps(s: State)
    requires Inv(s) && s.worker.Free?
    ensures Inv(BeginRewind(s))
  {
  }

  lemma OldClosedKeeps(s: State)
    requires Inv(s) && s.worker.ClosingOld?
    ensures Inv(OldClosed(s))
  {
  }

  lemma InstallKeeps(s: State)
    requires Inv(s) && s.worker.Holding?
    ensures Inv(Install(s))
  {
  }

  lemma DiscardKeeps(s: State)
    requires Inv(s) && s.worker.Discarding?
    ensures Inv(Discard(s))
  {
  }

  lemma StepKeeps(s: State, ev: Event)
    requires Inv(s) && Enabled(s, ev)
    ensures Inv(Step(s, ev))
  {
    match ev
    case EvBeginRead(room) => if s.reader.Some? { ReadKeeps(s, room, 0); }
    case EvEndRead(n) =>
    case EvGetBody(ok) => GetBodyKeeps(s, ok);
    case EvStop => StopKeeps(s);
    case EvStopped(k) => StoppedKeeps(s, k);
    case EvBeginRewind => BeginRewindKeeps(s);
    case EvOldClosed => OldClosedKeeps(s);
    case EvInstall => InstallKeeps(s);
    case EvDiscard => DiscardKeeps(s);
  }

  lemma RunKeepsInv(states: seq<State>, events: seq<Event>, i: nat)
    requires IsRun(states, events) && i < |states|
    ensures Inv(states[i])
  {
    var length, rewindable :| states[0] == Initial(length, rewindable);
    forall k | 0 <= k < i && Inv(states[k]) ensures Inv(states[k + 1]) {
      StepKeeps(states[k], events[k]);
    }
    Preserved(states, Inv, i);
  }

  // ---------- results ----------

  /** Everybody who had a body to close has closed it. */
  predicate Settled(s: State) {
    s.closed && InHand(s.worker) == None && forall k :: 0 <= k < |s.stoppers| ==> s.stoppers[k] == None
  }

  /** No body is ever closed twice, and each has been closed when stop and any rewind are through. */
  lemma BodiesAreClosedOnce(states: seq<State>, events: seq<Event>, i: nat, b: nat)
    requires IsRun(states, events) && i < |states| && b < |states[i].closes|
    ensures states[i].closes[b] <= 1
    ensures Settled(states[i]) ==> states[i].closes[b] == 1
    ensures states[i].closes[b] == 0 ==>
              states[i].reader == Some(b) || InHand(states[i].worker) == Some(b) || Some(b) in states[i].stoppers
  {
    RunKeepsInv(states, events, i);
    var s := states[i];
    if Some(b) in multiset(s.stoppers) { assert Some(b) in s.stoppers; }
  }

  /** Somebody who has a body in hand can always go on. */
  lemma SettlingGoesOn(states: seq<State>, events: seq<Event>, i: nat)
    requires IsRun(states, events) && i < |states| && states[i].closed && !Settled(states[i])
    ensures var s := states[i];
            || Enabled(s, EvOldClosed) || Enabled(s, EvInstall) || Enabled(s, EvDiscard)
            || exists k :: 0 <= k < |s.stoppers| && Enabled(s, EvStopped(k))
  {
    var s := states[i];
    if InHand(s.worker) == None {
      var k :| 0 <= k < |s.stoppers| && s.stoppers[k] != None;
      assert Enabled(s, EvStopped(k));
    }
  }

  predicate IsStopped(s: State) {
    s.closed
  }

  predicate Stops(s: State, ev: Event) {
    ev.EvStop?
  }

  lemma StepStops(s: State, ev: Event, t: State)
    requires Inv(s) && Enabled(s, ev) && t == Step(s, ev)
    ensures IsStopped(t) <==> IsStopped(s) || Stops(s, ev)
    ensures IsStopped(t) ==> t.reader == None
  {
  }

  /** A stop, and nothing else, closes the provider; from then on there is no body to read or to rewind to. */
  lemma StoppedByStop(states: seq<State>, events: seq<Event>, i: nat)
    requires IsRun(states, events) && i < |states|
    ensures states[i].closed <==> exists k :: 0 <= k < i && Stops(states[k], events[k])
    ensures states[i].closed ==> states[i].reader == None
  {
    forall k | 0 <= k < i
      ensures IsStopped(states[k + 1]) <==> IsStopped(states[k]) || Stops(states[k], events[k])
    {
      RunKeepsInv(states, events, k);
      StepStops(states[k], events[k], states[k + 1]);
    }
    Raised(states, events, IsStopped, Stops, i);
    if i > 0 {
      RunKeepsInv(states, events, i - 1);
      StepStops(states[i - 1], events[i - 1], states[i]);
    }
  }

  /** What is reported of a read, with the bytes since the last rewind. */
  lemma ReportsExactly(states: seq<State>, events: seq<Event>, i: nat, n: nat, e: Option<Error>)
    requires IsRun(states, events) && i < |states|
    ensures states[i].length <= 0 || e != Some(Eof) ==> Report(states[i], n, e) == e
    ensures states[i].length > 0 && e == Some(Eof) ==>
              Report(states[i], n, e) ==
                if n > 0 && states[i].got + n == states[i].length then None else Some(UnexpectedEof)
  {
    RunKeepsInv(states, events, i);
  }

  /** With a declared length no more than that is reported since the last rewind, and never a final chunk. */
  lemma LengthIsKept(states: seq<State>, events: seq<Event>, i: nat, n: nat, e: Option<Error>)
    requires IsRun(states, events) && i < |states| && states[i].length > 0
    ensures states[i].got <= states[i].length
    ensures Enabled(states[i], EvEndRead(n)) ==> states[i].got + n <= states[i].length
    ensures Report(states[i], n, e) != Some(Eof)
    ensures e == Some(Eof) && Report(states[i], n, e) == None ==> states[i].got + n == states[i].length
  {
    RunKeepsInv(states, events, i);
  }
}

/** The provider object: each method is one critical section, proved to be a transition of the model. */
module UploadBodies {
  import opened Bytes
  import opened UploadBodyModel

  /** What the application's body says to one Read. */
  datatype Answer = Answer(n: nat, e: Option<Error>)

  /** The notification that answers a native read; the end makes the chunk the final one. */
  datatype SinkCall = ReadSucceeded(n: nat, final: bool) | ReadError(e: Error)

  class ReaderUploadProvider {
    var reader: Option<nat>
    var closed: bool
    var readLen: nat
    const length: int
    const rewindable: bool
    ghost var worker: Worker
    ghost var stoppers: seq<Option<nat>>
    ghost var closes: seq<nat>
    ghost var got: nat

    ghost function Abs(): State
      reads this
    {
      State(reader, closed, length, readLen, rewindable, worker, stoppers, closes, got)
    }

    constructor (length: int, rewindable: bool)
      ensures Abs() == Initial(length, rewindable)
    {
      this.length, this.rewindable := length, rewindable;
      reader, closed, readLen := Some(0), false, 0;
      worker, stoppers, closes, got := Free, [], [0], 0;
    }

    /**
     A whole read: the body answers with some bytes, in the part of the buffer it is given, and
     perhaps an error; with a declared length its end is no error exactly when it comes with the last bytes.
     */
    method Read(room: nat, answer: Answer) returns (n: nat, e: Option<Error>)
      requires worker == Free && answer.n <= Limit(Abs(), room)
      modifies this
      ensures Abs() == if old(reader) == None then old(Abs()) else EndRead(BeginRead(old(Abs()), room), answer.n)
      ensures old(reader) == None ==> n == 0 && e == Some(ClosedPipe)
      ensures old(reader).Some? ==>
                && n == answer.n
                && e == if length <= 0 || answer.e != Some(Eof) then answer.e
                        else if n > 0 && readLen == length then None else Some(UnexpectedEof)
    {
      if reader == None { return 0, Some(ClosedPipe); }
      n, e := answer.n, answer.e;
      readLen := readLen + n;
      got := got + n;
      if length > 0 && e == Some(Eof) {
        e := if readLen == length && n > 0 then None else Some(UnexpectedEof);
      }
    }

    /**
     What a worker does with a native read: a body that gives nothing is asked a hundred times, and
     `asked` says how often; `answers` are what it says.
     */
    method Serve(room: nat, answers: seq<Answer>) returns (n: nat, e: Option<Error>, asked: nat, sink: SinkCall)
      requires worker == Free && Inv(Abs())
      requires |answers| == 100 && forall i :: 0 <= i < 100 ==> answers[i].n <= Limit(Abs(), room)
      modifies this
      ensures Inv(Abs()) && worker == Free && n <= room && (n == 0 ==> e.Some?)
      ensures length > 0 ==> e != Some(Eof) && got <= length
      ensures 1 <= asked <= 100
      ensures old(reader) == None ==> asked == 1 && n == 0 && e == Some(ClosedPipe)
      ensures old(reader).Some? ==>
                && (forall i :: 0 <= i < asked - 1 ==> answers[i] == Answer(0, None))
                && n == answers[asked - 1].n && got == old(got) + n
                && (answers[asked - 1] == Answer(0, None) ==> asked == 100 && e == Some(NoProgress))
                && (answers[asked - 1] != Answer(0, None) ==>
                      e == if length <= 0 || answers[asked - 1].e != Some(Eof) then answers[asked - 1].e
                           else if n > 0 && got == length then None else Some(UnexpectedEof))
      ensures sink == if e == None || e == Some(Eof) then ReadSucceeded(n, e == Some(Eof)) else ReadError(e.value)
    {
      n, e, asked := 0, None, 0;
      while asked < 100
        invariant 0 <= asked <= 100 && n == 0 && e == None
        invariant Abs() == old(Abs())
        invariant asked > 0 ==> reader.Some?
        invariant forall i :: 0 <= i < asked ==> answers[i] == Answer(0, None)
      {
        ghost var before := Abs();
        n, e := Read(room, answers[asked]);
        if before.reader.Some? { ReadKeeps(before, room, n); }
        asked := asked + 1;
        if n != 0 || e != None { break; }
      }
      if n == 0 && e == None { e := Some(NoProgress); }
      sink := if e == None || e == Some(Eof) then ReadSucceeded(n, e == Some(Eof)) else ReadError(e.value);
    }

    /** The first critical section of a rewind; `old` is to be closed by the caller. */
    method BeginRewind() returns (e: Option<Error>, old_: Option<nat>)
      requires worker == Free
      modifies this
      ensures Abs() == UploadBodyModel.BeginRewind(old(Abs()))
      ensures e == if !rewindable then Some(NotSupported) else if old(closed) then Some(ClosedPipe) else None
      ensures e == None ==> old_ == old(reader)
    {
      if !rewindable { return Some(NotSupported), None; }
      if closed { return Some(ClosedPipe), None; }
      old_ := reader;
      worker := ClosingOld(reader);
      reader := None;
      e := None;
    }

    /** The second one, with a new body: it is installed, or was stopped and has to be closed. */
    method Install(b: nat) returns (e: Option<Error>)
      requires worker == Holding(b)
      modifies this
      ensures Abs() == UploadBodyModel.Install(old(Abs()))
      ensures e == if old(closed) then Some(ClosedPipe) else None
    {
      if closed {
        worker := Discarding(b);
        return Some(ClosedPipe);
      }
      reader := Some(b);
      readLen := 0;
      worker := Free;
      got := 0;
      e := None;
    }

    /** The critical section of a stop; the returned body is to be closed by the caller. */
    method Stop() returns (b: Option<nat>)
      modifies this
      ensures Abs() == UploadBodyModel.Stop(old(Abs())) && b == old(reader)
    {
      closed := true;
      b := reader;
      reader := None;
      stoppers := stoppers + [b];
    }
  }
}
