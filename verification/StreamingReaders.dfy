/**
 Waiting readers of a request on the serial executor. Completions are announced by one token, so
 the promise that a reader is woken depends on how many of them there are.
 */
module StreamingReaders {
  import opened Bytes
  import opened Runs
  import opened StreamingModel
  import opened StreamingSafety
  import opened StreamingRuns

  /** A waiting reader with something to wait for no longer can go on. */
  ghost predicate Awake(s: State) {
    forall r :: r in s.env.waiting && (s.pending != [] || s.done) ==>
                  Enabled(s, EvToken(r)) || Enabled(s, EvSeesDone(r))
  }

  // ---------- one reader at a time ----------

  /** Nobody starts to read while somebody waits. */
  predicate TakesTurns(s: State, ev: Event) {
    ev.EvRead? ==> s.env.waiting == {}
  }

  /** At most one reader waits, and with bytes pending the token is there for it. */
  ghost predicate Attended(s: State) {
    && (forall a, b :: a in s.env.waiting && b in s.env.waiting ==> a == b)
    && (s.env.waiting != {} && s.pending != [] ==> s.token)
  }

  /** No reader comes or goes, and bytes only arrive together with the token. */
  ghost predicate ReadersUntouched(s: State, t: State) {
    t.env.waiting == s.env.waiting && (t.token || (t.token == s.token && t.pending == s.pending))
  }

  lemma UntouchedIsAttended(s: State, t: State)
    requires Attended(s) && ReadersUntouched(s, t)
    ensures Attended(t)
  {
  }

  lemma StartReadKeepsReaders(s: State, ok: bool)
    ensures ReadersUntouched(s, StartRead(s, ok))
  {
    match ok
    case true =>
    case false =>
  }

  lemma OwnTaskKeepsReaders(s: State, t: Task, ok: bool)
    requires !IsCallback(t)
    ensures ReadersUntouched(s, Run(s, t, ok))
  {
    match t
    case TStart =>
    case TStartRead => StartReadKeepsReaders(s, ok);
    case TCancel(e) =>
    case TInitFailed =>
    case TUploadDone =>
    case TCleanup =>
  }

  lemma RedirectKeepsReaders(s: State, d: Decision, ok: bool)
    ensures ReadersUntouched(s, RunRedirect(s, d, ok))
  {
    match d
    case Follow =>
    case Decline =>
    case Unexpected(_) =>
  }

  lemma ResponseKeepsReaders(s: State, bad: Option<int>, ok: bool)
    ensures ReadersUntouched(s, RunResponse(s, bad, ok))
  {
    var s1 := s.(env := s.env.(responded := true, log := s.env.log + [Responded]));
    if bad == None { StartReadKeepsReaders(s1, ok); }
  }

  lemma OtherCallbackKeepsReaders(s: State, t: Task, ok: bool)
    requires t.TReadCompleted? || t.TUploadRequest? || t.TUploadClose? || t.TTerminal?
    ensures ReadersUntouched(s, Run(s, t, ok))
  {
    match t
    case TReadCompleted(_) =>
    case TUploadRequest =>
    case TUploadClose =>
    case TTerminal(_) =>
  }

  lemma CallbackKeepsReaders(s: State, t: Task, ok: bool)
    requires IsCallback(t)
    ensures ReadersUntouched(s, Run(s, t, ok))
  {
    if t.TRedirect? {
      RedirectKeepsReaders(s, t.decision, ok);
    } else if t.TResponse? {
      ResponseKeepsReaders(s, RefusedStatus(t.hooked, t.code), ok);
    } else {
      OtherCallbackKeepsReaders(s, t, ok);
    }
  }

  lemma TaskKeepsReaders(s: State, ok: bool)
    requires s.queue != []
    ensures ReadersUntouched(s, RunNext(s, ok))
  {
    var s0, t := s.(queue := s.queue[1..]), s.queue[0];
    if IsCallback(t) { CallbackKeepsReaders(s0, t, ok); } else { OwnTaskKeepsReaders(s0, t, ok); }
  }

  lemma FirstReaderIsAttended(s: State, reader: nat, room: nat)
    requires s.env.waiting == {} && room > 0
    ensures Attended(ReadPass(s, reader, room))
  {
    if s.pending == [] && s.err == None {
      assert ReadPass(s, reader, room).env.waiting == {reader};
    }
  }

  lemma PostKeepsReaders(s: State, t: Task)
    ensures ReadersUntouched(s, Post(s, t))
  {
  }

  lemma CancelKeepsReaders(s: State, e: Error)
    ensures ReadersUntouched(s, CancelWithError(s, e))
  {
  }

  /** A reader leaves, with or without the token, and takes it away from nobody. */
  lemma LeaveIsAttended(s: State, reader: nat)
    requires Attended(s) && reader in s.env.waiting
    ensures Attended(Leave(s, reader)) && Attended(Leave(s, reader).(token := false))
  {
    assert Leave(s, reader).env.waiting == {};
  }

  lemma StepIsAttended(s: State, ev: Event, t: State)
    requires Attended(s) && Enabled(s, ev) && TakesTurns(s, ev) && t == Step(s, ev)
    ensures Attended(t)
  {
    match ev
    case EvRun(ok) => TaskKeepsReaders(s, ok);
    case EvRead(reader, room) => FirstReaderIsAttended(s, reader, room);
    case EvPost(task) => PostKeepsReaders(s, task);
    case EvCancel(e) => CancelKeepsReaders(s, e);
    case EvToken(reader) => LeaveIsAttended(s, reader);
    case EvSeesDone(reader) => LeaveIsAttended(s, reader);
    case EvGivesUp(reader) => LeaveIsAttended(s, reader);
    case EvStart =>
    case EvWorkerDone(_) =>
  }

  /**
   Readers that take turns are never left waiting, however many goroutines they are: with bytes
   pending the token is there, and after the end the done channel is closed by the cleanup.
   */
  lemma ReadersInTurnAreWoken(states: seq<State>, events: seq<Event>, i: nat)
    requires IsRun(states, events) && i < |states|
    requires forall k :: 0 <= k < i ==> TakesTurns(states[k], events[k])
    ensures Attended(states[i]) && Awake(states[i])
  {
    forall k | 0 <= k < i && Attended(states[k]) ensures Attended(states[k + 1]) {
      StepIsAttended(states[k], events[k], states[k + 1]);
    }
    Preserved(states, Attended, i);
  }

  // ---------- a set of readers ----------

  /** All reads of the run come from these goroutines. */
  ghost predicate From(events: seq<Event>, readers: iset<nat>) {
    forall k :: 0 <= k < |events| && events[k].EvRead? ==> events[k].reader in readers
  }

  /** Whatever they and everybody else do, none of them is left asleep. */
  ghost predicate NeverStranded(readers: iset<nat>) {
    forall states, events :: IsRun(states, events) && From(events, readers) ==>
      forall i :: 0 <= i < |states| ==> Awake(states[i])
  }

  ghost predicate OnlyThese(readers: iset<nat>, s: State) {
    forall r :: r in s.env.waiting ==> r in readers
  }

  lemma StepAddsReader(s: State, ev: Event, t: State, readers: iset<nat>)
    requires Enabled(s, ev) && t == Step(s, ev) && OnlyThese(readers, s) && (ev.EvRead? ==> ev.reader in readers)
    ensures OnlyThese(readers, t)
  {
    match ev
    case EvRun(ok) => TaskKeepsReaders(s, ok);
    case EvRead(reader, room) => ReadPassAddsReader(s, reader, room);
    case EvPost(task) => PostKeepsReaders(s, task);
    case EvCancel(e) => CancelKeepsReaders(s, e);
    case _ =>
  }

  lemma ReadPassAddsReader(s: State, reader: nat, room: nat)
    requires room > 0
    ensures forall r :: r in ReadPass(s, reader, room).env.waiting ==> r in s.env.waiting || r == reader
  {
    if s.pending == [] && s.err == None {
      assert ReadPass(s, reader, room).env.waiting == s.env.waiting + {reader};
    } else {
      assert ReadPass(s, reader, room).env.waiting == s.env.waiting;
    }
  }

  lemma OnlyTheseWait(states: seq<State>, events: seq<Event>, readers: iset<nat>, i: nat)
    requires IsRun(states, events) && From(events, readers) && i < |states|
    ensures OnlyThese(readers, states[i])
  {
    var these := (s: State) => OnlyThese(readers, s);
    forall k | 0 <= k < i && these(states[k]) ensures these(states[k + 1]) {
      StepAddsReader(states[k], events[k], states[k + 1], readers);
    }
    Preserved(states, these, i);
  }

  lemma OneReaderIsWoken(readers: iset<nat>)
    requires forall a, b :: a in readers && b in readers ==> a == b
    ensures NeverStranded(readers)
  {
    forall states: seq<State>, events: seq<Event>, i: nat | IsRun(states, events) && From(events, readers)
        && i < |states|
      ensures Awake(states[i])
    {
      forall k | 0 <= k < i ensures TakesTurns(states[k], events[k]) {
        OnlyTheseWait(states, events, readers, k);
        if events[k].EvRead? { OneWaitsAlone(states[k], events[k].reader, readers); }
      }
      ReadersInTurnAreWoken(states, events, i);
    }
  }

  /** Whoever starts to read is not waiting, and nobody else can be. */
  lemma OneWaitsAlone(s: State, reader: nat, readers: iset<nat>)
    requires forall a, b :: a in readers && b in readers ==> a == b
    requires OnlyThese(readers, s) && reader in readers && reader !in s.env.waiting
    ensures s.env.waiting == {}
  {
    forall r | r in s.env.waiting ensures false {}
  }

  // ---------- two readers ----------

  const NOTHING := Env(NoUpload, true, false, false, 0, 0, 0, false, false, false, {}, [], [], [])
  const STARTED := NOTHING.(log := [Start(true)])
  const READING := STARTED.(responded := true, nativeRead := true, log := [Start(true), Responded, Read(true)])
  const COMPLETED := READING.(nativeRead := false, completed := [7, 8])
  const DONE_LOG := [Start(true), Responded, Read(true), ReadDone]

  /** A request that has started without an upload, has no error, and is not over. */
  function Going(readPending: bool, pending: seq<byte>, token: bool, queue: seq<Task>, env: Env): State {
    State(true, false, readPending, 0, false, None, pending, token, false, queue, env)
  }

  /** Two readers wait, two bytes arrive, and the first reader takes one of them. */
  function TwoReaderEvents(a: nat, b: nat): seq<Event> {
    [EvStart, EvRun(true), EvPost(TResponse(false, 200)), EvRun(true),
     EvRead(a, 1), EvRead(b, 1), EvPost(TReadCompleted([7, 8])), EvRun(true), EvToken(a), EvRead(a, 1)]
  }

  function TwoReaderStates(a: nat, b: nat): seq<State> {
    [Initial(NoUpload, true),
     Initial(NoUpload, true).(queue := [TStart]),
     Going(false, [], false, [], STARTED),
     Going(false, [], false, [TResponse(false, 200)], STARTED),
     Going(true, [], false, [], READING),
     Going(true, [], false, [], READING.(waiting := {a})),
     Going(true, [], false, [], READING.(waiting := {a, b})),
     Going(true, [], false, [TReadCompleted([7, 8])], COMPLETED.(waiting := {a, b})),
     Going(false, [7, 8], true, [], COMPLETED.(waiting := {a, b}, log := DONE_LOG)),
     Going(false, [7, 8], false, [], COMPLETED.(waiting := {b}, log := DONE_LOG)),
     Going(false, [8], false, [], COMPLETED.(waiting := {b}, log := DONE_LOG, delivered := [7]))]
  }

  predicate Leads(s: State, ev: Event, t: State) {
    Enabled(s, ev) && Step(s, ev) == t
  }

  lemma TheyStart(states: seq<State>, events: seq<Event>, a: nat, b: nat)
    requires states == TwoReaderStates(a, b) && events == TwoReaderEvents(a, b)
    ensures forall i :: 0 <= i < 2 ==> Leads(states[i], events[i], states[i + 1])
  {
    assert Leads(states[0], EvStart, states[1]);
    assert Leads(states[1], EvRun(true), states[2]);
  }

  lemma TheyGetAResponse(states: seq<State>, events: seq<Event>, a: nat, b: nat)
    requires states == TwoReaderStates(a, b) && events == TwoReaderEvents(a, b)
    ensures forall i :: 2 <= i < 4 ==> Leads(states[i], events[i], states[i + 1])
  {
    assert Leads(states[2], EvPost(TResponse(false, 200)), states[3]);
    assert Leads(states[3], EvRun(true), states[4]);
  }

  lemma TheyWait(states: seq<State>, events: seq<Event>, a: nat, b: nat)
    requires a != b && states == TwoReaderStates(a, b) && events == TwoReaderEvents(a, b)
    ensures forall i :: 4 <= i < 7 ==> Leads(states[i], events[i], states[i + 1])
  {
    assert Leads(states[4], EvRead(a, 1), states[5]);
    assert {a} + {b} == {a, b};
    assert Leads(states[5], EvRead(b, 1), states[6]);
    assert Leads(states[6], EvPost(TReadCompleted([7, 8])), states[7]);
  }

  lemma OneIsServed(states: seq<State>, events: seq<Event>, a: nat, b: nat)
    requires a != b && states == TwoReaderStates(a, b) && events == TwoReaderEvents(a, b)
    ensures forall i :: 7 <= i < 10 ==> Leads(states[i], events[i], states[i + 1])
  {
    assert Leads(states[7], EvRun(true), states[8]);
    assert {a, b} - {a} == {b};
    assert Leads(states[8], EvToken(a), states[9]);
    assert Leads(states[9], EvRead(a, 1), states[10]);
  }

  /** Bytes are pending, the executor, the library and the workers are idle, and the reader sleeps. */
  ghost predicate Stranded(s: State, reader: nat) {
    && reader in s.env.waiting && s.pending != [] && !s.token && !s.done
    && s.queue == [] && !s.env.nativeRead && s.env.workers == 0
  }

  /** Any two readers can come to a state in which one of them sleeps for good. */
  lemma SecondReaderSleeps(a: nat, b: nat) returns (states: seq<State>, events: seq<Event>)
    requires a != b
    ensures IsRun(states, events) && From(events, iset{a, b}) && Stranded(states[|states| - 1], b)
  {
    states, events := TwoReaderStates(a, b), TwoReaderEvents(a, b);
    TheyStart(states, events, a, b);
    TheyGetAResponse(states, events, a, b);
    TheyWait(states, events, a, b);
    OneIsServed(states, events, a, b);
    assert states[0] == Initial(NoUpload, true);
    forall i | 0 <= i < |events| ensures Enabled(states[i], events[i]) && states[i + 1] == Step(states[i], events[i]) {
      assert Leads(states[i], events[i], states[i + 1]);
    }
  }

  lemma TwoReadersCanBeStranded(readers: iset<nat>, a: nat, b: nat)
    requires a in readers && b in readers && a != b
    ensures !NeverStranded(readers)
  {
    var states, events := SecondReaderSleeps(a, b);
    assert From(events, readers);
    var s := states[|states| - 1];
    assert !Enabled(s, EvToken(b)) && !Enabled(s, EvSeesDone(b));
    assert !Awake(s);
  }

  /** The readers of a request are safe from being left asleep exactly if they are only one. */
  lemma ReadersAreWoken(readers: iset<nat>)
    ensures NeverStranded(readers) <==> forall a, b :: a in readers && b in readers ==> a == b
  {
    if a, b :| a in readers && b in readers && a != b {
      TwoReadersCanBeStranded(readers, a, b);
    } else {
      OneReaderIsWoken(readers);
    }
  }
}
