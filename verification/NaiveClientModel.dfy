/**
 The start and the shutdown of a client, with any number of goroutines dialling, closing, and
 resetting connections. A step is one atomic operation on the state, one critical section of the
 lifecycle mutex, one operation on a wait group, or the closing of a channel. A wait on a wait
 group can be left when its counter is zero.
 */
module NaiveClientModel {
  import opened Counting

  datatype Phase = Created | Starting | Running | Closing | Closed

  /** Where the one goroutine is that won the right to start the client. */
  datatype Starter =
    | Nobody | StartingEngines
    | Announcing                          // running, and about to close `started`
    | FailedFirst | FailedSecond          // closed, and about to close `started`, then `closed`
    | Finished

  datatype Closer =
    | Looping | AwaitStarted | Swapping | Locking
    | CreatedFirst | CreatedSecond        // closed a client that never started; about to close the channels
    | AwaitOperations | AwaitConnections | Destroying | Storing | AnnouncingClosed
    | AwaitClosed | Returned

  datatype DialAt = Loading | AwaitStart | AtLock | Creating | Hooking | Launching | Leaving | Gone

  /** A dial, and the connection that it makes. */
  datatype Dial = Dial(
    at: DialAt,
    reserved: bool,            // counted in activeConnections
    hooked: bool, terminated: bool,
    due: bool,                 // the termination hook has been captured and is about to run
    releases: nat)             // how often the reservation has been given back

  datatype State = State(
    phase: Phase,
    startedCloses: nat, closedCloses: nat,
    operations: int, connections: int,
    starter: Starter, closers: seq<Closer>, dials: seq<Dial>,
    sweeps: nat,               // calls of CloseAllConnections in progress
    started: bool,             // engines have been made
    destroyed: nat)            // how often they have been destroyed

  const INITIAL := State(Created, 0, 0, 0, 0, Nobody, [], [], 0, false, 0)

  const NEW_DIAL := Dial(Loading, false, false, false, false, 0)

  // ---------- starting ----------

  function BeginStart(s: State): State {
    if s.phase == Created then s.(phase := Starting, starter := StartingEngines) else s
  }

  function EnginesStarted(s: State, ok: bool): State {
    if ok then s.(phase := Running, starter := Announcing, started := true)
    else s.(phase := Closed, starter := FailedFirst)
  }

  function Announce(s: State): State {
    match s.starter
    case Announcing => s.(startedCloses := s.startedCloses + 1, starter := Finished)
    case FailedFirst => s.(startedCloses := s.startedCloses + 1, starter := FailedSecond)
    case FailedSecond => s.(closedCloses := s.closedCloses + 1, starter := Finished)
    case _ => s
  }

  // ---------- closing ----------

  function SetCloser(s: State, j: nat, c: Closer): State
    requires j < |s.closers|
  {
    s.(closers := s.closers[j := c])
  }

  /** What a closer does next once it has read the state. */
  function Looked(phase: Phase): Closer {
    match phase
    case Created => Swapping
    case Starting => AwaitStarted
    case Running => Locking
    case Closing => AwaitClosed
    case Closed => Returned
  }

  predicate CloserMay(s: State, j: nat) {
    && j < |s.closers|
    && match s.closers[j]
       case AwaitStarted => s.startedCloses > 0
       case AwaitOperations => s.operations == 0
       case AwaitConnections => s.connections == 0
       case AwaitClosed => s.closedCloses > 0
       case Returned => false
       case _ => true
  }

  function CloserStep(s: State, j: nat): State
    requires CloserMay(s, j)
  {
    match s.closers[j]
    case Looping => SetCloser(s, j, Looked(s.phase))
    case AwaitStarted => SetCloser(s, j, Looping)
    case Swapping =>
      if s.phase == Created then SetCloser(s.(phase := Closed), j, CreatedFirst) else SetCloser(s, j, Looping)
    case CreatedFirst => SetCloser(s.(startedCloses := s.startedCloses + 1), j, CreatedSecond)
    case CreatedSecond => SetCloser(s.(closedCloses := s.closedCloses + 1), j, Returned)
    case Locking =>
      if s.phase == Running then SetCloser(s.(phase := Closing), j, AwaitOperations) else SetCloser(s, j, Looping)
    case AwaitOperations => SetCloser(s, j, AwaitConnections)
    case AwaitConnections => SetCloser(s, j, Destroying)
    case Destroying => SetCloser(s.(destroyed := s.destroyed + 1), j, Storing)
    case Storing => SetCloser(s.(phase := Closed), j, AnnouncingClosed)
    case AnnouncingClosed => SetCloser(s.(closedCloses := s.closedCloses + 1), j, Returned)
    case AwaitClosed => SetCloser(s, j, Returned)
  }

  // ---------- dialling ----------

  function SetDial(s: State, i: nat, d: Dial): State
    requires i < |s.dials|
  {
    s.(dials := s.dials[i := d])
  }

  /** The critical section that admits a dial, or does not. */
  function Admit(s: State, i: nat, live: bool): State
    requires i < |s.dials|
  {
    if s.phase == Running && live then
      SetDial(s, i, s.dials[i].(at := Creating, reserved := true))
      .(operations := s.operations + 1, connections := s.connections + 1)
    else SetDial(s, i, s.dials[i].(at := Gone))
  }

  /** A dial that is not at the lock goes on by itself. */
  function NextDial(d: Dial, phase: Phase, ok: bool): Dial {
    match d.at
    case Loading =>
      d.(at := if phase == Running then AtLock else if phase == Closing || phase == Closed then Gone else AwaitStart)
    case AwaitStart => d.(at := if ok && phase == Running then AtLock else Gone)
    case AtLock => d
    case Creating => d.(at := Hooking)
    case Hooking => d.(at := Launching, hooked := true, due := d.terminated)
    case Launching =>
      d.(at := Leaving, terminated := d.terminated || !ok, due := d.due || (!ok && !d.terminated))
    case Leaving => d.(at := Gone)
    case Gone => d
  }

  function DialStep(s: State, i: nat, ok: bool): State
    requires i < |s.dials|
  {
    var d := s.dials[i];
    if d.at == AtLock then Admit(s, i, ok)
    else SetDial(s, i, NextDial(d, s.phase, ok)).(operations := s.operations - Bit(d.at == Leaving))
  }

  /** A dial waits for the start, unless its context is cancelled; every other step is free. */
  predicate DialMay(s: State, i: nat, ok: bool) {
    i < |s.dials| && s.dials[i].at != Gone && (s.dials[i].at == AwaitStart && ok ==> s.startedCloses > 0)
  }

  predicate HasStream(d: Dial) {
    d.reserved && d.at != Creating
  }

  /** The native stream has ended. */
  function Terminate(s: State, i: nat): State
    requires i < |s.dials|
  {
    var d := s.dials[i];
    SetDial(s, i, d.(terminated := true, due := d.due || d.hooked))
  }

  /** The termination hook gives the reservation back, once. */
  function Release(s: State, i: nat): State
    requires i < |s.dials|
  {
    var d := s.dials[i];
    if d.releases > 0 then SetDial(s, i, d.(due := false))
    else SetDial(s, i, d.(due := false, releases := 1)).(connections := s.connections - 1)
  }

  // ---------- events ----------

  datatype Event =
    | EvBeginStart | EvEnginesStarted(ok: bool) | EvAnnounce
    | EvClose | EvCloser(j: nat)
    | EvDial | EvDialStep(i: nat, ok: bool) | EvTerminated(i: nat) | EvRelease(i: nat)
    | EvSweep | EvSwept

  predicate Enabled(s: State, ev: Event) {
    match ev
    case EvBeginStart => true
    case EvEnginesStarted(_) => s.starter == StartingEngines
    case EvAnnounce => s.starter in {Announcing, FailedFirst, FailedSecond}
    case EvClose => true
    case EvCloser(j) => CloserMay(s, j)
    case EvDial => true
    case EvDialStep(i, ok) => DialMay(s, i, ok)
    case EvTerminated(i) => i < |s.dials| && HasStream(s.dials[i]) && !s.dials[i].terminated
    case EvRelease(i) => i < |s.dials| && s.dials[i].due
    case EvSweep => true
    case EvSwept => s.sweeps > 0
  }

  function Step(s: State, ev: Event): State
    requires Enabled(s, ev)
  {
    match ev
    case EvBeginStart => BeginStart(s)
    case EvEnginesStarted(ok) => EnginesStarted(s, ok)
    case EvAnnounce => Announce(s)
    case EvClose => s.(closers := s.closers + [Looping])
    case EvCloser(j) => CloserStep(s, j)
    case EvDial => s.(dials := s.dials + [NEW_DIAL])
    case EvDialStep(i, ok) => DialStep(s, i, ok)
    case EvTerminated(i) => Terminate(s, i)
    case EvRelease(i) => Release(s, i)
    case EvSweep => if s.phase == Running then s.(sweeps := s.sweeps + 1, operations := s.operations + 1) else s
    case EvSwept => s.(sweeps := s.sweeps - 1, operations := s.operations - 1)
  }

  ghost predicate IsRun(states: seq<State>, events: seq<Event>) {
    && |states| == |events| + 1 && states[0] == INITIAL
    && forall i :: 0 <= i < |events| ==> Enabled(states[i], events[i]) && states[i + 1] == Step(states[i], events[i])
  }

  // ---------- invariants ----------

  /** A closer that is in the middle of the shutdown of a running client. */
  predicate Shutting(c: Closer) {
    c.AwaitOperations? || c.AwaitConnections? || c.Destroying? || c.Storing?
  }

  /** One that still has to destroy the engines. */
  predicate MustDestroy(c: Closer) {
    c.AwaitOperations? || c.AwaitConnections? || c.Destroying?
  }

  /** One that still has to close the `closed` channel. */
  predicate OwesClosed(c: Closer) {
    Shutting(c) || c.AnnouncingClosed? || c.CreatedFirst? || c.CreatedSecond?
  }

  predicate OwesStarted(c: Closer) {
    c.CreatedFirst?
  }

  /** Each channel has been closed, or exactly one goroutine is on its way to close it. */
  predicate Channels(s: State) {
    && s.startedCloses + Count(s.closers, OwesStarted) + Bit(s.starter == Announcing || s.starter == FailedFirst)
       == Bit(s.phase != Created && s.phase != Starting)
    && s.closedCloses + Count(s.closers, OwesClosed) + Bit(s.starter == FailedFirst || s.starter == FailedSecond)
       == Bit(s.phase == Closing || s.phase == Closed)
  }

  predicate Shutdown(s: State) {
    && Count(s.closers, Shutting) == Bit(s.phase == Closing)
    && s.destroyed + Count(s.closers, MustDestroy) + Bit(s.phase == Running) == Bit(s.started)
    && (s.starter == StartingEngines <==> s.phase == Starting)
    && (s.started ==> s.starter == Announcing || s.starter == Finished)
    && (s.phase == Created ==> s.starter == Nobody)
  }

  /** In the middle of DialEarly, behind the admission. */
  predicate Operating(d: Dial) {
    d.at.Creating? || d.at.Hooking? || d.at.Launching? || d.at.Leaving?
  }

  /** Its reservation has not been given back. */
  predicate Reserved(d: Dial) {
    d.reserved && d.releases == 0
  }

  predicate Counted(s: State) {
    && s.operations == Count(s.dials, Operating) + s.sweeps
    && s.connections == Count(s.dials, Reserved)
    && (!s.started ==> s.sweeps == 0)
  }

  predicate DialOk(d: Dial) {
    && d.releases <= 1
    && (d.reserved ==> Operating(d) || d.at == Gone)
    && (Operating(d) ==> d.reserved)
    && (d.reserved && !(d.at.Creating? || d.at.Hooking?) ==> d.hooked)
    && (d.hooked || d.terminated || d.due || d.releases > 0 ==> d.reserved)
    && (d.due || d.releases > 0 ==> d.hooked && d.terminated)
    && (d.hooked && d.terminated ==> d.due || d.releases == 1)
  }

  predicate DialsOk(s: State) {
    forall i :: 0 <= i < |s.dials| ==> DialOk(s.dials[i]) && (s.dials[i].reserved ==> s.started)
  }

  /** What the waits of a shutdown have established cannot be undone. */
  predicate Drained(s: State) {
    && (forall j :: 0 <= j < |s.closers| ==>
          (s.closers[j].AwaitConnections? || s.closers[j].Destroying? ==> s.operations == 0))
    && (forall j :: 0 <= j < |s.closers| ==> (s.closers[j].Destroying? ==> s.connections == 0))
    && (s.destroyed > 0 ==> s.operations == 0 && s.connections == 0)
  }

  predicate Inv(s: State) {
    Channels(s) && Shutdown(s) && Counted(s) && DialsOk(s) && Drained(s)
  }

  /** What a caller of Close waits for can still come, or has come. */
  predicate WaiterOk(c: Closer, phase: Phase) {
    && (c.AwaitStarted? ==> phase != Created)
    && (c.Locking? ==> phase != Created && phase != Starting)
    && (c.AwaitClosed? ==> phase == Closing || phase == Closed)
    && (c.Returned? ==> phase == Closed)
  }

  predicate WaitersOk(s: State) {
    forall j :: 0 <= j < |s.closers| ==> WaiterOk(s.closers[j], s.phase)
  }

  // ---------- preservation ----------

  lemma CloserCounts(s: State, j: nat, c: Closer)
    requires j < |s.closers|
    ensures var b, cs := s.closers[j], s.closers[j := c];
            && Count(cs, OwesStarted) == Count(s.closers, OwesStarted) - Bit(OwesStarted(b)) + Bit(OwesStarted(c))
            && Count(cs, OwesClosed) == Count(s.closers, OwesClosed) - Bit(OwesClosed(b)) + Bit(OwesClosed(c))
            && Count(cs, Shutting) == Count(s.closers, Shutting) - Bit(Shutting(b)) + Bit(Shutting(c))
            && Count(cs, MustDestroy) == Count(s.closers, MustDestroy) - Bit(MustDestroy(b)) + Bit(MustDestroy(c))
    ensures Bit(Shutting(s.closers[j])) <= Count(s.closers, Shutting)
    ensures Bit(MustDestroy(s.closers[j])) <= Count(s.closers, MustDestroy)
    ensures Bit(OwesClosed(s.closers[j])) <= Count(s.closers, OwesClosed)
  {
    CountUpdate(s.closers, j, c, OwesStarted);
    CountUpdate(s.closers, j, c, OwesClosed);
    CountUpdate(s.closers, j, c, Shutting);
    CountUpdate(s.closers, j, c, MustDestroy);
  }

  /** The closer moves without touching anything else. */
  lemma PlainCloserKeeps(s: State, j: nat, c: Closer)
    requires Inv(s) && j < |s.closers|
    requires Bit(OwesStarted(s.closers[j])) == Bit(OwesStarted(c))
    requires Bit(OwesClosed(s.closers[j])) == Bit(OwesClosed(c))
    requires Bit(Shutting(s.closers[j])) == Bit(Shutting(c)) && Bit(MustDestroy(s.closers[j])) == Bit(MustDestroy(c))
    requires (c.AwaitConnections? ==> s.operations == 0) && (c.Destroying? ==> s.operations == 0 && s.connections == 0)
    ensures Inv(SetCloser(s, j, c))
  {
    CloserCounts(s, j, c);
  }

  lemma CreatedCloserKeeps(s: State, j: nat)
    requires Inv(s) && CloserMay(s, j) && s.closers[j] in {CreatedFirst, CreatedSecond}
    ensures Inv(CloserStep(s, j))
  {
    match s.closers[j]
    case CreatedFirst => CloserCounts(s, j, CreatedSecond);
    case CreatedSecond => CloserCounts(s, j, Returned);
  }

  lemma SwappingCloserKeeps(s: State, j: nat)
    requires Inv(s) && CloserMay(s, j) && s.closers[j] == Swapping
    ensures Inv(CloserStep(s, j))
  {
    if s.phase == Created { CloserCounts(s, j, CreatedFirst); } else { PlainCloserKeeps(s, j, Looping); }
  }

  lemma LockingCloserKeeps(s: State, j: nat)
    requires Inv(s) && CloserMay(s, j) && s.closers[j] == Locking
    ensures Inv(CloserStep(s, j))
  {
    if s.phase == Running { CloserCounts(s, j, AwaitOperations); } else { PlainCloserKeeps(s, j, Looping); }
  }

  lemma LastCloserKeeps(s: State, j: nat)
    requires Inv(s) && CloserMay(s, j) && s.closers[j] in {Destroying, Storing, AnnouncingClosed}
    ensures Inv(CloserStep(s, j))
  {
    match s.closers[j]
    case Destroying => CloserCounts(s, j, Storing);
    case Storing => CloserCounts(s, j, AnnouncingClosed);
    case AnnouncingClosed => CloserCounts(s, j, Returned);
  }

  lemma CloserKeeps(s: State, j: nat)
    requires Inv(s) && CloserMay(s, j)
    ensures Inv(CloserStep(s, j))
  {
    match s.closers[j]
    case Looping => PlainCloserKeeps(s, j, Looked(s.phase));
    case AwaitStarted => PlainCloserKeeps(s, j, Looping);
    case AwaitOperations => PlainCloserKeeps(s, j, AwaitConnections);
    case AwaitConnections => PlainCloserKeeps(s, j, Destroying);
    case AwaitClosed => PlainCloserKeeps(s, j, Returned);
    case Locking => LockingCloserKeeps(s, j);
    case Swapping => SwappingCloserKeeps(s, j);
    case CreatedFirst => CreatedCloserKeeps(s, j);
    case CreatedSecond => CreatedCloserKeeps(s, j);
    case Destroying => LastCloserKeeps(s, j);
    case Storing => LastCloserKeeps(s, j);
    case AnnouncingClosed => LastCloserKeeps(s, j);
  }

  lemma DialCounts(s: State, i: nat, d: Dial)
    requires i < |s.dials|
    ensures var b, ds := s.dials[i], s.dials[i := d];
            && Count(ds, Operating) == Count(s.dials, Operating) - Bit(Operating(b)) + Bit(Operating(d))
            && Count(ds, Reserved) == Count(s.dials, Reserved) - Bit(Reserved(b)) + Bit(Reserved(d))
    ensures Bit(Operating(s.dials[i])) <= Count(s.dials, Operating)
    ensures Bit(Reserved(s.dials[i])) <= Count(s.dials, Reserved)
  {
    CountUpdate(s.dials, i, d, Operating);
    CountUpdate(s.dials, i, d, Reserved);
  }

  /** A dial moves, and the counters with it. */
  lemma DialMoves(s: State, t: State, i: nat, d: Dial)
    requires Inv(s) && i < |s.dials| && DialOk(d) && (d.reserved ==> s.started)
    requires t == s.(dials := s.dials[i := d], operations := t.operations, connections := t.connections)
    requires t.operations == s.operations - Bit(Operating(s.dials[i])) + Bit(Operating(d))
    requires t.connections == s.connections - Bit(Reserved(s.dials[i])) + Bit(Reserved(d))
    requires s.phase == Running || (t.operations <= s.operations && t.connections <= s.connections)
    ensures Inv(t)
  {
    DialCounts(s, i, d);
    if s.phase == Running { NobodyShutsDown(s); }
  }

  /** While the client is running nobody has begun to take it down. */
  lemma NobodyShutsDown(s: State)
    requires Shutdown(s) && s.phase == Running
    ensures s.destroyed == 0 && forall j :: 0 <= j < |s.closers| ==> !Shutting(s.closers[j])
  {
    CountPositive(s.closers, Shutting);
  }

  lemma AdmitKeeps(s: State, i: nat, live: bool)
    requires Inv(s) && i < |s.dials| && s.dials[i].at == AtLock
    ensures Inv(Admit(s, i, live))
  {
    var d := s.dials[i];
    DialMoves(s, Admit(s, i, live), i,
      if s.phase == Running && live then d.(at := Creating, reserved := true) else d.(at := Gone));
  }

  lemma NextDialIsOk(d: Dial, phase: Phase, ok: bool)
    requires DialOk(d) && d.at != AtLock
    ensures var e := NextDial(d, phase, ok);
            && DialOk(e) && e.reserved == d.reserved && e.releases == d.releases
            && Bit(Operating(e)) == Bit(Operating(d)) - Bit(d.at == Leaving)
  {
  }

  lemma DialStepKeeps(s: State, i: nat, ok: bool)
    requires Inv(s) && DialMay(s, i, ok)
    ensures Inv(DialStep(s, i, ok))
  {
    if s.dials[i].at == AtLock {
      AdmitKeeps(s, i, ok);
    } else {
      NextDialIsOk(s.dials[i], s.phase, ok);
      DialMoves(s, DialStep(s, i, ok), i, NextDial(s.dials[i], s.phase, ok));
    }
  }

  lemma ReleaseKeeps(s: State, i: nat)
    requires Inv(s) && Enabled(s, EvRelease(i))
    ensures Inv(Release(s, i))
  {
    DialMoves(s, Release(s, i), i, Release(s, i).dials[i]);
  }

  lemma NewPartyKeeps(s: State)
    requires Inv(s)
    ensures Inv(s.(closers := s.closers + [Looping])) && Inv(s.(dials := s.dials + [NEW_DIAL]))
  {
    CountSnoc(s.closers, Looping, OwesStarted);
    CountSnoc(s.closers, Looping, OwesClosed);
    CountSnoc(s.closers, Looping, Shutting);
    CountSnoc(s.closers, Looping, MustDestroy);
    CountSnoc(s.dials, NEW_DIAL, Operating);
    CountSnoc(s.dials, NEW_DIAL, Reserved);
  }

  lemma SweepKeeps(s: State)
    requires Inv(s)
    ensures Inv(Step(s, EvSweep))
  {
    if s.phase == Running { NobodyShutsDown(s); }
  }

  lemma StepKeeps(s: State, ev: Event)
    requires Inv(s) && Enabled(s, ev)
    ensures Inv(Step(s, ev))
  {
    match ev
    case EvBeginStart =>
    case EvEnginesStarted(ok) =>
    case EvAnnounce =>
    case EvClose => NewPartyKeeps(s);
    case EvCloser(j) => CloserKeeps(s, j);
    case EvDial => NewPartyKeeps(s);
    case EvDialStep(i, ok) => DialStepKeeps(s, i, ok);
    case EvTerminated(i) => DialMoves(s, Terminate(s, i), i, Terminate(s, i).dials[i]);
    case EvRelease(i) => ReleaseKeeps(s, i);
    case EvSweep => SweepKeeps(s);
    case EvSwept =>
  }

  // ---------- the phases ----------

  function Rank(p: Phase): nat {
    match p
    case Created => 0
    case Starting => 1
    case Running => 2
    case Closing => 3
    case Closed => 4
  }

  predicate GoesOn(s: State, t: State) {
    Rank(s.phase) <= Rank(t.phase) && s.destroyed <= t.destroyed
  }

  lemma CloserGoesOn(s: State, j: nat)
    requires Inv(s) && CloserMay(s, j)
    ensures GoesOn(s, CloserStep(s, j))
  {
    if s.closers[j] == Storing { CountPositive(s.closers, Shutting); }
  }

  lemma PhaseGoesOn(s: State, ev: Event)
    requires Inv(s) && Enabled(s, ev)
    ensures GoesOn(s, Step(s, ev))
  {
    match ev
    case EvCloser(j) => CloserGoesOn(s, j);
    case _ =>
  }

  /** The channel is closed only when the shutdown is through. */
  lemma ClosedMeansClosed(s: State)
    requires Inv(s) && s.closedCloses > 0
    ensures s.phase == Closed
  {
    if s.phase == Closing {
      CountPositive(s.closers, Shutting);
      CountPositive(s.closers, OwesClosed);
    }
  }

  /** A closer that is about to return has seen the end of the shutdown. */
  lemma ReturnsWhenClosed(s: State, j: nat)
    requires Inv(s) && WaitersOk(s) && CloserMay(s, j)
    ensures CloserStep(s, j).closers[j].Returned? ==> CloserStep(s, j).phase == Closed
  {
    match s.closers[j]
    case AwaitClosed => ClosedMeansClosed(s);
    case CreatedSecond => CloserKeeps(s, j); ClosedMeansClosed(CloserStep(s, j));
    case AnnouncingClosed => CloserKeeps(s, j); ClosedMeansClosed(CloserStep(s, j));
    case _ =>
  }

  lemma CloserKeepsWaiters(s: State, j: nat)
    requires Inv(s) && WaitersOk(s) && CloserMay(s, j)
    ensures WaitersOk(CloserStep(s, j))
  {
    var t := CloserStep(s, j);
    CloserGoesOn(s, j);
    ReturnsWhenClosed(s, j);
    assert WaiterOk(t.closers[j], t.phase);
    forall k | 0 <= k < |t.closers| ensures WaiterOk(t.closers[k], t.phase) {
      assert k != j ==> t.closers[k] == s.closers[k] && WaiterOk(s.closers[k], s.phase);
    }
  }

  lemma StepKeepsWaiters(s: State, ev: Event)
    requires Inv(s) && WaitersOk(s) && Enabled(s, ev)
    ensures WaitersOk(Step(s, ev))
  {
    PhaseGoesOn(s, ev);
    match ev
    case EvCloser(j) => CloserKeepsWaiters(s, j);
    case _ =>
  }

  // ---------- all of it ----------

  predicate Orderly(s: State) {
    Inv(s) && WaitersOk(s)
  }

  lemma InitialIsOrderly()
    ensures Orderly(INITIAL)
  {
  }

  lemma NextIsOrderly(s: State, ev: Event, t: State)
    requires Orderly(s) && Enabled(s, ev) && t == Step(s, ev)
    ensures Orderly(t)
  {
    StepKeeps(s, ev);
    StepKeepsWaiters(s, ev);
  }

  lemma DialIsOrderly(s: State, i: nat, ok: bool)
    requires Orderly(s) && DialMay(s, i, ok)
    ensures Orderly(DialStep(s, i, ok))
  {
    NextIsOrderly(s, EvDialStep(i, ok), DialStep(s, i, ok));
  }

  lemma CloserIsOrderly(s: State, j: nat)
    requires Orderly(s) && CloserMay(s, j)
    ensures Orderly(CloserStep(s, j))
  {
    NextIsOrderly(s, EvCloser(j), CloserStep(s, j));
  }

  lemma AnnounceIsOrderly(s: State)
    requires Orderly(s) && s.starter in {Announcing, FailedFirst, FailedSecond}
    ensures Orderly(Announce(s))
  {
    NextIsOrderly(s, EvAnnounce, Announce(s));
  }
}
