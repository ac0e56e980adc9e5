/**
 The client object in use. Each method is one critical section or one atomic operation of the calls
 that start, dial, reset and close, or one step of a stream; the object keeps its invariant through
 all of them, so that no channel is closed twice, no counter drops below zero, and no engine is used
 before it is made or after it is destroyed, whatever order the goroutines run in.
 */
module NaiveClients {
  import opened Counting
  import opened NaiveClientModel
  import opened NaiveClientRuns

  class NaiveClient {
    var phase: Phase
    var activeOperations: int
    var activeConnections: int
    /** How often the two channels have been closed. */
    var startedCloses: nat
    var closedCloses: nat
    /** The goroutines that are inside a call, and what has become of the engines. */
    var starter: Starter
    var closers: seq<Closer>
    var dials: seq<Dial>
    var sweeps: nat
    var engines: bool
    var destroyed: nat

    function Abs(): State
      reads this
    {
      State(phase, startedCloses, closedCloses, activeOperations, activeConnections, starter, closers, dials, sweeps,
        engines, destroyed)
    }

    ghost predicate Valid()
      reads this
    {
      Orderly(Abs())
    }

    constructor ()
      ensures Valid() && Abs() == INITIAL
    {
      phase, activeOperations, activeConnections, startedCloses, closedCloses := Created, 0, 0, 0, 0;
      starter, closers, dials, sweeps, engines, destroyed := Nobody, [], [], 0, false, 0;
    }

    /** The client is closed, its engines are gone, and nobody is left who used them. */
    predicate IsOver()
      reads this
    {
      && phase == Closed && destroyed == Bit(engines) && activeOperations == 0 && activeConnections == 0 && sweeps == 0
      && forall k :: 0 <= k < |dials| ==> !UsesEngines(dials[k])
    }

    // ---------- starting ----------

    /** Whether the caller has won the right to start the client. */
    method BeginStart() returns (won: bool)
      requires Valid()
      modifies this
      ensures Valid() && Abs() == NaiveClientModel.BeginStart(old(Abs()))
      ensures won == (old(phase) == Created) && phase == if won then Starting else old(phase)
    {
      NextIsOrderly(Abs(), EvBeginStart, Step(Abs(), EvBeginStart));
      won := phase == Created;
      if won {
        phase := Starting;
        starter := StartingEngines;
      }
    }

    /** Engines are made once, and all of them or none are there. */
    method EnginesStarted(ok: bool)
      requires Valid() && starter == StartingEngines
      modifies this
      ensures Valid() && Abs() == NaiveClientModel.EnginesStarted(old(Abs()), ok)
      ensures !old(engines) && engines == ok && phase == if ok then Running else Closed
    {
      NextIsOrderly(Abs(), EvEnginesStarted(ok), Step(Abs(), EvEnginesStarted(ok)));
      if ok {
        engines := true;
        phase := Running;
        starter := Announcing;
      } else {
        phase := Closed;
        starter := FailedFirst;
      }
    }

    /** The starter closes `started`, and `closed` behind it if the start has failed. */
    method Announce()
      requires Valid() && starter in {Announcing, FailedFirst, FailedSecond}
      modifies this
      ensures Valid() && Abs() == NaiveClientModel.Announce(old(Abs()))
      ensures if old(starter) == FailedSecond then old(closedCloses) == 0 && closedCloses == 1
              else old(startedCloses) == 0 && startedCloses == 1
    {
      AnnounceIsOrderly(Abs());
      if starter == FailedSecond {
        closedCloses := closedCloses + 1;
        starter := Finished;
      } else {
        startedCloses := startedCloses + 1;
        starter := if starter == Announcing then Finished else FailedSecond;
      }
    }

    // ---------- dialling ----------

    method BeginDial() returns (i: nat)
      requires Valid()
      modifies this
      ensures Valid() && Abs() == Step(old(Abs()), EvDial) && i == old(|dials|)
    {
      NextIsOrderly(Abs(), EvDial, Step(Abs(), EvDial));
      i := |dials|;
      dials := dials + [NEW_DIAL];
    }

    /** The dial is admitted and counted, which it only is by a client whose engines are there. */
    method Admit(i: nat, live: bool) returns (admitted: bool)
      requires Valid() && i < |dials| && dials[i].at == AtLock
      modifies this
      ensures Valid() && Abs() == NaiveClientModel.Admit(old(Abs()), i, live)
      ensures admitted == (old(phase) == Running && live)
      ensures admitted ==> engines && destroyed == 0
      ensures activeOperations == old(activeOperations) + Bit(admitted)
      ensures activeConnections == old(activeConnections) + Bit(admitted)
    {
      DialIsOrderly(Abs(), i, live);
      if phase != Running || !live {
        dials := dials[i := dials[i].(at := Gone)];
        return false;
      }
      NobodyShutsDown(Abs());
      activeOperations := activeOperations + 1;
      activeConnections := activeConnections + 1;
      dials := dials[i := dials[i].(at := Creating, reserved := true)];
      admitted := true;
    }

    /** An admitted dial makes a connection with its engine, which is there. */
    method Create(i: nat, ok: bool)
      requires Valid() && i < |dials| && dials[i].at == Creating
      modifies `dials
      ensures Valid() && Abs() == DialStep(old(Abs()), i, ok)
      ensures engines && destroyed == 0
    {
      DialIsOrderly(Abs(), i, ok);
      OperatingFindsEngines(Abs(), i);
      dials := dials[i := dials[i].(at := Hooking)];
    }

    /** It sets the termination hook, which is due at once if the stream has ended meanwhile. */
    method Hook(i: nat, ok: bool)
      requires Valid() && i < |dials| && dials[i].at == Hooking
      modifies `dials
      ensures Valid() && Abs() == DialStep(old(Abs()), i, ok)
      ensures engines && destroyed == 0
    {
      DialIsOrderly(Abs(), i, ok);
      OperatingFindsEngines(Abs(), i);
      dials := dials[i := dials[i].(at := Launching, hooked := true, due := dials[i].terminated)];
    }

    /** It starts the stream; a failed start terminates it. */
    method Launch(i: nat, ok: bool)
      requires Valid() && i < |dials| && dials[i].at == Launching
      modifies `dials
      ensures Valid() && Abs() == DialStep(old(Abs()), i, ok)
      ensures engines && destroyed == 0
    {
      DialIsOrderly(Abs(), i, ok);
      OperatingFindsEngines(Abs(), i);
      var d := dials[i];
      dials := dials[i := d.(at := Leaving, terminated := d.terminated || !ok,
                             due := d.due || (!ok && !d.terminated))];
    }

    /** The end of an admitted dial, which cannot take its counter below zero. */
    method LeaveDial(i: nat, ok: bool)
      requires Valid() && i < |dials| && dials[i].at == Leaving
      modifies this
      ensures Valid() && Abs() == DialStep(old(Abs()), i, ok)
      ensures activeOperations == old(activeOperations) - 1 && activeOperations >= 0
    {
      DialIsOrderly(Abs(), i, ok);
      activeOperations := activeOperations - 1;
      dials := dials[i := dials[i].(at := Gone)];
    }

    /** A dial looks at the phase: it goes on, gives up, or waits for the start. */
    method LoadPhase(i: nat, ok: bool)
      requires Valid() && i < |dials| && dials[i].at == Loading
      modifies `dials
      ensures Valid() && Abs() == DialStep(old(Abs()), i, ok)
    {
      DialIsOrderly(Abs(), i, ok);
      if phase == Running {
        dials := dials[i := dials[i].(at := AtLock)];
      } else if phase == Closing || phase == Closed {
        dials := dials[i := dials[i].(at := Gone)];
      } else {
        dials := dials[i := dials[i].(at := AwaitStart)];
      }
    }

    /** The wait for the start is over, because of it or because a context has ended. */
    method EndStartWait(i: nat, ok: bool)
      requires Valid() && DialMay(Abs(), i, ok) && dials[i].at == AwaitStart
      modifies `dials
      ensures Valid() && Abs() == DialStep(old(Abs()), i, ok)
    {
      DialIsOrderly(Abs(), i, ok);
      if ok && phase == Running {
        dials := dials[i := dials[i].(at := AtLock)];
      } else {
        dials := dials[i := dials[i].(at := Gone)];
      }
    }

    /** The native stream of dial i ends. */
    method Terminated(i: nat)
      requires Valid() && Enabled(Abs(), EvTerminated(i))
      modifies `dials
      ensures Valid() && Abs() == Terminate(old(Abs()), i)
    {
      NextIsOrderly(Abs(), EvTerminated(i), Step(Abs(), EvTerminated(i)));
      var d := dials[i];
      dials := dials[i := d.(terminated := true, due := d.due || d.hooked)];
    }

    /** The termination hook gives the reservation back, the first time; the counter stays above zero. */
    method Release(i: nat)
      requires Valid() && Enabled(Abs(), EvRelease(i))
      modifies this
      ensures Valid() && Abs() == NaiveClientModel.Release(old(Abs()), i)
      ensures activeConnections >= 0 && dials[i].releases == 1
      ensures activeConnections == old(activeConnections) - Bit(old(dials)[i].releases == 0)
    {
      NextIsOrderly(Abs(), EvRelease(i), Step(Abs(), EvRelease(i)));
      if dials[i].releases > 0 {
        dials := dials[i := dials[i].(due := false)];
      } else {
        activeConnections := activeConnections - 1;
        dials := dials[i := dials[i].(due := false, releases := 1)];
      }
    }

    // ---------- resetting connections ----------

    method BeginSweep()
      requires Valid()
      modifies this
      ensures Valid() && Abs() == Step(old(Abs()), EvSweep)
      ensures sweeps == old(sweeps) + Bit(phase == Running) && (phase == Running ==> engines && destroyed == 0)
    {
      NextIsOrderly(Abs(), EvSweep, Step(Abs(), EvSweep));
      if phase == Running {
        NobodyShutsDown(Abs());
        activeOperations := activeOperations + 1;
        sweeps := sweeps + 1;
      }
    }

    method EndSweep()
      requires Valid() && sweeps > 0
      modifies this
      ensures Valid() && Abs() == Step(old(Abs()), EvSwept)
      ensures activeOperations >= 0
    {
      NextIsOrderly(Abs(), EvSwept, Step(Abs(), EvSwept));
      sweeps := sweeps - 1;
      activeOperations := activeOperations - 1;
    }

    // ---------- closing ----------

    method BeginClose() returns (j: nat)
      requires Valid()
      modifies this
      ensures Valid() && Abs() == Step(old(Abs()), EvClose) && j == old(|closers|)
    {
      NextIsOrderly(Abs(), EvClose, Step(Abs(), EvClose));
      j := |closers|;
      closers := closers + [Looping];
    }

    /** One turn of the loop in Close: what the caller does next depends on the phase it finds. */
    method Look(j: nat)
      requires Valid() && j < |closers| && closers[j] == Looping
      modifies this
      ensures Valid() && Abs() == CloserStep(old(Abs()), j)
      ensures closers[j] == Returned ==> IsOver()
    {
      CloserIsOrderly(Abs(), j);
      match phase {
        case Created => closers := closers[j := Swapping];
        case Starting => closers := closers[j := AwaitStarted];
        case Running => closers := closers[j := Locking];
        case Closing => closers := closers[j := AwaitClosed];
        case Closed =>
          ClosedIsOver(Abs());
          closers := closers[j := Returned];
      }
    }

    /** A wait of a caller of Close is over: a channel is closed, or a counter is zero. */
    method EndWait(j: nat)
      requires Valid() && CloserMay(Abs(), j)
      requires closers[j] in {AwaitStarted, AwaitClosed, AwaitOperations, AwaitConnections}
      modifies this
      ensures Valid() && Abs() == CloserStep(old(Abs()), j)
    {
      CloserIsOrderly(Abs(), j);
      match closers[j] {
        case AwaitStarted => closers := closers[j := Looping];
        case AwaitClosed => closers := closers[j := Returned];
        case AwaitOperations => closers := closers[j := AwaitConnections];
        case AwaitConnections => closers := closers[j := Destroying];
      }
    }

    /** Closing a client that never started, if it still has not. */
    method CloseCreated(j: nat) returns (swapped: bool)
      requires Valid() && j < |closers| && closers[j] == Swapping
      modifies this
      ensures Valid() && Abs() == CloserStep(old(Abs()), j)
      ensures swapped == (old(phase) == Created) && phase == if swapped then Closed else old(phase)
      ensures swapped ==> !engines && startedCloses == 0 && closedCloses == 0
    {
      CloserIsOrderly(Abs(), j);
      swapped := phase == Created;
      if swapped { phase := Closed; }
      closers := closers[j := if swapped then CreatedFirst else Looping];
    }

    /** Stopping the admissions of a running client; the winner goes on to shut it down. */
    method BeginClosing(j: nat) returns (won: bool)
      requires Valid() && j < |closers| && closers[j] == Locking
      modifies this
      ensures Valid() && Abs() == CloserStep(old(Abs()), j)
      ensures won == (old(phase) == Running) && phase == if won then Closing else old(phase)
      ensures won ==> forall k :: 0 <= k < |closers| && k != j ==> !Shutting(closers[k])
    {
      CloserIsOrderly(Abs(), j);
      won := phase == Running;
      if won {
        NobodyShutsDown(Abs());
        phase := Closing;
      }
      closers := closers[j := if won then AwaitOperations else Looping];
    }

    /** The shutdown, when both waits are over: the engines are there, and nobody is left who uses them. */
    method DestroyEngines(j: nat)
      requires Valid() && j < |closers| && closers[j] == Destroying
      modifies this
      ensures Valid() && Abs() == CloserStep(old(Abs()), j)
      ensures old(destroyed) == 0 && destroyed == 1 && engines && activeOperations == 0 && activeConnections == 0
      ensures forall k :: 0 <= k < |dials| ==> !Operating(dials[k]) && !Reserved(dials[k])
    {
      CloserIsOrderly(Abs(), j);
      CountPositive(closers, MustDestroy);
      CountPositive(dials, Operating);
      CountPositive(dials, Reserved);
      destroyed := destroyed + 1;
      closers := closers[j := Storing];
    }

    method StoreClosed(j: nat)
      requires Valid() && j < |closers| && closers[j] == Storing
      modifies this
      ensures Valid() && Abs() == CloserStep(old(Abs()), j)
    {
      CloserIsOrderly(Abs(), j);
      phase := Closed;
      closers := closers[j := AnnouncingClosed];
    }

    /** A caller of Close closes a channel, which nobody has closed before. */
    method CloseChannel(j: nat)
      requires Valid() && j < |closers| && closers[j] in {CreatedFirst, CreatedSecond, AnnouncingClosed}
      modifies this
      ensures Valid() && Abs() == CloserStep(old(Abs()), j)
      ensures if old(closers)[j] == CreatedFirst then old(startedCloses) == 0 && startedCloses == 1
              else old(closedCloses) == 0 && closedCloses == 1
    {
      CloserIsOrderly(Abs(), j);
      OwerFindsItOpen(Abs(), j);
      if closers[j] == CreatedFirst {
        startedCloses := startedCloses + 1;
        closers := closers[j := CreatedSecond];
      } else {
        closedCloses := closedCloses + 1;
        closers := closers[j := Returned];
      }
    }

    // ---------- one step of anybody ----------

    method GoOnClosing(j: nat)
      requires Valid() && CloserMay(Abs(), j)
      modifies this
      ensures Valid() && Abs() == CloserStep(old(Abs()), j)
    {
      match closers[j]
      case Looping => Look(j);
      case Swapping => var _ := CloseCreated(j);
      case Locking => var _ := BeginClosing(j);
      case Destroying => DestroyEngines(j);
      case Storing => StoreClosed(j);
      case AwaitStarted => EndWait(j);
      case AwaitOperations => EndWait(j);
      case AwaitConnections => EndWait(j);
      case AwaitClosed => EndWait(j);
      case CreatedFirst => CloseChannel(j);
      case CreatedSecond => CloseChannel(j);
      case AnnouncingClosed => CloseChannel(j);
    }

    method GoOnDialling(i: nat, ok: bool)
      requires Valid() && DialMay(Abs(), i, ok)
      modifies this
      ensures Valid() && Abs() == DialStep(old(Abs()), i, ok)
    {
      match dials[i].at
      case AtLock => var _ := Admit(i, ok);
      case Leaving => LeaveDial(i, ok);
      case Loading => LoadPhase(i, ok);
      case AwaitStart => EndStartWait(i, ok);
      case Creating => Create(i, ok);
      case Hooking => Hook(i, ok);
      case Launching => Launch(i, ok);
    }

    method Turn(ev: Event)
      requires Valid() && Enabled(Abs(), ev)
      modifies this
      ensures Valid() && Abs() == Step(old(Abs()), ev)
    {
      match ev
      case EvBeginStart => var _ := BeginStart();
      case EvEnginesStarted(ok) => EnginesStarted(ok);
      case EvAnnounce => Announce();
      case EvClose => var _ := BeginClose();
      case EvCloser(j) => GoOnClosing(j);
      case EvDial => var _ := BeginDial();
      case EvDialStep(i, ok) => GoOnDialling(i, ok);
      case EvTerminated(i) => Terminated(i);
      case EvRelease(i) => Release(i);
      case EvSweep => BeginSweep();
      case EvSwept => EndSweep();
    }
  }

  /** Whoever is inside a dial has the engines. */
  lemma OperatingFindsEngines(s: State, i: nat)
    requires Inv(s) && i < |s.dials| && Operating(s.dials[i])
    ensures s.started && s.destroyed == 0
  {
    assert DialOk(s.dials[i]);
    CountPositive(s.dials, Operating);
  }

  /** Whoever has to close a channel finds it open. */
  lemma OwerFindsItOpen(s: State, j: nat)
    requires Inv(s) && j < |s.closers|
    ensures OwesStarted(s.closers[j]) ==> s.startedCloses == 0
    ensures OwesClosed(s.closers[j]) ==> s.closedCloses == 0
  {
    CountPositive(s.closers, OwesStarted);
    CountPositive(s.closers, OwesClosed);
  }

  /**
   Any number of goroutines that start, dial, reset and close in any order: channels and engines are
   closed and destroyed at most once, the counters count exactly the dials and resets in progress and
   the reservations not given back, and nobody is left when the engines are destroyed, or when a call
   of Close has returned.
   */
  method Drive(turns: nat) returns (client: NaiveClient)
    ensures client.startedCloses <= 1 && client.closedCloses <= 1 && client.destroyed <= 1
    ensures client.activeOperations == Count(client.dials, Operating) + client.sweeps
    ensures client.activeConnections == Count(client.dials, Reserved)
    ensures forall k :: 0 <= k < |client.dials| && (Operating(client.dials[k]) || Reserved(client.dials[k])) ==>
              client.engines && client.destroyed == 0
    ensures client.destroyed > 0 ==> client.activeOperations == 0 && client.activeConnections == 0
    ensures (exists j :: 0 <= j < |client.closers| && client.closers[j] == Returned) ==> client.IsOver()
  {
    client := new NaiveClient();
    for i := 0 to turns
      invariant fresh(client) && client.Valid()
    {
      var ev: Event := *;
      if Enabled(client.Abs(), ev) { client.Turn(ev); }
    }
    CountPositive(client.dials, Operating);
    CountPositive(client.dials, Reserved);
    if j :| 0 <= j < |client.closers| && client.closers[j] == Returned {
      assert WaiterOk(client.closers[j], client.phase);
      ClosedIsOver(client.Abs());
    }
  }
}
