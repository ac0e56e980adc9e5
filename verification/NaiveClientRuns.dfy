/** What holds over whole runs of a client. */
module NaiveClientRuns {
  import opened Counting
  import opened Runs
  import opened NaiveClientModel

  lemma RunIsOrderly(states: seq<State>, events: seq<Event>, i: nat)
    requires IsRun(states, events) && i < |states|
    ensures Orderly(states[i])
  {
    InitialIsOrderly();
    forall k | 0 <= k < i && Orderly(states[k]) ensures Orderly(states[k + 1]) {
      NextIsOrderly(states[k], events[k], states[k + 1]);
    }
    Preserved(states, Orderly, i);
  }

  /** Neither channel is ever closed twice, and they are closed only when they should be. */
  lemma ChannelsCloseOnce(states: seq<State>, events: seq<Event>, i: nat)
    requires IsRun(states, events) && i < |states|
    ensures states[i].startedCloses <= 1 && states[i].closedCloses <= 1
    ensures states[i].startedCloses == 1 ==> states[i].phase !in {Created, Starting}
    ensures states[i].closedCloses == 1 ==> states[i].phase in {Closing, Closed}
  {
    RunIsOrderly(states, events, i);
  }

  /** The shutdown of a running client is carried out by one caller of Close, exactly while it is closing. */
  lemma OneCloserShutsDown(states: seq<State>, events: seq<Event>, i: nat, j: nat, k: nat)
    requires IsRun(states, events) && i < |states|
    ensures j < k < |states[i].closers| ==> !(Shutting(states[i].closers[j]) && Shutting(states[i].closers[k]))
    ensures states[i].phase == Closing <==> exists c :: 0 <= c < |states[i].closers| && Shutting(states[i].closers[c])
    ensures states[i].destroyed <= 1
  {
    RunIsOrderly(states, events, i);
    CountPositive(states[i].closers, Shutting);
    if j < k < |states[i].closers| && Shutting(states[i].closers[j]) && Shutting(states[i].closers[k]) {
      CountTwo(states[i].closers, j, k, Shutting);
    }
  }

  predicate UsesEngines(d: Dial) {
    Operating(d) || Reserved(d)
  }

  /** Nobody uses engines that have been destroyed, or that have not been made. */
  lemma EnginesOutliveTheirUsers(states: seq<State>, events: seq<Event>, i: nat, k: nat)
    requires IsRun(states, events) && i < |states| && k < |states[i].dials|
    requires UsesEngines(states[i].dials[k]) || states[i].sweeps > 0
    ensures states[i].started && states[i].destroyed == 0
  {
    var s := states[i];
    RunIsOrderly(states, events, i);
    CountPositive(s.dials, Operating);
    CountPositive(s.dials, Reserved);
  }

  /** What it means that the engines are gone. */
  predicate AllOver(s: State) {
    && s.destroyed == 1 && s.operations == 0 && s.connections == 0
    && s.phase in {Closing, Closed}
    && forall k :: 0 <= k < |s.dials| ==> !UsesEngines(s.dials[k])
  }

  lemma GoneIsOver(s: State)
    requires Inv(s) && s.destroyed > 0
    ensures AllOver(s)
  {
    CountPositive(s.dials, Operating);
    CountPositive(s.dials, Reserved);
  }

  lemma RunGoesOn(states: seq<State>, events: seq<Event>, i: nat, j: nat)
    requires IsRun(states, events) && i <= j < |states|
    ensures GoesOn(states[i], states[j])
  {
    forall k | i <= k < j ensures GoesOn(states[k], states[k + 1]) {
      RunIsOrderly(states, events, k);
      PhaseGoesOn(states[k], events[k]);
    }
    Carried(states, GoesOn, i, j);
  }

  /** Once engines are destroyed both counters are zero, for good, and no dial is admitted any more. */
  lemma NoComingBack(states: seq<State>, events: seq<Event>, i: nat, j: nat)
    requires IsRun(states, events) && i <= j < |states| && states[i].destroyed > 0
    ensures AllOver(states[j])
  {
    RunGoesOn(states, events, i, j);
    RunIsOrderly(states, events, j);
    GoneIsOver(states[j]);
  }

  /** A client that is closed has destroyed what it made, and nobody is left. */
  lemma ClosedIsOver(s: State)
    requires Inv(s) && s.phase == Closed
    ensures s.destroyed == Bit(s.started) && s.operations == 0 && s.connections == 0 && s.sweeps == 0
    ensures forall k :: 0 <= k < |s.dials| ==> !UsesEngines(s.dials[k])
  {
    CountPositive(s.closers, Shutting);
    CountPositive(s.closers, MustDestroy);
    CountPositive(s.dials, Operating);
    CountPositive(s.dials, Reserved);
    forall k | 0 <= k < |s.dials| ensures s.started || !UsesEngines(s.dials[k]) {
      assert DialOk(s.dials[k]);
    }
  }

  /**
   What a call of Close that has returned means, whichever way it took: the client is closed, the
   engines have been destroyed as often as they were made, no dial, reset or stream is left that
   uses them, and all that for good.
   */
  lemma CloseMeansClosed(states: seq<State>, events: seq<Event>, i: nat, j: nat, k: nat)
    requires IsRun(states, events) && i <= k < |states| && j < |states[i].closers| && states[i].closers[j] == Returned
    ensures var s := states[k];
            && s.phase == Closed && s.destroyed == Bit(s.started)
            && s.operations == 0 && s.connections == 0 && s.sweeps == 0
            && forall d :: 0 <= d < |s.dials| ==> !UsesEngines(s.dials[d])
  {
    RunIsOrderly(states, events, i);
    RunIsOrderly(states, events, k);
    assert WaiterOk(states[i].closers[j], states[i].phase);
    RunGoesOn(states, events, i, k);
    ClosedIsOver(states[k]);
  }

  /**
   An admitted dial holds one reservation, which its termination hook gives back exactly once,
   whichever of the two comes first; a dial that was not admitted has none.
   */
  lemma ReservationIsReleasedOnce(states: seq<State>, events: seq<Event>, i: nat, k: nat)
    requires IsRun(states, events) && i < |states| && k < |states[i].dials|
    ensures var d := states[i].dials[k];
            && d.releases <= 1
            && (d.releases == 1 ==> d.reserved && d.terminated)
            && (d.reserved && d.at.Gone? && d.terminated && d.releases == 0 ==> Enabled(states[i], EvRelease(k)))
            && (d.reserved && d.at.Gone? && !d.terminated ==> Enabled(states[i], EvTerminated(k)))
    ensures states[i].connections == Count(states[i].dials, Reserved)
    ensures states[i].operations == Count(states[i].dials, Operating) + states[i].sweeps
  {
    RunIsOrderly(states, events, i);
  }

  /** A shutdown that waits is waiting for a dial or a sweep in progress, or for a live stream. */
  lemma ShutdownWaitsForSomebody(states: seq<State>, events: seq<Event>, i: nat, j: nat)
    requires IsRun(states, events) && i < |states| && j < |states[i].closers|
    ensures var s := states[i];
            && (s.closers[j].AwaitOperations? && !Enabled(s, EvCloser(j)) ==>
                s.sweeps > 0 || exists k :: 0 <= k < |s.dials| && Operating(s.dials[k]))
            && (s.closers[j].AwaitConnections? && !Enabled(s, EvCloser(j)) ==>
                exists k :: 0 <= k < |s.dials| && (Enabled(s, EvTerminated(k)) || Enabled(s, EvRelease(k))))
  {
    var s := states[i];
    RunIsOrderly(states, events, i);
    CountPositive(s.dials, Operating);
    CountPositive(s.dials, Reserved);
    if s.closers[j].AwaitConnections? && s.connections != 0 {
      var k :| 0 <= k < |s.dials| && Reserved(s.dials[k]);
      assert !Operating(s.dials[k]) by { CountPositive(s.dials, Operating); }
      assert DialOk(s.dials[k]);
      assert Enabled(s, EvTerminated(k)) || Enabled(s, EvRelease(k));
    }
  }

  /**
   Callers of Close that wait for a channel wait for somebody who is going to close it: the
   goroutine that starts the client, or another caller of Close.
   */
  lemma ChannelsAreAnnounced(states: seq<State>, events: seq<Event>, i: nat, j: nat)
    requires IsRun(states, events) && i < |states| && j < |states[i].closers|
    ensures var s := states[i];
            && (s.closers[j].AwaitStarted? ==>
                  || Enabled(s, EvCloser(j)) || Enabled(s, EvEnginesStarted(true)) || Enabled(s, EvAnnounce)
                  || exists k :: 0 <= k < |s.closers| && OwesStarted(s.closers[k]) && Enabled(s, EvCloser(k)))
            && (s.closers[j].AwaitClosed? ==>
                  || Enabled(s, EvCloser(j)) || Enabled(s, EvAnnounce)
                  || exists k :: 0 <= k < |s.closers| && OwesClosed(s.closers[k]))
  {
    var s := states[i];
    RunIsOrderly(states, events, i);
    assert WaiterOk(s.closers[j], s.phase);
    CountPositive(s.closers, OwesClosed);
    if k :| 0 <= k < |s.closers| && OwesStarted(s.closers[k]) {
      assert Enabled(s, EvCloser(k));
    } else {
      CountPositive(s.closers, OwesStarted);
    }
  }

  /** Steps of calls that are in progress, and of streams: nobody has to call anything for these. */
  predicate InProgress(ev: Event) {
    !ev.EvBeginStart? && !ev.EvClose? && !ev.EvDial? && !ev.EvSweep?
  }

  /** Somebody who owes the closing of `closed` can go on, or waits for somebody who can. */
  lemma OwerGoesOn(states: seq<State>, events: seq<Event>, i: nat, j: nat)
    requires IsRun(states, events) && i < |states| && j < |states[i].closers| && OwesClosed(states[i].closers[j])
    ensures exists ev :: InProgress(ev) && Enabled(states[i], ev)
  {
    var s := states[i];
    if Enabled(s, EvCloser(j)) {
      assert InProgress(EvCloser(j));
    } else {
      ShutdownWaitsForSomebody(states, events, i, j);
      if s.closers[j].AwaitConnections? {
        var k :| 0 <= k < |s.dials| && (Enabled(s, EvTerminated(k)) || Enabled(s, EvRelease(k)));
        assert InProgress(EvTerminated(k)) && InProgress(EvRelease(k));
      } else if s.sweeps > 0 {
        assert InProgress(EvSwept) && Enabled(s, EvSwept);
      } else {
        var k :| 0 <= k < |s.dials| && Operating(s.dials[k]);
        assert InProgress(EvDialStep(k, true)) && Enabled(s, EvDialStep(k, true));
      }
    }
  }

  /** As long as a call of Close has not returned, something that is in progress can go on. */
  lemma CloseIsNeverStuck(states: seq<State>, events: seq<Event>, i: nat, j: nat)
    requires IsRun(states, events) && i < |states| && j < |states[i].closers| && states[i].closers[j] != Returned
    ensures exists ev :: InProgress(ev) && Enabled(states[i], ev)
  {
    var s := states[i];
    if OwesClosed(s.closers[j]) {
      OwerGoesOn(states, events, i, j);
    } else {
      ChannelsAreAnnounced(states, events, i, j);
      if Enabled(s, EvCloser(j)) {
        assert InProgress(EvCloser(j));
      } else if Enabled(s, EvEnginesStarted(true)) {
        assert InProgress(EvEnginesStarted(true));
      } else if Enabled(s, EvAnnounce) {
        assert InProgress(EvAnnounce);
      } else if s.closers[j].AwaitStarted? {
        var k :| 0 <= k < |s.closers| && OwesStarted(s.closers[k]) && Enabled(s, EvCloser(k));
        assert InProgress(EvCloser(k));
      } else {
        var k :| 0 <= k < |s.closers| && OwesClosed(s.closers[k]);
        OwerGoesOn(states, events, i, k);
      }
    }
  }
}
