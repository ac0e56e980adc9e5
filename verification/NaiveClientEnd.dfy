/**
 Every call of Close comes to its end: when nobody makes new calls, only a bounded number of steps
 is left, and when there is none left every call of Close has returned.
 */
module NaiveClientEnd {
  import opened Counting
  import opened NaiveClientModel
  import opened NaiveClientRuns

  // ---------- how many steps are left ----------

  /** A closer that loops goes round once for each phase that is still to come. */
  function CloserLeft(c: Closer, p: Phase): nat {
    match c
    case Looping => 4 * (4 - Rank(p)) + 3
    case Swapping => if p == Created then 18 else 4 * (4 - Rank(p)) + 4
    case AwaitStarted => 12
    case Locking => 10
    case AwaitOperations => 9
    case AwaitConnections => 8
    case Destroying => 7
    case Storing => 6
    case AwaitClosed => 6
    case AnnouncingClosed => 5
    case CreatedFirst => 2
    case CreatedSecond => 1
    case Returned => 0
  }

  function ClosersLeft(cs: seq<Closer>, p: Phase): nat {
    if cs == [] then 0 else CloserLeft(cs[0], p) + ClosersLeft(cs[1..], p)
  }

  /** A dial has its own way to go, and its stream a termination and its hook. */
  function DialLeft(d: Dial): nat {
    3 * (match d.at
         case Loading => 7 case AwaitStart => 6 case AtLock => 5 case Creating => 4
         case Hooking => 3 case Launching => 2 case Leaving => 1 case Gone => 0)
    + 2 * Bit(!d.terminated) + Bit(d.due)
  }

  function DialsLeft(ds: seq<Dial>): nat {
    if ds == [] then 0 else DialLeft(ds[0]) + DialsLeft(ds[1..])
  }

  function StarterLeft(s: Starter): nat {
    match s case StartingEngines => 3 case FailedFirst => 2 case FailedSecond => 1 case Announcing => 1 case _ => 0
  }

  function Distance(s: State): nat {
    ClosersLeft(s.closers, s.phase) + DialsLeft(s.dials) + s.sweeps + StarterLeft(s.starter)
  }

  lemma {:induction false} ClosersUpdate(cs: seq<Closer>, j: nat, c: Closer, p: Phase)
    requires j < |cs|
    ensures ClosersLeft(cs[j := c], p) == ClosersLeft(cs, p) - CloserLeft(cs[j], p) + CloserLeft(c, p)
  {
    if j == 0 {
      assert cs[0 := c][1..] == cs[1..];
    } else {
      assert cs[j := c][1..] == cs[1..][j - 1 := c];
      ClosersUpdate(cs[1..], j - 1, c, p);
    }
  }

  /** A later phase never leaves more to do. */
  lemma {:induction false} ClosersShrink(cs: seq<Closer>, p: Phase, q: Phase)
    requires Rank(p) <= Rank(q)
    ensures ClosersLeft(cs, q) <= ClosersLeft(cs, p)
  {
    if cs != [] {
      ClosersShrink(cs[1..], p, q);
      assert CloserLeft(cs[0], q) <= CloserLeft(cs[0], p);
    }
  }

  lemma {:induction false} DialsUpdate(ds: seq<Dial>, i: nat, d: Dial)
    requires i < |ds|
    ensures DialsLeft(ds[i := d]) == DialsLeft(ds) - DialLeft(ds[i]) + DialLeft(d)
  {
    if i == 0 {
      assert ds[0 := d][1..] == ds[1..];
    } else {
      assert ds[i := d][1..] == ds[1..][i - 1 := d];
      DialsUpdate(ds[1..], i - 1, d);
    }
  }

  // ---------- every step takes one ----------

  lemma CloserMoves(s: State, j: nat)
    requires Inv(s) && CloserMay(s, j) && WaiterOk(s.closers[j], s.phase)
    ensures var t := CloserStep(s, j);
            && |t.closers| == |s.closers| && t.closers == s.closers[j := t.closers[j]]
            && CloserLeft(t.closers[j], t.phase) < CloserLeft(s.closers[j], s.phase)
  {
  }

  /** What the later phase takes off the others it takes off besides that closer. */
  lemma {:induction false} OneCloserShrinks(cs: seq<Closer>, j: nat, p: Phase, q: Phase)
    requires j < |cs| && Rank(p) <= Rank(q)
    ensures ClosersLeft(cs, q) - CloserLeft(cs[j], q) <= ClosersLeft(cs, p) - CloserLeft(cs[j], p)
  {
    if j == 0 {
      ClosersShrink(cs[1..], p, q);
    } else {
      OneCloserShrinks(cs[1..], j - 1, p, q);
      assert CloserLeft(cs[0], q) <= CloserLeft(cs[0], p);
    }
  }

  lemma CloserComesNearer(s: State, j: nat)
    requires Orderly(s) && CloserMay(s, j)
    ensures Distance(CloserStep(s, j)) < Distance(s)
  {
    var t := CloserStep(s, j);
    CloserGoesOn(s, j);
    CloserMoves(s, j);
    ClosersUpdate(s.closers, j, t.closers[j], t.phase);
    OneCloserShrinks(s.closers, j, s.phase, t.phase);
  }

  /** One dial is replaced by one that has less to do. */
  lemma DialMoved(s: State, t: State, i: nat, d: Dial)
    requires i < |s.dials| && t.dials == s.dials[i := d] && DialLeft(d) < DialLeft(s.dials[i])
    requires t.phase == s.phase && t.closers == s.closers && t.sweeps == s.sweeps && t.starter == s.starter
    ensures Distance(t) < Distance(s)
  {
    DialsUpdate(s.dials, i, d);
  }

  lemma DialStepComesNearer(s: State, i: nat, ok: bool)
    requires DialMay(s, i, ok)
    ensures Distance(DialStep(s, i, ok)) < Distance(s)
  {
    var d := s.dials[i];
    if d.at == AtLock {
      DialMoved(s, Admit(s, i, ok), i,
        if s.phase == Running && ok then d.(at := Creating, reserved := true) else d.(at := Gone));
    } else {
      DialMoved(s, DialStep(s, i, ok), i, NextDial(d, s.phase, ok));
    }
  }

  lemma EnginesComeNearer(s: State, ok: bool)
    requires Inv(s) && Enabled(s, EvEnginesStarted(ok))
    ensures Distance(EnginesStarted(s, ok)) < Distance(s)
  {
    ClosersShrink(s.closers, s.phase, EnginesStarted(s, ok).phase);
  }

  lemma StreamComesNearer(s: State, i: nat)
    ensures Enabled(s, EvTerminated(i)) ==> Distance(Terminate(s, i)) < Distance(s)
    ensures Enabled(s, EvRelease(i)) ==> Distance(Release(s, i)) < Distance(s)
  {
    if Enabled(s, EvTerminated(i)) { DialMoved(s, Terminate(s, i), i, Terminate(s, i).dials[i]); }
    if Enabled(s, EvRelease(i)) { DialMoved(s, Release(s, i), i, Release(s, i).dials[i]); }
  }

  /** Every step of a call in progress, or of a stream, comes nearer to the end. */
  lemma ComesNearer(s: State, ev: Event)
    requires Orderly(s) && Enabled(s, ev) && InProgress(ev)
    ensures Distance(Step(s, ev)) < Distance(s)
  {
    match ev
    case EvCloser(j) => CloserComesNearer(s, j);
    case EvDialStep(i, ok) => DialStepComesNearer(s, i, ok);
    case EvTerminated(i) => StreamComesNearer(s, i);
    case EvRelease(i) => StreamComesNearer(s, i);
    case EvEnginesStarted(ok) => EnginesComeNearer(s, ok);
    case EvAnnounce =>
    case EvSwept =>
  }

  /**
   As long as nobody makes a new call, the number of steps is bounded, in whatever order they are
   taken.
   */
  lemma EverythingEnds(states: seq<State>, events: seq<Event>, i: nat, j: nat)
    requires IsRun(states, events) && i <= j < |states|
    requires forall k :: i <= k < j ==> InProgress(events[k])
    ensures j - i + Distance(states[j]) <= Distance(states[i])
  {
    var left := j;
    while left > i
      invariant i <= left <= j && j - left + Distance(states[j]) <= Distance(states[left])
    {
      left := left - 1;
      RunIsOrderly(states, events, left);
      ComesNearer(states[left], events[left]);
    }
  }

  /** When nothing that is in progress can go on, every call of Close has returned and the client is closed. */
  lemma ThenEveryCloseHasReturned(states: seq<State>, events: seq<Event>, i: nat, j: nat)
    requires IsRun(states, events) && i < |states| && j < |states[i].closers|
    requires forall ev :: InProgress(ev) ==> !Enabled(states[i], ev)
    ensures states[i].closers[j] == Returned && states[i].phase == Closed
  {
    if states[i].closers[j] != Returned {
      CloseIsNeverStuck(states, events, i, j);
    } else {
      CloseMeansClosed(states, events, i, j, i);
    }
  }
}
