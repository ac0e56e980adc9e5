/** Sequences of states, one step apart, for the machines of this project. */
module Runs {
  import opened Bytes

  /** What holds at first and is kept by every step holds throughout. */
  lemma {:induction false} Preserved<S>(states: seq<S>, inv: S -> bool, i: nat)
    requires i < |states| && inv(states[0])
    requires forall k :: 0 <= k < i && inv(states[k]) ==> inv(states[k + 1])
    ensures inv(states[i])
  {
    if i > 0 { Preserved(states, inv, i - 1); }
  }

  /** What holds from each state to the next holds from any state to every later one. */
  lemma {:induction false} Carried<S>(states: seq<S>, later: (S, S) -> bool, i: nat, j: nat)
    requires i <= j < |states|
    requires forall s :: later(s, s)
    requires forall s, t, u :: later(s, t) && later(t, u) ==> later(s, u)
    requires forall k :: i <= k < j ==> later(states[k], states[k + 1])
    ensures later(states[i], states[j])
    decreases j - i
  {
    if i < j { Carried(states, later, i, j - 1); }
  }

  /** A flag that certain events raise is up exactly when one of them has happened. */
  lemma {:induction false} Raised<S, E>(states: seq<S>, events: seq<E>, up: S -> bool, raises: (S, E) -> bool, i: nat)
    requires i < |states| && i <= |events| && !up(states[0])
    requires forall k :: 0 <= k < i ==> (up(states[k + 1]) <==> up(states[k]) || raises(states[k], events[k]))
    ensures up(states[i]) <==> exists k :: 0 <= k < i && raises(states[k], events[k])
  {
    if i > 0 { Raised(states, events, up, raises, i - 1); }
  }

  /** What events are the first cause of, if there is any. */
  function FirstOf<S, E, C>(states: seq<S>, events: seq<E>, cause: (S, E) -> Option<C>, i: nat): Option<C>
    requires i <= |events| && i <= |states|
  {
    if i == 0 then None
    else if FirstOf(states, events, cause, i - 1).Some? then FirstOf(states, events, cause, i - 1)
    else cause(states[i - 1], events[i - 1])
  }

  /** Some event is the first cause, and no event before it is one. */
  lemma {:induction false} FirstIsFirst<S, E, C>(states: seq<S>, events: seq<E>, cause: (S, E) -> Option<C>, i: nat)
      returns (k: nat)
    requires i <= |events| && i <= |states| && FirstOf(states, events, cause, i).Some?
    ensures k < i && cause(states[k], events[k]) == FirstOf(states, events, cause, i)
    ensures forall j :: 0 <= j < k ==> cause(states[j], events[j]) == None
  {
    if FirstOf(states, events, cause, i - 1).Some? {
      k := FirstIsFirst(states, events, cause, i - 1);
    } else {
      k := i - 1;
      NoneBefore(states, events, cause, k);
    }
  }

  lemma {:induction false} NoneBefore<S, E, C>(states: seq<S>, events: seq<E>, cause: (S, E) -> Option<C>, i: nat)
    requires i <= |events| && i <= |states| && FirstOf(states, events, cause, i) == None
    ensures forall j :: 0 <= j < i ==> cause(states[j], events[j]) == None
  {
    if i > 0 { NoneBefore(states, events, cause, i - 1); }
  }

  /** Everything that events lead to, one after the other. */
  function AllOf<S, E, C>(states: seq<S>, events: seq<E>, calls: (S, E) -> seq<C>, i: nat): seq<C>
    requires i <= |events| && i <= |states|
  {
    if i == 0 then [] else AllOf(states, events, calls, i - 1) + calls(states[i - 1], events[i - 1])
  }

  /** A state keeps the first cause of anything, if every step does. */
  lemma {:induction false} KeepsFirst<S, E, C>(states: seq<S>, events: seq<E>, kept: S -> Option<C>,
                                               cause: (S, E) -> Option<C>, i: nat)
    requires i < |states| && i <= |events| && kept(states[0]) == None
    requires forall k :: 0 <= k < i ==>
               kept(states[k + 1]) == if kept(states[k]).Some? then kept(states[k]) else cause(states[k], events[k])
    ensures kept(states[i]) == FirstOf(states, events, cause, i)
  {
    if i > 0 { KeepsFirst(states, events, kept, cause, i - 1); }
  }

  /** A history holds everything, if every step adds its own. */
  lemma {:induction false} KeepsAll<S, E, C>(states: seq<S>, events: seq<E>, kept: S -> seq<C>,
                                             calls: (S, E) -> seq<C>, i: nat)
    requires i < |states| && i <= |events| && kept(states[0]) == []
    requires forall k :: 0 <= k < i ==> kept(states[k + 1]) == kept(states[k]) + calls(states[k], events[k])
    ensures kept(states[i]) == AllOf(states, events, calls, i)
  {
    if i > 0 { KeepsAll(states, events, kept, calls, i - 1); }
  }

  lemma Joined<C>(a: seq<C>, b: seq<C>, c: seq<C>)
    ensures a + b + c == a + (b + c)
  {
  }
}
