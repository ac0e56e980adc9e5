/**
 The serial executor of one request. Tasks may be submitted at any time, also by a running task;
 every drain that has been handed to the parent executor is a loop of its own, and nothing in the
 model stops two of them from existing. That there is never more than one is a theorem.
 */
module SerialExecutor {
  import opened Bytes
  import opened Runs

  /** A drain loop is about to look at the queue, or is running a task. */
  datatype Drain<T> = Looking | Running(task: T)

  datatype State<T> = State(
    queue: seq<T>, running: bool,
    drains: seq<Drain<T>>,
    submitted: seq<T>, begun: seq<T>)

  function Initial<T>(): State<T> {
    State([], false, [], [], [])
  }

  function Submit<T>(s: State<T>, t: T): State<T> {
    s.(queue := s.queue + [t], submitted := s.submitted + [t], running := true,
       drains := if s.running then s.drains else s.drains + [Looking])
  }

  /** One look of drain d at the queue: it takes the oldest task, or ends. */
  function Take<T>(s: State<T>, d: nat): State<T>
    requires d < |s.drains|
  {
    if s.queue == [] then s.(running := false, drains := s.drains[..d] + s.drains[d + 1..])
    else s.(queue := s.queue[1..], begun := s.begun + [s.queue[0]], drains := s.drains[d := Running(s.queue[0])])
  }

  function Finish<T>(s: State<T>, d: nat): State<T>
    requires d < |s.drains|
  {
    s.(drains := s.drains[d := Looking])
  }

  datatype Event<T> = EvSubmit(task: T) | EvTake(d: nat) | EvFinish(d: nat)

  predicate Enabled<T>(s: State<T>, ev: Event<T>) {
    match ev
    case EvSubmit(_) => true
    case EvTake(d) => d < |s.drains| && s.drains[d].Looking?
    case EvFinish(d) => d < |s.drains| && s.drains[d].Running?
  }

  function Step<T>(s: State<T>, ev: Event<T>): State<T>
    requires Enabled(s, ev)
  {
    match ev
    case EvSubmit(t) => Submit(s, t)
    case EvTake(d) => Take(s, d)
    case EvFinish(d) => Finish(s, d)
  }

  ghost predicate IsRun<T>(states: seq<State<T>>, events: seq<Event<T>>) {
    && |states| == |events| + 1 && states[0] == Initial()
    && forall i :: 0 <= i < |events| ==> Enabled(states[i], events[i]) && states[i + 1] == Step(states[i], events[i])
  }

  ghost predicate Inv<T>(s: State<T>) {
    && |s.drains| == (if s.running then 1 else 0)
    && (s.queue != [] ==> s.running)
    && s.submitted == s.begun + s.queue
  }

  lemma StepKeeps<T>(s: State<T>, ev: Event<T>)
    requires Inv(s) && Enabled(s, ev)
    ensures Inv(Step(s, ev))
  {
    if ev.EvTake? && s.queue != [] {
      assert s.queue == [s.queue[0]] + s.queue[1..];
    }
  }

  lemma RunKeepsInv<T>(states: seq<State<T>>, events: seq<Event<T>>, i: nat)
    requires IsRun(states, events) && i < |states|
    ensures Inv(states[i])
  {
    forall k | 0 <= k < i && Inv(states[k]) ensures Inv(states[k + 1]) {
      StepKeeps(states[k], events[k]);
    }
    Preserved(states, (s: State<T>) => Inv(s), i);
  }

  /**
   In every run tasks begin in exactly the order of submission, each at most once, at most one is
   running at any time, and while any task waits some drain can take a step towards it.
   */
  lemma TasksRunInOrder<T>(states: seq<State<T>>, events: seq<Event<T>>, i: nat)
    requires IsRun(states, events) && i < |states|
    ensures states[i].submitted == states[i].begun + states[i].queue
    ensures |states[i].drains| <= 1
    ensures states[i].running <==> |states[i].drains| == 1
    ensures states[i].queue != [] ==> Enabled(states[i], EvTake(0)) || Enabled(states[i], EvFinish(0))
  {
    RunKeepsInv(states, events, i);
  }
}
