/**
 The executor as an object: each method is one critical section of its mutex, and Drive is any use of
 it. A drain that has been handed to the parent executor is a loop that looks and runs in turn.
 */
module StreamingExecutors {
  import opened Bytes
  import opened SerialExecutor

  class Executor<T(0)> {
    var queue: seq<T>
    var running: bool
    /** The drains that the parent executor has, and what has gone in and come out. */
    var drains: seq<Drain<T>>
    var submitted: seq<T>
    var begun: seq<T>

    function Abs(): State<T>
      reads this
    {
      State(queue, running, drains, submitted, begun)
    }

    /** Tasks come out in the order in which they went in, and one drain takes them out. */
    ghost predicate Valid()
      reads this
    {
      Inv(Abs())
    }

    constructor ()
      ensures Valid() && submitted == []
    {
      queue, running, drains, submitted, begun := [], false, [], [], [];
    }

    /** Returns whether the caller has to hand a new drain to the parent; it does so at once. */
    method Submit(task: T) returns (schedule: bool)
      requires Valid()
      modifies this
      ensures Valid() && submitted == old(submitted) + [task] && begun == old(begun)
      ensures schedule == (|drains| > |old(drains)|) && running
    {
      StepKeeps(Abs(), EvSubmit(task));
      queue := queue + [task];
      submitted := submitted + [task];
      if running { return false; }
      running := true;
      drains := drains + [Looking];
      schedule := true;
    }

    /** The locked part of the drain loop: the oldest task that has not begun, or the end of the drain. */
    method TakeNext(d: nat) returns (next: Option<T>)
      requires Valid() && d < |drains| && drains[d].Looking?
      modifies this
      ensures Valid() && submitted == old(submitted)
      ensures next == if |old(begun)| < |submitted| then Some(submitted[|old(begun)|]) else None
      ensures next.Some? ==> begun == old(begun) + [next.value]
      ensures next == None ==> begun == submitted && drains == []
    {
      StepKeeps(Abs(), EvTake(d));
      if queue == [] {
        running := false;
        drains := drains[..d] + drains[d + 1..];
        return None;
      }
      next := Some(queue[0]);
      begun := begun + [queue[0]];
      drains := drains[d := Running(queue[0])];
      queue := queue[1..];
    }

    /** The task of a drain has returned. */
    method Finish(d: nat)
      requires Valid() && d < |drains| && drains[d].Running?
      modifies this
      ensures Valid() && submitted == old(submitted) && begun == old(begun)
    {
      StepKeeps(Abs(), EvFinish(d));
      drains := drains[d := Looking];
    }
  }

  /**
   Any use of an executor: tasks begin in the order of submission, each at most once and one at a
   time, and all have begun when there is nothing left to do.
   */
  method Drive(turns: nat) returns (submitted: seq<int>, ran: seq<int>, idle: bool)
    ensures ran <= submitted
    ensures idle ==> ran == submitted
  {
    var e := new Executor<int>();
    ran := [];
    for i := 0 to turns
      invariant fresh(e) && e.Valid() && ran == e.begun
    {
      var task: int, submits: bool := *, *;
      if submits {
        var _ := e.Submit(task);
      } else if |e.drains| > 0 {
        if e.drains[0].Looking? {
          var next := e.TakeNext(0);
          if next.Some? { ran := ran + [next.value]; }
        } else {
          e.Finish(0);
        }
      }
    }
    submitted, idle := e.submitted, |e.drains| == 0;
  }
}
