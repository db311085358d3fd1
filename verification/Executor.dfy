/** The bounded executor object: a queue with a bound, filled by callers and emptied by workers. Each method
    is one critical section. Tasks are numbered by whoever submits them. */
module Executor {
  import opened Wrappers

  datatype SubmitError = Stopping | QueueFull

  class BoundedExecutor {
    const maxPendingTasks: nat
    var tasks: seq<nat>
    var stopping: bool

    /** Every task accepted and every task handed to a worker, in order. */
    ghost var accepted: seq<nat>
    ghost var dequeued: seq<nat>

    ghost predicate Valid()
      reads this
    {
      && 0 < maxPendingTasks
      && |tasks| <= maxPendingTasks
      && accepted == dequeued + tasks
    }

    constructor (maxPending: nat)
      ensures Valid() && tasks == [] && !stopping && accepted == [] && dequeued == []
      ensures maxPendingTasks == if maxPending == 0 then 1 else maxPending
    {
      maxPendingTasks := if maxPending == 0 then 1 else maxPending;
      tasks, stopping, accepted, dequeued := [], false, [], [];
    }

    method Submit(task: nat) returns (r: Result<(), SubmitError>)
      requires Valid()
      modifies this
      ensures Valid() && stopping == old(stopping) && dequeued == old(dequeued)
      ensures r == Err(Stopping) <==> old(stopping)
      ensures r == Err(QueueFull) <==> !old(stopping) && |old(tasks)| == maxPendingTasks
      ensures r.Ok? <==> !old(stopping) && |old(tasks)| < maxPendingTasks
      ensures r.Ok? ==> accepted == old(accepted) + [task] && tasks == old(tasks) + [task]
      ensures r.Err? ==> accepted == old(accepted) && tasks == old(tasks)
    {
      if stopping {
        return Err(Stopping);
      }
      if |tasks| >= maxPendingTasks {
        return Err(QueueFull);
      }
      tasks := tasks + [task];
      accepted := accepted + [task];
      r := Ok(());
    }

    /** stop up to the release of the lock; `first` tells the caller to join the workers. */
    method BeginStop() returns (first: bool)
      requires Valid()
      modifies this`stopping
      ensures Valid() && stopping && first == !old(stopping)
    {
      first := !stopping;
      stopping := true;
    }

    /** The locked part of the worker loop, entered when its wait is over: a task, or the worker exits. */
    method Take() returns (task: Option<nat>)
      requires Valid() && (stopping || tasks != [])
      modifies this
      ensures Valid() && stopping == old(stopping) && accepted == old(accepted)
      ensures task.None? <==> old(stopping) && old(tasks) == []
      ensures task.None? ==> tasks == [] && dequeued == old(dequeued)
      ensures task.Some? ==> old(tasks) == [task.value] + tasks && dequeued == old(dequeued) + [task.value]
    {
      if stopping && tasks == [] {
        return None;
      }
      task := Some(tasks[0]);
      dequeued := dequeued + [tasks[0]];
      tasks := tasks[1..];
    }
  }
}
