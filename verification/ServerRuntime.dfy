/** The runtime object over its executor. Each method is one step of Runtime; the joins of stop, which wait for
    other threads, are the conditions under which its later parts may run. */
module ServerRuntime {
  import opened Wrappers
  import opened Executor
  import Spec = Runtime

  class ServerRuntime {
    var stopping: bool
    const executor: BoundedExecutor
    ghost var state: Spec.State

    ghost predicate Valid()
      reads this, executor
    {
      && executor.Valid() && Spec.Inv(state)
      && stopping == state.runtimeStopping
      && executor.stopping == state.executorStopping
      && executor.tasks == state.queue && executor.maxPendingTasks == state.maxPending
      && executor.accepted == state.accepted && executor.dequeued == state.dequeued
    }

    constructor (workerCount: nat, maxPendingTasks: nat, sessionsEnabled: bool)
      ensures Valid() && fresh(executor) && state == Spec.Initial(workerCount, maxPendingTasks, sessionsEnabled)
    {
      stopping := false;
      executor := new BoundedExecutor(maxPendingTasks);
      state := Spec.Initial(workerCount, maxPendingTasks, sessionsEnabled);
      new;
      Spec.InitialInv(workerCount, maxPendingTasks, sessionsEnabled);
      assert executor.accepted == executor.dequeued + executor.tasks;
    }

    /** submit_background */
    method SubmitBackground(task: nat) returns (r: Result<(), SubmitError>)
      requires Valid()
      modifies executor, this`state
      ensures Valid() && state == Spec.Submitted(old(state), task)
      ensures r.Ok? <==> !old(state).runtimeStopping && !old(state).executorStopping
                         && |old(state).queue| < old(state).maxPending
      ensures r.Ok? <==> state.accepted == old(state).accepted + [task]
    {
      ghost var before := state;
      Spec.SubmitKeepsInv(state, task);
      hide Spec.Inv;
      assert |before.accepted + [task]| != |before.accepted|;
      if stopping {
        return Err(Stopping);
      }
      r := executor.Submit(task);
      state := Spec.Submitted(state, task);
    }

    /** The locked part of the worker loop, entered by worker `w`. */
    method WorkerTakes(ghost w: nat) returns (task: Option<nat>)
      requires Valid() && Spec.Enabled(state, Spec.WorkerTake(w))
      modifies executor, this`state
      ensures Valid() && state == Spec.Apply(old(state), Spec.WorkerTake(w))
      ensures task == if old(state).queue == [] then None else Some(old(state).queue[0])
    {
      Spec.TakeKeepsInv(state, w);
      hide Spec.Inv;
      task := executor.Take();
      state := Spec.Apply(state, Spec.WorkerTake(w));
    }

    /** One pass of the reaper loop after its wait: it leaves, or reaps. */
    method ReaperWakes() returns (leaves: bool)
      requires Valid() && Spec.Enabled(state, Spec.ReaperWake)
      modifies this`state
      ensures Valid() && state == Spec.Apply(old(state), Spec.ReaperWake)
      ensures leaves <==> old(state).runtimeStopping
      ensures state.reaper == if leaves then Spec.Gone else Spec.Reaping
    {
      Spec.StepKeepsInv(state, Spec.ReaperWake);
      hide Spec.Inv;
      leaves := stopping;
      state := Spec.Apply(state, Spec.ReaperWake);
    }

    /** stop up to the release of the lock; only the first caller goes on to join. */
    method BeginStop() returns (first: bool)
      requires Valid()
      modifies this`stopping, this`state
      ensures Valid() && state == Spec.Apply(old(state), Spec.StopFlag)
      ensures first <==> !old(state).runtimeStopping
    {
      Spec.StepKeepsInv(state, Spec.StopFlag);
      hide Spec.Inv;
      first := !stopping;
      state := Spec.Apply(state, Spec.StopFlag);
      if !first {
        return;
      }
      stopping := true;
    }

    /** The executor's own stop, once the reaper has been joined. */
    method StopExecutor()
      requires Valid() && Spec.Enabled(state, Spec.StopExecutor)
      modifies executor, this`state
      ensures Valid() && state == Spec.Apply(old(state), Spec.StopExecutor)
    {
      Spec.StepKeepsInv(state, Spec.StopExecutor);
      hide Spec.Inv;
      var first := executor.BeginStop();
      state := Spec.Apply(state, Spec.StopExecutor);
    }
  }
}
