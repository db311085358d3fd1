/** The server runtime: the bounded executor with its workers, the session reaper, and the order in which
    stop takes them down. A step is one critical section or the end of a task; threads interleave freely. */
module Runtime {
  datatype Worker = Idle | Running(task: nat) | Exited

  datatype Reaper = Waiting | Reaping | Gone

  /** The thread that stops the runtime: it joins the reaper, stops the executor and joins its workers, and
      stops the chat service last. */
  datatype StopPhase = NotStopping | Flagged | ReaperJoined | ExecutorStopped | WorkersJoined | ServiceStopped

  /** `accepted`, `dequeued` and `finished` record the run: tasks in order of acceptance, of being taken, and
      of completion. */
  datatype State = State(
    maxPending: nat, queue: seq<nat>, executorStopping: bool, workers: seq<Worker>,
    runtimeStopping: bool, reaper: Reaper, phase: StopPhase,
    accepted: seq<nat>, dequeued: seq<nat>, finished: multiset<nat>)

  /** The constructors: at least one slot, at least one worker; a reaper only if sessions are enabled. */
  function Initial(workerCount: nat, maxPendingTasks: nat, sessionsEnabled: bool): State {
    State(if maxPendingTasks == 0 then 1 else maxPendingTasks, [], false,
          seq(if workerCount == 0 then 1 else workerCount, _ => Idle),
          false, if sessionsEnabled then Waiting else Gone, NotStopping, [], [], multiset{})
  }

  datatype Step =
    | Submit(task: nat)          // submit_background
    | WorkerTake(w: nat)
    | WorkerFinish(w: nat)
    | ReaperWake                 // the wait times out or is notified
    | ReaperDone
    | StopFlag                   // ServerRuntime::stop up to its lock's release
    | JoinReaper
    | StopExecutor
    | JoinWorkers
    | StopService

  predicate AllExited(workers: seq<Worker>) {
    forall i | 0 <= i < |workers| :: workers[i].Exited?
  }

  predicate Enabled(s: State, step: Step) {
    match step
    case Submit(_) => true
    case WorkerTake(w) => w < |s.workers| && s.workers[w].Idle? && (s.executorStopping || s.queue != [])
    case WorkerFinish(w) => w < |s.workers| && s.workers[w].Running?
    case ReaperWake => s.reaper.Waiting?
    case ReaperDone => s.reaper.Reaping?
    case StopFlag => true
    case JoinReaper => s.phase.Flagged? && s.reaper.Gone?
    case StopExecutor => s.phase.ReaperJoined?
    case JoinWorkers => s.phase.ExecutorStopped? && AllExited(s.workers)
    case StopService => s.phase.WorkersJoined?
  }

  /** submit_background holds the runtime's lock while it asks the executor. */
  function Submitted(s: State, task: nat): State {
    if s.runtimeStopping || s.executorStopping || |s.queue| >= s.maxPending then s
    else s.(queue := s.queue + [task], accepted := s.accepted + [task])
  }

  function Apply(s: State, step: Step): State
    requires Enabled(s, step)
  {
    match step
    case Submit(task) => Submitted(s, task)
    case WorkerTake(w) =>
      if s.queue == [] then s.(workers := s.workers[w := Exited])
      else s.(workers := s.workers[w := Running(s.queue[0])], queue := s.queue[1..],
              dequeued := s.dequeued + [s.queue[0]])
    case WorkerFinish(w) =>
      s.(workers := s.workers[w := Idle], finished := s.finished + multiset{s.workers[w].task})
    case ReaperWake => s.(reaper := if s.runtimeStopping then Gone else Reaping)
    case ReaperDone => s.(reaper := Waiting)
    case StopFlag => if s.runtimeStopping then s else s.(runtimeStopping := true, phase := Flagged)
    case JoinReaper => s.(phase := ReaperJoined)
    case StopExecutor => s.(executorStopping := true, phase := ExecutorStopped)
    case JoinWorkers => s.(phase := WorkersJoined)
    case StopService => s.(phase := ServiceStopped)
  }

  predicate IsRun(s: State, steps: seq<Step>)
    decreases |steps|
  {
    steps == [] || (Enabled(s, steps[0]) && IsRun(Apply(s, steps[0]), steps[1..]))
  }

  function Exec(s: State, steps: seq<Step>): State
    requires IsRun(s, steps)
    decreases |steps|
  {
    if steps == [] then s else Exec(Apply(s, steps[0]), steps[1..])
  }

  // ---------- invariants ----------

  /** The tasks that workers are running. */
  function InHand(workers: seq<Worker>): multiset<nat> {
    if workers == [] then multiset{}
    else InHand(workers[..|workers| - 1]) + Tasks(workers[|workers| - 1])
  }

  function Tasks(worker: Worker): multiset<nat> {
    if worker.Running? then multiset{worker.task} else multiset{}
  }

  function PhaseRank(p: StopPhase): nat {
    match p
    case NotStopping => 0
    case Flagged => 1
    case ReaperJoined => 2
    case ExecutorStopped => 3
    case WorkersJoined => 4
    case ServiceStopped => 5
  }

  ghost predicate Inv(s: State) {
    // FIFO, nothing lost or duplicated, and the bound.
    && s.accepted == s.dequeued + s.queue
    && |s.queue| <= s.maxPending
    && multiset(s.dequeued) == s.finished + InHand(s.workers)
    // Workers leave an empty queue that can never fill again.
    && (forall i | 0 <= i < |s.workers| && s.workers[i].Exited? :: s.queue == [] && s.executorStopping)
    && s.workers != []
    // The order of stop.
    && (s.runtimeStopping <==> PhaseRank(s.phase) >= 1)
    && (s.executorStopping <==> PhaseRank(s.phase) >= 3)
    && (PhaseRank(s.phase) >= 2 ==> s.reaper.Gone?)
    && (PhaseRank(s.phase) >= 4 ==> AllExited(s.workers))
  }

  lemma SumsAgree(a: multiset<nat>, b: multiset<nat>, x: multiset<nat>, y: multiset<nat>, c: multiset<nat>)
    requires a + x == b + y
    ensures (a + c) + x == (b + c) + y
  {
    forall t: nat ensures ((a + c) + x)[t] == ((b + c) + y)[t] {
      assert (a + x)[t] == (b + y)[t];
    }
  }

  lemma SumsSwap(a: multiset<nat>, b: multiset<nat>, c: multiset<nat>)
    ensures (a + b) + c == (a + c) + b
  {
  }

  lemma {:induction false} InHandUpdate(workers: seq<Worker>, w: nat, worker: Worker)
    requires w < |workers|
    ensures InHand(workers[w := worker]) + Tasks(workers[w]) == InHand(workers) + Tasks(worker)
    decreases |workers|
  {
    hide InHand, Tasks;
    var n := |workers| - 1;
    var updated := workers[w := worker];
    InHandLast(workers, n);
    InHandLast(updated, n);
    var front, last := InHand(workers[..n]), Tasks(workers[n]);
    if w < n {
      InHandUpdate(workers[..n], w, worker);
      assert updated[..n] == workers[..n][w := worker];
      SumsAgree(InHand(updated[..n]), front, Tasks(workers[w]), Tasks(worker), last);
    } else {
      assert updated[..n] == workers[..n];
      SumsSwap(front, Tasks(worker), last);
    }
  }

  lemma InHandLast(workers: seq<Worker>, n: nat)
    requires |workers| == n + 1
    ensures InHand(workers) == InHand(workers[..n]) + Tasks(workers[n])
  {
  }

  /** A task moves into or out of a worker's hand: what was taken stays what is finished or in hand. */
  lemma MoveTask(taken: seq<nat>, finished: multiset<nat>, hand: multiset<nat>, hand': multiset<nat>,
                 x: multiset<nat>, y: multiset<nat>)
    requires multiset(taken) == finished + hand && hand' + x == hand + y
    ensures multiset(taken) + y == finished + x + hand'
  {
    forall t: nat ensures (multiset(taken) + y)[t] == (finished + x + hand')[t] {
      assert (hand' + x)[t] == (hand + y)[t] && multiset(taken)[t] == (finished + hand)[t];
    }
  }

  lemma {:induction false} InHandOfIdle(workers: seq<Worker>)
    requires forall i | 0 <= i < |workers| :: !workers[i].Running?
    ensures InHand(workers) == multiset{}
    decreases |workers|
  {
    if workers != [] {
      InHandOfIdle(workers[..|workers| - 1]);
      assert !workers[|workers| - 1].Running?;
    }
  }

  lemma InitialInv(workerCount: nat, maxPendingTasks: nat, sessionsEnabled: bool)
    ensures Inv(Initial(workerCount, maxPendingTasks, sessionsEnabled))
  {
    var s := Initial(workerCount, maxPendingTasks, sessionsEnabled);
    InHandOfIdle(s.workers);
  }

  /** Changing one worker, and moving at most one task with it, keeps the record of tasks. */
  lemma RecordKept(s: State, w: nat, worker: Worker, taken: seq<nat>, done: multiset<nat>)
    requires w < |s.workers| && multiset(s.dequeued) == s.finished + InHand(s.workers)
    requires multiset(taken) == multiset(s.dequeued) + Tasks(worker) && done == s.finished + Tasks(s.workers[w])
    ensures multiset(taken) == done + InHand(s.workers[w := worker])
  {
    InHandUpdate(s.workers, w, worker);
    hide InHand;
    MoveTask(s.dequeued, s.finished, InHand(s.workers), InHand(s.workers[w := worker]), Tasks(s.workers[w]), Tasks(worker));
  }

  lemma TakeKeepsInv(s: State, w: nat)
    requires Inv(s) && Enabled(s, WorkerTake(w))
    ensures Inv(Apply(s, WorkerTake(w)))
  {
    hide InHand, PhaseRank;
    if s.queue == [] {
      RecordKept(s, w, Exited, s.dequeued, s.finished);
    } else {
      RecordKept(s, w, Running(s.queue[0]), s.dequeued + [s.queue[0]], s.finished);
      assert (s.dequeued + [s.queue[0]]) + s.queue[1..] == s.dequeued + s.queue;
    }
  }

  lemma FinishKeepsInv(s: State, w: nat)
    requires Inv(s) && Enabled(s, WorkerFinish(w))
    ensures Inv(Apply(s, WorkerFinish(w)))
  {
    hide InHand, PhaseRank;
    RecordKept(s, w, Idle, s.dequeued, s.finished + Tasks(s.workers[w]));
  }

  lemma SubmitKeepsInv(s: State, task: nat)
    requires Inv(s)
    ensures Inv(Submitted(s, task))
  {
    assert s.dequeued + (s.queue + [task]) == (s.dequeued + s.queue) + [task];
  }

  lemma StepKeepsInv(s: State, step: Step)
    requires Inv(s) && Enabled(s, step)
    ensures Inv(Apply(s, step))
  {
    match step
    case Submit(task) => SubmitKeepsInv(s, task);
    case WorkerTake(w) => TakeKeepsInv(s, w);
    case WorkerFinish(w) => FinishKeepsInv(s, w);
    case _ =>
  }

  lemma {:induction false} RunKeepsInv(s: State, steps: seq<Step>)
    requires Inv(s) && IsRun(s, steps)
    ensures Inv(Exec(s, steps))
    decreases |steps|
  {
    if steps != [] {
      StepKeepsInv(s, steps[0]);
      RunKeepsInv(Apply(s, steps[0]), steps[1..]);
    }
  }

  // ---------- main results ----------

  /** In every run, accepted tasks are the taken ones followed by the queue, in order; the queue keeps its
      bound; and each taken task is finished or in one worker's hand. */
  lemma TasksAreConserved(workerCount: nat, maxPendingTasks: nat, sessionsEnabled: bool, steps: seq<Step>)
    requires IsRun(Initial(workerCount, maxPendingTasks, sessionsEnabled), steps)
    ensures var s := Exec(Initial(workerCount, maxPendingTasks, sessionsEnabled), steps);
      && s.accepted == s.dequeued + s.queue && |s.queue| <= s.maxPending
      && multiset(s.accepted) == s.finished + InHand(s.workers) + multiset(s.queue)
  {
    InitialInv(workerCount, maxPendingTasks, sessionsEnabled);
    RunKeepsInv(Initial(workerCount, maxPendingTasks, sessionsEnabled), steps);
  }

  /** When stop has reached the chat service, the reaper is gone, every worker has exited, and every task
      ever accepted has finished, exactly as often as it was accepted. */
  lemma ServiceStopsLast(workerCount: nat, maxPendingTasks: nat, sessionsEnabled: bool, steps: seq<Step>)
    requires IsRun(Initial(workerCount, maxPendingTasks, sessionsEnabled), steps)
    requires Exec(Initial(workerCount, maxPendingTasks, sessionsEnabled), steps).phase.ServiceStopped?
    ensures var s := Exec(Initial(workerCount, maxPendingTasks, sessionsEnabled), steps);
      && s.reaper.Gone? && AllExited(s.workers) && s.queue == []
      && s.finished == multiset(s.accepted) && s.dequeued == s.accepted
  {
    InitialInv(workerCount, maxPendingTasks, sessionsEnabled);
    RunKeepsInv(Initial(workerCount, maxPendingTasks, sessionsEnabled), steps);
    var s := Exec(Initial(workerCount, maxPendingTasks, sessionsEnabled), steps);
    assert s.workers[0].Exited?;
    InHandOfIdle(s.workers);
    assert s.dequeued + [] == s.dequeued;
  }

  /** Once the runtime is stopping, nothing is accepted any more. */
  lemma {:induction false} NothingAcceptedAfterStop(s: State, steps: seq<Step>)
    requires s.runtimeStopping && IsRun(s, steps)
    ensures Exec(s, steps).accepted == s.accepted && Exec(s, steps).runtimeStopping
    decreases |steps|
  {
    if steps != [] { NothingAcceptedAfterStop(Apply(s, steps[0]), steps[1..]); }
  }

  // ---------- what threads may do ----------

  lemma {:induction false} RunKeepsShape(s: State, steps: seq<Step>)
    requires IsRun(s, steps)
    ensures |Exec(s, steps).workers| == |s.workers| && Exec(s, steps).maxPending == s.maxPending
    decreases |steps|
  {
    if steps != [] { RunKeepsShape(Apply(s, steps[0]), steps[1..]); }
  }

  /** The numbers given to the constructors hold for the whole run, with at least one worker and one slot. */
  lemma ShapeOfRuntime(workerCount: nat, maxPendingTasks: nat, sessionsEnabled: bool, steps: seq<Step>)
    requires IsRun(Initial(workerCount, maxPendingTasks, sessionsEnabled), steps)
    ensures var s := Exec(Initial(workerCount, maxPendingTasks, sessionsEnabled), steps);
      && |s.workers| >= 1 && (workerCount > 0 ==> |s.workers| == workerCount) && (workerCount == 0 ==> |s.workers| == 1)
      && s.maxPending >= 1 && (maxPendingTasks > 0 ==> s.maxPending == maxPendingTasks)
      && (maxPendingTasks == 0 ==> s.maxPending == 1)
  {
    RunKeepsShape(Initial(workerCount, maxPendingTasks, sessionsEnabled), steps);
  }

  lemma ReaperStep(s: State, step: Step)
    requires Enabled(s, step)
    ensures s.reaper.Gone? ==> Apply(s, step).reaper.Gone?
    ensures step.ReaperWake? ==> Apply(s, step).reaper == if s.runtimeStopping then Gone else Reaping
    ensures Apply(s, step).reaper.Gone? && !s.reaper.Gone? ==> s.runtimeStopping
  {
  }

  lemma {:induction false} GoneStaysGone(s: State, steps: seq<Step>)
    requires IsRun(s, steps) && s.reaper.Gone?
    ensures Exec(s, steps).reaper.Gone? && forall i | 0 <= i < |steps| :: !steps[i].ReaperWake?
    decreases |steps|
  {
    if steps != [] {
      ReaperStep(s, steps[0]);
      hide Apply;
      GoneStaysGone(Apply(s, steps[0]), steps[1..]);
      assert forall i | 0 < i < |steps| :: steps[i] == steps[1..][i - 1];
    }
  }

  lemma {:induction false} ReaperGoneOnlyStopping(s: State, steps: seq<Step>)
    requires IsRun(s, steps) && !s.reaper.Gone?
    ensures Exec(s, steps).reaper.Gone? ==> Exec(s, steps).runtimeStopping
    decreases |steps|
  {
    if steps != [] {
      ReaperStep(s, steps[0]);
      if Apply(s, steps[0]).reaper.Gone? {
        GoneStaysGone(Apply(s, steps[0]), steps[1..]);
        NothingAcceptedAfterStop(Apply(s, steps[0]), steps[1..]);
      } else {
        ReaperGoneOnlyStopping(Apply(s, steps[0]), steps[1..]);
      }
    }
  }

  /** With sessions enabled the reaper is there until the runtime is stopping, and reaps at every wake-up until
      then; without sessions it never wakes. */
  lemma ReaperServesSessions(workerCount: nat, maxPendingTasks: nat, sessionsEnabled: bool, steps: seq<Step>)
    requires IsRun(Initial(workerCount, maxPendingTasks, sessionsEnabled), steps)
    ensures var s := Exec(Initial(workerCount, maxPendingTasks, sessionsEnabled), steps);
      && (sessionsEnabled && s.reaper.Gone? ==> s.runtimeStopping)
      && (!sessionsEnabled ==> s.reaper.Gone? && forall i | 0 <= i < |steps| :: !steps[i].ReaperWake?)
      && (s.reaper.Waiting? && !s.runtimeStopping ==> Enabled(s, ReaperWake) && Apply(s, ReaperWake).reaper.Reaping?)
  {
    var s := Initial(workerCount, maxPendingTasks, sessionsEnabled);
    if sessionsEnabled { ReaperGoneOnlyStopping(s, steps); } else { GoneStaysGone(s, steps); }
  }

  /** A queued task is never stuck, stopping or not: some worker can take the oldest one, or is running a task
      and can finish it. */
  lemma QueuedTaskMoves(s: State)
    requires Inv(s) && s.queue != []
    ensures exists w: nat :: w < |s.workers| && (Enabled(s, WorkerTake(w)) || Enabled(s, WorkerFinish(w)))
    ensures forall w: nat | w < |s.workers| && s.workers[w].Idle? ::
      Enabled(s, WorkerTake(w)) && Apply(s, WorkerTake(w)).workers[w] == Running(s.queue[0])
  {
    assert !s.workers[0].Exited?;
    assert Enabled(s, WorkerTake(0)) || Enabled(s, WorkerFinish(0));
  }

  // ---------- stop ends ----------

  function Weight(worker: Worker): nat {
    match worker
    case Exited => 0
    case Idle => 1
    case Running(_) => 2
  }

  function Weights(workers: seq<Worker>): nat {
    if workers == [] then 0 else Weights(workers[..|workers| - 1]) + Weight(workers[|workers| - 1])
  }

  /** The work left: two for each queued task, two for a running worker, one for an idle one. */
  function WorkLeft(s: State): nat {
    2 * |s.queue| + Weights(s.workers)
  }

  /** What is left until stop has returned: the work, the reaper's way out, and the phases of stop. */
  function StopLeft(s: State): nat {
    WorkLeft(s)
    + (match s.reaper case Reaping => 2 case Waiting => 1 case Gone => 0)
    + (5 - PhaseRank(s.phase))
  }

  lemma {:induction false} WeightsUpdate(workers: seq<Worker>, w: nat, worker: Worker)
    requires w < |workers|
    ensures Weights(workers[w := worker]) + Weight(workers[w]) == Weights(workers) + Weight(worker)
    decreases |workers|
  {
    var n := |workers| - 1;
    if w < n {
      WeightsUpdate(workers[..n], w, worker);
      assert workers[w := worker][..n] == workers[..n][w := worker];
    } else {
      assert workers[w := worker][..n] == workers[..n];
    }
  }

  /** Submissions and further calls of stop are refused once the runtime is stopping; every other step is
      progress. */
  predicate IsProgress(step: Step) {
    !step.Submit? && !step.StopFlag?
  }

  /** While the runtime is stopping, every step that is progress takes one off what is left, and no step adds
      to it. */
  lemma StopDecreases(s: State, step: Step)
    requires s.runtimeStopping && Enabled(s, step)
    ensures Apply(s, step).runtimeStopping
    ensures StopLeft(Apply(s, step)) == StopLeft(s) - (if IsProgress(step) then 1 else 0)
  {
    match step
    case WorkerTake(w) => WeightsUpdate(s.workers, w, if s.queue == [] then Exited else Running(s.queue[0]));
    case WorkerFinish(w) => WeightsUpdate(s.workers, w, Idle);
    case _ =>
  }

  function ProgressSteps(steps: seq<Step>): nat {
    if steps == [] then 0 else (if IsProgress(steps[0]) then 1 else 0) + ProgressSteps(steps[1..])
  }

  /** So the threads take exactly as many steps of progress as was left, minus what is left at the end. */
  lemma {:induction false} StopIsBounded(s: State, steps: seq<Step>)
    requires s.runtimeStopping && IsRun(s, steps)
    ensures ProgressSteps(steps) + StopLeft(Exec(s, steps)) == StopLeft(s)
    decreases |steps|
  {
    if steps != [] {
      StopDecreases(s, steps[0]);
      StopIsBounded(Apply(s, steps[0]), steps[1..]);
    }
  }

  /** And until stop has reached the chat service, some step of progress is possible: neither the join of the
      reaper nor that of the workers can deadlock. A task in hand counts as able to return; a task that never
      does would hold up the join. */
  lemma StopNeverBlocks(s: State)
    requires Inv(s) && s.runtimeStopping && !s.phase.ServiceStopped?
    ensures exists step :: IsProgress(step) && Enabled(s, step)
  {
    var step :=
      match s.phase
      case Flagged => if s.reaper.Gone? then JoinReaper else if s.reaper.Waiting? then ReaperWake else ReaperDone
      case ReaperJoined => StopExecutor
      case ExecutorStopped => JoinWorkers
      case _ => StopService;
    if s.phase.ExecutorStopped? && !AllExited(s.workers) {
      var w: nat :| w < |s.workers| && !s.workers[w].Exited?;
      step := if s.workers[w].Idle? then WorkerTake(w) else WorkerFinish(w);
    }
    assert IsProgress(step) && Enabled(s, step);
  }

  /** From the flag on, a run that has made all its progress has stopped the chat service, with every accepted
      task finished. */
  lemma StopCompletes(workerCount: nat, maxPendingTasks: nat, sessionsEnabled: bool, steps: seq<Step>)
    requires IsRun(Initial(workerCount, maxPendingTasks, sessionsEnabled), steps)
    requires var s := Exec(Initial(workerCount, maxPendingTasks, sessionsEnabled), steps);
      s.runtimeStopping && forall step :: IsProgress(step) ==> !Enabled(s, step)
    ensures var s := Exec(Initial(workerCount, maxPendingTasks, sessionsEnabled), steps);
      s.phase.ServiceStopped? && s.finished == multiset(s.accepted)
  {
    InitialInv(workerCount, maxPendingTasks, sessionsEnabled);
    RunKeepsInv(Initial(workerCount, maxPendingTasks, sessionsEnabled), steps);
    var s := Exec(Initial(workerCount, maxPendingTasks, sessionsEnabled), steps);
    if !s.phase.ServiceStopped? {
      StopNeverBlocks(s);
    }
    ServiceStopsLast(workerCount, maxPendingTasks, sessionsEnabled, steps);
  }
}
