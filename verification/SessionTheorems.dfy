/** What every interleaving of the session store's critical sections guarantees. */
module SessionTheorems {
  import opened Wrappers
  import opened Messages
  import opened History
  import opened SessionSpec
  import Decimal

  // ---------- one step, seen from one session ----------

  ghost predicate IsBegin(s: Store, step: Step, id: string) {
    && step.BeginStep? && step.id == id && id in s.objects
    && !s.objects[id].closed && s.objects[id].active.None?
  }

  /** The step ends the request that owns the session. */
  ghost predicate IsFinish(s: Store, step: Step, id: string) {
    && (step.CommitStep? || step.ReleaseStep?) && step.id == id && id in s.objects
    && s.objects[id].active == Some(step.request)
  }

  /** The step adds a turn to the session. */
  ghost predicate IsTurn(s: Store, step: Step, id: string) {
    IsFinish(s, step, id) && step.CommitStep? && step.reply.Some? && !s.objects[id].closed
  }

  function TurnOf(step: Step): Turn
    requires step.CommitStep? && step.reply.Some?
  {
    Turn(step.user, AssistantMessage(step.reply.value))
  }

  /** The step closes the session: the second half of a delete or stop, or a visit that finds it expired. */
  ghost predicate IsClose(s: Store, step: Step, id: string) {
    || step == MarkClosedStep(id)
    || (step.VisitStep? && step.id == id && id in s.mapped && id in s.objects && !s.objects[id].closed
        && s.objects[id].active.None? && s.objects[id].expiresAt <= step.now)
  }

  /** The step touches the session: a request begins on it, or its owner finishes. */
  ghost predicate IsTouch(s: Store, step: Step, id: string) {
    IsBegin(s, step, id) || IsFinish(s, step, id)
  }

  /** All a step may do to a session that exists. */
  ghost predicate SessionStepped(s: Store, step: Step, id: string, x: Session, y: Session) {
    && y.id == x.id && y.prefix == x.prefix && y.created == x.created
    && y.lastUsed == (if IsTouch(s, step, id) then step.now else x.lastUsed)
    && y.expiresAt == (if IsTouch(s, step, id) then step.now + s.config.ttl else x.expiresAt)
    && y.closed == (x.closed || IsClose(s, step, id))
    && y.active == (if IsBegin(s, step, id) then Some(step.request)
                    else if IsFinish(s, step, id) then None else x.active)
    && y.log == (if IsTurn(s, step, id) then x.log + [TurnOf(step)] else x.log)
    && (!IsTurn(s, step, id) ==> y.history == x.history)
  }

  lemma BeginOnSession(s: Store, step: Step, id: string)
    requires Enabled(s, step) && id in s.objects && step.BeginStep?
    ensures var s' := Apply(s, step);
      id in s'.objects && SessionStepped(s, step, id, s.objects[id], s'.objects[id])
  {
  }

  lemma CommitOnSession(s: Store, step: Step, id: string)
    requires Enabled(s, step) && id in s.objects && step.CommitStep?
    ensures var s' := Apply(s, step);
      id in s'.objects && SessionStepped(s, step, id, s.objects[id], s'.objects[id])
  {
    hide IsTrimmed;
  }

  lemma ReleaseOnSession(s: Store, step: Step, id: string)
    requires Enabled(s, step) && id in s.objects && step.ReleaseStep?
    ensures var s' := Apply(s, step);
      id in s'.objects && SessionStepped(s, step, id, s.objects[id], s'.objects[id])
  {
  }

  lemma OtherStepOnSession(s: Store, step: Step, id: string)
    requires Inv(s) && Enabled(s, step) && id in s.objects
    requires !(step.BeginStep? || step.CommitStep? || step.ReleaseStep?)
    ensures var s' := Apply(s, step);
      id in s'.objects && s'.objects[id] == s.objects[id].(closed := s.objects[id].closed || IsClose(s, step, id))
  {
    match step
    case CreateStep(_, _) => NextIdIsNew(s);
    case VisitStep(_, _) =>
    case EraseStep(_) =>
    case MarkClosedStep(_) =>
    case SetPromptStep(_) =>
    case StopStep =>
  }

  lemma StepOnSession(s: Store, step: Step, id: string)
    requires Inv(s) && Enabled(s, step) && id in s.objects
    ensures var s' := Apply(s, step);
      id in s'.objects && SessionStepped(s, step, id, s.objects[id], s'.objects[id])
  {
    hide Inv, Apply, Enabled;
    if step.BeginStep? {
      BeginOnSession(s, step, id);
    } else if step.CommitStep? {
      CommitOnSession(s, step, id);
    } else if step.ReleaseStep? {
      ReleaseOnSession(s, step, id);
    } else {
      OtherStepOnSession(s, step, id);
    }
  }

  lemma CreatedObject(s: Store, now: int, prompt: Option<string>, id: string)
    requires id !in s.objects && id in Create(s, now, prompt).0.objects
    ensures var x := Create(s, now, prompt).0.objects[id];
      && x.log == [] && x.active == None && !x.closed && x.history == x.prefix == InitialHistory(s.basePrompt, prompt)
      && x.created == x.lastUsed == now
  {
    hide InitialHistory;
  }

  lemma NoOtherObject(s: Store, step: Step)
    requires Enabled(s, step) && !step.CreateStep?
    ensures Apply(s, step).objects.Keys == s.objects.Keys
  {
  }

  /** Objects appear only by creation, empty-logged and idle. */
  lemma NewObject(s: Store, step: Step, id: string)
    requires Inv(s) && Enabled(s, step) && id !in s.objects && id in Apply(s, step).objects
    ensures step.CreateStep?
    ensures var x := Apply(s, step).objects[id];
      && x.log == [] && x.active == None && !x.closed && x.history == x.prefix == InitialHistory(s.basePrompt, step.prompt)
      && x.created == x.lastUsed == step.now
  {
    if step.CreateStep? {
      hide Inv, Create;
      CreatedObject(s, step.now, step.prompt, id);
    } else {
      NoOtherObject(s, step);
    }
  }

  lemma InvAt(states: seq<Store>, steps: seq<Step>, i: nat)
    requires IsRun(states, steps) && i < |states| && states[0] == NewStore(states[0].config, states[0].basePrompt)
    ensures Inv(states[i])
  {
    NewStoreInv(states[0].config, states[0].basePrompt);
    RunKeepsInv(states, steps, i);
  }

  ghost predicate FullRun(states: seq<Store>, steps: seq<Step>) {
    IsRun(states, steps) && states[0] == NewStore(states[0].config, states[0].basePrompt)
  }

  // ---------- the history is a window over everything committed ----------

  /** The turns committed to a session in the first `n` steps of a run. */
  ghost function CommittedTurns(states: seq<Store>, steps: seq<Step>, id: string, n: nat): seq<Turn>
    requires IsRun(states, steps) && n <= |steps|
  {
    if n == 0 then []
    else CommittedTurns(states, steps, id, n - 1)
         + (if IsTurn(states[n - 1], steps[n - 1], id) then [TurnOf(steps[n - 1])] else [])
  }

  lemma StillUnknown(s: Store, step: Step, id: string)
    requires Inv(s) && Enabled(s, step) && id !in Apply(s, step).objects
    ensures id !in s.objects && !IsTurn(s, step, id)
  {
    hide Inv, Enabled, Apply, SessionStepped;
    if id in s.objects { StepOnSession(s, step, id); }
  }

  lemma NothingCommittedYet(states: seq<Store>, steps: seq<Step>, id: string, n: nat)
    requires FullRun(states, steps) && 0 < n <= |steps| && id !in states[n].objects
    ensures id !in states[n - 1].objects
    ensures CommittedTurns(states, steps, id, n) == CommittedTurns(states, steps, id, n - 1)
  {
    InvAt(states, steps, n - 1);
    hide Inv, Enabled, Apply, IsTurn;
    StillUnknown(states[n - 1], steps[n - 1], id);
    assert CommittedTurns(states, steps, id, n - 1) + [] == CommittedTurns(states, steps, id, n - 1);
  }

  lemma {:induction false} NoTurnsBeforeCreation(states: seq<Store>, steps: seq<Step>, id: string, n: nat)
    requires FullRun(states, steps) && n <= |steps| && id !in states[n].objects
    ensures CommittedTurns(states, steps, id, n) == []
  {
    if n > 0 {
      NothingCommittedYet(states, steps, id, n);
      NoTurnsBeforeCreation(states, steps, id, n - 1);
    }
  }

  lemma {:induction false} LogIsCommittedTurns(states: seq<Store>, steps: seq<Step>, id: string, n: nat)
    requires FullRun(states, steps) && n <= |steps| && id in states[n].objects
    ensures states[n].objects[id].log == CommittedTurns(states, steps, id, n)
  {
    if n > 0 {
      InvAt(states, steps, n - 1);
      if id in states[n - 1].objects {
        StepOnSession(states[n - 1], steps[n - 1], id);
        LogIsCommittedTurns(states, steps, id, n - 1);
      } else {
        NewObject(states[n - 1], steps[n - 1], id);
        NoTurnsBeforeCreation(states, steps, id, n - 1);
      }
    }
  }

  /** In every state of every run, a session's history is its initial system prefix followed by exactly
      the last min(n, max / 2) of the n turns committed to it. */
  lemma HistoryIsWindowOfCommits(states: seq<Store>, steps: seq<Step>, id: string, n: nat)
    requires FullRun(states, steps) && n <= |steps| && id in states[n].objects
    ensures var x := states[n].objects[id];
      && SystemPrefix(x.prefix)
      && x.history == WindowedHistory(x.prefix, CommittedTurns(states, steps, id, n), states[n].config.maxHistory)
      && |x.history| <= |x.prefix| + states[n].config.maxHistory
  {
    InvAt(states, steps, n);
    LogIsCommittedTurns(states, steps, id, n);
    var x := states[n].objects[id];
    WindowedHistoryIsAgentInput(x.prefix, x.log, states[n].config.maxHistory, UserMessage(""));
  }

  /** What a successful begin hands to the agent: the prefix, the window, and the new user message, in
      the shape system? (user assistant)* user. */
  lemma HandedMessages(states: seq<Store>, steps: seq<Step>, n: nat)
    requires FullRun(states, steps) && n < |steps| && steps[n].BeginStep?
    requires Begin(states[n], steps[n].id, steps[n].request, steps[n].user, steps[n].now).1.Ok?
    ensures var messages := Begin(states[n], steps[n].id, steps[n].request, steps[n].user, steps[n].now).1.value;
      && AgentInput(messages)
      && messages == WindowedHistory(states[n].objects[steps[n].id].prefix,
                                     CommittedTurns(states, steps, steps[n].id, n), states[n].config.maxHistory)
                     + [steps[n].user]
  {
    InvAt(states, steps, n);
    var x := states[n].objects[steps[n].id];
    LogIsCommittedTurns(states, steps, steps[n].id, n);
    WindowedHistoryIsAgentInput(x.prefix, x.log, states[n].config.maxHistory, steps[n].user);
  }

  // ---------- closing, leaving the map, stopping ----------

  /** `y` is a later state of the session `x`: closing is final, a closed session's history and log are
      frozen, once idle it is never busy again, and the prefix never changes. */
  ghost predicate LaterSession(x: Session, y: Session) {
    && y.prefix == x.prefix && y.created == x.created
    && (x.closed ==> y.closed && y.history == x.history && y.log == x.log)
    && (x.closed && y.active.Some? ==> y.active == x.active)
  }

  lemma SteppedIsLater(s: Store, step: Step, id: string, x: Session, y: Session)
    requires id in s.objects && x == s.objects[id] && SessionStepped(s, step, id, x, y)
    ensures LaterSession(x, y)
  {
  }

  /** Sessions never disappear, and closing is final. */
  lemma {:induction false} ClosedIsFinal(states: seq<Store>, steps: seq<Step>, id: string, i: nat, j: nat)
    requires FullRun(states, steps) && i <= j < |states| && id in states[i].objects
    ensures id in states[j].objects && LaterSession(states[i].objects[id], states[j].objects[id])
  {
    hide Apply;
    hide Inv;
    hide SessionStepped;
    if i < j {
      ClosedIsFinal(states, steps, id, i, j - 1);
      InvAt(states, steps, j - 1);
      StepOnSession(states[j - 1], steps[j - 1], id);
      SteppedIsLater(states[j - 1], steps[j - 1], id, states[j - 1].objects[id], states[j].objects[id]);
    }
  }

  lemma StepOnMap(s: Store, step: Step, id: string)
    requires Inv(s) && Enabled(s, step)
    ensures id in s.objects && id !in s.mapped ==> id !in Apply(s, step).mapped
  {
    if step.CreateStep? { NextIdIsNew(s); }
    hide Inv, Enabled, SessionId;
  }

  lemma StoppingStays(s: Store, step: Step)
    requires Enabled(s, step) && s.stopping
    ensures Apply(s, step).stopping
  {
  }

  /** Ids are never reused: a session that left the map never returns to it. */
  lemma {:induction false} LeftForGood(states: seq<Store>, steps: seq<Step>, id: string, i: nat, j: nat)
    requires FullRun(states, steps) && i <= j < |states| && id in states[i].objects && id !in states[i].mapped
    ensures id in states[j].objects && id !in states[j].mapped
  {
    hide Apply;
    ClosedIsFinal(states, steps, id, i, j);
    if i < j {
      LeftForGood(states, steps, id, i, j - 1);
      InvAt(states, steps, j - 1);
      StepOnMap(states[j - 1], steps[j - 1], id);
    }
  }

  /** After stop the map is empty for good. */
  lemma {:induction false} StoppedStaysEmpty(states: seq<Store>, steps: seq<Step>, i: nat, j: nat)
    requires FullRun(states, steps) && i <= j < |states| && states[i].stopping
    ensures states[j].stopping && states[j].mapped == {}
  {
    hide Inv, Enabled, Apply;
    InvAt(states, steps, j);
    if i < j {
      StoppedStaysEmpty(states, steps, i, j - 1);
      StoppingStays(states[j - 1], steps[j - 1]);
    }
    StoppedIsEmpty(states[j]);
  }

  lemma StoppedIsEmpty(s: Store)
    requires Inv(s) && s.stopping
    ensures s.mapped == {}
  {
  }

  /** The state invariants in the terms of the store: the map never exceeds its bound and holds only open
      sessions, and expiry follows use. */
  lemma EveryStateIsSane(states: seq<Store>, steps: seq<Step>, n: nat)
    requires FullRun(states, steps) && n < |states|
    ensures |states[n].mapped| <= states[n].config.maxSessions
    ensures forall id | id in states[n].mapped :: id in states[n].objects && !states[n].objects[id].closed
    ensures forall id | id in states[n].objects ::
      states[n].objects[id].expiresAt == states[n].objects[id].lastUsed + states[n].config.ttl
  {
    InvAt(states, steps, n);
  }

  /** How a session can leave the map: deleted, stopped, or reaped because a visit found it idle and expired,
      which closes it. A busy session is never reaped, whatever comes between the visits of a pass. */
  lemma LeavingTheMap(s: Store, step: Step, id: string)
    requires Inv(s) && Enabled(s, step) && id in s.mapped && id !in Apply(s, step).mapped
    ensures || step == EraseStep(id) || step.StopStep?
            || (&& step.VisitStep? && step.id == id
                && s.objects[id].active.None? && s.objects[id].expiresAt <= step.now
                && id in Apply(s, step).objects && Apply(s, step).objects[id].closed)
  {
    hide Inv;
  }

  ghost predicate Created(s: Store, s': Store, id: string, now: int) {
    && id !in s.objects && s'.mapped == s.mapped + {id} && s'.objects.Keys == s.objects.Keys + {id}
    && (forall i | i in s.objects :: s'.objects[i] == s.objects[i])
    && s' == s.(mapped := s'.mapped, objects := s'.objects, nextId := s.nextId + 1)
    && var x := s'.objects[id];
       && x.id == id && x.created == x.lastUsed == now && x.expiresAt == now + s.config.ttl
       && !x.closed && x.active.None? && x.log == [] && x.history == x.prefix
  }

  lemma CreatedOne(s: Store, now: int, prompt: Option<string>, id: string)
    requires id !in s.objects
    ensures Created(s, s.(mapped := s.mapped + {id}, nextId := s.nextId + 1,
                          objects := s.objects[id := NewSession(s, id, now, prompt)]), id, now)
  {
    hide InitialHistory;
  }

  /** A create makes a session if and only if the store is not stopping and the map has room; what it makes is
      new, open and idle and expires its time to live from now; a refused create changes nothing. */
  lemma CreateOutcome(s: Store, now: int, prompt: Option<string>)
    requires Inv(s)
    ensures var (s', r) := Create(s, now, prompt);
      && (r == Err(Stopping) <==> s.stopping)
      && (r == Err(CapacityReached) <==> !s.stopping && |s.mapped| == s.config.maxSessions)
      && (r.Ok? <==> !s.stopping && |s.mapped| < s.config.maxSessions)
      && (r.Err? ==> s' == s)
      && (r.Ok? ==> Created(s, s', r.value, now))
  {
    NextIdIsNew(s);
    CreatedOne(s, now, prompt, SessionId(s.nextId));
    hide NewSession, SessionId, ObjectsOk, IdsOk, ClosedOk, Created;
  }

  /** The step takes the session out of the map. */
  ghost predicate Removes(s: Store, step: Step, id: string) {
    || step == EraseStep(id) || step.StopStep?
    || (step.VisitStep? && step.id == id && id in s.objects
        && s.objects[id].active.None? && s.objects[id].expiresAt <= step.now)
  }

  lemma MapAfterCreate(s: Store, now: int, prompt: Option<string>, id: string)
    requires Inv(s)
    ensures var s' := Create(s, now, prompt).0;
      id in s'.mapped <==> id in s.mapped || (id !in s.objects && id in s'.objects)
  {
    CreateOutcome(s, now, prompt);
    hide Inv, Create;
  }

  lemma MapAfterOther(s: Store, step: Step, id: string)
    requires ClosedOk(s) && (s.stopping ==> s.mapped == {}) && Enabled(s, step) && !step.CreateStep?
    ensures id in Apply(s, step).mapped <==> id in s.mapped && !Removes(s, step, id)
  {
  }

  lemma MapAfter(s: Store, step: Step, id: string)
    requires Inv(s) && Enabled(s, step)
    ensures id in Apply(s, step).mapped <==>
            (id in s.mapped && !Removes(s, step, id)) || (id !in s.objects && id in Apply(s, step).objects)
  {
    hide Create, Apply, Enabled, Removes, ObjectsOk, IdsOk, ClosedOk;
    if step.CreateStep? {
      MapAfterCreate(s, step.now, step.prompt, id);
      CreateIs(s, step);
    } else {
      NoOtherObject(s, step);
      MapAfterOther(s, step, id);
    }
  }

  lemma CreateIs(s: Store, step: Step)
    requires step.CreateStep?
    ensures Enabled(s, step) && Apply(s, step) == Create(s, step.now, step.prompt).0
    ensures forall id :: !Removes(s, step, id)
  {
    hide Create;
  }

  /** In every run the map holds exactly the sessions that were made and that no later delete, stop or reaping
      visit has taken out. */
  lemma {:induction false} MappedUntilRemoved(states: seq<Store>, steps: seq<Step>, id: string, n: nat)
    requires FullRun(states, steps) && n < |states|
    ensures id in states[n].mapped <==>
            id in states[n].objects && forall k: nat | k < n && id in states[k].objects :: !Removes(states[k], steps[k], id)
  {
    hide Inv, Enabled, Apply, Removes;
    if n > 0 {
      InvAt(states, steps, n - 1);
      MappedUntilRemoved(states, steps, id, n - 1);
      MapAfter(states[n - 1], steps[n - 1], id);
      if id in states[n - 1].objects {
        ClosedIsFinal(states, steps, id, n - 1, n);
      } else {
        forall k: nat | k < n ensures id !in states[k].objects {
          if id in states[k].objects { ClosedIsFinal(states, steps, id, k, n - 1); }
        }
      }
    }
  }

  // ---------- new sessions ----------

  lemma NextIdAfterOther(s: Store, step: Step)
    requires Enabled(s, step) && !step.CreateStep?
    ensures Apply(s, step).nextId == s.nextId
  {
  }

  lemma NextIdAfterCreate(s: Store, now: int, prompt: Option<string>)
    ensures var s' := Create(s, now, prompt).0;
      s' == s || (s'.objects.Keys == s.objects.Keys + {SessionId(s.nextId)} && s'.nextId == s.nextId + 1)
  {
    hide SessionId, NewSession;
  }

  lemma NextIdAfter(s: Store, step: Step)
    requires Inv(s) && Enabled(s, step)
    ensures var s' := Apply(s, step);
      || (s'.objects.Keys == s.objects.Keys && s'.nextId == s.nextId)
      || (s'.objects.Keys == s.objects.Keys + {SessionId(s.nextId)} && SessionId(s.nextId) !in s.objects
          && s'.nextId == s.nextId + 1)
  {
    if step.CreateStep? {
      NextIdIsNew(s);
      hide Inv, Create, Enabled, SessionId;
      CreateIs(s, step);
      NextIdAfterCreate(s, step.now, step.prompt);
    } else {
      hide Inv, Apply, Enabled, SessionId;
      NoOtherObject(s, step);
      NextIdAfterOther(s, step);
    }
  }

  ghost predicate Consecutive(ids: set<string>, next: nat) {
    next == |ids| + 1 && forall id :: id in ids <==> exists k: nat | 1 <= k < next :: id == SessionId(k)
  }

  lemma OneIdMore(ids: set<string>, next: nat)
    requires Consecutive(ids, next) && SessionId(next) !in ids
    ensures Consecutive(ids + {SessionId(next)}, next + 1)
  {
    hide SessionId;
    forall id | id in ids + {SessionId(next)} ensures exists k: nat | 1 <= k < next + 1 :: id == SessionId(k) {
      if id in ids {
        var k: nat :| 1 <= k < next && id == SessionId(k);
      }
    }
  }

  lemma NoIdsYet(s: Store)
    requires s == NewStore(s.config, s.basePrompt)
    ensures Consecutive(s.objects.Keys, s.nextId)
  {
  }

  /** Sessions are numbered in the order in which they are made, from 1 and without gaps. */
  lemma {:induction false} IdsAreConsecutive(states: seq<Store>, steps: seq<Step>, n: nat)
    requires FullRun(states, steps) && n < |states|
    ensures Consecutive(states[n].objects.Keys, states[n].nextId)
  {
    hide Inv, Enabled, Apply, Consecutive, SessionId;
    if n == 0 {
      NoIdsYet(states[0]);
    } else {
      InvAt(states, steps, n - 1);
      IdsAreConsecutive(states, steps, n - 1);
      NextIdAfter(states[n - 1], steps[n - 1]);
      if states[n].nextId != states[n - 1].nextId {
        OneIdMore(states[n - 1].objects.Keys, states[n - 1].nextId);
      }
    }
  }

  /** The text of an id: the word "sess-" and the decimal number of the session. */
  lemma SessionIdText(n: nat)
    ensures SessionId(n)[..5] == "sess-" && (forall i | 5 <= i < |SessionId(n)| :: Decimal.IsDigit(SessionId(n)[i]))
    ensures Decimal.Number(SessionId(n)[5..]) == n
  {
    Decimal.DigitsAreTheNumber(n);
    assert SessionId(n)[5..] == Decimal.Digits(n);
    assert forall i | 5 <= i < |SessionId(n)| :: SessionId(n)[i] == Decimal.Digits(n)[i - 5];
  }

  /** Step `i` is the last of the first `n` that set the server's prompt. */
  ghost predicate IsLastPrompt(steps: seq<Step>, i: nat, n: nat) {
    i < n <= |steps| && steps[i].SetPromptStep? && forall k | i < k < n :: !steps[k].SetPromptStep?
  }

  lemma PromptAfterStep(s: Store, step: Step)
    requires Enabled(s, step)
    ensures Apply(s, step).basePrompt == if step.SetPromptStep? then step.basePrompt else s.basePrompt
  {
  }

  /** The prompt that new sessions get is the one set last, or the one the store was made with. */
  lemma {:induction false} PromptIsTheLastSet(states: seq<Store>, steps: seq<Step>, n: nat) returns (i: Option<nat>)
    requires IsRun(states, steps) && n < |states|
    ensures match i
            case Some(k) => IsLastPrompt(steps, k, n) && states[n].basePrompt == steps[k].basePrompt
            case None => (forall k | 0 <= k < n :: !steps[k].SetPromptStep?) && states[n].basePrompt == states[0].basePrompt
  {
    hide Apply, Enabled;
    i := None;
    if n > 0 {
      PromptAfterStep(states[n - 1], steps[n - 1]);
      if steps[n - 1].SetPromptStep? {
        i := Some(n - 1);
      } else {
        i := PromptIsTheLastSet(states, steps, n - 1);
      }
    }
  }

  /** What a session's history begins with for good: the server's prompt at its creation and the prompt of the
      request, joined by a blank line where both are given, as one system message; nothing if neither is. */
  lemma {:induction false} PrefixIsThePrompts(states: seq<Store>, steps: seq<Step>, id: string, n: nat) returns (i: nat)
    requires FullRun(states, steps) && n < |states| && id in states[n].objects
    ensures i < n && steps[i].CreateStep? && id !in states[i].objects && id in states[i + 1].objects
    ensures states[n].objects[id].created == steps[i].now
    ensures var base, asked := states[i].basePrompt, if steps[i].prompt.Some? then steps[i].prompt.value else "";
      && (states[n].objects[id].prefix == [] <==> base == "" && asked == "")
      && (states[n].objects[id].prefix != [] ==>
            && states[n].objects[id].prefix == [SystemMessage(states[n].objects[id].prefix[0].content)]
            && IsJoined(base, asked, states[n].objects[id].prefix[0].content))
  {
    hide Inv, Enabled, Apply, SessionStepped;
    i := 0;
    if n > 0 {
      InvAt(states, steps, n - 1);
      if id in states[n - 1].objects {
        i := PrefixIsThePrompts(states, steps, id, n - 1);
        ClosedIsFinal(states, steps, id, n - 1, n);
      } else {
        i := n - 1;
        NewObject(states[n - 1], steps[n - 1], id);
        CombinedIsJoined(states[i].basePrompt, if steps[i].prompt.Some? then steps[i].prompt.value else "");
      }
    }
  }

  // ---------- one active request ----------

  /** A begin gets the session if and only if it is open and idle; otherwise the store is unchanged, and
      the caller learns whether the session is gone or busy. */
  lemma BeginOutcome(s: Store, id: string, request: nat, user: Message, now: int)
    requires Inv(s) && id in s.objects
    ensures var (s', r) := Begin(s, id, request, user, now);
      && (r.Ok? <==> !s.objects[id].closed && s.objects[id].active.None?)
      && (r.Ok? ==> s'.objects[id].active == Some(request) && s'.objects[id].lastUsed == now
                    && s'.objects[id].expiresAt == now + s.config.ttl)
      && (r.Err? ==> s' == s)
      && (r == Err(UnknownSession) <==> s.objects[id].closed)
      && (r == Err(Busy) <==> !s.objects[id].closed && s.objects[id].active.Some?)
      && (id in s.mapped ==> r != Err(UnknownSession))
  {
  }

  /** A commit or release with a foreign id changes nothing at all. */
  lemma ForeignFinishIsIgnored(s: Store, step: Step)
    requires Enabled(s, step) && (step.CommitStep? || step.ReleaseStep?)
    requires s.objects[step.id].active != Some(step.request)
    ensures Apply(s, step) == s
  {
  }

  /** A successful begin owns its session until a commit or release with the same id: the request stays
      active, nothing is committed, and every other begin is refused. */
  lemma {:induction false} BeginOwns(states: seq<Store>, steps: seq<Step>, i: nat, j: nat)
    requires FullRun(states, steps) && i < |steps| && i < j < |states|
    requires steps[i].BeginStep? && IsBegin(states[i], steps[i], steps[i].id)
    requires forall k | i < k < j :: !IsFinish(states[k], steps[k], steps[i].id)
    ensures var id := steps[i].id;
      && id in states[j].objects
      && states[j].objects[id].active == Some(steps[i].request)
      && states[j].objects[id].log == states[i].objects[id].log
      && forall request, user, now {:trigger Begin(states[j], id, request, user, now)} ::
           Begin(states[j], id, request, user, now).1.Err?
  {
    InvAt(states, steps, j - 1);
    if j == i + 1 {
      StepOnSession(states[i], steps[i], steps[i].id);
    } else {
      BeginOwns(states, steps, i, j - 1);
      StepOnSession(states[j - 1], steps[j - 1], steps[i].id);
    }
  }

  /** Callers draw request ids from a counter, so no two begins share one. */
  ghost predicate UniqueRequests(steps: seq<Step>) {
    forall i, j | 0 <= i < j < |steps| && steps[i].BeginStep? && steps[j].BeginStep? ::
      steps[i].request != steps[j].request
  }

  /** After a request has finished it never owns a session again, so a late release or commit of it is
      without effect and cannot free a newer request. */
  lemma {:induction false} FinishedForGood(states: seq<Store>, steps: seq<Step>, id: string, i: nat, j: nat, n: nat)
    requires FullRun(states, steps) && UniqueRequests(steps) && i < j < n < |states|
    requires IsBegin(states[i], steps[i], id) && IsFinish(states[j], steps[j], id) && steps[j].request == steps[i].request
    ensures id in states[n].objects && states[n].objects[id].active != Some(steps[i].request)
    ensures n < |steps| ==> !(IsFinish(states[n], steps[n], id) && steps[n].request == steps[i].request)
  {
    hide Inv, Enabled, Apply, IsTurn, IsClose, IsTouch;
    InvAt(states, steps, n - 1);
    if n == j + 1 {
      StepOnSession(states[j], steps[j], id);
    } else {
      FinishedForGood(states, steps, id, i, j, n - 1);
      StepOnSession(states[n - 1], steps[n - 1], id);
    }
  }

  /** Only a request that began earlier on this session, and has not finished since, can finish on it. */
  lemma {:induction false} FinishFollowsBegin(states: seq<Store>, steps: seq<Step>, id: string, request: nat, n: nat)
    returns (i: nat)
    requires FullRun(states, steps) && n < |states| && id in states[n].objects
    requires states[n].objects[id].active == Some(request)
    ensures i < n && IsBegin(states[i], steps[i], id) && steps[i].request == request
    ensures forall k | i < k < n :: !IsFinish(states[k], steps[k], id)
  {
    hide Inv, Enabled, Apply, IsTurn, IsClose, IsTouch;
    i := 0;
    if n > 0 {
      InvAt(states, steps, n - 1);
      if id !in states[n - 1].objects {
        NewObject(states[n - 1], steps[n - 1], id);
      } else {
        StepOnSession(states[n - 1], steps[n - 1], id);
        if IsBegin(states[n - 1], steps[n - 1], id) {
          i := n - 1;
        } else {
          i := FinishFollowsBegin(states, steps, id, request, n - 1);
        }
      }
    }
  }

  /** Each begin leads to at most one turn: two turns of a session never come from the same request. */
  lemma OneTurnPerRequest(states: seq<Store>, steps: seq<Step>, id: string, j: nat, n: nat)
    requires FullRun(states, steps) && UniqueRequests(steps) && j < n < |steps|
    requires IsTurn(states[j], steps[j], id) && IsTurn(states[n], steps[n], id)
    ensures steps[j].request != steps[n].request
  {
    if steps[j].request == steps[n].request {
      var i := FinishFollowsBegin(states, steps, id, steps[j].request, j);
      FinishedForGood(states, steps, id, i, j, n);
    }
  }

  lemma NotThereBefore(states: seq<Store>, steps: seq<Step>, id: string, k: nat, n: nat)
    requires FullRun(states, steps) && k <= n < |states| && id !in states[n].objects
    ensures id !in states[k].objects
  {
    if id in states[k].objects { ClosedIsFinal(states, steps, id, k, n); }
  }

  /** One of the first `n` steps closed the session. */
  ghost predicate ClosedBefore(states: seq<Store>, steps: seq<Step>, id: string, n: nat)
    requires IsRun(states, steps) && n < |states|
  {
    exists k: nat | k < n :: id in states[k].objects && IsClose(states[k], steps[k], id)
  }

  lemma OneStepMore(states: seq<Store>, steps: seq<Step>, id: string, n: nat)
    requires IsRun(states, steps) && 0 < n < |states|
    ensures ClosedBefore(states, steps, id, n) <==>
            || ClosedBefore(states, steps, id, n - 1)
            || (id in states[n - 1].objects && IsClose(states[n - 1], steps[n - 1], id))
  {
    hide IsClose, Enabled, Apply;
  }

  lemma NotClosedBefore(states: seq<Store>, steps: seq<Step>, id: string, n: nat)
    requires FullRun(states, steps) && n < |states| && id !in states[n].objects
    ensures !ClosedBefore(states, steps, id, n)
  {
    forall k: nat | k <= n ensures id !in states[k].objects {
      NotThereBefore(states, steps, id, k, n);
    }
    hide IsClose, IsRun;
  }

  /** A session is open until a step closed it. */
  lemma {:induction false} ClosedByAStep(states: seq<Store>, steps: seq<Step>, id: string, n: nat)
    requires FullRun(states, steps) && n < |states| && id in states[n].objects
    ensures states[n].objects[id].closed <==> ClosedBefore(states, steps, id, n)
  {
    hide Inv, Enabled, Apply, IsClose, IsBegin, IsFinish, IsTurn;
    if n > 0 {
      InvAt(states, steps, n - 1);
      OneStepMore(states, steps, id, n);
      hide ClosedBefore;
      if id in states[n - 1].objects {
        ClosedByAStep(states, steps, id, n - 1);
        StepOnSession(states[n - 1], steps[n - 1], id);
      } else {
        NewObject(states[n - 1], steps[n - 1], id);
        NotClosedBefore(states, steps, id, n - 1);
      }
    }
  }

  /** The begin at step `i` still owns the session after `n` steps. */
  ghost predicate OwnsAt(states: seq<Store>, steps: seq<Step>, id: string, i: nat, n: nat)
    requires IsRun(states, steps) && n < |states|
  {
    i < n && IsBegin(states[i], steps[i], id) && forall k | i < k < n :: !IsFinish(states[k], steps[k], id)
  }

  /** What a begin meets is decided by the steps before it: it succeeds exactly if no step closed the session
      and no begin still owns it, is refused as busy exactly if one does, and finds the session gone exactly
      if a step closed it. */
  lemma BeginSucceedsExactly(states: seq<Store>, steps: seq<Step>, n: nat, id: string, request: nat, user: Message, now: int)
    requires FullRun(states, steps) && n < |states| && id in states[n].objects
    ensures var result, gone := Begin(states[n], id, request, user, now).1, ClosedBefore(states, steps, id, n);
      && (result == Err(UnknownSession) <==> gone)
      && (result == Err(Busy) <==> !gone && exists i: nat :: OwnsAt(states, steps, id, i, n))
      && (result.Ok? <==> !gone && forall i: nat :: !OwnsAt(states, steps, id, i, n))
  {
    InvAt(states, steps, n);
    ClosedByAStep(states, steps, id, n);
    var x := states[n].objects[id];
    forall i: nat | OwnsAt(states, steps, id, i, n)
      ensures x.active.Some?
    {
      BeginOwns(states, steps, i, n);
    }
    if x.active.Some? {
      var i := FinishFollowsBegin(states, steps, id, x.active.value, n);
      assert OwnsAt(states, steps, id, i, n);
    }
    hide IsClose, IsRun, OwnsAt, ClosedBefore;
    BeginOutcome(states[n], id, request, user, now);
  }

  /** A commit or release changes the store only if a begin with the same id still owns the session; so,
      with unique ids, it takes effect once for each begin, and one that comes late or from elsewhere changes
      nothing. */
  lemma FinishEndsItsOwnBegin(states: seq<Store>, steps: seq<Step>, n: nat)
    requires FullRun(states, steps) && n < |steps| && (steps[n].CommitStep? || steps[n].ReleaseStep?)
    ensures states[n + 1] != states[n] ==>
      exists i: nat :: OwnsAt(states, steps, steps[n].id, i, n) && steps[i].request == steps[n].request
  {
    var id, request := steps[n].id, steps[n].request;
    if states[n].objects[id].active == Some(request) {
      var i := FinishFollowsBegin(states, steps, id, request, n);
      assert OwnsAt(states, steps, id, i, n);
    } else {
      ForeignFinishIsIgnored(states[n], steps[n]);
    }
  }

  /** With unique ids, whatever a finished request still does changes nothing. */
  lemma LateFinishChangesNothing(states: seq<Store>, steps: seq<Step>, id: string, i: nat, j: nat, n: nat)
    requires FullRun(states, steps) && UniqueRequests(steps) && i < j < n < |steps|
    requires IsBegin(states[i], steps[i], id) && IsFinish(states[j], steps[j], id) && steps[j].request == steps[i].request
    requires (steps[n].CommitStep? || steps[n].ReleaseStep?) && steps[n].id == id && steps[n].request == steps[i].request
    ensures states[n + 1] == states[n]
  {
    FinishedForGood(states, steps, id, i, j, n);
    ForeignFinishIsIgnored(states[n], steps[n]);
  }

  // ---------- time: when a session was last used, and when it is reaped ----------

  /** A request begins on the session, its owner finishes, or the session is made. */
  ghost predicate IsUse(s: Store, step: Step, id: string)
    requires Enabled(s, step)
  {
    IsTouch(s, step, id) || (step.CreateStep? && id !in s.objects && id in Apply(s, step).objects)
  }

  /** Step `i` is the last of the first `n` that used the session. */
  ghost predicate IsLastUse(states: seq<Store>, steps: seq<Step>, id: string, i: nat, n: nat)
    requires IsRun(states, steps) && n < |states|
  {
    i < n && IsUse(states[i], steps[i], id) && forall k | i < k < n :: !IsUse(states[k], steps[k], id)
  }

  lemma UseOfSession(s: Store, step: Step, id: string)
    requires Inv(s) && Enabled(s, step) && id in Apply(s, step).objects
    ensures if IsUse(s, step, id) then !step.SetPromptStep? && !step.StopStep? && !step.EraseStep? && !step.MarkClosedStep?
                                       && Apply(s, step).objects[id].lastUsed == step.now
            else id in s.objects && Apply(s, step).objects[id].lastUsed == s.objects[id].lastUsed
  {
    hide Inv, SessionStepped;
    if id in s.objects {
      StepOnSession(s, step, id);
      SteppedUse(s, step, id, s.objects[id], Apply(s, step).objects[id]);
    } else {
      hide Apply, Enabled;
      NewObject(s, step, id);
    }
  }

  lemma SteppedUse(s: Store, step: Step, id: string, x: Session, y: Session)
    requires id in s.objects && SessionStepped(s, step, id, x, y)
    ensures y.lastUsed == if IsTouch(s, step, id) then step.now else x.lastUsed
  {
  }

  /** In every run, a session was last used when its last request so far began, committed or was released,
      or else when it was made; and it expires its time to live after that. */
  lemma {:induction false} LastUsedAtLastUse(states: seq<Store>, steps: seq<Step>, id: string, n: nat)
    returns (i: nat)
    requires FullRun(states, steps) && n < |states| && id in states[n].objects
    ensures IsLastUse(states, steps, id, i, n)
    ensures !steps[i].SetPromptStep? && !steps[i].StopStep? && !steps[i].EraseStep? && !steps[i].MarkClosedStep?
    ensures states[n].objects[id].lastUsed == steps[i].now
    ensures states[n].objects[id].expiresAt == steps[i].now + states[n].config.ttl
  {
    hide Inv, Enabled, Apply, IsUse;
    i := 0;
    EveryStateIsSane(states, steps, n);
    if n > 0 {
      InvAt(states, steps, n - 1);
      UseOfSession(states[n - 1], steps[n - 1], id);
      if IsUse(states[n - 1], steps[n - 1], id) {
        i := n - 1;
      } else {
        i := LastUsedAtLastUse(states, steps, id, n - 1);
      }
    }
  }

  /** A visit of the reaping pass, to a session of the map. */
  lemma VisitOutcome(s: Store, now: int, id: string)
    requires Inv(s) && id in s.mapped && id in s.objects
    ensures var s', out := Visit(s, now, id), s.objects[id].active.None? && s.objects[id].expiresAt <= now;
      && (id !in s'.mapped <==> out) && id in s'.objects && s'.objects[id] == s.objects[id].(closed := out)
      && s' == s.(mapped := s'.mapped, objects := s'.objects)
      && (forall i | i != id :: i in s'.mapped <==> i in s.mapped)
      && (forall i | i != id && i in s.objects :: i in s'.objects && s'.objects[i] == s.objects[i])
      && s'.objects.Keys == s.objects.Keys
  {
    assert SessionOk(s.objects[id], s.config);
  }

  /** When a visit reaps: in every run, a session of the map is taken out and closed by a visit if and only if no
      request that began on it is still running, and its time to live has passed since it was last used. */
  lemma ReapedExactlyWhenIdle(states: seq<Store>, steps: seq<Step>, n: nat, id: string) returns (i: nat)
    requires FullRun(states, steps) && n < |steps| && steps[n].VisitStep? && steps[n].id == id
    requires id in states[n].mapped
    ensures IsLastUse(states, steps, id, i, n)
    ensures !steps[i].SetPromptStep? && !steps[i].StopStep? && !steps[i].EraseStep? && !steps[i].MarkClosedStep?
    ensures id !in states[n + 1].mapped <==>
            (forall b: nat :: !OwnsAt(states, steps, id, b, n)) && steps[i].now + states[n].config.ttl <= steps[n].now
    ensures id in states[n + 1].objects
    ensures states[n + 1].objects[id].closed <==> id !in states[n + 1].mapped
  {
    InvAt(states, steps, n);
    i := LastUsedAtLastUse(states, steps, id, n);
    IdleWithoutOwner(states, steps, n, id);
    hide FullRun, OwnsAt, IsLastUse, Inv;
    VisitOutcome(states[n], steps[n].now, id);
  }

  lemma IdleWithoutOwner(states: seq<Store>, steps: seq<Step>, n: nat, id: string)
    requires FullRun(states, steps) && n < |states| && id in states[n].objects
    ensures states[n].objects[id].active.None? <==> forall b: nat :: !OwnsAt(states, steps, id, b, n)
  {
    forall b: nat | OwnsAt(states, steps, id, b, n) ensures states[n].objects[id].active.Some? {
      BeginOwns(states, steps, b, n);
    }
    if states[n].objects[id].active.Some? {
      var b := FinishFollowsBegin(states, steps, id, states[n].objects[id].active.value, n);
      assert OwnsAt(states, steps, id, b, n);
    }
  }

  /** What an undisturbed pass leaves of the sessions `ids`: those that are closed, busy or not expired. The others
      are closed and gone, and nothing else changes. */
  ghost predicate Passed(s: Store, s': Store, now: int, ids: set<string>) {
    && s' == s.(mapped := s'.mapped, objects := s'.objects) && s'.objects.Keys == s.objects.Keys
    && s'.mapped <= s.mapped
    && (forall id | id in s.mapped && id in s.objects ::
          id in s'.mapped <==>
          id !in ids || s.objects[id].closed || s.objects[id].active.Some? || s.objects[id].expiresAt > now)
    && (forall id | id in s.objects ::
          s'.objects[id] == if id in s.mapped && id !in s'.mapped then s.objects[id].(closed := true) else s.objects[id])
  }

  lemma {:induction false} PassSoFar(s: Store, now: int, ids: seq<string>)
    requires s.mapped <= s.objects.Keys
    ensures Passed(s, VisitAll(s, now, ids), now, set id | id in ids)
    decreases |ids|
  {
    if ids != [] {
      var n := |ids| - 1;
      PassSoFar(s, now, ids[..n]);
      assert ids == ids[..n] + [ids[n]];
      var before := set id | id in ids[..n];
      assert (set id | id in ids) == before + {ids[n]};
      PassOneMore(s, VisitAll(s, now, ids[..n]), now, before, ids[n]);
    }
  }

  lemma PassOneMore(s: Store, s1: Store, now: int, ids: set<string>, id: string)
    requires s.mapped <= s.objects.Keys && Passed(s, s1, now, ids)
    ensures Passed(s, Visit(s1, now, id), now, ids + {id})
  {
  }

  lemma ReapPasses(s: Store, now: int)
    requires s.mapped <= s.objects.Keys
    ensures Passed(s, Reap(s, now), now, s.mapped)
  {
    var ids := Listed(s.mapped);
    PassSoFar(s, now, ids);
    PassIsReap(s, now, ids);
    assert (set id | id in ids) == s.mapped;
    hide Reap, VisitAll, Passed;
  }

  /** What the reaping pass leaves: the sessions of the map that are busy or have not expired. */
  ghost predicate LeavesTheLiving(s: Store, s': Store, now: int) {
    && s' == s.(mapped := s'.mapped, objects := s'.objects) && s'.objects.Keys == s.objects.Keys
    && (forall id :: id in s'.mapped <==>
          id in s.mapped && id in s.objects && (s.objects[id].active.Some? || s.objects[id].expiresAt > now))
    && (forall id | id in s.objects ::
          s'.objects[id] == if id in s.mapped && id !in s'.mapped then s.objects[id].(closed := true) else s.objects[id])
  }

  /** In whatever order an undisturbed pass visits the map, the ids it leaves are exactly those whose session is
      busy or has not expired; the sessions of the others are closed, and nothing else changes. */
  lemma PassLeavesTheLiving(s: Store, now: int, ids: seq<string>)
    requires Inv(s) && forall id | id in s.mapped :: id in ids
    ensures LeavesTheLiving(s, VisitAll(s, now, ids), now)
  {
    PassSoFar(s, now, ids);
    var all := set id | id in ids;
    assert forall id | id in s.mapped :: id in all;
    hide VisitAll, ObjectsOk, IdsOk;
    PassedAll(s, VisitAll(s, now, ids), now, all);
  }

  lemma PassedAll(s: Store, s': Store, now: int, ids: set<string>)
    requires ClosedOk(s) && Passed(s, s', now, ids) && s.mapped <= ids
    ensures LeavesTheLiving(s, s', now)
  {
  }

  /** And so does the pass of the store. */
  lemma ReapLeavesTheLiving(s: Store, now: int)
    requires Inv(s)
    ensures LeavesTheLiving(s, Reap(s, now), now)
  {
    ReapPasses(s, now);
    hide Reap, ObjectsOk, IdsOk;
    PassedAll(s, Reap(s, now), now, s.mapped);
  }

  lemma {:induction false} Listed(ids: set<string>) returns (list: seq<string>)
    ensures forall id :: id in ids <==> id in list
  {
    list := [];
    if ids != {} {
      var id :| id in ids;
      list := Listed(ids - {id});
      list := list + [id];
    }
  }

  // ---------- the gap between the two halves of a delete ----------

  /** Outside the map a begin succeeds exactly in the gap of the delete or stop that took the session out,
      and if the session is idle. */
  lemma DetachedBeginNeedsTheGap(states: seq<Store>, steps: seq<Step>, n: nat, id: string, request: nat,
                                 user: Message, now: int)
    requires FullRun(states, steps) && n < |states| && id in states[n].objects && id !in states[n].mapped
    ensures Begin(states[n], id, request, user, now).1.Ok? <==>
            id in states[n].closing && states[n].objects[id].active.None?
  {
    InvAt(states, steps, n);
  }

  /** And in the gap it does: a thread has looked the session up before the first half of the delete, and
      still begins a request on it, which no map holds any more. */
  lemma DetachedBeginHappens(config: Config, request: nat, user: Message, t: int)
    requires config.maxSessions > 0 && user.role == User
    ensures exists states: seq<Store>, steps: seq<Step> ::
      && FullRun(states, steps)
      && steps == [CreateStep(t, None), EraseStep(SessionId(1)), BeginStep(SessionId(1), request, user, t)]
      && SessionId(1) !in states[3].mapped && SessionId(1) in states[3].objects
      && states[3].objects[SessionId(1)].active == Some(request)
  {
    var id := SessionId(1);
    var s0 := NewStore(config, "");
    var s1 := CreateOne(config, t);
    var s2 := Apply(s1, EraseStep(id));
    var s3 := Apply(s2, BeginStep(id, request, user, t));
    BeginAfterErase(s1, s2, id, request, user, t);
    RunOfThree(s0, s1, s2, s3, CreateStep(t, None), EraseStep(id), BeginStep(id, request, user, t));
    hide *;
    assert [s0, s1, s2, s3][3] == s3;
  }

  lemma RunOfThree(s0: Store, s1: Store, s2: Store, s3: Store, t0: Step, t1: Step, t2: Step)
    requires s0 == NewStore(s0.config, s0.basePrompt)
    requires Enabled(s0, t0) && s1 == Apply(s0, t0) && Enabled(s1, t1) && s2 == Apply(s1, t1)
    requires Enabled(s2, t2) && s3 == Apply(s2, t2)
    ensures FullRun([s0, s1, s2, s3], [t0, t1, t2])
  {
    hide Enabled, Apply, NewStore;
    var states, steps := [s0, s1, s2, s3], [t0, t1, t2];
    forall i | 0 <= i < 3 ensures Enabled(states[i], steps[i]) && states[i + 1] == Apply(states[i], steps[i]) {
      if i == 0 { } else if i == 1 { }
    }
  }

  lemma BeginAfterErase(s: Store, erased: Store, id: string, request: nat, user: Message, t: int)
    requires s.mapped == {id} == s.objects.Keys && !s.objects[id].closed && s.objects[id].active.None?
    requires erased == Erase(s, id).0
    ensures var s' := Begin(erased, id, request, user, t).0;
      id !in s'.mapped && id in s'.objects && s'.objects[id].active == Some(request)
  {
  }

  lemma CreateOne(config: Config, t: int) returns (s: Store)
    requires config.maxSessions > 0
    ensures s == Apply(NewStore(config, ""), CreateStep(t, None))
    ensures s.mapped == {SessionId(1)} == s.objects.Keys && s.config == config && !s.stopping
    ensures var x := s.objects[SessionId(1)]; !x.closed && x.active.None? && x.expiresAt == t + config.ttl
  {
    s := Apply(NewStore(config, ""), CreateStep(t, None));
  }
}
