/** The disconnect registry: callbacks by connection, and what becomes of each. */
module DisconnectRegistry {
  /** The table as in the object, the next id, and the record of the run: cleared ids, ids whose callback
      was taken out to be fired, ids taken and waiting, and ids fired in order. */
  datatype State = State(
    callbacks: map<nat, set<nat>>, nextId: nat,
    cleared: set<nat>, taken: set<nat>, waiting: set<nat>, fired: seq<nat>)

  function Initial(): State {
    State(map[], 1, {}, {}, {}, [])
  }

  datatype Step = Track(connection: nat) | Clear(connection: nat, id: nat) | Disconnect(connection: nat) | Fire(id: nat)

  /** A taken callback is fired by the thread that took it. */
  predicate Enabled(s: State, step: Step) {
    step.Fire? ==> step.id in s.waiting
  }

  function At(callbacks: map<nat, set<nat>>, connection: nat): set<nat> {
    if connection in callbacks then callbacks[connection] else {}
  }

  function Tracked(s: State, connection: nat): State {
    s.(callbacks := s.callbacks[connection := At(s.callbacks, connection) + {s.nextId}], nextId := s.nextId + 1)
  }

  function Cleared(s: State, connection: nat, id: nat): State {
    if connection !in s.callbacks then s
    else
      var rest := s.callbacks[connection] - {id};
      var s := if id in s.callbacks[connection] then s.(cleared := s.cleared + {id}) else s;
      s.(callbacks := if rest == {} then s.callbacks - {connection} else s.callbacks[connection := rest])
  }

  function Taken(s: State, connection: nat): State {
    var ids := At(s.callbacks, connection);
    s.(callbacks := s.callbacks - {connection}, taken := s.taken + ids, waiting := s.waiting + ids)
  }

  function Apply(s: State, step: Step): State
    requires Enabled(s, step)
  {
    match step
    case Track(c) => Tracked(s, c)
    case Clear(c, id) => Cleared(s, c, id)
    case Disconnect(c) => Taken(s, c)
    case Fire(id) => s.(waiting := s.waiting - {id}, fired := s.fired + [id])
  }

  predicate IsRun(s: State, steps: seq<Step>)
    decreases |steps|
  {
    steps == [] || (Enabled(s, steps[0]) && IsRun(Apply(s, steps[0]), steps[1..]))
  }

  function Exec(s: State, steps: seq<Step>): State
    requires IsRun(s, steps)
    decreases |steps|
  {
    if steps == [] then s else Exec(Apply(s, steps[0]), steps[1..])
  }

  ghost predicate Pending(callbacks: map<nat, set<nat>>, id: nat) {
    exists c :: c in callbacks && id in callbacks[c]
  }

  ghost predicate NoDuplicates(fired: seq<nat>) {
    forall i, j | 0 <= i < j < |fired| :: fired[i] != fired[j]
  }

  /** No connection maps to an empty table, and an id is pending under one connection only. */
  ghost predicate TableOk(callbacks: map<nat, set<nat>>) {
    && (forall c | c in callbacks :: callbacks[c] != {})
    && (forall c, d, id | c in callbacks && d in callbacks && id in callbacks[c] && id in callbacks[d] :: c == d)
  }

  /** Each id handed out is in exactly one place: pending, cleared, or taken. */
  ghost predicate OnePlace(s: State, id: nat) {
    && (1 <= id < s.nextId <==> Pending(s.callbacks, id) || id in s.cleared || id in s.taken)
    && !(Pending(s.callbacks, id) && id in s.cleared)
    && !(Pending(s.callbacks, id) && id in s.taken)
    && !(id in s.cleared && id in s.taken)
  }

  /** A taken id is waiting or was fired, not both, and was fired once. */
  ghost predicate FiringOk(taken: set<nat>, waiting: set<nat>, fired: seq<nat>) {
    && (forall id: nat :: id in taken <==> id in waiting || id in fired)
    && (forall id | id in waiting :: id !in fired)
    && NoDuplicates(fired)
  }

  ghost predicate Inv(s: State) {
    && TableOk(s.callbacks) && 1 <= s.nextId
    && (forall id: nat :: OnePlace(s, id))
    && FiringOk(s.taken, s.waiting, s.fired)
  }

  lemma TrackKeepsInv(s: State, c: nat)
    requires Inv(s)
    ensures Inv(Tracked(s, c))
    ensures OnePlace(s, s.nextId)
  {
    var s' := Tracked(s, c);
    forall id: nat
      ensures Pending(s'.callbacks, id) <==> Pending(s.callbacks, id) || id == s.nextId
    {
      PendingAfterUpdate(s.callbacks, s'.callbacks, c, id);
      assert OnePlace(s, id);
    }
    hide Pending;
    forall id: nat ensures OnePlace(s', id) {
      assert OnePlace(s, id);
    }
    assert TableOk(s'.callbacks) by {
      assert OnePlace(s, s.nextId);
      NotPending(s.callbacks, s.nextId);
    }
  }

  lemma NotPending(callbacks: map<nat, set<nat>>, id: nat)
    requires !Pending(callbacks, id)
    ensures forall c | c in callbacks :: id !in callbacks[c]
  {
  }

  /** What is pending when only one connection's entry may have changed. */
  lemma PendingAfterUpdate(callbacks: map<nat, set<nat>>, callbacks': map<nat, set<nat>>, c: nat, id: nat)
    requires forall d | d != c :: d in callbacks' <==> d in callbacks
    requires forall d | d != c && d in callbacks :: callbacks'[d] == callbacks[d]
    requires TableOk(callbacks)
    ensures Pending(callbacks', id) <==>
            id in At(callbacks', c) || (Pending(callbacks, id) && id !in At(callbacks, c))
  {
    if Pending(callbacks', id) {
      var d :| d in callbacks' && id in callbacks'[d];
      if d != c {
        assert d in callbacks && id in callbacks[d];
      }
    }
    if id in At(callbacks', c) {
      assert c in callbacks' && id in callbacks'[c];
    }
    if Pending(callbacks, id) && id !in At(callbacks, c) {
      var d :| d in callbacks && id in callbacks[d];
      assert d in callbacks' && id in callbacks'[d];
    }
  }

  lemma ClearKeepsInv(s: State, c: nat, id: nat)
    requires Inv(s)
    ensures Inv(Cleared(s, c, id))
  {
    var s' := Cleared(s, c, id);
    if c in s.callbacks {
      var rest := s.callbacks[c] - {id};
      assert At(s'.callbacks, c) == rest;
      assert id in s.callbacks[c] ==> Pending(s.callbacks, id);
      forall i: nat
        ensures OnePlace(s', i)
      {
        PendingAfterUpdate(s.callbacks, s'.callbacks, c, i);
        assert OnePlace(s, i);
        assert i in s.callbacks[c] ==> Pending(s.callbacks, i);
      }
    }
  }

  lemma TakeKeepsInv(s: State, c: nat)
    requires Inv(s)
    ensures Inv(Taken(s, c))
  {
    var s' := Taken(s, c);
    var ids := At(s.callbacks, c);
    forall i: nat
      ensures OnePlace(s', i)
      ensures i in ids ==> i !in s.taken
    {
      PendingAfterUpdate(s.callbacks, s'.callbacks, c, i);
      assert OnePlace(s, i);
      assert i in ids ==> Pending(s.callbacks, i);
    }
  }

  lemma FireKeepsInv(s: State, id: nat)
    requires Inv(s) && id in s.waiting
    ensures Inv(Apply(s, Fire(id)))
  {
    var s' := Apply(s, Fire(id));
    forall i: nat ensures OnePlace(s', i) {
      assert OnePlace(s, i);
    }
    assert forall i: nat :: i in s'.fired <==> i in s.fired || i == id;
    assert forall j | 0 <= j < |s.fired| :: s.fired[j] in s.fired;
  }

  lemma StepKeepsInv(s: State, step: Step)
    requires Inv(s) && Enabled(s, step)
    ensures Inv(Apply(s, step))
  {
    hide Inv;
    match step
    case Track(c) => TrackKeepsInv(s, c);
    case Clear(c, id) => ClearKeepsInv(s, c, id);
    case Disconnect(c) => TakeKeepsInv(s, c);
    case Fire(id) => FireKeepsInv(s, id);
  }

  lemma {:induction false} RunKeepsInv(s: State, steps: seq<Step>)
    requires Inv(s) && IsRun(s, steps)
    ensures Inv(Exec(s, steps))
    decreases |steps|
  {
    hide Inv;
    if steps != [] {
      StepKeepsInv(s, steps[0]);
      RunKeepsInv(Apply(s, steps[0]), steps[1..]);
    }
  }

  /** In every run: every id handed out is pending, cleared or taken, and in one of these only; it fires at
      most once, and never if it was cleared; no connection keeps an empty table. */
  lemma CallbacksAreConserved(steps: seq<Step>)
    requires IsRun(Initial(), steps)
    ensures var s := Exec(Initial(), steps);
      && (forall id: nat :: OnePlace(s, id))
      && (forall id | id in s.fired :: id in s.taken && id !in s.cleared)
      && NoDuplicates(s.fired)
      && (forall c | c in s.callbacks :: s.callbacks[c] != {})
  {
    RunKeepsInv(Initial(), steps);
    var s := Exec(Initial(), steps);
    forall id | id in s.fired ensures id in s.taken && id !in s.cleared {
      assert OnePlace(s, id);
    }
  }

  /** Once cleared, a callback never fires in any continuation of the run. */
  lemma {:induction false} ClearedNeverFires(s: State, steps: seq<Step>, id: nat)
    requires Inv(s) && IsRun(s, steps) && id in s.cleared
    ensures id in Exec(s, steps).cleared && id !in Exec(s, steps).fired
    decreases |steps|
  {
    if steps != [] {
      StepKeepsInv(s, steps[0]);
      ClearedNeverFires(Apply(s, steps[0]), steps[1..], id);
    } else {
      assert OnePlace(s, id);
    }
  }

  // ---------- where each callback belongs, from the steps ----------

  function TracksIn(steps: seq<Step>): nat {
    if steps == [] then 0 else TracksIn(steps[..|steps| - 1]) + (if steps[|steps| - 1].Track? then 1 else 0)
  }

  /** Step `i` tracked the callback `id` on the connection: ids are given in order, from 1. */
  ghost predicate TrackedAt(steps: seq<Step>, i: nat, connection: nat, id: nat) {
    i < |steps| && steps[i] == Track(connection) && id == TracksIn(steps[..i]) + 1
  }

  /** None of the steps in between cleared the callback or disconnected its connection. */
  ghost predicate Untouched(steps: seq<Step>, from: nat, to: nat, connection: nat, id: nat)
    requires to <= |steps|
  {
    forall k | from < k < to :: steps[k] != Clear(connection, id) && steps[k] != Disconnect(connection)
  }

  ghost predicate PendingBySteps(steps: seq<Step>, connection: nat, id: nat) {
    exists i: nat :: TrackedAt(steps, i, connection, id) && Untouched(steps, i, |steps|, connection, id)
  }

  ghost predicate TakenBySteps(steps: seq<Step>, id: nat) {
    exists i: nat, k: nat, c: nat ::
      TrackedAt(steps, i, c, id) && i < k < |steps| && steps[k] == Disconnect(c) && Untouched(steps, i, k, c, id)
  }

  lemma {:induction false} ExecSnoc(s: State, steps: seq<Step>, step: Step)
    requires IsRun(s, steps + [step])
    ensures IsRun(s, steps) && Enabled(Exec(s, steps), step)
    ensures Exec(s, steps + [step]) == Apply(Exec(s, steps), step)
    decreases |steps|
  {
    if steps == [] {
      assert (steps + [step])[1..] == [];
    } else {
      assert (steps + [step])[0] == steps[0] && (steps + [step])[1..] == steps[1..] + [step];
      ExecSnoc(Apply(s, steps[0]), steps[1..], step);
    }
  }

  lemma TrackedAtSnoc(steps: seq<Step>, step: Step, i: nat, c: nat, id: nat)
    ensures TrackedAt(steps + [step], i, c, id) <==>
            TrackedAt(steps, i, c, id) || (i == |steps| && step == Track(c) && id == TracksIn(steps) + 1)
  {
    if i <= |steps| { assert (steps + [step])[..i] == steps[..i]; }
    assert steps[..|steps|] == steps;
  }

  lemma UntouchedSnoc(steps: seq<Step>, step: Step, i: nat, c: nat, id: nat)
    requires i < |steps|
    ensures Untouched(steps + [step], i, |steps| + 1, c, id) <==>
            Untouched(steps, i, |steps|, c, id) && step != Clear(c, id) && step != Disconnect(c)
    ensures forall k: nat | k <= |steps| :: Untouched(steps + [step], i, k, c, id) <==> Untouched(steps, i, k, c, id)
  {
    assert forall k | 0 <= k < |steps| :: (steps + [step])[k] == steps[k];
    assert (steps + [step])[|steps|] == step;
  }

  lemma PendingSnoc(steps: seq<Step>, step: Step, c: nat, id: nat)
    ensures PendingBySteps(steps + [step], c, id) <==>
            (PendingBySteps(steps, c, id) && step != Clear(c, id) && step != Disconnect(c))
            || (step == Track(c) && id == TracksIn(steps) + 1)
  {
    var all := steps + [step];
    forall i: nat ensures TrackedAt(all, i, c, id) <==>
        TrackedAt(steps, i, c, id) || (i == |steps| && step == Track(c) && id == TracksIn(steps) + 1)
    {
      TrackedAtSnoc(steps, step, i, c, id);
    }
    forall i: nat | i < |steps|
      ensures Untouched(all, i, |all|, c, id) <==>
              Untouched(steps, i, |steps|, c, id) && step != Clear(c, id) && step != Disconnect(c)
    {
      UntouchedSnoc(steps, step, i, c, id);
    }
    assert step == Track(c) && id == TracksIn(steps) + 1 ==> TrackedAt(all, |steps|, c, id);
    assert Untouched(all, |steps|, |all|, c, id);
    hide TrackedAt, Untouched, TracksIn;
  }

  lemma TakenSnoc(steps: seq<Step>, step: Step, id: nat)
    ensures TakenBySteps(steps + [step], id) <==>
            TakenBySteps(steps, id) || (step.Disconnect? && PendingBySteps(steps, step.connection, id))
  {
    var all := steps + [step];
    forall i: nat, c: nat ensures TrackedAt(all, i, c, id) <==>
        TrackedAt(steps, i, c, id) || (i == |steps| && step == Track(c) && id == TracksIn(steps) + 1)
    {
      TrackedAtSnoc(steps, step, i, c, id);
    }
    forall i: nat, c: nat, k: nat | i < |steps| && k <= |steps|
      ensures Untouched(all, i, k, c, id) <==> Untouched(steps, i, k, c, id)
    {
      UntouchedSnoc(steps, step, i, c, id);
    }
    assert all[|steps|] == step && forall k | 0 <= k < |steps| :: all[k] == steps[k];
    if step.Disconnect? && PendingBySteps(steps, step.connection, id) {
      var i: nat :| TrackedAt(steps, i, step.connection, id) && Untouched(steps, i, |steps|, step.connection, id);
      assert TrackedAt(all, i, step.connection, id) && all[|steps|] == Disconnect(step.connection)
             && Untouched(all, i, |steps|, step.connection, id);
    }
    if TakenBySteps(steps, id) {
      var i: nat, k: nat, c: nat :|
        TrackedAt(steps, i, c, id) && i < k < |steps| && steps[k] == Disconnect(c) && Untouched(steps, i, k, c, id);
      assert TrackedAt(all, i, c, id) && all[k] == Disconnect(c) && Untouched(all, i, k, c, id);
    }
    if TakenBySteps(all, id) {
      var i: nat, k: nat, c: nat :|
        TrackedAt(all, i, c, id) && i < k < |all| && all[k] == Disconnect(c) && Untouched(all, i, k, c, id);
      assert i < |steps| && TrackedAt(steps, i, c, id) && Untouched(steps, i, k, c, id);
      if k == |steps| {
        assert PendingBySteps(steps, c, id);
      } else {
        assert steps[k] == Disconnect(c);
      }
    }
  }

  /** What the steps say of the state. */
  ghost predicate AsTheStepsSay(s: State, steps: seq<Step>) {
    && s.nextId == TracksIn(steps) + 1
    && (forall c, id :: id in At(s.callbacks, c) <==> PendingBySteps(steps, c, id))
    && (forall id :: id in s.taken <==> TakenBySteps(steps, id))
  }

  lemma StepSays(s: State, steps: seq<Step>, step: Step)
    requires AsTheStepsSay(s, steps) && Enabled(s, step)
    ensures AsTheStepsSay(Apply(s, step), steps + [step])
  {
    assert (steps + [step])[..|steps|] == steps;
    assert TracksIn(steps + [step]) == TracksIn(steps) + (if step.Track? then 1 else 0);
    hide PendingBySteps, TakenBySteps, TracksIn, Apply, Enabled;
    AfterStep(s, step);
    forall c: nat, id: nat ensures id in At(Apply(s, step).callbacks, c) <==> PendingBySteps(steps + [step], c, id) {
      PendingSnoc(steps, step, c, id);
    }
    forall id: nat ensures id in Apply(s, step).taken <==> TakenBySteps(steps + [step], id) {
      TakenSnoc(steps, step, id);
    }
  }

  lemma AfterStep(s: State, step: Step)
    requires Enabled(s, step)
    ensures var s' := Apply(s, step);
      && s'.nextId == s.nextId + (if step.Track? then 1 else 0)
      && (forall c, id :: id in At(s'.callbacks, c) <==>
            (id in At(s.callbacks, c) && step != Clear(c, id) && step != Disconnect(c))
            || (step == Track(c) && id == s.nextId))
      && (forall id :: id in s'.taken <==> id in s.taken || (step.Disconnect? && id in At(s.callbacks, step.connection)))
  {
  }

  /** In every run: a callback is pending on the connection it was tracked on, and on no other, until it is cleared
      there or that connection disconnects; and it is taken out to be fired exactly by the first disconnect of
      that connection, if it was not cleared before. */
  lemma {:induction false} CallbacksBelongToTheirConnection(steps: seq<Step>)
    requires IsRun(Initial(), steps)
    ensures var s := Exec(Initial(), steps);
      && (forall c, id :: id in At(s.callbacks, c) <==> PendingBySteps(steps, c, id))
      && (forall id :: id in s.taken <==> TakenBySteps(steps, id))
      && s.nextId == TracksIn(steps) + 1
    decreases |steps|
  {
    if steps == [] {
      assert Exec(Initial(), steps) == Initial();
    } else {
      var front, last := steps[..|steps| - 1], steps[|steps| - 1];
      assert steps == front + [last];
      hide PendingBySteps, TakenBySteps, TracksIn, Apply, Enabled;
      ExecSnoc(Initial(), front, last);
      CallbacksBelongToTheirConnection(front);
      StepSays(Exec(Initial(), front), front, last);
    }
  }

  // ---------- the object ----------

  class Registry {
    var callbacks: map<nat, set<nat>>
    var nextCallbackId: nat
    ghost var state: State

    ghost predicate Valid()
      reads this
    {
      callbacks == state.callbacks && nextCallbackId == state.nextId && Inv(state)
    }

    constructor ()
      ensures Valid() && state == Initial()
    {
      callbacks, nextCallbackId := map[], 1;
      state := Initial();
    }

    method TrackCallback(connection: nat) returns (id: nat)
      requires Valid()
      modifies this
      ensures Valid() && state == Tracked(old(state), connection)
      ensures id == old(nextCallbackId) && !Pending(old(state).callbacks, id) && id !in old(state).cleared && id !in old(state).taken
    {
      id := nextCallbackId;
      nextCallbackId := nextCallbackId + 1;
      if connection !in callbacks {
        callbacks := callbacks[connection := {}];
      }
      callbacks := callbacks[connection := callbacks[connection] + {id}];
      TrackKeepsInv(state, connection);
      state := Tracked(state, connection);
    }

    method ClearCallback(connection: nat, id: nat)
      requires Valid()
      modifies this
      ensures Valid() && state == Cleared(old(state), connection, id)
    {
      ClearKeepsInv(state, connection, id);
      state := Cleared(state, connection, id);
      if connection !in callbacks {
        return;
      }
      callbacks := callbacks[connection := callbacks[connection] - {id}];
      if callbacks[connection] == {} {
        callbacks := callbacks - {connection};
      }
    }

    /** handle_connection_event up to the release of the lock; the caller fires what it gets. */
    method TakeCallbacks(connection: nat, disconnected: bool) returns (ids: set<nat>)
      requires Valid()
      modifies this
      ensures Valid()
      ensures disconnected ==> state == Taken(old(state), connection) && ids == At(old(state).callbacks, connection)
      ensures !disconnected ==> state == old(state) && ids == {}
    {
      if !disconnected {
        return {};
      }
      TakeKeepsInv(state, connection);
      state := Taken(state, connection);
      if connection !in callbacks {
        return {};
      }
      ids := callbacks[connection];
      callbacks := callbacks - {connection};
    }
  }
}
