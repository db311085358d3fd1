/** What every interleaving of session requests in the chat service guarantees. */
module ServiceTheorems {
  import opened Wrappers
  import opened Messages
  import opened History
  import Sessions = SessionSpec
  import SessionTheorems
  import opened ServiceSpec

  ghost predicate FullRun(states: seq<Service>, steps: seq<Step>) {
    IsRun(states, steps) && states[0] == NewService(states[0].store.config, states[0].store.basePrompt)
  }

  lemma {:induction false} InvAt(states: seq<Service>, steps: seq<Step>, i: nat)
    requires FullRun(states, steps) && i < |states|
    ensures Inv(states[i])
  {
    hide Inv;
    hide Apply;
    hide Enabled;
    if i == 0 {
      NewServiceInv(states[0].store.config, states[0].store.basePrompt);
    } else {
      InvAt(states, steps, i - 1);
      StepKeepsInv(states[i - 1], steps[i - 1]);
    }
  }

  /** The canceller table holds exactly the ids of the requests handed out and not yet unregistered, in sessions
      or not; so an id can be cancelled if and only if its request is one of them, and it cancels that request's
      own agent call. */
  lemma CancellersAreOutstanding(states: seq<Service>, steps: seq<Step>, n: nat)
    requires FullRun(states, steps) && n < |states|
    ensures var s := states[n];
      && (forall r | r in s.requests :: IsOutstanding(s.requests[r].phase) <==> s.requests[r].publicId in s.cancellers)
      && (forall r | r in s.plain :: s.plain[r].registered <==> s.plain[r].publicId in s.cancellers)
      && (forall r, id, a | IsEntry(s, r, id, a) :: id in s.cancellers && s.cancellers[id] == a)
      && (forall id | id in s.cancellers :: exists r :: IsEntry(s, r, id, s.cancellers[id]))
  {
    InvAt(states, steps, n);
    var s := states[n];
    forall r | r in s.requests
      ensures IsOutstanding(s.requests[r].phase) <==> s.requests[r].publicId in s.cancellers
    {
      assert IsOutstanding(s.requests[r].phase) ==> IsEntry(s, r, s.requests[r].publicId, s.requests[r].agentId);
      if s.requests[r].publicId in s.cancellers { RequestHasEntry(s, r); OwnEntry(s, r, s.requests[r].publicId); }
      RequestIsNoOther(s, r);
    }
    forall r | r in s.plain ensures s.plain[r].registered <==> s.plain[r].publicId in s.cancellers {
      assert s.plain[r].registered ==> IsEntry(s, r, s.plain[r].publicId, s.plain[r].agentId);
      if s.plain[r].publicId in s.cancellers { PlainHasEntry(s, r); OwnEntry(s, r, s.plain[r].publicId); }
      RequestIsNoOther(s, r);
    }
  }

  /** What is in the table under an id of the request `r` is r's own entry. */
  lemma OwnEntry(s: Service, r: nat, id: string)
    requires OwnersOk(s) && CancellersOk(s) && id in s.cancellers && HasEntry(s, r, id)
    ensures IsEntry(s, r, id, s.cancellers[id])
  {
    hide OwnersOk, IsEntry, PublicId;
    var e :| id == PublicId(r, e);
    var q :| IsEntry(s, q, id, s.cancellers[id]);
    if q != r { EntriesDiffer(s, q, id, s.cancellers[id], r, e); }
  }

  /** In the map, a session is busy with exactly the request that holds it: the holder is the one whose
      tracking id the session carries, a busy session has one and an idle session none. */
  lemma BusySessionHasOneHolder(states: seq<Service>, steps: seq<Step>, n: nat, id: string)
    requires FullRun(states, steps) && n < |states|
    requires id in states[n].store.mapped && id in states[n].store.objects
    ensures forall r :: states[n].store.objects[id].active == Some(r) <==>
                        r in states[n].requests && states[n].requests[r].sessionId == id && Holds(states[n].requests[r])
  {
    InvAt(states, steps, n);
    var s := states[n];
    forall r | r in s.requests ensures RequestOk(s, r) {
    }
  }

  /** And the public id of that request can be cancelled exactly while the request is outstanding: not before
      it was handed out, and not once its outer lease has fired, even if the session is still busy with it. */
  lemma HolderCanBeCancelled(states: seq<Service>, steps: seq<Step>, n: nat, id: string, r: nat)
    requires FullRun(states, steps) && n < |states|
    requires id in states[n].store.mapped && id in states[n].store.objects
    requires states[n].store.objects[id].active == Some(r)
    ensures var s := states[n];
      && r in s.requests
      && (s.requests[r].publicId in s.cancellers <==>
          s.requests[r].phase.Outstanding? || s.requests[r].phase.Observing? || s.requests[r].phase.Committing?)
      && (s.requests[r].publicId in s.cancellers ==> s.cancellers[s.requests[r].publicId] == s.requests[r].agentId)
  {
    BusySessionHasOneHolder(states, steps, n, id);
    CancellersAreOutstanding(states, steps, n);
    var q := states[n].requests[r];
    assert IsOutstanding(q.phase) ==> IsEntry(states[n], r, q.publicId, q.agentId);
    if states[n].requests[r].phase.Observed? { ObservedHolderIsUnmapped(states, steps, n, r); }
  }

  /** A request whose on_result is done either gave its session back or found it gone from the map. */
  lemma {:induction false} ObservedHolderIsUnmapped(states: seq<Service>, steps: seq<Step>, n: nat, r: nat)
    requires FullRun(states, steps) && n < |states| && r in states[n].requests
    requires states[n].requests[r].phase.Observed?
    ensures !states[n].requests[r].gaveBack ==> states[n].requests[r].sessionId !in states[n].store.mapped
  {
    hide Apply, Enabled, Inv;
    if n > 0 {
      InvAt(states, steps, n - 1);
      var s, step := states[n - 1], steps[n - 1];
      if r in s.requests && s.requests[r].phase.Observed? {
        ObservedHolderIsUnmapped(states, steps, n - 1, r);
        SessionOfRequest(s, r);
        StaysOut(s, step, s.requests[r].sessionId);
        RankGrows(s, step, r);
      } else {
        JustObserved(s, step, r);
      }
    }
  }

  lemma SessionOfRequest(s: Service, r: nat)
    requires Inv(s) && r in s.requests
    ensures s.requests[r].sessionId in s.store.objects && r !in s.drawn
  {
    assert RequestOk(s, r);
  }

  lemma JustObserved(s: Service, step: Step, r: nat)
    requires Inv(s) && Enabled(s, step) && r in Apply(s, step).requests && Apply(s, step).requests[r].phase.Observed?
    requires r !in s.requests || !s.requests[r].phase.Observed?
    ensures var s' := Apply(s, step);
      !s'.requests[r].gaveBack ==> s'.requests[r].sessionId !in s'.store.mapped
  {
    hide Sessions.Inv, OwnersOk, CancellersOk, ActiveOk;
  }

  /** Once every request's leases have fired through, in sessions or not, no session in the map is busy and no
      canceller is left. */
  lemma AllReleasedMeansIdle(states: seq<Service>, steps: seq<Step>, n: nat)
    requires FullRun(states, steps) && n < |states|
    requires forall r | r in states[n].requests :: states[n].requests[r].phase.Finished?
    requires forall r | r in states[n].plain :: !states[n].plain[r].registered
    ensures forall id | id in states[n].store.mapped ::
      id in states[n].store.objects && states[n].store.objects[id].active.None?
    ensures states[n].cancellers == map[]
  {
    InvAt(states, steps, n);
    NoEntryLeft(states[n]);
    var s := states[n];
    hide CancellersOk, ActiveOk, DueOk;
    forall id | id in s.store.mapped ensures id in s.store.objects && s.store.objects[id].active.None? {
      assert id in s.store.objects && s.store.objects[id].active.Some? ==> Holds(s.requests[s.store.objects[id].active.value]);
    }
  }

  lemma NoEntryLeft(s: Service)
    requires Inv(s)
    requires forall r | r in s.requests :: s.requests[r].phase.Finished?
    requires forall r | r in s.plain :: !s.plain[r].registered
    ensures s.cancellers == map[]
  {
    hide Sessions.Inv, OwnersOk, ActiveOk, DueOk;
    assert forall id :: id !in s.cancellers;
  }

  /** A commit of the service is never lost to another request: it finds its own request active, so it
      frees the session and, unless the session was closed meanwhile, adds exactly its own turn. */
  lemma CommitTakesEffect(s: Service, r: nat, reply: Option<string>, kept: seq<Message>, now: int)
    requires Inv(s) && Enabled(s, Commit(r, reply, kept, now))
    ensures var id, s' := s.requests[r].sessionId, Apply(s, Commit(r, reply, kept, now));
      && id in s.store.objects && id in s'.store.objects
      && s.store.objects[id].active == Some(r) && s'.store.objects[id].active == None
      && s'.store.objects[id].log ==
         if reply.Some? && !s.store.objects[id].closed
         then s.store.objects[id].log + [Turn(s.requests[r].user, AssistantMessage(reply.value))]
         else s.store.objects[id].log
  {
    hide Inv, Sessions.Enabled, Sessions.Commit;
    OwnerOf(s, r);
    OwnCommit(s.store, s.requests[r].sessionId, r, s.requests[r].user, reply, kept, now);
  }

  lemma OwnerOf(s: Service, r: nat)
    requires Inv(s) && r in s.requests && MustOwn(s.requests[r].phase)
    ensures var id := s.requests[r].sessionId; id in s.store.objects && s.store.objects[id].active == Some(r)
  {
    assert RequestOk(s, r);
  }

  lemma OwnCommit(store: Sessions.Store, id: string, r: nat, user: Message, reply: Option<string>, kept: seq<Message>, now: int)
    requires id in store.objects && store.objects[id].active == Some(r)
    ensures var store' := Sessions.Commit(store, id, r, user, reply, kept, now);
      && id in store'.objects && store'.objects[id].active == None
      && store'.objects[id].log ==
         if reply.Some? && !store.objects[id].closed
         then store.objects[id].log + [Turn(user, AssistantMessage(reply.value))] else store.objects[id].log
  {
  }

  // ---------- leases fire once ----------

  function Rank(p: Phase): nat {
    match p
    case Begun => 0
    case Tracked => 1
    case Outstanding => 2
    case Observing => 3
    case Committing => 4
    case Observed => 5
    case OuterFired => 6
    case InnerFired => 7
    case Releasing => 8
    case Finished => 9
  }

  /** What a step may do to a request that began. */
  lemma RankGrows(s: Service, step: Step, r: nat)
    requires Enabled(s, step) && r in s.requests && r !in s.drawn
    ensures r in Apply(s, step).requests
    ensures var q, q' := s.requests[r], Apply(s, step).requests[r];
      && q' == q.(phase := q'.phase, gaveBack := q'.gaveBack) && (q.gaveBack ==> q'.gaveBack)
      && Rank(q'.phase) >= Rank(q.phase)
      && (step == FireOuterLease(r) ==> Rank(q'.phase) >= 6)
  {
    hide Sessions.Apply, Sessions.Enabled, Sessions.Begin, Sessions.Release, PublicId, MadeDue;
    if IsOwnStep(step, r) { MoveGrows(s, step, r); } else {
      hide Apply, Enabled;
      OtherStaysAsItIs(s, step, r);
    }
  }

  lemma MoveGrows(s: Service, step: Step, r: nat)
    requires Enabled(s, step) && r in s.requests && IsOwnStep(step, r)
    ensures r in Apply(s, step).requests
    ensures var q, q' := s.requests[r], Apply(s, step).requests[r];
      && q' == q.(phase := q'.phase, gaveBack := q'.gaveBack) && (q.gaveBack ==> q'.gaveBack)
      && Rank(q'.phase) >= Rank(q.phase)
      && (step == FireOuterLease(r) ==> Rank(q'.phase) >= 6)
  {
    if step.Commit? {
      hide Sessions.Commit, IsTrimmed;
      CommitIs(s, r, step.reply, step.kept, step.now);
      CommitPhase(s, step, r);
      hide Apply, Enabled;
    } else {
      hide Sessions.Apply, Sessions.Enabled, Sessions.Begin, Sessions.Release, PublicId, MadeDue;
    }
  }

  lemma CommitPhase(s: Service, step: Step, r: nat)
    requires Enabled(s, step) && step.Commit? && step.r == r
    ensures r in s.requests && s.requests[r].phase.Committing?
  {
    hide Sessions.Enabled;
  }

  lemma {:induction false} RankGrowsInRun(states: seq<Service>, steps: seq<Step>, r: nat, i: nat, j: nat)
    requires FullRun(states, steps) && i <= j < |states| && r in states[i].requests
    ensures r in states[j].requests
    ensures Rank(states[j].requests[r].phase) >= Rank(states[i].requests[r].phase)
    ensures states[j].requests[r].sessionId == states[i].requests[r].sessionId
    ensures states[j].requests[r].agentId == states[i].requests[r].agentId
  {
    hide Apply;
    hide Enabled;
    hide Inv;
    if i < j {
      RankGrowsInRun(states, steps, r, i, j - 1);
      InvAt(states, steps, j - 1);
      SessionOfRequest(states[j - 1], r);
      RankGrows(states[j - 1], steps[j - 1], r);
    }
  }

  /** However often a lease is released, by hand or by its destructor, only the first time has an effect. */
  lemma LeaseFiresOnce(states: seq<Service>, steps: seq<Step>, r: nat, i: nat, j: nat)
    requires FullRun(states, steps) && i < j < |steps|
    requires steps[i] == FireOuterLease(r) && steps[j] == FireOuterLease(r)
    ensures states[j + 1] == states[j]
  {
    assert states[j + 1] == Apply(states[j], steps[j]) && Enabled(states[i], FireOuterLease(r));
    hide Inv;
    InvAt(states, steps, i);
    SessionOfRequest(states[i], r);
    RankGrows(states[i], steps[i], r);
    RankGrowsInRun(states, steps, r, i + 1, j);
    LateLeaseDoesNothing(states[j], r);
    hide FullRun, Apply, Enabled;
  }

  lemma LateLeaseDoesNothing(s: Service, r: nat)
    requires r in s.requests && Rank(s.requests[r].phase) >= 6
    ensures Enabled(s, FireOuterLease(r)) && Apply(s, FireOuterLease(r)) == s
  {
  }

  // ---------- active_session_requests_ ----------

  /** What delete_session cancels is always the request that the deleted session is busy with, after it was
      tracked and before it was observed or released; so a request that has begun and is not yet tracked is
      never cancelled. */
  lemma DeleteCancelsOnlyItsOwn(states: seq<Service>, steps: seq<Step>, n: nat, id: string)
    requires FullRun(states, steps) && n < |states| && id in states[n].active
    ensures exists r :: r in states[n].requests && states[n].requests[r].sessionId == id
                        && states[n].requests[r].agentId == states[n].active[id]
                        && id in states[n].store.objects && states[n].store.objects[id].active == Some(r)
                        && MayBeFound(states[n].requests[r].phase)
  {
    InvAt(states, steps, n);
    assert ActiveEntryOk(states[n], id);
  }

  /** Every other request of r's session has fired its inner lease: none of them can erase an entry any more. */
  ghost predicate OthersUntracked(s: Service, r: nat)
    requires r in s.requests
  {
    forall q | q in s.requests && q != r && s.requests[q].sessionId == s.requests[r].sessionId ::
      Rank(s.requests[q].phase) >= 7
  }

  ghost predicate IsTracked(s: Service, r: nat) {
    r in s.requests && (s.requests[r].phase.Tracked? || s.requests[r].phase.Outstanding?)
  }

  /** A delete of the request's session is running or may still come. */
  ghost predicate DeleteMayCome(s: Service, r: nat)
    requires r in s.requests
  {
    s.requests[r].sessionId in s.store.mapped || s.requests[r].sessionId in s.due
  }

  /** And it finds the request. */
  ghost predicate Found(s: Service, r: nat)
    requires r in s.requests
  {
    var id := s.requests[r].sessionId;
    DeleteMayCome(s, r) ==> id in s.active && s.active[id] == s.requests[r].agentId
  }

  /** A request of this session that was not there before has just begun. */
  lemma NewRequest(s: Service, step: Step, q: nat)
    requires Enabled(s, step) && q !in s.requests && q in Apply(s, step).requests
    ensures step.Begin? && step.sessionId == Apply(s, step).requests[q].sessionId
  {
    hide Sessions.Apply, Sessions.Enabled;
  }

  /** Nobody else begins on a session that a tracked request holds. */
  lemma TrackedKeepsOthersOut(s: Service, step: Step, r: nat)
    requires Inv(s) && Enabled(s, step) && IsTracked(s, r) && OthersUntracked(s, r)
    ensures r in Apply(s, step).requests && OthersUntracked(Apply(s, step), r)
  {
    OwnerOf(s, r);
    SessionOfRequest(s, r);
    RankGrows(s, step, r);
    var s' := Apply(s, step);
    forall q | q in s'.requests && q != r && s'.requests[q].sessionId == s'.requests[r].sessionId
      ensures Rank(s'.requests[q].phase) >= 7
    {
      if q in s.requests {
        SessionOfRequest(s, q);
        RankGrows(s, step, q);
      } else {
        NewRequest(s, step, q);
        BusyIsNotBegun(s, step);
      }
    }
  }

  lemma BusyIsNotBegun(s: Service, step: Step)
    requires Enabled(s, step) && step.Begin?
    ensures step.sessionId in s.store.objects && s.store.objects[step.sessionId].active.None?
  {
  }

  lemma NothingTouchesIt(s: Service, step: Step, r: nat)
    requires Enabled(s, step) && IsTracked(s, r) && OthersUntracked(s, r) && IsTracked(Apply(s, step), r)
    ensures !TouchesEntry(s, step, s.requests[r].sessionId)
  {
    hide Sessions.Apply, Sessions.Enabled;
  }

  lemma TrackedStaysFound(s: Service, step: Step, r: nat)
    requires Inv(s) && Enabled(s, step) && IsTracked(s, r) && OthersUntracked(s, r) && Found(s, r)
    requires IsTracked(Apply(s, step), r)
    ensures Found(Apply(s, step), r)
  {
    OwnerOf(s, r);
    SessionOfRequest(s, r);
    RankGrows(s, step, r);
    NothingTouchesIt(s, step, r);
    var id := s.requests[r].sessionId;
    StaysOut(s, step, id);
    if id in Apply(s, step).due { DueAfter(s, step, id); }
    hide Inv, Apply, Enabled, TouchesEntry, OthersUntracked;
    if step == CancelDeleted(id) {
      CancelledIsGone(s, id);
    } else {
      EntryStep(s, step, id);
    }
  }

  lemma CancelledIsGone(s: Service, id: string)
    requires Inv(s) && Enabled(s, CancelDeleted(id))
    ensures id !in Apply(s, CancelDeleted(id)).due && id !in Apply(s, CancelDeleted(id)).store.mapped
  {
  }

  lemma TrackFinds(s: Service, r: nat)
    requires Enabled(s, Track(r))
    ensures Found(Apply(s, Track(r)), r) && IsTracked(Apply(s, Track(r)), r)
    ensures Rank(Apply(s, Track(r)).requests[r].phase) == 1
    ensures OthersUntracked(s, r) ==> OthersUntracked(Apply(s, Track(r)), r)
  {
  }

  /** A request that is tracked and found, with every other request of its session past its inner lease, stays
      so for as long as it is tracked or outstanding. */
  lemma {:induction false} StaysFound(states: seq<Service>, steps: seq<Step>, r: nat, i: nat, j: nat)
    requires FullRun(states, steps) && i <= j < |states|
    requires IsTracked(states[i], r) && Found(states[i], r) && OthersUntracked(states[i], r)
    requires r in states[j].requests && Rank(states[j].requests[r].phase) <= 2
    ensures IsTracked(states[j], r) && Found(states[j], r) && OthersUntracked(states[j], r)
  {
    hide Inv, Enabled, Apply, OthersUntracked, Found;
    if i < j {
      InvAt(states, steps, j - 1);
      RankGrowsInRun(states, steps, r, i, j - 1);
      RankGrowsInRun(states, steps, r, j - 1, j);
      StaysFound(states, steps, r, i, j - 1);
      TrackedKeepsOthersOut(states[j - 1], steps[j - 1], r);
      TrackedStaysFound(states[j - 1], steps[j - 1], r);
    }
  }

  /** So it is for a request that was tracked after every other request of its session had fired its inner
      lease. */
  lemma TrackedIsFound(states: seq<Service>, steps: seq<Step>, r: nat, i: nat, j: nat)
    requires FullRun(states, steps) && i < j < |states| && steps[i] == Track(r)
    requires r in states[i].requests && OthersUntracked(states[i], r)
    requires IsTracked(states[j], r)
    ensures OthersUntracked(states[j], r) && Found(states[j], r)
  {
    hide Inv, Enabled, Apply, OthersUntracked, Found;
    assert Enabled(states[i], steps[i]) && states[i + 1] == Apply(states[i], steps[i]);
    TrackFinds(states[i], r);
    StaysFound(states, steps, r, i + 1, j);
  }

  /** So the delete that follows cancels its agent call. */
  lemma DeleteCancelsTheTracked(states: seq<Service>, steps: seq<Step>, r: nat, i: nat, j: nat)
    requires FullRun(states, steps) && i < j < |steps| && steps[i] == Track(r)
    requires r in states[i].requests && OthersUntracked(states[i], r) && IsTracked(states[j], r)
    requires steps[j] == CancelDeleted(states[j].requests[r].sessionId)
    ensures var id := states[j].requests[r].sessionId;
      id in states[j].active && states[j].active[id] == states[j].requests[r].agentId
  {
    TrackedIsFound(states, steps, r, i, j);
  }

  /** Otherwise the entry can still be lost: some older request of the session is past its commit and short
      of its inner lease, and firing its leases erases the entry of the tracked request. */
  lemma EntryCanBeLost(states: seq<Service>, steps: seq<Step>, r: nat, q: nat)
    returns (more: seq<Service>, done: seq<Step>)
    requires FullRun(states, steps) && |states| == |steps| + 1 && IsTracked(states[|steps|], r)
    requires q in states[|steps|].requests && q != r
    requires states[|steps|].requests[q].sessionId == states[|steps|].requests[r].sessionId
    requires Rank(states[|steps|].requests[q].phase) < 7
    ensures FullRun(more, done) && steps <= done && states <= more && |more| == |done| + 1
    ensures var s, s' := states[|steps|], more[|done|];
      && IsTracked(s', r) && s'.requests[r] == s.requests[r] && s'.store == s.store && s'.due == s.due
      && s.requests[r].sessionId !in s'.active
  {
    hide Inv, Enabled, Apply, FullRun;
    InvAt(states, steps, |steps|);
    OlderIsPastItsCommit(states[|steps|], r, q);
    if states[|steps|].requests[q].phase.Observed? {
      OuterLeaseOf(states[|steps|], q, r);
      var states1, steps1 := Extend(states, steps, FireOuterLease(q));
      more, done := EntryIsLost(states1, steps1, r, q);
    } else {
      more, done := EntryIsLost(states, steps, r, q);
    }
  }

  lemma EntryIsLost(states: seq<Service>, steps: seq<Step>, r: nat, q: nat)
    returns (more: seq<Service>, done: seq<Step>)
    requires FullRun(states, steps) && |states| == |steps| + 1 && IsTracked(states[|steps|], r)
    requires q in states[|steps|].requests && q != r && states[|steps|].requests[q].phase.OuterFired?
    requires states[|steps|].requests[q].sessionId == states[|steps|].requests[r].sessionId
    ensures FullRun(more, done) && steps <= done && states <= more && |more| == |done| + 1
    ensures var s, s' := states[|steps|], more[|done|];
      && IsTracked(s', r) && s'.requests[r] == s.requests[r] && s'.store == s.store && s'.due == s.due
      && s.requests[r].sessionId !in s'.active
  {
    hide Enabled, Apply, FullRun;
    InnerLeaseOf(states[|steps|], q);
    more, done := Extend(states, steps, FireInnerLease(q));
  }

  /** Firing q's outer lease leaves the request r alone. */
  lemma OuterLeaseOf(s: Service, q: nat, r: nat)
    requires q in s.requests && s.requests[q].phase.Observed? && r in s.requests && r != q
    ensures Enabled(s, FireOuterLease(q))
    ensures var s' := Apply(s, FireOuterLease(q));
      && r in s'.requests && s'.requests[r] == s.requests[r] && s'.store == s.store && s'.due == s.due
      && q in s'.requests && s'.requests[q].phase.OuterFired? && s'.requests[q].sessionId == s.requests[q].sessionId
  {
  }

  lemma InnerLeaseOf(s: Service, q: nat)
    requires q in s.requests && s.requests[q].phase.OuterFired?
    ensures Enabled(s, FireInnerLease(q))
    ensures Apply(s, FireInnerLease(q)) ==
            s.(requests := s.requests[q := s.requests[q].(phase := InnerFired)], active := s.active - {s.requests[q].sessionId})
  {
  }

  lemma OlderIsPastItsCommit(s: Service, r: nat, q: nat)
    requires Inv(s) && IsTracked(s, r) && q in s.requests && q != r
    requires s.requests[q].sessionId == s.requests[r].sessionId && Rank(s.requests[q].phase) < 7
    ensures s.requests[q].phase.Observed? || s.requests[q].phase.OuterFired?
  {
    hide Inv;
    OwnerOf(s, r);
    if MustOwn(s.requests[q].phase) { OwnerOf(s, q); }
  }

  /** `more` and `done` continue the run. */
  ghost predicate Continues(states: seq<Service>, steps: seq<Step>, more: seq<Service>, done: seq<Step>) {
    FullRun(more, done) && |more| == |done| + 1 && states <= more && steps <= done
  }

  /** In every continuation of the run, a delete finds the request until it is observed or its outer lease fires. */
  ghost predicate FoundFromHere(states: seq<Service>, steps: seq<Step>, r: nat) {
    forall more: seq<Service>, done: seq<Step>
      | Continues(states, steps, more, done) && r in more[|done|].requests && Rank(more[|done|].requests[r].phase) <= 2 ::
      Found(more[|done|], r)
  }

  lemma TrackedIsFoundFromHere(states: seq<Service>, steps: seq<Step>, r: nat)
    requires FullRun(states, steps) && |states| == |steps| + 1
    requires IsTracked(states[|steps|], r) && Found(states[|steps|], r) && OthersUntracked(states[|steps|], r)
    ensures FoundFromHere(states, steps, r)
  {
    hide Inv, Enabled, Apply, FullRun, Rank, Found, OthersUntracked, IsTracked;
    forall more: seq<Service>, done: seq<Step>
      | Continues(states, steps, more, done) && r in more[|done|].requests && Rank(more[|done|].requests[r].phase) <= 2
      ensures Found(more[|done|], r)
    {
      assert more[|steps|] == states[|steps|];
      StaysFound(more, done, r, |steps|, |done|);
    }
  }

  /** That holds in any reachable state in which a delete may still come, if and only if the request has been
      tracked, its entry is there, and all other requests of the session have fired their inner leases. */
  lemma FoundInEveryContinuation(states: seq<Service>, steps: seq<Step>, r: nat)
    requires FullRun(states, steps) && r in states[|steps|].requests && Rank(states[|steps|].requests[r].phase) <= 2
    requires DeleteMayCome(states[|steps|], r)
    ensures FoundFromHere(states, steps, r) <==>
            IsTracked(states[|steps|], r) && Found(states[|steps|], r) && OthersUntracked(states[|steps|], r)
  {
    assert |states| == |steps| + 1;
    hide Inv, Enabled, Apply, FullRun, FoundFromHere, Found, OthersUntracked;
    if IsTracked(states[|steps|], r) && Found(states[|steps|], r) && OthersUntracked(states[|steps|], r) {
      TrackedIsFoundFromHere(states, steps, r);
    } else if IsTracked(states[|steps|], r) && Found(states[|steps|], r) {
      LostToAnOther(states, steps, r);
    } else {
      NotFoundHere(states, steps, r);
    }
  }

  lemma NotFoundHere(states: seq<Service>, steps: seq<Step>, r: nat)
    requires FullRun(states, steps) && |states| == |steps| + 1 && r in states[|steps|].requests
    requires Rank(states[|steps|].requests[r].phase) <= 2 && DeleteMayCome(states[|steps|], r)
    requires !IsTracked(states[|steps|], r) || !Found(states[|steps|], r)
    ensures !FoundFromHere(states, steps, r)
  {
    hide Inv, Enabled, Apply, FullRun, Found;
    InvAt(states, steps, |steps|);
    assert Continues(states, steps, states, steps);
    if states[|steps|].requests[r].phase.Begun? { BegunIsNotFound(states[|steps|], r); }
  }

  lemma LostToAnOther(states: seq<Service>, steps: seq<Step>, r: nat)
    requires FullRun(states, steps) && |states| == |steps| + 1 && IsTracked(states[|steps|], r)
    requires !OthersUntracked(states[|steps|], r) && DeleteMayCome(states[|steps|], r)
    ensures !FoundFromHere(states, steps, r)
  {
    hide Inv, Enabled, Apply, FullRun;
    var s := states[|steps|];
    var q :| q in s.requests && q != r && s.requests[q].sessionId == s.requests[r].sessionId && Rank(s.requests[q].phase) < 7;
    var more, done := EntryCanBeLost(states, steps, r, q);
    assert Continues(states, steps, more, done) && !Found(more[|done|], r);
  }

  lemma BegunIsNotFound(s: Service, r: nat)
    requires Inv(s) && r in s.requests && s.requests[r].phase.Begun? && DeleteMayCome(s, r)
    ensures !Found(s, r)
  {
    OwnerOf(s, r);
    var id := s.requests[r].sessionId;
    assert id in s.active ==> ActiveEntryOk(s, id);
  }

  /** Two requests of one session: the first is committed, the second begins and is tracked, and then the
      late lease of the first untracks the second. It is outstanding and its session busy, but a delete
      would not find it: active_session_requests_ does not mirror the busy sessions. */
  lemma LateLeaseErasesNewerEntry(s: Service, a: nat, b: nat)
    requires Inv(s) && a in s.requests && b in s.requests && a != b
    requires s.requests[a].sessionId == s.requests[b].sessionId
    requires s.requests[a].phase.OuterFired? && MustOwn(s.requests[b].phase)
    ensures Enabled(s, FireInnerLease(a))
    ensures var s', id := Apply(s, FireInnerLease(a)), s.requests[b].sessionId;
      && id !in s'.active && id in s'.store.objects && s'.store.objects[id].active == Some(b)
      && b in s'.requests && MustOwn(s'.requests[b].phase)
  {
    OwnerOf(s, b);
    InnerLeaseOf(s, a);
    hide Inv, Apply, Enabled;
  }

  // ---------- and that situation is reached ----------

  ghost predicate IdleSession(s: Service, id: string) {
    && id in s.store.mapped && id in s.store.objects
    && !s.store.objects[id].closed && s.store.objects[id].active.None?
  }

  lemma Extend(states: seq<Service>, steps: seq<Step>, step: Step) returns (more: seq<Service>, done: seq<Step>)
    requires FullRun(states, steps) && Enabled(states[|steps|], step)
    ensures FullRun(more, done) && |done| == |steps| + 1 && more[|done|] == Apply(states[|steps|], step)
    ensures states <= more && |more| == |done| + 1 && done == steps + [step]
  {
    hide Apply;
    hide Enabled;
    more, done := states + [Apply(states[|steps|], step)], steps + [step];
  }

  /** A request draws its id and begins. */
  lemma BeginOne(states: seq<Service>, steps: seq<Step>, id: string, user: Message, agentId: nat, t: int)
    returns (more: seq<Service>, done: seq<Step>)
    requires FullRun(states, steps) && user.role == User && IdleSession(states[|steps|], id)
    ensures FullRun(more, done) && |more| == |done| + 1
    ensures var s, s', n := states[|steps|], more[|done|], states[|steps|].nextTracking;
      && s'.nextTracking == n + 1 && s'.active == s.active && s'.cancellers == s.cancellers && s'.due == s.due
      && s'.requests == s.requests[n := Request(id, user, agentId, PublicId(n, false), Begun, false)]
      && s'.store.mapped == s.store.mapped && id in s'.store.objects && !s'.store.objects[id].closed
      && s'.store.objects[id].active == Some(n)
  {
    var n := states[|steps|].nextTracking;
    more, done := Extend(states, steps, Draw);
    more, done := Extend(more, done, Begin(n, id, user, agentId, false, t));
  }

  /** A request is served up to the end of its on_result, with a failed result. */
  lemma ServeOne(states: seq<Service>, steps: seq<Step>, id: string, user: Message, t: int)
    returns (more: seq<Service>, done: seq<Step>)
    requires FullRun(states, steps) && user.role == User && IdleSession(states[|steps|], id)
    ensures FullRun(more, done)
    ensures var s, n := more[|done|], states[|steps|].nextTracking;
      && IdleSession(s, id) && s.nextTracking == n + 1
      && n in s.requests && s.requests[n].sessionId == id && s.requests[n].phase.Observed?
  {
    var n := states[|steps|].nextTracking;
    more, done := BeginOne(states, steps, id, user, 10, t);
    more, done := Extend(more, done, Track(n));
    more, done := Extend(more, done, Register(n));
    more, done := Extend(more, done, Observe(n));
    more, done := CommitFailed(more, done, n, t);
  }

  lemma CommitFailed(states: seq<Service>, steps: seq<Step>, n: nat, t: int) returns (more: seq<Service>, done: seq<Step>)
    requires FullRun(states, steps) && n in states[|steps|].requests && states[|steps|].requests[n].phase.Observing?
    requires var s, id := states[|steps|], states[|steps|].requests[n].sessionId;
      && id in s.store.mapped && id in s.store.objects && !s.store.objects[id].closed
      && s.store.objects[id].active == Some(n) && s.requests[n].user.role == User
    ensures FullRun(more, done)
    ensures var s, s', id := states[|steps|], more[|done|], states[|steps|].requests[n].sessionId;
      && IdleSession(s', id) && s'.nextTracking == s.nextTracking
      && n in s'.requests && s'.requests[n].sessionId == id && s'.requests[n].phase.Observed?
  {
    more, done := Extend(states, steps, FindForCommit(n));
    more, done := Extend(more, done, Commit(n, None, [], t));
  }

  lemma OneSession(config: Sessions.Config, t: int) returns (states: seq<Service>, steps: seq<Step>, id: string)
    requires config.maxSessions > 0
    ensures FullRun(states, steps) && |states| == |steps| + 1
    ensures IdleSession(states[|steps|], id) && states[|steps|].nextTracking == 1
    ensures states[|steps|].requests == map[] && states[|steps|].active == map[] && states[|steps|].due == {}
  {
    id := Sessions.SessionId(1);
    var store := SessionTheorems.CreateOne(config, t);
    var s0 := NewService(config, "");
    var step := StoreStep(Sessions.CreateStep(t, None));
    assert Apply(s0, step) == s0.(store := store);
    states, steps := [s0] + [Apply(s0, step)], [] + [step];
  }

  lemma ServeAnother(states: seq<Service>, steps: seq<Step>, id: string, user: Message, t: int, a: nat)
    returns (more: seq<Service>, done: seq<Step>)
    requires FullRun(states, steps) && user.role == User && IdleSession(states[|steps|], id)
    requires a in states[|steps|].requests && states[|steps|].requests[a].phase.Observed?
    requires states[|steps|].nextTracking == a + 1
    ensures FullRun(more, done) && |more| == |done| + 1
    ensures var s, b := more[|done|], a + 1;
      && a in s.requests && b in s.requests && id in s.store.mapped
      && s.requests[a].sessionId == states[|steps|].requests[a].sessionId && s.requests[b].sessionId == id
      && s.requests[a].phase.OuterFired? && s.requests[b].phase.Tracked?
      && id in s.active && s.active[id] == s.requests[b].agentId
  {
    more, done := BeginOne(states, steps, id, user, 20, t);
    more, done := Extend(more, done, FireOuterLease(a));
    more, done := Extend(more, done, Track(a + 1));
  }

  /** From the start of the service, a run leads there: the second request holds the session and is still
      to be served, and its entry is gone. */
  lemma LateLeaseIsReachable(config: Sessions.Config, user: Message, t: int)
    returns (states: seq<Service>, steps: seq<Step>, id: string)
    requires config.maxSessions > 0 && user.role == User
    ensures FullRun(states, steps)
    ensures var s := states[|steps|];
      && id !in s.active && id in s.store.objects && id in s.store.mapped
      && s.store.objects[id].active == Some(2)
      && 2 in s.requests && s.requests[2].sessionId == id && s.requests[2].phase.Tracked?
  {
    hide Inv, Enabled, Apply, FullRun, IdleSession;
    states, steps, id := OneSession(config, t);
    states, steps := ServeOne(states, steps, id, user, t);
    states, steps := ServeAnother(states, steps, id, user, t, 1);
    InvAt(states, steps, |steps|);
    LateLeaseErasesNewerEntry(states[|steps|], 1, 2);
    InnerLeaseOf(states[|steps|], 1);
    states, steps := Extend(states, steps, FireInnerLease(1));
  }

  /** A request whose result nobody observes: once its outer lease has fired, its session is still busy with
      it, and no canceller is left that could stop it. */
  lemma BusyWithoutCanceller(config: Sessions.Config, user: Message, t: int)
    returns (states: seq<Service>, steps: seq<Step>, id: string)
    requires config.maxSessions > 0 && user.role == User
    ensures FullRun(states, steps)
    ensures var s := states[|steps|];
      && id in s.store.mapped && id in s.store.objects && s.store.objects[id].active == Some(1)
      && 1 in s.requests && s.requests[1].phase.OuterFired? && s.requests[1].publicId !in s.cancellers
  {
    states, steps, id := OneSession(config, t);
    states, steps := BeginOne(states, steps, id, user, 10, t);
    states, steps := Extend(states, steps, Track(1));
    states, steps := Extend(states, steps, Register(1));
    states, steps := Extend(states, steps, FireOuterLease(1));
  }

  /** A delete that runs in full between begin_request and track_session_request finds nothing, although no other
      request exists and the session is busy; the request is tracked afterwards, on a deleted session. */
  lemma DeleteMissesTheUntracked(config: Sessions.Config, user: Message, t: int)
    returns (states: seq<Service>, steps: seq<Step>, n: nat, id: string)
    requires config.maxSessions > 0 && user.role == User
    ensures FullRun(states, steps) && |states| == |steps| + 1 && n + 2 == |steps| && steps[n] == CancelDeleted(id)
    ensures id in states[n].store.objects && states[n].store.objects[id].active == Some(1)
    ensures states[n].requests.Keys == {1} && id !in states[n].active
    ensures IsTracked(states[|steps|], 1) && states[|steps|].requests[1].sessionId == id
    ensures id !in states[|steps|].store.mapped && id !in states[|steps|].due
  {
    hide Inv, Enabled, Apply, FullRun;
    states, steps, id := OneSession(config, t);
    states, steps := BeginOne(states, steps, id, user, 10, t);
    EraseOf(states[|steps|], id, 1);
    states, steps := Extend(states, steps, StoreStep(Sessions.EraseStep(id)));
    n := |steps|;
    states, steps := Extend(states, steps, CancelDeleted(id));
    states, steps := Extend(states, steps, Track(1));
  }

  lemma EraseOf(s: Service, id: string, r: nat)
    requires id in s.store.mapped && id in s.store.objects && s.due == {} && r in s.requests && s.requests[r].phase.Begun?
    ensures Enabled(s, StoreStep(Sessions.EraseStep(id)))
    ensures var s1 := Apply(s, StoreStep(Sessions.EraseStep(id)));
      && id !in s1.store.mapped && id in s1.store.objects && s1.store.objects[id] == s.store.objects[id]
      && s1.requests == s.requests && s1.active == s.active
      && Enabled(s1, CancelDeleted(id))
      && var s2 := Apply(s1, CancelDeleted(id));
         && s2.store == s1.store && s2.requests == s.requests && s2.due == {}
         && Enabled(s2, Track(r))
         && var s3 := Apply(s2, Track(r));
            && s3.store == s1.store && s3.due == {}
            && r in s3.requests && s3.requests[r] == s.requests[r].(phase := Tracked)
  {
  }

  /** And no delete comes for such a session any more. */
  lemma {:induction false} NoFurtherDelete(states: seq<Service>, steps: seq<Step>, id: string, i: nat, j: nat)
    requires FullRun(states, steps) && i <= j < |states| && id in states[i].store.objects
    requires id !in states[i].store.mapped && id !in states[i].due
    ensures id in states[j].store.objects && id !in states[j].store.mapped && id !in states[j].due
    ensures j < |steps| ==> steps[j] != CancelDeleted(id)
  {
    hide Inv, Apply;
    if i < j {
      NoFurtherDelete(states, steps, id, i, j - 1);
      InvAt(states, steps, j - 1);
      StaysOut(states[j - 1], steps[j - 1], id);
      if id in states[j].due { DueAfter(states[j - 1], steps[j - 1], id); }
    }
  }

  /** The step is the successful first half of a delete of the session. */
  ghost predicate IsDelete(s: Service, step: Step, id: string) {
    step == StoreStep(Sessions.EraseStep(id)) && id in s.store.mapped
  }

  lemma DueExactly(s: Service, step: Step, id: string)
    requires Enabled(s, step)
    ensures id in Apply(s, step).due <==> (id in s.due && step != CancelDeleted(id)) || IsDelete(s, step, id)
    ensures step == CancelDeleted(id) ==> id in s.due
  {
    hide Sessions.Apply, Sessions.Enabled;
  }

  /** A delete that the store has made owes one look for a request to cancel, until it has taken it: in every run
      the look is due exactly if a delete of the session succeeded and none followed it so far. */
  lemma {:induction false} DeleteOwesOneLook(states: seq<Service>, steps: seq<Step>, id: string, n: nat)
    requires FullRun(states, steps) && n < |states|
    ensures id in states[n].due <==>
            exists i: nat | i < n && IsDelete(states[i], steps[i], id) :: forall k | i < k < n :: steps[k] != CancelDeleted(id)
    ensures n < |steps| && steps[n] == CancelDeleted(id) ==> id in states[n].due
  {
    hide Apply, Enabled, IsDelete;
    if n < |steps| { DueExactly(states[n], steps[n], id); }
    if n > 0 {
      DeleteOwesOneLook(states, steps, id, n - 1);
      DueExactly(states[n - 1], steps[n - 1], id);
    }
  }

  // ---------- the store below the service ----------

  lemma BegunRequests(s: Service, step: Step)
    requires OwnersOk(s) && Enabled(s, step)
    ensures s.requests.Keys <= Apply(s, step).requests.Keys
    ensures StoreStepOf(s, step).Some? && StoreStepOf(s, step).value.BeginStep? ==>
            var r := StoreStepOf(s, step).value.request;
            r !in s.requests && r in Apply(s, step).requests
  {
    hide Sessions.Apply, Sessions.Enabled, Sessions.Begin, Sessions.Commit, Sessions.Release, OwnersOk, PublicId, MadeDue;
    if step.Begin? { DrawnIsNew(s, step.r); }
  }

  lemma ExtendStore(stores: seq<Sessions.Store>, stSteps: seq<Sessions.Step>, st: Sessions.Step)
    requires SessionTheorems.FullRun(stores, stSteps) && SessionTheorems.UniqueRequests(stSteps)
    requires Sessions.Enabled(stores[|stSteps|], st)
    requires st.BeginStep? ==> forall i | 0 <= i < |stSteps| && stSteps[i].BeginStep? :: stSteps[i].request != st.request
    ensures SessionTheorems.FullRun(stores + [Sessions.Apply(stores[|stSteps|], st)], stSteps + [st])
    ensures SessionTheorems.UniqueRequests(stSteps + [st])
  {
    hide Sessions.Apply, Sessions.Enabled;
  }

  /** Every run of the service is a run of the store, in which no two begins share a request id; so all that
      was proved of such runs holds of the sessions of the service. */
  lemma {:induction false} ServiceRunIsStoreRun(states: seq<Service>, steps: seq<Step>)
    returns (stores: seq<Sessions.Store>, stSteps: seq<Sessions.Step>)
    requires FullRun(states, steps)
    ensures SessionTheorems.FullRun(stores, stSteps) && SessionTheorems.UniqueRequests(stSteps)
    ensures stores[0] == states[0].store && stores[|stSteps|] == states[|steps|].store
    ensures forall i | 0 <= i < |stSteps| && stSteps[i].BeginStep? :: stSteps[i].request in states[|steps|].requests
    decreases |steps|
  {
    hide Inv, Apply, Enabled, Sessions.Apply, Sessions.Enabled;
    if steps == [] {
      stores, stSteps := [states[0].store], [];
    } else {
      var n := |steps| - 1;
      var s, step := states[n], steps[n];
      stores, stSteps := ServiceRunIsStoreRun(states[..n + 1], steps[..n]);
      InvAt(states, steps, n);
      OwnersOfInv(s);
      StoreFollows(s, step);
      BegunRequests(s, step);
      if StoreStepOf(s, step).Some? {
        var st := StoreStepOf(s, step).value;
        ExtendStore(stores, stSteps, st);
        stores, stSteps := stores + [Sessions.Apply(s.store, st)], stSteps + [st];
      }
    }
  }

  lemma OwnersOfInv(s: Service)
    requires Inv(s)
    ensures OwnersOk(s)
  {
  }

  /** In every run of the service, a session's log is made of turns of different requests, each of which began
      on the session and still owned it, and its history is the window over them. */
  lemma TurnsOfTheService(states: seq<Service>, steps: seq<Step>, id: string)
    returns (stores: seq<Sessions.Store>, stSteps: seq<Sessions.Step>)
    requires FullRun(states, steps) && id in states[|steps|].store.objects
    ensures SessionTheorems.FullRun(stores, stSteps) && stores[|stSteps|] == states[|steps|].store
    ensures var x := states[|steps|].store.objects[id];
      && x.log == SessionTheorems.CommittedTurns(stores, stSteps, id, |stSteps|)
      && x.history == WindowedHistory(x.prefix, x.log, states[|steps|].store.config.maxHistory)
    ensures forall i, j | 0 <= i < j < |stSteps| && SessionTheorems.IsTurn(stores[i], stSteps[i], id)
                          && SessionTheorems.IsTurn(stores[j], stSteps[j], id) ::
      stSteps[i].request != stSteps[j].request
    ensures forall j | 0 <= j < |stSteps| && SessionTheorems.IsTurn(stores[j], stSteps[j], id) ::
      exists i: nat :: SessionTheorems.OwnsAt(stores, stSteps, id, i, j) && stSteps[i].request == stSteps[j].request
  {
    stores, stSteps := ServiceRunIsStoreRun(states, steps);
    hide FullRun;
    SessionTheorems.LogIsCommittedTurns(stores, stSteps, id, |stSteps|);
    SessionTheorems.HistoryIsWindowOfCommits(stores, stSteps, id, |stSteps|);
    hide SessionTheorems.CommittedTurns;
    forall i, j | 0 <= i < j < |stSteps| && SessionTheorems.IsTurn(stores[i], stSteps[i], id)
                  && SessionTheorems.IsTurn(stores[j], stSteps[j], id)
      ensures stSteps[i].request != stSteps[j].request
    {
      SessionTheorems.OneTurnPerRequest(stores, stSteps, id, i, j);
    }
    forall j | 0 <= j < |stSteps| && SessionTheorems.IsTurn(stores[j], stSteps[j], id)
      ensures exists i: nat :: SessionTheorems.OwnsAt(stores, stSteps, id, i, j) && stSteps[i].request == stSteps[j].request
    {
      var i := SessionTheorems.FinishFollowsBegin(stores, stSteps, id, stSteps[j].request, j);
      assert SessionTheorems.OwnsAt(stores, stSteps, id, i, j);
    }
  }
}
