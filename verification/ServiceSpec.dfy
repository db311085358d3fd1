/** The life of session requests in the chat service, composed with the session store: tracking ids,
    nested once-only leases, and the table of cancellers, which they share with the requests outside the
    sessions. A step is one critical section; the steps of
    one request happen in program order, those of different requests interleave freely. */
module ServiceSpec {
  import opened Wrappers
  import opened Messages
  import opened History
  import Sessions = SessionSpec
  import SessionTheorems
  import Decimal

  /** Where the request's thread is. The on_result observer runs at most once, before the lease; the
      outer lease unregisters the request and then fires the inner one, which untracks and releases.
      A lease that fires again (explicitly or from its destructor) does nothing. */
  datatype Phase =
    | Begun           // begin_request succeeded, the agent was started
    | Tracked         // active_session_requests_ has an entry
    | Outstanding     // the canceller is registered, the pending request was handed out
    | Observing       // on_result: untracked
    | Committing      // on_result: commit found the session
    | Observed        // on_result is done
    | OuterFired      // outer lease: unregistered
    | InnerFired      // inner lease: untracked
    | Releasing       // inner lease: release found the session
    | Finished

  /** `gaveBack` records that the commit of the request found the session and gave it back. */
  datatype Request = Request(sessionId: string, user: Message, agentId: nat, publicId: string, phase: Phase,
                             gaveBack: bool)

  /** A completion, extraction or agent chat outside the sessions: it only has an entry among the cancellers,
      until its lease fires. */
  datatype Plain = Plain(agentId: nat, publicId: string, registered: bool)

  /** `requests` are all session requests that ever began and `plain` all others, by the number they drew;
      `drawn` are the numbers drawn by a request that has not begun; `due` are the sessions whose delete has
      succeeded in the store and has still to cancel. */
  datatype Service = Service(
    store: Sessions.Store, requests: map<nat, Request>, plain: map<nat, Plain>,
    nextTracking: nat, drawn: set<nat>, due: set<string>,
    active: map<string, nat>, cancellers: map<string, nat>)

  function NewService(config: Sessions.Config, basePrompt: string): Service {
    Service(Sessions.NewStore(config, basePrompt), map[], map[], 1, {}, {}, map[], map[])
  }

  /** Completions, agent chats and extractions, in sessions or not, draw their number from the same counter. */
  function PublicId(n: nat, extraction: bool): string {
    (if extraction then "extract-" else "chatcmpl-") + Decimal.Digits(n)
  }

  // ---------- steps ----------

  datatype Step =
    | StoreStep(step: Sessions.Step)                        // create, visit, delete, stop
    | Draw                                                  // a tracking id; the begin may fail
    | Begin(r: nat, sessionId: string, user: Message, agentId: nat, extraction: bool, now: int)
    | Track(r: nat)
    | Register(r: nat)
    | Observe(r: nat)
    | FindForCommit(r: nat)
    | Commit(r: nat, reply: Option<string>, kept: seq<Message>, now: int)
    | FireOuterLease(r: nat)
    | FireInnerLease(r: nat)
    | FindForRelease(r: nat)
    | Release(r: nat, now: int)
    | CancelDeleted(sessionId: string)                      // delete_session, behind the store's delete
    | BeginPlain(r: nat, agentId: nat, extraction: bool)    // a request outside the sessions registers
    | FirePlainLease(r: nat)

  ghost predicate Enabled(s: Service, step: Step) {
    match step
    case StoreStep(st) =>
      !st.BeginStep? && !st.CommitStep? && !st.ReleaseStep? && Sessions.Enabled(s.store, st)
    case Draw => true
    case Begin(r, id, user, _, _, _) =>
      && r in s.drawn && id in s.store.objects && user.role == User
      && !s.store.objects[id].closed && s.store.objects[id].active.None?
    case Track(r) => r in s.requests && s.requests[r].phase.Begun?
    case Register(r) => r in s.requests && s.requests[r].phase.Tracked?
    case Observe(r) => r in s.requests && s.requests[r].phase.Outstanding?
    case FindForCommit(r) => r in s.requests && s.requests[r].phase.Observing?
    case Commit(r, reply, kept, now) =>
      && r in s.requests && s.requests[r].phase.Committing?
      && Sessions.Enabled(s.store, CommitOf(s, r, reply, kept, now))
    case FireOuterLease(r) =>
      r in s.requests && !(s.requests[r].phase.Begun? || s.requests[r].phase.Tracked?
                           || s.requests[r].phase.Observing? || s.requests[r].phase.Committing?)
    case FireInnerLease(r) => r in s.requests && s.requests[r].phase.OuterFired?
    case FindForRelease(r) => r in s.requests && s.requests[r].phase.InnerFired?
    case Release(r, _) => r in s.requests && s.requests[r].phase.Releasing?
                          && s.requests[r].sessionId in s.store.objects
    case CancelDeleted(id) => id in s.due
    case BeginPlain(r, _, _) => r in s.drawn
    case FirePlainLease(r) => r in s.plain
  }

  function CommitOf(s: Service, r: nat, reply: Option<string>, kept: seq<Message>, now: int): Sessions.Step
    requires r in s.requests
  {
    Sessions.CommitStep(s.requests[r].sessionId, r, s.requests[r].user, reply, kept, now)
  }

  function Moved(s: Service, r: nat, phase: Phase): Service
    requires r in s.requests
  {
    s.(requests := s.requests[r := s.requests[r].(phase := phase)])
  }

  /** untrack_session_request: it erases by session, whoever's entry it is. */
  function Untracked(s: Service, sessionId: string): Service {
    s.(active := s.active - {sessionId})
  }

  function BeginRequest(s: Service, r: nat, id: string, user: Message, agentId: nat, extraction: bool, now: int): Service
    requires id in s.store.objects
  {
    s.(store := Sessions.Begin(s.store, id, r, user, now).0,
       requests := s.requests[r := Request(id, user, agentId, PublicId(r, extraction), Begun, false)],
       drawn := s.drawn - {r})
  }

  /** A commit: the request is marked as having given its session back. */
  function Returned(s: Service, r: nat): Service
    requires r in s.requests
  {
    s.(requests := s.requests[r := s.requests[r].(phase := Observed, gaveBack := true)])
  }

  /** The sessions whose cancelling a store step makes due. */
  function MadeDue(s: Service, st: Sessions.Step): set<string> {
    if st.EraseStep? && st.id in s.store.mapped then {st.id} else {}
  }

  ghost function Apply(s: Service, step: Step): Service
    requires Enabled(s, step)
  {
    match step
    case StoreStep(st) => s.(store := Sessions.Apply(s.store, st), due := s.due + MadeDue(s, st))
    case Draw => s.(nextTracking := s.nextTracking + 1, drawn := s.drawn + {s.nextTracking})
    case Begin(r, id, user, agentId, extraction, now) => BeginRequest(s, r, id, user, agentId, extraction, now)
    case Track(r) => Moved(s, r, Tracked).(active := s.active[s.requests[r].sessionId := s.requests[r].agentId])
    case Register(r) => Moved(s, r, Outstanding).(cancellers := s.cancellers[s.requests[r].publicId := s.requests[r].agentId])
    case Observe(r) => Untracked(Moved(s, r, Observing), s.requests[r].sessionId)
    case FindForCommit(r) =>
      Moved(s, r, if s.requests[r].sessionId in s.store.mapped then Committing else Observed)
    case Commit(r, reply, kept, now) =>
      Returned(s, r).(store := Sessions.Apply(s.store, CommitOf(s, r, reply, kept, now)))
    case FireOuterLease(r) =>
      if s.requests[r].phase.Outstanding? || s.requests[r].phase.Observed? then
        Moved(s, r, OuterFired).(cancellers := s.cancellers - {s.requests[r].publicId})
      else s
    case FireInnerLease(r) => Untracked(Moved(s, r, InnerFired), s.requests[r].sessionId)
    case FindForRelease(r) =>
      Moved(s, r, if s.requests[r].sessionId in s.store.mapped then Releasing else Finished)
    case Release(r, now) =>
      Moved(s, r, Finished).(store := Sessions.Release(s.store, s.requests[r].sessionId, r, now))
    case CancelDeleted(id) => Untracked(s, id).(due := s.due - {id})
    case BeginPlain(r, agentId, extraction) =>
      s.(plain := s.plain[r := Plain(agentId, PublicId(r, extraction), true)], drawn := s.drawn - {r},
         cancellers := s.cancellers[PublicId(r, extraction) := agentId])
    case FirePlainLease(r) =>
      if s.plain[r].registered then
        s.(plain := s.plain[r := s.plain[r].(registered := false)], cancellers := s.cancellers - {s.plain[r].publicId})
      else s
  }

  /** The step of the store behind a step of the service, if there is one. */
  function StoreStepOf(s: Service, step: Step): Option<Sessions.Step> {
    match step
    case StoreStep(st) => Some(st)
    case Begin(r, id, user, _, _, now) => Some(Sessions.BeginStep(id, r, user, now))
    case Commit(r, reply, kept, now) => if r in s.requests then Some(CommitOf(s, r, reply, kept, now)) else None
    case Release(r, now) => if r in s.requests then Some(Sessions.ReleaseStep(s.requests[r].sessionId, r, now)) else None
    case _ => None
  }

  lemma StoreFollows(s: Service, step: Step)
    requires Enabled(s, step)
    ensures match StoreStepOf(s, step)
            case None => Apply(s, step).store == s.store
            case Some(st) => Sessions.Enabled(s.store, st) && Apply(s, step).store == Sessions.Apply(s.store, st)
  {
  }

  /** What a step makes of the two tables. */
  lemma TablesAfter(s: Service, step: Step)
    requires Enabled(s, step) && !step.StoreStep? && !step.Draw? && !step.Begin?
    ensures var s' := Apply(s, step);
      match step
      case Track(r) =>
        s'.active == s.active[s.requests[r].sessionId := s.requests[r].agentId] && s'.cancellers == s.cancellers
      case Register(r) =>
        s'.active == s.active && s'.cancellers == s.cancellers[s.requests[r].publicId := s.requests[r].agentId]
      case FireOuterLease(r) =>
        && s'.active == s.active
        && (s.requests[r].phase.Outstanding? || s.requests[r].phase.Observed? ==>
              s'.cancellers == s.cancellers - {s.requests[r].publicId})
      case Observe(r) => s'.active == s.active - {s.requests[r].sessionId} && s'.cancellers == s.cancellers
      case FireInnerLease(r) => s'.active == s.active - {s.requests[r].sessionId} && s'.cancellers == s.cancellers
      case CancelDeleted(id) => s'.active == s.active - {id} && s'.cancellers == s.cancellers
      case BeginPlain(r, agentId, extraction) =>
        s'.active == s.active && s'.cancellers == s.cancellers[PublicId(r, extraction) := agentId]
      case FirePlainLease(r) =>
        s'.active == s.active && (s.plain[r].registered ==> s'.cancellers == s.cancellers - {s.plain[r].publicId})
      case _ => s'.active == s.active && s'.cancellers == s.cancellers
  {
    hide Sessions.Apply, Sessions.Enabled;
  }

  ghost predicate IsRun(states: seq<Service>, steps: seq<Step>) {
    && |states| == |steps| + 1
    && forall i | 0 <= i < |steps| :: Enabled(states[i], steps[i]) && states[i + 1] == Apply(states[i], steps[i])
  }

  // ---------- invariants ----------

  /** The canceller is registered and the outer lease has not fired. */
  predicate IsOutstanding(p: Phase) {
    p.Outstanding? || p.Observing? || p.Committing? || p.Observed?
  }

  /** The request has not given its session back. */
  predicate MustOwn(p: Phase) {
    p.Begun? || p.Tracked? || p.Outstanding? || p.Observing? || p.Committing?
  }

  /** The request has its session: it has neither committed nor run its release. */
  predicate Holds(q: Request) {
    !q.gaveBack && !q.phase.Finished?
  }

  /** What is known of the request `r` by itself. */
  ghost predicate RequestOk(s: Service, r: nat)
    requires r in s.requests
  {
    var q := s.requests[r];
    && r < s.nextTracking && r !in s.drawn
    && q.sessionId in s.store.objects && q.user.role == User
    && (q.publicId == PublicId(r, false) || q.publicId == PublicId(r, true))
    && (MustOwn(q.phase) ==> !q.gaveBack)
    && (Holds(q) ==> s.store.objects[q.sessionId].active == Some(r))
  }

  ghost predicate PlainOk(s: Service, r: nat)
    requires r in s.plain
  {
    && r < s.nextTracking && r !in s.drawn && r !in s.requests
    && (s.plain[r].publicId == PublicId(r, false) || s.plain[r].publicId == PublicId(r, true))
  }

  /** Numbers are below the counter and used once; a request that holds its session owns it; and whoever a
      session is busy with is a request of that session, which holds it as long as the map does. */
  ghost predicate OwnersOk(s: Service) {
    && (forall r | r in s.drawn :: r < s.nextTracking)
    && (forall r | r in s.plain :: PlainOk(s, r))
    && (forall r | r in s.requests :: RequestOk(s, r))
    && (forall id | id in s.store.objects && s.store.objects[id].active.Some? ::
          var r := s.store.objects[id].active.value;
          && r in s.requests && s.requests[r].sessionId == id
          && (id in s.store.mapped ==> Holds(s.requests[r])))
  }

  /** The request `r`, in a session or not, was handed out under this public id and not unregistered; its
      canceller stops this agent call. */
  predicate IsEntry(s: Service, r: nat, publicId: string, agentId: nat) {
    SessionEntry(s, r, publicId, agentId) || PlainEntry(s, r, publicId, agentId)
  }

  predicate SessionEntry(s: Service, r: nat, publicId: string, agentId: nat) {
    && r in s.requests && IsOutstanding(s.requests[r].phase)
    && s.requests[r].publicId == publicId && s.requests[r].agentId == agentId
  }

  predicate PlainEntry(s: Service, r: nat, publicId: string, agentId: nat) {
    r in s.plain && s.plain[r].registered && s.plain[r].publicId == publicId && s.plain[r].agentId == agentId
  }

  /** The table of cancellers holds exactly the entries of those requests. */
  ghost predicate CancellersOk(s: Service) {
    && (forall r, id, a | IsEntry(s, r, id, a) :: id in s.cancellers && s.cancellers[id] == a)
    && (forall id | id in s.cancellers :: exists r :: IsEntry(s, r, id, s.cancellers[id]))
  }

  /** Tracked, outstanding, or with the inner lease still to fire and no observer run. */
  predicate MayBeFound(p: Phase) {
    p.Tracked? || p.Outstanding? || p.OuterFired?
  }

  /** The entry of a session in active_session_requests_ is that of the request the session is busy with, which
      has been tracked and neither observed nor released. */
  ghost predicate ActiveEntryOk(s: Service, id: string)
    requires id in s.active
  {
    && id in s.store.objects && s.store.objects[id].active.Some?
    && var r := s.store.objects[id].active.value;
       && r in s.requests && s.requests[r].sessionId == id && s.requests[r].agentId == s.active[id]
       && MayBeFound(s.requests[r].phase)
  }

  ghost predicate ActiveOk(s: Service) {
    forall id | id in s.active :: ActiveEntryOk(s, id)
  }

  /** A delete is due only for a session that has left the map. */
  ghost predicate DueOk(s: Service) {
    forall id | id in s.due :: id in s.store.objects && id !in s.store.mapped
  }

  ghost predicate Inv(s: Service) {
    Sessions.Inv(s.store) && OwnersOk(s) && CancellersOk(s) && ActiveOk(s) && DueOk(s)
  }

  // ---------- public ids ----------

  lemma PublicIdInjective(m: nat, e: bool, n: nat, f: bool)
    requires PublicId(m, e) == PublicId(n, f)
    ensures m == n && e == f
  {
    var a, b := PublicId(m, e), PublicId(n, f);
    assert a[0] == b[0];
    assert a[|if e then "extract-" else "chatcmpl-"|..] == Decimal.Digits(m);
    assert b[|if f then "extract-" else "chatcmpl-"|..] == Decimal.Digits(n);
    Decimal.DigitsInjective(m, n);
  }

  /** The text of a public id: the kind of the request and its number in decimal digits. */
  lemma PublicIdText(n: nat, extraction: bool)
    ensures var id := PublicId(n, extraction);
      if extraction then id[..8] == "extract-" && Decimal.Number(id[8..]) == n
      else id[..9] == "chatcmpl-" && Decimal.Number(id[9..]) == n
  {
    Decimal.DigitsAreTheNumber(n);
    var lead := if extraction then "extract-" else "chatcmpl-";
    assert PublicId(n, extraction)[|lead|..] == Decimal.Digits(n);
  }

  lemma EntryId(s: Service, r: nat, publicId: string, agentId: nat)
    requires OwnersOk(s) && IsEntry(s, r, publicId, agentId)
    ensures publicId == PublicId(r, false) || publicId == PublicId(r, true)
  {
    if r in s.requests { assert RequestOk(s, r); }
    if r in s.plain { assert PlainOk(s, r); }
  }

  /** Entries of different requests have different ids. */
  lemma EntriesDiffer(s: Service, q: nat, id: string, a: nat, r: nat, extraction: bool)
    requires OwnersOk(s) && IsEntry(s, q, id, a) && q != r
    ensures id != PublicId(r, extraction)
  {
    EntryId(s, q, id, a);
    forall e ensures PublicId(q, e) != PublicId(r, extraction) {
      if PublicId(q, e) == PublicId(r, extraction) { PublicIdInjective(q, e, r, extraction); }
    }
  }

  // ---------- every step keeps them ----------

  lemma NewServiceInv(config: Sessions.Config, basePrompt: string)
    ensures Inv(NewService(config, basePrompt))
  {
    Sessions.NewStoreInv(config, basePrompt);
  }

  lemma PlainsStay(s: Service, s': Service)
    requires forall r | r in s.plain :: PlainOk(s, r)
    requires s'.plain == s.plain && s'.requests.Keys == s.requests.Keys
    requires s'.nextTracking >= s.nextTracking && forall r | r in s'.drawn :: r in s.drawn || r >= s.nextTracking
    ensures forall r | r in s'.plain :: PlainOk(s', r)
  {
    forall r | r in s'.plain ensures PlainOk(s', r) {
      assert PlainOk(s, r);
    }
  }

  lemma MovedRequests(s: Service, r: nat, phase: Phase)
    requires (forall q | q in s.requests :: RequestOk(s, q)) && r in s.requests
    requires MustOwn(phase) ==> MustOwn(s.requests[r].phase)
    requires s.requests[r].phase.Finished? ==> phase.Finished?
    ensures forall q | q in Moved(s, r, phase).requests :: RequestOk(Moved(s, r, phase), q)
  {
    forall q | q in Moved(s, r, phase).requests ensures RequestOk(Moved(s, r, phase), q) {
      assert RequestOk(s, q) && RequestOk(s, r);
    }
  }

  /** Steps that only move a request along. */
  lemma MovedOwners(s: Service, r: nat, phase: Phase)
    requires OwnersOk(s) && r in s.requests
    requires MustOwn(phase) ==> MustOwn(s.requests[r].phase)
    requires s.requests[r].phase.Finished? ==> phase.Finished?
    requires phase.Finished? ==> s.requests[r].sessionId !in s.store.mapped
    ensures OwnersOk(Moved(s, r, phase))
  {
    hide RequestOk, PlainOk, MustOwn;
    MovedRequests(s, r, phase);
    PlainsStay(s, Moved(s, r, phase));
  }

  lemma DrawnIsNew(s: Service, r: nat)
    requires OwnersOk(s) && r in s.drawn
    ensures r !in s.requests && r !in s.plain
  {
    assert r in s.requests ==> RequestOk(s, r);
    assert r in s.plain ==> PlainOk(s, r);
  }

  /** In `s'` the request `r` has just begun on the idle session. */
  ghost predicate JustBegun(s: Service, s': Service, r: nat, id: string) {
    && r in s.drawn && r in s'.requests && id in s.store.objects && s.store.objects[id].active.None?
    && s' == s.(store := s'.store, requests := s.requests[r := s'.requests[r]], drawn := s.drawn - {r})
    && s'.store.mapped == s.store.mapped && s'.store.objects.Keys == s.store.objects.Keys
    && (forall i | i in s.store.objects ::
          s'.store.objects[i].active == if i == id then Some(r) else s.store.objects[i].active)
    && var q := s'.requests[r];
       && q.sessionId == id && q.user.role == User && q.phase.Begun? && !q.gaveBack
       && (q.publicId == PublicId(r, false) || q.publicId == PublicId(r, true))
  }

  lemma BeginOwners(s: Service, r: nat, id: string, user: Message, agentId: nat, extraction: bool, now: int)
    requires OwnersOk(s) && Enabled(s, Begin(r, id, user, agentId, extraction, now))
    ensures OwnersOk(BeginRequest(s, r, id, user, agentId, extraction, now))
  {
    hide OwnersOk, PublicId, Enabled, JustBegun;
    BeginIs(s, r, id, user, agentId, extraction, now);
    DrawnIsNew(s, r);
    BegunOwners(s, BeginRequest(s, r, id, user, agentId, extraction, now), r, id);
  }

  lemma BeginIs(s: Service, r: nat, id: string, user: Message, agentId: nat, extraction: bool, now: int)
    requires Enabled(s, Begin(r, id, user, agentId, extraction, now))
    ensures r in s.drawn && JustBegun(s, BeginRequest(s, r, id, user, agentId, extraction, now), r, id)
  {
  }

  lemma BegunOthers(s: Service, s': Service, r: nat, id: string)
    requires OwnersOk(s) && JustBegun(s, s', r, id) && r !in s.requests && r !in s.plain
    ensures forall q | q in s'.requests :: RequestOk(s', q)
    ensures forall q | q in s'.plain :: PlainOk(s', q)
  {
    hide PublicId;
    forall q | q in s'.requests ensures RequestOk(s', q) {
      if q != r { assert RequestOk(s, q); }
    }
    forall q | q in s'.plain ensures PlainOk(s', q) {
      assert PlainOk(s, q);
    }
  }

  lemma BegunOwners(s: Service, s': Service, r: nat, id: string)
    requires OwnersOk(s) && JustBegun(s, s', r, id) && r !in s.requests && r !in s.plain
    ensures OwnersOk(s')
  {
    hide PublicId, RequestOk, PlainOk;
    BegunOthers(s, s', r, id);
  }

  /** A change of the store that takes no owner away, brings no session back into the map and makes only
      idle sessions. */
  lemma StoreChangeOwners(s: Service, s': Service)
    requires OwnersOk(s) && s'.requests == s.requests && s'.nextTracking == s.nextTracking && s'.drawn == s.drawn
    requires s'.plain == s.plain && s.store.objects.Keys <= s'.store.objects.Keys
    requires forall id | id in s'.store.objects ::
      if id in s.store.objects
      then s'.store.objects[id].active == s.store.objects[id].active && (id in s'.store.mapped ==> id in s.store.mapped)
      else s'.store.objects[id].active.None?
    ensures OwnersOk(s')
  {
    forall r | r in s'.requests ensures RequestOk(s', r) {
      assert RequestOk(s, r);
    }
    PlainsStay(s, s');
  }

  /** A store step that is no begin, commit or release leaves every owner in place. */
  lemma StoreStepOwners(s: Service, st: Sessions.Step)
    requires Inv(s) && Enabled(s, StoreStep(st))
    ensures OwnersOk(Apply(s, StoreStep(st)))
  {
    var s' := Apply(s, StoreStep(st));
    forall id | id in s.store.objects || id in s'.store.objects
      ensures id in s.store.objects ==> id in s'.store.objects
      ensures id in s.store.objects ==> s'.store.objects[id].active == s.store.objects[id].active
      ensures id in s.store.objects && id in s'.store.mapped ==> id in s.store.mapped
      ensures id !in s.store.objects ==> s'.store.objects[id].active.None?
    {
      if id in s.store.objects {
        SessionTheorems.StepOnSession(s.store, st, id);
        SessionTheorems.StepOnMap(s.store, st, id);
      } else {
        SessionTheorems.NewObject(s.store, st, id);
      }
    }
    hide Sessions.Inv, OwnersOk, CancellersOk, ActiveOk, Sessions.Apply, Sessions.Enabled;
    StoreChangeOwners(s, s');
  }

  /** The owner gives its session back: by its commit or by its release. */
  lemma GiveBackOwners(s: Service, r: nat, given: Request, store: Sessions.Store)
    requires OwnersOk(s) && r in s.requests && !MustOwn(given.phase) && !Holds(given)
    requires given == s.requests[r].(phase := given.phase, gaveBack := given.gaveBack)
    requires store.mapped == s.store.mapped && store.objects.Keys == s.store.objects.Keys
    requires forall id | id in store.objects ::
      store.objects[id].active ==
        if id == s.requests[r].sessionId && s.store.objects[id].active == Some(r) then None
        else s.store.objects[id].active
    ensures OwnersOk(s.(requests := s.requests[r := given], store := store))
  {
    var s' := s.(requests := s.requests[r := given], store := store);
    hide RequestOk, PlainOk, MustOwn;
    forall q | q in s'.requests ensures RequestOk(s', q) {
      GiveBackOne(s, r, given, store, q);
    }
    PlainsStay(s, s');
    forall id | id in store.objects && store.objects[id].active.Some?
      ensures var q := store.objects[id].active.value;
        && q in s'.requests && s'.requests[q].sessionId == id && (id in store.mapped ==> Holds(s'.requests[q]))
    {
      var q := s.store.objects[id].active.value;
      assert q in s.requests && s.requests[q].sessionId == id;
    }
  }

  lemma GiveBackOne(s: Service, r: nat, given: Request, store: Sessions.Store, q: nat)
    requires r in s.requests && q in s.requests && RequestOk(s, r) && RequestOk(s, q)
    requires !MustOwn(given.phase) && !Holds(given)
    requires given == s.requests[r].(phase := given.phase, gaveBack := given.gaveBack)
    requires store.mapped == s.store.mapped && store.objects.Keys == s.store.objects.Keys
    requires forall id | id in store.objects ::
      store.objects[id].active ==
        if id == s.requests[r].sessionId && s.store.objects[id].active == Some(r) then None
        else s.store.objects[id].active
    ensures RequestOk(s.(requests := s.requests[r := given], store := store), q)
  {
  }

  lemma CommitOnOwners(store: Sessions.Store, id: string, r: nat, user: Message, reply: Option<string>,
                       kept: seq<Message>, now: int)
    requires id in store.objects
    ensures var store' := Sessions.Commit(store, id, r, user, reply, kept, now);
      && store'.mapped == store.mapped && store'.objects.Keys == store.objects.Keys
      && forall i | i in store'.objects :: store'.objects[i].active ==
           if i == id && store.objects[i].active == Some(r) then None else store.objects[i].active
  {
  }

  lemma CommitIs(s: Service, r: nat, reply: Option<string>, kept: seq<Message>, now: int)
    requires Enabled(s, Commit(r, reply, kept, now))
    ensures r in s.requests && s.requests[r].sessionId in s.store.objects
    ensures var q := s.requests[r];
      Apply(s, Commit(r, reply, kept, now)) ==
      s.(requests := s.requests[r := q.(phase := Observed, gaveBack := true)],
         store := Sessions.Commit(s.store, q.sessionId, r, q.user, reply, kept, now))
  {
    hide Sessions.Commit, IsTrimmed;
  }

  lemma CommitOwners(s: Service, r: nat, reply: Option<string>, kept: seq<Message>, now: int)
    requires OwnersOk(s) && Enabled(s, Commit(r, reply, kept, now))
    ensures OwnersOk(Apply(s, Commit(r, reply, kept, now)))
  {
    hide OwnersOk, Enabled, Apply, Sessions.Commit;
    CommitIs(s, r, reply, kept, now);
    var q := s.requests[r];
    CommitOnOwners(s.store, q.sessionId, r, q.user, reply, kept, now);
    GiveBackOwners(s, r, q.(phase := Observed, gaveBack := true),
                   Sessions.Commit(s.store, q.sessionId, r, q.user, reply, kept, now));
  }

  lemma ReleaseOnOwners(store: Sessions.Store, id: string, r: nat, now: int)
    requires id in store.objects
    ensures var store' := Sessions.Release(store, id, r, now);
      && store'.mapped == store.mapped && store'.objects.Keys == store.objects.Keys
      && forall i | i in store'.objects :: store'.objects[i].active ==
           if i == id && store.objects[i].active == Some(r) then None else store.objects[i].active
  {
  }

  lemma ReleaseIs(s: Service, r: nat, now: int)
    requires Enabled(s, Release(r, now))
    ensures r in s.requests && s.requests[r].sessionId in s.store.objects
    ensures Apply(s, Release(r, now)) ==
      s.(requests := s.requests[r := s.requests[r].(phase := Finished)],
         store := Sessions.Release(s.store, s.requests[r].sessionId, r, now))
  {
    hide Sessions.Release;
  }

  lemma ReleaseOwners(s: Service, r: nat, now: int)
    requires OwnersOk(s) && Enabled(s, Release(r, now))
    ensures OwnersOk(Apply(s, Release(r, now)))
  {
    hide OwnersOk, Enabled, Apply, Sessions.Release;
    ReleaseIs(s, r, now);
    var q := s.requests[r];
    ReleaseOnOwners(s.store, q.sessionId, r, now);
    GiveBackOwners(s, r, q.(phase := Finished), Sessions.Release(s.store, q.sessionId, r, now));
  }

  lemma StoreKeepsInv(s: Service, step: Step)
    requires Inv(s) && Enabled(s, step)
    ensures Sessions.Inv(Apply(s, step).store)
  {
    hide OwnersOk;
    hide CancellersOk;
    hide ActiveOk;
    match step
    case StoreStep(st) => Sessions.StepKeepsInv(s.store, st);
    case Begin(r, id, user, _, _, now) => Sessions.BeginKeepsInv(s.store, id, r, user, now);
    case Commit(r, reply, kept, now) => Sessions.StepKeepsInv(s.store, CommitOf(s, r, reply, kept, now));
    case Release(r, now) => Sessions.ReleaseKeepsInv(s.store, s.requests[r].sessionId, r, now);
    case _ =>
  }

  lemma OwnersIgnoreTables(s: Service, s': Service)
    requires OwnersOk(s) && s' == s.(active := s'.active, cancellers := s'.cancellers, due := s'.due)
    ensures OwnersOk(s')
  {
    forall r | r in s'.requests ensures RequestOk(s', r) {
      assert RequestOk(s, r);
    }
    PlainsStay(s, s');
  }

  /** The phase a step that only moves a request along moves it to. */
  ghost predicate Moves(s: Service, step: Step, r: nat, phase: Phase)
    requires Enabled(s, step)
  {
    && r in s.requests
    && Apply(s, step) == Moved(s, r, phase).(active := Apply(s, step).active, cancellers := Apply(s, step).cancellers)
  }

  lemma MovingOwners(s: Service, step: Step, r: nat, phase: Phase)
    requires OwnersOk(s) && Enabled(s, step) && Moves(s, step, r, phase)
    requires MustOwn(phase) ==> MustOwn(s.requests[r].phase)
    requires s.requests[r].phase.Finished? ==> phase.Finished?
    requires phase.Finished? ==> s.requests[r].sessionId !in s.store.mapped
    ensures OwnersOk(Apply(s, step))
  {
    hide Apply;
    hide Enabled;
    MovedOwners(s, r, phase);
    OwnersIgnoreTables(Moved(s, r, phase), Apply(s, step));
  }

  lemma OwnersKept(s: Service, step: Step)
    requires Inv(s) && Enabled(s, step)
    ensures OwnersOk(Apply(s, step))
  {
    hide Sessions.Inv;
    hide OwnersOk;
    hide CancellersOk;
    hide ActiveOk;
    match step
    case StoreStep(st) => StoreStepOwners(s, st);
    case Draw => DrawOwners(s);
    case Begin(r, id, user, agentId, extraction, now) => BeginOwners(s, r, id, user, agentId, extraction, now);
    case Track(r) => MovingOwners(s, step, r, Tracked);
    case Register(r) => MovingOwners(s, step, r, Outstanding);
    case Observe(r) => MovingOwners(s, step, r, Observing);
    case FindForCommit(r) =>
      MovingOwners(s, step, r, if s.requests[r].sessionId in s.store.mapped then Committing else Observed);
    case Commit(r, reply, kept, now) => CommitOwners(s, r, reply, kept, now);
    case FireOuterLease(r) =>
      if s.requests[r].phase.Outstanding? || s.requests[r].phase.Observed? { MovingOwners(s, step, r, OuterFired); }
    case FireInnerLease(r) => MovingOwners(s, step, r, InnerFired);
    case FindForRelease(r) =>
      MovingOwners(s, step, r, if s.requests[r].sessionId in s.store.mapped then Releasing else Finished);
    case Release(r, now) => ReleaseOwners(s, r, now);
    case CancelDeleted(id) => OwnersIgnoreTables(s, Apply(s, step));
    case BeginPlain(r, _, _) => BeginPlainOwners(s, Apply(s, step), r);
    case FirePlainLease(r) => if s.plain[r].registered { FirePlainOwners(s, Apply(s, step), r); }
  }

  lemma BeginPlainOwners(s: Service, s': Service, r: nat)
    requires OwnersOk(s) && r in s.drawn && r in s'.plain
    requires s' == s.(plain := s.plain[r := s'.plain[r]], drawn := s.drawn - {r}, cancellers := s'.cancellers)
    requires s'.plain[r].publicId == PublicId(r, false) || s'.plain[r].publicId == PublicId(r, true)
    ensures OwnersOk(s')
  {
    DrawnIsNew(s, r);
    forall q | q in s'.requests ensures RequestOk(s', q) {
      assert RequestOk(s, q);
    }
    forall q | q in s'.plain ensures PlainOk(s', q) {
      if q != r { assert PlainOk(s, q); }
    }
  }

  lemma FirePlainOwners(s: Service, s': Service, r: nat)
    requires OwnersOk(s) && r in s.plain
    requires s' == s.(plain := s.plain[r := s.plain[r].(registered := false)], cancellers := s'.cancellers)
    ensures OwnersOk(s')
  {
    assert PlainOk(s, r);
    forall q | q in s'.requests ensures RequestOk(s', q) {
      assert RequestOk(s, q);
    }
    forall q | q in s'.plain ensures PlainOk(s', q) {
      assert PlainOk(s, q);
    }
  }

  lemma DrawOwners(s: Service)
    requires OwnersOk(s)
    ensures OwnersOk(Apply(s, Draw))
  {
    var s' := Apply(s, Draw);
    forall r | r in s'.requests ensures RequestOk(s', r) {
      assert RequestOk(s, r);
    }
    PlainsStay(s, s');
  }

  // The entries of the canceller table.

  /** The step belongs to the session request `r`, which has begun. */
  predicate IsOwnStep(step: Step, r: nat) {
    && (step.Track? || step.Register? || step.Observe? || step.FindForCommit? || step.Commit? || step.FireOuterLease?
        || step.FireInnerLease? || step.FindForRelease? || step.Release?)
    && step.r == r
  }

  /** The steps of others leave a request alone. */
  lemma OtherStaysAsItIs(s: Service, step: Step, r: nat)
    requires Enabled(s, step) && r in s.requests && r !in s.drawn && !IsOwnStep(step, r)
    ensures r in Apply(s, step).requests && Apply(s, step).requests[r] == s.requests[r]
  {
    hide Sessions.Apply, Sessions.Enabled, Sessions.Begin, Sessions.Release, PublicId, MadeDue;
  }

  lemma SessionEntryAfter(s: Service, step: Step, r: nat, id: string, a: nat)
    requires Enabled(s, step) && (r in s.drawn ==> r !in s.requests)
    ensures SessionEntry(Apply(s, step), r, id, a) <==>
      match step
      case Register(q) => SessionEntry(s, r, id, a) || (r == q && id == s.requests[q].publicId && a == s.requests[q].agentId)
      case FireOuterLease(q) => SessionEntry(s, r, id, a) && r != q
      case _ => SessionEntry(s, r, id, a)
  {
    hide Sessions.Apply, Sessions.Enabled, Sessions.Begin, Sessions.Release, PublicId, MadeDue;
    if r in s.requests && !IsOwnStep(step, r) { OtherStaysAsItIs(s, step, r); }
  }

  lemma PlainEntryAfter(s: Service, step: Step, r: nat, id: string, a: nat)
    requires Enabled(s, step) && (r in s.drawn ==> r !in s.plain)
    ensures PlainEntry(Apply(s, step), r, id, a) <==>
      match step
      case BeginPlain(q, agentId, extraction) =>
        PlainEntry(s, r, id, a) || (r == q && id == PublicId(q, extraction) && a == agentId)
      case FirePlainLease(q) => PlainEntry(s, r, id, a) && r != q
      case _ => PlainEntry(s, r, id, a)
  {
    hide Sessions.Apply, Sessions.Enabled, Sessions.Begin, Sessions.Release, PublicId, MadeDue;
  }

  /** What a step makes of one entry. */
  lemma EntryAfter(s: Service, step: Step, r: nat, id: string, a: nat)
    requires OwnersOk(s) && Enabled(s, step)
    ensures IsEntry(Apply(s, step), r, id, a) <==>
      match step
      case Register(q) => IsEntry(s, r, id, a) || (r == q && id == s.requests[q].publicId && a == s.requests[q].agentId)
      case BeginPlain(q, agentId, extraction) =>
        IsEntry(s, r, id, a) || (r == q && id == PublicId(q, extraction) && a == agentId)
      case FireOuterLease(q) => IsEntry(s, r, id, a) && r != q
      case FirePlainLease(q) => IsEntry(s, r, id, a) && r != q
      case _ => IsEntry(s, r, id, a)
  {
    hide OwnersOk, PublicId, Apply, Enabled;
    RequestIsNoOther(s, r);
    LeaseParts(s, step);
    if r in s.drawn { DrawnIsNew(s, r); }
    SessionEntryAfter(s, step, r, id, a);
    PlainEntryAfter(s, step, r, id, a);
  }

  lemma RequestIsNoOther(s: Service, r: nat)
    requires OwnersOk(s)
    ensures r in s.requests ==> r !in s.plain && r !in s.drawn
  {
    assert r in s.plain ==> PlainOk(s, r);
    assert r in s.requests ==> RequestOk(s, r);
  }

  lemma EntriesStay(s: Service, s': Service)
    requires CancellersOk(s) && s'.cancellers == s.cancellers
    requires forall r, id, a :: IsEntry(s', r, id, a) <==> IsEntry(s, r, id, a)
    ensures CancellersOk(s')
  {
    hide IsEntry;
    forall id | id in s'.cancellers ensures exists r :: IsEntry(s', r, id, s'.cancellers[id]) {
      var r :| IsEntry(s, r, id, s.cancellers[id]);
      assert IsEntry(s', r, id, s'.cancellers[id]);
    }
  }

  lemma EntryAdded(s: Service, s': Service, r0: nat, id0: string, a0: nat)
    requires CancellersOk(s) && s'.cancellers == s.cancellers[id0 := a0]
    requires forall r, id, a :: IsEntry(s', r, id, a) <==> IsEntry(s, r, id, a) || (r == r0 && id == id0 && a == a0)
    requires forall r, id, a | IsEntry(s, r, id, a) :: id != id0
    ensures CancellersOk(s')
  {
    hide IsEntry;
    forall id | id in s'.cancellers ensures exists r :: IsEntry(s', r, id, s'.cancellers[id]) {
      if id == id0 {
        assert IsEntry(s', r0, id, s'.cancellers[id]);
      } else {
        var r :| IsEntry(s, r, id, s.cancellers[id]);
        assert IsEntry(s', r, id, s'.cancellers[id]);
      }
    }
  }

  lemma EntryRemoved(s: Service, s': Service, r0: nat, id0: string)
    requires CancellersOk(s) && s'.cancellers == s.cancellers - {id0}
    requires forall r, id, a :: IsEntry(s', r, id, a) <==> IsEntry(s, r, id, a) && r != r0
    requires forall r, id, a | IsEntry(s, r, id, a) :: id == id0 <==> r == r0
    ensures CancellersOk(s')
  {
    hide IsEntry;
    forall id | id in s'.cancellers ensures exists r :: IsEntry(s', r, id, s'.cancellers[id]) {
      var r :| IsEntry(s, r, id, s.cancellers[id]);
      assert IsEntry(s', r, id, s'.cancellers[id]);
    }
  }

  lemma CancellersAfter(s: Service, step: Step)
    requires Enabled(s, step)
    ensures var c := Apply(s, step).cancellers;
      match step
      case Register(q) => c == s.cancellers[s.requests[q].publicId := s.requests[q].agentId]
      case BeginPlain(q, agentId, extraction) => c == s.cancellers[PublicId(q, extraction) := agentId]
      case FireOuterLease(q) =>
        c == if s.requests[q].phase.Outstanding? || s.requests[q].phase.Observed?
             then s.cancellers - {s.requests[q].publicId} else s.cancellers
      case FirePlainLease(q) => c == if s.plain[q].registered then s.cancellers - {s.plain[q].publicId} else s.cancellers
      case _ => c == s.cancellers
  {
    hide Sessions.Apply, Sessions.Enabled, Sessions.Begin, Sessions.Release;
  }

  lemma RegisterKeepsCancellers(s: Service, q: nat)
    requires OwnersOk(s) && CancellersOk(s) && Enabled(s, Register(q)) && q in s.requests
    ensures CancellersOk(Apply(s, Register(q)))
  {
    assert RequestOk(s, q);
    RequestIsNoOther(s, q);
    TrackedIsNoEntry(s, q);
    hide OwnersOk, RequestOk, Apply, Enabled, IsEntry;
    CancellersAfter(s, Register(q));
    var id0, a0 := s.requests[q].publicId, s.requests[q].agentId;
    forall r, id, a
      ensures IsEntry(Apply(s, Register(q)), r, id, a) <==> IsEntry(s, r, id, a) || (r == q && id == id0 && a == a0)
      ensures IsEntry(s, r, id, a) ==> id != id0
    {
      EntryAfter(s, Register(q), r, id, a);
      if IsEntry(s, r, id, a) { EntriesDiffer(s, r, id, a, q, id0 == PublicId(q, true)); }
    }
    EntryAdded(s, Apply(s, Register(q)), q, id0, a0);
  }

  lemma TrackedIsNoEntry(s: Service, q: nat)
    requires Enabled(s, Register(q)) && q !in s.plain
    ensures forall id, a :: !IsEntry(s, q, id, a)
  {
  }

  lemma BeginPlainKeepsCancellers(s: Service, q: nat, agentId: nat, extraction: bool)
    requires OwnersOk(s) && CancellersOk(s) && Enabled(s, BeginPlain(q, agentId, extraction)) && q in s.drawn
    ensures CancellersOk(Apply(s, BeginPlain(q, agentId, extraction)))
  {
    var step := BeginPlain(q, agentId, extraction);
    DrawnIsNew(s, q);
    assert forall id, a :: !IsEntry(s, q, id, a);
    hide OwnersOk, Apply, Enabled, IsEntry, PublicId;
    CancellersAfter(s, step);
    forall r, id, a
      ensures IsEntry(Apply(s, step), r, id, a) <==>
              IsEntry(s, r, id, a) || (r == q && id == PublicId(q, extraction) && a == agentId)
      ensures IsEntry(s, r, id, a) ==> id != PublicId(q, extraction)
    {
      EntryAfter(s, step, r, id, a);
      if IsEntry(s, r, id, a) { EntriesDiffer(s, r, id, a, q, extraction); }
    }
    EntryAdded(s, Apply(s, step), q, PublicId(q, extraction), agentId);
  }

  /** The request `q` has the one entry with this id. */
  ghost predicate HasEntry(s: Service, q: nat, id: string) {
    && (exists e :: id == PublicId(q, e))
    && forall i, a | IsEntry(s, q, i, a) :: i == id
  }

  lemma FireKeepsCancellers(s: Service, step: Step, q: nat, id0: string)
    requires OwnersOk(s) && CancellersOk(s) && Enabled(s, step) && (step == FireOuterLease(q) || step == FirePlainLease(q))
    requires Apply(s, step).cancellers == s.cancellers - {id0} && HasEntry(s, q, id0)
    ensures CancellersOk(Apply(s, step))
  {
    hide OwnersOk, Apply, Enabled, IsEntry, PublicId;
    forall r, id, a
      ensures IsEntry(Apply(s, step), r, id, a) <==> IsEntry(s, r, id, a) && r != q
      ensures IsEntry(s, r, id, a) ==> (id == id0 <==> r == q)
    {
      EntryAfter(s, step, r, id, a);
      if IsEntry(s, r, id, a) && r != q {
        var e :| id0 == PublicId(q, e);
        EntriesDiffer(s, r, id, a, q, e);
      }
    }
    EntryRemoved(s, Apply(s, step), q, id0);
  }

  lemma RequestHasEntry(s: Service, q: nat)
    requires OwnersOk(s) && q in s.requests
    ensures HasEntry(s, q, s.requests[q].publicId)
  {
    RequestIsNoOther(s, q);
    assert RequestOk(s, q);
    hide PublicId;
    assert s.requests[q].publicId == PublicId(q, false) || s.requests[q].publicId == PublicId(q, true);
  }

  lemma PlainHasEntry(s: Service, q: nat)
    requires OwnersOk(s) && q in s.plain
    ensures HasEntry(s, q, s.plain[q].publicId)
  {
    assert PlainOk(s, q);
    hide PublicId;
    assert s.plain[q].publicId == PublicId(q, false) || s.plain[q].publicId == PublicId(q, true);
  }

  lemma OthersKeepCancellers(s: Service, step: Step)
    requires OwnersOk(s) && CancellersOk(s) && Enabled(s, step)
    requires !step.Register? && !step.BeginPlain? && !step.FireOuterLease? && !step.FirePlainLease?
    ensures CancellersOk(Apply(s, step))
  {
    hide OwnersOk, Apply, Enabled, IsEntry;
    CancellersAfter(s, step);
    forall r, id, a ensures IsEntry(Apply(s, step), r, id, a) <==> IsEntry(s, r, id, a) {
      EntryAfter(s, step, r, id, a);
    }
    EntriesStay(s, Apply(s, step));
  }

  lemma LeaseParts(s: Service, step: Step)
    requires Enabled(s, step)
    ensures step.Register? || step.FireOuterLease? ==> step.r in s.requests
    ensures step.FirePlainLease? ==> step.r in s.plain
    ensures step.BeginPlain? ==> step.r in s.drawn
    ensures step.FireOuterLease? && !(s.requests[step.r].phase.Outstanding? || s.requests[step.r].phase.Observed?) ==>
            Apply(s, step) == s
    ensures step.FirePlainLease? && !s.plain[step.r].registered ==> Apply(s, step) == s
  {
  }

  lemma CancellersKept(s: Service, step: Step)
    requires OwnersOk(s) && CancellersOk(s) && Enabled(s, step)
    ensures CancellersOk(Apply(s, step))
  {
    hide OwnersOk, CancellersOk, Apply, Enabled;
    LeaseParts(s, step);
    CancellersAfter(s, step);
    match step
    case Register(q) => RegisterKeepsCancellers(s, q);
    case BeginPlain(q, agentId, extraction) => BeginPlainKeepsCancellers(s, q, agentId, extraction);
    case FireOuterLease(q) =>
      if s.requests[q].phase.Outstanding? || s.requests[q].phase.Observed? {
        RequestHasEntry(s, q);
        FireKeepsCancellers(s, step, q, s.requests[q].publicId);
      }
    case FirePlainLease(q) =>
      if s.plain[q].registered {
        PlainHasEntry(s, q);
        FireKeepsCancellers(s, step, q, s.plain[q].publicId);
      }
    case _ => OthersKeepCancellers(s, step);
  }

  // The entries of active_session_requests_.

  /** The step writes or erases the entry of the session, other than for a delete. */
  ghost predicate TouchesEntry(s: Service, step: Step, id: string) {
    && (step.Track? || step.Observe? || step.FireInnerLease?)
    && step.r in s.requests && s.requests[step.r].sessionId == id
  }

  lemma EntryStep(s: Service, step: Step, id: string)
    requires Enabled(s, step) && !TouchesEntry(s, step, id) && step != CancelDeleted(id)
    ensures id in Apply(s, step).active <==> id in s.active
    ensures id in s.active ==> Apply(s, step).active[id] == s.active[id]
  {
    hide Sessions.Apply, Sessions.Enabled;
  }

  lemma ErasedEntry(s: Service, step: Step, id: string)
    requires Enabled(s, step) && ((TouchesEntry(s, step, id) && !step.Track?) || step == CancelDeleted(id))
    ensures id !in Apply(s, step).active
  {
    hide Sessions.Apply, Sessions.Enabled;
  }

  /** A session's owner changes only by its own commit or release. */
  lemma OwnerAfter(s: Service, step: Step, id: string)
    requires Sessions.Inv(s.store) && Enabled(s, step) && id in s.store.objects && s.store.objects[id].active.Some?
    ensures id in Apply(s, step).store.objects
    ensures var r := s.store.objects[id].active.value;
      || Apply(s, step).store.objects[id].active == Some(r)
      || (r in s.requests && (s.requests[r].phase.Committing? || s.requests[r].phase.Releasing?))
  {
    StoreFollows(s, step);
    FinishingPhase(s, step);
    hide Sessions.Inv, Sessions.Enabled, Sessions.Apply, Apply, Enabled;
    if StoreStepOf(s, step).Some? {
      SessionTheorems.StepOnSession(s.store, StoreStepOf(s, step).value, id);
    }
  }

  lemma FinishingPhase(s: Service, step: Step)
    requires Enabled(s, step)
    ensures match StoreStepOf(s, step)
            case None => true
            case Some(st) =>
              st.CommitStep? || st.ReleaseStep? ==>
                && st.request in s.requests
                && (s.requests[st.request].phase.Committing? || s.requests[st.request].phase.Releasing?)
  {
    hide Sessions.Enabled;
  }

  /** A request that may be found stays so, but for the steps that untrack it. */
  lemma FoundPhaseAfter(s: Service, step: Step, r: nat)
    requires Enabled(s, step) && r in s.requests && r !in s.drawn && MayBeFound(s.requests[r].phase)
    requires step != Observe(r) && step != FireInnerLease(r)
    ensures r in Apply(s, step).requests
    ensures var q, q' := s.requests[r], Apply(s, step).requests[r];
      q'.sessionId == q.sessionId && q'.agentId == q.agentId && MayBeFound(q'.phase)
  {
    hide Sessions.Apply, Sessions.Enabled, Sessions.Begin, Sessions.Release, PublicId, MadeDue;
  }

  lemma OwnSteps(s: Service, step: Step, r: nat, id: string)
    requires r in s.requests && s.requests[r].sessionId == id && !TouchesEntry(s, step, id)
    ensures step != Observe(r) && step != FireInnerLease(r)
  {
  }

  lemma ActiveEntryStays(s: Service, step: Step, id: string)
    requires Sessions.Inv(s.store) && OwnersOk(s) && Enabled(s, step) && id in s.active && ActiveEntryOk(s, id)
    requires !TouchesEntry(s, step, id) && step != CancelDeleted(id)
    ensures id in Apply(s, step).active && ActiveEntryOk(Apply(s, step), id)
  {
    hide Sessions.Inv, OwnersOk, Apply, Enabled, TouchesEntry;
    var r := s.store.objects[id].active.value;
    RequestIsNoOther(s, r);
    OwnSteps(s, step, r, id);
    OwnerAfter(s, step, id);
    EntryStep(s, step, id);
    FoundPhaseAfter(s, step, r);
  }

  lemma TrackedEntry(s: Service, r: nat)
    requires OwnersOk(s) && Enabled(s, Track(r)) && r in s.requests
    ensures var s', id := Apply(s, Track(r)), s.requests[r].sessionId;
      id in s'.active && ActiveEntryOk(s', id)
  {
    assert RequestOk(s, r);
    hide OwnersOk;
  }

  lemma ActiveKept(s: Service, step: Step)
    requires Sessions.Inv(s.store) && OwnersOk(s) && ActiveOk(s) && Enabled(s, step)
    ensures ActiveOk(Apply(s, step))
  {
    hide Sessions.Inv, OwnersOk, Apply, Enabled, ActiveEntryOk;
    forall id | id in Apply(s, step).active ensures ActiveEntryOk(Apply(s, step), id) {
      if step.Track? && TouchesEntry(s, step, id) {
        TrackedEntry(s, step.r);
      } else if TouchesEntry(s, step, id) || step == CancelDeleted(id) {
        ErasedEntry(s, step, id);
      } else {
        EntryStep(s, step, id);
        ActiveEntryStays(s, step, id);
      }
    }
  }

  /** Sessions never disappear, and one outside the map stays outside. */
  lemma StaysOut(s: Service, step: Step, id: string)
    requires Inv(s) && Enabled(s, step) && id in s.store.objects
    ensures id in Apply(s, step).store.objects
    ensures id !in s.store.mapped ==> id !in Apply(s, step).store.mapped
  {
    StoreFollows(s, step);
    hide Sessions.Inv, Sessions.Enabled, Sessions.Apply, SessionTheorems.SessionStepped, Apply, Enabled;
    hide OwnersOk, CancellersOk, ActiveOk, DueOk;
    if StoreStepOf(s, step).Some? {
      var st := StoreStepOf(s, step).value;
      SessionTheorems.StepOnMap(s.store, st, id);
      SessionTheorems.StepOnSession(s.store, st, id);
    }
  }

  lemma DueAfter(s: Service, step: Step, id: string)
    requires Enabled(s, step) && id in Apply(s, step).due
    ensures id in s.due || (step == StoreStep(Sessions.EraseStep(id)) && id in s.store.mapped)
  {
    hide Sessions.Apply, Sessions.Enabled;
  }

  lemma DueKept(s: Service, step: Step)
    requires Inv(s) && Enabled(s, step)
    ensures DueOk(Apply(s, step))
  {
    hide OwnersOk, CancellersOk, ActiveOk;
    forall id | id in Apply(s, step).due
      ensures id in Apply(s, step).store.objects && id !in Apply(s, step).store.mapped
    {
      DueAfter(s, step, id);
      StaysOut(s, step, id);
      if id !in s.due { Erased(s, id); }
    }
  }

  lemma Erased(s: Service, id: string)
    requires Enabled(s, StoreStep(Sessions.EraseStep(id)))
    ensures id !in Apply(s, StoreStep(Sessions.EraseStep(id))).store.mapped
  {
  }

  lemma StepKeepsInv(s: Service, step: Step)
    requires Inv(s) && Enabled(s, step)
    ensures Inv(Apply(s, step))
  {
    StoreKeepsInv(s, step);
    OwnersKept(s, step);
    CancellersKept(s, step);
    ActiveKept(s, step);
    DueKept(s, step);
  }
}
