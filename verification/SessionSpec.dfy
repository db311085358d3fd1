/** The session store as a step system. A step is one critical section, of the store's map lock or of one
    session's lock; the reaping pass holds the map lock and takes each session's lock in turn, so each of its
    visits is a step, and whatever happens under session locks may come between two visits. A thread keeps a
    session it found after it released the map lock, so a session step may act on any session that ever
    existed, whether or not the map still holds it. */
module SessionSpec {
  import opened Wrappers
  import opened Messages
  import opened History
  import opened Decimal

  datatype Config = Config(modelId: string, maxSessions: nat, ttl: nat, maxHistory: nat)

  /** A session object. `prefix` is the history it was created with and `log` every turn committed to it;
      the code keeps neither. */
  datatype Session = Session(
    id: string, created: int, lastUsed: int, expiresAt: int, history: seq<Message>,
    active: Option<nat>, closed: bool, prefix: seq<Message>, log: seq<Turn>)

  /** `mapped` are the ids the map holds; `objects` are all sessions ever made, by id; `closing` are those
      that a delete or a stop has taken out of the map and not marked closed yet. */
  datatype Store = Store(
    config: Config, basePrompt: string, mapped: set<string>, objects: map<string, Session>,
    nextId: nat, stopping: bool, closing: set<string>)

  datatype Error = Disabled | UnknownModel | Stopping | CapacityReached | UnknownSession | Busy
    | SessionIdRequired | NotOneUserMessage

  function NewStore(config: Config, basePrompt: string): Store {
    Store(config, basePrompt, {}, map[], 1, false, {})
  }

  function SessionId(n: nat): string {
    "sess-" + Digits(n)
  }

  function InitialHistory(basePrompt: string, requestPrompt: Option<string>): seq<Message> {
    var prompt := CombineSystemPrompts(basePrompt, if requestPrompt.Some? then requestPrompt.value else "");
    if prompt == "" then [] else [SystemMessage(prompt)]
  }

  // ---------- critical sections of the map lock ----------

  predicate Expired(x: Session, now: int) {
    !x.closed && x.active.None? && x.expiresAt <= now
  }

  /** One visit of reap_expired_sessions_locked, under the session's lock. */
  function Visit(s: Store, now: int, id: string): Store {
    if id in s.mapped && id in s.objects && Expired(s.objects[id], now) then
      s.(mapped := s.mapped - {id}, objects := s.objects[id := s.objects[id].(closed := true)])
    else s
  }

  function NewSession(s: Store, id: string, now: int, prompt: Option<string>): Session {
    var history := InitialHistory(s.basePrompt, prompt);
    Session(id, now, now, now + s.config.ttl, history, None, false, history, [])
  }

  /** create_session, behind the checks of the request and the reaping pass. */
  function Create(s: Store, now: int, prompt: Option<string>): (Store, Result<string, Error>) {
    if s.stopping then (s, Err(Stopping))
    else if |s.mapped| >= s.config.maxSessions then (s, Err(CapacityReached))
    else
      var id := SessionId(s.nextId);
      (s.(mapped := s.mapped + {id}, nextId := s.nextId + 1,
          objects := s.objects[id := NewSession(s, id, now, prompt)]), Ok(id))
  }

  /** The first half of delete_session. */
  function Erase(s: Store, id: string): (Store, Result<string, Error>) {
    if id in s.mapped then (s.(mapped := s.mapped - {id}, closing := s.closing + {id}), Ok(id))
    else (s, Err(UnknownSession))
  }

  /** The first half of stop. */
  function Stop(s: Store): Store {
    if s.stopping then s else s.(stopping := true, closing := s.closing + s.mapped, mapped := {})
  }

  // ---------- critical sections of a session's lock ----------

  function WithSession(s: Store, id: string, x: Session): Store {
    s.(objects := s.objects[id := x])
  }

  /** The second half of delete_session and of stop. */
  function MarkClosed(s: Store, id: string): Store
    requires id in s.objects
  {
    WithSession(s, id, s.objects[id].(closed := true)).(closing := s.closing - {id})
  }

  function Touch(x: Session, now: int, ttl: nat): Session {
    x.(lastUsed := now, expiresAt := now + ttl)
  }

  /** The locked part of begin_request: the messages for the agent, or an error. */
  function Begin(s: Store, id: string, request: nat, user: Message, now: int)
    : (Store, Result<seq<Message>, Error>)
    requires id in s.objects
  {
    var x := s.objects[id];
    if x.closed then (s, Err(UnknownSession))
    else if x.active.Some? then (s, Err(Busy))
    else (WithSession(s, id, Touch(x.(active := Some(request)), now, s.config.ttl)), Ok(x.history + [user]))
  }

  /** The session behind a commit: `reply` is the assistant's text, or None for a failed request;
      `kept` is the trimmed history. */
  function Committed(x: Session, user: Message, reply: Option<string>, kept: seq<Message>): Session {
    if x.closed || reply.None? then x
    else x.(history := kept, log := x.log + [Turn(user, AssistantMessage(reply.value))])
  }

  function Appended(x: Session, user: Message, reply: string): seq<Message> {
    x.history + [user, AssistantMessage(reply)]
  }

  /** The locked part of commit_result and commit_response_text; `kept` is what the trim made of the
      history with the new turn. */
  function Commit(s: Store, id: string, request: nat, user: Message, reply: Option<string>,
                  kept: seq<Message>, now: int): Store
    requires id in s.objects
  {
    var x := s.objects[id];
    if x.active != Some(request) then s
    else WithSession(s, id, Touch(Committed(x, user, reply, kept).(active := None), now, s.config.ttl))
  }

  /** The locked part of release_request. */
  function Release(s: Store, id: string, request: nat, now: int): Store
    requires id in s.objects
  {
    var x := s.objects[id];
    if x.active != Some(request) then s
    else WithSession(s, id, Touch(x.(active := None), now, s.config.ttl))
  }

  // ---------- the step system ----------

  datatype Step =
    | CreateStep(now: int, prompt: Option<string>)
    | VisitStep(now: int, id: string)
    | EraseStep(id: string)
    | MarkClosedStep(id: string)
    | SetPromptStep(basePrompt: string)
    | BeginStep(id: string, request: nat, user: Message, now: int)
    | CommitStep(id: string, request: nat, user: Message, reply: Option<string>, kept: seq<Message>, now: int)
    | ReleaseStep(id: string, request: nat, now: int)
    | StopStep

  /** Callers pass user messages (begin_request checks it), and only the thread that took a session out
      of the map marks it closed. */
  ghost predicate Enabled(s: Store, step: Step) {
    match step
    case MarkClosedStep(id) => id in s.closing && id in s.objects
    case BeginStep(id, _, user, _) => id in s.objects && user.role == User
    case CommitStep(id, _, user, reply, kept, _) =>
      && id in s.objects && user.role == User
      && (reply.Some? ==> IsTrimmed(Appended(s.objects[id], user, reply.value), s.config.maxHistory, kept))
    case ReleaseStep(id, _, _) => id in s.objects
    case _ => true
  }

  ghost function Apply(s: Store, step: Step): Store
    requires Enabled(s, step)
  {
    match step
    case CreateStep(now, prompt) => Create(s, now, prompt).0
    case VisitStep(now, id) => Visit(s, now, id)
    case EraseStep(id) => Erase(s, id).0
    case MarkClosedStep(id) => MarkClosed(s, id)
    case SetPromptStep(prompt) => s.(basePrompt := prompt)
    case BeginStep(id, request, user, now) => Begin(s, id, request, user, now).0
    case CommitStep(id, request, user, reply, kept, now) => Commit(s, id, request, user, reply, kept, now)
    case ReleaseStep(id, request, now) => Release(s, id, request, now)
    case StopStep => Stop(s)
  }

  /** A run: states, and the step between each two neighbours. */
  ghost predicate IsRun(states: seq<Store>, steps: seq<Step>) {
    && |states| == |steps| + 1
    && forall i | 0 <= i < |steps| :: Enabled(states[i], steps[i]) && states[i + 1] == Apply(states[i], steps[i])
  }

  // ---------- invariants ----------

  /** A session's history is the window of everything committed to it, its expiry follows its last use,
      and its turns are user and assistant messages. */
  ghost predicate SessionOk(x: Session, config: Config) {
    && SystemPrefix(x.prefix) && WellFormedLog(x.log)
    && x.history == WindowedHistory(x.prefix, x.log, config.maxHistory)
    && x.expiresAt == x.lastUsed + config.ttl
  }

  ghost predicate ObjectsOk(objects: map<string, Session>, config: Config) {
    forall id | id in objects :: objects[id].id == id && SessionOk(objects[id], config)
  }

  ghost predicate IdsOk(objects: map<string, Session>, nextId: nat) {
    forall id | id in objects :: exists n: nat | n < nextId :: id == SessionId(n)
  }

  /** What the map holds is open; what it does not hold is closed, exactly except in the gap between the two
      halves of a delete or stop. */
  ghost predicate ClosedOk(s: Store) {
    && s.mapped <= s.objects.Keys && s.closing <= s.objects.Keys && s.mapped !! s.closing
    && (forall id | id in s.mapped :: !s.objects[id].closed)
    && (forall id | id in s.objects && id !in s.mapped :: s.objects[id].closed <==> id !in s.closing)
  }

  ghost predicate Inv(s: Store) {
    && ObjectsOk(s.objects, s.config)
    && IdsOk(s.objects, s.nextId)
    && ClosedOk(s)
    && |s.mapped| <= s.config.maxSessions
    && (s.stopping ==> s.mapped == {})
  }

  lemma NewStoreInv(config: Config, basePrompt: string)
    ensures Inv(NewStore(config, basePrompt))
  {
  }

  lemma SessionIdInjective(m: nat, n: nat)
    requires SessionId(m) == SessionId(n)
    ensures m == n
  {
    assert SessionId(m)[5..] == Digits(m) && SessionId(n)[5..] == Digits(n);
    DigitsInjective(m, n);
  }

  lemma NextIdIsNew(s: Store)
    requires IdsOk(s.objects, s.nextId)
    ensures SessionId(s.nextId) !in s.objects
  {
    if SessionId(s.nextId) in s.objects {
      var n: nat :| n < s.nextId && SessionId(s.nextId) == SessionId(n);
      SessionIdInjective(s.nextId, n);
    }
  }

  lemma VisitKeepsInv(s: Store, now: int, id: string)
    requires Inv(s)
    ensures Inv(Visit(s, now, id))
  {
    if id in s.mapped && id in s.objects && Expired(s.objects[id], now) {
      ReplacedObjectsOk(s.objects, s.config, s.nextId, id, s.objects[id].(closed := true));
      SubsetSize(s.mapped - {id}, s.mapped);
      VisitedClosedOk(s, id);
      hide SessionOk, ObjectsOk, IdsOk, ClosedOk;
    }
  }

  lemma VisitedClosedOk(s: Store, id: string)
    requires ClosedOk(s) && id in s.mapped && id in s.objects
    ensures ClosedOk(s.(mapped := s.mapped - {id}, objects := s.objects[id := s.objects[id].(closed := true)]))
  {
  }

  lemma SubsetSize(a: set<string>, b: set<string>)
    requires a <= b
    ensures |a| <= |b|
  {
    assert b == a + (b - a);
  }

  lemma InitialHistoryIsPrefix(basePrompt: string, prompt: Option<string>, max: nat)
    ensures var h := InitialHistory(basePrompt, prompt);
      SystemPrefix(h) && WindowedHistory(h, [], max) == h
  {
  }

  lemma CreateKeepsInv(s: Store, now: int, prompt: Option<string>)
    requires Inv(s)
    ensures Inv(Create(s, now, prompt).0)
  {
    if !s.stopping && |s.mapped| < s.config.maxSessions {
      AddSessionKeepsInv(s, now, prompt);
    }
  }

  lemma AddSessionKeepsInv(r: Store, now: int, prompt: Option<string>)
    requires Inv(r) && !r.stopping && |r.mapped| < r.config.maxSessions
    ensures var id := SessionId(r.nextId);
      Inv(r.(mapped := r.mapped + {id}, nextId := r.nextId + 1,
             objects := r.objects[id := NewSession(r, id, now, prompt)]))
  {
    NextIdIsNew(r);
    var id := SessionId(r.nextId);
    var x := NewSession(r, id, now, prompt);
    InitialHistoryIsPrefix(r.basePrompt, prompt, r.config.maxHistory);
    assert SessionOk(x, r.config) && x.id == id && !x.closed;
    AddedObjectsOk(r, id, x);
    hide SessionOk, ObjectsOk, IdsOk, NewSession, SessionId;
    AddedClosedOk(r, id, x);
  }

  lemma AddedClosedOk(r: Store, id: string, x: Session)
    requires ClosedOk(r) && id !in r.objects && !x.closed
    ensures ClosedOk(r.(mapped := r.mapped + {id}, nextId := r.nextId + 1, objects := r.objects[id := x]))
    ensures |r.mapped + {id}| == |r.mapped| + 1
  {
  }

  lemma AddedObjectsOk(r: Store, id: string, x: Session)
    requires ObjectsOk(r.objects, r.config) && IdsOk(r.objects, r.nextId)
    requires id == SessionId(r.nextId) == x.id && SessionOk(x, r.config)
    ensures ObjectsOk(r.objects[id := x], r.config) && IdsOk(r.objects[id := x], r.nextId + 1)
  {
    var objects := r.objects[id := x];
    forall i | i in objects
      ensures exists n: nat | n < r.nextId + 1 :: i == SessionId(n)
    {
      if i != id {
        var n: nat :| n < r.nextId && i == SessionId(n);
      }
    }
  }

  lemma ReplacedObjectsOk(objects: map<string, Session>, config: Config, nextId: nat, id: string, x: Session)
    requires ObjectsOk(objects, config) && IdsOk(objects, nextId)
    requires id in objects && x.id == id && SessionOk(x, config)
    ensures ObjectsOk(objects[id := x], config) && IdsOk(objects[id := x], nextId)
    ensures objects[id := x].Keys == objects.Keys
  {
  }

  /** Replacing one session by one that is as closed as before and still fine. */
  lemma ReplaceKeepsInv(s: Store, id: string, x: Session)
    requires Inv(s) && id in s.objects
    requires x.id == id && SessionOk(x, s.config) && x.closed == s.objects[id].closed
    ensures Inv(WithSession(s, id, x))
  {
    ReplacedObjectsOk(s.objects, s.config, s.nextId, id, x);
  }

  lemma CommittedIsOk(x: Session, config: Config, user: Message, reply: Option<string>, kept: seq<Message>)
    requires SessionOk(x, config) && user.role == User
    requires reply.Some? ==> IsTrimmed(Appended(x, user, reply.value), config.maxHistory, kept)
    ensures SessionOk(Committed(x, user, reply, kept), config)
  {
    if !x.closed && reply.Some? {
      CommitKeepsWindow(x.prefix, x.log, config.maxHistory, Turn(user, AssistantMessage(reply.value)), kept);
    }
  }

  lemma MarkClosedKeepsInv(s: Store, id: string)
    requires Inv(s) && id in s.closing
    ensures Inv(MarkClosed(s, id))
  {
    ReplacedObjectsOk(s.objects, s.config, s.nextId, id, s.objects[id].(closed := true));
    MarkedClosedOk(s, id);
    hide SessionOk, ObjectsOk, IdsOk, ClosedOk;
  }

  lemma MarkedClosedOk(s: Store, id: string)
    requires ClosedOk(s) && id in s.closing
    ensures ClosedOk(MarkClosed(s, id))
  {
  }

  lemma EraseKeepsInv(s: Store, id: string)
    requires Inv(s)
    ensures Inv(Erase(s, id).0)
  {
    SubsetSize(s.mapped - {id}, s.mapped);
  }

  lemma StopKeepsInv(s: Store)
    requires Inv(s)
    ensures Inv(Stop(s))
  {
  }

  lemma BeginKeepsInv(s: Store, id: string, request: nat, user: Message, now: int)
    requires Inv(s) && id in s.objects
    ensures Inv(Begin(s, id, request, user, now).0)
  {
    var x := s.objects[id];
    if !x.closed && x.active.None? {
      ReplaceKeepsInv(s, id, Touch(x.(active := Some(request)), now, s.config.ttl));
    }
  }

  lemma CommitKeepsInv(s: Store, step: Step)
    requires Inv(s) && step.CommitStep? && Enabled(s, step)
    ensures Inv(Apply(s, step))
  {
    var x := s.objects[step.id];
    if x.active == Some(step.request) {
      CommittedIsOk(x, s.config, step.user, step.reply, step.kept);
      var y := Committed(x, step.user, step.reply, step.kept);
      ReplaceKeepsInv(s, step.id, Touch(y.(active := None), step.now, s.config.ttl));
    }
  }

  lemma ReleaseKeepsInv(s: Store, id: string, request: nat, now: int)
    requires Inv(s) && id in s.objects
    ensures Inv(Release(s, id, request, now))
  {
    var x := s.objects[id];
    if x.active == Some(request) {
      ReplaceKeepsInv(s, id, Touch(x.(active := None), now, s.config.ttl));
    }
  }

  lemma StepKeepsInv(s: Store, step: Step)
    requires Inv(s) && Enabled(s, step)
    ensures Inv(Apply(s, step))
  {
    match step
    case CreateStep(now, prompt) => CreateKeepsInv(s, now, prompt);
    case VisitStep(now, id) => VisitKeepsInv(s, now, id);
    case EraseStep(id) => EraseKeepsInv(s, id);
    case MarkClosedStep(id) => MarkClosedKeepsInv(s, id);
    case SetPromptStep(prompt) =>
    case BeginStep(id, request, user, now) => BeginKeepsInv(s, id, request, user, now);
    case CommitStep(_, _, _, _, _, _) => CommitKeepsInv(s, step);
    case ReleaseStep(id, request, now) => ReleaseKeepsInv(s, id, request, now);
    case StopStep => StopKeepsInv(s);
  }

  lemma {:induction false} RunKeepsInv(states: seq<Store>, steps: seq<Step>, i: nat)
    requires IsRun(states, steps) && Inv(states[0]) && i < |states|
    ensures Inv(states[i])
  {
    if i > 0 {
      RunKeepsInv(states, steps, i - 1);
      StepKeepsInv(states[i - 1], steps[i - 1]);
    }
  }

  // ---------- a whole reaping pass ----------

  /** A pass that visits the sessions `ids` in this order, with nothing in between. */
  function VisitAll(s: Store, now: int, ids: seq<string>): Store {
    if ids == [] then s else Visit(VisitAll(s, now, ids[..|ids| - 1]), now, ids[|ids| - 1])
  }

  function ExpiredIds(s: Store, now: int): set<string> {
    set id | id in s.mapped && id in s.objects && Expired(s.objects[id], now)
  }

  /** The sessions `out` closed and taken out of the map. */
  function Without(s: Store, out: set<string>): Store {
    s.(mapped := s.mapped - out,
       objects := map id | id in s.objects :: if id in out then s.objects[id].(closed := true) else s.objects[id])
  }

  function Reap(s: Store, now: int): Store {
    Without(s, ExpiredIds(s, now))
  }

  lemma VisitAfterOthers(s: Store, now: int, out: set<string>, id: string)
    requires out <= ExpiredIds(s, now)
    ensures Visit(Without(s, out), now, id) == Without(s, out + (ExpiredIds(s, now) * {id}))
  {
    var w := Without(s, out);
    if id in ExpiredIds(s, now) && id !in out {
      assert ExpiredIds(s, now) * {id} == {id};
      assert w.objects[id := w.objects[id].(closed := true)] == Without(s, out + {id}).objects;
    } else {
      assert out + (ExpiredIds(s, now) * {id}) == out;
    }
  }

  lemma {:induction false} VisitAllIs(s: Store, now: int, ids: seq<string>)
    ensures VisitAll(s, now, ids) == Without(s, set id | id in ids && id in ExpiredIds(s, now))
    decreases |ids|
  {
    if ids == [] {
      assert Without(s, {}) == s;
    } else {
      var n := |ids| - 1;
      VisitAllIs(s, now, ids[..n]);
      var out := set id | id in ids[..n] && id in ExpiredIds(s, now);
      VisitAfterOthers(s, now, out, ids[n]);
      assert ids == ids[..n] + [ids[n]];
      assert (set id | id in ids && id in ExpiredIds(s, now)) == out + (ExpiredIds(s, now) * {ids[n]});
    }
  }

  /** In whatever order an undisturbed pass visits the map, it takes out exactly the open, idle and expired
      sessions. */
  lemma PassIsReap(s: Store, now: int, ids: seq<string>)
    requires forall id | id in s.mapped :: id in ids
    ensures VisitAll(s, now, ids) == Reap(s, now)
  {
    VisitAllIs(s, now, ids);
    assert (set id | id in ids && id in ExpiredIds(s, now)) == ExpiredIds(s, now);
  }

  lemma {:induction false} VisitAllKeepsInv(s: Store, now: int, ids: seq<string>)
    requires Inv(s)
    ensures Inv(VisitAll(s, now, ids))
    decreases |ids|
  {
    if ids != [] {
      VisitAllKeepsInv(s, now, ids[..|ids| - 1]);
      VisitKeepsInv(VisitAll(s, now, ids[..|ids| - 1]), now, ids[|ids| - 1]);
    }
  }
}
