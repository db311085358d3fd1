/** The session store object. Each method is one critical section of the map's or of a session's lock; its
    contract says which step of SessionSpec it is. */
module SessionStore {
  import opened Wrappers
  import opened Messages
  import opened History
  import Spec = SessionSpec
  import SessionTheorems

  class SessionState {
    const id: string
    const created: int
    var lastUsed: int
    var expiresAt: int
    var history: seq<Message>
    var activeRequest: Option<nat>
    var closed: bool
    ghost const prefix: seq<Message>
    ghost var log: seq<Turn>

    constructor (id: string, created: int, expiresAt: int, history: seq<Message>)
      ensures View() == Spec.Session(id, created, created, expiresAt, history, None, false, history, [])
      ensures this.id == id
    {
      this.id, this.created, this.lastUsed, this.expiresAt := id, created, created, expiresAt;
      this.history, this.prefix, this.log := history, history, [];
      activeRequest, closed := None, false;
    }

    ghost function View(): Spec.Session
      reads this
    {
      Spec.Session(id, created, lastUsed, expiresAt, history, activeRequest, closed, prefix, log)
    }

    /** touch_session */
    method Touch(now: int, ttl: nat)
      modifies this
      ensures View() == Spec.Touch(old(View()), now, ttl)
    {
      lastUsed := now;
      expiresAt := lastUsed + ttl;
    }
  }

  datatype ChatRequest = ChatRequest(model: string, sessionId: Option<string>, messages: seq<Message>)

  class SessionStore {
    const config: Spec.Config
    var basePrompt: string
    var sessions: map<string, SessionState>
    var nextId: nat
    var stopping: bool

    /** Every session object ever made, and those taken out of the map but not marked closed yet. */
    ghost var objects: map<string, SessionState>
    ghost var closing: set<string>

    ghost predicate Valid()
      reads this, objects.Values
    {
      && (forall id | id in sessions :: id in objects && objects[id] == sessions[id])
      && (forall id | id in objects :: objects[id].id == id)
    }

    ghost function ObjectsView(): map<string, Spec.Session>
      reads this, objects.Values
    {
      map id | id in objects :: objects[id].View()
    }

    ghost function View(): Spec.Store
      reads this, objects.Values
    {
      Spec.Store(config, basePrompt, sessions.Keys, ObjectsView(), nextId, stopping, closing)
    }

    /** A thread holds a session it found in the map at some time. */
    ghost predicate Knows(session: SessionState)
      reads this
    {
      session.id in objects && objects[session.id] == session
    }

    constructor (config: Spec.Config, basePrompt: string)
      ensures Valid() && View() == Spec.NewStore(config, basePrompt) && objects == map[]
    {
      this.config, this.basePrompt := config, basePrompt;
      sessions, nextId, stopping := map[], 1, false;
      objects, closing := map[], {};
    }

    // ---------- the map lock ----------

    /** reap_expired_sessions_locked: a pass over the map, in any order, erasing as it goes. Undisturbed, it
        takes out exactly the open, idle and expired sessions. */
    method ReapExpiredSessionsLocked(now: int)
      requires Valid()
      modifies this`sessions, objects.Values
      ensures Valid() && View() == Spec.Reap(old(View()), now)
      ensures forall id | id in old(sessions) ::
        id in sessions <==>
        old(sessions[id].closed) || old(sessions[id].activeRequest).Some? || old(sessions[id].expiresAt) > now
      ensures forall id | id in old(sessions) :: old(sessions)[id].closed == (old(sessions[id].closed) || id !in sessions)
      ensures sessions.Keys <= old(sessions).Keys
    {
      ghost var before := View();
      ghost var visited: seq<string> := [];
      var remaining := sessions.Keys;
      assert Spec.VisitAll(before, now, visited) == before;
      hide Valid, View, Spec.Visit;
      while remaining != {}
        invariant Valid() && View() == Spec.VisitAll(before, now, visited)
        invariant forall id | id in before.mapped :: id in remaining || id in visited
        decreases remaining
      {
        var id :| id in remaining;
        VisitSession(id, now);
        assert (visited + [id])[..|visited|] == visited;
        visited := visited + [id];
        remaining := remaining - {id};
      }
      Spec.PassIsReap(before, now, visited);
      ReapedSessions(now);
    }

    /** The pass in terms of the session objects. */
    twostate lemma ReapedSessions(now: int)
      requires old(Valid()) && Valid() && objects == old(objects) && View() == Spec.Reap(old(View()), now)
      ensures forall id | id in old(sessions) ::
        id in sessions <==>
        old(sessions[id].closed) || old(sessions[id].activeRequest).Some? || old(sessions[id].expiresAt) > now
      ensures forall id | id in old(sessions) :: old(sessions)[id].closed == (old(sessions[id].closed) || id !in sessions)
      ensures sessions.Keys <= old(sessions).Keys
    {
      hide Spec.Reap;
      SessionTheorems.ReapPasses(old(View()), now);
      assert sessions.Keys == View().mapped && old(sessions).Keys == old(View()).mapped;
      forall id | id in old(sessions)
        ensures old(View()).objects[id] == old(sessions[id].View()) && View().objects[id] == old(sessions)[id].View()
      {
      }
    }

    /** One visit of the pass. A session that is not mapped is left alone. */
    method VisitSession(id: string, now: int)
      requires Valid()
      modifies this`sessions, objects.Values
      ensures Valid() && View() == Spec.Visit(old(View()), now, id)
      ensures forall i | i in old(sessions) ::
        i in sessions <==>
        i != id || old(sessions[i].closed) || old(sessions[i].activeRequest).Some? || old(sessions[i].expiresAt) > now
      ensures forall i | i in old(sessions) :: old(sessions)[i].closed == (old(sessions[i].closed) || i !in sessions)
    {
      if id !in sessions {
        return;
      }
      var session := sessions[id];
      var shouldExpire := !session.closed && session.activeRequest.None? && session.expiresAt <= now;
      if shouldExpire {
        ghost var before := View();
        session.closed := true;
        sessions := sessions - {id};
        assert ObjectsView() == before.objects[id := session.View()];
      }
    }

    /** reap_expired_sessions */
    method ReapExpiredSessions(now: int)
      requires Valid()
      modifies this`sessions, objects.Values
      ensures Valid() && View() == if old(stopping) then old(View()) else Spec.Reap(old(View()), now)
    {
      if stopping {
        return;
      }
      ReapExpiredSessionsLocked(now);
    }

    /** create_session */
    method CreateSession(model: string, prompt: Option<string>, now: int) returns (r: Result<SessionState, Spec.Error>)
      requires Valid() && Spec.Inv(View())
      modifies this, objects.Values
      ensures Valid()
      ensures config.maxSessions == 0 ==> r == Err(Spec.Disabled) && View() == old(View())
      ensures config.maxSessions > 0 && model != config.modelId ==> r == Err(Spec.UnknownModel) && View() == old(View())
      ensures config.maxSessions > 0 && model == config.modelId ==>
        var (s, outcome) := Spec.Create(if old(stopping) then old(View()) else Spec.Reap(old(View()), now), now, prompt);
        && View() == s
        && (outcome.Ok? ==> r.Ok? && r.value.id == outcome.value && Knows(r.value) && fresh(r.value))
        && (outcome.Err? ==> r == Err(outcome.error))
    {
      if config.maxSessions == 0 {
        return Err(Spec.Disabled);
      }
      if model != config.modelId {
        return Err(Spec.UnknownModel);
      }
      if stopping {
        return Err(Spec.Stopping);
      }
      hide Spec.Inv, Spec.Reap, Spec.NewSession, Spec.SessionId;
      r := AddIfRoom(prompt, now);
    }

    /** The part of create_session under the map lock, behind the check of the stop flag. */
    method AddIfRoom(prompt: Option<string>, now: int) returns (r: Result<SessionState, Spec.Error>)
      requires Valid() && Spec.Inv(View()) && !stopping
      modifies this, objects.Values
      ensures Valid()
      ensures var (s, outcome) := Spec.Create(Spec.Reap(old(View()), now), now, prompt);
        && View() == s
        && (outcome.Ok? ==> r.Ok? && r.value.id == outcome.value && Knows(r.value) && fresh(r.value))
        && (outcome.Err? ==> r == Err(outcome.error))
    {
      hide Spec.Inv, Spec.Reap, Spec.NewSession, Spec.SessionId;
      ghost var before := View();
      ReapExpiredSessionsLocked(now);
      if |sessions| >= config.maxSessions {
        return Err(Spec.CapacityReached);
      }
      ReapedNextIdIsNew(before, now);
      var session := AddSession(prompt, now);
      r := Ok(session);
    }

    lemma ReapedNextIdIsNew(before: Spec.Store, now: int)
      requires Spec.Inv(before)
      ensures Spec.SessionId(before.nextId) !in Spec.Reap(before, now).objects
    {
      Spec.NextIdIsNew(before);
    }

    /** A new entry of the map is a new entry of the view. */
    twostate lemma OneMoreSession(new session: SessionState)
      requires old(Valid()) && session.id !in old(objects)
      requires objects == old(objects)[session.id := session] && sessions == old(sessions)[session.id := session]
      requires forall id | id in old(objects) :: unchanged(old(objects)[id])
      ensures Valid() && ObjectsView() == old(ObjectsView())[session.id := session.View()]
    {
    }

    /** The part of create_session behind the capacity check. */
    method AddSession(prompt: Option<string>, now: int) returns (session: SessionState)
      requires Valid() && Spec.SessionId(nextId) !in objects
      modifies this
      ensures Valid() && fresh(session) && Knows(session)
      ensures session.id == Spec.SessionId(old(nextId))
      ensures var s := old(View());
        View() == s.(mapped := s.mapped + {session.id}, nextId := s.nextId + 1,
                     objects := s.objects[session.id := Spec.NewSession(s, session.id, now, prompt)])
    {
      var id := Spec.SessionId(nextId);
      nextId := nextId + 1;
      session := new SessionState(id, now, now + config.ttl, Spec.InitialHistory(basePrompt, prompt));
      sessions := sessions[id := session];
      objects := objects[id := session];
      OneMoreSession(session);
      hide Spec.SessionId, Spec.InitialHistory, Valid;
    }

    /** The lookup of get_session and begin_request: it reaps first. */
    method FindAfterReap(id: string, now: int) returns (r: Result<SessionState, Spec.Error>)
      requires Valid()
      modifies this`sessions, objects.Values
      ensures Valid() && View() == Spec.Reap(old(View()), now)
      ensures id in View().mapped ==> r.Ok? && r.value.id == id && Knows(r.value)
      ensures id !in View().mapped ==> r == Err(Spec.UnknownSession)
    {
      ReapExpiredSessionsLocked(now);
      if id !in sessions {
        return Err(Spec.UnknownSession);
      }
      r := Ok(sessions[id]);
    }

    /** The lookup of commit_result, commit_response_text and release_request. */
    method Find(id: string) returns (session: SessionState?)
      requires Valid()
      ensures id in View().mapped ==> session != null && session.id == id && Knows(session)
      ensures id !in View().mapped ==> session == null
    {
      if id !in sessions {
        return null;
      }
      session := sessions[id];
    }

    /** delete_session up to the release of the map lock. */
    method Erase(id: string) returns (r: Result<SessionState, Spec.Error>)
      requires Valid()
      modifies this`sessions, this`closing
      ensures Valid()
      ensures config.maxSessions == 0 ==> r == Err(Spec.Disabled) && View() == old(View())
      ensures config.maxSessions > 0 ==>
        var (s, outcome) := Spec.Erase(old(View()), id);
        && View() == s
        && (outcome.Ok? ==> r.Ok? && r.value.id == id && Knows(r.value))
        && (outcome.Err? ==> r == Err(outcome.error))
    {
      if config.maxSessions == 0 {
        return Err(Spec.Disabled);
      }
      if id !in sessions {
        return Err(Spec.UnknownSession);
      }
      r := Ok(sessions[id]);
      sessions := sessions - {id};
      closing := closing + {id};
    }

    method SetBaseSystemPrompt(prompt: string)
      requires Valid()
      modifies this`basePrompt
      ensures Valid() && View() == old(View()).(basePrompt := prompt)
    {
      basePrompt := prompt;
    }

    /** stop up to the release of the map lock; the caller marks the sessions it gets closed. */
    method StopLocked() returns (taken: map<string, SessionState>)
      requires Valid()
      modifies this`sessions, this`stopping, this`closing
      ensures Valid() && View() == Spec.Stop(old(View()))
      ensures taken == if old(stopping) then map[] else old(sessions)
    {
      if stopping {
        return map[];
      }
      stopping := true;
      taken, sessions := sessions, map[];
      closing := closing + taken.Keys;
    }

    // ---------- a session's lock ----------

    /** A change of one session is a change of one entry of the view. */
    twostate lemma OnlyThisSession(session: SessionState)
      requires old(Valid()) && old(Knows(session))
      requires unchanged(this) && forall id | id in objects && objects[id] != session :: unchanged(objects[id])
      ensures Valid() && View() == Spec.WithSession(old(View()), session.id, session.View())
    {
      assert View().objects == old(View()).objects[session.id := session.View()];
    }

    /** The second half of delete_session and of stop. */
    method MarkClosed(session: SessionState)
      requires Valid() && Knows(session)
      modifies session, this`closing
      ensures Valid() && View() == Spec.MarkClosed(old(View()), session.id)
    {
      ghost var before := View();
      session.closed := true;
      closing := closing - {session.id};
      assert View().objects == before.objects[session.id := session.View()];
    }

    /** begin_request behind the lookup. */
    method BeginOn(session: SessionState, request: nat, user: Message, now: int)
      returns (r: Result<seq<Message>, Spec.Error>)
      requires Valid() && Knows(session)
      modifies session
      ensures Valid()
      ensures (View(), r) == Spec.Begin(old(View()), session.id, request, user, now)
      ensures r.Ok? <==> !old(session.closed) && old(session.activeRequest).None?
      ensures r.Ok? ==> r.value == old(session.history) + [user] && session.activeRequest == Some(request)
                        && session.lastUsed == now && session.expiresAt == now + config.ttl
    {
      if session.closed {
        return Err(Spec.UnknownSession);
      }
      if session.activeRequest.Some? {
        return Err(Spec.Busy);
      }
      var messages := session.history + [user];
      session.activeRequest := Some(request);
      session.Touch(now, config.ttl);
      OnlyThisSession(session);
      r := Ok(messages);
    }

    /** commit_result and commit_response_text behind the lookup. */
    method CommitOn(session: SessionState, request: nat, user: Message, reply: Option<string>, now: int)
      returns (ghost kept: seq<Message>)
      requires Valid() && Knows(session)
      modifies session
      ensures Valid()
      ensures reply.Some? && old(session.activeRequest) == Some(request) && !old(session.closed) ==>
        IsTrimmed(Spec.Appended(old(session.View()), user, reply.value), config.maxHistory, kept)
      ensures View() == Spec.Commit(old(View()), session.id, request, user, reply, kept, now)
      ensures if old(session.activeRequest) == Some(request)
              then session.activeRequest.None? && session.lastUsed == now && session.expiresAt == now + config.ttl
              else unchanged(session)
    {
      kept := [];
      if session.activeRequest != Some(request) {
        return;
      }
      if !session.closed && reply.Some? {
        session.history := session.history + [user];
        session.history := session.history + [AssistantMessage(reply.value)];
        assert session.history == Spec.Appended(old(session.View()), user, reply.value);
        var trimmed := TrimHistoryToFit(session.history, config.maxHistory);
        session.history := trimmed;
        kept := trimmed;
        session.log := session.log + [Turn(user, AssistantMessage(reply.value))];
      }
      session.activeRequest := None;
      session.Touch(now, config.ttl);
      OnlyThisSession(session);
    }

    /** release_request behind the lookup. */
    method ReleaseOn(session: SessionState, request: nat, now: int)
      requires Valid() && Knows(session)
      modifies session
      ensures Valid()
      ensures View() == Spec.Release(old(View()), session.id, request, now)
      ensures if old(session.activeRequest) == Some(request)
              then session.activeRequest.None? && session.lastUsed == now && session.expiresAt == now + config.ttl
                   && session.history == old(session.history) && session.closed == old(session.closed)
              else unchanged(session)
    {
      if session.activeRequest != Some(request) {
        return;
      }
      session.activeRequest := None;
      session.Touch(now, config.ttl);
      OnlyThisSession(session);
    }

    // ---------- a whole operation of a thread that runs alone ----------

    predicate IsWellFormed(request: ChatRequest) {
      && config.maxSessions > 0 && request.sessionId.Some? && request.model == config.modelId
      && |request.messages| == 1 && request.messages[0].role == User
    }

    /** begin_request. Checks come in this order: sessions enabled, id given, model known, exactly one user
        message, session known, session idle. A refused request changes nothing but what the reaping does. */
    method BeginRequest(request: ChatRequest, requestId: nat, lookupTime: int, now: int)
      returns (r: Result<seq<Message>, Spec.Error>)
      requires Valid() && Spec.Inv(View())
      modifies this`sessions, objects.Values
      ensures Valid()
      ensures r == Err(Spec.Disabled) <==> config.maxSessions == 0
      ensures r == Err(Spec.SessionIdRequired) <==> config.maxSessions > 0 && request.sessionId.None?
      ensures r == Err(Spec.UnknownModel) <==>
        config.maxSessions > 0 && request.sessionId.Some? && request.model != config.modelId
      ensures r == Err(Spec.NotOneUserMessage) <==>
        && config.maxSessions > 0 && request.sessionId.Some? && request.model == config.modelId
        && !(|request.messages| == 1 && request.messages[0].role == User)
      ensures !IsWellFormed(request) ==> View() == old(View())
      ensures IsWellFormed(request) ==>
        var id := request.sessionId.value;
        var lives := id in old(sessions)
                     && (old(sessions[id].activeRequest).Some? || old(sessions[id].expiresAt) > lookupTime);
        && (r == Err(Spec.UnknownSession) <==> !lives)
        && (r == Err(Spec.Busy) <==> lives && old(sessions[id].activeRequest).Some?)
        && (r.Ok? <==> lives && old(sessions[id].activeRequest).None?)
        && (r.Err? ==> View() == Spec.Reap(old(View()), lookupTime))
        && (r.Ok? ==> (View(), r) == Spec.Begin(Spec.Reap(old(View()), lookupTime), id, requestId, request.messages[0], now))
    {
      if config.maxSessions == 0 {
        return Err(Spec.Disabled);
      }
      if request.sessionId.None? {
        return Err(Spec.SessionIdRequired);
      }
      if request.model != config.modelId {
        return Err(Spec.UnknownModel);
      }
      if |request.messages| != 1 || request.messages[0].role != User {
        return Err(Spec.NotOneUserMessage);
      }
      var found := FindAfterReap(request.sessionId.value, lookupTime);
      if found.Err? {
        return Err(found.error);
      }
      r := BeginOn(found.value, requestId, request.messages[0], now);
    }
  }
}
