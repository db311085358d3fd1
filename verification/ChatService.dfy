/** The chat service object: its tables of running requests and the retained history. Each method is one
    critical section, and its contract says which step of ServiceSpec or of AgentHistory it is. */
module ChatService {
  import opened Wrappers
  import opened Messages
  import opened ServiceSpec
  import opened ServiceTheorems
  import History = AgentHistory

  /** CompletionLease: its callback runs on the first release, by hand or from the destructor. */
  class CompletionLease {
    var released: bool
    ghost var fired: nat

    ghost predicate Valid()
      reads this
    {
      fired == if released then 1 else 0
    }

    constructor ()
      ensures Valid() && !released
    {
      released, fired := false, 0;
    }

    /** `run` tells the caller to run the callback now. */
    method Release() returns (run: bool)
      requires Valid()
      modifies this
      ensures Valid() && released
      ensures run == !old(released)
      ensures fired == 1
    {
      run := !released;
      if run {
        released := true;
        fired := fired + 1;
      }
    }
  }

  class ZooChatService {
    var requestSystemPrompt: string
    var agentHistory: seq<Message>
    var activeSessionRequests: map<string, nat>
    var publicRequestCancellers: map<string, nat>

    /** The prompt and history as a state of AgentHistory; the tables as those of a service whose store and
        requests the model keeps. */
    ghost var state: History.State
    ghost var service: Service

    ghost predicate Valid()
      reads this
    {
      && state.prompt == requestSystemPrompt && state.messages == agentHistory
      && service.active == activeSessionRequests && service.cancellers == publicRequestCancellers
      && Inv(service)
    }

    constructor (systemPrompt: string, config: Sessions.Config)
      ensures Valid() && state == History.Initial(systemPrompt)
      ensures service == NewService(config, systemPrompt)
    {
      requestSystemPrompt := systemPrompt;
      agentHistory := if systemPrompt != "" then [SystemMessage(systemPrompt)] else [];
      activeSessionRequests, publicRequestCancellers := map[], map[];
      state := History.Initial(systemPrompt);
      service := NewService(config, systemPrompt);
      NewServiceInv(config, systemPrompt);
    }

    // ---------- the tables ----------

    /** track_session_request: from here on a delete finds the request, for good if all others of its session
        have fired their inner leases. */
    method TrackSessionRequest(sessionId: string, agentId: nat, ghost r: nat)
      requires Valid() && Enabled(service, Track(r))
      requires service.requests[r].sessionId == sessionId && service.requests[r].agentId == agentId
      modifies this`activeSessionRequests, this`service
      ensures Valid() && service == Apply(old(service), Track(r))
      ensures IsTracked(service, r) && Found(service, r)
      ensures OthersUntracked(old(service), r) ==> OthersUntracked(service, r)
    {
      hide Inv, Apply, Enabled, OthersUntracked, Found, IsTracked;
      TablesAfter(service, Track(r));
      StepKeepsInv(service, Track(r));
      TrackFinds(service, r);
      activeSessionRequests := activeSessionRequests[sessionId := agentId];
      service := Apply(service, Track(r));
    }

    /** untrack_session_request, at the start of on_result or of the inner lease. */
    method UntrackSessionRequest(sessionId: string, ghost r: nat, ghost step: Step)
      requires Valid() && (step == Observe(r) || step == FireInnerLease(r)) && Enabled(service, step)
      requires service.requests[r].sessionId == sessionId
      modifies this`activeSessionRequests, this`service
      ensures Valid() && service == Apply(old(service), step)
    {
      hide Inv, Apply, Enabled;
      TablesAfter(service, step);
      StepKeepsInv(service, step);
      activeSessionRequests := activeSessionRequests - {sessionId};
      service := Apply(service, step);
    }

    /** register_public_request, of a session request or of one outside the sessions: from here on its id can be
        cancelled. */
    method RegisterPublicRequest(publicId: string, agentId: nat, ghost r: nat, ghost step: Step)
      requires Valid() && Enabled(service, step) && RegistersAs(service, step, r, publicId, agentId)
      modifies this`publicRequestCancellers, this`service
      ensures Valid() && service == Apply(old(service), step)
      ensures IsEntry(service, r, publicId, agentId)
    {
      hide Inv, Apply, Enabled, IsEntry;
      TablesAfter(service, step);
      StepKeepsInv(service, step);
      EntryRegistered(service, step, r, publicId, agentId);
      publicRequestCancellers := publicRequestCancellers[publicId := agentId];
      service := Apply(service, step);
    }

    ghost predicate RegistersAs(s: Service, step: Step, r: nat, publicId: string, agentId: nat) {
      || (step == Register(r) && r in s.requests && s.requests[r].publicId == publicId && s.requests[r].agentId == agentId)
      || (step.BeginPlain? && step.r == r && PublicId(r, step.extraction) == publicId && step.agentId == agentId)
    }

    lemma EntryRegistered(s: Service, step: Step, r: nat, publicId: string, agentId: nat)
      requires Inv(s) && Enabled(s, step) && RegistersAs(s, step, r, publicId, agentId)
      ensures IsEntry(Apply(s, step), r, publicId, agentId)
    {
      EntryAfter(s, step, r, publicId, agentId);
    }

    /** unregister_public_request, by the first firing of the outer lease, or of the lease of a request outside
        the sessions. */
    method UnregisterPublicRequest(publicId: string, ghost r: nat, ghost step: Step)
      requires Valid() && Enabled(service, step) && UnregistersAs(service, step, r, publicId)
      modifies this`publicRequestCancellers, this`service
      ensures Valid() && service == Apply(old(service), step)
      ensures publicId !in publicRequestCancellers
    {
      hide Inv, Apply, Enabled;
      TablesAfter(service, step);
      StepKeepsInv(service, step);
      publicRequestCancellers := publicRequestCancellers - {publicId};
      service := Apply(service, step);
    }

    ghost predicate UnregistersAs(s: Service, step: Step, r: nat, publicId: string) {
      || (step == FireOuterLease(r) && r in s.requests && s.requests[r].publicId == publicId
          && (s.requests[r].phase.Outstanding? || s.requests[r].phase.Observed?))
      || (step == FirePlainLease(r) && r in s.plain && s.plain[r].publicId == publicId && s.plain[r].registered)
    }

    /** cancel_request: it finds the id exactly if a request with that id, in a session or not, was handed out and
        not unregistered, and then cancels the agent call of that request; any other id is unknown. */
    method CancelRequest(publicId: string) returns (agentId: Option<nat>)
      requires Valid()
      ensures agentId.Some? <==> exists r: nat, a: nat :: IsEntry(service, r, publicId, a)
      ensures forall r: nat, a: nat | IsEntry(service, r, publicId, a) :: agentId == Some(a)
    {
      hide IsEntry;
      if publicId !in publicRequestCancellers {
        return None;
      }
      agentId := Some(publicRequestCancellers[publicId]);
    }

    /** delete_session behind the store's delete: the agent call to cancel. It is a call of the deleted session,
        and the call of a tracked request that is found; the number 0 stands for no call. */
    method TakeTrackedRequest(sessionId: string) returns (agentId: Option<nat>)
      requires Valid() && Enabled(service, CancelDeleted(sessionId))
      modifies this`activeSessionRequests, this`service
      ensures Valid() && service == Apply(old(service), CancelDeleted(sessionId))
      ensures agentId.Some? ==>
        exists r :: r in old(service).requests && old(service).requests[r].sessionId == sessionId
                    && old(service).requests[r].agentId == agentId.value
      ensures forall r | r in old(service).requests && old(service).requests[r].sessionId == sessionId
                         && Found(old(service), r) && old(service).requests[r].agentId != 0 ::
        agentId == Some(old(service).requests[r].agentId)
    {
      hide Apply, Enabled, Inv;
      TablesAfter(service, CancelDeleted(sessionId));
      StepKeepsInv(service, CancelDeleted(sessionId));
      DeletedIsDue(service, sessionId);
      EntryNamesItsSession(service, sessionId);
      var zooRequestId := 0;
      if sessionId in activeSessionRequests {
        zooRequestId := activeSessionRequests[sessionId];
        activeSessionRequests := activeSessionRequests - {sessionId};
      }
      service := Apply(service, CancelDeleted(sessionId));
      agentId := if zooRequestId != 0 then Some(zooRequestId) else None;
    }

    lemma EntryNamesItsSession(s: Service, id: string)
      requires Inv(s)
      ensures id in s.active ==>
        exists r :: r in s.requests && s.requests[r].sessionId == id && s.requests[r].agentId == s.active[id]
    {
      assert id in s.active ==> ActiveEntryOk(s, id);
    }

    lemma DeletedIsDue(s: Service, id: string)
      requires Enabled(s, CancelDeleted(id))
      ensures id in s.due
    {
    }

    // ---------- the history ----------

    /** update_system_prompt_state; the caller passes the result on to the store. */
    method UpdateSystemPromptState(prompt: string) returns (local: string)
      requires Valid()
      modifies this`requestSystemPrompt, this`agentHistory, this`state
      ensures Valid() && local == prompt
      ensures state == History.Apply(old(state), History.UpdatePrompt(prompt))
    {
      requestSystemPrompt := prompt;
      if agentHistory != [] && agentHistory[0].role == System {
        if requestSystemPrompt == "" {
          agentHistory := agentHistory[1..];
        } else {
          agentHistory := agentHistory[0 := agentHistory[0].(content := requestSystemPrompt)];
        }
      } else if requestSystemPrompt != "" {
        agentHistory := [SystemMessage(requestSystemPrompt)] + agentHistory;
      }
      state := History.Apply(state, History.UpdatePrompt(prompt));
      local := requestSystemPrompt;
    }

    /** reset_agent_history_to_system_prompt */
    method ResetAgentHistory()
      requires Valid()
      modifies this`agentHistory, this`state
      ensures Valid() && state == History.Apply(old(state), History.Clear)
    {
      agentHistory := [];
      if requestSystemPrompt != "" {
        agentHistory := agentHistory + [SystemMessage(requestSystemPrompt)];
      }
      state := History.Apply(state, History.Clear);
    }

    /** swap_agent_history; replace_agent_history forgets what it returns. */
    method SwapAgentHistory(messages: seq<Message>) returns (previous: seq<Message>)
      requires Valid()
      modifies this`agentHistory, this`state
      ensures Valid() && previous == old(agentHistory)
      ensures state == History.Apply(old(state), History.Replace(messages))
    {
      previous := agentHistory;
      agentHistory := messages;
      state := History.Apply(state, History.Replace(messages));
    }

    /** append_agent_history_message; `accepts` is the role-sequence check. */
    method AppendAgentHistoryMessage(message: Message, accepts: (seq<Message>, Role) -> bool) returns (ok: bool)
      requires Valid()
      modifies this`agentHistory, this`state
      ensures Valid() && ok == accepts(old(agentHistory), message.role)
      ensures state == if ok then History.Apply(old(state), History.Append(message)) else old(state)
    {
      ok := accepts(agentHistory, message.role);
      if ok {
        agentHistory := agentHistory + [message];
        state := History.Apply(state, History.Append(message));
      }
    }

    /** The on_result observer of an agent chat. */
    method OnAgentChatResult(request: Message, reply: Option<string>)
      requires Valid()
      modifies this`agentHistory, this`state
      ensures Valid()
      ensures state == if reply.Some? then History.Apply(old(state), History.AgentCommit(request, reply.value)) else old(state)
    {
      if reply.None? {
        return;
      }
      agentHistory := agentHistory + [request];
      agentHistory := agentHistory + [AssistantMessage(reply.value)];
      state := History.Apply(state, History.AgentCommit(request, reply.value));
    }

    /** prepare_messages, of completions and of extractions: the conversation is kept, and the server's prompt
        comes first, joined with the one the request brought. */
    method PrepareMessages(messages: seq<Message>) returns (prepared: seq<Message>)
      requires Valid()
      ensures prepared == History.PrepareMessages(state.prompt, messages)
      ensures state.prompt == "" ==> prepared == messages
      ensures state.prompt != "" ==>
        && History.HasLeader(prepared) && History.Body(prepared) == History.Body(messages)
        && IsJoined(state.prompt, if History.HasLeader(messages) then messages[0].content else "", prepared[0].content)
    {
      History.PreparedMessages(state.prompt, messages);
      if requestSystemPrompt == "" {
        return messages;
      }
      if messages != [] && messages[0].role == System {
        prepared := [SystemMessage(CombineSystemPrompts(requestSystemPrompt, messages[0].content))];
        prepared := prepared + messages[1..];
      } else {
        prepared := [SystemMessage(requestSystemPrompt)];
        prepared := prepared + messages;
      }
    }
  }
}
