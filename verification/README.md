# Verification of the zoo-keeper server

This project models the stateful core of the server and proves what it guarantees.

- **Sessions** (`History`, `SessionSpec`, `SessionTheorems`, `SessionStore`). The session store is a step system
  whose steps are the critical sections of the map's lock and of each session's lock; each visit of the reaping
  pass is a step, and anything may come between two visits, more than the map's lock allows. A thread that has
  found a session keeps it after the map lock is released, so session steps may act on sessions the map no longer
  holds.
  The classes of `SessionStore` have the fields of the original; each method states which step it is.
- **Requests of the chat service** (`ServiceSpec`, `ServiceTheorems`, `AgentHistory`, `ChatService`). The life of a
  session request (draw an id, begin, track, register, observe, commit, the two nested leases) runs over the session
  store's steps, beside requests outside the sessions, which share the counter and the table of cancellers; requests
  interleave freely.
- **Streaming** (`FrameSink`, `StreamSpec`, `StreamRuns`, `StreamTheorems`, `StreamingSession`). Completion and extraction
  sessions differ only in the frames they make, so one step system and one class with a `kind` stand for both.
  Tokens may come before the metadata, the stream may be attached at any time, a send may be refused, and a
  disconnect may close at any time.
- **Text** (`Decimal`, `JsonText`, `Json`, `SseFrames`, `SseClient`, `MessageCodec`). The hand-written escaper and
  chunk writer, JSON text with its reader, the bundled client's splitter and message bodies. The client is proved
  against the wire text of the frames, whichever way that is cut into chunks, and composed with the streaming
  results.
- **Runtime** (`Executor`, `Runtime`, `ServerRuntime`, `DisconnectRegistry`). The bounded executor, its workers, the
  reaper and the order of stop; callbacks by connection.
- **Command tools** (`CommandTools`, `PathSearch`) and **authorisation** (`Auth`). The supervision loop is a function
  of the scripts of its system calls; the loop itself is proved to follow it.

Concurrency is modelled by interleaving: a step is one critical section, or one action outside all locks, and a
theorem over runs holds for every interleaving of steps. Waits are the predicates they wait for. The answers of
the outside world (a stream that refuses a frame, a pipe, a child process, a clock, the file system, the agent's
result, the check of role sequences) are parameters of the steps or scripts fixed in advance, and every theorem
is about all of them. A character stands for one byte; no result depends on how large characters are.

Where the code differs from what its comments or names suggest, the model follows the code:

- Deleting a session does not always cancel its request. `untrack_session_request` erases by session id, so the late
  lease of an earlier request erases the entry of a newer one (`ServiceTheorems.LateLeaseIsReachable`); and a delete
  between `begin_request` and `track_session_request` finds no entry at all, while none comes afterwards
  (`ServiceTheorems.DeleteMissesTheUntracked`, `NoFurtherDelete`). From which states on every delete finds the request
  is `ServiceTheorems.FoundInEveryContinuation`.
- A session can be busy with a request that nothing can cancel any more
  (`ServiceTheorems.BusyWithoutCanceller`).
- A request can begin on a session that a delete has already taken out of the map
  (`SessionTheorems.DetachedBeginHappens`).
- `set_metadata` pushes the early tokens outside the lock, so a later token can overtake them
  (`StreamTheorems.OvertakingHappens`).
- Two overlapping calls of `set_system_prompt` can leave the session store with the prompt of the earlier one
  (`AgentHistory.OverlappingUpdatesDisagree`); when they agree is `AgentHistory.CallsAgreeIffSettled`.
- A system message appended to an empty history is overwritten by the next update of the prompt
  (`AgentHistory.AppendedSystemMessageIsOverwritten`); `AgentHistory.HistoryIsPromptAndConversation` says of exactly
  which runs this is true.
- A tool message with an empty call id is accepted but written so that it is refused
  (`MessageCodec.EmptyCallIdIsLost`), and a history response is not a valid history request
  (`MessageCodec.SnapshotIsRefused`).
- An empty entry of PATH joins a relative base directory to itself (`PathSearch.EmptyEntryIsBase`).

`dafny verify dfyconfig.toml` checks the whole project.

## Model
| member | source | states |
|---|---|---|
| History.TrimHistoryToFit | src/server/session_manager.cpp:23-46 | The scanning trim keeps the leading system message and the longest suffix of the rest that starts with a user message and fits the limit; a history that fits is unchanged. |
| History.TrimmedIsUnique | src/server/session_manager.cpp:23-46 | That description determines the result: any two trims of one history agree. |
| History.TrimOfLogIsWindow | src/server/session_manager.cpp:23-46 | Trimming a whole log of turns behind its system prefix leaves the prefix and the last min(n, max/2) turns. |
| History.CommitKeepsWindow | src/server/session_manager.cpp:313-317 | One commit, append and trim, turns the window of a log into the window of the log with the new turn, for every limit including odd ones, 0 and 1. |
| History.WindowedHistoryIsAgentInput | src/server/session_manager.cpp:284-287 | Prefix, window and a user message have the shape system? (user assistant)* user and respect the limit. |
| SessionTheorems.HistoryIsWindowOfCommits | src/server/session_manager.cpp:295-349 | In every state of every run a session's history is its initial system prefix followed by exactly the last min(n, max/2) of the n turns committed to it in that run. |
| SessionTheorems.HandedMessages | src/server/session_manager.cpp:233-293 | Every successful begin hands the agent prefix, window of the committed turns and the new user message, in the shape system? (user assistant)* user. |
| SessionTheorems.LogIsCommittedTurns | src/server/session_manager.cpp:295-349 | The recorded log is exactly the turns of the effective commits of the run, in order. |
| SessionTheorems.StepOnSession | src/server/session_manager.cpp:88-386 | Everything a step may do to one session: who may occupy it, free it, add a turn, close it, and that exactly a begin that gets it and a finish of its owner touch it, with the time of the step and a new expiry; nothing else changes it. |
| SessionTheorems.ClosedIsFinal | src/server/session_manager.cpp:202-226 | Sessions never disappear, closing never reverts, a closed session's history is frozen, and once idle it is never busy again. |
| SessionTheorems.LeftForGood | src/server/session_manager.cpp:154-160 | Ids are never reused: a session that left the map never returns to it. |
| SessionTheorems.StoppedStaysEmpty | src/server/session_manager.cpp:371-386 | After stop the map is empty in every later state. |
| SessionTheorems.EveryStateIsSane | src/server/session_manager.cpp:83-110 | In every state the map is within its bound and holds only open sessions, and expires_at is last_used plus the time to live. |
| SessionTheorems.CreateOutcome | src/server/session_manager.cpp:139-160 | A create makes a session if and only if the store is not stopping and the map has room; the session is new, open, idle and expires its time to live from now; a refused create changes nothing. |
| SessionTheorems.MappedUntilRemoved | src/server/session_manager.cpp:88-110 | In every run the map holds exactly the sessions that were made and that no delete, no stop and no visit after their expiry has taken out since. |
| SessionTheorems.IdsAreConsecutive | src/server/session_manager.cpp:154-156 | In every run the sessions are numbered from 1 in the order in which they were made, without gaps. |
| SessionTheorems.SessionIdText | src/server/session_manager.cpp:154-156 | The text of an id is "sess-" and the decimal number of the session. |
| SessionTheorems.PrefixIsThePrompts | src/server/session_manager.cpp:13-21 | In every run a session keeps as its prefix the server prompt at its creation and the prompt of its request, joined by a blank line where both are given; none if neither is. |
| SessionTheorems.PromptIsTheLastSet | src/server/session_manager.cpp:228-231 | The server prompt is the one set last in the run, or the one the store was made with. |
| SessionTheorems.LastUsedAtLastUse | src/server/session_manager.cpp:83-86 | In every run a session was last used when its last effective begin, commit or release came, or else when it was made, and it expires its time to live after that. |
| SessionTheorems.ReapedExactlyWhenIdle | src/server/session_manager.cpp:95-108 | In every run a visit takes a session out of the map, and closes it, if and only if no request that began on it is still running and its time to live has passed since its last use. |
| SessionTheorems.LeavingTheMap | src/server/session_manager.cpp:88-110 | A session leaves the map only by delete, stop, or a visit that finds it idle and expired and closes it; whatever comes between the visits of a pass, a busy session is never reaped. |
| SessionTheorems.BeginSucceedsExactly | src/server/session_manager.cpp:273-292 | In every run a begin succeeds exactly if no earlier step closed the session and no earlier begin still owns it; it is refused as busy exactly if one does, and finds the session gone exactly if a step closed it. |
| SessionTheorems.ClosedByAStep | src/server/session_manager.cpp:88-110 | A session is closed exactly if the second half of a delete or stop, or a visit that found it expired, has closed it. |
| SessionTheorems.FinishEndsItsOwnBegin | src/server/session_manager.cpp:308-320 | In every run a commit or release changes the store only if a begin with its request id still owns the session at that moment. |
| SessionTheorems.LateFinishChangesNothing | src/server/session_manager.cpp:351-369 | With unique request ids, every further commit or release of a finished request leaves the store as it is. |
| SessionTheorems.BeginOwns | src/server/session_manager.cpp:273-289 | A successful begin owns its session until the first commit or release with its id: it stays active, the log stays as it is, every other begin fails. |
| SessionTheorems.FinishedForGood | src/server/session_manager.cpp:351-369 | With unique request ids a finished request never owns a session again, so its late commit or release cannot free a newer one. |
| SessionTheorems.FinishFollowsBegin | src/server/session_manager.cpp:279-289 | A session is busy only with a request that successfully began on it earlier in the run. |
| SessionTheorems.OneTurnPerRequest | src/server/session_manager.cpp:295-349 | Two turns of a session never come from the same request. |
| SessionTheorems.DetachedBeginNeedsTheGap | src/server/session_manager.cpp:202-226 | Outside the map a begin succeeds exactly in the gap between the two halves of the delete or stop that removed the session, and if the session is idle. |
| SessionTheorems.DetachedBeginHappens | src/server/session_manager.cpp:202-293 | And there it does: a concrete run with create, erase and begin. |
| SessionSpec.StepKeepsInv | src/server/session_manager.cpp:88-386 | Every critical section keeps the store's invariant: windowed histories, expiry, id bounds, open in the map, closed outside it except in the gap, capacity, empty after stop. |
| SessionSpec.NextIdIsNew | src/server/session_manager.cpp:154-160 | The next generated id belongs to no session ever made. |
| SessionSpec.PassIsReap | src/server/session_manager.cpp:88-110 | An undisturbed pass gives the same store in whatever order it visits the map. |
| SessionTheorems.PassLeavesTheLiving | src/server/session_manager.cpp:88-110 | The ids such a pass leaves are exactly the mapped ones whose session is busy or expires later than now; the sessions of the others are closed, and nothing else changes. |
| SessionTheorems.ReapLeavesTheLiving | src/server/session_manager.cpp:88-110 | And so does the pass that create, get and begin start with. |
| SessionStore.SessionStore.ReapExpiredSessionsLocked | src/server/session_manager.cpp:88-110 | The erasing loop over the map, in any order, is such a pass: of the session objects, those left are the ones closed before, busy or not expired; the others are closed. |
| SessionStore.SessionStore.VisitSession | src/server/session_manager.cpp:91-108 | One iteration, under the session's lock, is the visit step: only this session may leave, and does exactly if it is open, idle and expired. |
| SessionStore.SessionStore.CreateSession | src/server/session_manager.cpp:127-175 | All outcomes of create: disabled, unknown model, stopping, full after reaping, or a fresh session with the next id. |
| SessionStore.SessionStore.FindAfterReap | src/server/session_manager.cpp:184-193 | The lookup reaps first and finds a session if and only if it is still mapped. |
| SessionStore.SessionStore.Erase | src/server/session_manager.cpp:202-217 | The first half of a delete: refused when sessions are disabled or the id is not mapped; else the session leaves the map and is not yet closed. |
| SessionStore.SessionStore.StopLocked | src/server/session_manager.cpp:371-380 | The first stop empties the map and hands over all its sessions; a later one does nothing. |
| SessionStore.SessionStore.MarkClosed | src/server/session_manager.cpp:219-222 | The second half of delete and stop. |
| SessionStore.SessionStore.BeginOn | src/server/session_manager.cpp:273-292 | The locked part of begin is the begin step of the specification, result included. |
| SessionStore.SessionStore.CommitOn | src/server/session_manager.cpp:295-349 | The locked part of both commits is the commit step, with the history the trim produced; for the owner it frees and touches the session, for anyone else it changes nothing. |
| SessionStore.SessionStore.ReleaseOn | src/server/session_manager.cpp:351-369 | The locked part of release is the release step. |
| SessionStore.SessionStore.BeginRequest | src/server/session_manager.cpp:233-293 | The whole of begin_request for a thread that runs alone: success and each error exactly when they come, checks in order, and what each leaves unchanged. |
| ServiceTheorems.BusySessionHasOneHolder | src/server/chat_service.cpp:217-276 | In every run a session of the map is busy with r if and only if r is a request of it that has neither committed nor run its release: a busy session has exactly one such request, an idle one none. |
| ServiceTheorems.HolderCanBeCancelled | src/server/chat_service.cpp:457-470 | The public id of that request can be cancelled exactly while it is outstanding, and then cancels its agent call. |
| ServiceTheorems.BusyWithoutCanceller | src/server/chat_service.cpp:267-275 | Not always: a run in which the outer lease has fired, the session is still busy and no canceller is left. |
| ServiceTheorems.CancellersAreOutstanding | src/server/chat_service.cpp:698-706 | The canceller table holds exactly the public ids of the requests handed out and not yet unregistered, session requests, plain completions, extractions and agent chats alike, each with its own agent call. |
| ServiceTheorems.AllReleasedMeansIdle | src/server/completion_controller.cpp:21-33 | Once the leases of all requests, in sessions or not, have fired through, no mapped session is busy and the table is empty. |
| ServiceTheorems.CommitTakesEffect | src/server/chat_service.cpp:262-266 | A commit of the service finds its own request active, frees the session and adds its turn unless the session was closed meanwhile. |
| ServiceTheorems.LeaseFiresOnce | src/server/api_types.hpp:254-274 | Releasing a lease again, by hand or by its destructor, has no effect. |
| ServiceTheorems.DeleteCancelsOnlyItsOwn | src/server/chat_service.cpp:484-505 | What a delete cancels is the request the deleted session is busy with, after it was tracked and before it was observed or released. |
| ServiceTheorems.TrackedIsFound | src/server/chat_service.cpp:687-696 | If all other requests of the session have fired their inner leases when a request is tracked, then in every run a delete finds it as long as it is tracked or outstanding. |
| ServiceTheorems.DeleteCancelsTheTracked | src/server/chat_service.cpp:484-505 | So a delete that follows cancels its agent call. |
| ServiceTheorems.FoundInEveryContinuation | src/server/chat_service.cpp:687-696 | The exact condition, in every reachable state in which a delete may still come: every continuation lets it find the request until that is observed or its outer lease fires, if and only if the request has been tracked, its entry is there, and all other requests of its session have fired their inner leases. |
| ServiceTheorems.DeleteMissesTheUntracked | src/server/chat_service.cpp:228-244 | A run from the start of the service: a delete between begin and track finds nothing on a session that is busy with its only request, which is tracked afterwards outside the map. |
| ServiceTheorems.NoFurtherDelete | src/server/chat_service.cpp:484-505 | In no run does a session outside the map, with no delete under way, see another delete. |
| ServiceTheorems.DeleteOwesOneLook | src/server/chat_service.cpp:484-505 | In every run a delete that the store has made owes one look for a request to cancel, from then until it takes it. |
| ServiceTheorems.LateLeaseErasesNewerEntry | src/server/chat_service.cpp:693-696 | The late inner lease of an older request erases the entry of the request that holds the session. |
| ServiceTheorems.LateLeaseIsReachable | src/server/chat_service.cpp:217-276 | A run from the start of the service ends there: session busy with the second request, its entry gone. |
| ServiceTheorems.ServiceRunIsStoreRun | src/server/chat_service.cpp:217-455 | Every run of the service is a run of the session store in which no two begins share a request id. |
| ServiceTheorems.TurnsOfTheService | src/server/chat_service.cpp:217-455 | So in every run of the service each session's history is the window over turns that come from different requests, each of which began on the session earlier and still owned it. |
| ServiceSpec.StepKeepsInv | src/server/chat_service.cpp:217-276 | Every step of every request keeps owners, cancellers, tracked entries and due deletes consistent with the session store. |
| ServiceSpec.PublicIdInjective | src/server/chat_service.cpp:399-414 | Public ids of different requests differ, completions and extractions included. |
| ServiceSpec.PublicIdText | src/server/chat_service.cpp:199-201 | A public id is the kind of its request, "chatcmpl-" or "extract-", and its number in decimal digits. |
| ChatService.CompletionLease.Release | src/server/api_types.hpp:254-274 | The callback is due on the first release only. |
| ChatService.ZooChatService.TrackSessionRequest | src/server/chat_service.cpp:687-691 | The track step: from here on a delete finds the request. |
| ChatService.ZooChatService.TakeTrackedRequest | src/server/chat_service.cpp:490-502 | The cancelling half of delete: what it cancels is a call of the deleted session, and the call of every request that is found. |
| ChatService.ZooChatService.CancelRequest | src/server/chat_service.cpp:457-470 | An id is found exactly if some request, in a session or not, was handed out under it and not unregistered, and what is cancelled is the agent call of every such request. |
| ChatService.ZooChatService.UpdateSystemPromptState | src/server/chat_service.cpp:662-677 | The in-place update is the update step on prompt and history. |
| ChatService.ZooChatService.AppendAgentHistoryMessage | src/server/chat_service.cpp:551-567 | A message joins the history if and only if the role check accepts it behind what is there. |
| AgentHistory.PromptAlwaysLeads | src/server/chat_service.cpp:662-685 | Over every run of updates, clears, appends and agent chats a non-empty prompt is the leading system message. |
| AgentHistory.StepKeepsLeader | src/server/chat_service.cpp:524-549 | With replace and swap: a step loses the leading prompt exactly if it is a replacement that does not begin with it. |
| AgentHistory.PromptLeadsIff | src/server/chat_service.cpp:524-549 | In any run, behind its last replacement: the prompt leads if and only if an update or clear came after it, or the prompt is empty, or the conversation that the replacement started begins with it. |
| AgentHistory.HistoryIsPromptAndConversation | src/server/chat_service.cpp:662-685 | Over every run without replacements: the history is at all times the current prompt followed by what was appended and committed since the last clear, if and only if no update comes while the prompt is empty and the conversation opens with a system message. |
| AgentHistory.AppendedSystemMessageIsOverwritten | src/server/chat_service.cpp:662-677 | A run of two steps that breaks this: the update overwrites a system message appended to an empty history. |
| AgentHistory.LaterUpdateWins | src/server/chat_service.cpp:662-677 | update(p) then update(q) equals update(q), exactly under the stated condition, which every non-empty p meets. |
| AgentHistory.SerialCallsAgree | src/server/chat_service.cpp:574-583 | Over every run in which no call of set_system_prompt overlaps another, history and store have the same prompt whenever no call is running. |
| AgentHistory.CallsAgreeIffSettled | src/server/chat_service.cpp:574-583 | In any state: however the running calls return, both end with the same prompt, if and only if every prompt still on its way is the installed one (and the store has it if none is). |
| AgentHistory.CallSettles | src/server/chat_service.cpp:574-583 | A call leaves such a state exactly if every call still running installs the same prompt. |
| AgentHistory.OverlappingUpdatesDisagree | src/server/chat_service.cpp:574-583 | A run of two overlapping calls after which they differ. |
| StreamTheorems.DeliveredIsPrefix | src/server/completion_controller.cpp:91-117 | In every run delivered frames followed by buffered ones are a prefix of the produced ones, all of them unless closing; nothing is sent after a close; at most one send is refused, with one cancel. |
| StreamTheorems.AttachTimeIsIrrelevant | src/server/completion_controller.cpp:91-117 | Two runs whose agent side is the same, attached anywhere, deliver the same frames, if no send fails and no disconnect comes before the finish. |
| StreamTheorems.AttachedEarlyOrLate | src/server/completion_controller.cpp:91-117 | Of any undisturbed run without attachment, every place to attach is possible and delivers the same frames. |
| StreamTheorems.AttachedDeliversAll | src/server/completion_controller.cpp:91-117 | An undisturbed run that attaches delivers every produced frame, in order. |
| StreamRuns.AttachAnywhere | src/server/completion_controller.cpp:91-117 | Inserting an attachment at any place of an undisturbed run gives an undisturbed run with the same agent side. |
| StreamRuns.StreamHasNoPartInTheWord | src/server/completion_controller.cpp:119-188 | Runs that agree but for attaching, closing and the stream's answers end in states that differ in the sink only. |
| StreamRuns.UndisturbedLosesNothing | src/server/completion_controller.cpp:190-233 | In every run in which all sends are accepted and no disconnect comes before the finish, no frame is lost. |
| StreamTheorems.FinishedStreamIsClosed | src/server/completion_controller.cpp:190-207 | A finished session with no close owed has closed its attached stream, at least once. |
| StreamTheorems.EachTokenHasOneFrame | src/server/completion_controller.cpp:70-84 | Every non-empty token waits or has exactly one frame; early and late tokens keep their order; arrival order holds exactly when no token was pushed inside the drain. |
| StreamTheorems.OvertakingHappens | src/server/completion_controller.cpp:70-84 | A run in which a late token is framed before an early one. |
| StreamRuns.NoOvertakingIff | src/server/completion_controller.cpp:70-84 | No token is overtaken exactly if, by the steps of the run, none is pushed while the drain is going on. |
| StreamTheorems.DeliveredGrammar | src/server/completion_controller.cpp:119-188 | At every moment the delivered stream is a prefix of First Content* Stop Done, or a lone Error; the role stands in the first frame only; Done is last and follows Stop. |
| StreamTheorems.ContentsOfWord | src/server/completion_controller.cpp:146-176 | A successful completion carries its tokens, or the response text if there was none. |
| StreamTheorems.ClientSeesTheTokens | src/server/test_ui.js:300-326 | End to end, from the steps alone: the agent succeeds, the stream is attached at some time, no send fails, no disconnect comes before the finish and no token is pushed inside the drain; then the client, reading the bytes in any chunks, ends with the pushed tokens in order, or the response text if there were none. |
| StreamTheorems.ClientSeesAllTokens | src/server/test_ui.js:300-326 | The same for pushes at any time, in the order of the frames. |
| StreamTheorems.ClientReadsTheChunks | src/server/completion_controller.cpp:119-188 | Payload by payload, for success and failure: one chunk for each token in order, all with the metadata of the one call of set_metadata, the first with the role, or the response text or the error in their place; then stop and the end marker after a success. |
| StreamTheorems.ClientReadsTheDeltas | src/server/api_routes.cpp:171-214 | The payloads of an extraction: for each token in order an object with just that token under "delta", then the body of the result and the end marker, or the error. |
| StreamSpec.StepKeepsInv | src/server/api_routes.cpp:120-274 | Every critical section of both session classes keeps conservation, flags, grammar word and the bound close; what the frames of the word say on the wire is `StreamTheorems.ClientReadsTheChunks` and `ClientReadsTheDeltas`. |
| FrameSink.AttachSends | src/server/completion_controller.cpp:91-117 | Attaching delivers the buffered frames in order up to the first refusal, which takes the one cancel, and all of them without one. |
| FrameSink.SendLastKeepsInv | src/server/completion_controller.cpp:146-188 | A finish offers its frames in order and leaves a close owed. |
| StreamingSession.Session.SetMetadata | src/server/completion_controller.cpp:70-84 | The locked part takes exactly the waiting tokens for the drain. |
| StreamingSession.Session.PushFrameLocked | src/server/completion_controller.cpp:216-233 | Drops, buffers or sends the frame, and asks for a close exactly on a refused send. |
| StreamingSession.Session.PushToken | src/server/completion_controller.cpp:119-144 | Ignores, stores or emits a token as the push step says. |
| StreamingSession.Session.FinishSuccess | src/server/completion_controller.cpp:146-176 | Sends exactly the final frames of the specification, one answer for each. |
| StreamingSession.Session.FinishError | src/server/completion_controller.cpp:178-188 | Sends the error alone, or nothing where a completion already spoke. |
| StreamingSession.Session.AttachStream | src/server/completion_controller.cpp:91-117 | The sending loop is the attach step, with the position of the first refusal. |
| StreamingSession.Session.Close | src/server/completion_controller.cpp:190-207 | Takes the stream out for closing, so that later calls find none; a second call without a stream changes nothing. |
| JsonText.AppendJsonEscaped | src/server/streaming.cpp:11-48 | The escaping loop appends the escaped form of the whole text. |
| JsonText.ReadStringOfEscaped | src/server/streaming.cpp:11-48 | By the string grammar of section 7 of RFC 8259, escaped text and its closing quote read back as the original, whatever follows. |
| JsonText.EscapedIsPrintable | src/server/streaming.cpp:34-44 | The output has no character below 0x20 and every quote in it follows a backslash. |
| Json.ParseOfPrint | src/server/streaming.cpp:96-98 | Compact JSON text of any value, numbers with fractions and exponents included, reads back as that value. |
| Json.ParseTakesTheWhole | src/server/command_tools.cpp:789-795 | Behind the text of a value nothing but blanks may follow, and blanks may come before it. |
| Json.PrintHasNoLineBreak | src/server/streaming.cpp:96-98 | Compact JSON text is one line. |
| SseFrames.MakeChunk | src/server/streaming.cpp:50-92 | The piecewise writer produces exactly the event frame of the chunk's compact JSON. |
| SseFrames.ChunkReadsBack | src/server/streaming.cpp:50-92 | A chunk's text parses back, by the names of its fields, to its object kind, id, created, model, the one choice with index 0, content, role and finish reason. |
| SseFrames.BodyReadsBack | src/server/api_routes.cpp:183-207 | The text of an extraction's delta parses to an object with the token under its one key; those of a result and of an error parse to their bodies. |
| SseFrames.PayloadIsOneLine | src/server/streaming.cpp:96-102 | A frame has line breaks only as its final pair. |
| SseClient.BlocksOfAppend | src/server/test_ui.js:302-308 | Cutting at blank lines as text arrives finds the blocks of the whole text, with the rest carried over. |
| SseClient.ParseEventBlock | src/server/test_ui.js:267-276 | The loop over the lines of a block collects its data payload. |
| SseClient.EventDataExactly | src/server/test_ui.js:267-276 | For any lines: the data of the block is what follows "data:" on exactly the lines that begin with it, in order, without leading blanks, joined by line breaks. |
| SseClient.RunStreamingCompletion | src/server/test_ui.js:300-326 | The read loop ends with the outcome of the whole text, however it was cut into chunks. |
| SseClient.ClientExactly | src/server/test_ui.js:300-326 | The client fails if and only if some non-empty payload is neither the end marker nor JSON; else it has listed all of them in order and joined the contents of those that are JSON. |
| SseClient.ContentIsOfTheFirstChoice | src/server/test_ui.js:314-319 | The content of a payload is the string under the first choice's delta, and nothing for any other payload. |
| SseClient.ClientOfWire | src/server/test_ui.js:300-326 | For all frames and all cuts the client recovers every payload in order and joins their contents. |
| SseClient.ChunkContent | src/server/test_ui.js:314-319 | The content the client takes from a chunk is the token it was made from. |
| MessageCodec.MakeMessageBody | src/server/api_routes.cpp:22-38 | The body filled step by step, with the loop over the calls, is the message's body value. |
| MessageCodec.MessageLookups | src/server/api_routes.cpp:22-38 | A body has content and role always, the call id and the calls only when not empty, and no other key. |
| MessageCodec.CollectToolCalls | src/server/api_json.cpp:143-151 | The loop returns all calls in order, or the error of the first refused one. |
| MessageCodec.ParseAgentHistoryRequest | src/server/api_json.cpp:551-577 | The loop over the messages is the reader of the specification, which `RequestReadExactly` and `RequestRefusals` describe. |
| MessageCodec.RequestReadExactly | src/server/api_json.cpp:551-577 | A request is accepted, with these messages, if and only if its text is a JSON object with the one key "messages" over an array whose items stand for the messages in an order of roles that the check accepts. |
| MessageCodec.MessageReadExactly | src/server/api_json.cpp:92-166 | A value is read as this message if and only if it is an object with no unknown key, a known role name and a content, a call id exactly for a tool, and calls that stand for the message's at most for an assistant. |
| MessageCodec.CallReadExactly | src/server/api_json.cpp:46-90 | A value is read as this call if and only if it is an object of type "function" with its id, name and arguments as strings and no unknown key, outside or inside. |
| MessageCodec.MessageRefusals | src/server/api_json.cpp:92-118 | Which of the first four errors a message gets, each exactly when the checks before it pass and its own fails. |
| MessageCodec.MessageShapeRefusals | src/server/api_json.cpp:120-158 | The same for the errors about call id and calls. |
| MessageCodec.CallRefusals | src/server/api_json.cpp:46-83 | The same for the eight errors of a call. |
| MessageCodec.RequestRefusals | src/server/api_json.cpp:551-567 | The same for the errors of the request as a whole. |
| MessageCodec.FirstRefusal | src/server/api_json.cpp:569-576 | Else the first message that is refused gives the error, its own or that of the role sequence behind the messages before it. |
| MessageCodec.ParseRole | src/server/api_json.cpp:28-44 | A role is accepted if and only if its name is one of the four. |
| MessageCodec.AcceptedMessagesAreProper | src/server/api_json.cpp:92-166 | Accepted messages carry calls only if assistant and a call id only if tool, and each passed the role check behind the ones before it. |
| MessageCodec.MessageReadsBack | src/server/api_routes.cpp:22-38 | A written message reads back as itself exactly if its shape is proper and a tool message names its call. |
| MessageCodec.HistoryRoundTrip | src/server/api_routes.cpp:40-49 | Through the text, for every list: writing and reading gives it back if and only if it is acceptable and each tool message names its call. |
| MessageCodec.DeliveredListsRoundTrip | src/server/api_json.cpp:551-577 | A list some request delivered survives if and only if its tool messages have non-empty call ids. |
| MessageCodec.EmptyCallIdIsLost | src/server/api_json.cpp:123-127 | The exception: an empty call id is accepted and then lost. |
| MessageCodec.SnapshotReadsBack | src/server/api_routes.cpp:40-49 | The body of a history response reads back with its counters under their names, and what stands under "messages" stands for the list if and only if the list survives. |
| MessageCodec.SnapshotIsRefused | src/server/api_routes.cpp:40-49 | A history response sent back as a request is refused for its counters. |
| Executor.BoundedExecutor.Submit | src/server/executor.cpp:21-35 | A task is accepted at the back exactly if not stopping and below the bound; the error says which. |
| Executor.BoundedExecutor.Take | src/server/executor.cpp:58-67 | A worker gets the oldest task, or exits exactly when stopping with an empty queue. |
| Runtime.TasksAreConserved | src/server/executor.cpp:21-77 | In every run accepted tasks are the taken ones followed by the queue, within the bound, and each taken one is finished or in one worker's hand. |
| Runtime.ServiceStopsLast | src/server/runtime.cpp:63-82 | When stop reaches the chat service the reaper is gone, all workers have exited, and exactly the accepted tasks have finished. |
| Runtime.NothingAcceptedAfterStop | src/server/runtime.hpp:73-79 | Once stopping, no task is accepted any more. |
| Runtime.QueuedTaskMoves | src/server/executor.cpp:58-77 | While a task is queued some worker can take the oldest one or finish the one it has; every idle worker can take it. |
| Runtime.ShapeOfRuntime | src/server/executor.cpp:7-20 | In every run there are as many workers and slots as asked for, and at least one of each. |
| Runtime.ReaperServesSessions | src/server/runtime.cpp:93-103 | With sessions the reaper stays until the runtime is stopping and reaps at each wake-up until then; without sessions it never wakes. |
| Runtime.StopIsBounded | src/server/runtime.cpp:63-103 | Once the runtime is stopping, steps of progress are exactly what is taken off a fixed measure: workers, reaper and stop make finitely many. |
| Runtime.StopNeverBlocks | src/server/executor.cpp:37-67 | Until stop has reached the chat service some thread can make progress, tasks being taken to return: neither join deadlocks. |
| Runtime.StopCompletes | src/server/runtime.cpp:63-103 | A run that can make no more progress has stopped the chat service, with exactly the accepted tasks finished. |
| Runtime.StepKeepsInv | src/server/runtime.cpp:63-103 | Every step keeps conservation, the bound, exit only from an empty closed queue, and the order of stop. |
| ServerRuntime.ServerRuntime.SubmitBackground | src/server/runtime.hpp:73-79 | Accepts exactly if neither the runtime nor the executor is stopping and the queue is below its bound. |
| ServerRuntime.ServerRuntime.BeginStop | src/server/runtime.cpp:63-70 | Only the first caller goes on to the joins. |
| ServerRuntime.ServerRuntime.ReaperWakes | src/server/runtime.cpp:93-103 | The reaper leaves at a wake-up exactly if the runtime is stopping. |
| DisconnectRegistry.CallbacksAreConserved | src/server/api_routes.cpp:473-521 | In every run each id handed out is pending, cleared or taken, and in one of these only; it fires at most once, never if cleared; no connection keeps an empty table. |
| DisconnectRegistry.CallbacksBelongToTheirConnection | src/server/api_routes.cpp:473-521 | In every run a callback is pending on just the connection it was tracked on until it is cleared there or that connection disconnects, and is taken out to be fired exactly by the first such disconnect, if not cleared before. |
| DisconnectRegistry.ClearedNeverFires | src/server/api_routes.cpp:473-521 | A cleared callback never fires in any continuation. |
| DisconnectRegistry.Registry.TrackCallback | src/server/api_routes.cpp:473-480 | The id returned was never handed out before. |
| DisconnectRegistry.Registry.ClearCallback | src/server/api_routes.cpp:482-494 | Removes the callback and a table that became empty. |
| DisconnectRegistry.Registry.TakeCallbacks | src/server/api_routes.cpp:496-514 | A disconnect takes all of the connection's callbacks at once. |
| CommandTools.ReadAvailable | src/server/command_tools.cpp:213-241 | Over any number of calls the capture holds exactly the first max bytes that ever came and is truncated exactly if more came. |
| CommandTools.DrainTakesTheFront | src/server/command_tools.cpp:213-241 | One drain takes the front of what the pipe carries, and all of it exactly when it reports the end. |
| CommandTools.DrainStopsAt | src/server/command_tools.cpp:213-241 | It goes on over data and interruptions and stops at the first other event, which decides between pause, end and failure. |
| CommandTools.ScopedChildProcess.TryWait | src/server/command_tools.cpp:470-489 | Never signals; takes the first answer of the system that is no interruption: the child's status, that it still runs, or an error. |
| CommandTools.ScopedChildProcess.KillAndWait | src/server/command_tools.cpp:491-499 | No signal to a reaped child; else exactly one, and then a wait up to the end of the child or an error. |
| CommandTools.FeedInput | src/server/command_tools.cpp:714-732 | What was written stays a prefix of the payload, up to the returned offset, and is as much as the writes take. |
| CommandTools.FeedStopsAt | src/server/command_tools.cpp:714-732 | Writing goes on over accepted bytes and interruptions until nothing is left or another event comes; it fails exactly if that is an error other than a full or a broken pipe. |
| CommandTools.Conclude | src/server/command_tools.cpp:765-799 | From the captures alone, the verdict that the complete outputs deserve. |
| CommandTools.VerdictReasons | src/server/command_tools.cpp:765-799 | Each failure comes exactly when its reason applies and none before it does: deadline, more than 64 KiB of output, signal, other end, status, not JSON, not an object. |
| CommandTools.StderrNoteSays | src/server/command_tools.cpp:190-198 | What is reported of standard error: nothing if there was none; else the label, the first 8 KiB, and a mark exactly if there was more. |
| CommandTools.Supervise | src/server/command_tools.cpp:646-763 | The loop over child, poll and the three pipes ends as the run of its specification does. |
| CommandTools.RunEnds | src/server/command_tools.cpp:646-763 | Such a run fails only if a system call fails; it finishes only with both outputs read up to their ends and the child reaped, by the system's report or past the deadline. |
| CommandTools.RunCompletes | src/server/command_tools.cpp:646-763 | And it does finish, if no call fails and both pipes come to their ends and stay ready, at the latest in the first late pass behind as many passes as the longer pipe has events. |
| CommandTools.PassFailsExactly | src/server/command_tools.cpp:646-763 | A pass fails if and only if the wait fails, or poll fails while something is left to poll for, or behind it the write or a read. |
| CommandTools.DeadlineExactly | src/server/command_tools.cpp:652-657 | A pass ends the child exactly if the deadline has passed and a child that was not reaped yet is still not. |
| CommandTools.RunCommandTool | src/server/command_tools.cpp:637-800 | The guard never signals a reaped child, and the wait for it is over however the run ends; a verdict is the one on both complete outputs; success means exit status 0, no signal, and one JSON object that is the complete output within the bound; a timeout needs a passed deadline, a system error a failing call; and without those a run that goes on long enough has a verdict. |
| PathSearch.SearchPath | src/server/command_tools.cpp:110-132 | The loop returns the canonical form of the first candidate of the colon split that is executable, and nothing if and only if none is; candidates are described by prefix, slash and suffix. |
| PathSearch.ResolveExecutablePath | src/server/command_tools.cpp:88-133 | No program for an empty command, the path joined to the base directory for one with a slash, else the search. |
| PathSearch.SearchOfDirectories | src/server/command_tools.cpp:110-132 | For a PATH of absolute directories: the program is found in the first in which "directory/program" is executable, and not found if and only if there is none. |
| PathSearch.JoinedExactly | src/server/command_tools.cpp:118-121 | Joining gives the right side if it is absolute, else the one text that begins with the left, ends with the right, and has one slash between unless the left is empty or ends in one. |
| PathSearch.CandidateExactly | src/server/command_tools.cpp:113-121 | The candidate of an entry is the program joined to the entry, that joined to the base, or the base in place of an empty entry. |
| PathSearch.PathOfTool | src/server/command_tools.cpp:69-86 | Which PATH is searched: the process's if not empty and inherited, else the tool's own, else the process's if not empty, else none. |
| PathSearch.BaseOfTool | src/server/command_tools.cpp:54-59 | The base directory is the tool's working directory, or the process's if it has none. |
| PathSearch.SplitIsExact | src/server/command_tools.cpp:111-115 | The entries have no colon and joined by colons give the text back. |
| PathSearch.OnlyOneSplit | src/server/command_tools.cpp:111-115 | No other list of entries does. |
| PathSearch.EmptyEntryIsBase | src/server/command_tools.cpp:116-119 | An empty entry stands for the text of the base directory if and only if that is absolute (or empty); a relative one is joined to itself. |
| Auth.CheckAuth | src/server/auth.hpp:16-61 | With a key, exactly the header "Bearer " and the key is accepted, for all bytes, in as many iterations as the key is long, at least one, whatever the header. |

## Left out
- The web framework, routes, HTTP responses, metrics, health and logging: the response stream is an object that accepts or refuses a frame.
- The agent library: inference, results, cancellation inside it and the check of role sequences are parameters; no token comes after the result.
- The branches taken when the executor refuses a continuation, which read values already moved away.
- Real clocks, and the set-up of pipes and processes: passes of the supervision loop come from a script, and a run whose script ends first is `Unfinished`.
- 64-bit wrap-around of counters, times and the decimal text of `created`: integers are unbounded.
- Rounding: a JSON number is kept exactly, so one too large for a double, which the JSON library refuses, is accepted, and a fraction is printed with an exponent. Decoding of UTF-8, in the client and by the JSON library: text is what the bytes say.
- Dumping by the JSON library is taken to be the compact text of `Json.Print`, with keys in sorted order for message bodies.
- The messages of errors, and which of several unknown keys is reported: errors are told apart by their cause.
- `estimate_history_tokens`, session snapshots, generation overrides, tool schemas and configuration loading: field by field and without state.
- The callbacks that a disconnect fires, and exceptions thrown by tasks: a task or callback is a number that is run once.
- Runtime.StopNeverBlocks: takes every task to return, since what a task does is not modelled.
- Moving a child process guard into another, and the pages drawn by the test client.
- SessionStore.SessionStore.BeginRequest: states the outcome for a thread that runs alone; its interleavings are the lookup and begin steps of `SessionSpec`.
- StreamSpec.StepKeepsInv: assumes that the metadata is set once, the session is finished once, after the drain and the last token, and the stream is attached once, as the controllers do.
- PathSearch.EmptyEntryIsBase: compares the texts of paths, not the directories they name, since the file system is not modelled.
- ServerRuntime.ServerRuntime.BeginStop: the joins are the conditions of the steps that follow, not waits.
