/** The retained agent history and its system prompt. */
module AgentHistory {
  import opened Messages

  /** The prompt, the retained messages, the base prompt the session store was told last, and the prompts
      that running calls of set_system_prompt have installed here but not passed on to the store yet. */
  datatype State = State(prompt: string, messages: seq<Message>, storePrompt: string, passing: multiset<string>)

  predicate HasLeader(messages: seq<Message>) {
    messages != [] && messages[0].role == System
  }

  /** What follows the leading system message, if there is one. */
  function Body(messages: seq<Message>): seq<Message> {
    if HasLeader(messages) then messages[1..] else messages
  }

  function Initial(prompt: string): State {
    State(prompt, if prompt == "" then [] else [SystemMessage(prompt)], prompt, multiset{})
  }

  // ---------- critical sections ----------

  /** update_system_prompt_state */
  function Updated(messages: seq<Message>, prompt: string): seq<Message> {
    if HasLeader(messages) then
      if prompt == "" then messages[1..]
      else messages[0 := messages[0].(content := prompt)]
    else if prompt != "" then [SystemMessage(prompt)] + messages
    else messages
  }

  /** reset_agent_history_to_system_prompt */
  function Reset(prompt: string): seq<Message> {
    if prompt == "" then [] else [SystemMessage(prompt)]
  }

  datatype Step =
    | UpdatePrompt(prompt: string)
    | PassPrompt(passed: string)
    | Clear
    | Append(message: Message)
    | Replace(replacement: seq<Message>)   // replace_agent_history, swap_agent_history
    | AgentCommit(request: Message, reply: string)

  predicate Enabled(s: State, step: Step) {
    step.PassPrompt? ==> step.passed in s.passing
  }

  function Apply(s: State, step: Step): State
    requires Enabled(s, step)
  {
    match step
    case UpdatePrompt(p) =>
      State(p, Updated(s.messages, p), s.storePrompt, s.passing + multiset{p})
    case PassPrompt(p) => s.(storePrompt := p, passing := s.passing - multiset{p})
    case Clear => s.(messages := Reset(s.prompt))
    case Append(m) => s.(messages := s.messages + [m])
    case Replace(messages) => s.(messages := messages)
    case AgentCommit(m, reply) => s.(messages := s.messages + [m, AssistantMessage(reply)])
  }

  predicate IsRun(s: State, steps: seq<Step>)
    decreases |steps|
  {
    steps == [] || (Enabled(s, steps[0]) && IsRun(Apply(s, steps[0]), steps[1..]))
  }

  function Exec(s: State, steps: seq<Step>): State
    requires IsRun(s, steps)
    decreases |steps|
  {
    if steps == [] then s else Exec(Apply(s, steps[0]), steps[1..])
  }

  lemma {:induction false} ExecSnoc(s: State, steps: seq<Step>, step: Step)
    requires IsRun(s, steps + [step])
    ensures IsRun(s, steps) && Enabled(Exec(s, steps), step)
    ensures Exec(s, steps + [step]) == Apply(Exec(s, steps), step)
    decreases |steps|
  {
    if steps == [] {
      assert (steps + [step])[1..] == [];
    } else {
      assert (steps + [step])[0] == steps[0] && (steps + [step])[1..] == steps[1..] + [step];
      ExecSnoc(Apply(s, steps[0]), steps[1..], step);
    }
  }

  // ---------- the prompt leads ----------

  predicate Leads(s: State) {
    s.prompt != "" ==> HasLeader(s.messages) && s.messages[0].content == s.prompt
  }

  /** Only a replacement can lose the leading prompt, and exactly one that does not begin with it does. */
  lemma StepKeepsLeader(s: State, step: Step)
    requires Leads(s) && Enabled(s, step)
    ensures Leads(Apply(s, step)) <==>
            (step.Replace? && s.prompt != "" ==>
               HasLeader(step.replacement) && step.replacement[0].content == s.prompt)
  {
  }

  /** An update of the prompt and a clear put the prompt first, whatever the history was. */
  lemma PromptIsRestored(s: State, step: Step)
    requires Enabled(s, step) && (step.UpdatePrompt? || step.Clear?)
    ensures Leads(Apply(s, step))
  {
  }

  predicate NoReplacement(steps: seq<Step>) {
    forall i | 0 <= i < |steps| :: !steps[i].Replace?
  }

  lemma {:induction false} RunKeepsLeader(s: State, steps: seq<Step>)
    requires Leads(s) && IsRun(s, steps) && NoReplacement(steps)
    ensures Leads(Exec(s, steps))
    decreases |steps|
  {
    if steps != [] {
      StepKeepsLeader(s, steps[0]);
      RunKeepsLeader(Apply(s, steps[0]), steps[1..]);
    }
  }

  /** Over every run of prompt updates, clears, appends and committed agent chats, a non-empty system
      prompt is the leading system message. */
  lemma PromptAlwaysLeads(prompt: string, steps: seq<Step>)
    requires IsRun(Initial(prompt), steps) && NoReplacement(steps)
    ensures Leads(Exec(Initial(prompt), steps))
  {
    RunKeepsLeader(Initial(prompt), steps);
  }

  /** With replacements, in any run: the prompt leads if an update or a clear came after the last one. */
  lemma {:induction false} PromptLeadsAgain(s: State, steps: seq<Step>, k: nat)
    requires IsRun(s, steps) && k < |steps| && (steps[k].UpdatePrompt? || steps[k].Clear?)
    requires NoReplacement(steps[k..])
    ensures Leads(Exec(s, steps))
    decreases |steps|
  {
    if k == 0 {
      PromptIsRestored(s, steps[0]);
      assert steps[1..] == steps[0..][1..];
      RunKeepsLeader(Apply(s, steps[0]), steps[1..]);
    } else {
      assert steps[1..][k - 1..] == steps[k..];
      PromptLeadsAgain(Apply(s, steps[0]), steps[1..], k - 1);
    }
  }

  /** An update touches nothing but the leading system message: the rest of the history is unchanged, and
      a leader it keeps changes only its content. With an empty prompt it removes one leader. */
  lemma UpdateTouchesOnlyTheLeader(messages: seq<Message>, prompt: string)
    ensures prompt != "" ==>
      && HasLeader(Updated(messages, prompt)) && Updated(messages, prompt)[0].content == prompt
      && Updated(messages, prompt)[1..] == Body(messages)
    ensures prompt == "" ==> Updated(messages, prompt) == Body(messages)
    ensures prompt != "" ==>
      Updated(messages, prompt)[0] ==
      if HasLeader(messages) then messages[0].(content := prompt) else Message(System, prompt, "", [])
  {
  }

  /** What was appended and committed since the last clear: the retained conversation without any prompt. */
  function Conversation(steps: seq<Step>): seq<Message> {
    if steps == [] then [] else Continued(Conversation(steps[..|steps| - 1]), steps[|steps| - 1])
  }

  /** The prompt that a run leaves installed. */
  function PromptAfter(prompt: string, steps: seq<Step>): string {
    if steps == [] then prompt
    else
      var last := steps[|steps| - 1];
      if last.UpdatePrompt? then last.prompt else PromptAfter(prompt, steps[..|steps| - 1])
  }

  /** What a step leaves of the conversation. */
  function Continued(conversation: seq<Message>, step: Step): seq<Message> {
    match step
    case UpdatePrompt(_) => conversation
    case PassPrompt(_) => conversation
    case Clear => []
    case Replace(messages) => messages
    case Append(m) => conversation + [m]
    case AgentCommit(m, reply) => conversation + [m, AssistantMessage(reply)]
  }

  lemma {:induction false} PromptOfRun(prompt: string, steps: seq<Step>)
    requires IsRun(Initial(prompt), steps)
    ensures Exec(Initial(prompt), steps).prompt == PromptAfter(prompt, steps)
    decreases |steps|
  {
    if steps != [] {
      var front, last := steps[..|steps| - 1], steps[|steps| - 1];
      assert steps == front + [last];
      ExecSnoc(Initial(prompt), front, last);
      PromptOfRun(prompt, front);
    }
  }

  /** The guard of an update, readable before the call: there is a prompt to replace, or no system message that
      would be taken for one. */
  predicate SafeUpdate(prompt: string, before: seq<Step>) {
    PromptAfter(prompt, before) != "" || !HasLeader(Conversation(before))
  }

  predicate UpdatesAreSafe(prompt: string, steps: seq<Step>) {
    forall k | 0 <= k < |steps| && steps[k].UpdatePrompt? :: SafeUpdate(prompt, steps[..k])
  }

  /** The history after a run is the prompt followed by the conversation. */
  predicate IsPromptAndConversation(prompt: string, steps: seq<Step>) {
    IsRun(Initial(prompt), steps)
    && Exec(Initial(prompt), steps).messages == Reset(PromptAfter(prompt, steps)) + Conversation(steps)
  }

  ghost predicate HoldsThroughout(prompt: string, steps: seq<Step>) {
    forall k | 0 <= k <= |steps| :: IsPromptAndConversation(prompt, steps[..k])
  }

  lemma PromptAndConversationStep(s: State, step: Step, conversation: seq<Message>)
    requires Enabled(s, step) && !step.Replace?
    requires s.messages == Reset(s.prompt) + conversation
    ensures var s' := Apply(s, step);
      s'.messages == Reset(s'.prompt) + Continued(conversation, step) <==>
      (step.UpdatePrompt? ==> s.prompt != "" || !HasLeader(conversation))
  {
    if step.UpdatePrompt? {
      UpdateTouchesOnlyTheLeader(s.messages, step.prompt);
      if s.prompt == "" && HasLeader(conversation) {
        assert |Updated(conversation, step.prompt)| != |Reset(step.prompt) + conversation|;
      }
    }
  }

  lemma ThroughoutSnoc(prompt: string, front: seq<Step>, last: Step)
    ensures HoldsThroughout(prompt, front + [last]) <==>
            HoldsThroughout(prompt, front) && IsPromptAndConversation(prompt, front + [last])
    ensures UpdatesAreSafe(prompt, front + [last]) <==>
            UpdatesAreSafe(prompt, front) && (last.UpdatePrompt? ==> SafeUpdate(prompt, front))
  {
    hide IsPromptAndConversation, SafeUpdate;
    var steps := front + [last];
    assert steps[..|steps|] == steps && steps[..|front|] == front && steps[|front|] == last;
    assert forall k | 0 <= k <= |front| :: steps[..k] == front[..k];
    assert forall k | 0 <= k < |front| :: steps[k] == front[k];
    assert front[..|front|] == front;
  }

  /** The exact condition, over every run without replacements: the history is at all times the current prompt
      followed by the conversation, if and only if no update comes while the prompt is empty and the
      conversation opens with a system message. So updates leave no trace but the prompt, except there. */
  lemma {:induction false} HistoryIsPromptAndConversation(prompt: string, steps: seq<Step>)
    requires IsRun(Initial(prompt), steps) && NoReplacement(steps)
    ensures HoldsThroughout(prompt, steps) <==> UpdatesAreSafe(prompt, steps)
    decreases |steps|
  {
    if steps == [] {
      assert steps[..0] == [];
    } else {
      var front, last := steps[..|steps| - 1], steps[|steps| - 1];
      assert steps == front + [last];
      ExecSnoc(Initial(prompt), front, last);
      HistoryIsPromptAndConversation(prompt, front);
      ThroughoutSnoc(prompt, front, last);
      PromptOfRun(prompt, front);
      PromptOfRun(prompt, steps);
      if HoldsThroughout(prompt, front) {
        assert front[..|front|] == front;
        assert IsPromptAndConversation(prompt, front);
        PromptAndConversationStep(Exec(Initial(prompt), front), last, Conversation(front));
      }
    }
  }

  /** The exception: a system message appended to an empty history is overwritten by the next update of the
      prompt. */
  lemma AppendedSystemMessageIsOverwritten(x: string, p: string)
    requires p != ""
    ensures var steps := [Append(SystemMessage(x)), UpdatePrompt(p)];
      && IsRun(Initial(""), steps) && Exec(Initial(""), steps).messages == [SystemMessage(p)]
      && !UpdatesAreSafe("", steps)
  {
    var s := Apply(Initial(""), Append(SystemMessage(x)));
    RunCons(s, UpdatePrompt(p), []);
    RunCons(Initial(""), Append(SystemMessage(x)), [UpdatePrompt(p)]);
    var steps := [Append(SystemMessage(x)), UpdatePrompt(p)];
    assert [Append(SystemMessage(x))] + [UpdatePrompt(p)] == steps;
    assert steps[..1] == [Append(SystemMessage(x))] && steps[..1][..0] == [];
    assert HasLeader(Conversation(steps[..1])) && PromptAfter("", steps[..1]) == "";
    assert steps[1].UpdatePrompt? && !SafeUpdate("", steps[..1]);
  }

  // ---------- the prompt after a replacement ----------

  predicate Restores(steps: seq<Step>) {
    exists i :: 0 <= i < |steps| && (steps[i].UpdatePrompt? || steps[i].Clear?)
  }

  /** After a replacement, and until an update or a clear, the history is the conversation alone. */
  lemma {:induction false} ReplacedHistory(prompt: string, steps: seq<Step>, k: nat)
    requires IsRun(Initial(prompt), steps) && k < |steps| && steps[k].Replace?
    requires NoReplacement(steps[k + 1..]) && !Restores(steps[k + 1..])
    ensures Exec(Initial(prompt), steps).messages == Conversation(steps)
    decreases |steps|
  {
    var n := |steps| - 1;
    var front, last := steps[..n], steps[n];
    assert steps == front + [last];
    ExecSnoc(Initial(prompt), front, last);
    if k < n {
      var rest := steps[k + 1..];
      assert rest[|rest| - 1] == last && front[k + 1..] == rest[..|rest| - 1];
      assert forall i | 0 <= i < |rest| - 1 :: front[k + 1..][i] == rest[i];
      ReplacedHistory(prompt, front, k);
    }
  }

  /** The exact condition in a run with replacements, the last of them at step `k`: the prompt leads if and only
      if an update or a clear came after it, or there is no prompt, or what the replacement brought (or what
      was appended to an empty one) begins with the prompt. */
  lemma PromptLeadsIff(prompt: string, steps: seq<Step>, k: nat)
    requires IsRun(Initial(prompt), steps) && k < |steps| && steps[k].Replace? && NoReplacement(steps[k + 1..])
    ensures Leads(Exec(Initial(prompt), steps)) <==>
            || Restores(steps[k + 1..])
            || PromptAfter(prompt, steps) == ""
            || (HasLeader(Conversation(steps)) && Conversation(steps)[0].content == PromptAfter(prompt, steps))
  {
    PromptOfRun(prompt, steps);
    if Restores(steps[k + 1..]) {
      var i :| 0 <= i < |steps[k + 1..]| && (steps[k + 1..][i].UpdatePrompt? || steps[k + 1..][i].Clear?);
      var tail := steps[k + 1 + i..];
      assert tail == steps[k + 1..][i..] && steps[k + 1 + i] == steps[k + 1..][i];
      PromptLeadsAgain(Initial(prompt), steps, k + 1 + i);
    } else {
      ReplacedHistory(prompt, steps, k);
    }
  }

  /** The later of two updates wins, exactly if the first does not remove a leader whose removal shows: the
      first prompt is not empty, or there was no leader, or what the first update leaves has none and the
      old leader carried nothing but its content. */
  lemma LaterUpdateWins(messages: seq<Message>, p: string, q: string)
    ensures Updated(Updated(messages, p), q) == Updated(messages, q) <==>
      || p != "" || !HasLeader(messages)
      || (!HasLeader(messages[1..]) && (q == "" || messages[0].(content := q) == SystemMessage(q)))
  {
    if p == "" && HasLeader(messages) {
      var rest := messages[1..];
      if HasLeader(rest) {
        assert |Updated(rest, q)| < |Updated(messages, q)|;
      } else if q != "" {
        assert Updated(rest, q)[0] == SystemMessage(q);
        assert Updated(messages, q)[0] == messages[0].(content := q);
        assert Updated(messages, q)[1..] == rest == Updated(rest, q)[1..];
        assert Updated(rest, q) == [SystemMessage(q)] + rest;
        if messages[0].(content := q) == SystemMessage(q) {
          assert Updated(messages, q) == [SystemMessage(q)] + rest;
        }
      }
    } else if p != "" {
      UpdateAfterUpdate(messages, p, q);
    }
  }

  lemma UpdateAfterUpdate(messages: seq<Message>, p: string, q: string)
    requires p != ""
    ensures Updated(Updated(messages, p), q) == Updated(messages, q)
  {
    UpdateTouchesOnlyTheLeader(messages, p);
    if !HasLeader(messages) && q != "" {
      assert Updated(Updated(messages, p), q) == [SystemMessage(q)] + messages;
    }
  }

  // ---------- the store's base prompt ----------

  /** Whatever is still on its way to the store is the prompt installed here, and if nothing is, the store has
      that prompt already. A caller can see from its own pending calls whether the first part holds. */
  predicate Settled(s: State) {
    && (forall p | p in s.passing :: p == s.prompt)
    && (s.passing == multiset{} ==> s.storePrompt == s.prompt)
  }

  predicate OnlyPassing(steps: seq<Step>) {
    forall i | 0 <= i < |steps| :: steps[i].PassPrompt?
  }

  lemma {:induction false} SettledAgrees(s: State, steps: seq<Step>)
    requires Settled(s) && IsRun(s, steps) && OnlyPassing(steps)
    ensures Settled(Exec(s, steps))
    decreases |steps|
  {
    if steps != [] { SettledAgrees(Apply(s, steps[0]), steps[1..]); }
  }

  /** All but one of the running calls return, and that one last. */
  lemma {:induction false} PassLast(s: State, last: string) returns (steps: seq<Step>)
    requires last in s.passing
    ensures IsRun(s, steps) && OnlyPassing(steps)
    ensures var e := Exec(s, steps); e.passing == multiset{} && e.storePrompt == last && e.prompt == s.prompt
    decreases |s.passing|
  {
    if p :| p in s.passing - multiset{last} {
      var rest := PassLast(Apply(s, PassPrompt(p)), last);
      steps := PassFirst(s, p, rest);
    } else {
      assert s.passing - multiset{last} == multiset{};
      steps := PassFirst(s, last, []);
    }
  }

  lemma PassFirst(s: State, p: string, rest: seq<Step>) returns (steps: seq<Step>)
    requires p in s.passing && IsRun(Apply(s, PassPrompt(p)), rest) && OnlyPassing(rest)
    ensures OnlyPassing(steps) && IsRun(s, steps) && Exec(s, steps) == Exec(Apply(s, PassPrompt(p)), rest)
  {
    RunCons(s, PassPrompt(p), rest);
    steps := [PassPrompt(p)] + rest;
  }

  /** The exact condition: however the running calls of set_system_prompt return, history and store end with
      the same prompt, if and only if the state is settled. */
  lemma CallsAgreeIffSettled(s: State)
    ensures Settled(s) <==>
            forall steps | IsRun(s, steps) && OnlyPassing(steps) && Exec(s, steps).passing == multiset{} ::
              Exec(s, steps).storePrompt == Exec(s, steps).prompt
  {
    if Settled(s) {
      forall steps | IsRun(s, steps) && OnlyPassing(steps) && Exec(s, steps).passing == multiset{}
        ensures Exec(s, steps).storePrompt == Exec(s, steps).prompt
      {
        SettledAgrees(s, steps);
      }
    } else if p :| p in s.passing && p != s.prompt {
      var steps := PassLast(s, p);
      assert Exec(s, steps).storePrompt != Exec(s, steps).prompt;
    } else {
      var none: seq<Step> := [];
      assert s.passing == multiset{} && IsRun(s, none) && Exec(s, none) == s && OnlyPassing(none);
    }
  }

  /** A call leaves a settled state exactly if every call still running installs the same prompt. */
  lemma CallSettles(s: State, prompt: string)
    ensures Settled(Apply(s, UpdatePrompt(prompt))) <==> forall q | q in s.passing :: q == prompt
  {
    var s' := Apply(s, UpdatePrompt(prompt));
    assert prompt in s'.passing;
    assert forall q :: q in s'.passing <==> q in s.passing || q == prompt;
  }

  /** Every call comes while no other is running. */
  predicate Serial(s: State, steps: seq<Step>)
    requires IsRun(s, steps)
    decreases |steps|
  {
    steps == [] ||
    ((steps[0].UpdatePrompt? ==> s.passing == multiset{}) && Serial(Apply(s, steps[0]), steps[1..]))
  }

  lemma {:induction false} SerialRunSettles(s: State, steps: seq<Step>)
    requires Settled(s) && IsRun(s, steps) && Serial(s, steps)
    ensures Settled(Exec(s, steps))
    decreases |steps|
  {
    if steps != [] {
      if steps[0].UpdatePrompt? { CallSettles(s, steps[0].prompt); }
      SerialRunSettles(Apply(s, steps[0]), steps[1..]);
    }
  }

  /** Over every run in which no call of set_system_prompt overlaps another, history and store have the same
      prompt whenever no call is running. */
  lemma SerialCallsAgree(prompt: string, steps: seq<Step>)
    requires IsRun(Initial(prompt), steps) && Serial(Initial(prompt), steps)
    ensures var s := Exec(Initial(prompt), steps); s.passing == multiset{} ==> s.prompt == s.storePrompt
  {
    SerialRunSettles(Initial(prompt), steps);
  }

  /** They need not agree: of two overlapping calls, the earlier may reach the store last. */
  lemma OverlappingUpdatesDisagree()
    ensures exists steps ::
      && IsRun(Initial(""), steps)
      && var s := Exec(Initial(""), steps);
         s.passing == multiset{} && s.prompt == "b" && s.storePrompt == "a"
  {
    var s0 := Initial("");
    var s1 := Apply(s0, UpdatePrompt("a"));
    var s2 := Apply(s1, UpdatePrompt("b"));
    var s3 := Apply(s2, PassPrompt("b"));
    var s4 := Apply(s3, PassPrompt("a"));
    assert s4.passing == multiset{};
    var p1, p2, p3, p4 := UpdatePrompt("a"), UpdatePrompt("b"), PassPrompt("b"), PassPrompt("a");
    RunCons(s3, p4, []);
    RunCons(s2, p3, [p4]);
    RunCons(s1, p2, [p3] + [p4]);
    RunCons(s0, p1, [p2] + ([p3] + [p4]));
    var steps := [p1] + ([p2] + ([p3] + [p4]));
    assert IsRun(s0, steps) && Exec(s0, steps) == s4;
  }

  lemma RunCons(s: State, step: Step, rest: seq<Step>)
    requires Enabled(s, step) && IsRun(Apply(s, step), rest)
    ensures IsRun(s, [step] + rest) && Exec(s, [step] + rest) == Exec(Apply(s, step), rest)
    ensures [step] + [] == [step]
  {
    assert ([step] + rest)[1..] == rest;
  }

  // ---------- requests outside sessions ----------

  /** prepare_messages */
  function PrepareMessages(prompt: string, messages: seq<Message>): seq<Message> {
    if prompt == "" then messages
    else if HasLeader(messages) then
      [SystemMessage(CombineSystemPrompts(prompt, messages[0].content))] + messages[1..]
    else [SystemMessage(prompt)] + messages
  }

  /** Preparing keeps the conversation and puts the server prompt first, joined with the prompt the request
      brought, which is not lost. */
  lemma PreparedMessages(prompt: string, messages: seq<Message>)
    ensures var p := PrepareMessages(prompt, messages);
      && (prompt == "" ==> p == messages)
      && (prompt != "" ==>
            && HasLeader(p) && Body(p) == Body(messages) && p[0] == Message(System, p[0].content, "", [])
            && IsJoined(prompt, if HasLeader(messages) then messages[0].content else "", p[0].content))
  {
    CombinedIsJoined(prompt, if HasLeader(messages) then messages[0].content else "");
  }
}
