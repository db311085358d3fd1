/** Chat messages as JSON: the writer behind the agent-history responses and the reader of the requests.
    The check of role sequences belongs to the agent library and is a parameter here. */
module MessageCodec {
  import opened Wrappers
  import opened Messages
  import opened Json

  const ROLE := "role"
  const CONTENT := "content"
  const TOOL_CALL_ID := "tool_call_id"
  const TOOL_CALLS := "tool_calls"
  const ID := "id"
  const TYPE := "type"
  const FUNCTION := "function"
  const NAME := "name"
  const ARGUMENTS := "arguments"
  const MESSAGES := "messages"

  const MESSAGE_KEYS := {ROLE, CONTENT, TOOL_CALL_ID, TOOL_CALLS}
  const TOOL_CALL_KEYS := {ID, TYPE, FUNCTION}
  const FUNCTION_KEYS := {NAME, ARGUMENTS}
  const REQUEST_KEYS := {MESSAGES}

  function RoleName(role: Role): string {
    match role
    case System => "system"
    case User => "user"
    case Assistant => "assistant"
    case Tool => "tool"
  }

  // ---------- writer ----------

  function CallBody(call: ToolCall): Value {
    Obj([Field(FUNCTION, Obj([Field(ARGUMENTS, Str(call.arguments)), Field(NAME, Str(call.name))])),
         Field(ID, Str(call.id)), Field(TYPE, Str(FUNCTION))])
  }

  function CallBodies(calls: seq<ToolCall>): seq<Value> {
    if calls == [] then [] else CallBodies(calls[..|calls| - 1]) + [CallBody(calls[|calls| - 1])]
  }

  /** Keys come in the order in which the JSON library sorts them; empty ids and lists are left out. */
  function MessageFields(m: Message): seq<Field> {
    [Field(CONTENT, Str(m.content))] + [Field(ROLE, Str(RoleName(m.role)))]
    + (if m.toolCallId == "" then [] else [Field(TOOL_CALL_ID, Str(m.toolCallId))])
    + (if m.toolCalls == [] then [] else [Field(TOOL_CALLS, Arr(CallBodies(m.toolCalls)))])
  }

  function MessageBody(m: Message): Value {
    Obj(MessageFields(m))
  }

  function MessageBodies(messages: seq<Message>): seq<Value> {
    if messages == [] then [] else MessageBodies(messages[..|messages| - 1]) + [MessageBody(messages[|messages| - 1])]
  }

  /** make_message_body. */
  method MakeMessageBody(m: Message) returns (body: Value)
    ensures body == MessageBody(m)
  {
    var fields := [Field(CONTENT, Str(m.content)), Field(ROLE, Str(RoleName(m.role)))];
    if m.toolCallId != "" {
      fields := fields + [Field(TOOL_CALL_ID, Str(m.toolCallId))];
    }
    if m.toolCalls != [] {
      var calls: seq<Value> := [];
      for i := 0 to |m.toolCalls|
        invariant calls == CallBodies(m.toolCalls[..i])
      {
        assert m.toolCalls[..i + 1][..i] == m.toolCalls[..i];
        calls := calls + [CallBody(m.toolCalls[i])];
      }
      assert m.toolCalls[..|m.toolCalls|] == m.toolCalls;
      fields := fields + [Field(TOOL_CALLS, Arr(calls))];
    }
    return Obj(fields);
  }

  // ---------- reader ----------

  datatype Context = InRequest | InMessage | InToolCall | InFunction

  datatype Error =
    | InvalidJson
    | UnknownField(context: Context)
    | MessagesNotArray
    | RoleNotString
    | ContentNotString
    | InvalidRole
    | CallsOnlyForAssistant
    | MissingToolCallId
    | ToolCallIdOnlyForTool
    | ToolCallsNotArray
    | CallIdNotString
    | CallTypeNotString
    | CallTypeNotFunction
    | CallFunctionNotObject
    | CallNameNotString
    | CallArgumentsNotString
    | InvalidSequence

  /** reject_unknown_keys: an object, with no key outside `allowed`. */
  predicate OnlyKeys(v: Value, allowed: set<string>) {
    v.Obj? && forall i | 0 <= i < |v.fields| :: v.fields[i].key in allowed
  }

  function ParseRole(name: string): (r: Option<Role>)
    ensures forall role :: r == Some(role) <==> name == RoleName(role)
  {
    if name == "system" then Some(System)
    else if name == "user" then Some(User)
    else if name == "assistant" then Some(Assistant)
    else if name == "tool" then Some(Tool)
    else None
  }

  function ParseFunction(id: string, f: Value): Result<ToolCall, Error> {
    if !OnlyKeys(f, FUNCTION_KEYS) then Err(UnknownField(InFunction))
    else match StringAt(f, NAME)
      case None => Err(CallNameNotString)
      case Some(name) =>
        match StringAt(f, ARGUMENTS)
        case None => Err(CallArgumentsNotString)
        case Some(arguments) => Ok(ToolCall(id, name, arguments))
  }

  function ParseToolCall(v: Value): Result<ToolCall, Error> {
    if !OnlyKeys(v, TOOL_CALL_KEYS) then Err(UnknownField(InToolCall))
    else match StringAt(v, ID)
      case None => Err(CallIdNotString)
      case Some(id) =>
        match StringAt(v, TYPE)
        case None => Err(CallTypeNotString)
        case Some(kind) =>
          if kind != FUNCTION then Err(CallTypeNotFunction)
          else match Lookup(v, FUNCTION)
            case Some(Obj(fields)) => ParseFunction(id, Obj(fields))
            case _ => Err(CallFunctionNotObject)
  }

  /** The calls in order, or the error of the first one that is refused. */
  function ParseToolCalls(items: seq<Value>): Result<seq<ToolCall>, Error> {
    if items == [] then Ok([])
    else match ParseToolCalls(items[..|items| - 1])
      case Err(e) => Err(e)
      case Ok(calls) =>
        match ParseToolCall(items[|items| - 1])
        case Err(e) => Err(e)
        case Ok(call) => Ok(calls + [call])
  }

  function ParseToolMessage(v: Value, content: string): Result<Message, Error> {
    if Lookup(v, TOOL_CALLS).Some? then Err(CallsOnlyForAssistant)
    else match StringAt(v, TOOL_CALL_ID)
      case None => Err(MissingToolCallId)
      case Some(id) => Ok(ToolMessage(content, id))
  }

  function ParseOtherMessage(v: Value, role: Role, content: string): Result<Message, Error> {
    if Lookup(v, TOOL_CALL_ID).Some? then Err(ToolCallIdOnlyForTool)
    else match Lookup(v, TOOL_CALLS)
      case None => Ok(Message(role, content, "", []))
      case Some(list) =>
        if role != Assistant then Err(CallsOnlyForAssistant)
        else if !list.Arr? then Err(ToolCallsNotArray)
        else match ParseToolCalls(list.items)
          case Err(e) => Err(e)
          case Ok(calls) => Ok(AssistantWithToolCalls(content, calls))
  }

  /** parse_message up to the check of the sequence. */
  function ReadMessage(v: Value): Result<Message, Error> {
    if !OnlyKeys(v, MESSAGE_KEYS) then Err(UnknownField(InMessage))
    else match StringAt(v, ROLE)
      case None => Err(RoleNotString)
      case Some(name) =>
        match StringAt(v, CONTENT)
        case None => Err(ContentNotString)
        case Some(content) =>
          match ParseRole(name)
          case None => Err(InvalidRole)
          case Some(role) =>
            if role == Tool then ParseToolMessage(v, content) else ParseOtherMessage(v, role, content)
  }

  function ParseMessage(v: Value, seed: seq<Message>, valid: (seq<Message>, Role) -> bool): Result<Message, Error> {
    match ReadMessage(v)
    case Err(e) => Err(e)
    case Ok(m) => if valid(seed, m.role) then Ok(m) else Err(InvalidSequence)
  }

  function ParseMessages(items: seq<Value>, valid: (seq<Message>, Role) -> bool): Result<seq<Message>, Error> {
    if items == [] then Ok([])
    else match ParseMessages(items[..|items| - 1], valid)
      case Err(e) => Err(e)
      case Ok(seed) =>
        match ParseMessage(items[|items| - 1], seed, valid)
        case Err(e) => Err(e)
        case Ok(m) => Ok(seed + [m])
  }

  function ParseRequest(text: string, valid: (seq<Message>, Role) -> bool): Result<seq<Message>, Error> {
    match Parse(text)
    case None => Err(InvalidJson)
    case Some(v) =>
      if !OnlyKeys(v, REQUEST_KEYS) then Err(UnknownField(InRequest))
      else match Lookup(v, MESSAGES)
        case Some(Arr(items)) => ParseMessages(items, valid)
        case _ => Err(MessagesNotArray)
  }

  lemma {:induction false} ParseMessagesError(items: seq<Value>, valid: (seq<Message>, Role) -> bool, n: nat)
    requires n <= |items| && ParseMessages(items[..n], valid).Err?
    ensures ParseMessages(items, valid) == ParseMessages(items[..n], valid)
    decreases |items|
  {
    if n < |items| {
      assert items[..|items| - 1][..n] == items[..n];
      ParseMessagesError(items[..|items| - 1], valid, n);
    } else {
      assert items[..n] == items;
    }
  }

  lemma {:induction false} ParseToolCallsError(items: seq<Value>, n: nat)
    requires n <= |items| && ParseToolCalls(items[..n]).Err?
    ensures ParseToolCalls(items) == ParseToolCalls(items[..n])
    decreases |items|
  {
    if n < |items| {
      assert items[..|items| - 1][..n] == items[..n];
      ParseToolCallsError(items[..|items| - 1], n);
    } else {
      assert items[..n] == items;
    }
  }

  /** The loop over tool_calls in parse_message; it leaves at the first refusal. */
  method CollectToolCalls(items: seq<Value>) returns (r: Result<seq<ToolCall>, Error>)
    ensures r == ParseToolCalls(items)
  {
    var calls: seq<ToolCall> := [];
    for i := 0 to |items|
      invariant ParseToolCalls(items[..i]) == Ok(calls)
    {
      assert items[..i + 1][..i] == items[..i];
      var call := ParseToolCall(items[i]);
      if call.Err? {
        ParseToolCallsError(items, i + 1);
        return Err(call.error);
      }
      calls := calls + [call.value];
    }
    assert items[..|items|] == items;
    return Ok(calls);
  }

  /** The loop of parse_agent_history_request: each message is checked against, and then joins, the ones
      before it. */
  method CollectMessages(items: seq<Value>, valid: (seq<Message>, Role) -> bool)
    returns (r: Result<seq<Message>, Error>)
    ensures r == ParseMessages(items, valid)
  {
    hide ParseMessage;
    var messages: seq<Message> := [];
    for i := 0 to |items|
      invariant ParseMessages(items[..i], valid) == Ok(messages)
    {
      assert items[..i + 1][..i] == items[..i];
      var parsed := ParseMessage(items[i], messages, valid);
      if parsed.Err? {
        ParseMessagesError(items, valid, i + 1);
        return Err(parsed.error);
      }
      messages := messages + [parsed.value];
    }
    assert items[..|items|] == items;
    return Ok(messages);
  }

  /** parse_agent_history_request */
  method ParseAgentHistoryRequest(text: string, valid: (seq<Message>, Role) -> bool)
    returns (r: Result<seq<Message>, Error>)
    ensures r == ParseRequest(text, valid)
  {
    var json := Parse(text);
    if json.None? {
      return Err(InvalidJson);
    }
    if !OnlyKeys(json.value, REQUEST_KEYS) {
      return Err(UnknownField(InRequest));
    }
    var list := Lookup(json.value, MESSAGES);
    if list.None? || !list.value.Arr? {
      return Err(MessagesNotArray);
    }
    r := CollectMessages(list.value.items, valid);
  }

  // ---------- what the reader accepts ----------

  /** Calls only for an assistant, a call id only for a tool. */
  predicate ProperShape(m: Message) {
    && (m.toolCalls != [] ==> m.role == Assistant)
    && (m.toolCallId != "" ==> m.role == Tool)
  }

  ghost predicate Accepted(messages: seq<Message>, valid: (seq<Message>, Role) -> bool) {
    forall i | 0 <= i < |messages| :: ProperShape(messages[i]) && valid(messages[..i], messages[i].role)
  }

  /** A tool message names the call it answers. */
  predicate NamesItsCall(m: Message) {
    m.role == Tool ==> m.toolCallId != ""
  }

  lemma {:induction false} AcceptedMessagesAreProper(items: seq<Value>, valid: (seq<Message>, Role) -> bool)
    requires ParseMessages(items, valid).Ok?
    ensures Accepted(ParseMessages(items, valid).value, valid)
    ensures |ParseMessages(items, valid).value| == |items|
    decreases |items|
  {
    if items != [] {
      var n := |items| - 1;
      AcceptedMessagesAreProper(items[..n], valid);
      var seed := ParseMessages(items[..n], valid).value;
      var all := ParseMessages(items, valid).value;
      forall i | 0 <= i < |all| ensures ProperShape(all[i]) && valid(all[..i], all[i].role) {
        if i < n {
          assert all[..i] == seed[..i] && all[i] == seed[i];
        } else {
          assert all[..i] == seed;
        }
      }
    }
  }

  // ---------- what the reader accepts, from lookups and keys alone ----------

  function Keys(v: Value): set<string>
    requires v.Obj?
  {
    set i | 0 <= i < |v.fields| :: v.fields[i].key
  }

  /** The value stands for the call: an object of type "function" with these three strings and nothing else. */
  ghost predicate IsCall(v: Value, call: ToolCall) {
    && v.Obj? && Keys(v) <= {"id", "type", "function"}
    && Lookup(v, "id") == Some(Str(call.id)) && Lookup(v, "type") == Some(Str("function"))
    && match Lookup(v, "function")
       case Some(Obj(fields)) =>
         && Keys(Obj(fields)) <= {"name", "arguments"}
         && Lookup(Obj(fields), "name") == Some(Str(call.name))
         && Lookup(Obj(fields), "arguments") == Some(Str(call.arguments))
       case _ => false
  }

  ghost predicate AreCalls(items: seq<Value>, calls: seq<ToolCall>) {
    |items| == |calls| && forall i | 0 <= i < |items| :: IsCall(items[i], calls[i])
  }

  /** The value stands for the message: an object with its role by name and its content; with a call id exactly if
      it is a tool's; with calls, in order, at most if it is an assistant's; and with no other key. */
  ghost predicate IsMessage(v: Value, m: Message) {
    && v.Obj? && Keys(v) <= {"role", "content", "tool_call_id", "tool_calls"}
    && Lookup(v, "content") == Some(Str(m.content))
    && Lookup(v, "role") == Some(Str(match m.role case System => "system" case User => "user"
                                                  case Assistant => "assistant" case Tool => "tool"))
    && Lookup(v, "tool_call_id") == (if m.role == Tool then Some(Str(m.toolCallId)) else None)
    && (m.role != Tool ==> m.toolCallId == "")
    && match Lookup(v, "tool_calls")
       case None => m.toolCalls == []
       case Some(Arr(items)) => m.role == Assistant && AreCalls(items, m.toolCalls)
       case _ => false
  }

  lemma OnlyKeysMeans(v: Value, allowed: set<string>)
    ensures OnlyKeys(v, allowed) <==> v.Obj? && Keys(v) <= allowed
  {
    if v.Obj? && Keys(v) <= allowed {
      forall i | 0 <= i < |v.fields| ensures v.fields[i].key in allowed {
        assert v.fields[i].key in Keys(v);
      }
    }
  }

  /** A call is read exactly from the values that stand for it. */
  lemma CallReadExactly(v: Value, call: ToolCall)
    ensures ParseToolCall(v) == Ok(call) <==> IsCall(v, call)
  {
    OnlyKeysMeans(v, TOOL_CALL_KEYS);
    match Lookup(v, FUNCTION)
    case Some(Obj(fields)) => OnlyKeysMeans(Obj(fields), FUNCTION_KEYS);
    case _ =>
    hide Keys, OnlyKeys, Lookup;
  }

  lemma {:induction false} CallsReadExactly(items: seq<Value>, calls: seq<ToolCall>)
    ensures ParseToolCalls(items) == Ok(calls) <==> AreCalls(items, calls)
    decreases |items|
  {
    hide ParseToolCall, IsCall;
    if items != [] {
      var n := |items| - 1;
      if ParseToolCalls(items).Ok? {
        var all := ParseToolCalls(items).value;
        CallsReadExactly(items[..n], all[..|all| - 1]);
        CallReadExactly(items[n], all[|all| - 1]);
        assert all == all[..|all| - 1] + [all[|all| - 1]];
      }
      if AreCalls(items, calls) {
        CallsReadExactly(items[..n], calls[..n]);
        CallReadExactly(items[n], calls[n]);
        assert calls == calls[..n] + [calls[n]];
      }
    }
  }

  /** A message is read exactly from the values that stand for it. */
  lemma MessageReadExactly(v: Value, m: Message)
    ensures ReadMessage(v) == Ok(m) <==> IsMessage(v, m)
  {
    OnlyKeysMeans(v, MESSAGE_KEYS);
    match Lookup(v, TOOL_CALLS)
    case Some(Arr(items)) =>
      CallsReadExactly(items, m.toolCalls);
      hide Keys, OnlyKeys, Lookup, ParseToolCalls, AreCalls;
    case _ =>
      hide Keys, OnlyKeys, Lookup, ParseToolCalls, AreCalls;
  }

  /** The values of a list stand for the messages, and each role may follow what comes before it. */
  ghost predicate AreMessages(items: seq<Value>, messages: seq<Message>, valid: (seq<Message>, Role) -> bool) {
    && |items| == |messages|
    && forall i | 0 <= i < |items| :: IsMessage(items[i], messages[i]) && valid(messages[..i], messages[i].role)
  }

  lemma {:induction false} MessagesReadExactly(items: seq<Value>, messages: seq<Message>, valid: (seq<Message>, Role) -> bool)
    ensures ParseMessages(items, valid) == Ok(messages) <==> AreMessages(items, messages, valid)
    decreases |items|
  {
    hide ReadMessage, IsMessage;
    if items != [] {
      var n := |items| - 1;
      if ParseMessages(items, valid).Ok? && ParseMessages(items, valid).value == messages {
        MessagesReadExactly(items[..n], messages[..|messages| - 1], valid);
        MessageReadExactly(items[n], messages[|messages| - 1]);
        AreMessagesSnoc(items, messages, valid);
      }
      if AreMessages(items, messages, valid) {
        AreMessagesSnoc(items, messages, valid);
        MessagesReadExactly(items[..n], messages[..n], valid);
        MessageReadExactly(items[n], messages[n]);
        assert messages == messages[..n] + [messages[n]];
      }
    }
  }

  lemma AreMessagesSnoc(items: seq<Value>, messages: seq<Message>, valid: (seq<Message>, Role) -> bool)
    requires items != [] && messages != []
    ensures var n, m := |items| - 1, |messages| - 1;
      AreMessages(items, messages, valid) <==>
      AreMessages(items[..n], messages[..m], valid) && n == m
      && IsMessage(items[n], messages[n]) && valid(messages[..n], messages[n].role)
  {
    hide IsMessage;
    var n := |items| - 1;
    if n == |messages| - 1 {
      assert forall i | 0 <= i < n ::
        items[..n][i] == items[i] && messages[..n][i] == messages[i] && messages[..n][..i] == messages[..i];
    }
  }

  /** A request is accepted, and delivers these messages, if and only if its text is JSON, an object with the one
      key "messages", under it an array, whose items stand for the messages, in an order of roles that the check
      accepts. */
  lemma RequestReadExactly(text: string, messages: seq<Message>, valid: (seq<Message>, Role) -> bool)
    ensures ParseRequest(text, valid) == Ok(messages) <==>
            match Parse(text)
            case Some(Obj(fields)) =>
              && Keys(Obj(fields)) <= {"messages"}
              && (match Lookup(Obj(fields), "messages")
                  case Some(Arr(items)) => AreMessages(items, messages, valid)
                  case _ => false)
            case _ => false
  {
    if Parse(text).Some? {
      OnlyKeysMeans(Parse(text).value, REQUEST_KEYS);
      match Lookup(Parse(text).value, MESSAGES)
      case Some(Arr(items)) => MessagesReadExactly(items, messages, valid);
      case _ =>
    }
    hide Keys, OnlyKeys, Lookup, ParseMessages, AreMessages, Parse;
  }

  // ---------- and what it refuses, by the first check that fails ----------

  ghost predicate HasString(v: Value, key: string) {
    Lookup(v, key).Some? && Lookup(v, key).value.Str?
  }

  /** The checks of every message: keys, role and content. */
  ghost predicate IsOutline(v: Value) {
    && v.Obj? && Keys(v) <= {"role", "content", "tool_call_id", "tool_calls"}
    && HasString(v, "role") && HasString(v, "content")
    && Lookup(v, "role").value.s in {"system", "user", "assistant", "tool"}
  }

  lemma MessageRefusals(v: Value)
    ensures var r := ReadMessage(v);
      && (r == Err(UnknownField(InMessage)) <==>
          !v.Obj? || !(Keys(v) <= {"role", "content", "tool_call_id", "tool_calls"}))
      && (r == Err(RoleNotString) <==>
          v.Obj? && Keys(v) <= {"role", "content", "tool_call_id", "tool_calls"} && !HasString(v, "role"))
      && (r == Err(ContentNotString) <==>
          && v.Obj? && Keys(v) <= {"role", "content", "tool_call_id", "tool_calls"} && HasString(v, "role")
          && !HasString(v, "content"))
      && (r == Err(InvalidRole) <==>
          && v.Obj? && Keys(v) <= {"role", "content", "tool_call_id", "tool_calls"}
          && HasString(v, "role") && HasString(v, "content") && !IsOutline(v))
  {
    OnlyKeysMeans(v, MESSAGE_KEYS);
    hide Keys, OnlyKeys, Lookup, ParseToolCalls;
    match Lookup(v, TOOL_CALLS)
    case Some(Arr(items)) => CallErrorsOnly(items);
    case _ =>
  }

  /** A call is refused for a reason of its own. */
  predicate IsCallError(e: Error) {
    || e.CallIdNotString? || e.CallTypeNotString? || e.CallTypeNotFunction? || e.CallFunctionNotObject?
    || e.CallNameNotString? || e.CallArgumentsNotString? || e == UnknownField(InToolCall) || e == UnknownField(InFunction)
  }

  lemma {:induction false} CallErrorsOnly(items: seq<Value>)
    ensures ParseToolCalls(items).Err? ==> IsCallError(ParseToolCalls(items).error)
    decreases |items|
  {
    if items != [] {
      CallErrorsOnly(items[..|items| - 1]);
      hide OnlyKeys, Lookup;
    }
  }

  /** The checks of call id and calls, behind those. */
  lemma MessageShapeRefusals(v: Value)
    requires IsOutline(v)
    ensures var r, role, calls, id := ReadMessage(v), Lookup(v, "role").value.s, Lookup(v, "tool_calls"), Lookup(v, "tool_call_id");
      && (r == Err(CallsOnlyForAssistant) <==>
          calls.Some? && (role == "tool" || (role in {"system", "user"} && id.None?)))
      && (r == Err(MissingToolCallId) <==> role == "tool" && calls.None? && !HasString(v, "tool_call_id"))
      && (r == Err(ToolCallIdOnlyForTool) <==> role != "tool" && id.Some?)
      && (r == Err(ToolCallsNotArray) <==> role == "assistant" && id.None? && calls.Some? && !calls.value.Arr?)
      && (r.Err? && IsCallError(r.error) ==> role == "assistant" && id.None? && calls.Some? && calls.value.Arr?)
  {
    OnlyKeysMeans(v, MESSAGE_KEYS);
    hide Keys, OnlyKeys, Lookup, ParseToolCalls;
    match Lookup(v, TOOL_CALLS)
    case Some(Arr(items)) => CallErrorsOnly(items);
    case _ =>
  }

  /** A call is refused by the first of its checks that fails. */
  lemma CallRefusals(v: Value)
    ensures var r, known := ParseToolCall(v), v.Obj? && Keys(v) <= {"id", "type", "function"};
      var strings := known && HasString(v, "id") && HasString(v, "type");
      var typed := strings && Lookup(v, "type") == Some(Str("function"));
      var body := Lookup(v, "function");
      var inner := typed && body.Some? && body.value.Obj?;
      && (r == Err(UnknownField(InToolCall)) <==> !known)
      && (r == Err(CallIdNotString) <==> known && !HasString(v, "id"))
      && (r == Err(CallTypeNotString) <==> known && HasString(v, "id") && !HasString(v, "type"))
      && (r == Err(CallTypeNotFunction) <==> strings && !typed)
      && (r == Err(CallFunctionNotObject) <==> typed && !inner)
      && (r == Err(UnknownField(InFunction)) <==> inner && !(Keys(body.value) <= {"name", "arguments"}))
      && (r == Err(CallNameNotString) <==>
          inner && Keys(body.value) <= {"name", "arguments"} && !HasString(body.value, "name"))
      && (r == Err(CallArgumentsNotString) <==>
          && inner && Keys(body.value) <= {"name", "arguments"} && HasString(body.value, "name")
          && !HasString(body.value, "arguments"))
  {
    OnlyKeysMeans(v, TOOL_CALL_KEYS);
    match Lookup(v, FUNCTION)
    case Some(Obj(fields)) =>
      OnlyKeysMeans(Obj(fields), FUNCTION_KEYS);
      hide Keys, OnlyKeys, Lookup;
    case _ =>
      hide Keys, OnlyKeys, Lookup;
  }

  /** A request is refused for its text, for an unknown key, for a missing array, or else for the first of its
      messages that is refused, behind those before it. */
  lemma RequestRefusals(text: string, valid: (seq<Message>, Role) -> bool)
    ensures var r, v := ParseRequest(text, valid), Parse(text);
      && (r == Err(InvalidJson) <==> v.None?)
      && (r == Err(UnknownField(InRequest)) <==> v.Some? && !(v.value.Obj? && Keys(v.value) <= {"messages"}))
      && (r == Err(MessagesNotArray) <==>
          && v.Some? && v.value.Obj? && Keys(v.value) <= {"messages"}
          && !(Lookup(v.value, "messages").Some? && Lookup(v.value, "messages").value.Arr?))
  {
    if Parse(text).Some? {
      OnlyKeysMeans(Parse(text).value, REQUEST_KEYS);
      match Lookup(Parse(text).value, MESSAGES)
      case Some(Arr(items)) => MessageErrorsOnly(items, valid);
      case _ =>
    }
    hide Keys, OnlyKeys, Lookup, ParseMessages, Parse;
  }

  lemma OneMessageErrorsOnly(v: Value)
    ensures ReadMessage(v).Err? ==> !IsRequestError(ReadMessage(v).error)
  {
    hide OnlyKeys, Lookup, ParseToolCalls;
    match Lookup(v, TOOL_CALLS)
    case Some(Arr(calls)) => CallErrorsOnly(calls);
    case _ =>
  }

  predicate IsRequestError(e: Error) {
    e.InvalidJson? || e.MessagesNotArray? || e == UnknownField(InRequest)
  }

  lemma {:induction false} MessageErrorsOnly(items: seq<Value>, valid: (seq<Message>, Role) -> bool)
    ensures ParseMessages(items, valid).Err? ==> !IsRequestError(ParseMessages(items, valid).error)
    decreases |items|
  {
    hide ReadMessage;
    if items != [] {
      MessageErrorsOnly(items[..|items| - 1], valid);
      OneMessageErrorsOnly(items[|items| - 1]);
    }
  }

  /** The first refused message decides: those before it are accepted, and its own reason, or the sequence check
      if it can be read, is the answer. */
  lemma {:induction false} FirstRefusal(items: seq<Value>, valid: (seq<Message>, Role) -> bool) returns (n: nat)
    requires ParseMessages(items, valid).Err?
    ensures n < |items| && ParseMessages(items[..n], valid).Ok?
    ensures var seed := ParseMessages(items[..n], valid).value;
      ParseMessages(items, valid).error ==
        if ReadMessage(items[n]).Err? then ReadMessage(items[n]).error else InvalidSequence
    ensures ReadMessage(items[n]).Ok? ==> !valid(ParseMessages(items[..n], valid).value, ReadMessage(items[n]).value.role)
    decreases |items|
  {
    n := |items| - 1;
    if ParseMessages(items[..n], valid).Err? {
      var all := n;
      n := FirstRefusal(items[..n], valid);
      assert items[..all][..n] == items[..n];
    }
    hide ReadMessage;
  }

  // ---------- reading back what was written ----------

  lemma GetTwo(f: Field, g: Field, key: string)
    ensures Get([f, g], key) == if g.key == key then Some(g.value) else if f.key == key then Some(f.value) else None
  {
    GetSnoc([], f, key);
    assert [] + [f] == [f];
    GetSnoc([f], g, key);
    assert [f] + [g] == [f, g];
  }

  lemma CallReadsBack(call: ToolCall)
    ensures ParseToolCall(CallBody(call)) == Ok(call)
  {
    var inner := Obj([Field(ARGUMENTS, Str(call.arguments)), Field(NAME, Str(call.name))]);
    GetTwo(inner.fields[0], inner.fields[1], NAME);
    GetTwo(inner.fields[0], inner.fields[1], ARGUMENTS);
    var fields := [Field(FUNCTION, inner), Field(ID, Str(call.id))];
    var last := Field(TYPE, Str(FUNCTION));
    assert CallBody(call) == Obj(fields + [last]);
    forall key ensures Get(fields + [last], key) ==
        if key == TYPE then Some(Str(FUNCTION)) else if key == ID then Some(Str(call.id))
        else if key == FUNCTION then Some(inner) else None
    {
      GetSnoc(fields, last, key);
      GetTwo(fields[0], fields[1], key);
    }
  }

  lemma {:induction false} CallsReadBack(calls: seq<ToolCall>)
    ensures ParseToolCalls(CallBodies(calls)) == Ok(calls)
    decreases |calls|
  {
    if calls != [] {
      var n := |calls| - 1;
      CallsReadBack(calls[..n]);
      CallReadsBack(calls[n]);
      assert CallBodies(calls)[..|CallBodies(calls)| - 1] == CallBodies(calls[..n]);
      assert calls == calls[..n] + [calls[n]];
    }
  }

  /** What the reader finds under each key of a written message. */
  lemma MessageLookups(m: Message)
    ensures OnlyKeys(MessageBody(m), MESSAGE_KEYS)
    ensures Lookup(MessageBody(m), CONTENT) == Some(Str(m.content))
    ensures Lookup(MessageBody(m), ROLE) == Some(Str(RoleName(m.role)))
    ensures Lookup(MessageBody(m), TOOL_CALL_ID) == if m.toolCallId == "" then None else Some(Str(m.toolCallId))
    ensures Lookup(MessageBody(m), TOOL_CALLS) == if m.toolCalls == [] then None else Some(Arr(CallBodies(m.toolCalls)))
  {
    var f0, f1 := Field(CONTENT, Str(m.content)), Field(ROLE, Str(RoleName(m.role)));
    var two := [f0] + [f1];
    assert two == [f0, f1];
    var id := Field(TOOL_CALL_ID, Str(m.toolCallId));
    var three := if m.toolCallId == "" then two else two + [id];
    var calls := Field(TOOL_CALLS, Arr(CallBodies(m.toolCalls)));
    assert MessageFields(m) == if m.toolCalls == [] then three else three + [calls];
    forall key
      ensures Get(MessageFields(m), key) ==
        if key == TOOL_CALLS && m.toolCalls != [] then Some(calls.value)
        else if key == TOOL_CALL_ID && m.toolCallId != "" then Some(id.value)
        else if key == ROLE then Some(f1.value) else if key == CONTENT then Some(f0.value) else None
    {
      GetTwo(f0, f1, key);
      GetSnoc(two, id, key);
      GetSnoc(three, calls, key);
    }
  }

  /** A written message reads back as itself exactly if its shape is proper and a tool message names its
      call; no other message comes back from it. */
  lemma MessageReadsBack(m: Message)
    ensures ReadMessage(MessageBody(m)) == Ok(m) <==> ProperShape(m) && NamesItsCall(m)
    ensures ReadMessage(MessageBody(m)).Ok? ==> ReadMessage(MessageBody(m)) == Ok(m)
  {
    MessageLookups(m);
    CallsReadBack(m.toolCalls);
    hide MessageBody, OnlyKeys, CallBodies, ParseToolCalls, Lookup;
  }

  lemma {:induction false} BodiesAt(messages: seq<Message>)
    ensures |MessageBodies(messages)| == |messages|
    decreases |messages|
  {
    if messages != [] { BodiesAt(messages[..|messages| - 1]); }
  }

  ghost predicate ReadsBack(messages: seq<Message>, valid: (seq<Message>, Role) -> bool) {
    Accepted(messages, valid) && forall i | 0 <= i < |messages| :: NamesItsCall(messages[i])
  }

  lemma ReadsBackStep(messages: seq<Message>, valid: (seq<Message>, Role) -> bool)
    requires messages != []
    ensures var n := |messages| - 1;
      ReadsBack(messages, valid) <==>
      ReadsBack(messages[..n], valid) && ProperShape(messages[n]) && NamesItsCall(messages[n])
      && valid(messages[..n], messages[n].role)
  {
    var n := |messages| - 1;
    assert forall i | 0 <= i < n :: messages[..n][i] == messages[i] && messages[..n][..i] == messages[..i];
    if ReadsBack(messages[..n], valid) && ProperShape(messages[n]) && NamesItsCall(messages[n])
       && valid(messages[..n], messages[n].role) {
      forall i | 0 <= i < |messages|
        ensures ProperShape(messages[i]) && valid(messages[..i], messages[i].role) && NamesItsCall(messages[i])
      {
        if i < n {
          assert messages[..n][i] == messages[i] && messages[..n][..i] == messages[..i];
        }
      }
    }
    if ReadsBack(messages, valid) {
      forall i | 0 <= i < n
        ensures ProperShape(messages[..n][i]) && valid(messages[..n][..i], messages[..n][i].role)
        ensures NamesItsCall(messages[..n][i])
      {
        assert messages[..n][i] == messages[i] && messages[..n][..i] == messages[..i];
      }
    }
  }

  lemma {:induction false} MessagesReadBack(messages: seq<Message>, valid: (seq<Message>, Role) -> bool)
    ensures ParseMessages(MessageBodies(messages), valid) == Ok(messages) <==> ReadsBack(messages, valid)
    ensures ParseMessages(MessageBodies(messages), valid).Ok? ==>
            ParseMessages(MessageBodies(messages), valid) == Ok(messages)
    decreases |messages|
  {
    hide *;
    if messages == [] {
      NothingReadsBack(valid);
    } else {
      var seed, m := messages[..|messages| - 1], messages[|messages| - 1];
      MessagesReadBack(seed, valid);
      ReadsBackStep(messages, valid);
      BodiesStep(messages);
      LastReadsBack(MessageBodies(seed), seed, m, valid);
      assert messages == seed + [m];
    }
  }

  lemma NothingReadsBack(valid: (seq<Message>, Role) -> bool)
    ensures ParseMessages(MessageBodies([]), valid) == Ok([]) && ReadsBack([], valid)
  {
  }

  lemma BodiesStep(messages: seq<Message>)
    requires messages != []
    ensures MessageBodies(messages) ==
            MessageBodies(messages[..|messages| - 1]) + [MessageBody(messages[|messages| - 1])]
  {
  }

  lemma LastReadsBack(bodies: seq<Value>, seed: seq<Message>, m: Message, valid: (seq<Message>, Role) -> bool)
    requires ParseMessages(bodies, valid).Ok? ==> ParseMessages(bodies, valid) == Ok(seed)
    ensures var r := ParseMessages(bodies + [MessageBody(m)], valid);
      && (r == Ok(seed + [m]) <==>
          ParseMessages(bodies, valid).Ok? && ProperShape(m) && NamesItsCall(m) && valid(seed, m.role))
      && (r.Ok? ==> r == Ok(seed + [m]))
  {
    MessageReadsBack(m);
    var all := bodies + [MessageBody(m)];
    assert all[..|all| - 1] == bodies && all[|all| - 1] == MessageBody(m);
    hide MessageBody, ReadMessage, ProperShape, NamesItsCall;
  }

  /** The request text that carries a message list. */
  function RequestText(messages: seq<Message>): string {
    Print(Obj([Field(MESSAGES, Arr(MessageBodies(messages)))]))
  }

  /** Through the text: writing and reading a list gives it back exactly if the reader accepts its shapes
      and its role sequence and each tool message names its call; otherwise it is refused. */
  lemma HistoryRoundTrip(messages: seq<Message>, valid: (seq<Message>, Role) -> bool)
    ensures ParseRequest(RequestText(messages), valid) == Ok(messages) <==>
            Accepted(messages, valid) && forall i | 0 <= i < |messages| :: NamesItsCall(messages[i])
    ensures ParseRequest(RequestText(messages), valid).Ok? ==> ParseRequest(RequestText(messages), valid) == Ok(messages)
  {
    RequestParses(messages, valid);
    MessagesReadBack(messages, valid);
    hide ParseRequest, RequestText, ParseMessages, MessageBodies, Accepted, NamesItsCall;
  }

  lemma RequestParses(messages: seq<Message>, valid: (seq<Message>, Role) -> bool)
    ensures ParseRequest(RequestText(messages), valid) == ParseMessages(MessageBodies(messages), valid)
  {
    var v := Obj([Field(MESSAGES, Arr(MessageBodies(messages)))]);
    ParseOfPrint(v);
    OneField(Field(MESSAGES, Arr(MessageBodies(messages))));
    hide ParseMessages, MessageBodies, Print, Parse, Lookup, OnlyKeys;
  }

  lemma OneField(field: Field)
    requires field.key == MESSAGES
    ensures OnlyKeys(Obj([field]), REQUEST_KEYS) && Lookup(Obj([field]), MESSAGES) == Some(field.value)
  {
    GetSnoc([], field, MESSAGES);
    assert [] + [field] == [field];
  }

  /** So any list that a request delivered survives being written and read again, exactly if its tool
      messages have non-empty call ids. */
  lemma DeliveredListsRoundTrip(text: string, valid: (seq<Message>, Role) -> bool)
    requires ParseRequest(text, valid).Ok?
    ensures var messages := ParseRequest(text, valid).value;
      ParseRequest(RequestText(messages), valid) == Ok(messages) <==>
      forall i | 0 <= i < |messages| :: NamesItsCall(messages[i])
  {
    AcceptedMessagesAreProper(Lookup(Parse(text).value, MESSAGES).value.items, valid);
    HistoryRoundTrip(ParseRequest(text, valid).value, valid);
  }

  /** The exception is reachable: a tool message with an empty call id is accepted, and what is written for
      it is refused. */
  lemma EmptyCallIdIsLost(valid: (seq<Message>, Role) -> bool)
    requires valid([], Tool)
    ensures var fields := [Field(CONTENT, Str(""))] + [Field(ROLE, Str("tool"))] + [Field(TOOL_CALL_ID, Str(""))];
      && ParseMessages([Obj(fields)], valid) == Ok([ToolMessage("", "")])
      && ParseMessages([MessageBody(ToolMessage("", ""))], valid).Err?
  {
    var f0, f1, f2 := Field(CONTENT, Str("")), Field(ROLE, Str("tool")), Field(TOOL_CALL_ID, Str(""));
    var v := Obj([f0] + [f1] + [f2]);
    forall key ensures Get(v.fields, key) ==
        if key == TOOL_CALL_ID then Some(Str("")) else if key == ROLE then Some(Str("tool"))
        else if key == CONTENT then Some(Str("")) else None
    {
      GetSnoc([f0] + [f1], f2, key);
      GetTwo(f0, f1, key);
      assert [f0] + [f1] == [f0, f1];
    }
    assert RoleName(Tool) == "tool";
    assert ReadMessage(v) == Ok(ToolMessage("", ""));
    assert ParseMessages([v], valid) == Ok([ToolMessage("", "")]) by {
      assert [v][..0] == [] && [] + [ToolMessage("", "")] == [ToolMessage("", "")];
    }
    var m := ToolMessage("", "");
    MessageReadsBack(m);
    assert [MessageBody(m)][..0] == [];
  }

  // ---------- the response is not a request ----------

  function SnapshotBody(messages: seq<Message>, estimatedTokens: nat, contextSize: nat, exceeded: bool): Value {
    Obj([Field("context_exceeded", Bool(exceeded)), Field("context_size", Num(contextSize)),
         Field("estimated_tokens", Num(estimatedTokens)), Field(MESSAGES, Arr(MessageBodies(messages)))])
  }

  /** A history response carries the messages and its three counters, each under its name: what stands under
      "messages" reads back as the list, if that is one that survives. */
  lemma SnapshotReadsBack(messages: seq<Message>, estimatedTokens: nat, contextSize: nat, exceeded: bool,
                          valid: (seq<Message>, Role) -> bool)
    ensures var v := Parse(Print(SnapshotBody(messages, estimatedTokens, contextSize, exceeded)));
      && v.Some? && Lookup(v.value, "estimated_tokens") == Some(Num(estimatedTokens))
      && Lookup(v.value, "context_size") == Some(Num(contextSize))
      && Lookup(v.value, "context_exceeded") == Some(Bool(exceeded))
      && Lookup(v.value, "messages").Some? && Lookup(v.value, "messages").value.Arr?
      && (AreMessages(Lookup(v.value, "messages").value.items, messages, valid) <==> ReadsBack(messages, valid))
  {
    var v := SnapshotBody(messages, estimatedTokens, contextSize, exceeded);
    ParseOfPrint(v);
    var f0, f1 := Field("context_exceeded", Bool(exceeded)), Field("context_size", Num(contextSize));
    var f2, f3 := Field("estimated_tokens", Num(estimatedTokens)), Field(MESSAGES, Arr(MessageBodies(messages)));
    assert v.fields == [f0, f1, f2] + [f3] && [f0, f1, f2] == [f0, f1] + [f2];
    forall key ensures Get(v.fields, key) ==
        if key == f3.key then Some(f3.value) else if key == f2.key then Some(f2.value)
        else if key == f1.key then Some(f1.value) else if key == f0.key then Some(f0.value) else None
    {
      GetSnoc([f0, f1, f2], f3, key);
      GetSnoc([f0, f1], f2, key);
      GetTwo(f0, f1, key);
    }
    MessagesReadBack(messages, valid);
    MessagesReadExactly(MessageBodies(messages), messages, valid);
    hide Parse, Print, MessageBodies, ParseMessages, AreMessages, ReadsBack;
  }

  /** The body of a history response cannot be sent back as it is: its counters are unknown keys. */
  lemma SnapshotIsRefused(messages: seq<Message>, estimatedTokens: nat, contextSize: nat, exceeded: bool,
                          valid: (seq<Message>, Role) -> bool)
    ensures ParseRequest(Print(SnapshotBody(messages, estimatedTokens, contextSize, exceeded)), valid)
            == Err(UnknownField(InRequest))
  {
    var v := SnapshotBody(messages, estimatedTokens, contextSize, exceeded);
    ParseOfPrint(v);
    assert v.fields[0].key == "context_exceeded" && |"context_exceeded"| == 16 && |MESSAGES| == 8;
    assert v.fields[0].key !in REQUEST_KEYS;
  }
}
