/** Chat messages as the server stores them. */
module Messages {
  datatype Role = System | User | Assistant | Tool

  datatype ToolCall = ToolCall(id: string, name: string, arguments: string)

  datatype Message = Message(role: Role, content: string, toolCallId: string, toolCalls: seq<ToolCall>)

  function SystemMessage(content: string): Message {
    Message(System, content, "", [])
  }

  function UserMessage(content: string): Message {
    Message(User, content, "", [])
  }

  function AssistantMessage(content: string): Message {
    Message(Assistant, content, "", [])
  }

  function ToolMessage(content: string, toolCallId: string): Message {
    Message(Tool, content, toolCallId, [])
  }

  function AssistantWithToolCalls(content: string, calls: seq<ToolCall>): Message {
    Message(Assistant, content, "", calls)
  }

  /** Joins a server-wide and a per-request prompt with a blank line; an empty one vanishes. */
  function CombineSystemPrompts(basePrompt: string, requestPrompt: string): string {
    if basePrompt == "" then requestPrompt
    else if requestPrompt == "" then basePrompt
    else basePrompt + "\n\n" + requestPrompt
  }

  /** `text` is `first`, `second`, and between them a blank line unless one of them is empty. */
  predicate IsJoined(first: string, second: string, text: string) {
    var gap := if first == "" || second == "" then 0 else 2;
    && |text| == |first| + gap + |second|
    && first <= text && second == text[|first| + gap..]
    && forall i | |first| <= i < |first| + gap :: text[i] == '\n'
  }

  lemma CombinedIsJoined(basePrompt: string, requestPrompt: string)
    ensures IsJoined(basePrompt, requestPrompt, CombineSystemPrompts(basePrompt, requestPrompt))
  {
  }
}
